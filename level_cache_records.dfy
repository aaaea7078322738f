/**
 * The table of best times in scripts/level/levelCache.ts (lines 393-457).
 * localStorage is not modelled: the stored table is handed to the
 * constructor, and what would be written back is a field.
 */
module LevelCacheRecords {
  import opened JsNumbers
  import opened Wrappers
  import opened LevelCacheNames
  import opened LevelCacheTimes
  import opened Text

  /** `LevelRecord` (lines 36-40). */
  datatype LevelRecord = LevelRecord(time: Number, name: string, fmt: string)

  /** The name a record keeps (lines 426 and 430): trimmed, "-" when that leaves nothing. */
  function RecordName(name: Option<string>): (r: string)
    ensures r != []
    ensures Trimmed(name) != [] ==> r == Trimmed(name)
  {
    if Trimmed(name) == [] then "-" else Trimmed(name)
  }

  /**
   * The best times by level id or name, the last name entered, and the
   * copies of both in localStorage.
   */
  class LevelRecords {
    var records: map<string, LevelRecord>
    var lastRecordName: Option<string>
    var storedRecords: Option<map<string, LevelRecord>>
    var storedLastRecordName: Option<string>
    /** `Strings.DecimalSeparator` (scripts/ui/strings.ts:30-31). */
    const separator: string

    /** The table and the last name are as localStorage holds them. */
    ghost predicate Saved()
      reads this`records, this`lastRecordName, this`storedRecords, this`storedLastRecordName
    {
      storedRecords == Some(records) && storedLastRecordName == lastRecordName
    }

    /**
     * The first `getLevelRecord` (lines 394-418): the stored table, or an
     * empty one when there is none, with the texts written under the
     * opposite decimal separator rewritten (`Normalized`). `order` is the
     * order in which `for (let n in ...)` visits the table's keys.
     */
    constructor(stored: Option<map<string, LevelRecord>>, order: seq<string>, storedLast: Option<string>,
                decimalSeparator: string, oppositeSeparator: string)
      ensures records == (if stored.Some? then Normalized(stored.value, order, oppositeSeparator, decimalSeparator) else map[])
      ensures lastRecordName == storedLast && storedRecords == stored && storedLastRecordName == storedLast
      ensures separator == decimalSeparator
    {
      records := if stored.Some? then Normalized(stored.value, order, oppositeSeparator, decimalSeparator) else map[];
      lastRecordName := storedLast;
      storedRecords := stored;
      storedLastRecordName := storedLast;
      separator := decimalSeparator;
    }

    /**
     * `getLevelRecord` once loaded (line 420): the record under the key, or
     * null. The table is a map, so names that a plain object inherits, such
     * as "constructor", find nothing here.
     */
    function GetLevelRecord(levelIdOrName: string): (r: Option<LevelRecord>)
      reads this`records
      ensures r.Some? <==> levelIdOrName in records
      ensures r.Some? ==> r.value == records[levelIdOrName]
    {
      if levelIdOrName in records then Some(records[levelIdOrName]) else None
    }

    /**
     * `setLevelRecord` (lines 423-443): the record under the key becomes the
     * time, the trimmed name (or "-") and the formatted time; the table is
     * saved; the last name becomes the trimmed name, saved when it changed.
     *
     * The stored text is the one the formatter of lines 459-468 evidently
     * intends, `LevelCacheTimes.FormatLevelRecordTime`, which caps the time
     * before converting it. As written, `(milliseconds / 10) | 0` wraps
     * first (`LevelCacheTimes.FormatLevelRecordTimeAsWritten`).
     */
    method SetLevelRecord(levelIdOrName: string, time: Number, name: Option<string>)
      modifies this`records, this`lastRecordName, this`storedRecords, this`storedLastRecordName
      ensures records == old(records)[levelIdOrName := LevelRecord(time, RecordName(name), FormatLevelRecordTime(time, separator))]
      ensures storedRecords == Some(records)
      ensures lastRecordName == Some(Trimmed(name))
      ensures old(lastRecordName) != Some(Trimmed(name)) ==> storedLastRecordName == lastRecordName
      ensures old(lastRecordName) == Some(Trimmed(name)) ==> storedLastRecordName == old(storedLastRecordName)
      ensures old(Saved()) ==> Saved()
    {
      var trimmed := Trimmed(name);
      var record := LevelRecord(time, if trimmed == [] then "-" else trimmed, FormatLevelRecordTime(time, separator));
      records := records[levelIdOrName := record];
      storedRecords := Some(records);
      if lastRecordName != Some(trimmed) {
        lastRecordName := Some(trimmed);
        storedLastRecordName := lastRecordName;
      }
    }

    /** `deleteLevelRecord` (lines 445-452): the key removed, and the table saved when it was there. */
    method DeleteLevelRecord(name: string)
      modifies this`records, this`storedRecords
      ensures records == old(records) - {name}
      ensures name in old(records) ==> storedRecords == Some(records)
      ensures name !in old(records) ==> storedRecords == old(storedRecords)
      ensures old(Saved()) ==> Saved()
    {
      if name in records {
        records := records - {name};
        storedRecords := Some(records);
      }
    }

    /** `clearLastRecordName` (lines 454-457): a non-empty last name becomes "", saved. */
    method ClearLastRecordName()
      modifies this`lastRecordName, this`storedLastRecordName
      ensures old(lastRecordName).Some? && old(lastRecordName).value != "" ==> lastRecordName == Some("") && storedLastRecordName == Some("")
      ensures !(old(lastRecordName).Some? && old(lastRecordName).value != "") ==> lastRecordName == old(lastRecordName) && storedLastRecordName == old(storedLastRecordName)
      ensures old(Saved()) ==> Saved()
    {
      if lastRecordName.Some? && lastRecordName.value != "" {
        lastRecordName := Some("");
        storedLastRecordName := lastRecordName;
      }
    }
  }

  /** `fmt.replace(opposite, separator)`: the first occurrence of `pat` replaced by `replacement`, or the text as it is. */
  function ReplaceFirst(s: string, pat: string, replacement: string): string {
    var i := IndexOf(s, pat, 0);
    if i < 0 then s else s[..i] + replacement + s[i + |pat|..]
  }

  /**
   * The loop of lines 406-414 over the keys in `order`: a record whose text
   * holds `opposite` has its first one replaced by `separator`, and the walk
   * stops at the first record whose text holds none. Keys the table lacks
   * are passed over. Only the texts change.
   */
  function Normalized(records: map<string, LevelRecord>, order: seq<string>, opposite: string, separator: string): (r: map<string, LevelRecord>)
    ensures r.Keys == records.Keys
    ensures forall k :: k in r ==> r[k].time == records[k].time && r[k].name == records[k].name
    decreases |order|
  {
    if order == [] then records
    else if order[0] !in records then Normalized(records, order[1..], opposite, separator)
    else
      var record := records[order[0]];
      if IndexOf(record.fmt, opposite, 0) < 0 then records
      else Normalized(records[order[0] := record.(fmt := ReplaceFirst(record.fmt, opposite, separator))], order[1..], opposite, separator)
  }

  /** The first `c` from `from` on is the one at `j` when none comes before it. */
  lemma {:induction false} FirstChar(s: string, c: char, from: nat, j: nat)
    requires from <= j < |s| && s[j] == c && forall k :: from <= k < j ==> s[k] != c
    ensures IndexOf(s, [c], from) == j
    decreases j - from
  {
    assert OccursAt(s, [c], from) <==> s[from] == c by {
      assert MatchesFrom(s, [c], from, 1);
    }
    if from < j {
      FirstChar(s, c, from + 1, j);
    }
  }

  /**
   * A time formatted under the separator `opposite` (a single character that
   * is neither a digit nor "-") reads, after the rewrite, as the time
   * formatted under `separator`.
   */
  lemma RewriteRelocalizes(ms: Number, opposite: char, separator: string)
    requires !IsDigit(opposite) && opposite != '-'
    ensures ReplaceFirst(FormatLevelRecordTime(ms, [opposite]), [opposite], separator) == FormatLevelRecordTime(ms, separator)
    ensures !NoTime(ms) <==> IndexOf(FormatLevelRecordTime(ms, [opposite]), [opposite], 0) >= 0
  {
    var t := FormatLevelRecordTime(ms, [opposite]);
    if NoTime(ms) {
      assert t == "-";
      assert !OccursAt(t, [opposite], 0) by {
        assert !MatchesFrom(t, [opposite], 0, 0);
      }
      assert IndexOf(t, [opposite], 0) == -1;
    } else {
      var cs := Centiseconds(ms);
      assert t == DigitsText(cs, [opposite]) && FormatLevelRecordTime(ms, separator) == DigitsText(cs, separator);
      var w, rest := NatToString(cs / 100), MainHelpers.Format2(cs % 100) + " s";
      assert DigitsText(cs, [opposite]) == w + [opposite] + rest && DigitsText(cs, separator) == w + separator + rest;
      ReplaceAfterDigits(w, opposite, rest, separator);
    }
  }

  /** In digits, then `c`, then anything, the first `c` is the one after the digits, and replacing it swaps in `separator`. */
  lemma ReplaceAfterDigits(w: string, c: char, rest: string, separator: string)
    requires !IsDigit(c) && forall k :: 0 <= k < |w| ==> IsDigit(w[k])
    ensures IndexOf(w + [c] + rest, [c], 0) == |w|
    ensures ReplaceFirst(w + [c] + rest, [c], separator) == w + separator + rest
  {
    var t := w + [c] + rest;
    assert t[|w|] == c;
    forall k | 0 <= k < |w| ensures t[k] != c {
      assert t[k] == w[k];
    }
    FirstChar(t, c, 0, |w|);
    assert t[..|w|] == w && t[|w| + 1..] == rest;
  }

  /** Every key of the table holds a time, and its text is formatted under `opposite` if the walk is still to visit it, under `separator` otherwise. */
  predicate PartlyLocalized(records: map<string, LevelRecord>, order: seq<string>, opposite: char, separator: string) {
    forall k :: k in records ==>
      && !NoTime(records[k].time)
      && records[k].fmt == FormatLevelRecordTime(records[k].time, if k in order then [opposite] else separator)
  }

  /** The keys after the first of a list without repeats are the others, and not the first. */
  lemma DistinctTail(order: seq<string>)
    requires |order| > 0 && forall i, j :: 0 <= i < j < |order| ==> order[i] != order[j]
    ensures order[0] !in order[1..]
    ensures forall k :: k in order[1..] <==> k in order && k != order[0]
    ensures forall i, j :: 0 <= i < j < |order[1..]| ==> order[1..][i] != order[1..][j]
  {
    var rest := order[1..];
    forall j | 0 <= j < |rest| ensures rest[j] != order[0] {
      assert rest[j] == order[j + 1];
    }
    assert forall k :: k in order && k != order[0] ==> k in rest by {
      forall k | k in order && k != order[0] ensures k in rest {
        var j :| 0 <= j < |order| && order[j] == k;
        assert rest[j - 1] == k;
      }
    }
  }

  /** Rewriting the first record of the walk leaves the table partly localised for the rest of the walk. */
  lemma StepLocalized(records: map<string, LevelRecord>, order: seq<string>, opposite: char, separator: string)
    requires !IsDigit(opposite) && opposite != '-'
    requires |order| > 0 && order[0] in records && order[0] !in order[1..]
    requires forall k :: k in order[1..] <==> k in order && k != order[0]
    requires PartlyLocalized(records, order, opposite, separator)
    ensures IndexOf(records[order[0]].fmt, [opposite], 0) >= 0
    ensures var record := records[order[0]];
      PartlyLocalized(records[order[0] := record.(fmt := ReplaceFirst(record.fmt, [opposite], separator))], order[1..], opposite, separator)
  {
    var key, record := order[0], records[order[0]];
    assert key in order;
    RewriteRelocalizes(record.time, opposite, separator);
    var next := records[key := record.(fmt := ReplaceFirst(record.fmt, [opposite], separator))];
    forall k | k in next
      ensures !NoTime(next[k].time)
      ensures next[k].fmt == FormatLevelRecordTime(next[k].time, if k in order[1..] then [opposite] else separator)
    {
      if k != key {
        assert next[k] == records[k];
      }
    }
  }

  /** Every text of the table is its time formatted under `separator`. */
  predicate Localized(records: map<string, LevelRecord>, separator: string) {
    forall k :: k in records ==> records[k].fmt == FormatLevelRecordTime(records[k].time, separator)
  }

  /**
   * A table saved under the opposite separator, every record holding a
   * time and `order` listing every key once, reads back with every text
   * formatted under the current separator.
   */
  lemma {:induction false} NormalizedRelocalizes(records: map<string, LevelRecord>, order: seq<string>, opposite: char, separator: string)
    requires !IsDigit(opposite) && opposite != '-'
    requires forall i, j :: 0 <= i < j < |order| ==> order[i] != order[j]
    requires PartlyLocalized(records, order, opposite, separator)
    ensures Localized(Normalized(records, order, [opposite], separator), separator)
    decreases |order|
  {
    if order != [] {
      var rest := order[1..];
      DistinctTail(order);
      if order[0] !in records {
        assert PartlyLocalized(records, rest, opposite, separator);
        NormalizedRelocalizes(records, rest, opposite, separator);
        assert Normalized(records, order, [opposite], separator) == Normalized(records, rest, [opposite], separator);
      } else {
        var record := records[order[0]];
        StepLocalized(records, order, opposite, separator);
        var next := records[order[0] := record.(fmt := ReplaceFirst(record.fmt, [opposite], separator))];
        NormalizedRelocalizes(next, rest, opposite, separator);
        assert Normalized(records, order, [opposite], separator) == Normalized(next, rest, [opposite], separator);
      }
    }
  }

  /** The walk stops at the first record of the table whose text lacks the opposite separator: nothing changes. */
  lemma NormalizedStopsAtCurrent(records: map<string, LevelRecord>, order: seq<string>, opposite: string, separator: string)
    requires |order| > 0 && order[0] in records && IndexOf(records[order[0]].fmt, opposite, 0) < 0
    ensures Normalized(records, order, opposite, separator) == records
  {
  }

  /** After a record is set, reading it back gives the new record, whose text identifies the time to the centisecond. */
  lemma RecordReadBack(records: map<string, LevelRecord>, key: string, time: Number, name: Option<string>, separator: string, other: Number)
    requires !NoTime(time) && !NoTime(other)
    requires FormatLevelRecordTime(other, separator) == records[key := LevelRecord(time, RecordName(name), FormatLevelRecordTime(time, separator))][key].fmt
    ensures Centiseconds(other) == Centiseconds(time)
  {
    FormatIdentifiesCentiseconds(other, time, separator);
  }
}
