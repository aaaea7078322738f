/**
 * How scripts/level/levelCache.ts prepares a level for download
 * (`downloadLevel`, lines 215-289): the text is edited without being
 * parsed. What the cache holds is a parameter; writing the file is the
 * platform's.
 */
module LevelCacheDownload {
  import opened Wrappers
  import opened Text
  import opened LevelCacheNames

  const NameKey: string := "\"name\":\""
  const ProcessedImageKey: string := "\"processedImage\":"
  const ThumbnailImageKey: string := "\"thumbnailImage\":"
  const PolygonsKey: string := "\"polygons\":"

  /** `json.substr(0, n)` */
  function Head(json: string, n: int): (r: string)
    ensures |r| <= |json| && r == json[..|r|]
    ensures 0 <= n <= |json| ==> r == json[..n]
  {
    if n <= 0 then [] else if n >= |json| then json else json[..n]
  }

  /** `json.substr(start)`: a negative start counts back from the end. */
  function Tail(json: string, start: int): (r: string)
    ensures 0 <= start <= |json| ==> r == json[start..]
  {
    if start < 0 then json[if |json| + start > 0 then |json| + start else 0..]
    else if start >= |json| then [] else json[start..]
  }

  /** No occurrence of `pat` in `s` starts before `n`. */
  predicate NoneBefore(s: string, pat: string, n: int) {
    forall i :: 0 <= i < n ==> !OccursAt(s, pat, i)
  }

  /** An occurrence that ends inside the first part of a concatenation. */
  lemma OccursPrefix(a: string, b: string, pat: string, i: nat)
    requires i + |pat| <= |a|
    ensures OccursAt(a + b, pat, i) <==> OccursAt(a, pat, i)
  {
    MatchesPrefix(a, b, pat, i, 0);
  }

  lemma {:induction false} MatchesPrefix(a: string, b: string, pat: string, i: nat, k: nat)
    requires i + |pat| <= |a| && k <= |pat|
    ensures MatchesFrom(a + b, pat, i, k) == MatchesFrom(a, pat, i, k)
    decreases |pat| - k
  {
    if k < |pat| {
      MatchesPrefix(a, b, pat, i, k + 1);
    }
  }

  /** A quote at `i`, and only there, is an occurrence of the one-character pattern. */
  lemma OccursQuote(s: string, i: nat)
    ensures OccursAt(s, "\"", i) <==> i < |s| && s[i] == '"'
  {
  }

  /** A quote at `e` with none from `from` up to it is the quote `indexOf` finds. */
  lemma QuoteFirst(json: string, from: nat, e: nat)
    requires from <= e < |json| && json[e] == '"'
    requires forall k :: from <= k < e ==> json[k] != '"'
    ensures IndexOf(json, "\"", from) == e
  {
    OccursQuote(json, e);
    forall i | from <= i < e ensures !OccursAt(json, "\"", i) {
      OccursQuote(json, i);
    }
    IndexOfFirst(json, "\"", from, e);
  }

  /** The built-in level's text with `name` after its first `"name":"` (lines 232-233). */
  function WithName(json: string, name: string): string {
    var s := IndexOf(json, NameKey, 0) + |NameKey|;
    Head(json, s) + name + Tail(json, IndexOf(json, "\"", s))
  }

  /**
   * A built-in level whose first `"name":"` is at `s`, with the closing
   * quote of the name at `e`, gets `name` in place of the old name and
   * keeps the rest of its text.
   */
  lemma WithNameReplacesName(json: string, name: string, s: nat, e: nat)
    requires OccursAt(json, NameKey, s) && NoneBefore(json, NameKey, s)
    requires s + |NameKey| <= e < |json| && json[e] == '"'
    requires forall k :: s + |NameKey| <= k < e ==> json[k] != '"'
    ensures WithName(json, name) == json[..s + |NameKey|] + name + json[e..]
  {
    IndexOfFirst(json, NameKey, 0, s);
    QuoteFirst(json, s + |NameKey|, e);
  }

  /** The part of the text a nulling replaces: `json[start..end]`, or nothing. */
  datatype Cut = NoCut | Cut(start: nat, end: nat)

  /** The text with `json[v..w]` replaced by the literal null (`json.substr(0, v) + "null" + json.substr(w)`). */
  function Splice(json: string, v: nat, w: nat): (r: string)
    requires v <= w <= |json|
    ensures |r| == |json| - (w - v) + 4
  {
    json[..v] + "null" + json[w..]
  }

  /** The text with the cut, if any, replaced by null. */
  function Apply(json: string, c: Cut): (r: string)
    requires c.Cut? ==> c.start <= c.end <= |json|
    ensures c.NoCut? ==> r == json
  {
    if c.NoCut? then json else Splice(json, c.start, c.end)
  }

  /**
   * Lines 247-255: where the string value after the first `key` lies, from
   * its opening quote to just past the next quote; no cut when the key is
   * missing or its value does not start with a quote.
   */
  function StringCut(json: string, key: string): (c: Cut)
    ensures c.Cut? ==> c.start + 1 < c.end <= |json| && json[c.start] == '"' && json[c.end - 1] == '"'
    ensures c.Cut? ==> c.start == IndexOf(json, key, 0) + |key|
  {
    var s := IndexOf(json, key, 0);
    if s < 0 then NoCut
    else
      var v := s + |key|;
      if !(v < |json| && json[v] == '"') then NoCut
      else
        var e := IndexOf(json, "\"", v + 1);
        if e > v then Cut(v, e + 1) else NoCut
  }

  /** The text with the string value after the first `key` nulled. */
  function NulledString(json: string, key: string): (r: string)
    ensures StringCut(json, key).NoCut? ==> r == json
  {
    Apply(json, StringCut(json, key))
  }

  /** No character strictly inside a string cut is a quote: the cut ends at the first quote after the opening one. */
  lemma StringCutQuoteFree(json: string, key: string)
    requires StringCut(json, key).Cut?
    ensures forall k :: StringCut(json, key).start < k < StringCut(json, key).end - 1 ==> json[k] != '"'
  {
    var c := StringCut(json, key);
    forall k | c.start < k < c.end - 1 ensures json[k] != '"' {
      IndexOfNoneBefore(json, "\"", c.start + 1, k);
      OccursQuote(json, k);
    }
  }

  /** Without the key, or with a value that is not a string, nothing is cut. */
  lemma StringCutAbsent(json: string, key: string)
    requires IndexOf(json, key, 0) < 0 || !(IndexOf(json, key, 0) + |key| < |json| && json[IndexOf(json, key, 0) + |key|] == '"')
    ensures NulledString(json, key) == json
  {
  }

  /**
   * A string value without escaped quotes after the first `key`, at `s`,
   * from its opening quote to its closing quote before `w`, becomes null,
   * and nothing else changes.
   */
  lemma NulledStringValue(json: string, key: string, s: nat, w: nat)
    requires OccursAt(json, key, s) && NoneBefore(json, key, s)
    requires s + |key| + 1 < w <= |json| && json[s + |key|] == '"' && json[w - 1] == '"'
    requires forall k :: s + |key| < k < w - 1 ==> json[k] != '"'
    ensures NulledString(json, key) == json[..s + |key|] + "null" + json[w..]
  {
    IndexOfFirst(json, key, 0, s);
    QuoteFirst(json, s + |key| + 1, w - 1);
    assert StringCut(json, key) == Cut(s + |key|, w);
  }

  /** A change after the first occurrence of `key` leaves that occurrence the first. */
  lemma FirstOccurrenceKept(a: string, b: string, c: string, key: string)
    requires IndexOf(a + b, key, 0) >= 0 && IndexOf(a + b, key, 0) + |key| <= |a|
    ensures IndexOf(a + c, key, 0) == IndexOf(a + b, key, 0)
  {
    var s := IndexOf(a + b, key, 0);
    OccursPrefix(a, b, key, s);
    OccursPrefix(a, c, key, s);
    forall i | 0 <= i < s ensures !OccursAt(a + c, key, i) {
      IndexOfNoneBefore(a + b, key, 0, i);
      OccursPrefix(a, b, key, i);
      OccursPrefix(a, c, key, i);
    }
    IndexOfFirst(a + c, key, 0, s);
  }

  /** After a cut value is nulled, the first `key` still comes first, now followed by the null. */
  lemma NullFollowsKey(json: string, key: string, v: nat, w: nat)
    requires IndexOf(json, key, 0) >= 0 && v == IndexOf(json, key, 0) + |key| && v <= w <= |json|
    ensures IndexOf(Splice(json, v, w), key, 0) == IndexOf(json, key, 0)
    ensures Splice(json, v, w)[v] == 'n'
  {
    var r := Splice(json, v, w);
    assert IndexOf(r, key, 0) == IndexOf(json, key, 0) by {
      assert r == json[..v] + ("null" + json[w..]);
      assert json == json[..v] + json[v..];
      FirstOccurrenceKept(json[..v], json[v..], "null" + json[w..], key);
    }
    assert r[v] == 'n' by {
      assert r[v] == ("null" + json[w..])[0];
    }
  }

  /** Nulling a value twice is nulling it once. */
  lemma NulledStringIdempotent(json: string, key: string)
    ensures NulledString(NulledString(json, key), key) == NulledString(json, key)
  {
    var c := StringCut(json, key);
    if c.Cut? {
      NullFollowsKey(json, key, c.start, c.end);
      var r := Splice(json, c.start, c.end);
      assert StringCut(r, key) == NoCut;
    }
  }

  /** Lines 247-255 (and, for the thumbnail, 256-264): the value after the key, 17 characters on, nulled when it is a string. */
  method NullStringValue(json: string, key: string) returns (r: string)
    ensures r == NulledString(json, key)
  {
    r := json;
    var s := IndexOf(r, key, 0);
    if s >= 0 {
      s := s + |key|;
      if s < |r| && r[s] == '"' {
        var e := IndexOf(r, "\"", s + 1);
        if e > s {
          assert StringCut(json, key) == Cut(s, e + 1);
          r := r[..s] + "null" + r[e + 1..];
        }
      }
    }
  }

  /**
   * Lines 265-278: where the polygons array after the first `"polygons":`
   * lies, from its bracket up to the comma of the first "]," after it, or
   * else up to the last brace of the first "}]}]}"; no cut when the key is
   * missing, its value does not start with a bracket, or neither end is found.
   */
  function PolygonsCut(json: string): (c: Cut)
    ensures c.Cut? ==> c.start < c.end <= |json| && json[c.start] == '['
    ensures c.Cut? ==> c.start == IndexOf(json, PolygonsKey, 0) + |PolygonsKey|
  {
    var s := IndexOf(json, PolygonsKey, 0);
    if s < 0 then NoCut
    else
      var v := s + |PolygonsKey|;
      if !(v < |json| && json[v] == '[') then NoCut
      else
        var e := IndexOf(json, "],", v + 1);
        if e > v then Cut(v, e + 1)
        else
          var f := IndexOf(json, "}]}]}", v + 1);
          if f > v then Cut(v, f + 4) else NoCut
  }

  /** The text with the polygons nulled. */
  function NulledPolygons(json: string): (r: string)
    ensures PolygonsCut(json).NoCut? ==> r == json
  {
    Apply(json, PolygonsCut(json))
  }

  /**
   * A polygons array after the first `"polygons":`, at `s`, from its
   * bracket to the first "]," after it, at `e`, becomes null; the comma and
   * the rest of the text stay.
   */
  lemma NulledPolygonsValue(json: string, s: nat, e: nat)
    requires OccursAt(json, PolygonsKey, s) && NoneBefore(json, PolygonsKey, s)
    requires s + |PolygonsKey| < e < |json| && json[s + |PolygonsKey|] == '['
    requires OccursAt(json, "],", e) && forall i :: s + |PolygonsKey| < i < e ==> !OccursAt(json, "],", i)
    ensures NulledPolygons(json) == json[..s + |PolygonsKey|] + "null" + json[e + 1..]
  {
    IndexOfFirst(json, PolygonsKey, 0, s);
    IndexOfFirst(json, "],", s + |PolygonsKey| + 1, e);
    assert PolygonsCut(json) == Cut(s + |PolygonsKey|, e + 1);
  }

  /**
   * Polygons not followed by any "]," are nulled up to the first "}]}]}"
   * after the bracket, at `f`, whose last brace stays.
   */
  lemma NulledPolygonsLast(json: string, s: nat, f: nat)
    requires OccursAt(json, PolygonsKey, s) && NoneBefore(json, PolygonsKey, s)
    requires s + |PolygonsKey| < f < |json| && json[s + |PolygonsKey|] == '['
    requires forall i :: s + |PolygonsKey| < i ==> !OccursAt(json, "],", i)
    requires OccursAt(json, "}]}]}", f) && forall i :: s + |PolygonsKey| < i < f ==> !OccursAt(json, "}]}]}", i)
    ensures NulledPolygons(json) == json[..s + |PolygonsKey|] + "null" + json[f + 4..]
  {
    IndexOfFirst(json, PolygonsKey, 0, s);
    IndexOfAbsent(json, "],", s + |PolygonsKey| + 1);
    IndexOfFirst(json, "}]}]}", s + |PolygonsKey| + 1, f);
    assert PolygonsCut(json) == Cut(s + |PolygonsKey|, f + 4);
  }

  /** Nulling the polygons twice is nulling them once. */
  lemma NulledPolygonsIdempotent(json: string)
    ensures NulledPolygons(NulledPolygons(json)) == NulledPolygons(json)
  {
    var c := PolygonsCut(json);
    if c.Cut? {
      NullFollowsKey(json, PolygonsKey, c.start, c.end);
      var r := Splice(json, c.start, c.end);
      assert PolygonsCut(r) == NoCut;
    }
  }

  /** Lines 265-278: the value after `"polygons":`, 11 characters on, nulled when it is an array. */
  method NullPolygons(json: string) returns (r: string)
    ensures r == NulledPolygons(json)
  {
    r := json;
    var s := IndexOf(r, PolygonsKey, 0);
    if s >= 0 {
      s := s + 11;
      if s < |r| && r[s] == '[' {
        var e := IndexOf(r, "],", s + 1);
        if e > s {
          assert PolygonsCut(json) == Cut(s, e + 1);
          r := r[..s] + "null" + r[e + 1..];
        } else {
          e := IndexOf(r, "}]}]}", s + 1);
          if e > s {
            assert PolygonsCut(json) == Cut(s, e + 4);
            r := r[..s] + "null" + r[e + 4..];
          }
        }
      }
    }
  }

  /** What `downloadLevel` hands to the platform: the file name and the text; or the error code; or the thrown "Invalid name". */
  datatype Download = Downloaded(fileName: string, json: string) | DownloadError | InvalidName

  /** The text a download starts from: the built-in level renamed, or the cached text when there is one. */
  function DownloadSource(name: string, id: int, builtInLevels: seq<string>, cached: Option<string>): Option<string> {
    if 0 <= id < |builtInLevels| then Some(WithName(builtInLevels[id], name))
    else if cached.None? || cached.value == "" then None
    else cached
  }

  /**
   * `downloadLevel` (lines 215-289): an invalid name throws; without a
   * downloader, or without a level to read, the result is the error code;
   * otherwise the level's text with its processed image, thumbnail and
   * polygons nulled, to be saved as `name` + ".json". `cached` is what the
   * cache holds for the name (None when it holds nothing); writing the file
   * is the platform's.
   */
  method DownloadLevel(name: string, id: int, builtInLevels: seq<string>, supported: bool, cached: Option<string>) returns (r: Download)
    ensures r.InvalidName? <==> !IsNameValid(Some(name))
    ensures r.DownloadError? <==> IsNameValid(Some(name)) && (!supported || DownloadSource(name, id, builtInLevels, cached).None?)
    ensures r.Downloaded? ==> r.fileName == name + ".json"
    ensures r.Downloaded? ==> r.json == NulledPolygons(NulledString(NulledString(DownloadSource(name, id, builtInLevels, cached).value, ProcessedImageKey), ThumbnailImageKey))
  {
    if !IsNameValid(Some(name)) {
      return InvalidName;
    }
    if !supported {
      return DownloadError;
    }
    var json: string;
    if 0 <= id < |builtInLevels| {
      json := builtInLevels[id];
      var s := IndexOf(json, NameKey, 0) + 8;
      json := Head(json, s) + name + Tail(json, IndexOf(json, "\"", s));
    } else {
      if cached.None? {
        return DownloadError;
      }
      json := cached.value;
      if json == "" {
        return DownloadError;
      }
    }
    var fileName := name + ".json";
    json := NullStringValue(json, ProcessedImageKey);
    json := NullStringValue(json, ThumbnailImageKey);
    json := NullPolygons(json);
    return Downloaded(fileName, json);
  }
}
