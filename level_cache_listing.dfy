/**
 * The listing of saved levels in scripts/level/levelCache.ts
 * (`getLevelNames`, lines 95-121). The cache's keys are a parameter, and
 * `decodeURIComponent` is a function that gives None where it throws.
 */
module LevelCacheListing {
  import opened Wrappers
  import opened Text
  import opened StringSort
  import opened LevelCacheNames

  /** The text after the last "/" of a key's URL, or the whole URL (lines 110-111). */
  function KeyName(url: string): (r: string)
    ensures EndsWith(url, r)
    ensures forall k :: 0 <= k < |r| ==> r[k] != '/'
  {
    var j := LastIndexOf(url, '/');
    if j < 0 then url
    else
      var r := url[j + 1..];
      assert forall k :: 0 <= k < |r| ==> r[k] == url[j + 1 + k];
      r
  }

  predicate IsLevelKey(url: string) {
    !EndsWith(url, LevelInfoExtension)
  }

  /**
   * The names the loop of lines 106-112 collects from `keys[i..]`, from the
   * last key down: the decoded name of every key that does not end in
   * ".levelinfo". None when `decodeURIComponent` throws on one of them.
   */
  function Gathered(keys: seq<string>, decode: string -> Option<string>, i: nat): Option<seq<string>>
    requires i <= |keys|
    decreases |keys| - i
  {
    if i == |keys| then Some([])
    else match Gathered(keys, decode, i + 1)
      case None => None
      case Some(names) =>
        if !IsLevelKey(keys[i]) then Some(names)
        else match decode(KeyName(keys[i]))
          case None => None
          case Some(d) => Some(names + [d])
  }

  /** The number of keys in `keys[i..]` that name a level. */
  function LevelKeyCount(keys: seq<string>, i: nat): nat
    requires i <= |keys|
    decreases |keys| - i
  {
    if i == |keys| then 0 else LevelKeyCount(keys, i + 1) + (if IsLevelKey(keys[i]) then 1 else 0)
  }

  /** One name is collected per level key, each decoded from the text after the last "/" of such a key. */
  lemma {:induction false} GatheredNames(keys: seq<string>, decode: string -> Option<string>, i: nat)
    requires i <= |keys| && Gathered(keys, decode, i).Some?
    ensures |Gathered(keys, decode, i).value| == LevelKeyCount(keys, i)
    ensures forall k :: 0 <= k < |Gathered(keys, decode, i).value| ==>
      exists m :: i <= m < |keys| && IsLevelKey(keys[m]) && decode(KeyName(keys[m])) == Some(Gathered(keys, decode, i).value[k])
    decreases |keys| - i
  {
    if i < |keys| {
      GatheredNames(keys, decode, i + 1);
      var prev := Gathered(keys, decode, i + 1).value;
      var names := Gathered(keys, decode, i).value;
      forall k | 0 <= k < |names|
        ensures exists m :: i <= m < |keys| && IsLevelKey(keys[m]) && decode(KeyName(keys[m])) == Some(names[k])
      {
        if k < |prev| {
          assert names[k] == prev[k];
          var m :| i + 1 <= m < |keys| && IsLevelKey(keys[m]) && decode(KeyName(keys[m])) == Some(prev[k]);
        } else {
          assert IsLevelKey(keys[i]) && decode(KeyName(keys[i])) == Some(names[k]);
        }
      }
    }
  }

  /** An entry each: a name, or a hole (`undefined`). */
  function Present(names: seq<string>): (r: seq<Option<string>>)
    ensures |r| == |names| && forall k :: 0 <= k < |names| ==> r[k] == Some(names[k])
  {
    seq(|names|, k requires 0 <= k < |names| => Some(names[k]))
  }

  function Holes(n: nat): (r: seq<Option<string>>)
    ensures |r| == n && forall k :: 0 <= k < n ==> r[k] == None
  {
    seq(n, k => None)
  }

  /** The names among the entries, in order. */
  function Values(a: seq<Option<string>>): seq<string> {
    if |a| == 0 then [] else Values(a[..|a| - 1]) + (if a[|a| - 1].Some? then [a[|a| - 1].value] else [])
  }

  /** `sort()` on an array of names with holes (line 113): the names in order, then the holes. */
  function SortedWithHoles(a: seq<Option<string>>): (r: seq<Option<string>>)
    requires |Values(a)| <= |a|
  {
    Present(Sort(Values(a))) + Holes(|a| - |Values(a)|)
  }

  function Max(a: int, b: int): int {
    if a >= b then a else b
  }

  /**
   * What `getLevelNames` returns for the cache `keys` (lines 95-121): the
   * collected names sorted, in an array created with `keys.length >> 1`
   * entries, so that when there are fewer level keys than that the rest
   * are holes; nothing when decoding a name throws.
   */
  function LevelNames(keys: seq<string>, decode: string -> Option<string>): (r: seq<Option<string>>)
    ensures Gathered(keys, decode, 0).None? ==> r == []
    ensures Gathered(keys, decode, 0).Some? ==> |r| == Max(|keys| / 2, |Gathered(keys, decode, 0).value|)
  {
    match Gathered(keys, decode, 0)
    case None => []
    case Some(found) =>
      var m := Max(|keys| / 2, |found|);
      ValuesOfFilled(found, m - |found|);
      SortedWithHoles(Present(found) + Holes(m - |found|))
  }

  /** The names of an array filled from the front are the names written. */
  lemma {:induction false} ValuesOfFilled(found: seq<string>, holes: nat)
    ensures Values(Present(found) + Holes(holes)) == found
    decreases |found| + holes
  {
    var a := Present(found) + Holes(holes);
    if holes > 0 {
      assert a[..|a| - 1] == Present(found) + Holes(holes - 1);
      ValuesOfFilled(found, holes - 1);
    } else if |found| > 0 {
      var f := found[..|found| - 1];
      assert a[..|a| - 1] == Present(f) + Holes(0);
      ValuesOfFilled(f, 0);
      assert found == f + [found[|found| - 1]];
    } else {
      assert a == [];
    }
  }

  /**
   * The listing holds every collected name once, in ascending order, and
   * after them `keys.length >> 1` less their number of holes.
   */
  lemma LevelNamesSorted(keys: seq<string>, decode: string -> Option<string>)
    requires Gathered(keys, decode, 0).Some?
    ensures var found := Gathered(keys, decode, 0).value;
      LevelNames(keys, decode) == Present(Sort(found)) + Holes(Max(|keys| / 2, |found|) - |found|)
      && Sorted(Sort(found)) && multiset(Sort(found)) == multiset(found)
  {
    var found := Gathered(keys, decode, 0).value;
    ValuesOfFilled(found, Max(|keys| / 2, |found|) - |found|);
    SortSpec(found);
  }

  /** When at least half the keys name levels (a level and its information entry each), the listing has no holes. */
  lemma LevelNamesWithoutHoles(keys: seq<string>, decode: string -> Option<string>)
    requires Gathered(keys, decode, 0).Some? && LevelKeyCount(keys, 0) >= |keys| / 2
    ensures LevelNames(keys, decode) == Present(Sort(Gathered(keys, decode, 0).value))
  {
    GatheredNames(keys, decode, 0);
    LevelNamesSorted(keys, decode);
  }

  /** Two information entries whose levels are missing list as one hole. */
  lemma OrphanInformationListsHole(decode: string -> Option<string>)
    ensures LevelNames(["x/a.levelinfo", "x/b.levelinfo"], decode) == [None]
  {
    var keys := ["x/a.levelinfo", "x/b.levelinfo"];
    assert !IsLevelKey(keys[0]) && !IsLevelKey(keys[1]);
    assert Gathered(keys, decode, 2) == Some([]);
    assert Gathered(keys, decode, 0) == Some([]);
    ValuesOfFilled([], 1);
    assert Present([]) + Holes(1) == [None];
  }

  /** `names[n++] = d` on a JavaScript array: an entry set, or appended when `n` is its length. */
  function Stored(names: seq<Option<string>>, n: nat, d: string): (r: seq<Option<string>>)
    requires n <= |names|
    ensures |r| == Max(|names|, n + 1)
  {
    if n < |names| then names[n := Some(d)] else names + [Some(d)]
  }

  /** Storing the next name into an array filled from the front keeps it filled from the front. */
  lemma StoredFilled(found: seq<string>, holes: nat, d: string)
    ensures Stored(Present(found) + Holes(holes), |found|, d) == Present(found + [d]) + Holes(if holes > 0 then holes - 1 else 0)
  {
    var a := Stored(Present(found) + Holes(holes), |found|, d);
    var b := Present(found + [d]) + Holes(if holes > 0 then holes - 1 else 0);
    assert |a| == |b|;
    forall k | 0 <= k < |a| ensures a[k] == b[k] {
      if k < |found| {
        assert a[k] == Some(found[k]);
      }
    }
  }

  /**
   * `getLevelNames` (lines 95-121) on the keys the cache holds: the keys
   * walked from the last, information keys skipped, the rest decoded into
   * the array, which is then sorted.
   */
  method GetLevelNames(keys: seq<string>, decode: string -> Option<string>) returns (r: seq<Option<string>>)
    ensures r == LevelNames(keys, decode)
  {
    if |keys| == 0 {
      ValuesOfFilled([], 0);
      return [];
    }
    var names := Holes(|keys| / 2);
    var n := 0;
    var i := |keys| - 1;
    ghost var found: seq<string> := [];
    ghost var holes := |keys| / 2;
    while i >= 0
      invariant -1 <= i < |keys| && n == |found|
      invariant holes == Max(|keys| / 2, n) - n
      invariant Gathered(keys, decode, i + 1) == Some(found)
      invariant names == Present(found) + Holes(holes)
    {
      var url := keys[i];
      if IsLevelKey(url) {
        var d := decode(KeyName(url));
        if d.None? {
          GatheredFails(keys, decode, i);
          return [];
        }
        assert Gathered(keys, decode, i) == Some(found + [d.value]);
        StoredFilled(found, holes, d.value);
        names := Stored(names, n, d.value);
        found := found + [d.value];
        n := n + 1;
        holes := if holes > 0 then holes - 1 else 0;
      } else {
        assert Gathered(keys, decode, i) == Some(found);
      }
      i := i - 1;
    }
    ValuesOfFilled(found, holes);
    r := SortedWithHoles(names);
  }

  /** Once decoding throws, the whole listing fails. */
  lemma {:induction false} GatheredFails(keys: seq<string>, decode: string -> Option<string>, i: nat)
    requires i <= |keys| && Gathered(keys, decode, i).None?
    ensures Gathered(keys, decode, 0).None?
    decreases i
  {
    if i > 0 {
      GatheredFails(keys, decode, i - 1);
    }
  }
}
