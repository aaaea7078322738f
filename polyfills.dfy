/**
 * The `Array.prototype.fill` fallback of assets/js/polyfills.js (lines
 * 46-62), the behaviour of section 22.1.3.6 of ECMAScript 2015 on a dense
 * array: fill the indices from `start` to `end`, where a negative position
 * counts back from the end of the array and every position is clamped to
 * the array.
 */
module Polyfills {
  import opened JsNumbers
  import opened Wrappers

  /**
   * A position relative to an array of `len` elements (lines 53 and 55):
   * a negative one counts back from the end, and the result is clamped to
   * 0 .. len.
   */
  function RelativeIndex(len: int, k: int): (r: int)
    ensures 0 <= len ==> 0 <= r <= len
    ensures 0 <= k <= len ==> r == k
    ensures 0 <= k && k > len ==> r == len
    ensures 0 <= len && k < 0 && -k <= len ==> r == len + k
    ensures k < 0 && -k > len ==> r == 0
  {
    if k < 0 then (if len + k > 0 then len + k else 0)
    else if k < len then k else len
  }

  /** The first index filled: `start | 0` made relative to `len` (lines 51 and 55). */
  function FirstIndex(len: int, start: Number): int {
    RelativeIndex(len, ToInt32(start))
  }

  /** The index the fill stops before: `end | 0`, or `len` when `end` is undefined, made relative to `len` (lines 52-53). */
  function FinalIndex(len: int, end: Option<Number>): int {
    match end
    case None => RelativeIndex(len, len)
    case Some(e) => RelativeIndex(len, ToInt32(e))
  }

  /** `s` with the indices `first .. final - 1` set to `value`. */
  function Filled<T>(s: seq<T>, value: T, first: int, final: int): (r: seq<T>)
    ensures |r| == |s|
    ensures forall k :: 0 <= k < |s| ==> r[k] == if first <= k < final then value else s[k]
  {
    seq(|s|, k requires 0 <= k < |s| => if first <= k < final then value else s[k])
  }

  /** An empty range changes nothing. */
  lemma FilledEmpty<T>(s: seq<T>, value: T, first: int, final: int)
    requires final <= first
    ensures Filled(s, value, first, final) == s
  {
  }

  /** Filling the same range twice is filling it once. */
  lemma FilledIdempotent<T>(s: seq<T>, value: T, first: int, final: int)
    ensures Filled(Filled(s, value, first, final), value, first, final) == Filled(s, value, first, final)
  {
  }

  /** With no arguments but the value, every element is filled. */
  lemma FillAll<T>(s: seq<T>, value: T)
    requires |s| < TwoTo31
    ensures Filled(s, value, FirstIndex(|s|, Finite(0.0)), FinalIndex(|s|, None)) == seq(|s|, k => value)
  {
    assert Trunc(0.0) == 0;
  }

  /** A negative start fills the last -start elements. */
  lemma FillTail<T>(s: seq<T>, value: T, n: int)
    requires |s| < TwoTo31 && 0 < n <= |s|
    ensures Filled(s, value, FirstIndex(|s|, Finite(-n as real)), FinalIndex(|s|, None)) == s[..|s| - n] + seq(n, k => value)
  {
    assert Trunc(-n as real) == -n;
    var r := Filled(s, value, FirstIndex(|s|, Finite(-n as real)), FinalIndex(|s|, None));
    assert forall k :: 0 <= k < |s| ==> r[k] == (s[..|s| - n] + seq(n, k => value))[k];
  }

  /**
   * The polyfill itself (lines 48-61) on an array of fewer than 2^31
   * elements: the indices from the first to the final one get `value`,
   * every other element keeps its value, and the array itself is returned.
   */
  method Fill<T>(a: array<T>, value: T, start: Number, end: Option<Number>) returns (r: array<T>)
    requires a.Length < TwoTo31
    modifies a
    ensures r == a
    ensures a[..] == Filled(old(a[..]), value, FirstIndex(a.Length, start), FinalIndex(a.Length, end))
  {
    var length := ToInt32(Finite(a.Length as real));
    assert Trunc(a.Length as real) == a.Length;
    var s := ToInt32(start);
    var e := match end case None => length case Some(x) => ToInt32(x);
    e := if e < 0 then (if length + e > 0 then length + e else 0) else (if e < length then e else length);
    var i := if s < 0 then (if length + s > 0 then length + s else 0) else (if s < length then s else length);
    ghost var first := i;
    ghost var s0 := a[..];
    while i < e
      invariant first <= i && (i <= e || i == first) && 0 <= first && e <= a.Length
      invariant a[..] == Filled(s0, value, first, i)
    {
      a[i] := value;
      i := i + 1;
    }
    assert a[..] == Filled(s0, value, first, e);
    return a;
  }
}
