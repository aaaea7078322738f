/** The sequence operations the views share: the last index of an element, and `splice(i, 1)`. */
module Sequences {

  /** The last index of `x` in `s`, or -1. */
  function LastIndex<T(==)>(s: seq<T>, x: T): (r: int)
    ensures -1 <= r < |s|
    ensures r >= 0 ==> s[r] == x
    ensures forall j :: r < j < |s| ==> s[j] != x
  {
    if |s| == 0 then -1 else if s[|s| - 1] == x then |s| - 1 else LastIndex(s[..|s| - 1], x)
  }

  /** An index holding x with no x after it is the last index of x. */
  lemma {:induction false} LastIndexIs<T>(s: seq<T>, x: T, i: nat)
    requires i < |s| && s[i] == x && forall j :: i < j < |s| ==> s[j] != x
    ensures LastIndex(s, x) == i
  {
    if i < |s| - 1 {
      LastIndexIs(s[..|s| - 1], x, i);
    }
  }

  /** Without any x, the last index of x is -1. */
  lemma {:induction false} LastIndexAbsent<T>(s: seq<T>, x: T)
    requires forall j :: 0 <= j < |s| ==> s[j] != x
    ensures LastIndex(s, x) == -1
  {
    if |s| > 0 {
      LastIndexAbsent(s[..|s| - 1], x);
    }
  }

  /** `s.splice(i, 1)`: s without its i-th element. */
  function Without<T>(s: seq<T>, i: nat): (r: seq<T>)
    requires i < |s|
    ensures |r| == |s| - 1
    ensures forall j :: 0 <= j < i ==> r[j] == s[j]
    ensures forall j :: i <= j < |r| ==> r[j] == s[j + 1]
  {
    s[..i] + s[i + 1..]
  }
}
