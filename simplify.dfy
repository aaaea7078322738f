/**
 * `douglasPeucker` (lib/imageProcessing.c:236-273): the Douglas–Peucker
 * simplification of the points `start..end` of a point array, compacted in
 * place at `start`. The distance of a point from the line through the two
 * end points, `perpendicularDistance` (lines 204-234), works in doubles with
 * a square root; here it is a parameter `distance(p, first, last)`.
 *
 * `Simplify` states on sequences what the recursion keeps; the method is
 * proved to leave exactly `Simplify` of the original range at `start`.
 */
module Simplification {
  import opened ImageGrid

  type Distance = (Point, Point, Point) -> real

  /** The distance of point j from the line through points `start` and `end`. */
  function Offset(s: seq<Point>, start: int, end: int, j: int, distance: Distance): real
    requires 0 <= start <= end < |s| && 0 <= j < |s|
  {
    distance(s[j], s[start], s[end])
  }

  /**
   * The search loop (lines 248-255) after the points `start + 1 .. i - 1`:
   * the index of the first farthest point and its distance, or
   * (`start`, 0.0) when no distance exceeds 0.
   */
  function Farthest(s: seq<Point>, start: int, end: int, i: int, distance: Distance): (r: (int, real))
    requires 0 <= start < i <= end < |s|
    ensures start <= r.0 < i && 0.0 <= r.1
    ensures r.0 == start ==> r.1 == 0.0
    ensures r.0 != start ==> r.1 == Offset(s, start, end, r.0, distance)
    ensures forall j :: start < j < i ==> Offset(s, start, end, j, distance) <= r.1
    ensures forall j :: start < j < r.0 ==> Offset(s, start, end, j, distance) < r.1
    decreases i
  {
    if i == start + 1 then (start, 0.0)
    else
      var previous := Farthest(s, start, end, i - 1, distance);
      var d := Offset(s, start, end, i - 1, distance);
      if d > previous.1 then (i - 1, d) else previous
  }

  /**
   * The points `douglasPeucker` keeps of `s[start..end]`: all of them when
   * there are at most two; otherwise, when the first farthest point lies
   * farther than `epsilon`, the points kept of both halves split there,
   * sharing that point once; otherwise only the two end points.
   */
  function Simplify(s: seq<Point>, start: int, end: int, epsilon: real, distance: Distance): (r: seq<Point>)
    requires 0 <= start <= end < |s| && 0.0 <= epsilon
    ensures 1 <= |r| <= end - start + 1 && (start < end ==> 2 <= |r|)
    ensures r[0] == s[start] && r[|r| - 1] == s[end]
    decreases end - start
  {
    if end - start <= 1 then s[start..end + 1]
    else
      var far := Farthest(s, start, end, end, distance);
      if far.1 > epsilon then
        var left := Simplify(s, start, far.0, epsilon, distance);
        left[..|left| - 1] + Simplify(s, far.0, end, epsilon, distance)
      else [s[start], s[end]]
  }

  /** Two arrays that agree on `start..end` have the same farthest point there. */
  lemma {:induction false} FarthestFrame(s: seq<Point>, t: seq<Point>, start: int, end: int, i: int, distance: Distance)
    requires 0 <= start < i <= end < |s| && end < |t|
    requires forall k :: start <= k <= end ==> s[k] == t[k]
    ensures Farthest(s, start, end, i, distance) == Farthest(t, start, end, i, distance)
    decreases i
  {
    if i > start + 1 {
      FarthestFrame(s, t, start, end, i - 1, distance);
      assert Offset(s, start, end, i - 1, distance) == Offset(t, start, end, i - 1, distance);
    }
  }

  /** What `douglasPeucker` keeps depends on the points `start..end` alone. */
  lemma {:induction false} SimplifyFrame(s: seq<Point>, t: seq<Point>, start: int, end: int, epsilon: real, distance: Distance)
    requires 0 <= start <= end < |s| && end < |t| && 0.0 <= epsilon
    requires forall k :: start <= k <= end ==> s[k] == t[k]
    ensures Simplify(s, start, end, epsilon, distance) == Simplify(t, start, end, epsilon, distance)
    decreases end - start
  {
    if end - start <= 1 {
      assert s[start..end + 1] == t[start..end + 1];
    } else {
      FarthestFrame(s, t, start, end, end, distance);
      var far := Farthest(s, start, end, end, distance);
      if far.1 > epsilon {
        SimplifyFrame(s, t, start, far.0, epsilon, distance);
        SimplifyFrame(s, t, far.0, end, epsilon, distance);
        SimplifyUnfolds(s, start, end, far.0, far.1, epsilon, distance);
        SimplifyUnfolds(t, start, end, far.0, far.1, epsilon, distance);
      } else {
        SimplifyCollapsed(s, start, end, far.1, epsilon, distance);
        SimplifyCollapsed(t, start, end, far.1, epsilon, distance);
      }
    }
  }

  /** The collapse case of `Simplify`. */
  lemma SimplifyCollapsed(s: seq<Point>, start: int, end: int, d: real, epsilon: real, distance: Distance)
    requires 0 <= start && start + 1 < end < |s| && 0.0 <= epsilon
    requires Farthest(s, start, end, end, distance).1 == d && d <= epsilon
    ensures Simplify(s, start, end, epsilon, distance) == [s[start], s[end]]
  {
  }

  /** `s` is `t` with some elements removed, the rest in order. */
  predicate Subsequence(s: seq<Point>, t: seq<Point>)
    decreases |t|
  {
    |s| <= |t| && (s == [] || (s[0] == t[0] && Subsequence(s[1..], t[1..])) || Subsequence(s, t[1..]))
  }

  lemma {:induction false} SubsequenceRefl(t: seq<Point>)
    ensures Subsequence(t, t)
    decreases |t|
  {
    if t != [] {
      SubsequenceRefl(t[1..]);
    }
  }

  /** The last element alone is a subsequence. */
  lemma {:induction false} SubsequenceLast(t: seq<Point>)
    requires t != []
    ensures Subsequence([t[|t| - 1]], t)
    decreases |t|
  {
    if |t| > 1 {
      SubsequenceLast(t[1..]);
      assert t[1..][|t| - 2] == t[|t| - 1];
    } else {
      assert [t[0]][1..] == [];
    }
  }

  lemma {:induction false} SubsequenceConcat(s1: seq<Point>, t1: seq<Point>, s2: seq<Point>, t2: seq<Point>)
    requires Subsequence(s1, t1) && Subsequence(s2, t2)
    ensures Subsequence(s1 + s2, t1 + t2)
    decreases |t1|
  {
    if s1 == [] {
      if t1 == [] {
        assert s1 + s2 == s2 && t1 + t2 == t2;
      } else {
        SubsequenceConcat(s1, t1[1..], s2, t2);
        assert (t1 + t2)[1..] == t1[1..] + t2;
      }
    } else if s1[0] == t1[0] && Subsequence(s1[1..], t1[1..]) {
      SubsequenceConcat(s1[1..], t1[1..], s2, t2);
      assert (s1 + s2)[1..] == s1[1..] + s2 && (t1 + t2)[1..] == t1[1..] + t2;
    } else {
      SubsequenceConcat(s1, t1[1..], s2, t2);
      assert (t1 + t2)[1..] == t1[1..] + t2;
    }
  }

  /** Dropping the last element of both sides keeps a subsequence. */
  lemma {:induction false} SubsequenceDropLast(s: seq<Point>, t: seq<Point>)
    requires s != [] && Subsequence(s, t)
    ensures Subsequence(s[..|s| - 1], t[..|t| - 1])
    decreases |t|
  {
    if |s| == 1 {
      assert s[..0] == [];
    } else if s[0] == t[0] && Subsequence(s[1..], t[1..]) {
      SubsequenceDropLast(s[1..], t[1..]);
      assert s[1..][..|s| - 2] == s[..|s| - 1][1..];
      assert t[1..][..|t| - 2] == t[..|t| - 1][1..];
    } else {
      SubsequenceDropLast(s, t[1..]);
      assert t[1..][..|t| - 2] == t[..|t| - 1][1..];
    }
  }

  /** The kept points are the original points in their original order. */
  lemma {:induction false} SimplifyKeepsOrder(s: seq<Point>, start: int, end: int, epsilon: real, distance: Distance)
    requires 0 <= start <= end < |s| && 0.0 <= epsilon
    ensures Subsequence(Simplify(s, start, end, epsilon, distance), s[start..end + 1])
    decreases end - start
  {
    if end - start <= 1 {
      SubsequenceRefl(s[start..end + 1]);
    } else {
      var far := Farthest(s, start, end, end, distance);
      if far.1 > epsilon {
        var m := far.0;
        SimplifyUnfolds(s, start, end, m, far.1, epsilon, distance);
        SimplifyKeepsOrder(s, start, m, epsilon, distance);
        SimplifyKeepsOrder(s, m, end, epsilon, distance);
        var left, right := Simplify(s, start, m, epsilon, distance), Simplify(s, m, end, epsilon, distance);
        var lower, upper := s[start..m + 1], s[m..end + 1];
        assert Subsequence(left, lower) && Subsequence(right, upper);
        JoinedInOrder(left, right, s, start, m, end);
      } else {
        SimplifyCollapsed(s, start, end, far.1, epsilon, distance);
        EndsInOrder(s, start, end);
      }
    }
  }

  /** The two halves joined at the split point follow the input in order. */
  lemma JoinedInOrder(left: seq<Point>, right: seq<Point>, s: seq<Point>, start: int, m: int, end: int)
    requires 0 <= start < m < end < |s| && left != []
    requires Subsequence(left, s[start..m + 1]) && Subsequence(right, s[m..end + 1])
    ensures Subsequence(left[..|left| - 1] + right, s[start..end + 1])
  {
    SubsequenceDropLast(left, s[start..m + 1]);
    assert s[start..m + 1][..m - start] == s[start..m];
    SubsequenceConcat(left[..|left| - 1], s[start..m], right, s[m..end + 1]);
    assert s[start..m] + s[m..end + 1] == s[start..end + 1];
  }

  /** The two end points follow the input in order. */
  lemma EndsInOrder(s: seq<Point>, start: int, end: int)
    requires 0 <= start < end < |s|
    ensures Subsequence([s[start], s[end]], s[start..end + 1])
  {
    var pts := s[start..end + 1];
    SubsequenceLast(pts[1..]);
    assert pts[1..][|pts| - 2] == s[end];
    assert [s[start], s[end]][1..] == [s[end]];
  }

  lemma SimplifyCollapses(s: seq<Point>, start: int, end: int, epsilon: real, distance: Distance)
    requires 0 <= start && start + 1 < end < |s| && 0.0 <= epsilon
    ensures |Simplify(s, start, end, epsilon, distance)| == 2 <==>
      forall j :: start < j < end ==> Offset(s, start, end, j, distance) <= epsilon
    ensures |Simplify(s, start, end, epsilon, distance)| == 2 ==> Simplify(s, start, end, epsilon, distance) == [s[start], s[end]]
  {
    var far := Farthest(s, start, end, end, distance);
    if far.1 > epsilon {
      assert start < far.0;
    }
  }

  /** `end - start <= 1` (lines 237-238): the points are kept as they are. */
  lemma SimplifyShort(s: seq<Point>, start: int, end: int, epsilon: real, distance: Distance)
    requires 0 <= start <= end < |s| && end - start <= 1 && 0.0 <= epsilon
    ensures Simplify(s, start, end, epsilon, distance) == s[start..end + 1]
  {
  }

  /** The search loop of lines 248-255. */
  method FarthestPoint(points: array<Point>, start: int, end: int, distance: Distance)
    returns (maxDIndex: int, maxD: real)
    requires 0 <= start && start + 1 < end < points.Length
    ensures (maxDIndex, maxD) == Farthest(points[..], start, end, end, distance)
  {
    maxD := 0.0;
    maxDIndex := start;
    for i := start + 1 to end
      invariant (maxDIndex, maxD) == Farthest(points[..], start, end, i, distance)
    {
      var d := distance(points[i], points[start], points[end]);
      assert d == Offset(points[..], start, end, i, distance);
      if d > maxD {
        maxDIndex := i;
        maxD := d;
      }
    }
  }

  /** Only the points after `start` and up to `end` differ between `s` and `t`. */
  ghost predicate Unchanged(s: seq<Point>, t: seq<Point>, start: int, end: int) {
    |t| == |s| && forall k :: 0 <= k < |s| && !(start < k <= end) ==> t[k] == s[k]
  }

  /**
   * `t` is `s` after `douglasPeucker(start, end)` returned `n`: the `n`
   * points at `start` are those `Simplify` keeps, and nothing outside
   * the range changed.
   */
  ghost predicate Kept(s: seq<Point>, t: seq<Point>, start: int, end: int, n: int, epsilon: real, distance: Distance) {
    && 0 <= start <= end < |s| && 0.0 <= epsilon && Unchanged(s, t, start, end)
    && 1 <= n <= end - start + 1 && (start < end ==> 2 <= n)
    && t[start..start + n] == Simplify(s, start, end, epsilon, distance)
  }

  /** `t` is `s` after `count` points moved from `src` down to `dst`. */
  ghost predicate Moved(s: seq<Point>, t: seq<Point>, dst: int, src: int, count: int) {
    && 0 <= dst <= src && 0 <= count && src + count <= |s| == |t|
    && t[dst..dst + count] == s[src..src + count]
    && forall k :: 0 <= k < |s| && !(dst <= k < dst + count) ==> t[k] == s[k]
  }

  /** `s` after the first `j` points of the copy from `src` down to `dst`. */
  function Copied(s: seq<Point>, dst: int, src: int, j: int): (r: seq<Point>)
    requires 0 <= dst <= src && 0 <= j && src + j <= |s|
    ensures |r| == |s|
  {
    s[..dst] + s[src..src + j] + s[dst + j..]
  }

  /** One more point copied: point `src + j` is still the original one. */
  lemma CopyStep(s: seq<Point>, dst: int, src: int, j: int)
    requires 0 <= dst <= src && 0 <= j && src + j < |s|
    ensures Copied(s, dst, src, j)[src + j] == s[src + j]
    ensures Copied(s, dst, src, j)[dst + j := s[src + j]] == Copied(s, dst, src, j + 1)
  {
    var c, c' := Copied(s, dst, src, j), Copied(s, dst, src, j + 1);
    assert c[src + j] == s[src + j] by {
      assert c == s[..dst] + s[src..src + j] + s[dst + j..];
    }
    assert forall k :: 0 <= k < |s| ==> c[dst + j := s[src + j]][k] == c'[k];
  }

  /** The whole copy: the moved points at `dst`, every other point as it was. */
  lemma CopyDone(s: seq<Point>, dst: int, src: int, count: int)
    requires 0 <= dst <= src && 0 <= count && src + count <= |s|
    ensures Moved(s, Copied(s, dst, src, count), dst, src, count)
  {
    var c := Copied(s, dst, src, count);
    assert c[dst..dst + count] == s[src..src + count];
  }

  /** The `memcpy` of line 265, as a forward copy; the destination never lies after the source. */
  method MoveForward(points: array<Point>, dst: int, src: int, count: int)
    requires 0 <= dst <= src && 0 <= count && src + count <= points.Length
    modifies points
    ensures Moved(old(points[..]), points[..], dst, src, count)
  {
    ghost var s := points[..];
    for j := 0 to count
      invariant points[..] == Copied(s, dst, src, j)
    {
      CopyStep(s, dst, src, j);
      points[dst + j] := points[src + j];
    }
    CopyDone(s, dst, src, count);
  }

  /**
   * `douglasPeucker(pointList, start, end, epsilon)`. A negative `epsilon`
   * would let the recursion split at `start` itself and never end, so it is
   * required to be at least 0 (the only call passes 1.5). The count
   * returned is the number of points kept at `start`.
   */
  method DouglasPeucker(points: array<Point>, start: int, end: int, epsilon: real, distance: Distance)
    returns (n: int)
    requires 0 <= start && end < points.Length && 0.0 <= epsilon
    modifies points
    ensures end - start <= 1 ==> n == end - start + 1 && points[..] == old(points[..])
    ensures start <= end ==> Kept(old(points[..]), points[..], start, end, n, epsilon, distance)
    decreases end - start, 1
  {
    if end - start <= 1 {
      n := end - start + 1;
      assert start <= end ==> points[start..start + n] == points[..][start..end + 1];
      return;
    }
    ghost var s0 := points[..];
    var maxDIndex, maxD := FarthestPoint(points, start, end, distance);
    if maxD > epsilon {
      var size1 := SimplifyFirst(points, start, maxDIndex, end, epsilon, distance);
      ghost var s1 := points[..];
      var size2 := SimplifySecond(points, start, maxDIndex, end, size1, epsilon, distance);
      n := size1 + size2;
      Assemble(s0, s1, points[..], start, end, maxDIndex, maxD, size1, size2, n, epsilon, distance);
    } else {
      points[start + 1] := points[end];
      n := 2;
      Collapsed(s0, points[..], start, end, maxD, epsilon, distance);
    }
  }

  /**
   * `t` is `s` after lines 257-262: the first half simplified, its last
   * point (the split point) put back and not counted.
   */
  ghost predicate FirstDone(s: seq<Point>, t: seq<Point>, start: int, split: int, size1: int, epsilon: real, distance: Distance) {
    && 0 <= start < split < |s| && 0.0 <= epsilon && Unchanged(s, t, start, split - 1)
    && 1 <= size1 <= split - start && |Simplify(s, start, split, epsilon, distance)| == size1 + 1
    && t[start..start + size1] == Simplify(s, start, split, epsilon, distance)[..size1]
  }

  /** Lines 257-262: simplify `start..split` and restore the split point the recursion may have moved. */
  method SimplifyFirst(points: array<Point>, start: int, split: int, end: int, epsilon: real, distance: Distance)
    returns (size1: int)
    requires 0 <= start < split < end < points.Length && 0.0 <= epsilon
    modifies points
    ensures FirstDone(old(points[..]), points[..], start, split, size1, epsilon, distance)
    decreases end - start, 0
  {
    ghost var s0 := points[..];
    var tmp := points[split];
    var kept := DouglasPeucker(points, start, split, epsilon, distance);
    ghost var s1 := points[..];
    size1 := kept - 1;
    points[split] := tmp;
    First(s0, s1, points[..], start, split, kept, size1, epsilon, distance);
  }

  lemma First(s0: seq<Point>, s1: seq<Point>, s2: seq<Point>, start: int, split: int, kept: int, size1: int,
              epsilon: real, distance: Distance)
    requires Kept(s0, s1, start, split, kept, epsilon, distance) && start < split && size1 == kept - 1
    requires s2 == s1[split := s0[split]]
    ensures FirstDone(s0, s2, start, split, size1, epsilon, distance)
  {
    assert s2[start..start + size1] == s1[start..start + kept][..size1];
  }

  /**
   * `t` is `s` after lines 263-267: the second half simplified and its
   * points moved down to `dst`.
   */
  ghost predicate SecondDone(s: seq<Point>, t: seq<Point>, dst: int, split: int, end: int, size2: int, epsilon: real, distance: Distance) {
    && 0 < dst <= split < end < |s| && 0.0 <= epsilon && Unchanged(s, t, dst - 1, end)
    && 2 <= size2 <= end - split + 1
    && t[dst..dst + size2] == Simplify(s, split, end, epsilon, distance)
  }

  /** Lines 263-267: simplify `split..end` and copy the kept points to follow the first half's. */
  method SimplifySecond(points: array<Point>, start: int, split: int, end: int, size1: int, epsilon: real, distance: Distance)
    returns (size2: int)
    requires 0 <= start && 1 <= size1 && start + size1 <= split < end < points.Length && 0.0 <= epsilon
    modifies points
    ensures SecondDone(old(points[..]), points[..], start + size1, split, end, size2, epsilon, distance)
    decreases end - start, 0
  {
    ghost var s0 := points[..];
    size2 := DouglasPeucker(points, split, end, epsilon, distance);
    ghost var s1 := points[..];
    MoveForward(points, start + size1, split, size2);
    Second(s0, s1, points[..], start + size1, split, end, size2, epsilon, distance);
  }

  lemma Second(s0: seq<Point>, s1: seq<Point>, s2: seq<Point>, dst: int, split: int, end: int, size2: int,
               epsilon: real, distance: Distance)
    requires 0 < dst <= split < end
    requires Kept(s0, s1, split, end, size2, epsilon, distance)
    requires Moved(s1, s2, dst, split, size2)
    ensures SecondDone(s0, s2, dst, split, end, size2, epsilon, distance)
  {
  }

  /** The branch of lines 270-272: only the two end points are kept. */
  lemma Collapsed(s0: seq<Point>, s: seq<Point>, start: int, end: int, d: real, epsilon: real, distance: Distance)
    requires 0 <= start && start + 1 < end < |s0| && 0.0 <= epsilon
    requires Farthest(s0, start, end, end, distance).1 == d && d <= epsilon
    requires s == s0[start + 1 := s0[end]]
    ensures Kept(s0, s, start, end, 2, epsilon, distance)
  {
    assert s[start..start + 2] == [s0[start], s0[end]];
  }

  /** The recursive case of `Simplify`. */
  lemma SimplifyUnfolds(s: seq<Point>, start: int, end: int, split: int, d: real, epsilon: real, distance: Distance)
    requires 0 <= start && start + 1 < end < |s| && 0.0 <= epsilon
    requires Farthest(s, start, end, end, distance) == (split, d) && d > epsilon
    ensures start < split < end
    ensures Simplify(s, start, end, epsilon, distance) ==
      Simplify(s, start, split, epsilon, distance)[..|Simplify(s, start, split, epsilon, distance)| - 1] +
      Simplify(s, split, end, epsilon, distance)
  {
  }

  /**
   * The recursive case of `douglasPeucker` (lines 257-268) over the states
   * of the array: `s0` at entry, `s1` after the first half, `s2` after the
   * second.
   */
  lemma Assemble(s0: seq<Point>, s1: seq<Point>, s2: seq<Point>,
                 start: int, end: int, split: int, d: real, size1: int, size2: int, n: int,
                 epsilon: real, distance: Distance)
    requires 0 <= start && start + 1 < end < |s0| && 0.0 <= epsilon
    requires Farthest(s0, start, end, end, distance) == (split, d) && d > epsilon
    requires FirstDone(s0, s1, start, split, size1, epsilon, distance)
    requires SecondDone(s1, s2, start + size1, split, end, size2, epsilon, distance)
    requires n == size1 + size2
    ensures Kept(s0, s2, start, end, n, epsilon, distance)
  {
    SimplifyFrame(s1, s0, split, end, epsilon, distance);
    SimplifyUnfolds(s0, start, end, split, d, epsilon, distance);
    Joined(s1, s2, start, end, size1, size2, n,
      Simplify(s0, start, split, epsilon, distance)[..size1], Simplify(s1, split, end, epsilon, distance));
  }

  /** The first half kept in place and the second half moved after it. */
  lemma Joined(s1: seq<Point>, s2: seq<Point>, start: int, end: int, size1: int, size2: int, n: int,
               left: seq<Point>, right: seq<Point>)
    requires 0 <= start && 1 <= size1 && 0 <= size2 && start + size1 + size2 <= |s1| && n == size1 + size2
    requires Unchanged(s1, s2, start + size1 - 1, end)
    requires s1[start..start + size1] == left && s2[start + size1..start + size1 + size2] == right
    ensures s2[start..start + n] == left + right
  {
    assert s2[start..start + size1] == s1[start..start + size1];
    assert s2[start..start + n] == s2[start..start + size1] + s2[start + size1..start + n];
  }
}
