/**
 * The script side of image processing (scripts/image/imageProcessing.ts):
 * `removeSemiAlpha`, which clears every pixel that is not fully opaque, and
 * the `createPolygon` callback that the C code calls once per polygon found.
 * The callback reads the C `Point points[maxPointCount]` array through an
 * `Int32Array` view: point k is the pair of ints at 2k and 2k + 1.
 */
module ImageScript {
  import opened ImageGrid
  import opened Constants

  /** An RGBA byte array, four bytes per pixel. */
  predicate Pixels(d: seq<Byte>) {
    |d| % 4 == 0
  }

  /** The byte at `k` once semi-transparent pixels are cleared. */
  function SemiAlphaByte(d: seq<Byte>, k: int): Byte
    requires Pixels(d) && 0 <= k < |d|
  {
    if d[k - k % 4 + 3] != 255 then 0 else d[k]
  }

  /** The pixels with alpha 255 unchanged, every other pixel (0, 0, 0, 0). */
  function RemovedSemiAlpha(d: seq<Byte>): (r: seq<Byte>)
    requires Pixels(d)
    ensures |r| == |d| && Pixels(r)
    ensures forall p :: 0 <= p < |d| / 4 && d[4 * p + 3] == 255 ==> r[4 * p..4 * p + 4] == d[4 * p..4 * p + 4]
    ensures forall p :: 0 <= p < |d| / 4 && d[4 * p + 3] != 255 ==> r[4 * p..4 * p + 4] == [0, 0, 0, 0]
  {
    var r := seq(|d|, k requires 0 <= k < |d| => SemiAlphaByte(d, k));
    forall p | 0 <= p < |d| / 4
      ensures d[4 * p + 3] == 255 ==> r[4 * p..4 * p + 4] == d[4 * p..4 * p + 4]
      ensures d[4 * p + 3] != 255 ==> r[4 * p..4 * p + 4] == [0, 0, 0, 0]
    {
      PixelBytes(d, p);
    }
    r
  }

  /** The four bytes of pixel `p` all belong to it. */
  lemma PixelBytes(d: seq<Byte>, p: int)
    requires Pixels(d) && 0 <= p < |d| / 4
    ensures 4 * p + 4 <= |d|
    ensures forall k :: 4 * p <= k < 4 * p + 4 ==> k - k % 4 == 4 * p
  {
    forall k | 4 * p <= k < 4 * p + 4 ensures k - k % 4 == 4 * p {
      assert k == 4 * p + (k - 4 * p);
    }
  }

  /** Every alpha byte of the result is 0 or 255. */
  lemma RemovedSemiAlphaOpaque(d: seq<Byte>)
    requires Pixels(d)
    ensures forall p :: 0 <= p < |d| / 4 ==> RemovedSemiAlpha(d)[4 * p + 3] in {0, 255}
  {
    var r := RemovedSemiAlpha(d);
    forall p | 0 <= p < |d| / 4 ensures r[4 * p + 3] in {0, 255} {
      PixelBytes(d, p);
      assert r[4 * p + 3] == r[4 * p..4 * p + 4][3];
      assert d[4 * p + 3] == d[4 * p..4 * p + 4][3];
    }
  }

  /** Removing semi-transparent pixels twice is removing them once. */
  lemma RemovedSemiAlphaIdempotent(d: seq<Byte>)
    requires Pixels(d)
    ensures RemovedSemiAlpha(RemovedSemiAlpha(d)) == RemovedSemiAlpha(d)
  {
    var r := RemovedSemiAlpha(d);
    var rr := RemovedSemiAlpha(r);
    forall k | 0 <= k < |d| ensures rr[k] == r[k] {
      var p := k / 4;
      PixelBytes(d, p);
      assert r[4 * p + 3] == r[4 * p..4 * p + 4][3];
      assert d[4 * p + 3] == d[4 * p..4 * p + 4][3];
      assert rr[k] == rr[4 * p..4 * p + 4][k - 4 * p] && r[k] == r[4 * p..4 * p + 4][k - 4 * p];
    }
  }

  /** The pixels from byte `i` on are processed, the ones before it are not. */
  lemma SemiAlphaStep(d: seq<Byte>, cur: seq<Byte>, i: int, q: int, next: seq<Byte>)
    requires Pixels(d) && 0 <= q < |d| / 4 && i == 4 * q
    requires cur == d[..i + 4] + RemovedSemiAlpha(d)[i + 4..]
    requires next == if cur[i + 3] != 255 then cur[i := 0][i + 1 := 0][i + 2 := 0][i + 3 := 0] else cur
    ensures next == d[..i] + RemovedSemiAlpha(d)[i..]
  {
    var r := RemovedSemiAlpha(d);
    PixelBytes(d, q);
    assert cur[i + 3] == d[i + 3];
    assert r[i..i + 4] == (if d[i + 3] == 255 then d[i..i + 4] else [0, 0, 0, 0]);
    forall k | 0 <= k < |d| ensures next[k] == (d[..i] + r[i..])[k] {
      if i <= k < i + 4 {
        assert r[k] == r[i..i + 4][k - i];
        assert d[k] == d[i..i + 4][k - i];
      }
    }
  }

  /** `removeSemiAlpha` (lines 39-46), on the canvas's RGBA bytes. */
  method RemoveSemiAlpha(data: array<Byte>)
    requires Pixels(data[..])
    modifies data
    ensures data[..] == RemovedSemiAlpha(old(data[..]))
  {
    ghost var d := data[..];
    var i := data.Length - 4;
    ghost var q := data.Length / 4;
    while i >= 0
      invariant 0 <= q <= |d| / 4 && i == 4 * q - 4
      invariant data[..] == d[..i + 4] + RemovedSemiAlpha(d)[i + 4..]
    {
      ghost var cur := data[..];
      if data[i + 3] != 255 {
        data[i] := 0;
        data[i + 1] := 0;
        data[i + 2] := 0;
        data[i + 3] := 0;
      }
      SemiAlphaStep(d, cur, i, q - 1, data[..]);
      i := i - 4;
      q := q - 1;
    }
    assert q == 0 && i == -4;
    AllProcessed(d, data[..]);
  }

  lemma AllProcessed(d: seq<Byte>, cur: seq<Byte>)
    requires Pixels(d) && cur == d[..0] + RemovedSemiAlpha(d)[0..]
    ensures cur == RemovedSemiAlpha(d)
  {
    assert d[..0] == [];
  }

  /** The ints of the C `Point` array as the `Int32Array` view sees them: x, then y, for each point. */
  function Flatten(points: seq<Point>): (r: seq<int>)
    ensures |r| == 2 * |points|
    ensures forall k :: 0 <= k < |points| ==> r[2 * k] == points[k].x && r[2 * k + 1] == points[k].y
  {
    var r := seq(2 * |points|, k requires 0 <= k < 2 * |points| => if k % 2 == 0 then points[k / 2].x else points[k / 2].y);
    assert forall k :: 0 <= k < |points| ==> (2 * k) / 2 == k && (2 * k + 1) / 2 == k && (2 * k) % 2 == 0 && (2 * k + 1) % 2 == 1;
    r
  }

  /** The points the callback builds from the first `2 * pointCount` ints. */
  function Unpack(view: seq<int>, pointCount: nat): (r: seq<Point>)
    requires 2 * pointCount <= |view|
    ensures |r| == pointCount
    ensures forall k :: 0 <= k < pointCount ==> r[k] == Point(view[2 * k], view[2 * k + 1])
  {
    seq(pointCount, k requires 0 <= k < pointCount => Point(view[2 * k], view[2 * k + 1]))
  }

  /** Reading the view back gives the points the C code wrote. */
  lemma UnpackFlatten(points: seq<Point>, pointCount: nat)
    requires pointCount <= |points|
    ensures Unpack(Flatten(points), pointCount) == points[..pointCount]
  {
    var view := Flatten(points);
    var r := Unpack(view, pointCount);
    forall k | 0 <= k < pointCount ensures r[k] == points[k] {
      var p := points[k];
      assert r[k] == Point(view[2 * k], view[2 * k + 1]);
      assert view[2 * k] == p.x && view[2 * k + 1] == p.y;
      assert p == Point(p.x, p.y);
    }
  }

  /** The polygons `processImage` collects (line 91). */
  class Collector {
    var polygons: seq<seq<Point>>

    constructor()
      ensures polygons == []
    {
      polygons := [];
    }

    /** The `createPolygon` callback (lines 103-110): build the polygon from the view and append it. */
    method CreatePolygon(points: array<int>, pointCount: int)
      requires 0 <= pointCount && 2 * pointCount <= points.Length
      modifies this
      ensures polygons == old(polygons) + [Unpack(points[..], pointCount)]
    {
      var polygon := new Point[pointCount];
      var i := (pointCount - 1) * 2;
      while i >= 0
        invariant -2 <= i <= 2 * pointCount - 2 && i % 2 == 0
        modifies polygon
        invariant forall k :: i / 2 < k < pointCount ==> polygon[k] == Point(points[2 * k], points[2 * k + 1])
      {
        polygon[i / 2] := Point(points[i], points[i + 1]);
        i := i - 2;
      }
      assert polygon[..] == Unpack(points[..], pointCount) by {
        forall k | 0 <= k < pointCount ensures polygon[..][k] == Unpack(points[..], pointCount)[k] {
          assert polygon[k] == Point(points[2 * k], points[2 * k + 1]);
        }
      }
      polygons := polygons + [polygon[..]];
    }
  }
}
