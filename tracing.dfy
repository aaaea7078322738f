/**
 * The helpers of the boundary tracer of lib/imageProcessing.c: the edge test
 * `isNewEdgePixel4`, `traceUndo`, which gives back the cells a failed trace
 * marked, and `polygonFound`, which moves a traced polygon back to image
 * coordinates before handing it to the script.
 */
module Tracing {
  import opened ImageGrid

  /** `cwNeighborOffsets8`: the eight neighbours of a cell, clockwise from the one above. */
  function Offset8(w: nat, j: int): int {
    if j == 0 then -(w + 2)
    else if j == 1 then -(w + 2) + 1
    else if j == 2 then 1
    else if j == 3 then (w + 2) + 1
    else if j == 4 then w + 2
    else if j == 5 then (w + 2) - 1
    else if j == 6 then -1
    else -(w + 2) - 1
  }

  /** A filled cell (2) with a clear cell among its eight neighbours. */
  predicate NewEdge(b: seq<Byte>, w: nat, i: int) {
    && w + 3 <= i < |b| - (w + 3) && b[i] == 2
    && exists j :: 0 <= j < 8 && b[i + Offset8(w, j)] == 0
  }

  /**
   * `isNewEdgePixel4` (lines 275-283): 1 exactly for a filled cell next to a
   * clear one, 0 otherwise. The eight neighbours are read only for a filled
   * cell, which lies inside the border.
   */
  method IsNewEdgePixel4(w: nat, buffer: array<Byte>, i: int) returns (r: int)
    requires 0 <= i < buffer.Length
    requires buffer[i] == 2 ==> w + 3 <= i < buffer.Length - (w + 3)
    ensures r == 0 || r == 1
    ensures r == 1 <==> NewEdge(buffer[..], w, i)
  {
    if buffer[i] == 2 {
      var j := 7;
      while j >= 0
        invariant -1 <= j <= 7
        invariant forall k :: j < k < 8 ==> buffer[i + Offset8(w, k)] != 0
      {
        if buffer[i + Offset8(w, j)] == 0 {
          assert buffer[..][i + Offset8(w, j)] == 0;
          return 1;
        }
        j := j - 1;
      }
      assert forall k :: 0 <= k < 8 ==> buffer[..][i + Offset8(w, k)] != 0;
    }
    return 0;
  }

  /** `traceUndo` (lines 438-441): every stacked cell becomes 2 again; every other cell keeps its value. */
  method TraceUndo(buffer: array<Byte>, stack: array<int>, stackSize: int)
    requires 0 <= stackSize <= stack.Length
    requires forall k :: 0 <= k < stackSize ==> 0 <= stack[k] < buffer.Length
    modifies buffer
    ensures forall c :: 0 <= c < buffer.Length ==> buffer[c] == if c in stack[..stackSize] then 2 else old(buffer[c])
  {
    var n := stackSize;
    while n > 0
      invariant 0 <= n <= stackSize
      invariant forall c :: 0 <= c < buffer.Length ==> buffer[c] == if c in stack[n..stackSize] then 2 else old(buffer[c])
    {
      n := n - 1;
      buffer[stack[n]] := 2;
      assert stack[n..stackSize] == [stack[n]] + stack[n + 1..stackSize];
    }
  }

  /** A point moved one cell up and to the left. */
  function Unbordered(p: Point): (r: Point)
    ensures r.x + 1 == p.x && r.y + 1 == p.y
  {
    Point(p.x - 1, p.y - 1)
  }

  /**
   * The loop of `polygonFound` (lines 462-468): subtract the one-cell border
   * from each of the first `pointCount` points. The callback of line 468 is
   * `ImageScript.Collector.CreatePolygon`.
   */
  method PolygonFound(points: array<Point>, pointCount: int)
    requires 0 <= pointCount <= points.Length
    modifies points
    ensures forall p :: 0 <= p < pointCount ==> points[p] == Unbordered(old(points[p]))
    ensures forall p :: pointCount <= p < points.Length ==> points[p] == old(points[p])
  {
    var p := pointCount - 1;
    while p >= 0
      invariant -1 <= p < pointCount
      invariant forall q :: p < q < pointCount ==> points[q] == Unbordered(old(points[q]))
      invariant forall q :: 0 <= q <= p || pointCount <= q < points.Length ==> points[q] == old(points[q])
    {
      points[p] := Point(points[p].x - 1, points[p].y - 1);
      p := p - 1;
    }
  }
}
