/**
 * The rectangle writers of lib/gl.c: `draw`, `drawScale`, `drawRotate` and
 * `drawScaleRotate` turn a model rectangle and a packed texture rectangle into
 * the twelve floats of one quad in the vertex staging buffer.
 *
 * The WebAssembly float heap (`HEAPF32`) is an `array<real>` indexed by byte
 * address / 4. `cosf`/`sinf` of the angle are parameters (`cosv`, `sinv`).
 */
module Gl {

  const FloatsPerVertex: nat := 3
  const FloatsPerRectangle: nat := 12
  const BytesPerRectangle: nat := 48

  /** `GLModelCoordinates` (lib/gl.c): the rectangle of a sprite around its pivot. */
  datatype ModelCoordinates = ModelCoordinates(left: real, top: real, right: real, bottom: real)

  /** `GLTextureCoordinates`: the packed texture coordinate of each corner. */
  datatype TextureCoordinates = TextureCoordinates(leftTop: real, leftBottom: real, rightTop: real, rightBottom: real)

  /** A float-aligned byte address whose `count` floats lie inside the heap. */
  predicate Fits(heap: seq<real>, ptr: nat, count: nat) {
    ptr % 4 == 0 && ptr / 4 + count <= |heap|
  }

  /** The float ranges [a, a + m) and [b, b + n) of two byte addresses do not meet. */
  predicate Disjoint(a: nat, m: nat, b: nat, n: nat) {
    a / 4 + m <= b / 4 || b / 4 + n <= a / 4
  }

  function ModelAt(heap: seq<real>, ptr: nat): ModelCoordinates
    requires Fits(heap, ptr, 4)
  {
    var i := ptr / 4;
    ModelCoordinates(heap[i], heap[i + 1], heap[i + 2], heap[i + 3])
  }

  function TextureAt(heap: seq<real>, ptr: nat): TextureCoordinates
    requires Fits(heap, ptr, 4)
  {
    var i := ptr / 4;
    TextureCoordinates(heap[i], heap[i + 1], heap[i + 2], heap[i + 3])
  }

  /** Point 0 .. 3 of a quad: left-top, left-bottom, right-top, right-bottom. */
  datatype Point = Point(x: real, y: real)

  function Corners(m: ModelCoordinates): (c: seq<Point>)
    ensures |c| == 4
    ensures c[0] == Point(m.left, m.top) && c[1] == Point(m.left, m.bottom)
    ensures c[2] == Point(m.right, m.top) && c[3] == Point(m.right, m.bottom)
  {
    [Point(m.left, m.top), Point(m.left, m.bottom), Point(m.right, m.top), Point(m.right, m.bottom)]
  }

  /** The packed texture coordinate of each corner, in the corner order. */
  function Packed(t: TextureCoordinates): seq<real> {
    [t.leftTop, t.leftBottom, t.rightTop, t.rightBottom]
  }

  /** The twelve floats of a quad: x, y, then packed texture coordinate plus alpha, per corner. */
  function Quad(p: seq<Point>, t: TextureCoordinates, alpha: real): (v: seq<real>)
    requires |p| == 4
    ensures |v| == FloatsPerRectangle
    ensures forall k :: 0 <= k < 4 ==> v[3 * k] == p[k].x && v[3 * k + 1] == p[k].y
    ensures forall k :: 0 <= k < 4 ==> v[3 * k + 2] == Packed(t)[k] + alpha
  {
    [p[0].x, p[0].y, t.leftTop + alpha,
     p[1].x, p[1].y, t.leftBottom + alpha,
     p[2].x, p[2].y, t.rightTop + alpha,
     p[3].x, p[3].y, t.rightBottom + alpha]
  }

  function Translate(p: Point, viewX: real, viewY: real): Point {
    Point(p.x + viewX, p.y + viewY)
  }

  function ScalePoint(p: Point, scale: real): Point {
    Point(p.x * scale, p.y * scale)
  }

  /** The rotation the C code writes out: (cos x + sin y, cos y - sin x). */
  function RotatePoint(p: Point, cosv: real, sinv: real): Point {
    Point(cosv * p.x + sinv * p.y, cosv * p.y - sinv * p.x)
  }

  function ScaleModel(m: ModelCoordinates, scale: real): ModelCoordinates {
    ModelCoordinates(m.left * scale, m.top * scale, m.right * scale, m.bottom * scale)
  }

  function Moved(c: seq<Point>, viewX: real, viewY: real): (r: seq<Point>)
    requires |c| == 4
    ensures |r| == 4
  {
    [Translate(c[0], viewX, viewY), Translate(c[1], viewX, viewY), Translate(c[2], viewX, viewY), Translate(c[3], viewX, viewY)]
  }

  function Scaled(c: seq<Point>, scale: real): (r: seq<Point>)
    requires |c| == 4
    ensures |r| == 4
  {
    [ScalePoint(c[0], scale), ScalePoint(c[1], scale), ScalePoint(c[2], scale), ScalePoint(c[3], scale)]
  }

  function Rotated(c: seq<Point>, cosv: real, sinv: real): (r: seq<Point>)
    requires |c| == 4
    ensures |r| == 4
  {
    [RotatePoint(c[0], cosv, sinv), RotatePoint(c[1], cosv, sinv), RotatePoint(c[2], cosv, sinv), RotatePoint(c[3], cosv, sinv)]
  }

  /** The floats `draw` writes: the corners moved to the view position. */
  function DrawQuad(m: ModelCoordinates, alpha: real, t: TextureCoordinates, viewX: real, viewY: real): seq<real> {
    Quad(Moved(Corners(m), viewX, viewY), t, alpha)
  }

  /** The floats `drawScale` writes: the corners scaled about the pivot, then moved. */
  function DrawScaleQuad(m: ModelCoordinates, alpha: real, t: TextureCoordinates, scale: real, viewX: real, viewY: real): seq<real> {
    Quad(Moved(Scaled(Corners(m), scale), viewX, viewY), t, alpha)
  }

  /** The floats `drawRotate` writes: the corners rotated about the pivot, then moved. */
  function DrawRotateQuad(m: ModelCoordinates, alpha: real, t: TextureCoordinates, cosv: real, sinv: real, viewX: real, viewY: real): seq<real> {
    Quad(Moved(Rotated(Corners(m), cosv, sinv), viewX, viewY), t, alpha)
  }

  /** The floats `drawScaleRotate` writes: scaled, rotated, then moved. */
  function DrawScaleRotateQuad(m: ModelCoordinates, alpha: real, t: TextureCoordinates, scale: real, cosv: real, sinv: real, viewX: real, viewY: real): seq<real> {
    Quad(Moved(Rotated(Scaled(Corners(m), scale), cosv, sinv), viewX, viewY), t, alpha)
  }

  /** `draw` places corner k at the model corner plus the view offset, in the documented order. */
  lemma DrawQuadLayout(m: ModelCoordinates, alpha: real, t: TextureCoordinates, viewX: real, viewY: real)
    ensures var v := DrawQuad(m, alpha, t, viewX, viewY);
      v == [m.left + viewX, m.top + viewY, t.leftTop + alpha,
            m.left + viewX, m.bottom + viewY, t.leftBottom + alpha,
            m.right + viewX, m.top + viewY, t.rightTop + alpha,
            m.right + viewX, m.bottom + viewY, t.rightBottom + alpha]
  {
  }

  /** `drawScale` writes the model corners times the scale, plus the view offset. */
  lemma DrawScaleQuadLayout(m: ModelCoordinates, alpha: real, t: TextureCoordinates, scale: real, viewX: real, viewY: real)
    ensures DrawScaleQuad(m, alpha, t, scale, viewX, viewY)
      == [m.left * scale + viewX, m.top * scale + viewY, t.leftTop + alpha,
          m.left * scale + viewX, m.bottom * scale + viewY, t.leftBottom + alpha,
          m.right * scale + viewX, m.top * scale + viewY, t.rightTop + alpha,
          m.right * scale + viewX, m.bottom * scale + viewY, t.rightBottom + alpha]
  {
    ScaledCorners(m, scale);
    DrawQuadLayout(ScaleModel(m, scale), alpha, t, viewX, viewY);
    SameFloats(DrawScaleQuad(m, alpha, t, scale, viewX, viewY), [m.left * scale + viewX, m.top * scale + viewY, t.leftTop + alpha,
          m.left * scale + viewX, m.bottom * scale + viewY, t.leftBottom + alpha,
          m.right * scale + viewX, m.top * scale + viewY, t.rightTop + alpha,
          m.right * scale + viewX, m.bottom * scale + viewY, t.rightBottom + alpha]);
  }

  /** Two quads are equal when their twelve floats are. */
  lemma SameFloats(a: seq<real>, b: seq<real>)
    requires |a| == FloatsPerRectangle && |b| == FloatsPerRectangle
    requires a[0] == b[0] && a[1] == b[1] && a[2] == b[2] && a[3] == b[3] && a[4] == b[4] && a[5] == b[5]
    requires a[6] == b[6] && a[7] == b[7] && a[8] == b[8] && a[9] == b[9] && a[10] == b[10] && a[11] == b[11]
    ensures a == b
  {
    forall k | 0 <= k < FloatsPerRectangle
      ensures a[k] == b[k]
    {
      assert k in {0, 1, 2, 3, 4, 5, 6, 7, 8, 9, 10, 11};
    }
  }

  /** `drawRotate` writes each corner (x, y) as (cos x + sin y, cos y - sin x) plus the view offset. */
  lemma DrawRotateQuadLayout(m: ModelCoordinates, alpha: real, t: TextureCoordinates, cosv: real, sinv: real, viewX: real, viewY: real)
    ensures DrawRotateQuad(m, alpha, t, cosv, sinv, viewX, viewY)
      == [(cosv * m.left) + (sinv * m.top) + viewX, (cosv * m.top) - (sinv * m.left) + viewY, t.leftTop + alpha,
          (cosv * m.left) + (sinv * m.bottom) + viewX, (cosv * m.bottom) - (sinv * m.left) + viewY, t.leftBottom + alpha,
          (cosv * m.right) + (sinv * m.top) + viewX, (cosv * m.top) - (sinv * m.right) + viewY, t.rightTop + alpha,
          (cosv * m.right) + (sinv * m.bottom) + viewX, (cosv * m.bottom) - (sinv * m.right) + viewY, t.rightBottom + alpha]
  {
    RotatedCorner(m.left, m.top, cosv, sinv, viewX, viewY);
    RotatedCorner(m.left, m.bottom, cosv, sinv, viewX, viewY);
    RotatedCorner(m.right, m.top, cosv, sinv, viewX, viewY);
    RotatedCorner(m.right, m.bottom, cosv, sinv, viewX, viewY);
    var a, b, c, d := Point(m.left, m.top), Point(m.left, m.bottom), Point(m.right, m.top), Point(m.right, m.bottom);
    assert Corners(m) == [a, b, c, d];
    var r := Rotated(Corners(m), cosv, sinv);
    assert r == [RotatePoint(a, cosv, sinv), RotatePoint(b, cosv, sinv), RotatePoint(c, cosv, sinv), RotatePoint(d, cosv, sinv)];
    var q := Moved(r, viewX, viewY);
    assert q == [Translate(RotatePoint(a, cosv, sinv), viewX, viewY), Translate(RotatePoint(b, cosv, sinv), viewX, viewY),
                 Translate(RotatePoint(c, cosv, sinv), viewX, viewY), Translate(RotatePoint(d, cosv, sinv), viewX, viewY)];
    QuadOfPoints(q, t, alpha,
      (cosv * m.left) + (sinv * m.top) + viewX, (cosv * m.top) - (sinv * m.left) + viewY,
      (cosv * m.left) + (sinv * m.bottom) + viewX, (cosv * m.bottom) - (sinv * m.left) + viewY,
      (cosv * m.right) + (sinv * m.top) + viewX, (cosv * m.top) - (sinv * m.right) + viewY,
      (cosv * m.right) + (sinv * m.bottom) + viewX, (cosv * m.bottom) - (sinv * m.right) + viewY);
  }

  /** The floats of a quad, written out from the coordinates of its four points. */
  lemma QuadOfPoints(p: seq<Point>, t: TextureCoordinates, alpha: real,
                     x0: real, y0: real, x1: real, y1: real, x2: real, y2: real, x3: real, y3: real)
    requires p == [Point(x0, y0), Point(x1, y1), Point(x2, y2), Point(x3, y3)]
    ensures Quad(p, t, alpha)
      == [x0, y0, t.leftTop + alpha, x1, y1, t.leftBottom + alpha,
          x2, y2, t.rightTop + alpha, x3, y3, t.rightBottom + alpha]
  {
  }

  lemma RotatedCorner(x: real, y: real, cosv: real, sinv: real, viewX: real, viewY: real)
    ensures Translate(RotatePoint(Point(x, y), cosv, sinv), viewX, viewY) == Point((cosv * x) + (sinv * y) + viewX, (cosv * y) - (sinv * x) + viewY)
  {
    var p := RotatePoint(Point(x, y), cosv, sinv);
    assert p.x == cosv * x + sinv * y && p.y == cosv * y - sinv * x;
  }

  /** `drawScaleRotate` is `drawRotate` of the scaled model. */
  lemma DrawScaleRotateQuadLayout(m: ModelCoordinates, alpha: real, t: TextureCoordinates, scale: real, cosv: real, sinv: real, viewX: real, viewY: real)
    ensures DrawScaleRotateQuad(m, alpha, t, scale, cosv, sinv, viewX, viewY) == DrawRotateQuad(ScaleModel(m, scale), alpha, t, cosv, sinv, viewX, viewY)
  {
    ScaledCorners(m, scale);
  }

  lemma ScaledCorners(m: ModelCoordinates, scale: real)
    ensures Scaled(Corners(m), scale) == Corners(ScaleModel(m, scale))
  {
    var a, b := Scaled(Corners(m), scale), Corners(ScaleModel(m, scale));
    assert a[0] == b[0] && a[1] == b[1] && a[2] == b[2] && a[3] == b[3];
  }

  /** Scaling by 1 is a plain draw, and scaling draws the scaled model. */
  lemma DrawScaleIsDrawOfScaledModel(m: ModelCoordinates, alpha: real, t: TextureCoordinates, scale: real, viewX: real, viewY: real)
    ensures DrawScaleQuad(m, alpha, t, scale, viewX, viewY) == DrawQuad(ScaleModel(m, scale), alpha, t, viewX, viewY)
    ensures DrawScaleQuad(m, alpha, t, 1.0, viewX, viewY) == DrawQuad(m, alpha, t, viewX, viewY)
  {
    ScaledCorners(m, scale);
    assert ScaleModel(m, 1.0) == m;
  }

  /** A rotation by angle 0 (cos 1, sin 0) is a plain draw; scale-rotate is rotate of the scaled model. */
  lemma RotateDraws(m: ModelCoordinates, alpha: real, t: TextureCoordinates, scale: real, cosv: real, sinv: real, viewX: real, viewY: real)
    ensures DrawRotateQuad(m, alpha, t, 1.0, 0.0, viewX, viewY) == DrawQuad(m, alpha, t, viewX, viewY)
    ensures DrawScaleRotateQuad(m, alpha, t, scale, cosv, sinv, viewX, viewY) == DrawRotateQuad(ScaleModel(m, scale), alpha, t, cosv, sinv, viewX, viewY)
    ensures DrawScaleRotateQuad(m, alpha, t, 1.0, cosv, sinv, viewX, viewY) == DrawRotateQuad(m, alpha, t, cosv, sinv, viewX, viewY)
  {
    var c := Corners(m);
    var r := Rotated(c, 1.0, 0.0);
    assert r[0] == c[0] && r[1] == c[1] && r[2] == c[2] && r[3] == c[3];
    ScaledCorners(m, scale);
    assert ScaleModel(m, 1.0) == m;
  }

  function SquaredDistance(a: Point, b: Point): real {
    (a.x - b.x) * (a.x - b.x) + (a.y - b.y) * (a.y - b.y)
  }

  /** With cos^2 + sin^2 = 1 the written rotation keeps every distance: the quad stays congruent. */
  lemma RotationIsRigid(a: Point, b: Point, cosv: real, sinv: real)
    requires cosv * cosv + sinv * sinv == 1.0
    ensures SquaredDistance(RotatePoint(a, cosv, sinv), RotatePoint(b, cosv, sinv)) == SquaredDistance(a, b)
  {
    var dx, dy := a.x - b.x, a.y - b.y;
    var ra, rb := RotatePoint(a, cosv, sinv), RotatePoint(b, cosv, sinv);
    assert ra.x - rb.x == cosv * dx + sinv * dy;
    assert ra.y - rb.y == cosv * dy - sinv * dx;
    calc {
      (cosv * dx + sinv * dy) * (cosv * dx + sinv * dy) + (cosv * dy - sinv * dx) * (cosv * dy - sinv * dx);
      (cosv * cosv + sinv * sinv) * (dx * dx) + (cosv * cosv + sinv * sinv) * (dy * dy);
      dx * dx + dy * dy;
    }
  }

  /** Whatever the transform, the third float of every vertex is the corner's packed texture coordinate plus alpha. */
  lemma TextureFloatsIgnoreTransform(m: ModelCoordinates, alpha: real, t: TextureCoordinates, scale: real, cosv: real, sinv: real, viewX: real, viewY: real, k: nat)
    requires k < 4
    ensures DrawQuad(m, alpha, t, viewX, viewY)[3 * k + 2] == Packed(t)[k] + alpha
    ensures DrawScaleQuad(m, alpha, t, scale, viewX, viewY)[3 * k + 2] == Packed(t)[k] + alpha
    ensures DrawRotateQuad(m, alpha, t, cosv, sinv, viewX, viewY)[3 * k + 2] == Packed(t)[k] + alpha
    ensures DrawScaleRotateQuad(m, alpha, t, scale, cosv, sinv, viewX, viewY)[3 * k + 2] == Packed(t)[k] + alpha
  {
  }

  /** Writes `quad` to the twelve floats at byte address `vertices`, leaving the rest of the heap alone. */
  method WriteQuad(heap: array<real>, vertices: nat, quad: seq<real>)
    requires Fits(heap[..], vertices, FloatsPerRectangle) && |quad| == FloatsPerRectangle
    modifies heap
    ensures heap[vertices / 4..vertices / 4 + FloatsPerRectangle] == quad
    ensures forall k :: 0 <= k < heap.Length && !(vertices / 4 <= k < vertices / 4 + FloatsPerRectangle) ==> heap[k] == old(heap[k])
  {
    var i := vertices / 4;
    WriteVertex(heap, i, quad[0], quad[1], quad[2]);
    WriteVertex(heap, i + 3, quad[3], quad[4], quad[5]);
    WriteVertex(heap, i + 6, quad[6], quad[7], quad[8]);
    WriteVertex(heap, i + 9, quad[9], quad[10], quad[11]);
    assert heap[i..i + FloatsPerRectangle] == quad;
  }

  /** Writes the three floats of one vertex at float index `i`. */
  method WriteVertex(heap: array<real>, i: nat, x: real, y: real, z: real)
    requires i + FloatsPerVertex <= heap.Length
    modifies heap
    ensures heap[i] == x && heap[i + 1] == y && heap[i + 2] == z
    ensures forall k :: 0 <= k < heap.Length && !(i <= k < i + FloatsPerVertex) ==> heap[k] == old(heap[k])
  {
    heap[i] := x;
    heap[i + 1] := y;
    heap[i + 2] := z;
  }

  /** The coordinates a draw reads lie in the heap, away from the quad it writes. */
  predicate DrawArguments(heap: seq<real>, vertices: nat, modelCoordinates: nat, textureCoordinates: nat) {
    && Fits(heap, vertices, FloatsPerRectangle)
    && Fits(heap, modelCoordinates, 4) && Fits(heap, textureCoordinates, 4)
    && Disjoint(vertices, FloatsPerRectangle, modelCoordinates, 4)
    && Disjoint(vertices, FloatsPerRectangle, textureCoordinates, 4)
  }

  /** `draw` (lib/gl.c) */
  method Draw(heap: array<real>, vertices: nat, modelCoordinates: nat, alpha: real, textureCoordinates: nat, viewX: real, viewY: real)
    requires DrawArguments(heap[..], vertices, modelCoordinates, textureCoordinates)
    modifies heap
    ensures heap[vertices / 4..vertices / 4 + FloatsPerRectangle]
      == DrawQuad(ModelAt(old(heap[..]), modelCoordinates), alpha, TextureAt(old(heap[..]), textureCoordinates), viewX, viewY)
    ensures forall k :: 0 <= k < heap.Length && !(vertices / 4 <= k < vertices / 4 + FloatsPerRectangle) ==> heap[k] == old(heap[k])
  {
    var m := ModelAt(heap[..], modelCoordinates);
    var t := TextureAt(heap[..], textureCoordinates);
    var left, top, right, bottom := m.left + viewX, m.top + viewY, m.right + viewX, m.bottom + viewY;
    WriteQuad(heap, vertices, [left, top, t.leftTop + alpha, left, bottom, t.leftBottom + alpha,
                               right, top, t.rightTop + alpha, right, bottom, t.rightBottom + alpha]);
  }

  /** `drawScale` */
  method DrawScale(heap: array<real>, vertices: nat, modelCoordinates: nat, alpha: real, textureCoordinates: nat, scale: real, viewX: real, viewY: real)
    requires DrawArguments(heap[..], vertices, modelCoordinates, textureCoordinates)
    modifies heap
    ensures heap[vertices / 4..vertices / 4 + FloatsPerRectangle]
      == DrawScaleQuad(ModelAt(old(heap[..]), modelCoordinates), alpha, TextureAt(old(heap[..]), textureCoordinates), scale, viewX, viewY)
    ensures forall k :: 0 <= k < heap.Length && !(vertices / 4 <= k < vertices / 4 + FloatsPerRectangle) ==> heap[k] == old(heap[k])
  {
    var m := ModelAt(heap[..], modelCoordinates);
    var t := TextureAt(heap[..], textureCoordinates);
    var left, top := (m.left * scale) + viewX, (m.top * scale) + viewY;
    var right, bottom := (m.right * scale) + viewX, (m.bottom * scale) + viewY;
    DrawScaleQuadLayout(m, alpha, t, scale, viewX, viewY);
    var quad := [left, top, t.leftTop + alpha, left, bottom, t.leftBottom + alpha,
                 right, top, t.rightTop + alpha, right, bottom, t.rightBottom + alpha];
    SameFloats(quad, DrawScaleQuad(m, alpha, t, scale, viewX, viewY));
    WriteQuad(heap, vertices, quad);
  }

  /** `drawRotate`, with `cosv == cosf(radians)` and `sinv == sinf(radians)`. */
  method DrawRotate(heap: array<real>, vertices: nat, modelCoordinates: nat, alpha: real, textureCoordinates: nat, cosv: real, sinv: real, viewX: real, viewY: real)
    requires DrawArguments(heap[..], vertices, modelCoordinates, textureCoordinates)
    modifies heap
    ensures heap[vertices / 4..vertices / 4 + FloatsPerRectangle]
      == DrawRotateQuad(ModelAt(old(heap[..]), modelCoordinates), alpha, TextureAt(old(heap[..]), textureCoordinates), cosv, sinv, viewX, viewY)
    ensures forall k :: 0 <= k < heap.Length && !(vertices / 4 <= k < vertices / 4 + FloatsPerRectangle) ==> heap[k] == old(heap[k])
  {
    var m := ModelAt(heap[..], modelCoordinates);
    var t := TextureAt(heap[..], textureCoordinates);
    WriteQuad(heap, vertices, DrawRotateQuad(m, alpha, t, cosv, sinv, viewX, viewY));
  }

  /** `drawScaleRotate` */
  method DrawScaleRotate(heap: array<real>, vertices: nat, modelCoordinates: nat, alpha: real, textureCoordinates: nat, scale: real, cosv: real, sinv: real, viewX: real, viewY: real)
    requires DrawArguments(heap[..], vertices, modelCoordinates, textureCoordinates)
    modifies heap
    ensures heap[vertices / 4..vertices / 4 + FloatsPerRectangle]
      == DrawScaleRotateQuad(ModelAt(old(heap[..]), modelCoordinates), alpha, TextureAt(old(heap[..]), textureCoordinates), scale, cosv, sinv, viewX, viewY)
    ensures forall k :: 0 <= k < heap.Length && !(vertices / 4 <= k < vertices / 4 + FloatsPerRectangle) ==> heap[k] == old(heap[k])
  {
    var m := ModelAt(heap[..], modelCoordinates);
    var t := TextureAt(heap[..], textureCoordinates);
    WriteQuad(heap, vertices, DrawScaleRotateQuad(m, alpha, t, scale, cosv, sinv, viewX, viewY));
  }
}
