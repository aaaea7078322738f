/**
 * A level (scripts/level/level.ts): its name, timestamps, size, images,
 * wall polygons and objects; `revive`, which rebuilds and normalises a
 * level read back from storage; the part of `prepare` that turns the
 * result of image processing into the level's polygons and height; and
 * `createLevelPtr`, which lays out the walls and objects handed to the
 * physics engine.
 */
module Levels {
  import opened JsNumbers
  import opened Constants
  import opened Wrappers
  import opened Text
  import opened LevelObjects
  import ImageGrid

  const MaxPolygonCountMessage: string := "Level.MaxPolygonCount"
  const MaxPointCountMessage: string := "Level.MaxPointCount"
  const MaxPolygonCount: nat := 5000
  const MaxPointCount: nat := 20000
  const MaxObjectCount: nat := 256
  const MaxBallCount: nat := 40

  /** A wall polygon: its points, in order. */
  type Polygon = seq<ImageGrid.Point>

  // ---------------------------------------------------------------------
  // The scalar properties of a level and their normalisation by `revive`
  // ---------------------------------------------------------------------

  /** The name, timestamps, size and images of a level. */
  datatype Header = Header(
    name: string, createdAt: Number, modifiedAt: Number, width: int, height: int,
    thumbnailImage: string, image: string, processedImage: string)

  /**
   * A level as read back from storage, after the properties of the stored
   * object are copied over the defaults (lines 95-106): a missing string is
   * `None`, a missing number is NaN, missing lists are `None`.
   */
  datatype LevelData = LevelData(
    name: Option<string>, createdAt: Number, modifiedAt: Number, height: Number,
    thumbnailImage: Option<string>, image: Option<string>, processedImage: Option<string>,
    polygons: Option<seq<Polygon>>, objects: Option<seq<ObjectData>>)

  /** The defaults of a new `Level` (lines 51-60), which `revive` normalises when it is given nothing. */
  const DefaultData: LevelData := LevelData(Some(""), Finite(0.0), Finite(0.0), Finite(MaxHeight as real),
    Some(""), Some(""), Some(""), Some([]), Some([]))

  /** A string property's value, "" when it is missing or empty (JavaScript's `s || ""`). */
  function StringOf(s: Option<string>): (r: string)
    ensures s.Some? ==> r == s.value
    ensures s.None? ==> r == ""
  {
    match s
    case Some(t) => t
    case None => ""
  }

  /** A number that is NaN, zero or negative: what `!t || t < 0` tests (lines 109-112). */
  predicate NotPositive(t: Number) {
    match t
    case Finite(v) => v <= 0.0
    case NaN => true
    case Infinity(positive) => !positive
  }

  /** A timestamp as `revive` keeps it: a missing, zero or negative one becomes 0 (lines 109-112). */
  function RevivedTime(t: Number): (r: Number)
    ensures NotPositive(t) ==> r == Finite(0.0)
    ensures !NotPositive(t) ==> r == t
    ensures r == Finite(0.0) || !NotPositive(r)
  {
    if NotPositive(t) then Finite(0.0) else t
  }

  /**
   * The height as `revive` keeps it (lines 114-117): a missing height, one
   * of at most `iconSize` or one above `maxHeight` becomes `maxHeight`;
   * any other is truncated to an integer.
   */
  function RevivedHeight(h: Number): (r: int)
    ensures IconSize <= r <= MaxHeight
    ensures h.Finite? && IconSize as real < h.value <= MaxHeight as real ==> r == Floor(h.value)
    ensures !(h.Finite? && IconSize as real < h.value <= MaxHeight as real) ==> r == MaxHeight
  {
    match h
    case Finite(v) => if v <= IconSize as real || v > MaxHeight as real then MaxHeight else Trunc(v)
    case _ => MaxHeight
  }

  /** The image as `revive` keeps it (lines 118-125): the processed image stands in for a missing one. */
  function RevivedImage(image: Option<string>, processedImage: Option<string>): (r: string)
    ensures StringOf(image) != "" ==> r == StringOf(image)
    ensures StringOf(image) == "" ==> r == StringOf(processedImage)
  {
    if StringOf(image) == "" then StringOf(processedImage) else StringOf(image)
  }

  /** The name, timestamps, size and images `revive` gives a level (lines 107-125). */
  function ReviveHeader(d: LevelData): (r: Header)
    ensures Normal(r)
  {
    TrimIdempotent(StringOf(d.name));
    Header(Trim(StringOf(d.name)), RevivedTime(d.createdAt), RevivedTime(d.modifiedAt), BaseWidth,
      RevivedHeight(d.height), StringOf(d.thumbnailImage), RevivedImage(d.image, d.processedImage), StringOf(d.processedImage))
  }

  /**
   * What every revived level satisfies: a trimmed name, timestamps that are
   * 0 or positive, the base width, a height in iconSize .. maxHeight, and an
   * image whenever there is a processed image.
   */
  predicate Normal(h: Header) {
    && h.name == Trim(h.name)
    && (h.createdAt == Finite(0.0) || !NotPositive(h.createdAt))
    && (h.modifiedAt == Finite(0.0) || !NotPositive(h.modifiedAt))
    && h.width == BaseWidth && IconSize <= h.height <= MaxHeight
    && (h.processedImage != "" ==> h.image != "")
  }

  /** The stored form of a header, as `toJSON` writes it and `revive` reads it back. */
  function Saved(h: Header, polygons: seq<Polygon>, objects: seq<ObjectData>): LevelData {
    LevelData(Some(h.name), h.createdAt, h.modifiedAt, Finite(h.height as real),
      Some(h.thumbnailImage), Some(h.image), Some(h.processedImage), Some(polygons), Some(objects))
  }

  /** Storing a normal level taller than `iconSize` and reviving it gives back the same header. */
  lemma ReviveSaved(h: Header, polygons: seq<Polygon>, objects: seq<ObjectData>)
    requires Normal(h) && h.height > IconSize
    ensures ReviveHeader(Saved(h, polygons, objects)) == h
  {
    assert Floor(h.height as real) == h.height;
  }

  /**
   * A level exactly `iconSize` high, which `prepare` can produce, comes
   * back `maxHeight` high: `revive` treats a height of `iconSize` as invalid.
   */
  lemma ReviveIconSizeHeight(h: Header, polygons: seq<Polygon>, objects: seq<ObjectData>)
    requires Normal(h) && h.height == IconSize
    ensures ReviveHeader(Saved(h, polygons, objects)).height == MaxHeight
  {
  }

  /** Reviving a revived header changes it no further, except for the height `iconSize` noted above. */
  lemma ReviveHeaderIdempotent(d: LevelData, polygons: seq<Polygon>, objects: seq<ObjectData>)
    requires ReviveHeader(d).height > IconSize
    ensures ReviveHeader(Saved(ReviveHeader(d), polygons, objects)) == ReviveHeader(d)
  {
    ReviveSaved(ReviveHeader(d), polygons, objects);
  }

  // ---------------------------------------------------------------------
  // The limits on polygons and objects
  // ---------------------------------------------------------------------

  /** The number of points of polygons i .. |polys| - 1. */
  function PointsFrom(polys: seq<Polygon>, i: nat): (n: nat)
    decreases |polys| - i
  {
    if i >= |polys| then 0 else |polys[i]| + PointsFrom(polys, i + 1)
  }

  /** The number of points of all the polygons. */
  function TotalPoints(polys: seq<Polygon>): nat {
    PointsFrom(polys, 0)
  }

  /** Counting from an earlier polygon counts at least as many points. */
  lemma {:induction false} PointsFromMonotone(polys: seq<Polygon>, i: nat, j: nat)
    requires i <= j
    ensures PointsFrom(polys, i) >= PointsFrom(polys, j)
    decreases j - i
  {
    if i < j {
      PointsFromMonotone(polys, i + 1, j);
    }
  }

  /**
   * The check of the polygons (lines 126-138, and 188-196 in `prepare`):
   * at most `MaxPolygonCount` polygons and `MaxPointCount` points in all.
   * The count runs from the last polygon back and stops as soon as it is
   * over the limit.
   */
  method WithinPointLimits(polys: seq<Polygon>) returns (ok: bool)
    ensures ok <==> |polys| <= MaxPolygonCount && TotalPoints(polys) <= MaxPointCount
  {
    if |polys| > MaxPolygonCount {
      return false;
    }
    var total := 0;
    var i := |polys| - 1;
    while i >= 0
      invariant -1 <= i < |polys| && total == PointsFrom(polys, i + 1) <= MaxPointCount
    {
      total := total + |polys[i]|;
      if total > MaxPointCount {
        PointsFromMonotone(polys, 0, i);
        return false;
      }
      i := i - 1;
    }
    return true;
  }

  /** What reviving objects i, i - 1, .. 0 leads to, with `balls` balls among the later ones. */
  datatype Scan = Accepted | TooManyBalls | InvalidType

  /** The objects loop of lines 144-152, from object i back to the first. */
  function ScanObjects(objs: seq<ObjectData>, i: int, balls: nat): Scan
    requires i < |objs|
    decreases i + 1
  {
    if i < 0 then Accepted
    else if !IsType(objs[i].kind) then InvalidType
    else if TypeOf(objs[i].kind) == TypeBall && balls + 1 > MaxBallCount then TooManyBalls
    else ScanObjects(objs, i - 1, if TypeOf(objs[i].kind) == TypeBall then balls + 1 else balls)
  }

  /** The number of balls among objects 0 .. i, every one of which has a valid type. */
  function Balls(objs: seq<ObjectData>, i: int): nat
    requires i < |objs| && forall k :: 0 <= k <= i ==> IsType(objs[k].kind)
    decreases i + 1
  {
    if i < 0 then 0 else Balls(objs, i - 1) + (if TypeOf(objs[i].kind) == TypeBall then 1 else 0)
  }

  /** With valid types only, the scan accepts exactly when the balls stay within the limit. */
  lemma {:induction false} ScanCountsBalls(objs: seq<ObjectData>, i: int, balls: nat)
    requires i < |objs| && forall k :: 0 <= k <= i ==> IsType(objs[k].kind)
    requires balls <= MaxBallCount
    ensures ScanObjects(objs, i, balls) != InvalidType
    ensures ScanObjects(objs, i, balls) == Accepted <==> balls + Balls(objs, i) <= MaxBallCount
    decreases i + 1
  {
    if i >= 0 {
      var b := if TypeOf(objs[i].kind) == TypeBall then balls + 1 else balls;
      if b <= MaxBallCount {
        ScanCountsBalls(objs, i - 1, b);
      }
    }
  }

  /** A scan that meets an invalid type reports it unless too many balls come first. */
  lemma {:induction false} ScanFindsInvalid(objs: seq<ObjectData>, i: int, balls: nat, k: int)
    requires i < |objs| && 0 <= k <= i && !IsType(objs[k].kind)
    requires forall m :: k < m <= i ==> IsType(objs[m].kind) && TypeOf(objs[m].kind) != TypeBall
    ensures ScanObjects(objs, i, balls) == InvalidType
    decreases i + 1
  {
    if k < i {
      ScanFindsInvalid(objs, i - 1, balls, k);
    }
  }

  /** What reviving the objects gives: the objects, a rejection for too many balls, or the constructor's error. */
  datatype ObjectsRevival = RevivedObjects(objects: seq<LevelObject>) | BallLimit | Invalid(message: string)

  /** Object `o` is the one the saved properties `data` build, whose type is valid. */
  predicate Built(o: LevelObject, data: ObjectData)
    reads o
  {
    IsType(data.kind) && o.kind == TypeOf(data.kind) && o.Valid()
    && o.x == ClampX(Coordinate(data.x)) && o.y == ClampY(Coordinate(data.y))
  }

  /**
   * The objects loop of lines 144-152: from the last object back, each is
   * rebuilt by `LevelObject.revive`, which throws on an invalid type, and a
   * ball beyond the 40th rejects the level.
   */
  method ReviveObjects(objs: seq<ObjectData>) returns (r: ObjectsRevival)
    ensures r.RevivedObjects? <==> ScanObjects(objs, |objs| - 1, 0) == Accepted
    ensures r.BallLimit? <==> ScanObjects(objs, |objs| - 1, 0) == TooManyBalls
    ensures r.Invalid? <==> ScanObjects(objs, |objs| - 1, 0) == InvalidType
    ensures r.Invalid? ==> r.message == InvalidTypeMessage
    ensures r.RevivedObjects? ==> |r.objects| == |objs|
    ensures r.RevivedObjects? ==> forall k :: 0 <= k < |objs| ==> fresh(r.objects[k]) && Built(r.objects[k], objs[k])
  {
    var revived: seq<LevelObject> := [];
    var balls := 0;
    var i := |objs| - 1;
    while i >= 0
      invariant -1 <= i < |objs| && balls <= MaxBallCount && |revived| == |objs| - 1 - i
      invariant ScanObjects(objs, i, balls) == ScanObjects(objs, |objs| - 1, 0)
      invariant forall k :: 0 <= k < |revived| ==> fresh(revived[k]) && Built(revived[k], objs[i + 1 + k])
    {
      var o := LevelObjects.Revive(objs[i]);
      if o.Failure? {
        return Invalid(o.message);
      }
      if o.value.kind == TypeBall {
        balls := balls + 1;
        if balls > MaxBallCount {
          return BallLimit;
        }
      }
      revived := [o.value] + revived;
      i := i - 1;
    }
    return RevivedObjects(revived);
  }

  /** A level's summary (lines 27-34 and 83-92). */
  datatype LevelInfo = LevelInfo(name: string, createdAt: Number, modifiedAt: Number, width: int, height: int, thumbnailImage: string)

  /** Everything a level stores (lines 36-41 and 68-81). */
  datatype LevelFullInfo = LevelFullInfo(header: Header, polygons: seq<Polygon>, objects: seq<LevelObject>)

  /** The summary part of a header. */
  function Summary(h: Header): (r: LevelInfo)
    ensures r.name == h.name && r.createdAt == h.createdAt && r.modifiedAt == h.modifiedAt
    ensures r.width == h.width && r.height == h.height && r.thumbnailImage == h.thumbnailImage
  {
    LevelInfo(h.name, h.createdAt, h.modifiedAt, h.width, h.height, h.thumbnailImage)
  }

  /** The stored level `revive` is given, the defaults when it is given nothing (lines 95-99). */
  function Given(data: Option<LevelData>): LevelData {
    if data.Some? then data.value else DefaultData
  }

  /** The polygons pass the limits of lines 126-138, or there are none. */
  predicate PolygonsAccepted(d: LevelData) {
    d.polygons.None? || (|d.polygons.value| <= MaxPolygonCount && TotalPoints(d.polygons.value) <= MaxPointCount)
  }

  /** What the object checks of lines 139-153 lead to: too many objects counts as too many balls, both give null. */
  function ObjectsScan(d: LevelData): Scan {
    if d.objects.None? then Accepted
    else if |d.objects.value| > MaxObjectCount then TooManyBalls
    else ScanObjects(d.objects.value, |d.objects.value| - 1, 0)
  }

  // ---------------------------------------------------------------------
  // The height `prepare` gives a level
  // ---------------------------------------------------------------------

  /**
   * The height from the lowest opaque row `maxY` that image processing
   * reports (lines 179-186): one more than that row, at least `iconSize`
   * and at most `maxHeight`.
   */
  function ProcessedHeight(maxY: int): (h: int)
    ensures IconSize <= h <= MaxHeight
    ensures maxY < IconSize ==> h == IconSize
    ensures IconSize <= maxY < MaxHeight ==> h == maxY + 1
    ensures maxY >= MaxHeight ==> h == MaxHeight
  {
    if maxY < IconSize then IconSize else if maxY + 1 > MaxHeight then MaxHeight else maxY + 1
  }

  /** The height of the canvas the image is drawn on (line 174). */
  function CanvasHeight(imageHeight: int): int {
    if MaxHeight <= imageHeight then MaxHeight else imageHeight
  }

  /** Where each object's bottom edge lies, from the last object back: the raise of lines 200-204. */
  function Raised(h: int, ys: seq<int>): (r: int)
    ensures r >= h
    ensures forall k :: 0 <= k < |ys| ==> ys[k] + IconRadius <= r
    ensures r == h || exists k :: 0 <= k < |ys| && r == ys[k] + IconRadius
    decreases |ys|
  {
    if |ys| == 0 then h
    else
      var last := ys[|ys| - 1];
      var r := Raised(if h < last + IconRadius then last + IconRadius else h, ys[..|ys| - 1]);
      assert forall k :: 0 <= k < |ys| - 1 ==> ys[..|ys| - 1][k] == ys[k];
      r
  }

  /**
   * The height `prepare` settles on for objects at heights `ys` (lines
   * 178-207): the processed height raised to the lowest object's bottom edge,
   * capped at `maxHeight`. It is the least such height: every bottom edge
   * inside the level is inside this height.
   */
  function PreparedHeight(maxY: int, ys: seq<int>): (r: int)
    ensures IconSize <= r <= MaxHeight
    ensures r >= ProcessedHeight(maxY)
    ensures forall k :: 0 <= k < |ys| && ys[k] + IconRadius <= MaxHeight ==> ys[k] + IconRadius <= r
    ensures r == ProcessedHeight(maxY) || r == MaxHeight || exists k :: 0 <= k < |ys| && r == ys[k] + IconRadius
  {
    var raised := Raised(ProcessedHeight(maxY), ys);
    if raised > MaxHeight then MaxHeight else raised
  }

  /** The objects' vertical positions. */
  function Ys(objs: seq<LevelObject>): (r: seq<int>)
    reads objs
    ensures |r| == |objs| && forall k :: 0 <= k < |objs| ==> r[k] == objs[k].y
  {
    seq(|objs|, k requires 0 <= k < |objs| reads objs => objs[k].y)
  }

  /** Valid objects lie entirely inside the height `prepare` gives the level. */
  lemma ValidObjectsInside(maxY: int, objs: seq<LevelObject>)
    requires forall k :: 0 <= k < |objs| ==> objs[k].Valid()
    ensures forall k :: 0 <= k < |objs| ==> objs[k].y + IconRadius <= PreparedHeight(maxY, Ys(objs))
  {
    var ys := Ys(objs);
    forall k | 0 <= k < |objs| ensures objs[k].y + IconRadius <= PreparedHeight(maxY, ys) {
      assert ys[k] == objs[k].y;
    }
  }

  /** What `prepare` throws after processing, if anything (lines 188-196). */
  function PrepareOutcome(polys: seq<Polygon>): (r: Outcome)
    ensures r == Pass <==> |polys| <= MaxPolygonCount && TotalPoints(polys) <= MaxPointCount
    ensures |polys| > MaxPolygonCount ==> r == Fail(MaxPolygonCountMessage)
    ensures |polys| <= MaxPolygonCount && TotalPoints(polys) > MaxPointCount ==> r == Fail(MaxPointCountMessage)
  {
    if |polys| > MaxPolygonCount then Fail(MaxPolygonCountMessage)
    else if TotalPoints(polys) > MaxPointCount then Fail(MaxPointCountMessage)
    else Pass
  }

  /** The point count of lines 191-193, which goes through every polygon. */
  method CountPoints(polys: seq<Polygon>) returns (total: nat)
    ensures total == TotalPoints(polys)
  {
    total := 0;
    var i := |polys| - 1;
    while i >= 0
      invariant -1 <= i < |polys| && total == PointsFrom(polys, i + 1)
    {
      total := total + |polys[i]|;
      i := i - 1;
    }
  }

  /** The limits `prepare` checks (lines 188-196), with the messages it throws. */
  method CheckLimits(polys: seq<Polygon>) returns (r: Outcome)
    ensures r == PrepareOutcome(polys)
  {
    if |polys| > MaxPolygonCount {
      return Fail(MaxPolygonCountMessage);
    }
    var totalPointCount := CountPoints(polys);
    if totalPointCount > MaxPointCount {
      return Fail(MaxPointCountMessage);
    }
    return Pass;
  }

  /** The raise of lines 200-204 as a loop, from the last object back. */
  method RaiseToObjects(h0: int, objs: seq<LevelObject>) returns (h: int)
    ensures h == Raised(h0, Ys(objs))
  {
    ghost var ys := Ys(objs);
    h := h0;
    var i := |objs| - 1;
    while i >= 0
      invariant -1 <= i < |objs|
      invariant Raised(h, ys[..i + 1]) == Raised(h0, ys)
    {
      var bottom := objs[i].y + IconRadius;
      assert ys[..i + 1][..i] == ys[..i];
      if h < bottom {
        h := bottom;
      }
      i := i - 1;
    }
  }

  // ---------------------------------------------------------------------
  // The walls and objects `createLevelPtr` hands to the physics engine
  // ---------------------------------------------------------------------

  /** A wall segment, from (x0, y0) to (x1, y1): one entry of the four wall arrays (lines 263-266). */
  datatype Wall = Wall(x0: int, y0: int, x1: int, y1: int)

  /** The wall from point `a` to point `b`. */
  function Edge(a: ImageGrid.Point, b: ImageGrid.Point): (r: Wall)
    ensures r.x0 == a.x && r.y0 == a.y && r.x1 == b.x && r.y1 == b.y
  {
    Wall(a.x, a.y, b.x, b.y)
  }

  /** The four invisible walls one pixel outside the level (lines 272-288). */
  function BorderWalls(width: int, height: int): (r: seq<Wall>)
    ensures |r| == 4
  {
    [Wall(-1, -1, width, -1), Wall(width, -1, width, height), Wall(width, height, -1, height), Wall(-1, height, -1, -1)]
  }

  /** Each wall starts where the one before it ends. */
  predicate Connected(walls: seq<Wall>) {
    forall k :: 0 < k < |walls| ==> walls[k].x0 == walls[k - 1].x1 && walls[k].y0 == walls[k - 1].y1
  }

  /** The walls form a closed loop: connected, and the last one ends where the first starts. */
  predicate ClosedLoop(walls: seq<Wall>) {
    Connected(walls) && |walls| > 0 && walls[0].x0 == walls[|walls| - 1].x1 && walls[0].y0 == walls[|walls| - 1].y1
  }

  /** The border encloses the level: a closed loop around (-1, -1) .. (width, height). */
  lemma BorderClosed(width: int, height: int)
    ensures ClosedLoop(BorderWalls(width, height))
    ensures forall k :: 0 <= k < 4 ==> BorderWalls(width, height)[k].x0 in {-1, width} && BorderWalls(width, height)[k].y0 in {-1, height}
  {
  }

  /** The walls between consecutive points 0 .. n of a polygon (lines 294-300). */
  function Chain(points: Polygon, n: nat): (r: seq<Wall>)
    requires n == 0 || n < |points|
    ensures |r| == n
  {
    seq(n, p requires 0 <= p < n => Edge(points[p], points[p + 1]))
  }

  /** One more step of the chain adds the wall from point n to point n + 1. */
  lemma ChainStep(points: Polygon, n: nat)
    requires n + 1 < |points|
    ensures Chain(points, n + 1) == Chain(points, n) + [Edge(points[n], points[n + 1])]
  {
  }

  /** The index of a polygon's last point, or 0 when it has none (`lastPoint` of line 292, as a loop bound). */
  function LastPoint(points: Polygon): nat {
    if |points| == 0 then 0 else |points| - 1
  }

  /**
   * The walls of one polygon (lines 291-308): one between each pair of
   * consecutive points, and one closing the polygon when it has more
   * than two points. A polygon of one point or none has no wall.
   */
  function PolygonWalls(points: Polygon): (r: seq<Wall>)
    ensures |r| == if |points| == 1 then 0 else Cost(points)
  {
    if |points| <= 1 then []
    else if |points| == 2 then [Edge(points[0], points[1])]
    else seq(|points|, k requires 0 <= k < |points| => Edge(points[k], points[Following(|points|, k)]))
  }

  /** The point after point k of a polygon of n points, the first after the last. */
  function Following(n: int, k: int): (j: int)
    requires 0 <= k < n
    ensures 0 <= j < n
  {
    if k + 1 < n then k + 1 else 0
  }

  /** The walls of a polygon are the chain through its points, then the closing wall when it has more than two. */
  lemma PolygonWallsChain(points: Polygon)
    ensures |points| == 2 ==> PolygonWalls(points) == Chain(points, 1)
    ensures |points| > 2 ==> PolygonWalls(points) == Chain(points, |points| - 1) + [Edge(points[|points| - 1], points[0])]
  {
    if |points| > 2 {
      var r := PolygonWalls(points);
      var c := Chain(points, |points| - 1) + [Edge(points[|points| - 1], points[0])];
      forall k | 0 <= k < |points| ensures r[k] == c[k] {
        if k < |points| - 1 {
          assert c[k] == Chain(points, |points| - 1)[k];
        }
      }
    }
  }

  /** A polygon of more than two points is a closed loop through its points, in order. */
  lemma PolygonClosed(points: Polygon)
    requires |points| > 2
    ensures |PolygonWalls(points)| == |points|
    ensures ClosedLoop(PolygonWalls(points))
    ensures forall k :: 0 <= k < |points| ==> PolygonWalls(points)[k].x0 == points[k].x && PolygonWalls(points)[k].y0 == points[k].y
  {
    var r := PolygonWalls(points);
    forall k | 0 < k < |points| ensures r[k].x0 == r[k - 1].x1 && r[k].y0 == r[k - 1].y1 {
      assert Following(|points|, k - 1) == k;
    }
  }

  /** The entries `createLevelPtr` counts for one polygon (line 246). */
  function Cost(points: Polygon): nat {
    if |points| == 2 then 1 else |points|
  }

  /** The count of polygons i .. |polys| - 1, the order of the loop of lines 244-247. */
  function CostFrom(polys: seq<Polygon>, i: nat): nat
    decreases |polys| - i
  {
    if i >= |polys| then 0 else Cost(polys[i]) + CostFrom(polys, i + 1)
  }

  /** The number of wall entries `createLevelPtr` allocates (lines 242-247). */
  function WallCount(polys: seq<Polygon>): nat {
    4 + CostFrom(polys, 0)
  }

  /** The count of polygons 0 .. n - 1, in the order the walls are written. */
  function CostUpTo(polys: seq<Polygon>, n: nat): nat
    requires n <= |polys|
  {
    if n == 0 then 0 else CostUpTo(polys, n - 1) + Cost(polys[n - 1])
  }

  /** Counting forwards up to a polygon and backwards from it gives the whole count. */
  lemma {:induction false} CostSplit(polys: seq<Polygon>, n: nat)
    requires n <= |polys|
    ensures CostUpTo(polys, n) + CostFrom(polys, n) == CostFrom(polys, 0)
  {
    if n > 0 {
      CostSplit(polys, n - 1);
    }
  }

  /** The walls of polygons 0 .. n - 1, in order (lines 290-309). */
  function PolygonsWalls(polys: seq<Polygon>, n: nat): seq<Wall>
    requires n <= |polys|
  {
    if n == 0 then [] else PolygonsWalls(polys, n - 1) + PolygonWalls(polys[n - 1])
  }

  /** The walls of a level of the given size, the border first. */
  function Walls(width: int, height: int, polys: seq<Polygon>): seq<Wall> {
    BorderWalls(width, height) + PolygonsWalls(polys, |polys|)
  }

  /** The number of walls polygons 0 .. n - 1 get. */
  function WallsUpTo(polys: seq<Polygon>, n: nat): nat
    requires n <= |polys|
  {
    if n == 0 then 0 else WallsUpTo(polys, n - 1) + (if |polys[n - 1]| == 1 then 0 else Cost(polys[n - 1]))
  }

  /** The walls of polygons 0 .. n - 1 are as many as counted. */
  lemma {:induction false} PolygonsWallsLength(polys: seq<Polygon>, n: nat)
    requires n <= |polys|
    ensures |PolygonsWalls(polys, n)| == WallsUpTo(polys, n)
  {
    if n > 0 {
      PolygonsWallsLength(polys, n - 1);
      assert |PolygonsWalls(polys, n)| == |PolygonsWalls(polys, n - 1)| + |PolygonWalls(polys[n - 1])|;
    }
  }

  /** The walls of the first n polygons fit their count. */
  lemma {:induction false} PrefixWallsFit(polys: seq<Polygon>, n: nat)
    requires n <= |polys|
    ensures WallsUpTo(polys, n) <= CostUpTo(polys, n)
  {
    if n > 0 {
      PrefixWallsFit(polys, n - 1);
    }
  }

  /** The walls of the first n polygons fill their count exactly when none of them has a single point. */
  lemma {:induction false} PrefixWallsExact(polys: seq<Polygon>, n: nat)
    requires n <= |polys|
    ensures WallsUpTo(polys, n) == CostUpTo(polys, n) <==> forall k :: 0 <= k < n ==> |polys[k]| != 1
  {
    if n > 0 {
      PrefixWallsExact(polys, n - 1);
      PrefixWallsFit(polys, n - 1);
      if WallsUpTo(polys, n) == CostUpTo(polys, n) {
        forall k | 0 <= k < n ensures |polys[k]| != 1 {
          if k < n - 1 {
            assert WallsUpTo(polys, n - 1) == CostUpTo(polys, n - 1);
          }
        }
      }
    }
  }

  /**
   * The walls always fit the entries allocated for them; they fill them
   * exactly when no polygon has a single point. A one-point polygon leaves
   * an entry at the end that the engine is given but no wall is written to.
   */
  lemma WallsFit(width: int, height: int, polys: seq<Polygon>)
    ensures |Walls(width, height, polys)| <= WallCount(polys)
    ensures |Walls(width, height, polys)| == WallCount(polys) <==> forall k :: 0 <= k < |polys| ==> |polys[k]| != 1
  {
    PolygonsWallsLength(polys, |polys|);
    PrefixWallsFit(polys, |polys|);
    PrefixWallsExact(polys, |polys|);
    CostSplit(polys, |polys|);
  }

  /** The walls up to polygon n fit the entries allocated. */
  lemma NextPolygonFits(polys: seq<Polygon>, n: nat)
    requires n < |polys|
    ensures 4 + |PolygonsWalls(polys, n)| + |PolygonWalls(polys[n])| <= WallCount(polys)
  {
    PolygonsWallsLength(polys, n + 1);
    PrefixWallsFit(polys, n + 1);
    CostSplit(polys, n + 1);
    assert |PolygonsWalls(polys, n + 1)| == |PolygonsWalls(polys, n)| + |PolygonWalls(polys[n])|;
  }

  /** The count loop of lines 242-247. */
  method CountWalls(polys: seq<Polygon>) returns (wallCount: nat)
    ensures wallCount == WallCount(polys)
  {
    wallCount := 4;
    var i := |polys| - 1;
    while i >= 0
      invariant -1 <= i < |polys| && wallCount == 4 + CostFrom(polys, i + 1)
    {
      var l := |polys[i]|;
      wallCount := wallCount + (if l == 2 then 1 else l);
      i := i - 1;
    }
  }

  /** Lines 294-308: the walls of one polygon, written from entry `w0` on. */
  method WritePolygon(walls: array<Wall>, w0: nat, points: Polygon) returns (w: nat)
    requires w0 + |PolygonWalls(points)| <= walls.Length
    modifies walls
    ensures w == w0 + |PolygonWalls(points)|
    ensures walls[..w] == old(walls[..w0]) + PolygonWalls(points)
  {
    var lastPoint := |points| - 1;
    w := WriteChain(walls, w0, points);
    if lastPoint > 1 {
      walls[w] := Edge(points[lastPoint], points[0]);
      assert walls[..w + 1] == walls[..w] + [walls[w]];
      w := w + 1;
    }
    PolygonWallsChain(points);
  }

  /** The loop of lines 294-300: the walls between consecutive points, from entry `w0` on. */
  method WriteChain(walls: array<Wall>, w0: nat, points: Polygon) returns (w: nat)
    requires w0 + LastPoint(points) <= walls.Length
    modifies walls
    ensures w == w0 + LastPoint(points)
    ensures walls[..w] == old(walls[..w0]) + Chain(points, LastPoint(points))
  {
    ghost var before := walls[..w0];
    var lastPoint := |points| - 1;
    w := w0;
    var p := 0;
    while p < lastPoint
      invariant 0 <= p <= LastPoint(points) && w == w0 + p
      invariant walls[..w] == before + Chain(points, p)
    {
      walls[w] := Edge(points[p], points[p + 1]);
      ChainStep(points, p);
      assert walls[..w + 1] == walls[..w] + [walls[w]];
      w := w + 1;
      p := p + 1;
    }
  }

  /** Appending a polygon's walls to the walls before it gives the walls up to it. */
  lemma Appended(border: seq<Wall>, polys: seq<Polygon>, i: nat, before: seq<Wall>, after: seq<Wall>)
    requires i < |polys| && before == border + PolygonsWalls(polys, i) && after == before + PolygonWalls(polys[i])
    ensures after == border + PolygonsWalls(polys, i + 1)
  {
    Associative(border, PolygonsWalls(polys, i), PolygonWalls(polys[i]));
  }

  /** Concatenation is associative. */
  lemma Associative<T>(a: seq<T>, b: seq<T>, c: seq<T>)
    ensures a + b + c == a + (b + c)
  {
  }

  /** Lines 272-309: the border, then every polygon's walls. */
  method WriteWalls(walls: array<Wall>, width: int, height: int, polys: seq<Polygon>)
    requires walls.Length == WallCount(polys)
    modifies walls
    ensures |Walls(width, height, polys)| <= walls.Length
    ensures walls[..|Walls(width, height, polys)|] == Walls(width, height, polys)
  {
    WriteBorder(walls, width, height);
    WritePolygons(walls, BorderWalls(width, height), polys);
  }

  /** Lines 272-288: the four walls around the level, in entries 0 to 3. */
  method WriteBorder(walls: array<Wall>, width: int, height: int)
    requires 4 <= walls.Length
    modifies walls
    ensures walls[..4] == BorderWalls(width, height)
  {
    walls[0] := Wall(-1, -1, width, -1);
    walls[1] := Wall(width, -1, width, height);
    walls[2] := Wall(width, height, -1, height);
    walls[3] := Wall(-1, height, -1, -1);
  }

  /** The loop of lines 290-309: each polygon's walls after the border. */
  method WritePolygons(walls: array<Wall>, ghost border: seq<Wall>, polys: seq<Polygon>)
    requires walls.Length == WallCount(polys) && |border| == 4 && walls[..4] == border
    modifies walls
    ensures 4 + |PolygonsWalls(polys, |polys|)| <= walls.Length
    ensures walls[..4 + |PolygonsWalls(polys, |polys|)|] == border + PolygonsWalls(polys, |polys|)
  {
    var i := 0;
    var w := 4;
    while i < |polys|
      invariant 0 <= i <= |polys| && 4 <= w <= walls.Length
      invariant walls[..w] == border + PolygonsWalls(polys, i)
    {
      NextPolygonFits(polys, i);
      ghost var before := walls[..w];
      w := WritePolygon(walls, w, polys[i]);
      Appended(border, polys, i, before, walls[..w]);
      i := i + 1;
    }
  }

  /** One object as the engine receives it (lines 311-317). */
  datatype ObjectRecord = ObjectRecord(kind: int, x: int, y: int, radius: int)

  /** The record of an object. */
  function RecordOf(o: LevelObject): (r: ObjectRecord)
    reads o
    ensures r.kind == o.kind && r.x == o.x && r.y == o.y && r.radius == o.radius
  {
    ObjectRecord(o.kind, o.x, o.y, o.radius)
  }

  /** The object loop of lines 311-317. */
  method WriteObjects(records: array<ObjectRecord>, objs: seq<LevelObject>)
    requires records.Length == |objs|
    modifies records
    ensures forall k :: 0 <= k < |objs| ==> records[k] == RecordOf(objs[k])
  {
    var i := 0;
    while i < |objs|
      invariant 0 <= i <= |objs|
      invariant forall k :: 0 <= k < i ==> records[k] == RecordOf(objs[k])
    {
      records[i] := ObjectRecord(objs[i].kind, objs[i].x, objs[i].y, objs[i].radius);
      i := i + 1;
    }
  }

  /** What `revive` returns: a level, null, or the error an object's constructor throws. */
  datatype Revival = Revived(level: Level) | Null | Thrown(message: string)

  class Level {
    var name: string
    var createdAt: Number
    var modifiedAt: Number
    var width: int
    var height: int
    var thumbnailImage: string
    var image: string
    var processedImage: string
    var polygons: seq<Polygon>
    var objects: seq<LevelObject>
    /** The handle of the level in the physics engine, 0 when there is none. */
    var levelPtr: int

    /** The level's scalar properties. */
    function Head(): Header
      reads this`name, this`createdAt, this`modifiedAt, this`width, this`height, this`thumbnailImage, this`image, this`processedImage
    {
      Header(name, createdAt, modifiedAt, width, height, thumbnailImage, image, processedImage)
    }

    /** A new level (lines 51-62): no name, no images, no walls or objects, the base width and the largest height. */
    constructor()
      ensures Head() == Header("", Finite(0.0), Finite(0.0), BaseWidth, MaxHeight, "", "", "")
      ensures polygons == [] && objects == [] && levelPtr == 0
    {
      name, createdAt, modifiedAt, width, height := "", Finite(0.0), Finite(0.0), BaseWidth, MaxHeight;
      thumbnailImage, image, processedImage := "", "", "";
      polygons, objects, levelPtr := [], [], 0;
    }

    /** A level with the given properties, walls and objects and no physics handle. */
    constructor FromHeader(h: Header, polys: seq<Polygon>, objs: seq<LevelObject>)
      ensures Head() == h && polygons == polys && objects == objs && levelPtr == 0
    {
      name, createdAt, modifiedAt, width, height := h.name, h.createdAt, h.modifiedAt, h.width, h.height;
      thumbnailImage, image, processedImage := h.thumbnailImage, h.image, h.processedImage;
      polygons, objects, levelPtr := polys, objs, 0;
    }

    /** `toLevelFullInfo` and `toJSON` (lines 64-81). */
    function ToLevelFullInfo(): (r: LevelFullInfo)
      reads this
      ensures r.header == Head() && r.polygons == polygons && r.objects == objects
    {
      LevelFullInfo(Head(), polygons, objects)
    }

    /** `toLevelInfo` (lines 83-92). */
    function ToLevelInfo(): (r: LevelInfo)
      reads this`name, this`createdAt, this`modifiedAt, this`width, this`height, this`thumbnailImage, this`image, this`processedImage
      ensures r == Summary(Head())
    {
      LevelInfo(name, createdAt, modifiedAt, width, height, thumbnailImage)
    }

    /** The summary is the summary of everything the level stores. */
    lemma InfoOfFullInfo()
      ensures ToLevelInfo() == Summary(ToLevelFullInfo().header)
    {
    }

    /** `prepare` does its work: there is an image, and a processed image or a thumbnail is missing (line 158). */
    predicate NeedsPreparing()
      reads this`image, this`processedImage, this`thumbnailImage
    {
      image != "" && (processedImage == "" || thumbnailImage == "")
    }

    /**
     * `prepare` (lines 157-228) once the image is loaded and processed: the
     * browser's work comes in as the thumbnail's data URL, the polygons and
     * lowest opaque row processing found, the image's height and the data
     * URLs of the resized and processed images. The thumbnail, width,
     * polygons and processed height are set before the limits are checked,
     * so a level that throws keeps them.
     */
    method Prepare(thumbnailUrl: string, processed: seq<Polygon>, maxY: int, imageHeight: int,
                   resizedImageUrl: string, processedUrl: string) returns (r: Outcome)
      modifies this`thumbnailImage, this`width, this`polygons, this`height, this`image, this`processedImage
      ensures !old(NeedsPreparing()) ==> r == Pass && thumbnailImage == old(thumbnailImage) && width == old(width)
      ensures !old(NeedsPreparing()) ==> polygons == old(polygons) && height == old(height)
      ensures !old(NeedsPreparing()) ==> image == old(image) && processedImage == old(processedImage)
      ensures old(NeedsPreparing()) ==> r == PrepareOutcome(processed)
      ensures old(NeedsPreparing()) ==> thumbnailImage == thumbnailUrl && width == BaseWidth && polygons == processed
      ensures old(NeedsPreparing()) && r.Fail? ==> height == ProcessedHeight(maxY)
      ensures old(NeedsPreparing()) && r.Fail? ==> image == old(image) && processedImage == old(processedImage)
      ensures old(NeedsPreparing()) && r.Pass? ==> height == PreparedHeight(maxY, Ys(objects)) && processedImage == processedUrl
      ensures old(NeedsPreparing()) && r.Pass? ==> image == if ProcessedHeight(maxY) != CanvasHeight(imageHeight) then resizedImageUrl else old(image)
    {
      if !(image != "" && (processedImage == "" || thumbnailImage == "")) {
        return Pass;
      }
      SetProcessed(thumbnailUrl, processed, maxY);
      r := CheckLimits(polygons);
      if r.Fail? {
        return;
      }
      Resize(maxY, imageHeight, resizedImageUrl, processedUrl);
    }

    /** The thumbnail, width, polygons and height of lines 171-186. */
    method SetProcessed(thumbnailUrl: string, processed: seq<Polygon>, maxY: int)
      modifies this`thumbnailImage, this`width, this`polygons, this`height
      ensures thumbnailImage == thumbnailUrl && width == BaseWidth && polygons == processed
      ensures height == ProcessedHeight(maxY)
    {
      thumbnailImage := thumbnailUrl;
      width := BaseWidth;
      polygons, height := processed, maxY;
      if height < IconSize {
        height := IconSize;
      } else {
        height := height + 1;
        if height > MaxHeight {
          height := MaxHeight;
        }
      }
    }

    /** The height raised to the objects and capped, and the images kept, of lines 198-227. */
    method Resize(maxY: int, imageHeight: int, resizedImageUrl: string, processedUrl: string)
      requires height == ProcessedHeight(maxY)
      modifies this`height, this`image, this`processedImage
      ensures height == PreparedHeight(maxY, Ys(objects)) && processedImage == processedUrl
      ensures image == if ProcessedHeight(maxY) != CanvasHeight(imageHeight) then resizedImageUrl else old(image)
    {
      var resizedHeight := height;
      height := RaiseToObjects(height, objects);
      if height > MaxHeight {
        height := MaxHeight;
      }
      if resizedHeight != CanvasHeight(imageHeight) {
        image := resizedImageUrl;
      }
      processedImage := processedUrl;
    }

    /**
     * `createLevelPtr` (lines 236-323): the walls and object records laid
     * out for the engine, and the handle `initPtr` that the engine's
     * `_init` returns for them. The arrays stand for the stack memory `_init`
     * reads.
     */
    method CreateLevelPtr(initPtr: int) returns (walls: array<Wall>, records: array<ObjectRecord>)
      modifies this`levelPtr
      ensures levelPtr == initPtr
      ensures fresh(walls) && walls.Length == WallCount(polygons)
      ensures |Walls(width, height, polygons)| <= walls.Length && walls[..|Walls(width, height, polygons)|] == Walls(width, height, polygons)
      ensures fresh(records) && records.Length == |objects|
      ensures forall k :: 0 <= k < |objects| ==> records[k] == RecordOf(objects[k])
    {
      DestroyLevelPtr();
      var wallCount := CountWalls(polygons);
      walls := new Wall[wallCount];
      WriteWalls(walls, width, height, polygons);
      records := new ObjectRecord[|objects|];
      WriteObjects(records, objects);
      levelPtr := initPtr;
    }

    /** `clearImage` (lines 332-338). */
    method ClearImage()
      modifies this`width, this`height, this`image, this`processedImage, this`thumbnailImage
      ensures width == BaseWidth && height == MaxHeight && image == "" && processedImage == "" && thumbnailImage == ""
    {
      width := BaseWidth;
      height := MaxHeight;
      image := "";
      processedImage := "";
      thumbnailImage := "";
    }

    /** `clearObjects` (lines 340-343). */
    method ClearObjects()
      modifies this`polygons, this`objects
      ensures polygons == [] && objects == []
    {
      polygons := [];
      objects := [];
    }

    /** `destroyLevelPtr` (lines 325-330); the engine's `_destroy` call is not modelled. */
    method DestroyLevelPtr()
      modifies this`levelPtr
      ensures levelPtr == 0
    {
      if levelPtr != 0 {
        levelPtr := 0;
      }
    }
  }

  /**
   * `revive` (lines 94-155) on the object parsed from storage, or on nothing
   * (`None`). A given object's properties are normalised; too many polygons,
   * points, objects or balls give null; an object of invalid type makes the
   * object constructor throw. The normalisation cannot fail, so it is done
   * here after the checks, where the source does it before them.
   */
  method Revive(data: Option<LevelData>) returns (r: Revival)
    ensures r.Revived? <==> PolygonsAccepted(Given(data)) && ObjectsScan(Given(data)) == Accepted
    ensures r.Thrown? <==> PolygonsAccepted(Given(data)) && ObjectsScan(Given(data)) == InvalidType
    ensures r.Thrown? ==> r.message == InvalidTypeMessage
    ensures r.Revived? ==> fresh(r.level) && r.level.Head() == ReviveHeader(Given(data)) && r.level.levelPtr == 0
    ensures r.Revived? ==> r.level.polygons == (if Given(data).polygons.Some? then Given(data).polygons.value else [])
    ensures r.Revived? ==> |r.level.objects| == (if Given(data).objects.Some? then |Given(data).objects.value| else 0)
    ensures r.Revived? && Given(data).objects.Some? ==>
      forall k :: 0 <= k < |Given(data).objects.value| ==> fresh(r.level.objects[k]) && Built(r.level.objects[k], Given(data).objects.value[k])
  {
    var d := Given(data);
    var polys: seq<Polygon> := [];
    if d.polygons.Some? {
      var ok := WithinPointLimits(d.polygons.value);
      if !ok {
        return Null;
      }
      polys := d.polygons.value;
    }
    var objs: seq<LevelObject> := [];
    if d.objects.Some? {
      if |d.objects.value| > MaxObjectCount {
        return Null;
      }
      var revived := ReviveObjects(d.objects.value);
      match revived
      case Invalid(message) =>
        return Thrown(message);
      case BallLimit =>
        return Null;
      case RevivedObjects(os) =>
        objs := os;
    }
    var level := new Level.FromHeader(ReviveHeader(d), polys, objs);
    return Revived(level);
  }
}
