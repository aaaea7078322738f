/**
 * `LevelSpriteSheet` (scripts/level/levelSpriteSheet.ts): it hands out the
 * descriptors of the C struct `LevelSpriteSheet` (lib/gl.c) as
 * coordinate objects, fills the fixed texel rectangles once, and rewrites the
 * model rectangles that depend on the scale factor when it changes.
 *
 * The heap is `HEAPF32`; a descriptor is four floats at byte address
 * `Field(ptr, k)`.
 */
module LevelSprites {
  import opened SheetLayout
  import opened JsNumbers
  import opened Constants
  import Gl
  import ModelCoords
  import TextureCoords

  const TextureWidth: nat := 128
  const TextureHeight: nat := 128
  /** `LevelSpriteSheet.CursorCenterSize` and `CursorTargetSize` */
  const CursorSize: nat := 25
  const BackgroundScale: real := 0.5
  /** `(baseWidth << 1) >> BackgroundScaleRightShift` */
  const BackgroundWidth: nat := 420
  /** `Math.ceil(Math.sqrt(2) * (baseWidth >> BackgroundScaleRightShift))`, see `BackgroundHeightIsCeiling`. */
  const BackgroundHeight: nat := 297

  /** 296 < sqrt(2) * 210 <= 297: the ceiling that `BackgroundHeight` holds. */
  lemma BackgroundHeightIsCeiling()
    ensures (BackgroundHeight - 1) * (BackgroundHeight - 1) < 2 * (BaseWidth / 2) * (BaseWidth / 2) <= BackgroundHeight * BackgroundHeight
  {
  }

  /** A coordinate object of the sheet: a `ModelCoordinates` or a `TextureCoordinates` over the descriptor at `ptr`. */
  datatype Coordinates = ModelDescriptor(ptr: nat) | TextureDescriptor(ptr: nat)

  /** Descriptor k of a sheet at `base`, of the kind its field has in the C struct. */
  function Descriptor(base: nat, k: nat): Coordinates {
    if IsModel(k) then ModelDescriptor(Field(base, k)) else TextureDescriptor(Field(base, k))
  }

  /** The first n descriptors of a sheet at `base`, in struct order. */
  function Layout(base: nat, n: nat): (r: seq<Coordinates>)
    ensures |r| == n
  {
    seq(n, k requires 0 <= k < n => Descriptor(base, k))
  }

  lemma LayoutSnoc(base: nat, n: nat)
    ensures Layout(base, n) + [Descriptor(base, n)] == Layout(base, n + 1)
  {
    assert forall k :: 0 <= k < n + 1 ==> (Layout(base, n) + [Descriptor(base, n)])[k] == Layout(base, n + 1)[k];
  }

  /** The number of coordinate objects `allocateCoordinates` creates: all fields but `clearBackgroundTextureCoordinates`. */
  const AllocatedCount: nat := ClearBackgroundTexture

  /** One `setCoordinates` call on descriptor k: the pivot and size of a model rectangle, or a texel rectangle. */
  datatype Setting =
    | Model(k: nat, pivotX: real, pivotY: real, width: real, height: real)
    | Texture(k: nat, left: nat, top: nat, texelWidth: nat, texelHeight: nat)

  /** A call the descriptor's class accepts, whose texel shifts do not wrap. */
  predicate WellFormed(st: Setting) {
    && st.k < AllocatedCount
    && (st.Model? <==> IsModel(st.k))
    && (st.Texture? ==> TextureCoords.NoWrap(st.left + st.texelWidth, st.top + st.texelHeight))
  }

  /** The four floats a call stores: left, top, right, bottom, or the packed corners. */
  function Floats(st: Setting): (v: seq<real>)
    requires WellFormed(st)
    ensures |v| == 4
  {
    match st
    case Model(_, px, py, w, h) => [-px, -py, w - px, h - py]
    case Texture(_, l, t, w, h) => TextureCoords.PackedCorners(l, t, w, h)
  }

  /** The whole sheet lies in a heap of n floats, at a float-aligned address. */
  predicate SheetFits(n: nat, base: nat) {
    base % 4 == 0 && base / 4 + 4 * DescriptorCount <= n
  }

  /** h with the four floats from index i replaced by v. */
  function Put(h: seq<real>, i: nat, v: seq<real>): (r: seq<real>)
    requires |v| == 4 && i + 4 <= |h|
    ensures |r| == |h| && r[i] == v[0] && r[i + 1] == v[1] && r[i + 2] == v[2] && r[i + 3] == v[3]
    ensures forall j :: 0 <= j < |h| && !(i <= j < i + 4) ==> r[j] == h[j]
  {
    h[..i] + v + h[i + 4..]
  }

  /** The four floats of descriptor k. */
  function DescriptorFloats(h: seq<real>, base: nat, k: nat): seq<real>
    requires SheetFits(|h|, base) && k < DescriptorCount
  {
    var i := base / 4 + 4 * k;
    [h[i], h[i + 1], h[i + 2], h[i + 3]]
  }

  /** The heap after the calls `sts`, in order. */
  function Applied(h: seq<real>, base: nat, sts: seq<Setting>): (r: seq<real>)
    requires SheetFits(|h|, base) && forall i :: 0 <= i < |sts| ==> WellFormed(sts[i])
    ensures |r| == |h|
  {
    if sts == [] then h
    else
      var last := sts[|sts| - 1];
      Put(Applied(h, base, sts[..|sts| - 1]), base / 4 + 4 * last.k, Floats(last))
  }

  /** A descriptor that no call in `sts` names keeps its floats. */
  lemma {:induction false} AppliedKeeps(h: seq<real>, base: nat, sts: seq<Setting>, k: nat)
    requires SheetFits(|h|, base) && forall i :: 0 <= i < |sts| ==> WellFormed(sts[i])
    requires k < DescriptorCount && forall i :: 0 <= i < |sts| ==> sts[i].k != k
    ensures DescriptorFloats(Applied(h, base, sts), base, k) == DescriptorFloats(h, base, k)
  {
    if sts != [] {
      var prefix := sts[..|sts| - 1];
      AppliedKeeps(h, base, prefix, k);
      var last := sts[|sts| - 1];
      assert last.k != k;
    }
  }

  /** The calls after the last one that names k leave k with that call's floats. */
  lemma {:induction false} AppliedLast(h: seq<real>, base: nat, sts: seq<Setting>, j: nat)
    requires SheetFits(|h|, base) && forall i :: 0 <= i < |sts| ==> WellFormed(sts[i])
    requires j < |sts| && forall i :: j < i < |sts| ==> sts[i].k != sts[j].k
    ensures DescriptorFloats(Applied(h, base, sts), base, sts[j].k) == Floats(sts[j])
  {
    if j == |sts| - 1 {
      FieldsAreConsecutive(base, sts[j].k);
    } else {
      var prefix := sts[..|sts| - 1];
      AppliedLast(h, base, prefix, j);
      assert sts[|sts| - 1].k != sts[j].k;
      assert prefix[j] == sts[j];
    }
  }

  /** Calling `setCoordinates` again with the floats a descriptor already holds changes nothing. */
  lemma PutSame(h: seq<real>, i: nat, v: seq<real>)
    requires |v| == 4 && i + 4 <= |h| && [h[i], h[i + 1], h[i + 2], h[i + 3]] == v
    ensures Put(h, i, v) == h
  {
    assert forall j :: 0 <= j < |h| ==> Put(h, i, v)[j] == h[j];
  }

  /*
   * The calls of setupFixedCoordinates and recreateIfNecessary, in source order.
   */

  /** A background strip: centred horizontally, lifted by a multiple of 2% of the (scaled) width. */
  function BackgroundStrip(i: nat, lift: real): Setting {
    Model(BackgroundModel + i, (BackgroundWidth / 2) as real, -0.02 * lift * BackgroundScale * BaseWidth as real,
      BackgroundWidth as real, BackgroundHeight as real)
  }

  /** `setupFixedCoordinates` (scripts/level/levelSpriteSheet.ts:139-203). */
  function FixedSettings(): seq<Setting> {
    [Texture(FullTexture, 0, 0, TextureWidth, TextureHeight)]
    + [BackgroundStrip(0, 20.0), BackgroundStrip(1, 19.0), BackgroundStrip(2, 18.0), BackgroundStrip(3, 17.0),
       BackgroundStrip(4, 16.0), BackgroundStrip(5, 15.0), BackgroundStrip(6, 14.0), BackgroundStrip(7, 13.0),
       BackgroundStrip(8, 12.0), BackgroundStrip(9, 10.0), BackgroundStrip(10, 8.0), BackgroundStrip(11, 6.0),
       BackgroundStrip(12, 4.0), BackgroundStrip(13, 2.0), BackgroundStrip(14, 0.0)]
    + [Texture(BackgroundTexture, 3, 53, 2, 72), Texture(BackgroundTexture + 1, 9, 53, 2, 72),
       Texture(BackgroundTexture + 2, 15, 53, 2, 72), Texture(BackgroundTexture + 3, 21, 53, 2, 72),
       Texture(BackgroundTexture + 4, 27, 53, 2, 72), Texture(BackgroundTexture + 5, 33, 53, 2, 72),
       Texture(BackgroundTexture + 6, 39, 53, 2, 72), Texture(BackgroundTexture + 7, 45, 53, 2, 72)]
    + [Texture(LevelObjectTexture, 2, 2, IconSize, IconSize), Texture(LevelObjectTexture + 1, 18, 2, IconSize, IconSize),
       Texture(LevelObjectTexture + 2, 34, 2, IconSize, IconSize), Texture(LevelObjectTexture + 3, 50, 2, IconSize, IconSize)]
    + [Texture(ExplosionBgTexture, 36, 20, 8, 8), Texture(FadeBgTexture, 52, 20, 8, 8), Texture(FadeBgSadTexture, 52, 36, 8, 8)]
    + [Texture(FragmentTexture, 2, 17, 3, 3), Texture(FragmentTexture + 1, 7, 17, 3, 3),
       Texture(FragmentTexture + 2, 12, 17, 3, 4), Texture(FragmentTexture + 3, 2, 22, 3, 3),
       Texture(FragmentTexture + 4, 7, 22, 3, 4), Texture(FragmentTexture + 5, 12, 23, 3, 4),
       Texture(FragmentTexture + 6, 2, 27, 3, 4), Texture(FragmentTexture + 7, 7, 28, 3, 3),
       Texture(FragmentTexture + 8, 16 + 2, 17, 3, 3), Texture(FragmentTexture + 9, 16 + 7, 17, 3, 3),
       Texture(FragmentTexture + 10, 16 + 12, 17, 3, 4), Texture(FragmentTexture + 11, 16 + 2, 22, 3, 3),
       Texture(FragmentTexture + 12, 16 + 7, 22, 3, 4), Texture(FragmentTexture + 13, 16 + 12, 23, 3, 4),
       Texture(FragmentTexture + 14, 16 + 2, 27, 3, 4), Texture(FragmentTexture + 15, 16 + 7, 28, 3, 3)]
    + [Texture(CursorCenterTexture, 66, 2, CursorSize, CursorSize), Texture(CursorTargetTexture, 98, 2, CursorSize, CursorSize),
       Texture(SadFaceTexture, 96, 32, 31, 31), Texture(HappyFaceTexture, 96, 80, 31, 31)]
  }

  /** The full-view rectangle: the whole framebuffer, from the origin. */
  function FullView(s: real, baseHeight: real): Setting {
    Model(FullViewModel, 0.0, 0.0, BaseWidth as real * s, baseHeight * s)
  }

  /** A cursor: pivot `(25 * 0.5 * s) | 0`, size 25s. */
  function Cursor(k: nat, s: real): Setting {
    var pivot := OrZero(CursorSize as real * 0.5 * s) as real;
    Model(k, pivot, pivot, CursorSize as real * s, CursorSize as real * s)
  }

  /** The rewrites of `recreateIfNecessary` after a scale change (scripts/level/levelSpriteSheet.ts:222-240). */
  function ScaledSettings(s: real, baseHeight: real): seq<Setting> {
    [Model(LevelObjectModel, IconRadius as real * s, IconRadius as real * s, IconSize as real * s, IconSize as real * s),
     FullView(s, baseHeight),
     Model(FadeBgModel, 0.0, 0.0, 8.0 * s, 8.0 * s),
     Model(FragmentModel, 1.0 * s, 1.0 * s, 3.0 * s, 3.0 * s), Model(FragmentModel + 1, 1.0 * s, 1.0 * s, 3.0 * s, 3.0 * s),
     Model(FragmentModel + 2, 1.0 * s, 2.0 * s, 3.0 * s, 4.0 * s), Model(FragmentModel + 3, 1.0 * s, 1.0 * s, 3.0 * s, 3.0 * s),
     Model(FragmentModel + 4, 1.0 * s, 2.0 * s, 3.0 * s, 4.0 * s), Model(FragmentModel + 5, 1.0 * s, 2.0 * s, 3.0 * s, 4.0 * s),
     Model(FragmentModel + 6, 1.0 * s, 2.0 * s, 3.0 * s, 4.0 * s), Model(FragmentModel + 7, 1.0 * s, 1.0 * s, 3.0 * s, 3.0 * s),
     Cursor(CursorCenterModel, s),
     Cursor(CursorTargetModel, s),
     Model(FaceModel, 15.0 * s, 15.0 * s, 31.0 * s, 31.0 * s)]
  }

  /** Every fixed call names a descriptor of its own kind and packs without wrapping. */
  lemma FixedWellFormed()
    ensures forall i :: 0 <= i < |FixedSettings()| ==> WellFormed(FixedSettings()[i])
  {
  }

  lemma ScaledWellFormed(s: real, baseHeight: real)
    ensures forall i :: 0 <= i < |ScaledSettings(s, baseHeight)| ==> WellFormed(ScaledSettings(s, baseHeight)[i])
  {
  }

  /**
   * Every fixed texel rectangle lies inside the 128 x 128 sprite sheet texture,
   * hence below 256, where packing loses nothing (see `TextureCoords.CornersDecode`).
   */
  lemma FixedTexelsInTexture()
    ensures forall i :: 0 <= i < |FixedSettings()| && FixedSettings()[i].Texture? ==>
      var st := FixedSettings()[i];
      st.left + st.texelWidth <= TextureWidth && st.top + st.texelHeight <= TextureHeight
  {
  }

  /** The model rectangle of a call multiplied by s. */
  function Scaled(st: Setting, s: real): Setting
    requires st.Model?
  {
    Model(st.k, st.pivotX * s, st.pivotY * s, st.width * s, st.height * s)
  }

  /**
   * After a scale change every rewritten model rectangle is s times its size
   * at scale 1, save the two cursors (see `CursorsPivotOnTheirCentre`).
   */
  lemma ScaledAreMultiples(s: real, baseHeight: real)
    ensures var unit, sts := ScaledSettings(1.0, baseHeight), ScaledSettings(s, baseHeight);
      && |sts| == |unit|
      && forall i :: 0 <= i < |sts| && unit[i].k != CursorCenterModel && unit[i].k != CursorTargetModel ==>
           sts[i] == Scaled(unit[i], s)
  {
    var unit, sts := ScaledSettings(1.0, baseHeight), ScaledSettings(s, baseHeight);
    forall i | 0 <= i < |sts| && unit[i].k != CursorCenterModel && unit[i].k != CursorTargetModel
      ensures sts[i] == Scaled(unit[i], s)
    {
      if i < 3 {
        ScaledPrefix(s, baseHeight, i);
      } else if i < 11 {
        ScaledFragment(s, baseHeight, i);
      } else {
        assert i == 13;
      }
    }
  }

  lemma ScaledPrefix(s: real, baseHeight: real, i: nat)
    requires i < 3
    ensures ScaledSettings(s, baseHeight)[i] == Scaled(ScaledSettings(1.0, baseHeight)[i], s)
  {
    if i == 1 {
      FullViewScales(s, baseHeight);
    }
  }

  lemma FullViewScales(s: real, baseHeight: real)
    ensures FullView(s, baseHeight) == Scaled(FullView(1.0, baseHeight), s)
  {
    assert baseHeight * 1.0 == baseHeight;
  }

  lemma ScaledFragment(s: real, baseHeight: real, i: nat)
    requires 3 <= i < 11
    ensures ScaledSettings(s, baseHeight)[i] == Scaled(ScaledSettings(1.0, baseHeight)[i], s)
  {
  }

  /** The cursors are 25s wide and high and pivot on `(12.5 s) | 0`, the truncated centre. */
  lemma CursorsPivotOnTheirCentre(s: real, baseHeight: real)
    ensures forall i :: 0 <= i < |ScaledSettings(s, baseHeight)| && ScaledSettings(s, baseHeight)[i].k in {CursorCenterModel, CursorTargetModel} ==>
      var st := ScaledSettings(s, baseHeight)[i];
      st.pivotX == st.pivotY == OrZero(12.5 * s) as real && st.width == st.height == 25.0 * s
  {
    assert CursorSize as real * 0.5 * s == 12.5 * s;
  }

  /** Neither table names `clearBackgroundTextureCoordinates`. */
  lemma ClearBackgroundUntouched(s: real, baseHeight: real)
    ensures forall i :: 0 <= i < |FixedSettings()| ==> FixedSettings()[i].k != ClearBackgroundTexture
    ensures forall i :: 0 <= i < |ScaledSettings(s, baseHeight)| ==> ScaledSettings(s, baseHeight)[i].k != ClearBackgroundTexture
  {
  }

  /** After the scaled calls the full-view descriptor holds the full view of this scale. */
  lemma ScaledEndsWithFullView(h: seq<real>, base: nat, s: real, baseHeight: real)
    requires SheetFits(|h|, base)
    ensures ScaledWellFormedAll(s, baseHeight)
    ensures DescriptorFloats(Applied(h, base, ScaledSettings(s, baseHeight)), base, FullViewModel)
      == Floats(FullView(s, baseHeight))
  {
    ScaledWellFormed(s, baseHeight);
    AppliedLast(h, base, ScaledSettings(s, baseHeight), 1);
  }

  predicate FixedWellFormedAll() {
    forall i :: 0 <= i < |FixedSettings()| ==> WellFormed(FixedSettings()[i])
  }

  /** The heap after `initLevelSpriteSheet`: the floats of the struct at `base` zero, the rest unchanged. */
  function Zeroed(h: seq<real>, base: nat): (r: seq<real>)
    ensures |r| == |h|
  {
    seq(|h|, i requires 0 <= i < |h| => if base / 4 <= i < base / 4 + 4 * DescriptorCount then 0.0 else h[i])
  }

  predicate ScaledWellFormedAll(s: real, baseHeight: real) {
    forall i :: 0 <= i < |ScaledSettings(s, baseHeight)| ==> WellFormed(ScaledSettings(s, baseHeight)[i])
  }

  /** `LevelSpriteSheet`'s static state: the struct pointer, the coordinate objects and the last scale factor. */
  class LevelSpriteSheet {
    const heap: array<real>
    /** `LevelSpriteSheetPtr` */
    var ptr: nat
    /** The coordinate objects, in allocation order; empty until `allocateCoordinates` ran. */
    var descriptors: seq<Coordinates>
    var scaleFactor: real

    constructor(heap: array<real>)
      ensures this.heap == heap && ptr == 0 && descriptors == [] && scaleFactor == 0.0
    {
      this.heap := heap;
      ptr, descriptors, scaleFactor := 0, [], 0.0;
    }

    /** `LevelModelCoordinates` is not null. */
    predicate Allocated()
      reads this
    {
      descriptors != []
    }

    predicate Valid()
      reads this
    {
      Allocated() ==> SheetFits(heap.Length, ptr) && descriptors == Layout(ptr, AllocatedCount)
    }

    /** `initLevelSpriteSheet` (lib/gl.c:264-266) for a struct that `malloc` placed at `base`: every descriptor zeroed. */
    method InitLevelSpriteSheet(base: nat)
      requires SheetFits(heap.Length, base)
      modifies heap
      ensures heap[..] == Zeroed(old(heap[..]), base)
      ensures forall k :: 0 <= k < DescriptorCount ==> DescriptorFloats(heap[..], base, k) == [0.0, 0.0, 0.0, 0.0]
      ensures forall i :: 0 <= i < heap.Length && !(base / 4 <= i < base / 4 + 4 * DescriptorCount) ==> heap[i] == old(heap[i])
    {
      forall i | base / 4 <= i < base / 4 + 4 * DescriptorCount {
        heap[i] := 0.0;
      }
      forall k | 0 <= k < DescriptorCount ensures DescriptorFloats(heap[..], base, k) == [0.0, 0.0, 0.0, 0.0] {
        FieldsAreConsecutive(base, k);
      }
      assert forall i :: 0 <= i < heap.Length ==> heap[..][i] == Zeroed(old(heap[..]), base)[i];
    }

    /**
     * `allocateCoordinates` (scripts/level/levelSpriteSheet.ts:68-137): one
     * object per field, 16 bytes apart from the struct pointer, each of the
     * kind its field has in lib/gl.c; the last field gets none.
     */
    method AllocateCoordinates(base: nat)
      requires SheetFits(heap.Length, base)
      modifies this`ptr, this`descriptors, heap
      ensures ptr == base && descriptors == Layout(base, AllocatedCount) && Valid()
      ensures heap[..] == Zeroed(old(heap[..]), base)
      ensures forall k :: 0 <= k < DescriptorCount ==> DescriptorFloats(heap[..], base, k) == [0.0, 0.0, 0.0, 0.0]
      ensures forall i :: 0 <= i < heap.Length && !(base / 4 <= i < base / 4 + 4 * DescriptorCount) ==> heap[i] == old(heap[i])
    {
      InitLevelSpriteSheet(base);
      ptr := base;
      descriptors := [];
      var p := AllocateBackgrounds(base);
      p := AllocateObjects(base, p);
      p := AllocateFragments(base, p);
      p := AllocateFaces(base, p);
    }

    /** Lines 72-92: the level, the two full textures and the background strips. */
    method AllocateBackgrounds(base: nat) returns (p: nat)
      requires descriptors == []
      modifies this`descriptors
      ensures descriptors == Layout(base, LevelObjectModel) && p == Field(base, LevelObjectModel)
    {
      p := base;
      p := NewModel(base, p);
      p := NewTexture(base, p);
      p := NewTexture(base, p);
      for i := 0 to BackgroundCount
        invariant descriptors == Layout(base, BackgroundModel + i) && p == Field(base, |descriptors|)
      {
        p := NewModel(base, p);
      }
      for i := 0 to BackgroundTextureCount
        invariant descriptors == Layout(base, BackgroundTexture + i) && p == Field(base, |descriptors|)
      {
        p := NewTexture(base, p);
      }
    }

    /** Lines 94-110: the level objects, the full view and the fading backgrounds. */
    method AllocateObjects(base: nat, p0: nat) returns (p: nat)
      requires descriptors == Layout(base, LevelObjectModel) && p0 == Field(base, LevelObjectModel)
      modifies this`descriptors
      ensures descriptors == Layout(base, FragmentModel) && p == Field(base, FragmentModel)
    {
      p := NewModel(base, p0);
      for i := 0 to TypeCount
        invariant descriptors == Layout(base, LevelObjectTexture + i) && p == Field(base, |descriptors|)
      {
        p := NewTexture(base, p);
      }
      p := NewModel(base, p);
      p := NewTexture(base, p);
      p := NewModel(base, p);
      p := NewTexture(base, p);
      p := NewTexture(base, p);
    }

    /** Lines 112-119: the fragments. */
    method AllocateFragments(base: nat, p0: nat) returns (p: nat)
      requires descriptors == Layout(base, FragmentModel) && p0 == Field(base, FragmentModel)
      modifies this`descriptors
      ensures descriptors == Layout(base, CursorCenterModel) && p == Field(base, CursorCenterModel)
    {
      p := p0;
      for i := 0 to FragmentModelCount
        invariant descriptors == Layout(base, FragmentModel + i) && p == Field(base, |descriptors|)
      {
        p := NewModel(base, p);
      }
      for i := 0 to FragmentTextureCount
        invariant descriptors == Layout(base, FragmentTexture + i) && p == Field(base, |descriptors|)
      {
        p := NewTexture(base, p);
      }
    }

    /** Lines 121-136: the cursors and the faces. */
    method AllocateFaces(base: nat, p0: nat) returns (p: nat)
      requires descriptors == Layout(base, CursorCenterModel) && p0 == Field(base, CursorCenterModel)
      modifies this`descriptors
      ensures descriptors == Layout(base, AllocatedCount) && p == Field(base, AllocatedCount)
    {
      p := NewModel(base, p0);
      p := NewTexture(base, p);
      p := NewModel(base, p);
      p := NewTexture(base, p);
      p := NewModel(base, p);
      p := NewTexture(base, p);
      p := NewTexture(base, p);
    }

    /** `new ModelCoordinates(ptr); ptr += ptrInc` at the next field, which the struct declares as a model field. */
    method NewModel(ghost base: nat, p: nat) returns (next: nat)
      requires descriptors == Layout(base, |descriptors|) && p == Field(base, |descriptors|) && IsModel(|descriptors|)
      modifies this`descriptors
      ensures descriptors == Layout(base, |old(descriptors)| + 1) && next == Field(base, |descriptors|)
    {
      LayoutSnoc(base, |descriptors|);
      descriptors := descriptors + [ModelDescriptor(p)];
      next := p + DescriptorBytes;
    }

    /** `new TextureCoordinates(ptr); ptr += ptrInc` at the next field, which the struct declares as a texture field. */
    method NewTexture(ghost base: nat, p: nat) returns (next: nat)
      requires descriptors == Layout(base, |descriptors|) && p == Field(base, |descriptors|) && !IsModel(|descriptors|)
      modifies this`descriptors
      ensures descriptors == Layout(base, |old(descriptors)| + 1) && next == Field(base, |descriptors|)
    {
      LayoutSnoc(base, |descriptors|);
      descriptors := descriptors + [TextureDescriptor(p)];
      next := p + DescriptorBytes;
    }

    /** One `setCoordinates` call, on the object allocated for descriptor `st.k`. */
    method Write(st: Setting)
      requires Valid() && Allocated() && WellFormed(st)
      modifies heap
      ensures heap[..] == Put(old(heap[..]), ptr / 4 + 4 * st.k, Floats(st))
    {
      FieldsAreConsecutive(ptr, st.k);
      if st.Model? {
        WriteModel(st);
      } else {
        WriteTexture(st);
      }
    }

    method WriteModel(st: Setting)
      requires Valid() && Allocated() && WellFormed(st) && st.Model?
      modifies heap
      ensures heap[..] == Put(old(heap[..]), ptr / 4 + 4 * st.k, Floats(st))
    {
      FieldsAreConsecutive(ptr, st.k);
      var i := ptr / 4 + 4 * st.k;
      var m := new ModelCoords.ModelCoordinates(descriptors[st.k].ptr);
      m.SetCoordinates(heap, st.pivotX, st.pivotY, st.width, st.height);
      PutFrom(old(heap[..]), heap[..], i, Floats(st));
    }

    method WriteTexture(st: Setting)
      requires Valid() && Allocated() && WellFormed(st) && st.Texture?
      modifies heap
      ensures heap[..] == Put(old(heap[..]), ptr / 4 + 4 * st.k, Floats(st))
    {
      FieldsAreConsecutive(ptr, st.k);
      var i := ptr / 4 + 4 * st.k;
      var c := new TextureCoords.TextureCoordinates(descriptors[st.k].ptr);
      c.SetCoordinates(heap, st.left, st.top, st.texelWidth, st.texelHeight);
      ghost var v := Floats(st);
      assert c.ptr / 4 == i;
      assert heap[i..i + 4] == v;
      assert heap[i] == heap[i..i + 4][0] && heap[i + 1] == heap[i..i + 4][1] && heap[i + 2] == heap[i..i + 4][2] && heap[i + 3] == heap[i..i + 4][3];
      PutFrom(old(heap[..]), heap[..], i, Floats(st));
    }

    /** The calls `sts`, one after the other. */
    method WriteAll(sts: seq<Setting>)
      requires Valid() && Allocated() && forall i :: 0 <= i < |sts| ==> WellFormed(sts[i])
      modifies heap
      ensures heap[..] == Applied(old(heap[..]), ptr, sts)
    {
      for n := 0 to |sts|
        invariant heap[..] == Applied(old(heap[..]), ptr, sts[..n])
      {
        assert sts[..n + 1][..n] == sts[..n];
        Write(sts[n]);
      }
      assert sts[..|sts|] == sts;
    }

    /** The first call: allocate, then write the fixed and the scaled coordinates. */
    method Create(s: real, baseHeight: real, base: nat)
      requires Valid() && !Allocated() && SheetFits(heap.Length, base)
      modifies this`ptr, this`descriptors, heap
      ensures Valid() && Allocated() && ptr == base
      ensures FixedWellFormedAll() && ScaledWellFormedAll(s, baseHeight)
      ensures heap[..] == Created(old(heap[..]), base, s, baseHeight)
    {
      FixedWellFormed();
      ScaledWellFormed(s, baseHeight);
      AllocateCoordinates(base);
      WriteAll(FixedSettings());
      WriteAll(ScaledSettings(s, baseHeight));
    }

    /**
     * `recreateIfNecessary` (scripts/level/levelSpriteSheet.ts:205-241) for the
     * scale factor s and base height of main.ts; `base` is what
     * `_initLevelSpriteSheet` returns when the sheet is first allocated.
     */
    method RecreateIfNecessary(s: real, baseHeight: real, base: nat)
      requires Valid() && (!Allocated() ==> SheetFits(heap.Length, base))
      modifies this, heap
      ensures Valid() && Allocated() && scaleFactor == s
      ensures old(Allocated()) ==> ptr == old(ptr) && descriptors == old(descriptors)
      ensures !old(Allocated()) ==> ptr == base
      ensures ScaledWellFormedAll(s, baseHeight) && (forall i :: 0 <= i < |FixedSettings()| ==> WellFormed(FixedSettings()[i]))
      ensures old(Allocated()) && old(scaleFactor) == s ==>
        heap[..] == Put(old(heap[..]), ptr / 4 + 4 * FullViewModel, Floats(FullView(s, baseHeight)))
      ensures old(Allocated()) && old(scaleFactor) != s ==>
        heap[..] == Applied(old(heap[..]), ptr, ScaledSettings(s, baseHeight))
      ensures !old(Allocated()) ==> heap[..] == Created(old(heap[..]), base, s, baseHeight)
      ensures !old(Allocated()) ==>
        && (forall i :: 0 <= i < heap.Length && !(base / 4 <= i < base / 4 + 4 * DescriptorCount) ==> heap[i] == old(heap[i]))
        && DescriptorFloats(heap[..], base, ClearBackgroundTexture) == [0.0, 0.0, 0.0, 0.0]
      ensures DescriptorFloats(heap[..], ptr, FullViewModel) == Floats(FullView(s, baseHeight))
    {
      FixedWellFormed();
      ScaledWellFormed(s, baseHeight);
      if scaleFactor == s && Allocated() {
        Write(FullView(s, baseHeight));
        FieldsAreConsecutive(ptr, FullViewModel);
        return;
      }
      ghost var wasAllocated := Allocated();
      scaleFactor := s;
      if !Allocated() {
        Create(s, baseHeight, base);
        CreatedFacts(old(heap[..]), base, s, baseHeight);
      } else {
        ghost var h0 := heap[..];
        WriteAll(ScaledSettings(s, baseHeight));
        ScaledEndsWithFullView(h0, ptr, s, baseHeight);
      }
    }
  }

  /** The heap after the first `recreateIfNecessary`: zeroed, then the fixed and the scaled calls. */
  function Created(h: seq<real>, base: nat, s: real, baseHeight: real): (r: seq<real>)
    requires SheetFits(|h|, base)
    ensures |r| == |h|
  {
    FixedWellFormed();
    ScaledWellFormed(s, baseHeight);
    Applied(Applied(Zeroed(h, base), base, FixedSettings()), base, ScaledSettings(s, baseHeight))
  }

  /**
   * The first call writes only inside the struct, leaves the last descriptor
   * zero and leaves the full view of this scale in its descriptor.
   */
  lemma CreatedFacts(h: seq<real>, base: nat, s: real, baseHeight: real)
    requires SheetFits(|h|, base)
    ensures forall i :: 0 <= i < |h| && !(base / 4 <= i < base / 4 + 4 * DescriptorCount) ==> Created(h, base, s, baseHeight)[i] == h[i]
    ensures DescriptorFloats(Created(h, base, s, baseHeight), base, ClearBackgroundTexture) == [0.0, 0.0, 0.0, 0.0]
    ensures DescriptorFloats(Created(h, base, s, baseHeight), base, FullViewModel) == Floats(FullView(s, baseHeight))
  {
    FixedWellFormed();
    ScaledWellFormed(s, baseHeight);
    ClearBackgroundUntouched(s, baseHeight);
    var zeroed := Zeroed(h, base);
    var fixed := Applied(zeroed, base, FixedSettings());
    FieldsAreConsecutive(base, ClearBackgroundTexture);
    AppliedKeeps(zeroed, base, FixedSettings(), ClearBackgroundTexture);
    AppliedKeeps(fixed, base, ScaledSettings(s, baseHeight), ClearBackgroundTexture);
    AppliedFrame(zeroed, base, FixedSettings());
    AppliedFrame(fixed, base, ScaledSettings(s, baseHeight));
    ScaledEndsWithFullView(fixed, base, s, baseHeight);
  }

  /** Floats outside the sheet are never written by the calls. */
  lemma {:induction false} AppliedFrame(h: seq<real>, base: nat, sts: seq<Setting>)
    requires SheetFits(|h|, base) && forall i :: 0 <= i < |sts| ==> WellFormed(sts[i])
    ensures forall i :: 0 <= i < |h| && !(base / 4 <= i < base / 4 + 4 * DescriptorCount) ==> Applied(h, base, sts)[i] == h[i]
  {
    if sts != [] {
      AppliedFrame(h, base, sts[..|sts| - 1]);
    }
  }

  /** Two heaps that agree outside [i, i + 4) and hold v there: the second is the first with v put at i. */
  lemma PutFrom(h0: seq<real>, h1: seq<real>, i: nat, v: seq<real>)
    requires |h0| == |h1| && |v| == 4 && i + 4 <= |h0|
    requires h1[i] == v[0] && h1[i + 1] == v[1] && h1[i + 2] == v[2] && h1[i + 3] == v[3]
    requires forall j :: 0 <= j < |h1| && !(i <= j < i + 4) ==> h1[j] == h0[j]
    ensures h1 == Put(h0, i, v)
  {
    assert forall j :: 0 <= j < |h1| ==> h1[j] == Put(h0, i, v)[j];
  }

  /**
   * With the same scale factor, a second `recreateIfNecessary` after a first
   * one with the same base height leaves the heap as it was: the only rewrite
   * stores the floats the full-view descriptor already holds.
   */
  lemma RepeatChangesNothing(h: seq<real>, base: nat, s: real, baseHeight: real)
    requires SheetFits(|h|, base) && DescriptorFloats(h, base, FullViewModel) == Floats(FullView(s, baseHeight))
    ensures Put(h, base / 4 + 4 * FullViewModel, Floats(FullView(s, baseHeight))) == h
  {
    PutSame(h, base / 4 + 4 * FullViewModel, Floats(FullView(s, baseHeight)));
  }
}
