/**
 * The `WebGL` class (scripts/gl/webGL.ts): the staging buffer of 512
 * rectangles in the WebAssembly heap, the batching `draw*` calls, `flush`,
 * the native draw hand-off, the index table, the framebuffer sizing of
 * `recreate`, and the context life cycle.
 *
 * The GL context is the call log `log`; `HEAPF32` is `heap`. Textures are
 * known by identity (`TextureId`). Results of the browser (the contexts
 * `getContext` returns, the GL objects `create*` returns, the pointer
 * `_allocateBuffer` returns, `isContextLost()`) are parameters.
 */
module Renderer {
  import opened Wrappers
  import opened Bits
  import opened JsNumbers
  import opened Batching
  import Gl
  import TextureCoords

  /** Floats in the staging buffer: 12 per rectangle, 512 rectangles. */
  const StagingFloats: nat := 6144
  const BytesPerRectangle: nat := 48
  /** Six indices per rectangle. */
  const IndexCount: nat := 3072
  /** `LevelSpriteSheet.TextureWidth` and `TextureHeight`. */
  const LevelTextureSize: nat := 128

  /** `nextPowerOfTwo(x)` */
  function NextPowerOfTwo(x: nat): nat
    requires IsUint31(x)
  {
    if x == 0 || And(x, x - 1) == 0 then x
    else
      var x1 := Or(x, Shr(x, 1));
      var x2 := Or(x1, Shr(x1, 2));
      var x4 := Or(x2, Shr(x2, 4));
      var x8 := Or(x4, Shr(x4, 8));
      var x16 := Or(x8, Shr(x8, 16));
      x16 + 1
  }

  lemma SmearOfX(x: nat)
    requires 1 <= x < 0x8000_0000
    ensures SmearStep(x, 5) == Pow2(Log2(x) + 1) - 1
  {
    var k := Log2(x);
    Pow2Values();
    if k >= 31 {
      Pow2Le(31, k);
    }
    assert k <= 30;
    SmearBound(x, 5, k + 1);
    forall i: nat | i < k + 1
      ensures Bit(SmearStep(x, 5), i)
    {
      SmearReachesTop(x, k, i);
    }
    AllOnes(SmearStep(x, 5), k + 1);
  }

  /** Every bit at or below the top bit k of x is set in the smear of x. */
  lemma SmearReachesTop(x: nat, k: nat, i: nat)
    requires 1 <= x && k == Log2(x) && k <= 30 && i <= k
    ensures Bit(SmearStep(x, 5), i)
  {
    TopBit(x, k);
    assert BitAt(x, i, k - i);
    assert Pow2(5) == 32;
    SmearBits(x, 5, i);
  }

  lemma NextPowerOfTwoIsSmear(x: nat)
    requires IsUint31(x) && x != 0 && And(x, x - 1) != 0
    ensures NextPowerOfTwo(x) == SmearStep(x, 5) + 1
  {
    var x1 := Or(x, Shr(x, 1));
    var x2 := Or(x1, Shr(x1, 2));
    var x4 := Or(x2, Shr(x2, 4));
    var x8 := Or(x4, Shr(x4, 8));
    assert SmearStep(x, 1) == x1 by { assert Pow2(0) == 1; }
    assert SmearStep(x, 2) == x2 by { assert Pow2(1) == 2; }
    assert SmearStep(x, 3) == x4 by { assert Pow2(2) == 4; }
    assert SmearStep(x, 4) == x8 by { assert Pow2(3) == 8; }
    assert SmearStep(x, 5) == Or(x8, Shr(x8, 16)) by { assert Pow2(4) == 16; }
  }

  /**
   * For 0 < x < 2^31, `nextPowerOfTwo(x)` is a power of two with
   * x <= result < 2x: x itself when x is a power of two, otherwise the least
   * power of two above x.
   */
  lemma NextPowerOfTwoIsLeast(x: nat)
    requires 1 <= x < 0x8000_0000
    ensures exists k: nat :: NextPowerOfTwo(x) == Pow2(k)
    ensures x <= NextPowerOfTwo(x) < 2 * x
    ensures (exists k: nat :: x == Pow2(k)) ==> NextPowerOfTwo(x) == x
  {
    var k := Log2(x);
    if Pow2(k) == x {
      if k > 0 {
        AndLowMask(x, k);
        assert And(x, x - 1) == 0;
      }
      assert NextPowerOfTwo(x) == Pow2(k);
    } else {
      TopBit(x, k);
      TopBit(x - 1, k);
      AndBit(x, x - 1, k);
      ZeroBits(k);
      SmearOfX(x);
      NextPowerOfTwoIsSmear(x);
      assert NextPowerOfTwo(x) == Pow2(k + 1);
      forall j: nat | x == Pow2(j)
        ensures false
      {
        if j <= k {
          Pow2Le(j, k);
        } else {
          Pow2Le(k + 1, j);
        }
      }
    }
  }

  /** The framebuffer texture size, its extent in texels of the 128 x 128 sprite sheet, and the view size it covers. */
  datatype FramebufferSize = FramebufferSize(powerOfTwo: nat, textureCoordinate: int, view: int)

  /**
   * The framebuffer sizing of `recreate` for one axis. The texture is a power
   * of two at least `desired`; the texture coordinate stays within the sprite
   * sheet's 128 texels, and the view it maps back to covers at least
   * `desired` pixels but no more than the texture.
   */
  function FramebufferSizing(desired: nat): (r: FramebufferSize)
    requires 1 <= desired <= 0x4000_0000
    ensures r.powerOfTwo >= desired
    ensures 1 <= r.textureCoordinate <= LevelTextureSize
    ensures desired <= r.view <= r.powerOfTwo
  {
    NextPowerOfTwoIsLeast(desired);
    var p := NextPowerOfTwo(desired);
    var t := TexelExtent(desired, p);
    FramebufferSize(p, t, ViewExtent(desired, Unscaled(t, p), p))
  }

  /** `Math.ceil((desired * TextureWidth) / powerOfTwo)`: in 1 .. 128, and it maps back to between d and p pixels. */
  function TexelExtent(d: nat, p: nat): (t: int)
    requires 1 <= d <= p
    ensures 1 <= t <= LevelTextureSize
    ensures d as real <= Unscaled(t, p) <= p as real
  {
    var t := Ceil(d as real * 128.0 / p as real);
    SizingBounds(d as real, p as real, t);
    assert Unscaled(t, p) == t as real * p as real / 128.0;
    t
  }

  /** `(textureCoordinate * powerOfTwo) / TextureWidth`: texels of the sprite sheet back to pixels of the texture. */
  function Unscaled(t: int, p: nat): real {
    t as real * p as real / 128.0
  }

  /** `x | 0` for x = (textureCoordinate * powerOfTwo) / TextureWidth */
  function ViewExtent(d: nat, x: real, p: nat): (v: int)
    requires p < 0x8000_0000
    requires d as real <= x <= p as real
    ensures d <= v <= p
  {
    TruncateBetween(x, d, p);
    OrZero(x)
  }

  /** With d <= p, the coordinate ceil(128 d / p) lies in 1 .. 128 and maps back to between d and p. */
  lemma SizingBounds(d: real, p: real, t: int)
    requires 1.0 <= d <= p
    requires t == Ceil(d * 128.0 / p)
    ensures 1 <= t <= 128
    ensures d <= t as real * p / 128.0 <= p
  {
    QuotientBound(d, p, 128.0);
    CoverBounds(d, p, t as real);
  }

  lemma TruncateBetween(x: real, lo: nat, hi: nat)
    requires lo as real <= x <= hi as real && hi < 0x8000_0000
    ensures lo <= OrZero(x) <= hi
  {
    assert OrZero(x) == Floor(x);
  }

  lemma CoverBounds(d: real, p: real, t: real)
    requires 0.0 < d <= p && d * 128.0 / p <= t <= 128.0
    ensures d <= t * p / 128.0 <= p
  {
    var q := d * 128.0 / p;
    assert q * p == d * 128.0;
    assert t * p >= q * p;
    assert t * p <= 128.0 * p;
  }

  lemma QuotientBound(n: real, m: real, c: real)
    requires 0.0 < n <= m && c > 0.0
    ensures 0.0 < n * c / m <= c
  {
    assert n / m <= 1.0;
    assert n * c / m == (n / m) * c;
  }

  /** The indices of rectangle r: triangles 0 1 2 and 2 1 3 of its four vertices. */
  function RectangleIndices(r: nat): seq<nat> {
    [4 * r, 4 * r + 1, 4 * r + 2, 4 * r + 2, 4 * r + 1, 4 * r + 3]
  }

  /** Entry k of the index table: vertex 4 (k / 6) plus the offset of position k % 6 in the two triangles. */
  function IndexEntry(k: nat): nat {
    4 * (k / 6) + [0, 1, 2, 2, 1, 3][k % 6]
  }

  function IndexTable(n: nat): seq<nat> {
    seq(6 * n, k requires 0 <= k < 6 * n => IndexEntry(k))
  }

  /**
   * The index table holds 4r, 4r+1, 4r+2, 4r+2, 4r+1, 4r+3 for each rectangle
   * r, and every index is below 4n; for 512 rectangles the largest, 2047,
   * fits an unsigned short.
   */
  lemma IndexTableSpec(n: nat)
    ensures |IndexTable(n)| == 6 * n
    ensures forall r, j :: 0 <= r < n && 0 <= j < 6 ==> IndexTable(n)[6 * r + j] == RectangleIndices(r)[j]
    ensures forall k :: 0 <= k < 6 * n ==> IndexTable(n)[k] < 4 * n
  {
    forall r, j | 0 <= r < n && 0 <= j < 6
      ensures IndexTable(n)[6 * r + j] == RectangleIndices(r)[j]
    {
      assert (6 * r + j) / 6 == r && (6 * r + j) % 6 == j;
    }
    forall k | 0 <= k < 6 * n
      ensures IndexTable(n)[k] < 4 * n
    {
      assert k / 6 < n;
    }
  }

  lemma IndexTableFitsUnsignedShort()
    ensures |IndexTable(RectangleCapacity)| == IndexCount
    ensures forall k :: 0 <= k < IndexCount ==> IndexTable(RectangleCapacity)[k] <= 2047 < 65536
    ensures IndexTable(RectangleCapacity)[IndexCount - 1] == 2047
  {
    IndexTableSpec(RectangleCapacity);
    assert IndexTable(RectangleCapacity)[6 * 511 + 5] == RectangleIndices(511)[5];
  }

  /** The index loop of `allocateRectangleBuffers`. */
  method BuildIndexTable() returns (indices: array<nat>)
    ensures indices.Length == IndexCount
    ensures indices[..] == IndexTable(RectangleCapacity)
  {
    indices := new nat[IndexCount];
    var i, vertex := 0, 0;
    ghost var r := 0;
    while i < IndexCount
      invariant 0 <= r <= RectangleCapacity && i == 6 * r && vertex == 4 * r
      invariant forall k :: 0 <= k < i ==> indices[k] == IndexEntry(k)
    {
      indices[i] := vertex;
      indices[i + 1] := vertex + 1;
      indices[i + 2] := vertex + 2;
      indices[i + 3] := vertex + 2;
      indices[i + 4] := vertex + 1;
      indices[i + 5] := vertex + 3;
      IndexEntries(r);
      i, vertex, r := i + 6, vertex + 4, r + 1;
    }
  }

  lemma IndexEntries(r: nat)
    ensures IndexEntry(6 * r) == 4 * r && IndexEntry(6 * r + 1) == 4 * r + 1 && IndexEntry(6 * r + 2) == 4 * r + 2
    ensures IndexEntry(6 * r + 3) == 4 * r + 2 && IndexEntry(6 * r + 4) == 4 * r + 1 && IndexEntry(6 * r + 5) == 4 * r + 3
  {
    assert (6 * r) / 6 == r && (6 * r + 1) / 6 == r && (6 * r + 2) / 6 == r;
    assert (6 * r + 3) / 6 == r && (6 * r + 4) / 6 == r && (6 * r + 5) / 6 == r;
  }

  /** The rectangles in the first n slots of a staging buffer at byte address `base`. */
  function Slots(heap: seq<real>, base: nat, n: nat): (r: seq<seq<real>>)
    requires base / 4 + FloatsPerRectangle * n <= |heap|
    ensures |r| == n
    ensures forall k :: 0 <= k < n ==> r[k] == heap[base / 4 + FloatsPerRectangle * k..base / 4 + FloatsPerRectangle * k + FloatsPerRectangle]
  {
    seq(n, k requires 0 <= k < n => heap[base / 4 + FloatsPerRectangle * k..base / 4 + FloatsPerRectangle * k + FloatsPerRectangle])
  }

  /** Uploading the first n slots is uploading `12 n` floats from the buffer start. */
  lemma {:induction false} FlattenSlots(heap: seq<real>, base: nat, n: nat)
    requires base / 4 + FloatsPerRectangle * n <= |heap|
    ensures Flatten(Slots(heap, base, n)) == heap[base / 4..base / 4 + FloatsPerRectangle * n]
  {
    if n > 0 {
      var s := base / 4;
      FlattenSlots(heap, base, n - 1);
      assert Slots(heap, base, n)[..n - 1] == Slots(heap, base, n - 1);
      assert heap[s..s + FloatsPerRectangle * n]
        == heap[s..s + FloatsPerRectangle * (n - 1)] + heap[s + FloatsPerRectangle * (n - 1)..s + FloatsPerRectangle * n];
    }
  }

  /** Writing slot n of a heap, and nothing else, appends one rectangle to the first n slots. */
  lemma SlotsAppend(h0: seq<real>, h1: seq<real>, base: nat, n: nat, rectangle: seq<real>)
    requires |h0| == |h1| && base / 4 + FloatsPerRectangle * (n + 1) <= |h0|
    requires h1[base / 4 + FloatsPerRectangle * n..base / 4 + FloatsPerRectangle * n + FloatsPerRectangle] == rectangle
    requires forall k :: 0 <= k < |h1| && !(base / 4 + FloatsPerRectangle * n <= k < base / 4 + FloatsPerRectangle * n + FloatsPerRectangle) ==> h1[k] == h0[k]
    ensures Slots(h1, base, n + 1) == Slots(h0, base, n) + [rectangle]
  {
    var s := base / 4;
    forall k | 0 <= k < n
      ensures Slots(h1, base, n + 1)[k] == Slots(h0, base, n)[k]
    {
      assert h1[s + FloatsPerRectangle * k..s + FloatsPerRectangle * k + FloatsPerRectangle]
        == h0[s + FloatsPerRectangle * k..s + FloatsPerRectangle * k + FloatsPerRectangle];
    }
  }

  /** The GL objects `recreate` creates. */
  datatype GLObjects = GLObjects(program: Handle, vertexShader: Handle, fragmentShader: Handle, vertexBuffer: Handle, indexBuffer: Handle, framebuffer: Handle)

  /** What `getContext` returns for "webgl2" (None where it is not tried), "webgl" and "experimental-webgl". */
  datatype ContextAttempts = ContextAttempts(webgl2: Option<Handle>, webgl: Option<Handle>, experimental: Option<Handle>)

  /** The context `recreate` ends up with: the first attempt that gives one. */
  function FirstContext(a: ContextAttempts): Option<Handle> {
    if a.webgl2.Some? then a.webgl2 else if a.webgl.Some? then a.webgl else a.experimental
  }

  /** The size of the framebuffer `Texture`. */
  datatype TextureSize = TextureSize(width: nat, height: nat)

  /** Every field of a `WebGL` but the batch. */
  datatype Config = Config(
    viewWidth: int, viewHeight: int, framebufferTextureViewWidth: int, framebufferTextureViewHeight: int,
    program: Option<Handle>, vertexShader: Option<Handle>, fragmentShader: Option<Handle>,
    vertexBuffer: Option<Handle>, indexBuffer: Option<Handle>, verticesPtr: nat,
    context: Option<Handle>, contextVersion: nat, framebuffer: Option<Handle>, framebufferTexture: Option<TextureSize>)

  /** The calls `destroy` issues for the objects a configuration holds. */
  function DestroyCalls(c: Config): seq<GLCall> {
    if c.context.None? then []
    else
      [BindFramebuffer(None)]
      + (if c.framebufferTexture.Some? then [DestroyFramebufferTexture] else [])
      + (if c.framebuffer.Some? then [DeleteFramebuffer(c.framebuffer.value)] else [])
      + (if c.program.Some? then [DeleteProgram(c.program.value)] else [])
      + (if c.vertexShader.Some? then [DeleteShader(c.vertexShader.value)] else [])
      + (if c.fragmentShader.Some? then [DeleteShader(c.fragmentShader.value)] else [])
      + (if c.vertexBuffer.Some? then [DeleteBuffer(c.vertexBuffer.value)] else [])
      + (if c.indexBuffer.Some? then [DeleteBuffer(c.indexBuffer.value)] else [])
  }

  class WebGL {
    /** `cLib.HEAPF32` */
    const heap: array<real>

    var viewWidth: int
    var viewHeight: int
    var framebufferTextureViewWidth: int
    var framebufferTextureViewHeight: int
    var program: Option<Handle>
    var vertexShader: Option<Handle>
    var fragmentShader: Option<Handle>
    var vertexBuffer: Option<Handle>
    var indexBuffer: Option<Handle>
    var currentTexture: Option<TextureId>
    var rectangleCount: int
    /** The staging buffer; `vertices` is the `Float32Array` view of the heap at this address. */
    var verticesPtr: nat
    var context: Option<Handle>
    var contextVersion: nat
    var framebuffer: Option<Handle>
    var framebufferTexture: Option<TextureSize>
    /** The GL calls issued so far. */
    var log: seq<GLCall>

    /** Every field as `zeroObject` leaves it, except possibly `verticesPtr`. */
    predicate ZeroedExceptVertices()
      reads this
    {
      && viewWidth == 0 && viewHeight == 0 && framebufferTextureViewWidth == 0 && framebufferTextureViewHeight == 0
      && program.None? && vertexShader.None? && fragmentShader.None? && vertexBuffer.None? && indexBuffer.None?
      && currentTexture.None? && rectangleCount == 0 && context.None? && contextVersion == 0
      && framebuffer.None? && framebufferTexture.None?
    }

    constructor(heap: array<real>)
      ensures this.heap == heap && ZeroedExceptVertices() && verticesPtr == 0 && log == []
      ensures Valid()
    {
      this.heap := heap;
      viewWidth, viewHeight := 0, 0;
      framebufferTextureViewWidth, framebufferTextureViewHeight := 0, 0;
      program, vertexShader, fragmentShader := None, None, None;
      vertexBuffer, indexBuffer := None, None;
      currentTexture := None;
      rectangleCount := 0;
      verticesPtr := 0;
      context, contextVersion := None, 0;
      framebuffer, framebufferTexture := None, None;
      log := [];
    }

    /** A staging buffer of 512 rectangles fits at byte address `ptr`. */
    predicate StagingFits(ptr: nat)
    {
      ptr % 4 == 0 && ptr / 4 + StagingFloats <= heap.Length
    }

    predicate Ready()
      reads this`context, this`verticesPtr
    {
      context.Some? && verticesPtr != 0
    }

    predicate Valid()
      reads this`rectangleCount, this`context, this`verticesPtr
    {
      && 0 <= rectangleCount <= RectangleCapacity
      && (verticesPtr != 0 ==> StagingFits(verticesPtr))
      && (rectangleCount > 0 ==> Ready())
    }

    /** The batch: current texture, the rectangles in the first `rectangleCount` slots, the GL calls. */
    function State(): Batch
      reads this, heap
      requires Valid()
    {
      Batch(currentTexture, Slots(heap[..], verticesPtr, rectangleCount), log)
    }

    function Configuration(): Config
      reads this`viewWidth, this`viewHeight, this`framebufferTextureViewWidth, this`framebufferTextureViewHeight
      reads this`program, this`vertexShader, this`fragmentShader, this`vertexBuffer, this`indexBuffer, this`verticesPtr
      reads this`context, this`contextVersion, this`framebuffer, this`framebufferTexture
    {
      Config(viewWidth, viewHeight, framebufferTextureViewWidth, framebufferTextureViewHeight,
        program, vertexShader, fragmentShader, vertexBuffer, indexBuffer, verticesPtr,
        context, contextVersion, framebuffer, framebufferTexture)
    }

    /** A descriptor of four floats that lies in the heap, away from the staging buffer. */
    predicate Descriptor(ptr: nat)
      reads this, heap
    {
      Gl.Fits(heap[..], ptr, 4) && Gl.Disjoint(verticesPtr, StagingFloats, ptr, 4)
    }

    /** `flush()` */
    method Flush()
      requires Valid()
      modifies this`log, this`rectangleCount
      ensures Valid() && State() == Batching.Flush(old(State()))
      ensures Configuration() == old(Configuration())
    {
      var n := rectangleCount;
      if n == 0 {
        return;
      }
      var start := verticesPtr / 4;
      FlattenSlots(heap[..], verticesPtr, n);
      log := log + [BufferSubData(heap[start..start + FloatsPerRectangle * n]), BindTexture(currentTexture), DrawElements(IndicesPerRectangle * n)];
      rectangleCount := 0;
    }

    /** The opening of every `draw*`: flush when the texture changes or the buffer is full, then target the texture. */
    method BeginRectangle(texture: TextureId)
      requires Valid() && Ready()
      modifies this
      ensures Valid() && Ready() && rectangleCount < RectangleCapacity
      ensures var b := old(State());
        State() == (if MustFlush(b, texture) then Batching.Flush(b).(current := Some(texture)) else b)
      ensures Configuration() == old(Configuration())
    {
      if currentTexture != Some(texture) || rectangleCount >= RectangleCapacity {
        Flush();
        currentTexture := Some(texture);
      }
    }

    /** The staging slot the next rectangle goes to, as a byte address. */
    function NextSlot(): nat
      reads this
    {
      verticesPtr + BytesPerRectangle * (if rectangleCount < 0 then 0 else rectangleCount)
    }

    lemma NextSlotArguments(modelCoordinates: nat, textureCoordinates: nat)
      requires Valid() && Ready() && rectangleCount < RectangleCapacity
      requires Descriptor(modelCoordinates) && Descriptor(textureCoordinates)
      ensures Gl.DrawArguments(heap[..], NextSlot(), modelCoordinates, textureCoordinates)
      ensures NextSlot() / 4 == verticesPtr / 4 + FloatsPerRectangle * rectangleCount
    {
    }

    /** Counts the rectangle just written to the next slot, which is all that changed since `before`. */
    method Commit(ghost before: seq<real>, ghost rectangle: seq<real>)
      requires Valid() && Ready() && rectangleCount < RectangleCapacity && |before| == heap.Length
      requires var s := verticesPtr / 4 + FloatsPerRectangle * rectangleCount;
        && heap[s..s + FloatsPerRectangle] == rectangle
        && forall k :: 0 <= k < heap.Length && !(s <= k < s + FloatsPerRectangle) ==> heap[k] == before[k]
      modifies this`rectangleCount
      ensures Valid() && Ready()
      ensures State() == Batch(currentTexture, Slots(before, verticesPtr, old(rectangleCount)) + [rectangle], log)
    {
      SlotsAppend(before, heap[..], verticesPtr, rectangleCount, rectangle);
      rectangleCount := rectangleCount + 1;
    }

    /** `draw(texture, modelCoordinates, alpha, textureCoordinates, viewX, viewY)` */
    method Draw(texture: TextureId, modelCoordinates: nat, alpha: real, textureCoordinates: nat, viewX: real, viewY: real)
      requires Valid() && Ready() && Descriptor(modelCoordinates) && Descriptor(textureCoordinates)
      modifies this, heap
      ensures Valid() && Ready()
      ensures State() == Batching.Draw(old(State()), texture,
        Gl.DrawQuad(Gl.ModelAt(old(heap[..]), modelCoordinates), alpha, Gl.TextureAt(old(heap[..]), textureCoordinates), viewX, viewY))
      ensures Configuration() == old(Configuration())
      ensures forall k :: 0 <= k < heap.Length && !(verticesPtr / 4 <= k < verticesPtr / 4 + StagingFloats) ==> heap[k] == old(heap[k])
    {
      BeginRectangle(texture);
      NextSlotArguments(modelCoordinates, textureCoordinates);
      ghost var before := heap[..];
      Gl.Draw(heap, NextSlot(), modelCoordinates, alpha, textureCoordinates, viewX, viewY);
      Commit(before, Gl.DrawQuad(Gl.ModelAt(before, modelCoordinates), alpha, Gl.TextureAt(before, textureCoordinates), viewX, viewY));
    }

    /** `drawScale(texture, modelCoordinates, alpha, textureCoordinates, scale, viewX, viewY)` */
    method DrawScale(texture: TextureId, modelCoordinates: nat, alpha: real, textureCoordinates: nat, scale: real, viewX: real, viewY: real)
      requires Valid() && Ready() && Descriptor(modelCoordinates) && Descriptor(textureCoordinates)
      modifies this, heap
      ensures Valid() && Ready()
      ensures State() == Batching.Draw(old(State()), texture,
        Gl.DrawScaleQuad(Gl.ModelAt(old(heap[..]), modelCoordinates), alpha, Gl.TextureAt(old(heap[..]), textureCoordinates), scale, viewX, viewY))
      ensures Configuration() == old(Configuration())
      ensures forall k :: 0 <= k < heap.Length && !(verticesPtr / 4 <= k < verticesPtr / 4 + StagingFloats) ==> heap[k] == old(heap[k])
    {
      BeginRectangle(texture);
      NextSlotArguments(modelCoordinates, textureCoordinates);
      ghost var before := heap[..];
      Gl.DrawScale(heap, NextSlot(), modelCoordinates, alpha, textureCoordinates, scale, viewX, viewY);
      Commit(before, Gl.DrawScaleQuad(Gl.ModelAt(before, modelCoordinates), alpha, Gl.TextureAt(before, textureCoordinates), scale, viewX, viewY));
    }

    /** `drawRotate`, with `cosv` and `sinv` the cosine and sine of `radians`. */
    method DrawRotate(texture: TextureId, modelCoordinates: nat, alpha: real, textureCoordinates: nat, cosv: real, sinv: real, viewX: real, viewY: real)
      requires Valid() && Ready() && Descriptor(modelCoordinates) && Descriptor(textureCoordinates)
      modifies this, heap
      ensures Valid() && Ready()
      ensures State() == Batching.Draw(old(State()), texture,
        Gl.DrawRotateQuad(Gl.ModelAt(old(heap[..]), modelCoordinates), alpha, Gl.TextureAt(old(heap[..]), textureCoordinates), cosv, sinv, viewX, viewY))
      ensures Configuration() == old(Configuration())
      ensures forall k :: 0 <= k < heap.Length && !(verticesPtr / 4 <= k < verticesPtr / 4 + StagingFloats) ==> heap[k] == old(heap[k])
    {
      BeginRectangle(texture);
      NextSlotArguments(modelCoordinates, textureCoordinates);
      ghost var before := heap[..];
      Gl.DrawRotate(heap, NextSlot(), modelCoordinates, alpha, textureCoordinates, cosv, sinv, viewX, viewY);
      Commit(before, Gl.DrawRotateQuad(Gl.ModelAt(before, modelCoordinates), alpha, Gl.TextureAt(before, textureCoordinates), cosv, sinv, viewX, viewY));
    }

    /** `drawScaleRotate` */
    method DrawScaleRotate(texture: TextureId, modelCoordinates: nat, alpha: real, textureCoordinates: nat, scale: real, cosv: real, sinv: real, viewX: real, viewY: real)
      requires Valid() && Ready() && Descriptor(modelCoordinates) && Descriptor(textureCoordinates)
      modifies this, heap
      ensures Valid() && Ready()
      ensures State() == Batching.Draw(old(State()), texture,
        Gl.DrawScaleRotateQuad(Gl.ModelAt(old(heap[..]), modelCoordinates), alpha, Gl.TextureAt(old(heap[..]), textureCoordinates), scale, cosv, sinv, viewX, viewY))
      ensures Configuration() == old(Configuration())
      ensures forall k :: 0 <= k < heap.Length && !(verticesPtr / 4 <= k < verticesPtr / 4 + StagingFloats) ==> heap[k] == old(heap[k])
    {
      BeginRectangle(texture);
      NextSlotArguments(modelCoordinates, textureCoordinates);
      ghost var before := heap[..];
      Gl.DrawScaleRotate(heap, NextSlot(), modelCoordinates, alpha, textureCoordinates, scale, cosv, sinv, viewX, viewY);
      Commit(before, Gl.DrawScaleRotateQuad(Gl.ModelAt(before, modelCoordinates), alpha, Gl.TextureAt(before, textureCoordinates), scale, cosv, sinv, viewX, viewY));
    }

    /** `prepareNativeDraw(texture)` */
    method PrepareNativeDraw(texture: TextureId)
      requires Valid()
      modifies this
      ensures Valid() && rectangleCount == 0
      ensures State() == Batching.PrepareNativeDraw(old(State()), texture)
      ensures Configuration() == old(Configuration())
    {
      Flush();
      currentTexture := Some(texture);
    }

    /** `drawNative(n)`: the C side has written n rectangles to the first slots. */
    method DrawNative(n: nat)
      requires Valid() && n <= RectangleCapacity && (n > 0 ==> Ready())
      modifies this`log, this`rectangleCount
      ensures Valid() && rectangleCount == 0
      ensures State() == Batching.DrawNative(old(State()), Slots(heap[..], verticesPtr, n))
      ensures Configuration() == old(Configuration())
    {
      rectangleCount := n;
      Flush();
    }

    /** `checkRecreate(canvas)`, with `contextLost` what `isContextLost()` answers. */
    predicate CheckRecreate(canvasWidth: int, canvasHeight: int, contextLost: bool)
      reads this`context, this`viewWidth, this`viewHeight
    {
      context.None? || contextLost || canvasWidth != viewWidth || canvasHeight != viewHeight
    }

    /**
     * `destroy(partial)`: issues the deletes for the objects held (only with a
     * context), then zeroes every field; `partial` keeps the staging buffer,
     * otherwise it is freed.
     */
    method Destroy(partial: bool)
      modifies this
      ensures ZeroedExceptVertices()
      ensures verticesPtr == (if partial then old(verticesPtr) else 0)
      ensures log == old(log) + DestroyCalls(old(Configuration()))
        + (if !partial && old(verticesPtr) != 0 then [FreeBuffer(old(verticesPtr))] else [])
      ensures old(Valid()) ==> Valid()
    {
      var savedVerticesPtr := verticesPtr;
      var calls := DestroyCalls(Configuration());
      log := log + calls;
      ZeroObject();
      if partial {
        verticesPtr := savedVerticesPtr;
      } else if savedVerticesPtr != 0 {
        log := log + [FreeBuffer(savedVerticesPtr)];
      }
    }

    /** `zeroObject(this)` */
    method ZeroObject()
      modifies this
      ensures ZeroedExceptVertices() && verticesPtr == 0 && log == old(log)
    {
      ZeroViews();
      ZeroObjects();
      ZeroBatch();
    }

    method ZeroViews()
      modifies this`viewWidth, this`viewHeight, this`framebufferTextureViewWidth, this`framebufferTextureViewHeight
      ensures viewWidth == 0 && viewHeight == 0 && framebufferTextureViewWidth == 0 && framebufferTextureViewHeight == 0
    {
      viewWidth, viewHeight := 0, 0;
      framebufferTextureViewWidth, framebufferTextureViewHeight := 0, 0;
    }

    method ZeroObjects()
      modifies this`program, this`vertexShader, this`fragmentShader, this`vertexBuffer, this`indexBuffer,
        this`framebuffer, this`framebufferTexture
      ensures program.None? && vertexShader.None? && fragmentShader.None? && vertexBuffer.None? && indexBuffer.None?
      ensures framebuffer.None? && framebufferTexture.None?
    {
      program, vertexShader, fragmentShader := None, None, None;
      vertexBuffer, indexBuffer := None, None;
      framebuffer, framebufferTexture := None, None;
    }

    method ZeroBatch()
      modifies this`currentTexture, this`rectangleCount, this`verticesPtr, this`context, this`contextVersion
      ensures currentTexture.None? && rectangleCount == 0 && verticesPtr == 0 && context.None? && contextVersion == 0
    {
      currentTexture := None;
      rectangleCount := 0;
      verticesPtr := 0;
      context, contextVersion := None, 0;
    }

    /** `useFramebuffer(use)`: bind the framebuffer (or the canvas) and set the view to its size. */
    method UseFramebuffer(use: bool)
      requires context.Some?
      modifies this`log
      ensures var width := if use then framebufferTextureViewWidth else viewWidth;
        var height := if use then framebufferTextureViewHeight else viewHeight;
        log == old(log) + [BindFramebuffer(if use then framebuffer else None), ViewConstants(width, height), Viewport(width, height)]
    {
      var width, height;
      if use {
        log := log + [BindFramebuffer(framebuffer)];
        width, height := framebufferTextureViewWidth, framebufferTextureViewHeight;
      } else {
        log := log + [BindFramebuffer(None)];
        width, height := viewWidth, viewHeight;
      }
      log := log + [ViewConstants(width, height), Viewport(width, height)];
    }

    /**
     * `checkForLostContextUseFrameBufferAndClear()`: false without a context;
     * false after a partial destroy when the context is lost; otherwise binds
     * the framebuffer, clears it and answers true.
     */
    method CheckForLostContextUseFrameBufferAndClear(contextLost: bool) returns (ok: bool)
      requires Valid()
      modifies this
      ensures ok <==> old(context).Some? && !contextLost
      ensures Valid()
      ensures old(context).None? ==> Configuration() == old(Configuration()) && log == old(log) && rectangleCount == old(rectangleCount)
      ensures old(context).Some? && contextLost ==>
        && ZeroedExceptVertices() && verticesPtr == old(verticesPtr)
        && log == old(log) + DestroyCalls(old(Configuration()))
      ensures ok ==>
        && Configuration() == old(Configuration()) && rectangleCount == old(rectangleCount)
        && log == old(log) + [BindFramebuffer(framebuffer), ViewConstants(framebufferTextureViewWidth, framebufferTextureViewHeight),
                              Viewport(framebufferTextureViewWidth, framebufferTextureViewHeight), Clear]
    {
      if context.None? {
        return false;
      }
      if contextLost {
        Destroy(true);
        return false;
      }
      UseFramebuffer(true);
      log := log + [Clear];
      return true;
    }

    /**
     * `allocateRectangleBuffers()`: allocates the staging buffer only when
     * there is none, then uploads the index table, sizes the vertex buffer and
     * uploads the whole staging buffer once.
     */
    method AllocateRectangleBuffers(allocation: nat)
      requires Valid() && context.Some?
      requires verticesPtr == 0 ==> allocation != 0 && StagingFits(allocation)
      modifies this`verticesPtr, this`log
      ensures verticesPtr == (if old(verticesPtr) == 0 then allocation else old(verticesPtr))
      ensures Valid() && Ready()
      ensures log == old(log) + [IndexBufferData(IndexTable(RectangleCapacity)), VertexBufferData(StagingFloats),
                                 BufferSubData(heap[verticesPtr / 4..verticesPtr / 4 + StagingFloats])]
    {
      if verticesPtr == 0 {
        verticesPtr := allocation;
      }
      var indices := BuildIndexTable();
      var start := verticesPtr / 4;
      log := log + [IndexBufferData(indices[..]), VertexBufferData(StagingFloats), BufferSubData(heap[start..start + StagingFloats])];
    }

    /** `h1` is `h0` except, perhaps, in the four floats from index `lo` on. */
    ghost predicate SameOutside(h0: seq<real>, h1: seq<real>, lo: nat) {
      |h1| == |h0| && lo + 4 <= |h0| && h1[..lo] == h0[..lo] && h1[lo + 4..] == h0[lo + 4..]
    }

    /** The framebuffer texture and view have the sizes `w` and `h`, and the descriptor at `ptr` holds its corners in the sprite sheet. */
    predicate FramebufferSized(w: FramebufferSize, h: FramebufferSize, ptr: nat)
      requires 0 <= w.textureCoordinate <= LevelTextureSize && 0 <= h.textureCoordinate <= LevelTextureSize
      reads this`framebufferTexture, this`framebufferTextureViewWidth, this`framebufferTextureViewHeight, heap
    {
      && framebufferTexture == Some(TextureSize(w.powerOfTwo, h.powerOfTwo))
      && framebufferTextureViewWidth == w.view && framebufferTextureViewHeight == h.view
      && ptr % 4 == 0 && ptr / 4 + 4 <= heap.Length
      && heap[ptr / 4..ptr / 4 + 4] == TextureCoords.PackedCorners(0, 0, w.textureCoordinate as nat, h.textureCoordinate as nat)
    }

    /** The three `getContext` attempts of `recreate`. */
    method AcquireContext(attempts: ContextAttempts)
      modifies this`context, this`contextVersion
      ensures context == FirstContext(attempts)
      ensures contextVersion == (if attempts.webgl2.Some? then 2 else 1)
    {
      if attempts.webgl2.Some? {
        context, contextVersion := attempts.webgl2, 2;
      } else if attempts.webgl.Some? {
        context, contextVersion := attempts.webgl, 1;
      } else {
        context, contextVersion := attempts.experimental, 1;
      }
    }

    /** The view size and the program, shaders and buffers of `recreate`. */
    method CreateObjects(canvasWidth: nat, canvasHeight: nat, objects: GLObjects)
      modifies this`viewWidth, this`viewHeight, this`program, this`vertexShader, this`fragmentShader,
        this`vertexBuffer, this`indexBuffer
      ensures viewWidth == canvasWidth && viewHeight == canvasHeight
      ensures program == Some(objects.program) && vertexShader == Some(objects.vertexShader)
      ensures fragmentShader == Some(objects.fragmentShader)
      ensures vertexBuffer == Some(objects.vertexBuffer) && indexBuffer == Some(objects.indexBuffer)
    {
      viewWidth, viewHeight := canvasWidth, canvasHeight;
      program, vertexShader, fragmentShader := Some(objects.program), Some(objects.vertexShader), Some(objects.fragmentShader);
      vertexBuffer, indexBuffer := Some(objects.vertexBuffer), Some(objects.indexBuffer);
    }

    /** The framebuffer texture, its coordinates and the framebuffer of `recreate`. */
    method CreateFramebuffer(w: FramebufferSize, h: FramebufferSize, framebufferCoordinates: TextureCoords.TextureCoordinates, handle: Handle)
      requires 0 <= w.textureCoordinate <= LevelTextureSize && 0 <= h.textureCoordinate <= LevelTextureSize
      requires framebufferCoordinates.ptr % 4 == 0 && framebufferCoordinates.ptr / 4 + 4 <= heap.Length
      modifies this`framebufferTextureViewWidth, this`framebufferTextureViewHeight, this`framebufferTexture,
        this`framebuffer, this`log, heap
      ensures FramebufferSized(w, h, framebufferCoordinates.ptr)
      ensures framebuffer == Some(handle) && log == old(log) + [BindFramebuffer(Some(handle))]
      ensures forall k :: 0 <= k < heap.Length && !(framebufferCoordinates.ptr / 4 <= k < framebufferCoordinates.ptr / 4 + 4) ==> heap[k] == old(heap[k])
      ensures SameOutside(old(heap[..]), heap[..], framebufferCoordinates.ptr / 4)
    {
      framebufferTextureViewWidth, framebufferTextureViewHeight := w.view, h.view;
      framebufferTexture := Some(TextureSize(w.powerOfTwo, h.powerOfTwo));
      framebufferCoordinates.SetCoordinates(heap, 0, 0, w.textureCoordinate as nat, h.textureCoordinate as nat);
      ghost var lo := framebufferCoordinates.ptr / 4;
      assert heap[..lo] == old(heap[..])[..lo];
      assert heap[lo + 4..] == old(heap[..])[lo + 4..];
      framebuffer := Some(handle);
      log := log + [BindFramebuffer(framebuffer)];
    }

    /**
     * `recreate(canvas, desiredFramebufferWidth, desiredFramebufferHeight)` on
     * the path where every GL call succeeds. Without any context it fails with
     * "WebGL apparently not supported" after the partial destroy. Otherwise
     * the view is the canvas, the staging buffer exists, the framebuffer
     * texture is the least power of two covering the desired size, its sprite
     * sheet coordinates are written, the canvas is bound and the viewport is
     * the canvas size; the heap changes only at the framebuffer coordinates.
     *
     * The framebuffer texture is the one line 314 evidently intends, of size
     * powerOfTwoWidth by powerOfTwoHeight (`Textures.CreateFramebufferTexture`).
     * As written, the call passes the sizes in the `mirrored` and `width`
     * places and leaves the height 0, so `bindImage` fails with "Invalid image
     * size" (`Textures.CreateFramebufferTextureAsWritten`).
     */
    method Recreate(canvasWidth: nat, canvasHeight: nat, desiredWidth: nat, desiredHeight: nat,
                    attempts: ContextAttempts, objects: GLObjects, allocation: nat,
                    framebufferCoordinates: TextureCoords.TextureCoordinates)
      returns (outcome: Outcome)
      requires Valid()
      requires 1 <= desiredWidth <= 0x4000_0000 && 1 <= desiredHeight <= 0x4000_0000
      requires verticesPtr == 0 ==> allocation != 0 && StagingFits(allocation)
      requires framebufferCoordinates.ptr % 4 == 0 && framebufferCoordinates.ptr / 4 + 4 <= heap.Length
      modifies this, heap
      ensures Valid()
      ensures outcome.Fail? <==> FirstContext(attempts).None?
      ensures outcome.Fail? ==> outcome.message == "WebGL apparently not supported" && context.None? && contextVersion == 1
      ensures outcome.Pass? ==>
        && context == FirstContext(attempts)
        && contextVersion == (if attempts.webgl2.Some? then 2 else 1)
        && Built(canvasWidth, canvasHeight, FramebufferSizing(desiredWidth), FramebufferSizing(desiredHeight), objects, framebufferCoordinates.ptr)
        && log == old(log) + DestroyCalls(old(Configuration()))
             + RebuildCalls(old(heap[..])[verticesPtr / 4..verticesPtr / 4 + StagingFloats], objects.framebuffer, canvasWidth, canvasHeight)
      ensures outcome.Fail? ==> log == old(log) + DestroyCalls(old(Configuration())) && unchanged(heap)
      ensures SameOutside(old(heap[..]), heap[..], framebufferCoordinates.ptr / 4)
    {
      Reacquire(attempts);
      if context.None? {
        return Fail("WebGL apparently not supported");
      }
      BuildAndBind(canvasWidth, canvasHeight, desiredWidth, desiredHeight, objects, allocation, framebufferCoordinates);
      return Pass;
    }

    /**
     * The GL calls of `recreate` between the context and `useFramebuffer(false)`
     * (lines 299-323): the uploads of `allocateRectangleBuffers`, with the
     * staging floats, then the framebuffer bound.
     */
    function BuildCalls(staging: seq<real>, framebuffer: Handle): seq<GLCall> {
      UploadCalls(staging) + [BindFramebuffer(Some(framebuffer))]
    }

    /**
     * The GL calls of `recreate` once it has a context: `BuildCalls`, then the
     * canvas bound with the view constants and viewport at the canvas size.
     */
    function RebuildCalls(staging: seq<real>, framebuffer: Handle, canvasWidth: nat, canvasHeight: nat): seq<GLCall> {
      BuildCalls(staging, framebuffer) + [BindFramebuffer(None), ViewConstants(canvasWidth, canvasHeight), Viewport(canvasWidth, canvasHeight)]
    }

    /** The uploads of `allocateRectangleBuffers`: the index table, the vertex buffer's size and the staging floats. */
    function UploadCalls(staging: seq<real>): seq<GLCall> {
      [IndexBufferData(IndexTable(RectangleCapacity)), VertexBufferData(StagingFloats), BufferSubData(staging)]
    }

    /** The state `recreate` builds once it has a context. */
    predicate Built(canvasWidth: nat, canvasHeight: nat, w: FramebufferSize, h: FramebufferSize, objects: GLObjects, ptr: nat)
      requires 0 <= w.textureCoordinate <= LevelTextureSize && 0 <= h.textureCoordinate <= LevelTextureSize
      reads this`rectangleCount, this`context, this`verticesPtr, this`currentTexture, this`viewWidth, this`viewHeight,
        this`framebufferTexture, this`framebufferTextureViewWidth, this`framebufferTextureViewHeight, this`framebuffer, heap
    {
      && Valid() && Ready() && rectangleCount == 0 && currentTexture.None?
      && !CheckRecreate(canvasWidth, canvasHeight, false)
      && FramebufferSized(w, h, ptr)
      && framebuffer == Some(objects.framebuffer)
    }

    /** The start of `recreate`: the partial destroy, then the three `getContext` attempts. */
    method Reacquire(attempts: ContextAttempts)
      requires Valid()
      modifies this
      ensures Valid() && rectangleCount == 0 && currentTexture.None? && verticesPtr == old(verticesPtr)
      ensures context == FirstContext(attempts) && contextVersion == (if attempts.webgl2.Some? then 2 else 1)
      ensures log == old(log) + DestroyCalls(old(Configuration())) && heap[..] == old(heap[..])
    {
      Destroy(true);
      AcquireContext(attempts);
    }

    /** The part of `recreate` from the program on: `Build`, then the canvas bound by `useFramebuffer(false)`. */
    method BuildAndBind(canvasWidth: nat, canvasHeight: nat, desiredWidth: nat, desiredHeight: nat,
                        objects: GLObjects, allocation: nat, framebufferCoordinates: TextureCoords.TextureCoordinates)
      requires Valid() && context.Some? && rectangleCount == 0 && currentTexture.None?
      requires 1 <= desiredWidth <= 0x4000_0000 && 1 <= desiredHeight <= 0x4000_0000
      requires verticesPtr == 0 ==> allocation != 0 && StagingFits(allocation)
      requires framebufferCoordinates.ptr % 4 == 0 && framebufferCoordinates.ptr / 4 + 4 <= heap.Length
      modifies this`viewWidth, this`viewHeight, this`program, this`vertexShader, this`fragmentShader,
        this`vertexBuffer, this`indexBuffer, this`verticesPtr, this`log, this`framebufferTextureViewWidth,
        this`framebufferTextureViewHeight, this`framebufferTexture, this`framebuffer, heap
      ensures Built(canvasWidth, canvasHeight, FramebufferSizing(desiredWidth), FramebufferSizing(desiredHeight), objects, framebufferCoordinates.ptr)
      ensures log == old(log) + RebuildCalls(old(heap[..])[verticesPtr / 4..verticesPtr / 4 + StagingFloats], objects.framebuffer, canvasWidth, canvasHeight)
      ensures SameOutside(old(heap[..]), heap[..], framebufferCoordinates.ptr / 4)
    {
      Build(canvasWidth, canvasHeight, desiredWidth, desiredHeight, objects, allocation, framebufferCoordinates);
      ghost var built := log;
      UseFramebuffer(false);
      assert log == built + [BindFramebuffer(None), ViewConstants(canvasWidth, canvasHeight), Viewport(canvasWidth, canvasHeight)];
    }

    /** The part of `recreate` from the program to the rectangle buffers. */
    method BuildBuffers(canvasWidth: nat, canvasHeight: nat, objects: GLObjects, allocation: nat)
      requires Valid() && context.Some? && rectangleCount == 0 && currentTexture.None?
      requires verticesPtr == 0 ==> allocation != 0 && StagingFits(allocation)
      modifies this`viewWidth, this`viewHeight, this`program, this`vertexShader, this`fragmentShader,
        this`vertexBuffer, this`indexBuffer, this`verticesPtr, this`log
      ensures Valid() && Ready() && !CheckRecreate(canvasWidth, canvasHeight, false)
      ensures verticesPtr == (if old(verticesPtr) == 0 then allocation else old(verticesPtr))
      ensures log == old(log) + UploadCalls(heap[verticesPtr / 4..verticesPtr / 4 + StagingFloats])
    {
      CreateObjects(canvasWidth, canvasHeight, objects);
      AllocateRectangleBuffers(allocation);
    }

    /** The part of `recreate` from the program to the framebuffer. */
    method Build(canvasWidth: nat, canvasHeight: nat, desiredWidth: nat, desiredHeight: nat,
                 objects: GLObjects, allocation: nat, framebufferCoordinates: TextureCoords.TextureCoordinates)
      requires Valid() && context.Some? && rectangleCount == 0 && currentTexture.None?
      requires 1 <= desiredWidth <= 0x4000_0000 && 1 <= desiredHeight <= 0x4000_0000
      requires verticesPtr == 0 ==> allocation != 0 && StagingFits(allocation)
      requires framebufferCoordinates.ptr % 4 == 0 && framebufferCoordinates.ptr / 4 + 4 <= heap.Length
      modifies this`viewWidth, this`viewHeight, this`program, this`vertexShader, this`fragmentShader,
        this`vertexBuffer, this`indexBuffer, this`verticesPtr, this`log, this`framebufferTextureViewWidth,
        this`framebufferTextureViewHeight, this`framebufferTexture, this`framebuffer, heap
      ensures Built(canvasWidth, canvasHeight, FramebufferSizing(desiredWidth), FramebufferSizing(desiredHeight), objects, framebufferCoordinates.ptr)
      ensures log == old(log) + BuildCalls(old(heap[..])[verticesPtr / 4..verticesPtr / 4 + StagingFloats], objects.framebuffer)
      ensures SameOutside(old(heap[..]), heap[..], framebufferCoordinates.ptr / 4)
      ensures viewWidth == canvasWidth && viewHeight == canvasHeight
    {
      BuildBuffers(canvasWidth, canvasHeight, objects, allocation);
      ghost var staging := heap[verticesPtr / 4..verticesPtr / 4 + StagingFloats];
      ghost var uploaded := log;
      var w := FramebufferSizing(desiredWidth);
      var h := FramebufferSizing(desiredHeight);
      assert Valid() && Ready() && !CheckRecreate(canvasWidth, canvasHeight, false);
      CreateFramebuffer(w, h, framebufferCoordinates, objects.framebuffer);
      assert log == old(log) + BuildCalls(staging, objects.framebuffer) by {
        assert log == uploaded + [BindFramebuffer(Some(objects.framebuffer))];
        assert old(log) + UploadCalls(staging) + [BindFramebuffer(Some(objects.framebuffer))]
          == old(log) + (UploadCalls(staging) + [BindFramebuffer(Some(objects.framebuffer))]);
      }
      assert Valid() && Ready() && !CheckRecreate(canvasWidth, canvasHeight, false);
      assert FramebufferSized(w, h, framebufferCoordinates.ptr);
    }
  }

  /**
   * After a successful `recreate` for a canvas, `checkRecreate` answers false
   * for exactly that canvas size and no lost context: any other size, or a
   * loss, asks for another `recreate`.
   */
  lemma RecreateSettlesCheck(gl: WebGL, canvasWidth: int, canvasHeight: int)
    requires gl.context.Some? && gl.viewWidth == canvasWidth && gl.viewHeight == canvasHeight
    ensures forall width, height, lost ::
      !gl.CheckRecreate(width, height, lost) <==> !lost && width == canvasWidth && height == canvasHeight
  {
  }
}
