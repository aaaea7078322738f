/**
 * `TextureCoordinates` (scripts/gl/textureCoordinates.ts): the four packed
 * corners of a texel rectangle, written to `HEAPF32`, and their decoding in
 * the vertex shader (scripts/gl/webGL.ts).
 *
 * From the most significant bit down, a packed corner holds 8 bits of x, 8
 * bits of y and one bit that the draw functions fill with alpha in [0, 2).
 */
module TextureCoords {
  import opened Bits
  import opened JsNumbers
  import Gl

  /** `(x << 9) | (y << 1)`, for shifts that stay inside the 32-bit range (a shift by k multiplies by 2^k). */
  function Pack(x: nat, y: nat): nat
    requires IsUint31(x * 512) && IsUint31(y * 2)
  {
    Or(x * 512, y * 2)
  }

  /** The shifts of `setCoordinates` do not wrap around for these corners. */
  predicate NoWrap(right: nat, bottom: nat) {
    right * 512 < 0x8000_0000 && bottom * 2 < 0x8000_0000
  }

  /** The four packed corners left-top, left-bottom, right-top, right-bottom of a rectangle, as the heap holds them. */
  function PackedCorners(left: nat, top: nat, width: nat, height: nat): seq<real>
    requires NoWrap(left + width, top + height)
  {
    [Pack(left, top) as real, Pack(left, top + height) as real, Pack(left + width, top) as real, Pack(left + width, top + height) as real]
  }

  /** For a y below 256 the two fields do not overlap: the packed value is x * 512 + y * 2, an even number. */
  lemma PackIsSum(x: nat, y: nat)
    requires y < 256 && IsUint31(x * 512)
    ensures IsUint31(y * 2)
    ensures Pack(x, y) == x * 512 + y * 2
    ensures Pack(x, y) % 2 == 0
  {
    Pow2Values();
    OrDisjoint(x, 9, y * 2);
  }

  /** GLSL `mod(a, b)`: `a - b * floor(a / b)`. */
  function GlslMod(a: real, b: real): real
    requires b > 0.0
  {
    a - b * Floor(a / b) as real
  }

  /** What the vertex shader reads from `aAlphaTextureCoordinates`: texel x, texel y and alpha. */
  datatype Decoded = Decoded(x: int, y: int, alpha: real)

  /** `floor(v * 0.001953125)`, `floor(mod(v * 0.5, 256.0))` and `mod(v, 2.0)`. */
  function Decode(v: real): Decoded {
    Decoded(Floor(v * 0.001953125), Floor(GlslMod(v * 0.5, 256.0)), GlslMod(v, 2.0))
  }

  lemma FloorIs(r: real, n: int)
    requires n as real <= r < n as real + 1.0
    ensures Floor(r) == n
  {
  }

  /**
   * Decoding a packed corner plus an alpha in [0, 2) gives back the corner and
   * the alpha: the low bit and the fraction are reserved for alpha.
   */
  lemma DecodePacked(x: nat, y: nat, alpha: real)
    requires y < 256 && IsUint31(x * 512)
    requires 0.0 <= alpha < 2.0
    ensures IsUint31(y * 2)
    ensures Decode(Pack(x, y) as real + alpha) == Decoded(x, y, alpha)
  {
    PackIsSum(x, y);
    var v := Pack(x, y) as real + alpha;
    assert v == 512.0 * x as real + 2.0 * y as real + alpha;
    FloorIs(v * 0.001953125, x);
    var half := v * 0.5;
    assert half == 256.0 * x as real + y as real + alpha / 2.0;
    FloorIs(half / 256.0, x);
    assert GlslMod(half, 256.0) == y as real + alpha / 2.0;
    FloorIs(GlslMod(half, 256.0), y);
    FloorIs(v / 2.0, 256 * x + y);
  }

  /** `TextureCoordinates`: a descriptor of four floats at byte address `ptr`. */
  class TextureCoordinates {
    const ptr: nat

    constructor(ptr: nat)
      ensures this.ptr == ptr
    {
      this.ptr := ptr;
    }

    /**
     * `setCoordinates(left, top, width, height)`: writes the packed corners
     * left-top, left-bottom, right-top, right-bottom, the field order of
     * `GLTextureCoordinates` in lib/gl.c, and nothing else.
     */
    method SetCoordinates(heap: array<real>, left: nat, top: nat, width: nat, height: nat)
      requires ptr % 4 == 0 && ptr / 4 + 4 <= heap.Length
      requires NoWrap(left + width, top + height)
      modifies heap
      ensures heap[ptr / 4..ptr / 4 + 4] == PackedCorners(left, top, width, height)
      ensures forall k :: 0 <= k < heap.Length && !(ptr / 4 <= k < ptr / 4 + 4) ==> heap[k] == old(heap[k])
    {
      var i := ptr / 4;
      var right, bottom := left + width, top + height;
      heap[i] := Pack(left, top) as real;
      heap[i + 1] := Pack(left, bottom) as real;
      heap[i + 2] := Pack(right, top) as real;
      heap[i + 3] := Pack(right, bottom) as real;
    }
  }

  /**
   * The shader recovers each corner that `SetCoordinates` writes for a
   * rectangle whose right and bottom edges are below 256, whatever alpha in
   * [0, 2) a draw adds.
   */
  lemma CornersDecode(left: nat, top: nat, width: nat, height: nat, alpha: real)
    requires left + width < 256 && top + height < 256
    requires 0.0 <= alpha < 2.0
    ensures NoWrap(left + width, top + height)
    ensures var c := PackedCorners(left, top, width, height);
      && Decode(c[0] + alpha) == Decoded(left, top, alpha)
      && Decode(c[1] + alpha) == Decoded(left, top + height, alpha)
      && Decode(c[2] + alpha) == Decoded(left + width, top, alpha)
      && Decode(c[3] + alpha) == Decoded(left + width, top + height, alpha)
  {
    var c := PackedCorners(left, top, width, height);
    PackIsSum(left, top);
    PackIsSum(left, top + height);
    PackIsSum(left + width, top);
    PackIsSum(left + width, top + height);
    DecodeCorner(c[0], left, top, alpha);
    DecodeCorner(c[1], left, top + height, alpha);
    DecodeCorner(c[2], left + width, top, alpha);
    DecodeCorner(c[3], left + width, top + height, alpha);
  }

  /** `DecodePacked` for a corner read back as the float `v`. */
  lemma DecodeCorner(v: real, x: nat, y: nat, alpha: real)
    requires y < 256 && IsUint31(x * 512) && 0.0 <= alpha < 2.0
    requires v == (x * 512 + y * 2) as real
    ensures Decode(v + alpha) == Decoded(x, y, alpha)
  {
    DecodePacked(x, y, alpha);
    PackIsSum(x, y);
  }
}
