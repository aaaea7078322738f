/**
 * Buffer alignment of the C side (lib/memory.c) and the way the physics
 * level carves one allocation into sixteen-byte aligned regions
 * (lib/physics.c).
 *
 * Addresses are byte addresses in the 32-bit WebAssembly heap, so they are
 * non-negative and below 2^31.
 */
module Memory {
  import opened Bits

  const Alignment: nat := 16

  /** `alignBuffer(buffer, skipCount)`: skip `skipCount` bytes, then round up to a multiple of 16. */
  function AlignBuffer(buffer: nat, skipCount: nat): (r: nat)
    ensures r % Alignment == 0
    ensures buffer + skipCount <= r < buffer + skipCount + Alignment
    ensures (buffer + skipCount) % Alignment == 0 ==> r == buffer + skipCount
  {
    var b := buffer + skipCount;
    var low := And(b, 15);
    LowBitsAreRemainder(b);
    RoundsUp(b, low);
    if low != 0 then b + (16 - low) else b
  }

  /** Adding 16 minus the remainder mod 16 reaches the next multiple of 16. */
  lemma RoundsUp(b: nat, low: nat)
    requires low == b % 16
    ensures low != 0 ==> (b + (16 - low)) % 16 == 0 && b < b + (16 - low) < b + 16
    ensures low == 0 ==> b % 16 == 0
  {
    if low != 0 {
      assert b == 16 * (b / 16) + low;
      assert b + (16 - low) == 16 * (b / 16 + 1);
    }
  }

  lemma LowBitsAreRemainder(b: nat)
    ensures And(b, 15) == b % 16
  {
    Pow2Values();
    AndLowMask(b, 4);
  }

  function Sum(sizes: seq<nat>): nat {
    if |sizes| == 0 then 0 else Sum(sizes[..|sizes| - 1]) + sizes[|sizes| - 1]
  }

  /**
   * The region starts the physics code obtains from one buffer: the first is
   * `alignBuffer(buffer, 0)`, each next one is `alignBuffer(previous, size of
   * previous)`.
   */
  function Carve(buffer: nat, sizes: seq<nat>): (starts: seq<nat>)
    ensures |starts| == |sizes|
    decreases |sizes|
  {
    if |sizes| == 0 then []
    else if |sizes| == 1 then [AlignBuffer(buffer, 0)]
    else
      var previous := Carve(buffer, sizes[..|sizes| - 1]);
      previous + [AlignBuffer(previous[|previous| - 1], sizes[|sizes| - 2])]
  }

  /**
   * Every carved region is aligned, follows the previous one without overlap,
   * and the last one ends within `Sum(sizes) + 15 * |sizes|` bytes of the start:
   * each region costs at most fifteen bytes of padding.
   */
  lemma {:induction false} CarveLayout(buffer: nat, sizes: seq<nat>)
    requires |sizes| >= 1
    ensures var starts := Carve(buffer, sizes);
      && (forall k :: 0 <= k < |sizes| ==> starts[k] % Alignment == 0)
      && starts[0] >= buffer
      && (forall k :: 0 <= k < |sizes| - 1 ==> starts[k] + sizes[k] <= starts[k + 1])
      && starts[|sizes| - 1] + sizes[|sizes| - 1] <= buffer + Sum(sizes) + 15 * |sizes|
    decreases |sizes|
  {
    if |sizes| > 1 {
      var init := sizes[..|sizes| - 1];
      CarveLayout(buffer, init);
      var previous := Carve(buffer, init);
      assert Carve(buffer, sizes) == previous + [AlignBuffer(previous[|previous| - 1], sizes[|sizes| - 2])];
      assert init[|init| - 1] == sizes[|sizes| - 2];
      assert Sum(sizes) == Sum(init) + sizes[|sizes| - 1];
    }
  }

  /** Physics sizes on WebAssembly: pointers, `int` and `float` take 4 bytes, `cpFloat` 8. */
  const PointerSize: nat := 4
  const IntSize: nat := 4
  const FloatSize: nat := 4
  const CpFloatSize: nat := 8
  const FragmentsPerBall: nat := 64
  const VictoryFragmentCount: nat := 500

  /**
   * The fifteen regions of a physics level, in allocation order: the level
   * record, walls, the seven per-object arrays, fragment times, saved flags and
   * the four per-fragment arrays.
   */
  function LevelRegionSizes(levelSize: nat, wallCount: nat, objectCount: nat, ballCount: nat): (sizes: seq<nat>)
    ensures |sizes| == 15
  {
    var fragmentCount := ballCount * FragmentsPerBall + VictoryFragmentCount;
    [levelSize,
     PointerSize * wallCount,
     PointerSize * objectCount, PointerSize * objectCount,
     IntSize * objectCount, IntSize * objectCount, IntSize * objectCount,
     CpFloatSize * objectCount, CpFloatSize * objectCount,
     FloatSize * ballCount,
     IntSize * (ballCount + VictoryFragmentCount),
     FloatSize * fragmentCount, FloatSize * fragmentCount,
     FloatSize * fragmentCount, FloatSize * fragmentCount]
  }

  /** The size the physics code allocates: all regions plus 15 * 16 bytes of slack. */
  function LevelBufferSize(levelSize: nat, wallCount: nat, objectCount: nat, ballCount: nat): nat {
    Sum(LevelRegionSizes(levelSize, wallCount, objectCount, ballCount)) + 15 * 16
  }

  /** The fifteen carved regions are aligned, disjoint and inside the allocation. */
  lemma LevelBufferFits(buffer: nat, levelSize: nat, wallCount: nat, objectCount: nat, ballCount: nat)
    ensures var sizes := LevelRegionSizes(levelSize, wallCount, objectCount, ballCount);
      var starts := Carve(buffer, sizes);
      && (forall k :: 0 <= k < 15 ==> starts[k] % Alignment == 0 && buffer <= starts[k])
      && (forall k :: 0 <= k < 14 ==> starts[k] + sizes[k] <= starts[k + 1])
      && starts[14] + sizes[14] <= buffer + LevelBufferSize(levelSize, wallCount, objectCount, ballCount)
  {
    var sizes := LevelRegionSizes(levelSize, wallCount, objectCount, ballCount);
    CarveLayout(buffer, sizes);
    var starts := Carve(buffer, sizes);
    forall k | 0 <= k < 15
      ensures buffer <= starts[k]
    {
      StartsIncrease(starts, sizes, k);
    }
  }

  lemma {:induction false} StartsIncrease(starts: seq<nat>, sizes: seq<nat>, k: nat)
    requires |starts| == |sizes| && k < |starts| && |starts| >= 1
    requires forall j :: 0 <= j < |sizes| - 1 ==> starts[j] + sizes[j] <= starts[j + 1]
    ensures starts[0] <= starts[k]
    decreases k
  {
    if k > 0 {
      StartsIncrease(starts, sizes, k - 1);
    }
  }
}
