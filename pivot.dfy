/**
 * Pivot alignment flags (scripts/gl/pivot.ts): which point of a width or a
 * height a sprite is anchored at.
 */
module Pivot {
  import opened Bits
  import opened Wrappers
  import Text

  const HorizontalLeft: nat := 1
  const HorizontalCenter: nat := 2
  const HorizontalRight: nat := 4
  const VerticalTop: nat := 8
  const VerticalCenter: nat := 16
  const VerticalBottom: nat := 32

  function InvalidAlignment(alignment: nat): string {
    "Invalid alignment: " + Text.NatToString(alignment)
  }

  /**
   * `Pivot.pivotX`: left gives 0, center half the width (rounded down, as `>> 1`
   * does), right the width; the first flag set wins, and no horizontal flag
   * throws.
   */
  function PivotX(alignment: nat, width: int): (r: Result<int>)
    ensures r.Failure? <==> !Bit(alignment, 0) && !Bit(alignment, 1) && !Bit(alignment, 2)
    ensures r.Failure? ==> r.message == InvalidAlignment(alignment)
    ensures Bit(alignment, 0) ==> r == Success(0)
    ensures !Bit(alignment, 0) && Bit(alignment, 1) ==> r == Success(width / 2)
    ensures !Bit(alignment, 0) && !Bit(alignment, 1) && Bit(alignment, 2) ==> r == Success(width)
  {
    AndPow2(alignment, 0);
    AndPow2(alignment, 1);
    AndPow2(alignment, 2);
    if And(alignment, HorizontalLeft) != 0 then Success(0)
    else if And(alignment, HorizontalCenter) != 0 then Success(width / 2)
    else if And(alignment, HorizontalRight) != 0 then Success(width)
    else Failure(InvalidAlignment(alignment))
  }

  /** `Pivot.pivotY`: the same rule over the vertical flags (bits 3 to 5). */
  function PivotY(alignment: nat, height: int): (r: Result<int>)
    ensures r.Failure? <==> !Bit(alignment, 3) && !Bit(alignment, 4) && !Bit(alignment, 5)
    ensures r.Failure? ==> r.message == InvalidAlignment(alignment)
    ensures Bit(alignment, 3) ==> r == Success(0)
    ensures !Bit(alignment, 3) && Bit(alignment, 4) ==> r == Success(height / 2)
    ensures !Bit(alignment, 3) && !Bit(alignment, 4) && Bit(alignment, 5) ==> r == Success(height)
  {
    AndPow2(alignment, 3);
    AndPow2(alignment, 4);
    AndPow2(alignment, 5);
    Pow2Values();
    assert Pow2(3) == 8 && Pow2(5) == 32;
    if And(alignment, VerticalTop) != 0 then Success(0)
    else if And(alignment, VerticalCenter) != 0 then Success(height / 2)
    else if And(alignment, VerticalBottom) != 0 then Success(height)
    else Failure(InvalidAlignment(alignment))
  }

  /** A pivot that exists lies on the sprite: between 0 and its (non-negative) size. */
  lemma PivotWithinSize(alignment: nat, size: nat)
    ensures PivotX(alignment, size).Success? ==> 0 <= PivotX(alignment, size).value <= size
    ensures PivotY(alignment, size).Success? ==> 0 <= PivotY(alignment, size).value <= size
  {
  }

  /**
   * The axes are independent: adding vertical flags (any multiple of 8) to a
   * horizontal alignment does not change the horizontal pivot, and adding
   * horizontal flags (below 8) to a vertical alignment does not change the
   * vertical pivot.
   */
  lemma {:induction false} AxesIndependent(horizontal: nat, vertical: nat, width: int, height: int)
    requires horizontal < 8
    ensures PivotX(horizontal + vertical * 8, width).Success? == PivotX(horizontal, width).Success?
    ensures PivotX(horizontal + vertical * 8, width).Success? ==>
      PivotX(horizontal + vertical * 8, width).value == PivotX(horizontal, width).value
    ensures PivotY(horizontal + vertical * 8, height).Success? == PivotY(vertical * 8, height).Success?
    ensures PivotY(horizontal + vertical * 8, height).Success? ==>
      PivotY(horizontal + vertical * 8, height).value == PivotY(vertical * 8, height).value
  {
    Pow2Values();
    assert Pow2(3) == 8;
    LowBitsOfSum(horizontal, vertical, 3, 0);
    LowBitsOfSum(horizontal, vertical, 3, 1);
    LowBitsOfSum(horizontal, vertical, 3, 2);
    forall i: nat | 3 <= i <= 5
      ensures Bit(horizontal + vertical * 8, i) <==> Bit(vertical * 8, i)
    {
      HighBitsOfSum(horizontal, vertical, 3, i);
    }
  }

  /** Adding a number below 2^k to a multiple of 2^k leaves the bits from k up unchanged. */
  lemma {:induction false} HighBitsOfSum(h: nat, m: nat, k: nat, i: nat)
    requires h < Pow2(k) && k <= i
    ensures Bit(h + m * Pow2(k), i) <==> Bit(m * Pow2(k), i)
    decreases k
  {
    if k > 0 {
      var v := m * Pow2(k);
      assert v == 2 * (m * Pow2(k - 1));
      assert (h + v) / 2 == h / 2 + m * Pow2(k - 1);
      assert v / 2 == m * Pow2(k - 1);
      HighBitsOfSum(h / 2, m, k - 1, i - 1);
      BitSucc(h + v, i - 1);
      BitSucc(v, i - 1);
    }
  }
}
