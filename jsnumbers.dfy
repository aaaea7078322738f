/**
 * The JavaScript number coercions the game relies on, on exact reals.
 *
 * Double rounding is not modelled: a finite number is a `real`.
 */
module JsNumbers {

  const TwoTo31: int := 0x8000_0000
  const TwoTo32: int := 0x1_0000_0000

  /** A JavaScript number: finite, NaN or infinite. */
  datatype Number = Finite(value: real) | NaN | Infinity(positive: bool)

  /** `Math.floor` */
  function Floor(x: real): (n: int)
    ensures n as real <= x < n as real + 1.0
  {
    x.Floor
  }

  /** `Math.ceil` */
  function Ceil(x: real): (n: int)
    ensures n as real - 1.0 < x <= n as real
  {
    -((-x).Floor)
  }

  /** Rounds toward zero, as `parseInt` of a plain decimal and the integer part of `|0` do. */
  function Trunc(x: real): (n: int)
    ensures x >= 0.0 ==> n == Floor(x)
    ensures x < 0.0 ==> n == Ceil(x)
  {
    if x >= 0.0 then Floor(x) else Ceil(x)
  }

  /** Wraps an integer into the signed 32-bit range (ECMAScript ToInt32 after truncation). */
  function WrapInt32(n: int): (r: int)
    ensures -TwoTo31 <= r < TwoTo31
    ensures -TwoTo31 <= n < TwoTo31 ==> r == n
  {
    var m := n % TwoTo32;
    if m >= TwoTo31 then m - TwoTo32 else m
  }

  /** The wrapped integer differs from the original by a multiple of 2^32. */
  lemma WrapInt32Congruent(n: int)
    ensures (WrapInt32(n) - n) % TwoTo32 == 0
  {
    var m := n % TwoTo32;
    assert n == (n / TwoTo32) * TwoTo32 + m;
    if m >= TwoTo31 {
      assert WrapInt32(n) - n == (-(n / TwoTo32) - 1) * TwoTo32;
    } else {
      assert WrapInt32(n) - n == -(n / TwoTo32) * TwoTo32;
    }
  }

  /** ECMAScript ToInt32, what `x | 0` computes. NaN and the infinities give 0. */
  function ToInt32(x: Number): (r: int)
    ensures -TwoTo31 <= r < TwoTo31
  {
    match x
    case Finite(v) => WrapInt32(Trunc(v))
    case _ => 0
  }

  /** `v | 0` for a finite `v`. */
  function OrZero(v: real): (r: int)
    ensures -TwoTo31 as real < v < TwoTo31 as real ==> r == Trunc(v)
  {
    ToInt32(Finite(v))
  }

  /** JavaScript truthiness of a number: everything but 0 and NaN. */
  predicate Truthy(x: Number) {
    match x
    case Finite(v) => v != 0.0
    case NaN => false
    case Infinity(_) => true
  }

  /** `a % b` on integers with `b > 0`: the remainder takes the sign of `a`. */
  function Remainder(a: int, b: int): (r: int)
    requires b > 0
    ensures a >= 0 ==> r == a % b
    ensures a < 0 ==> -b < r <= 0
  {
    if a >= 0 then a % b else -((-a) % b)
  }

  /** `x / d` for a positive finite divisor: NaN and the infinities stay as they are. */
  function DivideBy(x: Number, d: real): (r: Number)
    requires d > 0.0
    ensures x.Finite? <==> r.Finite?
    ensures x.Finite? ==> r.value * d == x.value
  {
    match x
    case Finite(v) => Finite(v / d)
    case _ => x
  }
}
