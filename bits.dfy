/**
 * Bitwise operators on non-negative integers.
 *
 * JavaScript and C apply `|`, `&`, `>>>` and `<<` to 32-bit integers. Every
 * place the game uses them, the operands are non-negative and below 2^31, so
 * the operators are defined here on `nat` by halving, and the facts the rest of
 * the model needs (masks are remainders, a disjoint `|` is an addition, the
 * bits of an `|`) are proved by induction.
 */
module Bits {

  function Pow2(k: nat): (p: nat)
    ensures p >= 1
  {
    if k == 0 then 1 else 2 * Pow2(k - 1)
  }

  /** The 32-bit range every operand of a bitwise operator in the game stays in. */
  predicate IsUint31(x: int) {
    0 <= x < 0x8000_0000
  }

  /** `a | b` */
  function Or(a: nat, b: nat): nat
    decreases a + b
  {
    if a == 0 then b
    else if b == 0 then a
    else 2 * Or(a / 2, b / 2) + (if a % 2 == 1 || b % 2 == 1 then 1 else 0)
  }

  /** `a & b` */
  function And(a: nat, b: nat): nat
    decreases a + b
  {
    if a == 0 || b == 0 then 0
    else 2 * And(a / 2, b / 2) + (if a % 2 == 1 && b % 2 == 1 then 1 else 0)
  }

  /** `a >>> k` (and `a >> k`, which agrees with it on non-negative values) */
  function Shr(a: nat, k: nat): nat
  {
    if k == 0 then a else Shr(a / 2, k - 1)
  }

  /** Bit `i` of `a` is set. */
  predicate Bit(a: nat, i: nat)
  {
    if i == 0 then a % 2 == 1 else Bit(a / 2, i - 1)
  }

  lemma {:induction false} OrHalf(a: nat, b: nat)
    ensures Or(a, b) / 2 == Or(a / 2, b / 2)
    ensures Or(a, b) % 2 == (if a % 2 == 1 || b % 2 == 1 then 1 else 0)
  {
    if a == 0 {
      assert Or(a / 2, b / 2) == b / 2;
    } else if b == 0 {
      assert Or(a / 2, b / 2) == a / 2;
    }
  }

  lemma {:induction false} AndHalf(a: nat, b: nat)
    ensures And(a, b) / 2 == And(a / 2, b / 2)
    ensures And(a, b) % 2 == (if a % 2 == 1 && b % 2 == 1 then 1 else 0)
  {
    if a == 0 {
      assert And(a / 2, b / 2) == 0;
    } else if b == 0 {
      assert And(a / 2, b / 2) == 0;
    }
  }

  /** A bit of `a | b` is set exactly when it is set in `a` or in `b`. */
  lemma {:induction false} OrBit(a: nat, b: nat, i: nat)
    ensures Bit(Or(a, b), i) <==> Bit(a, i) || Bit(b, i)
    decreases i
  {
    OrHalf(a, b);
    if i > 0 {
      OrBit(a / 2, b / 2, i - 1);
    }
  }

  /** A bit of `a & b` is set exactly when it is set in both. */
  lemma {:induction false} AndBit(a: nat, b: nat, i: nat)
    ensures Bit(And(a, b), i) <==> Bit(a, i) && Bit(b, i)
    decreases i
  {
    AndHalf(a, b);
    if i > 0 {
      AndBit(a / 2, b / 2, i - 1);
    }
  }

  /** Bit `i` of `a >>> k` is bit `i + k` of `a`. */
  lemma {:induction false} ShrBit(a: nat, k: nat, i: nat)
    ensures Bit(Shr(a, k), i) <==> Bit(a, i + k)
    decreases k
  {
    if k > 0 {
      ShrBit(a / 2, k - 1, i);
      BitSucc(a, i + k - 1);
    }
  }

  lemma BitSucc(a: nat, i: nat)
    ensures Bit(a, i + 1) <==> Bit(a / 2, i)
  {
  }

  /** Euclidean division is unique. */
  lemma DivUnique(a: int, n: int, q: int, r: int)
    requires n > 0 && a == n * q + r && 0 <= r < n
    ensures a / n == q && a % n == r
  {
    var d := a / n - q;
    assert n * d == r - a % n;
    if d != 0 {
      assert d >= 1 || d <= -1;
      NotSmall(n, d);
    }
  }

  lemma NotSmall(n: int, d: int)
    requires n > 0 && (d >= 1 || d <= -1)
    ensures n * d >= n || n * d <= -n
  {
  }

  /** Shifting right by k divides by 2^k: `a >>> k == a / 2^k`. */
  lemma {:induction false} ShrDiv(a: nat, k: nat)
    ensures Shr(a, k) == a / Pow2(k)
    decreases k
  {
    if k > 0 {
      ShrDiv(a / 2, k - 1);
      var h := Pow2(k - 1);
      var q, s := (a / 2) / h, (a / 2) % h;
      DivMod(a / 2, h);
      Recompose(a, h, q, s);
      DivUnique(a, 2 * h, q, 2 * s + a % 2);
    }
  }

  /** Masking with 2^k - 1 keeps the remainder by 2^k: `a & (2^k - 1) == a % 2^k`. */
  lemma {:induction false} AndLowMask(a: nat, k: nat)
    ensures And(a, Pow2(k) - 1) == a % Pow2(k)
    decreases k
  {
    var p := Pow2(k);
    if k == 0 {
      assert p == 1 && And(a, 0) == 0;
    } else if a == 0 {
      assert And(0, p - 1) == 0 && 0 % p == 0;
    } else {
      var h := Pow2(k - 1);
      assert p == 2 * h;
      assert And(a / 2, h - 1) == (a / 2) % h by {
        AndLowMask(a / 2, k - 1);
      }
      AndLowMaskStep(a, h, (a / 2) % h);
      assert And(a, p - 1) == a % p;
    }
  }

  /** The step of `AndLowMask`: from the mask of `a / 2` by h - 1 to that of `a` by 2h - 1. */
  lemma AndLowMaskStep(a: nat, h: nat, s: nat)
    requires h >= 1 && s == (a / 2) % h && And(a / 2, h - 1) == s
    ensures And(a, 2 * h - 1) == a % (2 * h)
  {
    var m := 2 * h - 1;
    assert m / 2 == h - 1 && m % 2 == 1;
    AndHalf(a, m);
    var x := And(a, m);
    assert x == 2 * s + a % 2;
    var q := (a / 2) / h;
    DivMod(a / 2, h);
    Recompose(a, h, q, s);
    DivUnique(a, 2 * h, q, 2 * s + a % 2);
  }

  lemma DivMod(n: nat, d: nat)
    requires d >= 1
    ensures n == d * (n / d) + n % d
  {
  }

  lemma Recompose(a: nat, h: nat, q: int, s: int)
    requires h >= 1 && a / 2 == h * q + s && 0 <= s < h
    ensures a == (2 * h) * q + (2 * s + a % 2) && 0 <= 2 * s + a % 2 < 2 * h
  {
    assert a == 2 * (a / 2) + a % 2;
  }

  /** A `|` whose operands have disjoint bits is an addition: `(a << k) | b == a * 2^k + b`. */
  lemma {:induction false} OrDisjoint(a: nat, k: nat, b: nat)
    requires b < Pow2(k)
    ensures Or(a * Pow2(k), b) == a * Pow2(k) + b
    decreases k
  {
    if k > 0 && a != 0 && b != 0 {
      var x := a * Pow2(k);
      assert x == 2 * (a * Pow2(k - 1));
      assert x / 2 == a * Pow2(k - 1) && x % 2 == 0;
      OrDisjoint(a, k - 1, b / 2);
      assert Or(x, b) == 2 * (a * Pow2(k - 1) + b / 2) + b % 2;
    } else if k == 0 {
      assert b == 0;
    }
  }

  /** A number below 2^t whose bits 0 .. t-1 are all set is 2^t - 1. */
  lemma {:induction false} AllOnes(y: nat, t: nat)
    requires y < Pow2(t)
    requires forall i: nat :: i < t ==> Bit(y, i)
    ensures y == Pow2(t) - 1
    decreases t
  {
    if t > 0 {
      assert Bit(y, 0);
      forall i: nat | i < t - 1
        ensures Bit(y / 2, i)
      {
        assert Bit(y, i + 1);
        BitSucc(y, i);
      }
      AllOnes(y / 2, t - 1);
    }
  }

  /** Both operands below 2^t keep `|` below 2^t. */
  lemma {:induction false} OrBound(a: nat, b: nat, t: nat)
    requires a < Pow2(t) && b < Pow2(t)
    ensures Or(a, b) < Pow2(t)
    decreases t
  {
    if t > 0 && a != 0 && b != 0 {
      OrBound(a / 2, b / 2, t - 1);
    }
  }

  /** The highest set bit: 2^k <= x < 2^(k+1). */
  function Log2(x: nat): (k: nat)
    requires x >= 1
    ensures Pow2(k) <= x < Pow2(k + 1)
  {
    if x == 1 then 0 else Log2(x / 2) + 1
  }

  /** Bit k of a number in [2^k, 2^(k+1)) is set. */
  lemma {:induction false} TopBit(x: nat, k: nat)
    requires Pow2(k) <= x < Pow2(k + 1)
    ensures Bit(x, k)
    decreases k
  {
    if k > 0 {
      TopBit(x / 2, k - 1);
      BitSucc(x, k - 1);
    }
  }

  /** A right shift never increases a value. */
  lemma {:induction false} ShrLe(a: nat, k: nat)
    ensures Shr(a, k) <= a
    decreases k
  {
    if k > 0 {
      ShrLe(a / 2, k - 1);
    }
  }

  /** Bit `i + j` of `a`, written so that quantifiers over `j` have a trigger. */
  predicate BitAt(a: nat, i: nat, j: nat) {
    Bit(a, i + j)
  }

  lemma {:induction false} ZeroBits(k: nat)
    ensures !Bit(0, k)
    decreases k
  {
    if k > 0 {
      ZeroBits(k - 1);
    }
  }

  lemma {:induction false} Pow2Le(b: nat, a: nat)
    requires b <= a
    ensures Pow2(b) <= Pow2(a)
    decreases a
  {
    if b < a {
      Pow2Le(b, a - 1);
    }
  }

  /** The powers of two the game's constants are written with. */
  lemma Pow2Values()
    ensures Pow2(1) == 2 && Pow2(4) == 16 && Pow2(8) == 256 && Pow2(9) == 512
    ensures Pow2(16) == 0x1_0000 && Pow2(22) == 0x40_0000 && Pow2(24) == 0x100_0000
    ensures Pow2(31) == 0x8000_0000
  {
    assert Pow2(2) == 4;
    assert Pow2(4) == 16;
    assert Pow2(6) == 64;
    assert Pow2(8) == 256;
    assert Pow2(9) == 512;
    assert Pow2(10) == 1024;
    assert Pow2(12) == 4096;
    assert Pow2(14) == 0x4000;
    assert Pow2(16) == 0x1_0000;
    assert Pow2(18) == 0x4_0000;
    assert Pow2(20) == 0x10_0000;
    assert Pow2(22) == 0x40_0000;
    assert Pow2(24) == 0x100_0000;
    assert Pow2(26) == 0x400_0000;
    assert Pow2(28) == 0x1000_0000;
    assert Pow2(30) == 0x4000_0000;
  }

  /** Masking with a single power of two tests that bit: `a & 2^k` is 2^k or 0. */
  lemma {:induction false} AndPow2(a: nat, k: nat)
    ensures And(a, Pow2(k)) == (if Bit(a, k) then Pow2(k) else 0)
    decreases k
  {
    if k == 0 {
      if a != 0 {
        assert And(a, 1) == 2 * And(a / 2, 0) + (if a % 2 == 1 then 1 else 0);
      }
    } else if a != 0 {
      AndPow2(a / 2, k - 1);
      AndHalf(a, Pow2(k));
      assert Pow2(k) / 2 == Pow2(k - 1) && Pow2(k) % 2 == 0;
      BitSucc(a, k - 1);
      var x := And(a, Pow2(k));
      assert x / 2 == And(a / 2, Pow2(k - 1));
      assert x % 2 == 0;
      assert x == 2 * (x / 2);
      assert Pow2(k) == 2 * Pow2(k - 1);
    } else {
      ZeroBits(k);
    }
  }

  /** Adding a multiple of 2^k leaves the bits below k unchanged. */
  lemma {:induction false} LowBitsOfSum(h: nat, m: nat, k: nat, i: nat)
    requires i < k
    ensures Bit(h + m * Pow2(k), i) <==> Bit(h, i)
    decreases i
  {
    var v := m * Pow2(k);
    assert v == 2 * (m * Pow2(k - 1));
    if i > 0 {
      assert (h + v) / 2 == h / 2 + m * Pow2(k - 1);
      LowBitsOfSum(h / 2, m, k - 1, i - 1);
    }
  }

  /** `y | (y >>> 2^(n-1))` applied for n = 1, 2, ...: every set bit is copied to the 2^n - 1 bits below it. */
  function SmearStep(x: nat, n: nat): nat {
    if n == 0 then x else var y := SmearStep(x, n - 1); Or(y, Shr(y, Pow2(n - 1)))
  }

  /** Bit i of the smear is set iff one of the bits i .. i + 2^n - 1 of x is. */
  lemma {:induction false} SmearBits(x: nat, n: nat, i: nat)
    ensures Bit(SmearStep(x, n), i) <==> exists j: nat :: j < Pow2(n) && BitAt(x, i, j)
    decreases n
  {
    if n == 0 {
      if Bit(x, i) { assert BitAt(x, i, 0); }
    } else {
      var y := SmearStep(x, n - 1);
      var h := Pow2(n - 1);
      OrBit(y, Shr(y, h), i);
      ShrBit(y, h, i);
      SmearBits(x, n - 1, i);
      SmearBits(x, n - 1, i + h);
      if Bit(SmearStep(x, n), i) {
        if Bit(y, i) {
          var j: nat :| j < h && BitAt(x, i, j);
          assert BitAt(x, i, j);
        } else {
          var j: nat :| j < h && BitAt(x, i + h, j);
          assert BitAt(x, i, h + j);
        }
      } else {
        forall j: nat | j < Pow2(n) ensures !BitAt(x, i, j) {
          if j < h {} else { assert BitAt(x, i, j) == BitAt(x, i + h, j - h); }
        }
      }
    }
  }

  lemma {:induction false} SmearBound(x: nat, n: nat, t: nat)
    requires x < Pow2(t)
    ensures SmearStep(x, n) < Pow2(t)
    decreases n
  {
    if n > 0 {
      SmearBound(x, n - 1, t);
      var y := SmearStep(x, n - 1);
      ShrLe(y, Pow2(n - 1));
      OrBound(y, Shr(y, Pow2(n - 1)), t);
    }
  }
}
