/**
 * `parseInt(v)` with no radix (section 18.2.5 of ECMAScript 2015) on the
 * values a saved level can hold. A string loses its leading white space and
 * one sign; "0x" or "0X" then selects base 16; the longest run of digits of
 * the base that follows is the value, and NaN when there is none. A number is
 * first written out by `toString`, plainly when its magnitude lies in
 * [10^-6, 10^21) and in exponential form otherwise, so `parseInt` reads its
 * integer part in the first case and only its leading digit in the second.
 */
module ParseInts {
  import opened Wrappers
  import opened JsNumbers
  import opened Text

  /** The value of `c` as a digit of base `radix` (10 or 16), or None. */
  function RadixDigit(c: char, radix: nat): (r: Option<nat>)
    requires radix == 10 || radix == 16
    ensures r.Some? ==> r.value < radix
    ensures radix == 10 ==> (r.Some? <==> IsDigit(c))
    ensures radix == 10 && IsDigit(c) ==> r == Some(DigitValue(c))
  {
    if '0' <= c <= '9' then Some((c as int - '0' as int) as nat)
    else if radix == 16 && 'a' <= c <= 'f' then Some((c as int - 'a' as int + 10) as nat)
    else if radix == 16 && 'A' <= c <= 'F' then Some((c as int - 'A' as int + 10) as nat)
    else None
  }

  /** The run of base-`radix` digits `s` starts with, read one at a time, the most significant first, into `acc`. */
  function Accumulate(s: string, radix: nat, acc: nat): nat
    requires radix == 10 || radix == 16
  {
    if |s| == 0 || RadixDigit(s[0], radix).None? then acc
    else Accumulate(s[1..], radix, acc * radix + RadixDigit(s[0], radix).value)
  }

  /** Reading decimal digits and then more text is reading the digits first. */
  lemma {:induction false} AccumulateAppend(x: string, y: string, acc: nat)
    requires forall k :: 0 <= k < |x| ==> IsDigit(x[k])
    ensures Accumulate(x + y, 10, acc) == Accumulate(y, 10, Accumulate(x, 10, acc))
  {
    if |x| > 0 {
      assert (x + y)[0] == x[0] && (x + y)[1..] == x[1..] + y;
      AccumulateAppend(x[1..], y, acc * 10 + DigitValue(x[0]));
    } else {
      assert x + y == y;
    }
  }

  /** In base 10 the digits read as their decimal value. */
  lemma {:induction false} AccumulateDecimal(d: string)
    requires forall k :: 0 <= k < |d| ==> IsDigit(d[k])
    ensures Accumulate(d, 10, 0) == ParseDigits(d)
  {
    if |d| > 0 {
      var p := d[..|d| - 1];
      var c := d[|d| - 1];
      assert d == p + [c];
      AccumulateAppend(p, [c], 0);
      AccumulateDecimal(p);
      assert [c][1..] == [];
    }
  }

  /** A "0x" or "0X" prefix, which selects base 16. */
  predicate HexPrefixed(u: string) {
    |u| >= 2 && u[0] == '0' && (u[1] == 'x' || u[1] == 'X')
  }

  /** The value of the digits `u` starts with, in base 16 after "0x" or "0X" and in base 10 otherwise; None when there are none. */
  function ReadDigits(u: string): Option<nat> {
    if HexPrefixed(u) then ReadRun(u[2..], 16) else ReadRun(u, 10)
  }

  /** The value of the run of base-`radix` digits `s` starts with; None when it is empty. */
  function ReadRun(s: string, radix: nat): Option<nat>
    requires radix == 10 || radix == 16
  {
    if |s| == 0 || RadixDigit(s[0], radix).None? then None else Some(Accumulate(s, radix, 0))
  }

  /** `parseInt(s)` on a string, None where it gives NaN. */
  function ParseIntText(s: string): Option<int> {
    ParseSigned(s[TrimStartIndex(s)..])
  }

  /** `parseInt` after the leading white space: one optional sign, then the digits. */
  function ParseSigned(t: string): Option<int> {
    if |t| > 0 && t[0] == '-' then Negated(ReadDigits(t[1..]))
    else if |t| > 0 && t[0] == '+' then Unsigned(ReadDigits(t[1..]))
    else Unsigned(ReadDigits(t))
  }

  function Unsigned(d: Option<nat>): Option<int> {
    if d.None? then None else Some(d.value as int)
  }

  function Negated(d: Option<nat>): Option<int> {
    if d.None? then None else Some(-(d.value as int))
  }

  /** Decimal digits followed by anything that cannot continue them read as their value. */
  lemma ReadDecimal(digits: string, rest: string)
    requires |digits| > 0 && forall k :: 0 <= k < |digits| ==> IsDigit(digits[k])
    requires |rest| > 0 ==> !IsDigit(rest[0])
    requires |digits| == 1 && digits[0] == '0' && |rest| > 0 ==> rest[0] != 'x' && rest[0] != 'X'
    ensures ReadDigits(digits + rest) == Some(ParseDigits(digits))
  {
    var s := digits + rest;
    assert !HexPrefixed(s) by {
      if |digits| > 1 {
        assert s[1] == digits[1];
      }
    }
    assert s[0] == digits[0];
    AccumulateAppend(digits, rest, 0);
    AccumulateDecimal(digits);
  }

  /** Reading a string of decimal digits, followed by anything that cannot continue them, gives their value. */
  lemma ParseIntDecimal(digits: string, rest: string)
    requires |digits| > 0 && forall k :: 0 <= k < |digits| ==> IsDigit(digits[k])
    requires |rest| > 0 ==> !IsDigit(rest[0])
    requires |digits| == 1 && digits[0] == '0' && |rest| > 0 ==> rest[0] != 'x' && rest[0] != 'X'
    ensures ParseIntText(digits + rest) == Some(ParseDigits(digits) as int)
  {
    var s := digits + rest;
    assert s[0] == digits[0] && !IsWhiteSpace(s[0]);
    assert s[TrimStartIndex(s)..] == s;
    ReadDecimal(digits, rest);
  }

  /** After a minus sign `parseInt` reads the digits and negates them. */
  lemma MinusRead(s: string, v: nat)
    requires ReadDigits(s) == Some(v)
    ensures ParseIntText(['-'] + s) == Some(-(v as int))
  {
    var m := ['-'] + s;
    assert m[TrimStartIndex(m)..] == m && m[1..] == s;
  }

  /** `n.toString()` read back by `parseInt` is `n`, and so is its negation. */
  lemma ParseIntNat(n: nat)
    ensures ParseIntText(NatToString(n)) == Some(n as int)
    ensures ParseIntText(['-'] + NatToString(n)) == Some(-(n as int))
  {
    var s := NatToString(n);
    assert ReadDigits(s) == Some(n) by {
      assert s + "" == s;
      ReadDecimal(s, "");
      ParseNatToString(n);
    }
    assert ParseIntText(s) == Some(n as int) by {
      assert !IsWhiteSpace(s[0]) && s[TrimStartIndex(s)..] == s;
    }
    MinusRead(s, n);
  }

  /** Leading white space does not change what `parseInt` reads. */
  lemma ParseIntSkipsSpace(c: char, s: string)
    requires IsWhiteSpace(c)
    ensures ParseIntText([c] + s) == ParseIntText(s)
  {
    var t := [c] + s;
    assert t[1..] == s;
    assert t[TrimStartIndex(t)..] == s[TrimStartIndex(s)..];
  }

  /** Dividing by ten lowers the integer part of anything from ten up. */
  lemma FloorTenth(z: real)
    requires z >= 10.0
    ensures 0 <= (z / 10.0).Floor < z.Floor
  {
  }

  /** 10^e as a real. */
  function Pow10(e: nat): (p: real)
    ensures p >= 1.0
  {
    if e == 0 then 1.0 else 10.0 * Pow10(e - 1)
  }

  /** The leading digit d of `y >= 1` and its place e: d * 10^e <= y < (d + 1) * 10^e. */
  function LeadingDigit(y: real): (r: (int, nat))
    requires y >= 1.0
    ensures 1 <= r.0 <= 9
    ensures r.0 as real * Pow10(r.1) <= y < (r.0 + 1) as real * Pow10(r.1)
    decreases y.Floor
  {
    if y < 10.0 then (y.Floor, 0)
    else
      FloorTenth(y);
      var r := LeadingDigit(y / 10.0);
      assert Pow10(r.1 + 1) == 10.0 * Pow10(r.1);
      (r.0, r.1 + 1)
  }

  /** The leading digit d of `0 < y < 1` and the places e it lies below the point: d <= y * 10^e < d + 1. */
  function SmallLeadingDigit(y: real): (r: (int, nat))
    requires 0.0 < y < 1.0
    ensures 1 <= r.0 <= 9 && r.1 >= 1
    ensures r.0 as real <= y * Pow10(r.1) < (r.0 + 1) as real
    decreases (1.0 / y).Floor
  {
    if y * 10.0 >= 1.0 then
      assert Pow10(1) == 10.0;
      ((y * 10.0).Floor, 1)
    else
      assert 1.0 / y > 10.0;
      FloorTenth(1.0 / y);
      assert 1.0 / (y * 10.0) == (1.0 / y) / 10.0;
      var r := SmallLeadingDigit(y * 10.0);
      assert y * Pow10(r.1 + 1) == (y * 10.0) * Pow10(r.1);
      (r.0, r.1 + 1)
  }

  const PlainLow: real := 0.000001
  const PlainHigh: real := 1_000_000_000_000_000_000_000.0

  /** `x.toString()` writes `x` without an exponent: 0, and magnitudes in [10^-6, 10^21). */
  predicate PlainForm(x: real) {
    x == 0.0 || PlainLow <= Abs(x) < PlainHigh
  }

  function Abs(x: real): real {
    if x < 0.0 then -x else x
  }

  /** The leading digit of a non-zero magnitude, wherever it lies. */
  function FirstDigit(y: real): (d: int)
    requires y > 0.0
    ensures 1 <= d <= 9
  {
    if y >= 1.0 then LeadingDigit(y).0 else SmallLeadingDigit(y).0
  }

  /**
   * `parseInt(x)` for a finite number: the integer part of a plainly written
   * number, and the signed leading digit of one written with an exponent.
   */
  function ParseIntNumber(x: real): (r: int)
    ensures PlainForm(x) ==> r == Trunc(x)
    ensures !PlainForm(x) && x > 0.0 ==> r == FirstDigit(x)
    ensures !PlainForm(x) && x < 0.0 ==> r == -FirstDigit(-x)
  {
    if PlainForm(x) then Trunc(x)
    else if x > 0.0 then FirstDigit(x)
    else -FirstDigit(-x)
  }
}
