/**
 * The text of a best time in scripts/level/levelCache.ts
 * (`formatLevelRecordTime`, lines 459-468).
 */
module LevelCacheTimes {
  import opened JsNumbers
  import opened Text
  import MainHelpers

  /** The largest centisecond count a record shows (lines 464-465). */
  const MaxCentiseconds: int := 99999

  /** `!milliseconds || milliseconds < 0` (line 460): no time (undefined, null and NaN alike), zero or negative. */
  predicate NoTime(ms: Number) {
    !Truthy(ms) || (ms.Finite? && ms.value < 0.0) || ms == Infinity(false)
  }

  /** The text of line 467 for `cs` centiseconds: whole seconds, the separator, two digits of hundredths and " s". */
  function TimeText(cs: int, separator: string): string {
    IntToString(ToInt32(Finite(cs as real / 100.0))) + separator + MainHelpers.Format2(Remainder(cs, 100)) + " s"
  }

  /** Lines 463-465 as written: `(milliseconds / 10) | 0`, which wraps past 2^31, then capped at 99999. */
  function CentisecondsAsWritten(ms: Number): int {
    var cs := ToInt32(DivideBy(ms, 10.0));
    if cs > MaxCentiseconds then MaxCentiseconds else cs
  }

  /** `formatLevelRecordTime` as written (lines 459-468). */
  function FormatLevelRecordTimeAsWritten(ms: Number, separator: string): string {
    if NoTime(ms) then "-" else TimeText(CentisecondsAsWritten(ms), separator)
  }

  /**
   * As written, a time of 2^31 * 10 ms wraps to a negative centisecond count
   * and prints a negative number of seconds instead of the 999.99 s cap.
   */
  lemma AsWrittenWrapsToNegative(separator: string)
    ensures !NoTime(Finite(21474836480.0))
    ensures FormatLevelRecordTimeAsWritten(Finite(21474836480.0), separator)[0] == '-'
    ensures FormatLevelRecordTimeAsWritten(Finite(21474836480.0), separator) != "-"
  {
    assert DivideBy(Finite(21474836480.0), 10.0) == Finite(2147483648.0);
    assert Trunc(2147483648.0) == 2147483648;
    assert ToInt32(Finite(2147483648.0)) == -2147483648;
    var cs := CentisecondsAsWritten(Finite(21474836480.0));
    assert cs == -2147483648;
    assert Trunc(cs as real / 100.0) == -21474836;
    assert ToInt32(Finite(cs as real / 100.0)) == -21474836;
  }

  /** The centiseconds of a time, capped at 99999 before any conversion to a 32-bit integer. */
  function Centiseconds(ms: Number): (cs: int)
    requires !NoTime(ms)
    ensures 0 <= cs <= MaxCentiseconds
    ensures ms.Finite? && ms.value < 999990.0 ==> cs == Floor(ms.value / 10.0)
    ensures ms.Finite? && ms.value >= 999990.0 ==> cs == MaxCentiseconds
  {
    match ms
    case Finite(v) => if v / 10.0 >= MaxCentiseconds as real then MaxCentiseconds else Floor(v / 10.0)
    case _ => MaxCentiseconds
  }

  /**
   * `formatLevelRecordTime` with the cap applied before the conversion:
   * "-" for no time, otherwise the centiseconds written as seconds.
   */
  function FormatLevelRecordTime(ms: Number, separator: string): (r: string)
    ensures NoTime(ms) <==> r == "-"
    ensures |r| > 0 && (!NoTime(ms) ==> IsDigit(r[0]))
    ensures !NoTime(ms) ==> r == TimeText(Centiseconds(ms), separator)
  {
    if NoTime(ms) then "-"
    else
      var cs := Centiseconds(ms);
      TimeTextParts(cs, separator);
      DigitsText(cs, separator)
  }

  /** The text of `cs` centiseconds in integer arithmetic: whole seconds, the separator, two digits of hundredths and " s". */
  function DigitsText(cs: nat, separator: string): (r: string)
    ensures |r| > 0 && IsDigit(r[0])
  {
    NatToString(cs / 100) + separator + MainHelpers.Format2(cs % 100) + " s"
  }

  /**
   * For 0 to 99999 centiseconds the text of line 467 is the integer one:
   * the seconds do not wrap around and the remainder is not negative.
   */
  lemma TimeTextParts(cs: int, separator: string)
    requires 0 <= cs <= MaxCentiseconds
    ensures TimeText(cs, separator) == DigitsText(cs, separator)
  {
    var w := ToInt32(Finite(cs as real / 100.0));
    assert w == cs / 100 by {
      WholeSeconds(cs);
    }
    assert Remainder(cs, 100) == cs % 100;
    assert TimeText(cs, separator) == IntToString(w) + separator + MainHelpers.Format2(cs % 100) + " s";
  }

  /** `(centiseconds / 100) | 0` is the whole seconds for a count from 0 to 99999. */
  lemma WholeSeconds(cs: int)
    requires 0 <= cs <= MaxCentiseconds
    ensures ToInt32(Finite(cs as real / 100.0)) == cs / 100
  {
    var q := cs / 100;
    assert (q * 100) as real <= cs as real < (q * 100 + 100) as real;
    assert Floor(cs as real / 100.0) == q;
    assert Trunc(cs as real / 100.0) == q;
  }

  /** Below 2^31 * 10 ms the corrected text and the text as written agree. */
  lemma FormatAgreesBelowWrap(ms: Number, separator: string)
    requires ms.Finite? && ms.value < 21474836480.0
    ensures FormatLevelRecordTime(ms, separator) == FormatLevelRecordTimeAsWritten(ms, separator)
  {
    if !NoTime(ms) {
      var v := ms.value;
      assert CentisecondsAsWritten(ms) == Centiseconds(ms) by {
        assert DivideBy(ms, 10.0) == Finite(v / 10.0);
        assert Trunc(v / 10.0) == Floor(v / 10.0);
        assert ToInt32(DivideBy(ms, 10.0)) == Floor(v / 10.0);
      }
    }
  }

  /** Every time from 999.99 s up shows the cap, "999.99 s". */
  lemma FormatMaximum(ms: Number, separator: string)
    requires ms.Finite? && ms.value >= 999990.0
    ensures FormatLevelRecordTime(ms, separator) == "999" + separator + "99 s"
  {
    assert Centiseconds(ms) == MaxCentiseconds;
    assert FormatLevelRecordTime(ms, separator) == DigitsText(MaxCentiseconds, separator);
    MaximumText(separator);
  }

  /** 99999 centiseconds read "999", the separator and "99 s". */
  lemma MaximumText(separator: string)
    ensures DigitsText(MaxCentiseconds, separator) == "999" + separator + "99 s"
  {
    assert DigitsText(MaxCentiseconds, separator) == NatToString(999) + separator + MainHelpers.Format2(99) + " s" by {
      assert MaxCentiseconds / 100 == 999 && MaxCentiseconds % 100 == 99;
    }
    assert NatToString(99) == "99" by {
      assert NatToString(9) == "9";
      assert NatToString(99) == NatToString(9) + [DigitChar(9)];
    }
    assert NatToString(999) == "999" by {
      assert NatToString(999) == NatToString(99) + [DigitChar(9)];
    }
    assert MainHelpers.Format2(99) == "99" by {
      assert IntToString(99) == NatToString(99);
    }
  }

  /** Two centisecond counts from 0 to 99999 show the same text exactly when they are equal. */
  lemma {:induction false} DigitsTextInjective(ca: nat, cb: nat, separator: string)
    requires ca <= MaxCentiseconds && cb <= MaxCentiseconds
    ensures DigitsText(ca, separator) == DigitsText(cb, separator) <==> ca == cb
  {
    var ta, tb := DigitsText(ca, separator), DigitsText(cb, separator);
    if ta == tb {
      var fa, fb := MainHelpers.Format2(ca % 100), MainHelpers.Format2(cb % 100);
      var sa, sb := NatToString(ca / 100), NatToString(cb / 100);
      assert |fa| == 2 && ParseDigits(fa) == ca % 100 by {
        MainHelpers.Format2TwoDigits(ca % 100);
      }
      assert |fb| == 2 && ParseDigits(fb) == cb % 100 by {
        MainHelpers.Format2TwoDigits(cb % 100);
      }
      assert ta == (sa + separator) + (fa + " s");
      assert tb == (sb + separator) + (fb + " s");
      assert ca / 100 == cb / 100 by {
        assert |sa| == |sb|;
        assert sa == ta[..|sa|] && sb == tb[..|sb|];
        NatToStringInjective(ca / 100, cb / 100);
      }
      assert fa == fb by {
        assert fa == ta[|ta| - 4..|ta| - 2] && fb == tb[|tb| - 4..|tb| - 2];
      }
    }
  }

  /** Two times show the same text exactly when they have the same (capped) centiseconds. */
  lemma FormatIdentifiesCentiseconds(a: Number, b: Number, separator: string)
    requires !NoTime(a) && !NoTime(b)
    ensures FormatLevelRecordTime(a, separator) == FormatLevelRecordTime(b, separator) <==> Centiseconds(a) == Centiseconds(b)
  {
    DigitsTextInjective(Centiseconds(a), Centiseconds(b), separator);
  }
}
