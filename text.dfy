/**
 * The string operations of the JavaScript host that the game relies on:
 * `String.prototype.trim`, `indexOf`, `lastIndexOf`, `endsWith`, and the
 * decimal form of a non-negative integer that `toString` and template
 * literals produce.
 */
module Text {

  /** The WhiteSpace and LineTerminator characters `trim` removes. */
  predicate IsWhiteSpace(c: char) {
    c == '\t' || c == '\n' || c == '\U{000B}' || c == '\U{000C}' || c == '\r' || c == ' '
    || c == '\U{00A0}' || c == '\U{1680}' || ('\U{2000}' <= c <= '\U{200A}')
    || c == '\U{2028}' || c == '\U{2029}' || c == '\U{202F}' || c == '\U{205F}'
    || c == '\U{3000}' || c == '\U{FEFF}'
  }

  predicate IsDigit(c: char) {
    '0' <= c <= '9'
  }

  /** Index of the first character that is not white space (|s| when there is none). */
  function TrimStartIndex(s: string): (i: nat)
    ensures i <= |s|
    ensures forall k :: 0 <= k < i ==> IsWhiteSpace(s[k])
    ensures i < |s| ==> !IsWhiteSpace(s[i])
  {
    if |s| == 0 || !IsWhiteSpace(s[0]) then 0 else 1 + TrimStartIndex(s[1..])
  }

  /** One past the last character that is not white space (0 when there is none). */
  function TrimEndIndex(s: string): (j: nat)
    ensures j <= |s|
    ensures forall k :: j <= k < |s| ==> IsWhiteSpace(s[k])
    ensures j > 0 ==> !IsWhiteSpace(s[j - 1])
  {
    if |s| == 0 || !IsWhiteSpace(s[|s| - 1]) then |s| else TrimEndIndex(s[..|s| - 1])
  }

  /** `s.trim()` */
  function Trim(s: string): (r: string)
    ensures |r| <= |s|
    ensures |r| > 0 ==> !IsWhiteSpace(r[0]) && !IsWhiteSpace(r[|r| - 1])
    ensures (forall k :: 0 <= k < |s| ==> IsWhiteSpace(s[k])) <==> r == []
  {
    var i := TrimStartIndex(s);
    var j := TrimEndIndex(s);
    if i < j then s[i..j] else []
  }

  /** Trimming twice is trimming once. */
  lemma TrimIdempotent(s: string)
    ensures Trim(Trim(s)) == Trim(s)
  {
    var r := Trim(s);
    if |r| > 0 {
      assert TrimStartIndex(r) == 0;
      assert TrimEndIndex(r) == |r|;
    }
  }

  /** `s.endsWith(suffix)` */
  predicate EndsWith(s: string, suffix: string) {
    |suffix| <= |s| && s[|s| - |suffix|..] == suffix
  }

  /** The characters of `pat` from the `k`-th on match `s` from index `i + k` on. */
  predicate MatchesFrom(s: string, pat: string, i: nat, k: nat)
    requires i + |pat| <= |s| && k <= |pat|
    decreases |pat| - k
  {
    k == |pat| || (s[i + k] == pat[k] && MatchesFrom(s, pat, i, k + 1))
  }

  /** `pat` occurs in `s` at index `i`, compared character by character. */
  predicate OccursAt(s: string, pat: string, i: int) {
    0 <= i && i + |pat| <= |s| && MatchesFrom(s, pat, i, 0)
  }

  /** The character comparison is the comparison of the slice at `i` with `pat`. */
  lemma OccursAtSlice(s: string, pat: string, i: nat)
    requires i + |pat| <= |s|
    ensures OccursAt(s, pat, i) <==> s[i..i + |pat|] == pat
  {
    MatchesAll(s, pat, i, 0);
    if s[i..i + |pat|] == pat {
      forall j | 0 <= j < |pat| ensures s[i + j] == pat[j] {
        assert s[i..i + |pat|][j] == s[i + j];
      }
    }
  }

  /** Matching from the `k`-th character is matching every character from it on. */
  lemma {:induction false} MatchesAll(s: string, pat: string, i: nat, k: nat)
    requires i + |pat| <= |s| && k <= |pat|
    ensures MatchesFrom(s, pat, i, k) <==> forall j :: k <= j < |pat| ==> s[i + j] == pat[j]
    decreases |pat| - k
  {
    if k < |pat| {
      MatchesAll(s, pat, i, k + 1);
    }
  }

  /** `s.indexOf(pat, from)`: the first occurrence at or after `from`, or -1. */
  function IndexOf(s: string, pat: string, from: nat): (r: int)
    ensures r == -1 || (from <= r && OccursAt(s, pat, r))
    decreases |s| - from
  {
    if from + |pat| > |s| then -1
    else if OccursAt(s, pat, from) then from
    else IndexOf(s, pat, from + 1)
  }

  /** `indexOf` finds the first occurrence: none lies between `from` and the result, and none at all when the result is -1. */
  lemma {:induction false} IndexOfNoneBefore(s: string, pat: string, from: nat, i: nat)
    requires from <= i && (IndexOf(s, pat, from) == -1 || i < IndexOf(s, pat, from))
    ensures !OccursAt(s, pat, i)
    decreases |s| - from
  {
    if from + |pat| <= |s| && !OccursAt(s, pat, from) && from < i {
      IndexOfNoneBefore(s, pat, from + 1, i);
    }
  }

  /** With no occurrence at or after `from`, `indexOf` gives -1. */
  lemma {:induction false} IndexOfAbsent(s: string, pat: string, from: nat)
    requires forall i :: from <= i ==> !OccursAt(s, pat, i)
    ensures IndexOf(s, pat, from) == -1
    decreases |s| - from
  {
    if from + |pat| <= |s| {
      assert !OccursAt(s, pat, from);
      IndexOfAbsent(s, pat, from + 1);
    }
  }

  /** A position where `pat` occurs, with no occurrence between `from` and it, is what `indexOf` finds. */
  lemma {:induction false} IndexOfFirst(s: string, pat: string, from: nat, p: nat)
    requires from <= p && OccursAt(s, pat, p)
    requires forall i :: from <= i < p ==> !OccursAt(s, pat, i)
    ensures IndexOf(s, pat, from) == p
    decreases p - from
  {
    if from < p {
      assert !OccursAt(s, pat, from);
      IndexOfFirst(s, pat, from + 1, p);
    }
  }

  /** `s.lastIndexOf(c)`: the last index holding `c`, or -1. */
  function LastIndexOf(s: string, c: char): (r: int)
    ensures -1 <= r < |s|
    ensures r >= 0 ==> s[r] == c
    ensures forall k :: r < k < |s| ==> s[k] != c
  {
    if |s| == 0 then -1
    else if s[|s| - 1] == c then |s| - 1
    else LastIndexOf(s[..|s| - 1], c)
  }

  function DigitChar(d: nat): (c: char)
    requires d < 10
    ensures IsDigit(c)
  {
    ['0', '1', '2', '3', '4', '5', '6', '7', '8', '9'][d]
  }

  function DigitValue(c: char): (d: nat)
    requires IsDigit(c)
    ensures d < 10
  {
    (c as int - '0' as int) as nat
  }

  lemma DigitRoundTrip(d: nat)
    requires d < 10
    ensures DigitValue(DigitChar(d)) == d
  {
  }

  /** The decimal digits of `n`, as `n.toString()` writes a non-negative integer. */
  function NatToString(n: nat): (s: string)
    ensures |s| >= 1
    ensures forall k :: 0 <= k < |s| ==> IsDigit(s[k])
    ensures |s| > 1 ==> s[0] != '0'
  {
    if n < 10 then [DigitChar(n)] else NatToString(n / 10) + [DigitChar(n % 10)]
  }

  /** `n.toString()` for any integer. */
  function IntToString(n: int): (s: string)
    ensures |s| >= 1
  {
    if n < 0 then "-" + NatToString(-n) else NatToString(n)
  }

  /** The number of decimal digits `s` starts with. */
  function DigitCount(s: string): (n: nat)
    ensures n <= |s|
    ensures forall k :: 0 <= k < n ==> IsDigit(s[k])
    ensures n < |s| ==> !IsDigit(s[n])
  {
    if |s| == 0 || !IsDigit(s[0]) then 0 else 1 + DigitCount(s[1..])
  }

  /** A string of digits is all leading digits. */
  lemma {:induction false} DigitCountAll(s: string)
    requires forall k :: 0 <= k < |s| ==> IsDigit(s[k])
    ensures DigitCount(s) == |s|
  {
    if |s| > 0 {
      DigitCountAll(s[1..]);
    }
  }

  /** Leading digits stop where the first non-digit follows them. */
  lemma {:induction false} DigitCountPrefix(s: string, t: string)
    requires forall k :: 0 <= k < |s| ==> IsDigit(s[k])
    requires |t| > 0 && !IsDigit(t[0])
    ensures DigitCount(s + t) == |s|
  {
    if |s| > 0 {
      assert (s + t)[1..] == s[1..] + t;
      DigitCountPrefix(s[1..], t);
    } else {
      assert s + t == t;
    }
  }

  /** The value of a string of decimal digits. */
  function ParseDigits(s: string): (n: nat)
    requires forall k :: 0 <= k < |s| ==> IsDigit(s[k])
  {
    if |s| == 0 then 0 else 10 * ParseDigits(s[..|s| - 1]) + DigitValue(s[|s| - 1])
  }

  /** Reading back the decimal form gives the number. */
  lemma {:induction false} ParseNatToString(n: nat)
    ensures ParseDigits(NatToString(n)) == n
  {
    if n < 10 {
      DigitRoundTrip(n);
    } else {
      var s := NatToString(n);
      assert s[..|s| - 1] == NatToString(n / 10);
      ParseNatToString(n / 10);
      DigitRoundTrip(n % 10);
    }
  }

  /** Distinct numbers have distinct decimal forms. */
  lemma NatToStringInjective(a: nat, b: nat)
    requires NatToString(a) == NatToString(b)
    ensures a == b
  {
    ParseNatToString(a);
    ParseNatToString(b);
  }

  /** A number below 10^k has at most k digits. */
  lemma {:induction false} NatToStringLength(n: nat, k: nat, p: nat)
    requires p == Pow10(k) && n < p
    ensures |NatToString(n)| <= k || (k == 0 && |NatToString(n)| == 1)
    decreases k
  {
    if n >= 10 && k > 0 {
      NatToStringLength(n / 10, k - 1, Pow10(k - 1));
    }
  }

  function Pow10(k: nat): nat {
    if k == 0 then 1 else 10 * Pow10(k - 1)
  }
}
