/**
 * The names scripts/level/levelCache.ts accepts for saved levels
 * (`isNameValid`, lines 90-93).
 */
module LevelCacheNames {
  import opened Wrappers
  import opened Text

  /** `LevelInfoExtension` (line 54). */
  const LevelInfoExtension: string := ".levelinfo"

  /** `(name || "").trim()`: null and undefined become the empty string. */
  function Trimmed(name: Option<string>): string {
    match name
    case None => ""
    case Some(s) => Trim(s)
  }

  /** `/^\.+$/`: dots only. */
  predicate AllDots(s: string) {
    |s| > 0 && forall k :: 0 <= k < |s| ==> s[k] == '.'
  }

  /** The characters of `/[\\\/\?\*\:\<\>\%]/`. */
  predicate IsReserved(c: char) {
    c == '\\' || c == '/' || c == '?' || c == '*' || c == ':' || c == '<' || c == '>' || c == '%'
  }

  predicate HasReserved(s: string) {
    exists k :: 0 <= k < |s| && IsReserved(s[k])
  }

  /** `/^\d+$/`: decimal digits only. */
  predicate AllDigits(s: string) {
    |s| > 0 && forall k :: 0 <= k < |s| ==> IsDigit(s[k])
  }

  /**
   * `isNameValid` (lines 90-93): the trimmed name is not empty, does not end
   * in ".levelinfo", is not dots only, has no reserved character and is
   * not a decimal number.
   */
  function IsNameValid(name: Option<string>): (r: bool)
    ensures r ==> name.Some? && exists k :: 0 <= k < |name.value| && !IsWhiteSpace(name.value[k])
    ensures r ==> forall k :: 0 <= k < |Trimmed(name)| ==> !IsReserved(Trimmed(name)[k])
    ensures r ==> !EndsWith(Trimmed(name), LevelInfoExtension) && !AllDigits(Trimmed(name)) && !AllDots(Trimmed(name))
  {
    var t := Trimmed(name);
    |t| > 0 && !EndsWith(t, LevelInfoExtension) && !AllDots(t) && !HasReserved(t) && !AllDigits(t)
  }

  /** Whether a name is accepted depends only on its trimmed form. */
  lemma NameValidityIgnoresPadding(s: string)
    ensures IsNameValid(Some(s)) == IsNameValid(Some(Trim(s)))
  {
    TrimIdempotent(s);
  }

  /** The key of a level's information entry is never itself a valid level name. */
  lemma LevelInfoKeyInvalid(name: string)
    ensures !IsNameValid(Some(name + LevelInfoExtension))
  {
    var s := name + LevelInfoExtension;
    var i := TrimStartIndex(s);
    assert !IsWhiteSpace(s[|s| - 1]);
    assert TrimEndIndex(s) == |s|;
    assert !IsWhiteSpace(s[|name|]);
    assert i <= |name|;
    var t := Trim(s);
    assert t == s[i..];
    assert t[|t| - |LevelInfoExtension|..] == LevelInfoExtension;
  }

  /** The decimal form of a number, the key of a built-in level's record, is never a valid level name. */
  lemma NumberNameInvalid(n: nat)
    ensures !IsNameValid(Some(NatToString(n)))
  {
    var s := NatToString(n);
    assert !IsWhiteSpace(s[0]) && !IsWhiteSpace(s[|s| - 1]);
    assert TrimStartIndex(s) == 0 && TrimEndIndex(s) == |s|;
    assert Trim(s) == s;
  }

  /** A name of dots only, such as "." or "..", is rejected. */
  lemma DotsNameInvalid(n: nat)
    requires n > 0
    ensures !IsNameValid(Some(seq(n, k => '.')))
  {
    var s := seq(n, k => '.');
    assert !IsWhiteSpace(s[0]) && !IsWhiteSpace(s[n - 1]);
    assert TrimStartIndex(s) == 0 && TrimEndIndex(s) == n;
    assert Trim(s) == s;
  }
}
