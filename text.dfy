/**
 * The two Python string operations the translation API applies to every
 * message and language code: `str.strip()` (remove leading and trailing
 * whitespace) and `str.lower()` (case folding).
 *
 * Whitespace is exactly the set of characters for which Python's
 * `str.isspace()` holds; case folding is modelled for ASCII letters only.
 * Apart from the facts about single characters that `LowerChar` and `Lower`
 * state, the properties of these functions are the lemmas below, so that
 * the verifier can evaluate them cheaply on literal codes.
 */
module Text {

  /** Python's whitespace characters: bidirectional class WS, B or S, or category Zs. */
  predicate IsSpace(c: char) {
    c in {'\t', '\n', '\U{0B}', '\U{0C}', '\r', '\U{1C}', '\U{1D}', '\U{1E}', '\U{1F}', ' ',
          '\U{85}', '\U{A0}', '\U{1680}', '\U{2028}', '\U{2029}', '\U{202F}', '\U{205F}', '\U{3000}'}
    || ('\U{2000}' <= c <= '\U{200A}')
  }

  predicate IsUpper(c: char) {
    'A' <= c <= 'Z'
  }

  function LowerChar(c: char): (d: char)
    ensures !IsUpper(d)
    ensures IsSpace(d) == IsSpace(c)
    ensures !IsUpper(c) ==> d == c
  {
    if IsUpper(c) then (c as int - 'A' as int + 'a' as int) as char else c
  }

  predicate AllSpace(s: string) {
    forall i :: 0 <= i < |s| ==> IsSpace(s[i])
  }

  predicate NoUpper(s: string) {
    forall i :: 0 <= i < |s| ==> !IsUpper(s[i])
  }

  /** `s` is made of ASCII letters and hyphens only, as every language code is. */
  predicate IsCodeText(s: string) {
    forall i :: 0 <= i < |s| ==> 'a' <= s[i] <= 'z' || IsUpper(s[i]) || s[i] == '-'
  }

  /** Neither end of `s` is whitespace. */
  predicate IsTrimmed(s: string) {
    s == [] || (!IsSpace(s[0]) && !IsSpace(s[|s| - 1]))
  }

  /** `s.lower()`: every character case-folded, nothing else changes. */
  function Lower(s: string): (r: string)
    ensures |r| == |s|
    ensures forall i :: 0 <= i < |s| ==> r[i] == LowerChar(s[i])
  {
    if s == [] then [] else [LowerChar(s[0])] + Lower(s[1..])
  }

  /** `s.lstrip()`. */
  function TrimStart(s: string): string {
    if s != [] && IsSpace(s[0]) then TrimStart(s[1..]) else s
  }

  /** `s.rstrip()`. */
  function TrimEnd(s: string): string {
    if s != [] && IsSpace(s[|s| - 1]) then TrimEnd(s[..|s| - 1]) else s
  }

  /** `s.strip()`. */
  function Strip(s: string): string {
    TrimEnd(TrimStart(s))
  }

  /** `s.lstrip()` is the suffix of `s` left after removing its leading whitespace. */
  lemma {:induction false} TrimStartSpec(s: string)
    ensures |TrimStart(s)| <= |s| && TrimStart(s) == s[|s| - |TrimStart(s)|..]
    ensures AllSpace(s[..|s| - |TrimStart(s)|])
    ensures TrimStart(s) != [] ==> !IsSpace(TrimStart(s)[0])
  {
    if s != [] && IsSpace(s[0]) {
      TrimStartSpec(s[1..]);
      var k := |s| - |TrimStart(s)|;
      assert forall i :: 1 <= i < k ==> s[i] == s[1..][..k - 1][i - 1];
    }
  }

  /** `s.rstrip()` is the prefix of `s` left after removing its trailing whitespace. */
  lemma {:induction false} TrimEndSpec(s: string)
    ensures |TrimEnd(s)| <= |s| && TrimEnd(s) == s[..|TrimEnd(s)|]
    ensures AllSpace(s[|TrimEnd(s)|..])
    ensures TrimEnd(s) != [] ==> !IsSpace(TrimEnd(s)[|TrimEnd(s)| - 1])
  {
    if s != [] && IsSpace(s[|s| - 1]) {
      TrimEndSpec(s[..|s| - 1]);
      var k := |TrimEnd(s)|;
      assert forall i :: k <= i < |s| - 1 ==> s[i] == s[..|s| - 1][k..][i - k];
    }
  }

  lemma {:induction false} TrimStartAllSpace(s: string)
    requires AllSpace(s)
    ensures TrimStart(s) == []
  {
    if s != [] {
      TrimStartAllSpace(s[1..]);
    }
  }

  /**
   * `s.strip()` is a slice of `s` with neither end whitespace, and it is
   * empty exactly when `s` is made only of whitespace.
   */
  lemma StripSpec(s: string)
    ensures |Strip(s)| <= |s|
    ensures IsTrimmed(Strip(s))
    ensures Strip(s) == [] <==> AllSpace(s)
    ensures exists i, j :: 0 <= i <= j <= |s| && Strip(s) == s[i..j] && AllSpace(s[..i]) && AllSpace(s[j..])
  {
    var t := TrimStart(s);
    TrimStartSpec(s);
    TrimEndSpec(t);
    var r := TrimEnd(t);
    if r == [] {
      assert t[|r|..] == t;
      assert s[..|s|] == s;
    }
    var i := |s| - |t|;
    var j := i + |r|;
    assert s[i..j] == r;
    assert s[j..] == t[|r|..];
    if AllSpace(s) {
      TrimStartAllSpace(s);
    }
  }

  lemma StripOfTrimmed(s: string)
    requires IsTrimmed(s)
    ensures Strip(s) == s
  {
  }

  /** Stripping twice is stripping once. */
  lemma StripIdempotent(s: string)
    ensures Strip(Strip(s)) == Strip(s)
  {
    StripSpec(s);
    StripOfTrimmed(Strip(s));
  }

  /** A string with no upper-case letter is its own lower-case form. */
  lemma LowerOfNoUpper(s: string)
    requires NoUpper(s)
    ensures Lower(s) == s
  {
  }

  lemma LowerIdempotent(s: string)
    ensures NoUpper(Lower(s)) && Lower(Lower(s)) == Lower(s)
  {
    LowerOfNoUpper(Lower(s));
  }

  lemma {:induction false} TrimStartLower(s: string)
    ensures TrimStart(Lower(s)) == Lower(TrimStart(s))
  {
    if s != [] && IsSpace(s[0]) {
      assert Lower(s)[1..] == Lower(s[1..]);
      TrimStartLower(s[1..]);
    }
  }

  lemma {:induction false} TrimEndLower(s: string)
    ensures TrimEnd(Lower(s)) == Lower(TrimEnd(s))
  {
    if s != [] && IsSpace(s[|s| - 1]) {
      assert Lower(s)[..|s| - 1] == Lower(s[..|s| - 1]);
      TrimEndLower(s[..|s| - 1]);
    }
  }

  /**
   * Case folding never touches whitespace, so `s.lower().strip()` (the order
   * used by normalisation) equals `s.strip().lower()` (the order used by the
   * request validator).
   */
  lemma LowerStripCommute(s: string)
    ensures Strip(Lower(s)) == Lower(Strip(s))
  {
    TrimStartLower(s);
    TrimEndLower(TrimStart(s));
  }

  /** The lower-cased, stripped form of a string is lower case, trimmed, and fixed by lowering and stripping again. */
  lemma LowerStripIdempotent(s: string)
    ensures NoUpper(Strip(Lower(s))) && IsTrimmed(Strip(Lower(s)))
    ensures Strip(Lower(Strip(Lower(s)))) == Strip(Lower(s))
  {
    var t := Strip(Lower(s));
    LowerStripCommute(s);
    LowerIdempotent(Strip(s));
    StripSpec(Lower(s));
    LowerOfNoUpper(t);
    StripIdempotent(Lower(s));
  }

  /** Text made of letters and hyphens has no whitespace at either end. */
  lemma CodeTextIsTrimmed(s: string)
    requires IsCodeText(s)
    ensures IsTrimmed(s)
  {
    if s != [] {
      assert !IsSpace(s[0]) && !IsSpace(s[|s| - 1]);
    }
  }

  /** A lower-case string without surrounding whitespace is fixed by stripping and lowering, in either order. */
  lemma CanonicalText(s: string)
    requires NoUpper(s) && IsTrimmed(s)
    ensures Strip(s) == s && Lower(s) == s && Lower(Strip(s)) == s && Strip(Lower(s)) == s
  {
    StripOfTrimmed(s);
    LowerOfNoUpper(s);
  }
}
