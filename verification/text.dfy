/**
 * Character-level string helpers used when keys are built and tokens are
 * normalised: ASCII lower-casing and the two flavours of whitespace trimming
 * (Java's String.trim and PHP's trim).
 */
module Text {

  /** ASCII lower-casing of one character; other characters are kept. */
  function LowerChar(c: char): char
  {
    if 'A' <= c <= 'Z' then (c as int + 32) as char else c
  }

  /** Lower-cases every character of `s`. */
  function ToLower(s: string): (r: string)
    ensures |r| == |s|
  {
    seq(|s|, i requires 0 <= i < |s| => LowerChar(s[i]))
  }

  /** Lower-casing twice is lower-casing once. */
  lemma ToLowerIdempotent(s: string)
    ensures ToLower(ToLower(s)) == ToLower(s)
  {
    forall i | 0 <= i < |s| ensures ToLower(ToLower(s))[i] == ToLower(s)[i] {
      assert ToLower(s)[i] == LowerChar(s[i]);
    }
  }

  /** Java's String.trim treats every character up to U+0020 as white space. */
  predicate JavaSpace(c: char)
  {
    c <= ' '
  }

  /** PHP's trim strips " \t\n\r\0\x0B" by default. */
  predicate PhpSpace(c: char)
  {
    c == ' ' || c == '\t' || c == '\n' || c == '\r' || c == '\0' || c == '\U{B}'
  }

  /** The first position at or after i whose character is not white space; |s| when there is none. */
  function SkipFrom(s: string, space: char -> bool, i: nat): (k: nat)
    requires i <= |s|
    ensures i <= k <= |s|
    ensures k < |s| ==> !space(s[k])
    decreases |s| - i
  {
    if i < |s| && space(s[i]) then SkipFrom(s, space, i + 1) else i
  }

  /** The end of the first j characters once their trailing white space is dropped. */
  function BackFrom(s: string, space: char -> bool, j: nat): (k: nat)
    requires j <= |s|
    ensures k <= j
    ensures k > 0 ==> !space(s[k - 1])
  {
    if j > 0 && space(s[j - 1]) then BackFrom(s, space, j - 1) else j
  }

  /**
   * Leading white space dropped, then trailing white space: the slice
   * between the first and the last character that is not white space, or
   * the empty string when there is none.
   */
  function Trim(s: string, space: char -> bool): (r: string)
    ensures r != [] ==> !space(r[0]) && !space(r[|r| - 1])
  {
    var a := SkipFrom(s, space, 0);
    var b := BackFrom(s, space, |s|);
    if b <= a then "" else s[a..b]
  }

  function JavaTrim(s: string): string { Trim(s, JavaSpace) }

  function PhpTrim(s: string): string { Trim(s, PhpSpace) }

  /** Everything SkipFrom passes over is white space. */
  lemma {:induction false} SkipFromSpaces(s: string, space: char -> bool, i: nat)
    requires i <= |s|
    ensures forall m :: i <= m < SkipFrom(s, space, i) ==> space(s[m])
    decreases |s| - i
  {
    if i < |s| && space(s[i]) {
      SkipFromSpaces(s, space, i + 1);
    }
  }

  /** Everything BackFrom passes over is white space. */
  lemma {:induction false} BackFromSpaces(s: string, space: char -> bool, j: nat)
    requires j <= |s|
    ensures forall m :: BackFrom(s, space, j) <= m < j ==> space(s[m])
  {
    if j > 0 && space(s[j - 1]) {
      BackFromSpaces(s, space, j - 1);
    }
  }

  /**
   * Trimming cuts a slice out of s and drops only white space around it:
   * what is kept has no white space at either end.
   */
  lemma TrimSlice(s: string, space: char -> bool)
    ensures exists a, b :: (
      && 0 <= a <= b <= |s| && Trim(s, space) == s[a..b]
      && (forall m :: 0 <= m < a ==> space(s[m]))
      && (forall m :: b <= m < |s| ==> space(s[m])))
  {
    var a := SkipFrom(s, space, 0);
    var b := BackFrom(s, space, |s|);
    SkipFromSpaces(s, space, 0);
    BackFromSpaces(s, space, |s|);
    if b <= a {
      assert Trim(s, space) == s[|s|..|s|];
    } else {
      assert Trim(s, space) == s[a..b];
    }
  }

  /** A string without white space at either end is its own trim. */
  lemma TrimTrimmed(t: string, space: char -> bool)
    requires t != [] ==> !space(t[0]) && !space(t[|t| - 1])
    ensures Trim(t, space) == t
  {
    if t != [] {
      assert SkipFrom(t, space, 0) == 0;
      assert BackFrom(t, space, |t|) == |t|;
      assert t[0..|t|] == t;
    }
  }

  /** Trimming a string that is already trimmed changes nothing. */
  lemma TrimIdempotent(s: string, space: char -> bool)
    ensures Trim(Trim(s, space), space) == Trim(s, space)
  {
    TrimTrimmed(Trim(s, space), space);
  }

  /** PHP's token normalisation: trim, then lower-case. */
  function PhpNormalize(s: string): string { ToLower(PhpTrim(s)) }

  /** Normalising a normalised token changes nothing. */
  lemma PhpNormalizeIdempotent(s: string)
    ensures PhpNormalize(PhpNormalize(s)) == PhpNormalize(s)
  {
    var t := PhpTrim(s);
    var u := ToLower(t);
    if u != [] {
      assert !PhpSpace(u[0]) && !PhpSpace(u[|u| - 1]);
    }
    TrimTrimmed(u, PhpSpace);
    ToLowerIdempotent(t);
  }
}
