/**
 * The character classes and the anchored regular expressions that the plate
 * endpoint applies to recognised text, each written as a predicate over
 * `string` (JavaScript's `RegExp.test` on an anchored pattern without flags).
 */
module Patterns {

  /** `[A-Z0-9]`: an upper-case ASCII letter or a decimal digit. */
  predicate IsPlateChar(c: char) {
    ('A' <= c <= 'Z') || ('0' <= c <= '9')
  }

  /** `[A-Z0-9 ]`: a plate character or the space character. */
  predicate IsLineChar(c: char) {
    IsPlateChar(c) || c == ' '
  }

  predicate IsDigit(c: char) {
    '0' <= c <= '9'
  }

  predicate AllPlateChars(s: string) {
    forall i :: 0 <= i < |s| ==> IsPlateChar(s[i])
  }

  /** `/^[A-Z0-9 ]+$/`: the charset filter on raw detections. */
  predicate IsLineText(s: string) {
    |s| >= 1 && forall i :: 0 <= i < |s| ==> IsLineChar(s[i])
  }

  /** `/^[A-Z0-9]{3} [A-Z0-9]{3}$/`: the single-line plate shape, e.g. "ABC 123". */
  predicate IsSingleLinePlate(s: string) {
    |s| == 7 && s[3] == ' ' && AllPlateChars(s[..3]) && AllPlateChars(s[4..])
  }

  /** `/^[A-Z0-9]{3}$/`: one half of a plate split over two lines. */
  predicate IsPlateToken(s: string) {
    |s| == 3 && AllPlateChars(s)
  }

  /** `/^[0-9]+$/`: a non-empty run of digits only. */
  predicate IsNumeric(s: string) {
    |s| >= 1 && forall i :: 0 <= i < |s| ==> IsDigit(s[i])
  }

  /** `/^[A-Z0-9]{5,8}$/` and not `/^[0-9]+$/`: the fallback plate shape. */
  predicate IsFallbackPlate(s: string) {
    5 <= |s| <= 8 && AllPlateChars(s) && !IsNumeric(s)
  }

  /** The number of space characters in `s`. */
  function SpaceCount(s: string): nat {
    multiset(s)[' ']
  }

  /** Two plate tokens joined by one space have the single-line plate shape. */
  lemma JoinedTokensAreSingleLine(a: string, b: string)
    requires IsPlateToken(a) && IsPlateToken(b)
    ensures IsSingleLinePlate(a + " " + b)
    ensures (a + " " + b)[..3] == a && (a + " " + b)[4..] == b
  {
  }

  /** A string of plate characters only holds no space. */
  lemma NoSpaceInPlateChars(s: string)
    requires AllPlateChars(s)
    ensures SpaceCount(s) == 0
  {
  }

  /** A single-line plate holds exactly one space, at index 3. */
  lemma SingleLineSpaces(s: string)
    requires IsSingleLinePlate(s)
    ensures SpaceCount(s) == 1
  {
    NoSpaceInPlateChars(s[..3]);
    NoSpaceInPlateChars(s[4..]);
    assert s == s[..3] + [s[3]] + s[4..];
  }

  /**
   * Every plate shape is a non-empty string over `[A-Z0-9 ]` that neither
   * starts nor ends with a space and is never purely numeric.
   */
  lemma PlateShapesAreLineText(s: string)
    requires IsSingleLinePlate(s) || IsFallbackPlate(s)
    ensures IsLineText(s) && !IsNumeric(s)
    ensures s[0] != ' ' && s[|s| - 1] != ' '
  {
  }

  /** Every rule needs at least three characters, so a shorter line matches none of them. */
  lemma ShortLineMatchesNoRule(s: string)
    requires |s| < 3
    ensures !IsSingleLinePlate(s) && !IsPlateToken(s) && !IsFallbackPlate(s)
  {
  }
}
