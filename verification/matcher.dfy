/**
 * The plate matcher of the plate endpoint: three rules tried in a fixed
 * priority order on the normalized lines, the first success wins.
 *   1. single-line: the first line shaped "XXX XXX";
 *   2. two-line: the first adjacent pair of three-character tokens, joined by a space;
 *   3. fallback: the first line of 5 to 8 plate characters that is not all digits.
 */
module Matcher {
  import opened Wrappers
  import opened Patterns

  /** The first position at or after `from` whose line satisfies `p`. */
  function FindIndexFrom(lines: seq<string>, p: string -> bool, from: nat): (r: Option<nat>)
    ensures r.Some? ==> from <= r.value < |lines| && p(lines[r.value])
    ensures r.Some? ==> forall j :: from <= j < r.value ==> !p(lines[j])
    ensures r.None? ==> forall j :: from <= j < |lines| ==> !p(lines[j])
    decreases |lines| - from
  {
    if from >= |lines| then None
    else if p(lines[from]) then Some(from)
    else FindIndexFrom(lines, p, from + 1)
  }

  /** `lines.find(p)`: the first line satisfying `p`, or nothing. */
  function Find(lines: seq<string>, p: string -> bool): (r: Option<string>)
    ensures r.Some? ==> p(r.value) && r.value in lines
    ensures r.None? <==> forall j :: 0 <= j < |lines| ==> !p(lines[j])
  {
    match FindIndexFrom(lines, p, 0)
    case Some(i) => Some(lines[i])
    case None => None
  }

  /** The line at `i` is the first line satisfying `p`. */
  ghost predicate IsFirst(lines: seq<string>, p: string -> bool, i: nat) {
    i < |lines| && p(lines[i]) && forall j :: 0 <= j < i ==> !p(lines[j])
  }

  /** `find` returns the first satisfying line. */
  lemma FindReturnsFirst(lines: seq<string>, p: string -> bool, i: nat)
    requires IsFirst(lines, p, i)
    ensures Find(lines, p) == Some(lines[i])
  {
  }

  /** Both lines `i` and `i + 1` are three-character plate tokens. */
  predicate IsTokenPairAt(lines: seq<string>, i: nat)
    requires i + 1 < |lines|
  {
    IsPlateToken(lines[i]) && IsPlateToken(lines[i + 1])
  }

  /** The first position at or after `from` that starts a pair of plate tokens. */
  function FirstTokenPairFrom(lines: seq<string>, from: nat): (r: Option<nat>)
    ensures r.Some? ==> from <= r.value && r.value + 1 < |lines| && IsTokenPairAt(lines, r.value)
    ensures r.Some? ==> forall j :: from <= j < r.value ==> !IsTokenPairAt(lines, j)
    ensures r.None? ==> forall j :: from <= j && j + 1 < |lines| ==> !IsTokenPairAt(lines, j)
    decreases |lines| - from
  {
    if from + 1 >= |lines| then None
    else if IsTokenPairAt(lines, from) then Some(from)
    else FirstTokenPairFrom(lines, from + 1)
  }

  /** What the two-line rule yields: the first token pair, joined by one space. */
  function TwoLineTier(lines: seq<string>): (r: Option<string>)
  {
    match FirstTokenPairFrom(lines, 0)
    case Some(i) => Some(lines[i] + " " + lines[i + 1])
    case None => None
  }

  /**
   * The two-line rule as the endpoint runs it: a loop over `i` that stops at
   * the first adjacent pair of tokens.
   */
  method TwoLineMatch(lines: seq<string>) returns (m: Option<string>)
    ensures m == TwoLineTier(lines)
  {
    m := None;
    var i := 0;
    while i < |lines| - 1
      invariant 0 <= i <= |lines|
      invariant m == None
      invariant forall j :: 0 <= j < i && j + 1 < |lines| ==> !IsTokenPairAt(lines, j)
    {
      if IsPlateToken(lines[i]) && IsPlateToken(lines[i + 1]) {
        m := Some(lines[i] + " " + lines[i + 1]);
        FirstPairIsUnique(lines, i);
        break;
      }
      i := i + 1;
    }
  }

  /** A pair with no pair before it is the one the two-line rule picks. */
  lemma FirstPairIsUnique(lines: seq<string>, i: nat)
    requires i + 1 < |lines| && IsTokenPairAt(lines, i)
    requires forall j :: 0 <= j < i ==> !IsTokenPairAt(lines, j)
    ensures FirstTokenPairFrom(lines, 0) == Some(i)
    ensures TwoLineTier(lines) == Some(lines[i] + " " + lines[i + 1])
  {
  }

  /** JavaScript truthiness of a found string: present and non-empty. */
  predicate Truthy(m: Option<string>) {
    m.Some? && m.value != ""
  }

  /** The plate the three rules select, in priority order, or nothing. */
  function MatchPlate(lines: seq<string>): (r: Option<string>)
  {
    var single := Find(lines, IsSingleLinePlate);
    if Truthy(single) then single
    else
      var two := TwoLineTier(lines);
      if Truthy(two) then two
      else
        var fallback := Find(lines, IsFallbackPlate);
        if Truthy(fallback) then fallback else None
  }

  /** No line has the single-line shape. */
  ghost predicate NoSingleLine(lines: seq<string>) {
    forall j :: 0 <= j < |lines| ==> !IsSingleLinePlate(lines[j])
  }

  /** No adjacent pair of lines is a pair of plate tokens. */
  ghost predicate NoTokenPair(lines: seq<string>) {
    forall j :: 0 <= j && j + 1 < |lines| ==> !IsTokenPairAt(lines, j)
  }

  /** No line has the fallback shape. */
  ghost predicate NoFallback(lines: seq<string>) {
    forall j :: 0 <= j < |lines| ==> !IsFallbackPlate(lines[j])
  }

  /**
   * Rule 1 wins: the first single-line-shaped line is returned verbatim,
   * whatever the other lines are.
   */
  lemma SingleLineRule(lines: seq<string>, i: nat)
    requires IsFirst(lines, IsSingleLinePlate, i)
    ensures MatchPlate(lines) == Some(lines[i])
  {
  }

  /**
   * Rule 2 is reached only when rule 1 finds nothing; it returns the first
   * token pair joined by a space: seven characters with the space at index 3.
   */
  lemma TwoLineRule(lines: seq<string>, i: nat)
    requires NoSingleLine(lines)
    requires i + 1 < |lines| && IsTokenPairAt(lines, i)
    requires forall j :: 0 <= j < i ==> !IsTokenPairAt(lines, j)
    ensures MatchPlate(lines) == Some(lines[i] + " " + lines[i + 1])
    ensures |lines[i] + " " + lines[i + 1]| == 7 && (lines[i] + " " + lines[i + 1])[3] == ' '
  {
  }

  /**
   * Rule 3 is reached only when rules 1 and 2 find nothing; it returns the
   * first line of 5 to 8 plate characters that is not all digits.
   */
  lemma FallbackRule(lines: seq<string>, i: nat)
    requires NoSingleLine(lines) && NoTokenPair(lines)
    requires IsFirst(lines, IsFallbackPlate, i)
    ensures MatchPlate(lines) == Some(lines[i])
  {
  }

  /** The result is `null` exactly when no rule applies to any line. */
  lemma NoMatchRule(lines: seq<string>)
    ensures MatchPlate(lines) == None <==> NoSingleLine(lines) && NoTokenPair(lines) && NoFallback(lines)
  {
  }

  /**
   * Every plate returned is a non-empty string over `[A-Z0-9 ]`, never purely
   * numeric, and has either the single-line shape (exactly one space: rules 1
   * and 2) or the fallback shape (no space: rule 3).
   */
  lemma PlateShape(lines: seq<string>)
    requires MatchPlate(lines).Some?
    ensures var p := MatchPlate(lines).value;
      && IsLineText(p) && !IsNumeric(p)
      && ((IsSingleLinePlate(p) && SpaceCount(p) == 1) || (IsFallbackPlate(p) && SpaceCount(p) == 0))
  {
    var p := MatchPlate(lines).value;
    var single := Find(lines, IsSingleLinePlate);
    if !Truthy(single) {
      var two := TwoLineTier(lines);
      if Truthy(two) {
        var i := FirstTokenPairFrom(lines, 0).value;
        JoinedTokensAreSingleLine(lines[i], lines[i + 1]);
      }
    }
    if IsSingleLinePlate(p) {
      SingleLineSpaces(p);
    } else {
      NoSpaceInPlateChars(p);
    }
    PlateShapesAreLineText(p);
  }

  /** Matching the returned plate on its own yields the same plate again. */
  lemma MatchOwnResult(lines: seq<string>)
    requires MatchPlate(lines).Some?
    ensures MatchPlate([MatchPlate(lines).value]) == MatchPlate(lines)
  {
  }

  /** "ABC 123" alone is returned as it is. */
  lemma ExampleSingleLine()
    ensures MatchPlate(["ABC 123"]) == Some("ABC 123")
  {
  }

  /** "ABC" followed by "123" is joined into "ABC 123". */
  lemma ExampleTwoLines()
    ensures MatchPlate(["ABC", "123"]) == Some("ABC 123")
  {
    var lines := ["ABC", "123"];
    assert NoSingleLine(lines) by {
      assert |lines[0]| == 3 && |lines[1]| == 3;
    }
    assert IsTokenPairAt(lines, 0);
    TwoLineRule(lines, 0);
    assert lines[0] + " " + lines[1] == "ABC 123";
  }

  /** An all-digit line of eight characters is never a plate. */
  lemma ExampleNumericRejected()
    ensures MatchPlate(["12345678"]) == None
  {
  }

  /**
   * With no denylist in this revision, a city name ahead of the plate wins
   * the fallback rule.
   */
  lemma ExampleNoDenylist()
    ensures MatchPlate(["WINNIPEG", "AB12345"]) == Some("WINNIPEG")
  {
    var lines := ["WINNIPEG", "AB12345"];
    assert |lines[0]| == 8 && |lines[1]| == 7 && lines[1][3] != ' ';
    assert !IsDigit(lines[0][0]);
    FallbackRule(lines, 0);
  }

  /** No lines, no plate. */
  lemma ExampleEmpty()
    ensures MatchPlate([]) == None
  {
  }
}
