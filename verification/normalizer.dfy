/**
 * The line normalizer of the plate endpoint: from the text detections returned
 * by the OCR service it keeps the `LINE` detections whose raw text is at least
 * three characters of `[A-Z0-9 ]`, and trims each kept text, in input order.
 */
module Normalizer {
  import opened Patterns

  /** One text detection: its `Type` ("LINE", "WORD", ...) and its `DetectedText`. */
  datatype Detection = Detection(kind: string, text: string)

  /**
   * The filter predicate. Both the length check and the charset check look
   * at the raw text, before it is trimmed.
   */
  predicate Keep(d: Detection) {
    d.kind == "LINE" && |d.text| >= 3 && IsLineText(d.text)
  }

  /** The position of the first non-space at or after `from`, or `|s|` if there is none. */
  function TextStart(s: string, from: nat): (a: nat)
    requires from <= |s|
    ensures from <= a <= |s|
    ensures forall i :: from <= i < a ==> s[i] == ' '
    ensures a < |s| ==> s[a] != ' '
    decreases |s| - from
  {
    if from < |s| && s[from] == ' ' then TextStart(s, from + 1) else from
  }

  /** The position just after the last non-space before `to`, or 0 if there is none. */
  function TextEnd(s: string, to: nat): (b: nat)
    requires to <= |s|
    ensures b <= to
    ensures forall i :: b <= i < to ==> s[i] == ' '
    ensures b > 0 ==> s[b - 1] != ' '
  {
    if to > 0 && s[to - 1] == ' ' then TextEnd(s, to - 1) else to
  }

  /** `String.prototype.trim` on texts over `[A-Z0-9 ]`. */
  function Trim(s: string): string {
    var a, b := TextStart(s, 0), TextEnd(s, |s|);
    if b <= a then [] else s[a..b]
  }

  /**
   * The trimmed text is the contiguous middle of `s` that neither starts nor
   * ends with a space, and everything cut off is spaces.
   */
  lemma TrimSpec(s: string)
    ensures var r, a := Trim(s), TextStart(s, 0);
      && a + |r| <= |s|
      && r == s[a..a + |r|]
      && (forall i :: 0 <= i < |s| && !(a <= i < a + |r|) ==> s[i] == ' ')
      && (r != [] ==> r[0] != ' ' && r[|r| - 1] != ' ')
  {
  }

  /** Trimming text over `[A-Z0-9 ]` leaves text over `[A-Z0-9 ]`. */
  lemma TrimKeepsLineChars(s: string)
    requires forall i :: 0 <= i < |s| ==> IsLineChar(s[i])
    ensures forall k :: 0 <= k < |Trim(s)| ==> IsLineChar(Trim(s)[k])
  {
  }

  /** `xs.filter(p)`: the elements satisfying `p`, in order. */
  function Filter<T>(xs: seq<T>, p: T -> bool): seq<T> {
    FilterFrom(xs, p, 0)
  }

  /** The elements at positions `from` and later that satisfy `p`, in order. */
  function FilterFrom<T>(xs: seq<T>, p: T -> bool, from: nat): seq<T>
    decreases |xs| - from
  {
    if from >= |xs| then []
    else (if p(xs[from]) then [xs[from]] else []) + FilterFrom(xs, p, from + 1)
  }

  /**
   * `ys[j]` is the element of `xs` at position `idx[j]`, which lies at or
   * after `from` and satisfies `p`.
   */
  ghost predicate PicksFrom<T>(idx: seq<nat>, xs: seq<T>, p: T -> bool, from: nat, ys: seq<T>) {
    && |idx| == |ys|
    && forall j :: 0 <= j < |idx| ==> from <= idx[j] < |xs| && p(xs[idx[j]]) && ys[j] == xs[idx[j]]
  }

  ghost predicate StrictlyIncreasing(idx: seq<nat>) {
    forall j, k :: 0 <= j < k < |idx| ==> idx[j] < idx[k]
  }

  /** Every position at or after `from` whose element satisfies `p` is listed. */
  ghost predicate ListsAll<T>(idx: seq<nat>, xs: seq<T>, p: T -> bool, from: nat) {
    forall i :: from <= i < |xs| && p(xs[i]) ==> i in idx
  }

  /**
   * The positions of the elements that the filter keeps: the witness that
   * the filter keeps all of them, only them, in input order.
   */
  function FilterPositions<T>(xs: seq<T>, p: T -> bool, from: nat): (idx: seq<nat>)
    ensures PicksFrom(idx, xs, p, from, FilterFrom(xs, p, from))
    ensures StrictlyIncreasing(idx)
    ensures ListsAll(idx, xs, p, from)
    decreases |xs| - from
  {
    if from >= |xs| then []
    else
      var rest := FilterPositions(xs, p, from + 1);
      PicksStep(xs, p, from, rest);
      ListsAllStep(xs, p, from, rest);
      if p(xs[from]) then
        IncreasingStep(from, rest);
        [from] + rest
      else rest
  }

  /** One more element in front: the filter output and the positions grow together. */
  lemma PicksStep<T>(xs: seq<T>, p: T -> bool, from: nat, rest: seq<nat>)
    requires from < |xs|
    requires PicksFrom(rest, xs, p, from + 1, FilterFrom(xs, p, from + 1))
    ensures PicksFrom(if p(xs[from]) then [from] + rest else rest, xs, p, from, FilterFrom(xs, p, from))
  {
  }

  /** A position below all listed ones keeps the list increasing when put in front. */
  lemma IncreasingStep(from: nat, rest: seq<nat>)
    requires StrictlyIncreasing(rest)
    requires forall j :: 0 <= j < |rest| ==> from < rest[j]
    ensures StrictlyIncreasing([from] + rest)
  {
  }

  /** One more element in front: its position is listed when it is kept. */
  lemma ListsAllStep<T>(xs: seq<T>, p: T -> bool, from: nat, rest: seq<nat>)
    requires from < |xs|
    requires ListsAll(rest, xs, p, from + 1)
    ensures ListsAll(if p(xs[from]) then [from] + rest else rest, xs, p, from)
  {
  }

  /** `detections.filter(Keep).map(d => d.DetectedText.trim())`. */
  function NormalizeLines(ds: seq<Detection>): (lines: seq<string>)
  {
    var kept := Filter(ds, Keep);
    seq(|kept|, j requires 0 <= j < |kept| => Trim(kept[j].text))
  }

  /**
   * The positions of the kept detections: the normalized lines are the
   * trimmed texts of all the kept detections and of no others, in input order.
   */
  function KeptPositions(ds: seq<Detection>): (idx: seq<nat>)
    ensures |idx| == |NormalizeLines(ds)|
    ensures forall j :: 0 <= j < |idx| ==>
      idx[j] < |ds| && Keep(ds[idx[j]]) && NormalizeLines(ds)[j] == Trim(ds[idx[j]].text)
    ensures StrictlyIncreasing(idx)
    ensures forall i :: 0 <= i < |ds| && Keep(ds[i]) ==> i in idx
  {
    var idx := FilterPositions(ds, Keep, 0);
    assert PicksFrom(idx, ds, Keep, 0, Filter(ds, Keep));
    idx
  }

  /**
   * Every normalized line is over `[A-Z0-9 ]`, neither starts nor ends with a
   * space, and is no longer than the raw text it came from.
   */
  lemma NormalizedLineShape(ds: seq<Detection>, j: nat)
    requires j < |NormalizeLines(ds)|
    ensures var line := NormalizeLines(ds)[j];
      && (forall k :: 0 <= k < |line| ==> IsLineChar(line[k]))
      && (line != [] ==> line[0] != ' ' && line[|line| - 1] != ' ')
      && |line| <= |ds[KeptPositions(ds)[j]].text|
  {
    var idx := KeptPositions(ds);
    var raw := ds[idx[j]].text;
    var line := NormalizeLines(ds)[j];
    assert line == Trim(raw);
    TrimSpec(raw);
    TrimKeepsLineChars(raw);
  }

  /** A lone `LINE` detection whose text passes the filter and is already trimmed normalizes to that text. */
  lemma NormalizeOneLine(t: string)
    requires |t| >= 3 && IsLineText(t) && t[0] != ' ' && t[|t| - 1] != ' '
    ensures NormalizeLines([Detection("LINE", t)]) == [t]
  {
    var d := Detection("LINE", t);
    assert Keep(d);
    assert FilterFrom([d], Keep, 1) == [];
    assert Filter([d], Keep) == [d];
    assert TextStart(t, 0) == 0 && TextEnd(t, |t|) == |t|;
    assert Trim(t) == t[0..|t|] == t;
  }

  /**
   * Trimming comes after the length check: a raw line of three spaces passes
   * the filter and becomes the empty string.
   */
  lemma BlankLineBecomesEmpty()
    ensures NormalizeLines([Detection("LINE", "   ")]) == [""]
  {
  }
}
