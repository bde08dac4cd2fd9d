/**
 * The `POST /api/detect-plate` handler: validate the posted image, strip its
 * data-URI header, hand the payload to the OCR service, normalize the lines
 * it returns and pick a plate. The OCR service is a parameter: a function
 * from the Base64 payload to the outcome of its `detectText` call.
 */
module Handler {
  import opened Wrappers
  import opened Patterns
  import opened Normalizer
  import opened Matcher
  import opened DataUri

  /** The settled `detectText` call: rejected, or resolved with `TextDetections` (possibly absent). */
  datatype OcrOutcome = OcrFailure | OcrSuccess(textDetections: Option<seq<Detection>>)

  /** The JSON reply: status 400, status 500, or `{ plate }` with status 200. */
  datatype Response = BadRequest | ServerError | PlateFound(plate: Option<string>)

  /** `data.TextDetections || []`. */
  function DetectionsOrEmpty(d: Option<seq<Detection>>): seq<Detection> {
    match d
    case Some(ds) => ds
    case None => []
  }

  /** The plate the endpoint reports for a list of detections. */
  function PlateOf(ds: seq<Detection>): (r: Option<string>) {
    MatchPlate(NormalizeLines(ds))
  }

  /** The request handler, step by step with its early returns. */
  method DetectPlate(image: Option<string>, detectText: string -> OcrOutcome) returns (resp: Response)
    ensures (image.None? || image.value == "") ==> resp == BadRequest
    ensures image.Some? && image.value != "" ==>
      match detectText(StripDataUriPrefix(image.value))
      case OcrFailure => resp == ServerError
      case OcrSuccess(d) => resp == PlateFound(PlateOf(DetectionsOrEmpty(d)))
  {
    if image.None? || image.value == "" {
      return BadRequest;
    }
    var payload := StripDataUriPrefix(image.value);
    var outcome := detectText(payload);
    if outcome.OcrFailure? {
      return ServerError;
    }
    var detections := DetectionsOrEmpty(outcome.textDetections);
    var lines := NormalizeLines(detections);

    var single := Find(lines, IsSingleLinePlate);
    if Truthy(single) {
      return PlateFound(single);
    }
    var two := TwoLineMatch(lines);
    if Truthy(two) {
      return PlateFound(two);
    }
    var fallback := Find(lines, IsFallbackPlate);
    if Truthy(fallback) {
      return PlateFound(fallback);
    }
    return PlateFound(None);
  }

  /** An empty or absent detection list yields `{ plate: null }`. */
  lemma NoDetectionsNoPlate(d: Option<seq<Detection>>)
    requires d.None? || d.value == []
    ensures PlateOf(DetectionsOrEmpty(d)) == None
  {
  }

  /**
   * A reported plate, read back as the only line the OCR service detects,
   * is reported again: it passes the normalizer unchanged and matches itself.
   */
  lemma PlateReadBack(ds: seq<Detection>)
    requires PlateOf(ds).Some?
    ensures PlateOf([Detection("LINE", PlateOf(ds).value)]) == PlateOf(ds)
  {
    var lines := NormalizeLines(ds);
    var p := PlateOf(ds).value;
    PlateShape(lines);
    PlateShapesAreLineText(p);
    NormalizeOneLine(p);
    MatchOwnResult(lines);
  }

  /**
   * The trimmed texts never disturb a plate: whatever reaches the matcher,
   * a reported plate is non-empty, over `[A-Z0-9 ]`, with at most one space.
   */
  lemma ReportedPlateShape(ds: seq<Detection>)
    requires PlateOf(ds).Some?
    ensures var p := PlateOf(ds).value;
      IsLineText(p) && !IsNumeric(p) && SpaceCount(p) <= 1
  {
    PlateShape(NormalizeLines(ds));
  }
}
