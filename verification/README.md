# Plate extraction of the plate-scanner server

A model of the `POST /api/detect-plate` endpoint of the plate-scanner server
(`server.js`). The endpoint takes a Base64 image, optionally behind a
`data:image/<type>;base64,` header. It sends the image to an OCR text-detection
service. From the text detections that come back it picks one licence-plate
string, or `null`.

The picking is a two-stage pipeline, and it is the heart of the model:

- **Line normalizer** (`Normalizer`). It keeps the detections whose `Type` is
  `"LINE"` and whose raw text has at least three characters, all of them in
  `[A-Z0-9 ]`. It then trims each kept text. Input order is preserved. The
  checks look at the untrimmed text, so a raw `"   "` survives as `""`.
- **Plate matcher** (`Matcher`). It tries three rules in priority order, and
  the first success wins:
  1. single-line: the first line shaped `[A-Z0-9]{3} [A-Z0-9]{3}`;
  2. two-line: the first adjacent pair of `[A-Z0-9]{3}` lines, joined by one
     space. In the source this is a `for` loop with `break`, modelled as the
     method `TwoLineMatch`, which is proved equal to the function `TwoLineTier`;
  3. fallback: the first line of 5 to 8 characters of `[A-Z0-9]` that is not
     all digits.

  If no rule applies, the result is `null`. The source tests each rule's
  result for JavaScript truthiness. `Truthy` models that test, and
  `PlateShape` shows that a found plate is never the empty string.

Around the pipeline, `DataUri` models the header strip and `Handler` models
the handler's control flow: the 400 reply for a missing image, the 500 reply
for a failed OCR call, and `data.TextDetections || []`. The OCR service is a
function parameter. It maps the stripped Base64 payload to the outcome of the
call.

Files: `wrappers.dfy` (Option), `patterns.dfy` (the regular expressions as
predicates), `normalizer.dfy`, `matcher.dfy`, `datauri.dfy`, `handler.dfy`.

This revision of `server.js` behaves as follows, and the model follows it:

- there is no denylist of non-plate words;
- there is no upper-casing, so lower-case text is dropped by the charset filter;
- each line of a two-line plate is exactly 3 characters;
- a normalized line is not guaranteed to be three characters or longer,
  because the length check runs before trimming.

## Model

| member | source | states |
|---|---|---|
| `Patterns.IsLineText` | server.js:54 | `/^[A-Z0-9 ]+$/` as a predicate; no contract, used by `Normalizer.Keep` and characterised by `Patterns.PlateShapesAreLineText` |
| `Patterns.IsSingleLinePlate` | server.js:62 | `/^[A-Z0-9]{3} [A-Z0-9]{3}$/` as a predicate; no contract, characterised by `Patterns.SingleLineSpaces` and `Patterns.JoinedTokensAreSingleLine` |
| `Patterns.IsPlateToken` | server.js:74-75 | `/^[A-Z0-9]{3}$/` as a predicate; no contract, characterised by `Patterns.JoinedTokensAreSingleLine` |
| `Patterns.IsNumeric` | server.js:90 | `/^[0-9]+$/` as a predicate; no contract, characterised by `Patterns.PlateShapesAreLineText` |
| `Patterns.IsFallbackPlate` | server.js:89-90 | `/^[A-Z0-9]{5,8}$/` and not `/^[0-9]+$/`; no contract, characterised by `Patterns.NoSpaceInPlateChars` and `Patterns.PlateShapesAreLineText` |
| `Patterns.JoinedTokensAreSingleLine` | server.js:74-77 | two 3-character tokens joined by a space have the single-line plate shape, and the halves can be read back |
| `Patterns.SingleLineSpaces` | server.js:62 | a single-line plate holds exactly one space |
| `Patterns.NoSpaceInPlateChars` | server.js:89 | a string of `[A-Z0-9]` characters holds no space |
| `Patterns.PlateShapesAreLineText` | server.js:62-90 | every plate shape is non-empty text over `[A-Z0-9 ]`, with no space at either end, and is never purely numeric |
| `Patterns.ShortLineMatchesNoRule` | server.js:52-56 | a line shorter than 3 characters, which trimming can produce, matches none of the three rules |
| `Normalizer.Keep` | server.js:51-55 | the filter predicate: `Type` is "LINE", raw length at least 3, raw text over `[A-Z0-9 ]`; no contract, characterised by `Normalizer.KeptPositions` |
| `Normalizer.TextStart` | server.js:56 | the position where the text after the leading spaces starts: everything before it is a space and the character there is not |
| `Normalizer.TextEnd` | server.js:56 | the position where the text before the trailing spaces ends: everything after it is a space and the character before it is not |
| `Normalizer.Trim` | server.js:56 | `trim` on filtered text; no contract, characterised by `Normalizer.TrimSpec` and `Normalizer.TrimKeepsLineChars` |
| `Normalizer.TrimSpec` | server.js:56 | the trimmed text is a contiguous part of the raw text, everything cut off is spaces, and it neither starts nor ends with a space |
| `Normalizer.TrimKeepsLineChars` | server.js:54-56 | trimming text over `[A-Z0-9 ]` leaves text over `[A-Z0-9 ]` |
| `Normalizer.Filter` | server.js:50-55 | `Array.prototype.filter`; no contract, characterised by `Normalizer.FilterPositions` |
| `Normalizer.FilterFrom` | server.js:50-55 | the filter over the elements from a given position on; no contract, characterised by `Normalizer.FilterPositions` |
| `Normalizer.FilterPositions` | server.js:50-55 | `filter` keeps every element that satisfies the predicate and no other, in input order: the output lists exactly the satisfying elements at increasing positions |
| `Normalizer.NormalizeLines` | server.js:50-56 | the filter followed by `map(trim)`; no contract, characterised by `Normalizer.KeptPositions`, `Normalizer.NormalizedLineShape` and `Normalizer.NormalizeOneLine` |
| `Normalizer.KeptPositions` | server.js:50-56 | the normalized lines are, in increasing input order, the trimmed texts of exactly the detections with `Type` "LINE", raw length at least 3 and raw text over `[A-Z0-9 ]` |
| `Normalizer.NormalizedLineShape` | server.js:50-56 | every normalized line is over `[A-Z0-9 ]`, has no leading or trailing space, and is no longer than its raw text |
| `Normalizer.NormalizeOneLine` | server.js:50-56 | a lone `LINE` detection whose text passes the filter and has no outer spaces normalizes to exactly that text |
| `Normalizer.BlankLineBecomesEmpty` | server.js:52-56 | the filter runs before trimming: a raw `"   "` line becomes `""` |
| `Matcher.FindIndexFrom` | server.js:61-63 | the search returns the first position satisfying the rule, or reports that no position does |
| `Matcher.Find` | server.js:61-63 | `find` returns a line of the list satisfying the rule, and returns nothing exactly when no line does |
| `Matcher.FindReturnsFirst` | server.js:88-91 | `find` returns the first satisfying line |
| `Matcher.TwoLineTier` | server.js:71-81 | the first token pair joined by a space, or nothing; no contract, characterised by `Matcher.TwoLineMatch`, `Matcher.FirstPairIsUnique` and `Matcher.TwoLineRule` |
| `Matcher.FirstTokenPairFrom` | server.js:72-76 | the first adjacent pair of 3-character tokens, or the statement that there is none |
| `Matcher.TwoLineMatch` | server.js:71-81 | the loop with `break` yields exactly the first token pair joined by a space, or nothing |
| `Matcher.FirstPairIsUnique` | server.js:72-79 | a token pair with no pair before it is the one the two-line rule returns |
| `Matcher.Truthy` | server.js:65 | the truthiness test of `if (singleLineMatch)`, `if (twoLineMatch)` and `if (fallback)` (also lines 83 and 93); no contract, `Matcher.PlateShape` shows a found plate is never empty |
| `Matcher.MatchPlate` | server.js:61-99 | the three rules in priority order, then `null`; no contract, characterised by `Matcher.SingleLineRule`, `Matcher.TwoLineRule`, `Matcher.FallbackRule`, `Matcher.NoMatchRule` and `Matcher.PlateShape` |
| `Matcher.SingleLineRule` | server.js:61-67 | the first single-line-shaped line is returned verbatim, whatever the other lines are |
| `Matcher.TwoLineRule` | server.js:65-84 | with no single-line match, the result is `lines[i] + " " + lines[i+1]` for the smallest token pair `i`: 7 characters with a space at index 3 |
| `Matcher.FallbackRule` | server.js:83-95 | with neither of the first two rules applying, the result is the first 5-8 character `[A-Z0-9]` line that is not all digits |
| `Matcher.NoMatchRule` | server.js:87-99 | the result is `null` if and only if no line and no adjacent pair satisfies any rule |
| `Matcher.PlateShape` | server.js:61-95 | every returned plate is non-empty text over `[A-Z0-9 ]` and never numeric; it has the single-line shape with one space, or the fallback shape with none |
| `Matcher.MatchOwnResult` | server.js:61-95 | matching a returned plate as the only line yields the same plate |
| `Matcher.ExampleSingleLine` | server.js:61-67 | `["ABC 123"]` gives `"ABC 123"` |
| `Matcher.ExampleTwoLines` | server.js:71-84 | `["ABC", "123"]` gives `"ABC 123"` |
| `Matcher.ExampleNumericRejected` | server.js:88-99 | `["12345678"]` gives `null` |
| `Matcher.ExampleNoDenylist` | server.js:88-95 | `["WINNIPEG", "AB12345"]` gives `"WINNIPEG"`, because this revision has no denylist |
| `Matcher.ExampleEmpty` | server.js:98-99 | no lines give `null` |
| `DataUri.IsDataUriHeader` | server.js:36 | the text the regex `^data:image\/\w+;base64,` matches; no contract, used by `DataUri.HeaderLength` and `DataUri.HeaderFixesRun` |
| `DataUri.WordRun` | server.js:36 | the length of the maximal run of `\w` characters at the start |
| `DataUri.HeaderLength` | server.js:36 | the length of the leading `data:image/\w+;base64,` header when there is one, otherwise the statement that no prefix is such a header |
| `DataUri.HeaderFixesRun` | server.js:36 | a header ending at `k` fixes the word run and the `;base64,` tag, so the header is unique |
| `DataUri.StripDataUriPrefix` | server.js:36 | `image.replace(...)` with the header regex; no contract, characterised by `DataUri.StripRemovesHeader` and `DataUri.StripKeepsHeaderless` |
| `DataUri.StripRemovesHeader` | server.js:36 | a header in front of any payload is removed, leaving exactly the payload |
| `DataUri.StripKeepsHeaderless` | server.js:36 | a string without a leading header is unchanged |
| `DataUri.StripExamples` | server.js:36 | `"data:image/png;base64,iVBOR"` becomes `"iVBOR"`, and `"iVBOR"` stays as it is |
| `Handler.DetectionsOrEmpty` | server.js:47 | `data.TextDetections` or an empty list when it is absent; no contract, used by `Handler.NoDetectionsNoPlate` |
| `Handler.PlateOf` | server.js:50-99 | the matcher applied to the normalized detections; no contract, characterised by `Handler.PlateReadBack` and `Handler.ReportedPlateShape` |
| `Handler.DetectPlate` | server.js:27-105 | a missing or empty image gives 400; a failed OCR call on the stripped payload gives 500; otherwise the reply is the plate the rules select from the normalized `TextDetections`, or an empty list when it is absent |
| `Handler.NoDetectionsNoPlate` | server.js:47 | an absent or empty detection list gives `{ plate: null }` |
| `Handler.PlateReadBack` | server.js:50-95 | a reported plate, detected again as the only `LINE`, passes the normalizer unchanged and is reported again |
| `Handler.ReportedPlateShape` | server.js:50-95 | a reported plate is non-empty, over `[A-Z0-9 ]`, never numeric, with at most one space |

## Left out

- Express setup, CORS, the 10 MB JSON body limit, routing and `app.listen` (server.js:1-14, 108-110): HTTP plumbing.
- AWS SDK configuration and the Rekognition client (server.js:16-24). The `detectText` call is a function parameter of `Handler.DetectPlate`.
- Base64 decoding with `Buffer.from` (server.js:37): a library call, folded into the OCR parameter, which receives the stripped Base64 text.
- Confidence scores and all other detection fields besides `Type` and `DetectedText`: the code ignores them.
- `console.log` and `console.error` (server.js:58, 66, 78, 94, 103): output only.
- An `image` value that is truthy but not a string: `image.replace` would throw outside the `try`. The model takes the image as an optional string.
- A `LINE` detection without `DetectedText`: reading `.length` would throw inside the `try` and give a 500 reply. The model assumes every detection carries a text.
- Normalizer.Trim: removes spaces only, not every JavaScript whitespace character. It is only applied to text that has passed the `[A-Z0-9 ]` filter, so on every input it receives it agrees with `String.prototype.trim`.
- Normalizer.Keep: lengths are counted in characters, not UTF-16 code units. The two agree on every text that passes the ASCII charset filter, and any other text is dropped either way.
