/**
 * The data-URI header removal applied to the posted image before Base64
 * decoding: `image.replace(/^data:image\/\w+;base64,/, "")`.
 */
module DataUri {
  import opened Wrappers

  const ImageLead: string := "data:image/"
  const Base64Tag: string := ";base64,"

  /** `\w`: an ASCII letter, a decimal digit or the underscore. */
  predicate IsWordChar(c: char) {
    ('A' <= c <= 'Z') || ('a' <= c <= 'z') || ('0' <= c <= '9') || c == '_'
  }

  /** `h` is a whole header: "data:image/", one or more word characters, ";base64,". */
  ghost predicate IsDataUriHeader(h: string) {
    && |h| >= |ImageLead| + 1 + |Base64Tag|
    && h[..|ImageLead|] == ImageLead
    && h[|h| - |Base64Tag|..] == Base64Tag
    && forall i :: |ImageLead| <= i < |h| - |Base64Tag| ==> IsWordChar(h[i])
  }

  /** The length of the run of word characters that starts `s`. */
  function WordRun(s: string): (n: nat)
    ensures n <= |s|
    ensures forall i :: 0 <= i < n ==> IsWordChar(s[i])
    ensures n < |s| ==> !IsWordChar(s[n])
  {
    if s == [] || !IsWordChar(s[0]) then 0 else 1 + WordRun(s[1..])
  }

  /**
   * The length of the header at the start of `s`, if there is one. The
   * header is unique: `\w` cannot match ';', so the word run is maximal.
   */
  function HeaderLength(s: string): (r: Option<nat>)
    ensures r.Some? ==> r.value <= |s| && IsDataUriHeader(s[..r.value])
    ensures r.None? ==> forall k :: 0 <= k <= |s| ==> !IsDataUriHeader(s[..k])
  {
    var lead := |ImageLead|;
    if |s| < lead || s[..lead] != ImageLead then
      assert forall k :: 0 <= k <= |s| && IsDataUriHeader(s[..k]) ==> s[..k][..lead] == s[..lead];
      None
    else
      var n := WordRun(s[lead..]);
      var end := lead + n + |Base64Tag|;
      if n >= 1 && end <= |s| && s[lead + n..end] == Base64Tag then
        var h := s[..end];
        assert h[..lead] == ImageLead;
        assert h[|h| - |Base64Tag|..] == Base64Tag;
        assert forall i :: lead <= i < |h| - |Base64Tag| ==> h[i] == s[lead..][i - lead];
        Some(end)
      else
        assert forall k :: 0 <= k <= |s| ==> !IsDataUriHeader(s[..k]) by {
          forall k | 0 <= k <= |s| && IsDataUriHeader(s[..k]) ensures false {
            HeaderFixesRun(s, k);
          }
        }
        None
  }

  /** A header ending at `k` forces the word run after "data:image/" to end at `k - 8`. */
  lemma HeaderFixesRun(s: string, k: nat)
    requires k <= |s| && IsDataUriHeader(s[..k])
    ensures |ImageLead| <= |s|
    ensures WordRun(s[|ImageLead|..]) == k - |ImageLead| - |Base64Tag|
    ensures s[k - |Base64Tag|..k] == Base64Tag
  {
    var lead := |ImageLead|;
    var h := s[..k];
    var rest := s[lead..];
    var m := k - lead - |Base64Tag|;
    var n := WordRun(rest);
    assert h[..lead] == s[..lead];
    assert s[k - |Base64Tag|..k] == h[|h| - |Base64Tag|..];
    assert forall i :: 0 <= i < m ==> rest[i] == h[lead + i];
    assert rest[m] == s[k - |Base64Tag|..k][0] == Base64Tag[0];
    assert m < |rest| && rest[m] == ';' && !IsWordChar(rest[m]);
  }

  /** The posted image with a leading data-URI header removed, if it has one. */
  function StripDataUriPrefix(s: string): (r: string)
  {
    match HeaderLength(s)
    case Some(k) => s[k..]
    case None => s
  }

  /** A header in front of any payload is removed, and nothing else is. */
  lemma StripRemovesHeader(h: string, payload: string)
    requires IsDataUriHeader(h)
    ensures StripDataUriPrefix(h + payload) == payload
  {
    var s := h + payload;
    assert s[..|h|] == h;
    var r := HeaderLength(s);
    assert r.Some?;
    HeaderFixesRun(s, |h|);
    HeaderFixesRun(s, r.value);
  }

  /** A string that does not start with a header is left as it is. */
  lemma StripKeepsHeaderless(s: string)
    requires forall k :: 0 <= k <= |s| ==> !IsDataUriHeader(s[..k])
    ensures StripDataUriPrefix(s) == s
  {
  }

  /** Concretely: a PNG data URI loses its header; a bare payload is unchanged. */
  lemma StripExamples()
    ensures StripDataUriPrefix("data:image/png;base64,iVBOR") == "iVBOR"
    ensures StripDataUriPrefix("iVBOR") == "iVBOR"
  {
    var h := ImageLead + "png" + Base64Tag;
    assert IsDataUriHeader(h) by {
      assert h[..|ImageLead|] == ImageLead;
      assert h[|h| - |Base64Tag|..] == Base64Tag;
    }
    assert h + "iVBOR" == "data:image/png;base64,iVBOR";
    StripRemovesHeader(h, "iVBOR");
  }
}
