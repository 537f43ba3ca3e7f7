/**
 * Cleaning of the model's raw reply before JSON parsing: surrounding whitespace and
 * Markdown code fences are removed. Three variants exist in the repository: the
 * per-form extractors' `_clean_json_response`, the generic vision client's
 * `_parse_json`, and the extract-form endpoint's fallback parser, which tests the
 * two opening fences with independent `if`s instead of `if`/`elif`.
 */
module Fences {
  import opened Json
  import opened Text

  const JsonFence: string := "```json"
  const Fence: string := "```"

  /** Drop one opening fence ("```json" preferred over "```") and one closing fence. */
  function Unfence(t: string): (r: string)
    ensures |r| <= |t|
  {
    var t1 := if StartsWith(t, JsonFence) then t[7..] else if StartsWith(t, Fence) then t[3..] else t;
    if EndsWith(t1, Fence) then t1[..|t1| - 3] else t1
  }

  /** Strip, then drop the fences. */
  function RemoveFences(text: string): (r: string)
    ensures |r| <= |text|
  {
    Unfence(Strip(text))
  }

  /** `_clean_json_response`: the text handed to the JSON parser. */
  function CleanJsonResponse(text: string): (r: string)
    ensures |r| <= |text|
    ensures r == [] || (!IsSpace(r[0]) && !IsSpace(r[|r| - 1]))
  {
    Strip(RemoveFences(text))
  }

  /** The cleaned text carries no surrounding whitespace. */
  lemma CleanJsonStripped(text: string)
    ensures Strip(CleanJsonResponse(text)) == CleanJsonResponse(text)
  {
    StripIdempotent(RemoveFences(text));
  }

  /** A reply wrapped in a "```json" fence yields exactly the stripped body. */
  lemma CleanJsonFenced(body: string)
    ensures CleanJsonResponse(JsonFence + body + Fence) == Strip(body)
  {
    var text := JsonFence + body + Fence;
    StripKeeps(text);
    assert text[..7] == JsonFence;
    assert text[7..] == body + Fence;
    assert (body + Fence)[..|body|] == body;
    assert RemoveFences(text) == body;
  }

  /** A reply wrapped in a bare "```" fence yields the stripped body, unless the body begins with "json". */
  lemma CleanBareFenced(body: string)
    requires !StartsWith(body, "json")
    ensures CleanJsonResponse(Fence + body + Fence) == Strip(body)
  {
    var text := Fence + body + Fence;
    StripKeeps(text);
    if |body| >= 4 {
      assert text[..7][3..7] == body[..4];
    } else if |text| >= 7 {
      assert text[..7][3 + |body|] == '`';
    }
    assert !StartsWith(text, JsonFence);
    assert text[..3] == Fence;
    assert text[3..] == body + Fence;
    assert (body + Fence)[..|body|] == body;
    assert RemoveFences(text) == body;
  }

  /** Without fences the cleaning is plain `strip`. */
  lemma CleanJsonUnfenced(text: string)
    requires !StartsWith(Strip(text), Fence) && !EndsWith(Strip(text), Fence)
    ensures CleanJsonResponse(text) == Strip(text)
  {
    UnfenceUnfenced(Strip(text));
    StripIdempotent(text);
  }

  lemma UnfenceUnfenced(t: string)
    requires !StartsWith(t, Fence) && !EndsWith(t, Fence)
    ensures Unfence(t) == t
  {
    if |t| >= 7 {
      assert t[..3] == t[..7][..3];
    }
    assert !StartsWith(t, JsonFence);
  }

  /** Whitespace around the reply never changes the cleaned text. */
  lemma CleanJsonIgnoresSurroundingSpace(w1: string, text: string, w2: string)
    requires forall k :: 0 <= k < |w1| ==> IsSpace(w1[k])
    requires forall k :: 0 <= k < |w2| ==> IsSpace(w2[k])
    ensures CleanJsonResponse(w1 + text + w2) == CleanJsonResponse(text)
  {
    StripSurrounded(w1, text, w2);
  }

  /**
   * The per-form extractors' reply parsing: the cleaned text when it parses, otherwise
   * an error record carrying the original reply. `parse` stands for `json.loads`.
   */
  function ParseExtractorReply(text: string, parse: string -> Option<Json>): (r: Json)
    ensures HasError(r) <== parse(CleanJsonResponse(text)).None?
    ensures parse(CleanJsonResponse(text)).Some? ==> r == parse(CleanJsonResponse(text)).value
    ensures parse(CleanJsonResponse(text)).None? ==> Get(r, "raw_response") == Some(JStr(text))
  {
    match parse(CleanJsonResponse(text))
    case Some(j) => j
    case None => ExtractorError(text)
  }

  /** `{"raw_response": text, "error": "Failed to parse JSON"}`. */
  function ExtractorError(text: string): (r: Json)
    ensures HasError(r) && Get(r, "raw_response") == Some(JStr(text))
  {
    var r := JObj([("raw_response", JStr(text)), ("error", JStr("Failed to parse JSON"))]);
    HasKeyAt(r.fields, 1);
    r
  }

  /**
   * The vision client's `_parse_json`: like the extractors' parser, but on failure the
   * error record carries the reply with its fences removed.
   */
  function VisionParseJson(text: string, parse: string -> Option<Json>): (r: Json)
    ensures parse(CleanJsonResponse(text)).None? ==>
      HasError(r) && Get(r, "raw") == Some(JStr(RemoveFences(text)))
    ensures parse(CleanJsonResponse(text)).Some? ==> r == parse(CleanJsonResponse(text)).value
  {
    match parse(CleanJsonResponse(text))
    case Some(j) => j
    case None => VisionError(RemoveFences(text))
  }

  /** `{"error": "Failed to parse JSON", "raw": raw}`. */
  function VisionError(raw: string): (r: Json)
    ensures HasError(r) && Get(r, "raw") == Some(JStr(raw))
  {
    var r := JObj([("error", JStr("Failed to parse JSON")), ("raw", JStr(raw))]);
    HasKeyAt(r.fields, 0);
    r
  }

  /**
   * The extract-form endpoint's fallback: after stripping, "```json" and "```" are each
   * removed when present, one after the other, then a closing fence, then whitespace.
   */
  function EndpointCleanReply(text: string): (r: string)
    ensures |r| <= |text|
    ensures r == [] || (!IsSpace(r[0]) && !IsSpace(r[|r| - 1]))
  {
    Strip(EndpointUnfence(Strip(text)))
  }

  /** The endpoint's fence removal on stripped text. */
  function EndpointUnfence(t: string): (r: string)
    ensures |r| <= |t|
  {
    var t1 := if StartsWith(t, JsonFence) then t[7..] else t;
    var t2 := if StartsWith(t1, Fence) then t1[3..] else t1;
    if EndsWith(t2, Fence) then t2[..|t2| - 3] else t2
  }

  /**
   * The two cleanings disagree on a "```json" fence followed by a second opening fence:
   * on "```json```{}```" the canonical one gives "```{}" and the endpoint's gives "{}".
   */
  lemma EndpointCleanDiffers(body: string)
    requires body != [] && !IsSpace(body[0]) && !IsSpace(body[|body| - 1])
    ensures CleanJsonResponse(JsonFence + Fence + body + Fence) == Fence + body
    ensures EndpointCleanReply(JsonFence + Fence + body + Fence) == body
  {
    CanonicalDoubleFence(body);
    EndpointDoubleFence(body);
    StripKeeps(body);
    StripKeepsFenced(body);
  }

  lemma StripKeepsFenced(body: string)
    requires body != [] && !IsSpace(body[|body| - 1])
    ensures Strip(Fence + body) == Fence + body
  {
    var f := Fence + body;
    assert f[0] == '`' && f[|f| - 1] == body[|body| - 1];
    StripKeeps(f);
  }

  /** Behind a "```json" fence, the canonical cleaning keeps a second opening fence. */
  lemma CanonicalDoubleFence(body: string)
    ensures CleanJsonResponse(JsonFence + Fence + body + Fence) == Strip(Fence + body)
  {
    assert JsonFence + Fence + body + Fence == JsonFence + (Fence + body) + Fence;
    CleanJsonFenced(Fence + body);
  }

  /** Behind a "```json" fence, the endpoint's cleaning removes a second opening fence too. */
  lemma EndpointDoubleFence(body: string)
    ensures EndpointCleanReply(JsonFence + Fence + body + Fence) == Strip(body)
  {
    var text := JsonFence + Fence + body + Fence;
    StripKeeps(text);
    assert text[..7] == JsonFence;
    var t1 := text[7..];
    assert t1 == Fence + body + Fence;
    assert t1[..3] == Fence;
    var t2 := t1[3..];
    assert t2 == body + Fence;
    assert t2[|t2| - 3..] == Fence;
    assert t2[..|t2| - 3] == body;
  }

  /** On replies with at most one opening fence the two cleanings agree. */
  lemma EndpointCleanAgrees(text: string)
    requires !(StartsWith(Strip(text), JsonFence) && StartsWith(Strip(text)[7..], Fence))
    ensures EndpointCleanReply(text) == CleanJsonResponse(text)
  {
    UnfenceAgrees(Strip(text));
  }

  lemma UnfenceAgrees(t: string)
    requires !(StartsWith(t, JsonFence) && StartsWith(t[7..], Fence))
    ensures EndpointUnfence(t) == Unfence(t)
  {
  }
}
