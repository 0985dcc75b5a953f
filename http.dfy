/**
 * The inbound HTTP request as the handler of http-server.ts reads it, the
 * platform services it relies on, and the request-body reader `parseBody`.
 */
module Http {
  import opened Wrappers
  import opened JsonValue

  /** A custom header as the `IncomingHttpHeaders` type allows: missing, one string, or a list. */
  datatype HeaderValue = Absent | Single(value: string) | Repeated(values: seq<string>)

  /** Truthiness of a header: a non-empty string, or any list (even an empty one). */
  predicate HeaderPresent(h: HeaderValue) {
    (h.Single? && h.value != "") || h.Repeated?
  }

  /** `Array.isArray(h) ? h[0] : h`, where indexing an empty list gives `undefined`. */
  function FirstValue(h: HeaderValue): Option<string> {
    match h
    case Absent => None
    case Single(v) => Some(v)
    case Repeated(vs) => if |vs| > 0 then Some(vs[0]) else None
  }

  /**
   * The parts of an `IncomingMessage` the handler looks at. The body is the
   * sequence of chunks delivered by the `data` events; `streamError` says
   * that the stream emitted `error` instead of `end`.
   */
  datatype Request = Request(
    httpMethod: string,
    url: string,
    sessionId: Option<string>,      // mcp-session-id
    mcpConfig: HeaderValue,         // x-mcp-config
    apiKeyHeader: HeaderValue,      // x-api-key
    authorization: Option<string>,  // authorization
    chunks: seq<string>,
    streamError: bool)

  /**
   * Services the handler calls but that are not part of this model:
   * `JSON.parse` (None where it throws), `Buffer.from(s, 'base64').toString()`
   * (total: Node skips characters outside the alphabet), and the
   * COMPANIES_HOUSE_API_KEY environment variable.
   */
  datatype Platform = Platform(
    parseJson: string -> Option<Json>,
    decodeBase64: string -> string,
    envApiKey: Option<string>)

  /** The `mcp-session-id` header is truthy: present and not the empty string. */
  predicate HasSessionId(req: Request) {
    req.sessionId.Some? && req.sessionId.value != ""
  }

  /** The text accumulated by `body += chunk`, one chunk after another. */
  function Concat(chunks: seq<string>): string {
    if chunks == [] then "" else Concat(chunks[..|chunks| - 1]) + chunks[|chunks| - 1]
  }

  /**
   * What `parseBody` resolves to (Some) or whether it rejects (None): a
   * stream error rejects, an empty text is `{}`, any other text is parsed.
   */
  function BodyValue(text: string, streamError: bool, parseJson: string -> Option<Json>): Option<Json> {
    if streamError then None else if text == "" then Some(EmptyObject) else parseJson(text)
  }

  /**
   * `parseBody`: accumulate the chunks, then parse; an empty body is `{}`,
   * and an `error` event on the stream rejects.
   */
  method ParseBody(chunks: seq<string>, streamError: bool, parseJson: string -> Option<Json>)
    returns (body: Option<Json>)
    ensures body == BodyValue(Concat(chunks), streamError, parseJson)
    ensures streamError ==> body.None?
    ensures !streamError && (forall i | 0 <= i < |chunks| :: chunks[i] == "") ==> body == Some(EmptyObject)
    ensures !streamError && (exists i | 0 <= i < |chunks| :: chunks[i] != "") ==> body == parseJson(Concat(chunks))
  {
    var text := "";
    var i := 0;
    while i < |chunks|
      invariant 0 <= i <= |chunks|
      invariant text == Concat(chunks[..i])
    {
      assert chunks[..i + 1][..i] == chunks[..i];
      text := text + chunks[i];
      i := i + 1;
    }
    assert chunks[..|chunks|] == chunks;
    ConcatEmpty(chunks);
    if streamError {
      body := None;
    } else if text == "" {
      body := Some(EmptyObject);
    } else {
      body := parseJson(text);
    }
  }

  /** The accumulated text is empty exactly when every chunk is. */
  lemma {:induction false} ConcatEmpty(chunks: seq<string>)
    ensures Concat(chunks) == "" <==> forall i | 0 <= i < |chunks| :: chunks[i] == ""
  {
    if chunks != [] {
      var init := chunks[..|chunks| - 1];
      ConcatEmpty(init);
      assert forall i | 0 <= i < |init| :: init[i] == chunks[i];
    }
  }

  /** `isInitializeRequest`: `body?.method === 'initialize'`. */
  predicate IsInitializeRequest(body: Option<Json>)
    ensures IsInitializeRequest(body) ==> body.Some? && body.value.JObject? && "method" in body.value.fields
  {
    Get(body, "method") == Some(JString("initialize"))
  }
}
