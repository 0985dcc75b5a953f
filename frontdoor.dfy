/**
 * The HTTP request handler of http-server.ts as a decision: given the
 * request, the set of session ids the server knows and the platform
 * services, which response is written and which action is taken.
 */
module FrontDoor {
  import opened Wrappers
  import opened JsonValue
  import opened Http
  import opened ApiKey

  /** What the handler does with one request. */
  datatype Outcome =
    | Preflight                        // 204, CORS preflight
    | HealthOk                         // 200, {status: "ok", timestamp}
    | Forward(sessionId: string)       // handed to that session's transport
    | CreateSession(apiKey: Json)      // new transport and MCP server bound to apiKey
    | ApiKeyRequired(requestId: Option<Json>) // 401, JSON-RPC error -32001; id omitted when undefined
    | BadRequest(echoedId: Json)       // 400, JSON-RPC error -32000
    | InvalidSession                   // 400, text/plain
    | MethodNotAllowed                 // 405
    | NotFound                         // 404
    | InternalError                    // 500, JSON-RPC error -32603, id null

  /** The HTTP status the handler writes itself; for Forward and CreateSession the transport writes it. */
  function StatusCode(o: Outcome): Option<int> {
    match o
    case Preflight => Some(204)
    case HealthOk => Some(200)
    case Forward(_) => None
    case CreateSession(_) => None
    case ApiKeyRequired(_) => Some(401)
    case BadRequest(_) => Some(400)
    case InvalidSession => Some(400)
    case MethodNotAllowed => Some(405)
    case NotFound => Some(404)
    case InternalError => Some(500)
  }

  /** The JSON-RPC error code of the envelope, for the outcomes that write one. */
  function RpcErrorCode(o: Outcome): Option<int> {
    match o
    case ApiKeyRequired(_) => Some(-32001)
    case BadRequest(_) => Some(-32000)
    case InternalError => Some(-32603)
    case _ => None
  }

  /** Only these paths reach MCP handling. */
  predicate IsMcpPath(url: string) {
    url == "/mcp" || url == "/"
  }

  /** The body the handler works with: parsed for POST (None when `parseBody` rejects), `{}` otherwise. */
  function ReadBody(req: Request, p: Platform): Option<Json> {
    if req.httpMethod == "POST" then BodyValue(Concat(req.chunks), req.streamError, p.parseJson)
    else Some(EmptyObject)
  }

  /**
   * Whether JavaScript's conversion of `v` to a string throws a TypeError.
   * A parsed object with its own `toString` key has no callable `toString`
   * and its inherited `valueOf` returns the object itself; an array is
   * joined, converting each element in turn.
   */
  predicate ToStringThrows(v: Json)
    ensures ToStringThrows(v) ==> v.JObject? || v.JArray?
  {
    match v
    case JObject(fields) => "toString" in fields
    case JArray(items) => exists i | 0 <= i < |items| :: ToStringThrows(items[i])
    case _ => false
  }

  /** The request log line `${bodyObj?.method || 'N/A'}` throws before any response is written. */
  predicate LogThrows(body: Json)
    ensures LogThrows(body) ==> !IsInitializeRequest(Some(body))
  {
    var m := Get(Some(body), "method");
    TruthyOpt(m) && ToStringThrows(m.value)
  }

  /** The `catch` of the handler: a 500 envelope unless the response has already started. */
  function CatchAll(headersSent: bool): (o: Option<Outcome>)
    ensures o.Some? <==> !headersSent
    ensures o.Some? ==> StatusCode(o.value) == Some(500) && RpcErrorCode(o.value) == Some(-32603)
  {
    if headersSent then None else Some(InternalError)
  }

  /** The MCP endpoint, for a body that was read successfully. */
  function McpRoute(req: Request, body: Json, sessions: set<string>, p: Platform): Outcome {
    var sid := req.sessionId;
    if req.httpMethod == "POST" then
      if HasSessionId(req) && sid.value in sessions then Forward(sid.value)
      else if !HasSessionId(req) && IsInitializeRequest(Some(body)) then
        var key := ExtractApiKey(req, Some(body), p);
        if !TruthyOpt(key) then ApiKeyRequired(Get(Some(body), "id"))
        else CreateSession(key.value)
      else
        var id := Get(Some(body), "id");
        BadRequest(if TruthyOpt(id) then id.value else JNull)
    else if req.httpMethod == "GET" || req.httpMethod == "DELETE" then
      if !HasSessionId(req) || sid.value !in sessions then InvalidSession
      else Forward(sid.value)
    else MethodNotAllowed
  }

  /** The whole handler. */
  function Route(req: Request, sessions: set<string>, p: Platform): (o: Outcome)
    ensures o.Forward? ==> HasSessionId(req) && o.sessionId == req.sessionId.value && o.sessionId in sessions
    ensures o.CreateSession? ==> req.httpMethod == "POST" && !HasSessionId(req) && Truthy(o.apiKey)
    ensures o.InternalError? <==>
            req.httpMethod != "OPTIONS" && IsMcpPath(req.url) &&
            (ReadBody(req, p).None? || LogThrows(ReadBody(req, p).value))
  {
    if req.httpMethod == "OPTIONS" then Preflight
    else if req.url == "/health" && req.httpMethod == "GET" then HealthOk
    else if IsMcpPath(req.url) then
      match ReadBody(req, p)
      case None => CatchAll(false).value
      case Some(body) =>
        if LogThrows(body) then CatchAll(false).value
        else McpRoute(req, body, sessions, p)
    else NotFound
  }

  // ---------------------------------------------------------------------
  // Routing properties.
  // ---------------------------------------------------------------------

  /** OPTIONS is answered 204 for any URL, before anything else is looked at. */
  lemma OptionsAlwaysPreflight(req: Request, sessions: set<string>, p: Platform)
    requires req.httpMethod == "OPTIONS"
    ensures Route(req, sessions, p) == Preflight && StatusCode(Preflight) == Some(204)
  {
  }

  /** GET /health is answered 200 whatever the headers and sessions. */
  lemma HealthIsAlwaysOk(req: Request, sessions: set<string>, p: Platform)
    requires req.httpMethod == "GET" && req.url == "/health"
    ensures Route(req, sessions, p) == HealthOk
  {
  }

  /** Every other URL is 404, whatever the method (POST /health included). */
  lemma OtherPathsNotFound(req: Request, sessions: set<string>, p: Platform)
    requires req.httpMethod != "OPTIONS" && !IsMcpPath(req.url)
    requires !(req.url == "/health" && req.httpMethod == "GET")
    ensures Route(req, sessions, p) == NotFound
  {
  }

  /** A POST body that is not empty and not JSON ends in the 500 envelope. */
  lemma MalformedBodyIsInternalError(req: Request, sessions: set<string>, p: Platform)
    requires req.httpMethod == "POST" && IsMcpPath(req.url)
    requires Concat(req.chunks) != "" && p.parseJson(Concat(req.chunks)).None?
    ensures Route(req, sessions, p) == InternalError
  {
  }

  /** A stream error while reading a POST body ends in the 500 envelope. */
  lemma StreamErrorIsInternalError(req: Request, sessions: set<string>, p: Platform)
    requires req.httpMethod == "POST" && IsMcpPath(req.url) && req.streamError
    ensures Route(req, sessions, p) == InternalError
  {
  }

  /**
   * A body whose `method` is an object with its own `toString` key makes the
   * log line throw: the answer is the 500 envelope, even for a known session.
   */
  lemma UnloggableMethodIsInternalError(req: Request, sessions: set<string>, p: Platform, body: map<string, Json>)
    requires req.httpMethod == "POST" && IsMcpPath(req.url)
    requires ReadBody(req, p) == Some(JObject(body))
    requires "method" in body && body["method"].JObject? && "toString" in body["method"].fields
    ensures Route(req, sessions, p) == InternalError
  {
  }

  /** A POST carrying a known session id goes to that session and no other, once its body is read and logged. */
  lemma PostKnownSessionForwards(req: Request, sessions: set<string>, p: Platform)
    requires req.httpMethod == "POST" && IsMcpPath(req.url)
    requires HasSessionId(req) && req.sessionId.value in sessions
    requires ReadBody(req, p).Some? && !LogThrows(ReadBody(req, p).value)
    ensures Route(req, sessions, p) == Forward(req.sessionId.value)
  {
  }

  /**
   * A session is created exactly for a well-formed POST to the MCP endpoint
   * without a session id, whose body is an initialize request and for which
   * a truthy key resolves; the key is the one extractApiKey resolves.
   */
  lemma CreateSessionExactly(req: Request, sessions: set<string>, p: Platform)
    ensures Route(req, sessions, p).CreateSession? <==>
            req.httpMethod == "POST" && IsMcpPath(req.url) && ReadBody(req, p).Some? &&
            !HasSessionId(req) && IsInitializeRequest(ReadBody(req, p)) &&
            TruthyOpt(ExtractApiKey(req, ReadBody(req, p), p))
    ensures Route(req, sessions, p).CreateSession? ==>
            Some(Route(req, sessions, p).apiKey) == ExtractApiKey(req, ReadBody(req, p), p)
  {
  }

  /** An initialize request for which no key resolves gets 401 with -32001, echoing the body's id. */
  lemma InitializeWithoutKeyIsUnauthorized(req: Request, sessions: set<string>, p: Platform)
    requires req.httpMethod == "POST" && IsMcpPath(req.url) && !HasSessionId(req)
    requires ReadBody(req, p).Some? && IsInitializeRequest(ReadBody(req, p))
    requires !TruthyOpt(ExtractApiKey(req, ReadBody(req, p), p))
    ensures Route(req, sessions, p) == ApiKeyRequired(Get(ReadBody(req, p), "id"))
    ensures StatusCode(Route(req, sessions, p)) == Some(401)
    ensures RpcErrorCode(Route(req, sessions, p)) == Some(-32001)
  {
  }

  /**
   * Every other readable, loggable POST gets 400 with -32000 and `id: body.id || null`;
   * in particular an unknown session id never creates a session, even with
   * an initialize body.
   */
  lemma OtherPostsAreBadRequests(req: Request, sessions: set<string>, p: Platform)
    requires req.httpMethod == "POST" && IsMcpPath(req.url) && ReadBody(req, p).Some?
    requires !LogThrows(ReadBody(req, p).value)
    requires !(HasSessionId(req) && req.sessionId.value in sessions)
    requires HasSessionId(req) || !IsInitializeRequest(ReadBody(req, p))
    ensures var id := Get(ReadBody(req, p), "id");
            Route(req, sessions, p) == BadRequest(if TruthyOpt(id) then id.value else JNull)
    ensures RpcErrorCode(Route(req, sessions, p)) == Some(-32000)
  {
  }

  /** `body.id || null` loses a falsy id: an id of 0 is echoed as null. */
  lemma ZeroIdEchoedAsNull(req: Request, sessions: set<string>, p: Platform)
    requires req.httpMethod == "POST" && IsMcpPath(req.url) && !HasSessionId(req)
    requires ReadBody(req, p) == Some(JObject(map["id" := JNumber(0.0)]))
    ensures Route(req, sessions, p) == BadRequest(JNull)
  {
    assert !IsInitializeRequest(ReadBody(req, p));
  }

  /** An unknown session id never leads to a session being created or a transport being reached. */
  lemma UnknownSessionNeverCreates(req: Request, sessions: set<string>, p: Platform)
    requires HasSessionId(req) && req.sessionId.value !in sessions
    ensures !Route(req, sessions, p).CreateSession? && !Route(req, sessions, p).Forward?
  {
  }

  /** GET and DELETE without a known session id get the 400 text answer; no transport is touched. */
  lemma StreamAndDeleteNeedKnownSession(req: Request, sessions: set<string>, p: Platform)
    requires req.httpMethod == "GET" || req.httpMethod == "DELETE"
    requires IsMcpPath(req.url)
    ensures Route(req, sessions, p) ==
            if HasSessionId(req) && req.sessionId.value in sessions then Forward(req.sessionId.value)
            else InvalidSession
  {
  }

  /** Any method other than OPTIONS, POST, GET and DELETE on the MCP endpoint gets 405. */
  lemma OtherMethodsNotAllowed(req: Request, sessions: set<string>, p: Platform)
    requires IsMcpPath(req.url)
    requires req.httpMethod !in {"OPTIONS", "POST", "GET", "DELETE"}
    ensures Route(req, sessions, p) == MethodNotAllowed && StatusCode(MethodNotAllowed) == Some(405)
  {
  }

  /** The decision depends on the session map only through membership of the request's own id. */
  lemma RouteDependsOnlyOnOwnSession(req: Request, s1: set<string>, s2: set<string>, p: Platform)
    requires HasSessionId(req) ==> (req.sessionId.value in s1 <==> req.sessionId.value in s2)
    ensures Route(req, s1, p) == Route(req, s2, p)
  {
  }
}
