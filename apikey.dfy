/**
 * `extractApiKey` of http-server.ts: the Companies House API key is looked
 * up in five places, in a fixed order, and the first place that yields a
 * key decides the result.
 */
module ApiKey {
  import opened Wrappers
  import opened JsonValue
  import opened Http

  /**
   * The verdict of one source: Skip lets the search go on, Hit ends it with
   * the value that is returned (which is `undefined` in one corner case of
   * the x-api-key header).
   */
  datatype Probe = Skip | Hit(key: Option<Json>)

  /**
   * x-mcp-config: parse the (first) header value as JSON and take its
   * truthy `apiKey`. A parse failure, including the `undefined` of an empty
   * list, is caught and ignored.
   */
  function ConfigHeaderProbe(h: HeaderValue, p: Platform): Probe {
    if !HeaderPresent(h) then Skip
    else
      match FirstValue(h)
      case None => Skip
      case Some(text) =>
        var key := Get(p.parseJson(text), "apiKey");
        if TruthyOpt(key) then Hit(key) else Skip
  }

  /** x-api-key: any truthy header value is returned as it is (its first element for a list). */
  function ApiKeyHeaderProbe(h: HeaderValue): Probe {
    if !HeaderPresent(h) then Skip
    else
      match FirstValue(h)
      case None => Hit(None)
      case Some(v) => Hit(Some(JString(v)))
  }

  /** `decoded.split(':')[0]`: the text before the first colon. */
  function UserName(decoded: string): (user: string)
    ensures user <= decoded
    ensures ':' !in user
    ensures |user| < |decoded| ==> decoded[|user|] == ':'
  {
    if decoded == "" || decoded[0] == ':' then "" else [decoded[0]] + UserName(decoded[1..])
  }

  /** Authorization: only the `Basic ` scheme, whose decoded user name is the key when non-empty. */
  function BasicAuthProbe(auth: Option<string>, p: Platform): Probe {
    if auth.Some? && auth.value != "" && "Basic " <= auth.value then
      var user := UserName(p.decodeBase64(auth.value[6..]));
      if user != "" then Hit(Some(JString(user))) else Skip
    else Skip
  }

  /** `params.clientInfo.config.apiKey` of a body whose `method` is `initialize`. */
  function InitializeBodyProbe(body: Option<Json>): Probe {
    if IsInitializeRequest(body) then
      var key := Get(Get(Get(Get(body, "params"), "clientInfo"), "config"), "apiKey");
      if TruthyOpt(key) then Hit(key) else Skip
    else Skip
  }

  /** The process-wide fallback, used when the variable is set and non-empty. */
  function EnvProbe(env: Option<string>): Probe {
    if env.Some? && env.value != "" then Hit(Some(JString(env.value))) else Skip
  }

  /** `extractApiKey(req, body)`, branch by branch in the source's order. */
  function ExtractApiKey(req: Request, body: Option<Json>, p: Platform): Option<Json> {
    var config := ConfigHeaderProbe(req.mcpConfig, p);
    if config.Hit? then config.key
    else
      var header := ApiKeyHeaderProbe(req.apiKeyHeader);
      if header.Hit? then header.key
      else
        var basic := BasicAuthProbe(req.authorization, p);
        if basic.Hit? then basic.key
        else
          var init := InitializeBodyProbe(body);
          if init.Hit? then init.key
          else
            var env := EnvProbe(p.envApiKey);
            if env.Hit? then env.key else None
  }

  // ---------------------------------------------------------------------
  // Reference definition: an ordered list of resolvers, first hit wins.
  // ---------------------------------------------------------------------

  /** The sources in priority order. */
  function Probes(req: Request, body: Option<Json>, p: Platform): (ps: seq<Probe>)
    ensures |ps| == 5
  {
    [ConfigHeaderProbe(req.mcpConfig, p),
     ApiKeyHeaderProbe(req.apiKeyHeader),
     BasicAuthProbe(req.authorization, p),
     InitializeBodyProbe(body),
     EnvProbe(p.envApiKey)]
  }

  /** The value of the first Hit, `undefined` when every source is skipped. */
  function FirstHit(ps: seq<Probe>): Option<Json> {
    if ps == [] then None else if ps[0].Hit? then ps[0].key else FirstHit(ps[1..])
  }

  /** The index of the source that decides, |ps| when none does. */
  function Winner(ps: seq<Probe>): (w: nat)
    ensures w <= |ps|
    ensures forall j | 0 <= j < w :: ps[j].Skip?
    ensures w < |ps| ==> ps[w].Hit?
  {
    if ps == [] then 0 else if ps[0].Hit? then 0 else 1 + Winner(ps[1..])
  }

  lemma {:induction false} FirstHitIsWinner(ps: seq<Probe>)
    ensures FirstHit(ps) == if Winner(ps) < |ps| then ps[Winner(ps)].key else None
  {
    if ps != [] && ps[0].Skip? {
      FirstHitIsWinner(ps[1..]);
    }
  }

  /** The code's early-return chain is the first-hit search over the ordered sources. */
  lemma ExtractApiKeyIsFirstHit(req: Request, body: Option<Json>, p: Platform)
    ensures ExtractApiKey(req, body, p) == FirstHit(Probes(req, body, p))
  {
    var ps := Probes(req, body, p);
    var rest := ps[1..];
    assert FirstHit(ps) == if ps[0].Hit? then ps[0].key else FirstHit(rest);
    assert FirstHit(rest) == if ps[1].Hit? then ps[1].key else FirstHit(rest[1..]);
    assert FirstHit(rest[1..]) == if ps[2].Hit? then ps[2].key else FirstHit(rest[1..][1..]);
    assert FirstHit(rest[1..][1..]) == if ps[3].Hit? then ps[3].key else FirstHit(rest[1..][1..][1..]);
    assert FirstHit(rest[1..][1..][1..]) == if ps[4].Hit? then ps[4].key else FirstHit([]);
  }

  /**
   * Priority, for every pair of sources: when source i hits, no later source
   * j can change the result, whatever it says.
   */
  lemma {:induction false} EarlierSourceWins(ps: seq<Probe>, qs: seq<Probe>, i: nat)
    requires |ps| == |qs| && i < |ps|
    requires ps[i].Hit?
    requires forall j | 0 <= j <= i :: ps[j] == qs[j]
    ensures FirstHit(ps) == FirstHit(qs)
  {
    if ps[0].Skip? {
      EarlierSourceWins(ps[1..], qs[1..], i - 1);
    }
  }

  /** A source that is skipped can be removed without changing the result (fall-through). */
  lemma {:induction false} SkippedSourceIsInert(ps: seq<Probe>, i: nat)
    requires i < |ps| && ps[i].Skip?
    ensures FirstHit(ps) == FirstHit(ps[..i] + ps[i + 1..])
  {
    if i > 0 && ps[0].Skip? {
      SkippedSourceIsInert(ps[1..], i - 1);
      assert (ps[..i] + ps[i + 1..])[1..] == ps[1..][..i - 1] + ps[1..][i..];
    } else if i > 0 {
      assert (ps[..i] + ps[i + 1..])[0] == ps[0];
    } else {
      assert ps[..i] + ps[i + 1..] == ps[1..];
    }
  }

  // ---------------------------------------------------------------------
  // The properties, stated on the request.
  // ---------------------------------------------------------------------

  /** A usable x-mcp-config header beats every other source. */
  lemma ConfigHeaderWins(req: Request, body: Option<Json>, p: Platform, text: string)
    requires HeaderPresent(req.mcpConfig) && FirstValue(req.mcpConfig) == Some(text)
    requires TruthyOpt(Get(p.parseJson(text), "apiKey"))
    ensures ExtractApiKey(req, body, p) == Get(p.parseJson(text), "apiKey")
    ensures TruthyOpt(ExtractApiKey(req, body, p))
  {
  }

  /**
   * An x-mcp-config header that is not JSON, or whose `apiKey` is missing or
   * falsy, does not stop the search: the result is as if it were absent.
   */
  lemma ConfigHeaderFallsThrough(req: Request, body: Option<Json>, p: Platform, text: string)
    requires FirstValue(req.mcpConfig) == Some(text)
    requires p.parseJson(text).None? || !TruthyOpt(Get(p.parseJson(text), "apiKey"))
    ensures ExtractApiKey(req, body, p) == ExtractApiKey(req.(mcpConfig := Absent), body, p)
  {
  }

  /** Second in line: a non-empty x-api-key header; for a list, its first element. */
  lemma ApiKeyHeaderSecond(req: Request, body: Option<Json>, p: Platform, first: string)
    requires ConfigHeaderProbe(req.mcpConfig, p).Skip?
    requires (req.apiKeyHeader == Single(first) && first != "")
          || (req.apiKeyHeader.Repeated? && |req.apiKeyHeader.values| > 0 && req.apiKeyHeader.values[0] == first)
    ensures ExtractApiKey(req, body, p) == Some(JString(first))
  {
  }

  /**
   * Basic authentication: the key is the decoded text before the first
   * colon, provided the header starts with `Basic ` and that text is not empty.
   */
  lemma BasicAuthUserName(req: Request, body: Option<Json>, p: Platform, credentials: string)
    requires ConfigHeaderProbe(req.mcpConfig, p).Skip? && !HeaderPresent(req.apiKeyHeader)
    requires req.authorization == Some("Basic " + credentials)
    ensures var decoded := p.decodeBase64(credentials);
            var key := ExtractApiKey(req, body, p);
            if decoded == "" || decoded[0] == ':'
            then key == ExtractApiKey(req.(authorization := None), body, p)
            else exists user :: key == Some(JString(user)) && user != "" && ':' !in user
                                && user <= decoded && (|user| < |decoded| ==> decoded[|user|] == ':')
  {
    var auth := "Basic " + credentials;
    assert "Basic " <= auth;
    assert auth[6..] == credentials;
    var decoded := p.decodeBase64(credentials);
    if decoded != "" && decoded[0] != ':' {
      var user := UserName(decoded);
      assert user[0] == decoded[0];
    }
  }

  /** Any other scheme (Bearer included) is ignored: the result is as if the header were absent. */
  lemma OtherAuthSchemesIgnored(req: Request, body: Option<Json>, p: Platform)
    requires req.authorization.Some? && !("Basic " <= req.authorization.value)
    ensures ExtractApiKey(req, body, p) == ExtractApiKey(req.(authorization := None), body, p)
  {
  }

  /** The initialize body is consulted only for `method: "initialize"`. */
  lemma BodyConsultedOnlyForInitialize(req: Request, body: Option<Json>, p: Platform)
    requires !IsInitializeRequest(body)
    ensures ExtractApiKey(req, body, p) == ExtractApiKey(req, Some(EmptyObject), p)
  {
  }

  /** With no request source, the environment variable decides. */
  lemma EnvironmentIsLastResort(req: Request, body: Option<Json>, p: Platform)
    requires ConfigHeaderProbe(req.mcpConfig, p).Skip? && !HeaderPresent(req.apiKeyHeader)
    requires BasicAuthProbe(req.authorization, p).Skip? && InitializeBodyProbe(body).Skip?
    ensures ExtractApiKey(req, body, p) ==
            if p.envApiKey.Some? && p.envApiKey.value != "" then Some(JString(p.envApiKey.value)) else None
  {
  }

  /**
   * The result is `undefined` exactly when no source yields a key, or when the
   * x-api-key header is an empty list (the code returns its missing first
   * element without trying the later sources). Every other result is truthy,
   * except a list-valued x-api-key whose first element is the empty string.
   */
  lemma UndefinedOnlyWhenNothingFound(req: Request, body: Option<Json>, p: Platform)
    ensures ExtractApiKey(req, body, p).None? <==>
            ConfigHeaderProbe(req.mcpConfig, p).Skip? &&
            (req.apiKeyHeader == Repeated([]) ||
             (!HeaderPresent(req.apiKeyHeader) && forall i | 2 <= i < 5 :: Probes(req, body, p)[i].Skip?))
    ensures ExtractApiKey(req, body, p).Some? && !TruthyOpt(ExtractApiKey(req, body, p)) ==>
            req.apiKeyHeader.Repeated? && |req.apiKeyHeader.values| > 0 && req.apiKeyHeader.values[0] == ""
  {
    var ps := Probes(req, body, p);
    if !HeaderPresent(req.apiKeyHeader) && ConfigHeaderProbe(req.mcpConfig, p).Skip? {
      if ps[2].Skip? && ps[3].Skip? && ps[4].Skip? {
        assert forall i | 2 <= i < 5 :: ps[i].Skip?;
      }
    }
  }

  /**
   * `createServer(config)` of the single-tenant entry point:
   * `config?.apiKey || process.env.COMPANIES_HOUSE_API_KEY`, and a throw when
   * neither is a non-empty string.
   */
  function ServerApiKey(configKey: Option<string>, env: Option<string>): (r: Result<string, string>)
    ensures r.Success? <==> (configKey.Some? && configKey.value != "") || (env.Some? && env.value != "")
    ensures r.Success? ==> r.value != ""
    ensures configKey.Some? && configKey.value != "" ==> r == Success(configKey.value)
    ensures !(configKey.Some? && configKey.value != "") && env.Some? && env.value != "" ==> r == Success(env.value)
  {
    if configKey.Some? && configKey.value != "" then Success(configKey.value)
    else if env.Some? && env.value != "" then Success(env.value)
    else Failure("API key required: provide apiKey in config or set COMPANIES_HOUSE_API_KEY env var")
  }
}
