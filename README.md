# UK Company Data MCP server: front door, sessions and tool dispatch in Dafny

This project models the stateful core of the Companies House MCP server. The
server exposes the UK Companies House REST API as MCP tools over one HTTP
endpoint. The model covers four pieces:

- **API-key resolution** (`extractApiKey`). The key is looked up in five
  sources in a fixed order, and the first source that yields wins: the
  `x-mcp-config` header's JSON `apiKey`, the `x-api-key` header, the user name
  of `Authorization: Basic` (RFC 7617 section 2), the
  `params.clientInfo.config.apiKey` of an `initialize` body, and the
  `COMPANIES_HOUSE_API_KEY` environment variable. Modules `ApiKey`, `Http`,
  `JsonValue`.
- **Front-door routing**. The HTTP handler is modelled as a pure decision
  `FrontDoor.Route` from a request, the set of live session ids and the
  platform services to a tagged outcome: 204, 200 health, forward, create
  session, 401/-32001, 400/-32000, 400 text, 405, 404 or 500/-32603.
- **Session registry**. The module-level `transports` map is the class
  `Sessions.SessionRegistry`, whose `map<string, TransportId>` field is
  changed by the session-initialized callback, by `onclose` and by the SIGINT
  sweep. `Handle` runs one request as one atomic step.
- **Tool dispatch** (`server.ts`). `routeToolCall` is a first-match search
  over the 37-entry chain of name comparisons. Each handler is tagged with its
  tools object. The CallTool handler turns anything thrown into an ordinary
  text result.

JSON values follow JavaScript semantics where the code relies on them:
truthiness (`if (config.apiKey)`, `body.id || null`) and property access
that yields `undefined` on non-objects. `JSON.parse`, base64 decoding and
the environment variable are fields of `Http.Platform`. The model takes them
as inputs and does not implement them. Fresh session ids (`randomUUID`) and
fresh transports are parameters of `Handle`, which requires them to be new.

The model follows the code on these points:
- There is no Bearer scheme and no second configuration header.
- The key is fixed when the session is created; later requests cannot
  refresh it.
- An entry whose close throws during shutdown stays in the map.
- An unknown tool name is reported as an ordinary text result, not as a
  protocol error.

## Model

| member | source | states |
|---|---|---|
| `Http.ParseBody` | src/http-server.ts:165-178 | the chunks are concatenated in order; a stream `error` event rejects; otherwise an empty body (every chunk empty) resolves to `{}`, any other body to the result of `JSON.parse`, rejecting where it throws |
| `Http.ConcatEmpty` | src/http-server.ts:167-171 | the accumulated body is empty exactly when every chunk is empty |
| `Http.IsInitializeRequest` | src/http-server.ts:225-228 | `body?.method === 'initialize'`: only a JSON object whose own `method` field is the string `initialize` is an initialize request |
| `ApiKey.UserName` | src/http-server.ts:201-203 | `split(':')[0]` is a prefix of the decoded text, contains no colon, and is followed by a colon when shorter than the text |
| `ApiKey.ExtractApiKey` | src/http-server.ts:181-222 | the early-return chain itself; it has no contract of its own, and its behaviour is stated by `ExtractApiKeyIsFirstHit`, `ConfigHeaderWins`, `ApiKeyHeaderSecond`, `BasicAuthUserName`, `BodyConsultedOnlyForInitialize`, `EnvironmentIsLastResort` and `UndefinedOnlyWhenNothingFound` |
| `ApiKey.ExtractApiKeyIsFirstHit` | src/http-server.ts:181-222 | the early-return chain equals the first hit over the ordered source list: x-mcp-config, x-api-key, Basic, initialize body, environment |
| `ApiKey.FirstHitIsWinner` | src/http-server.ts:181-222 | the result is the value of the earliest source that yields, and `undefined` when none does |
| `ApiKey.EarlierSourceWins` | src/http-server.ts:181-222 | priority for every pair of sources: once source i yields, nothing later sources say can change the result |
| `ApiKey.SkippedSourceIsInert` | src/http-server.ts:181-222 | a source that does not yield can be removed from the list without changing the result (fall-through) |
| `ApiKey.ConfigHeaderWins` | src/http-server.ts:183-189 | a parseable x-mcp-config with a truthy `apiKey` decides, whatever the other sources hold, and the key is truthy |
| `ApiKey.ConfigHeaderFallsThrough` | src/http-server.ts:183-189 | an x-mcp-config value that is not JSON, or whose `apiKey` is missing or falsy, gives the same result as no header at all |
| `ApiKey.ApiKeyHeaderSecond` | src/http-server.ts:191-195 | failing the config header, a non-empty x-api-key string, or the first element of a list-valued one, is the key |
| `ApiKey.BasicAuthUserName` | src/http-server.ts:197-205 | with `Basic <credentials>` and no earlier source, the key is the non-empty decoded text before the first colon; an empty user name falls through |
| `ApiKey.OtherAuthSchemesIgnored` | src/http-server.ts:197-205 | an Authorization header not starting with `Basic ` (Bearer included) gives the same result as no header |
| `ApiKey.BodyConsultedOnlyForInitialize` | src/http-server.ts:207-214 | a body whose `method` is not `initialize` gives the same result as an empty body |
| `ApiKey.EnvironmentIsLastResort` | src/http-server.ts:216-221 | with no request source yielding, the result is the environment variable when it is set and non-empty, otherwise `undefined` |
| `ApiKey.UndefinedOnlyWhenNothingFound` | src/http-server.ts:181-222 | the result is `undefined` exactly when no source yields or x-api-key is an empty list; a falsy key comes only from a list-valued x-api-key whose first element is empty |
| `ApiKey.ServerApiKey` | src/index.ts:20-24 | the single-tenant entry point uses the configured key, else the environment variable, and throws when neither is a non-empty string |
| `FrontDoor.Route` | src/http-server.ts:231-352 | a forward goes only to the request's own, known session id; a session is created only for a POST without a session id and with a truthy key; the 500 envelope is answered exactly on the MCP endpoint when the body cannot be read or the request log line throws |
| `FrontDoor.ToStringThrows` | src/http-server.ts:262 | JavaScript's string conversion throws only for an object or an array: an object with its own `toString` key, or an array holding such a value |
| `FrontDoor.LogThrows` | src/http-server.ts:262 | the request log line throws only on a body whose `method` cannot be converted to a string, which is never an initialize request |
| `FrontDoor.CatchAll` | src/http-server.ts:337-347 | an error thrown while handling yields 500 with -32603 exactly when headers were not yet sent |
| `FrontDoor.OptionsAlwaysPreflight` | src/http-server.ts:237-242 | OPTIONS gets 204 for any URL, before anything else is examined |
| `FrontDoor.HealthIsAlwaysOk` | src/http-server.ts:244-249 | GET /health gets 200 whatever the headers and sessions |
| `FrontDoor.OtherPathsNotFound` | src/http-server.ts:348-351 | any URL other than `/mcp` and `/` gets 404, POST /health included |
| `FrontDoor.MalformedBodyIsInternalError` | src/http-server.ts:255-259 | a non-empty POST body that is not JSON ends in the 500 envelope |
| `FrontDoor.StreamErrorIsInternalError` | src/http-server.ts:176 | a POST whose request stream reports an error ends in the 500 envelope |
| `FrontDoor.UnloggableMethodIsInternalError` | src/http-server.ts:262 | a body whose `method` is an object with its own `toString` key makes the log line throw, and the answer is the 500 envelope even for a known session |
| `FrontDoor.PostKnownSessionForwards` | src/http-server.ts:262-268 | a readable POST with a known session id, whose `method` can be logged, is forwarded to that session |
| `FrontDoor.CreateSessionExactly` | src/http-server.ts:269-305 | a session is created if and only if a readable POST to the MCP endpoint has no session id, an initialize body and a truthy resolved key, and it is bound to that key |
| `FrontDoor.InitializeWithoutKeyIsUnauthorized` | src/http-server.ts:271-282 | an initialize request without a resolvable key gets 401 with -32001, echoing the body's `id` |
| `FrontDoor.OtherPostsAreBadRequests` | src/http-server.ts:306-314 | every other readable and loggable POST, including an unknown session id with an initialize body, gets 400 with -32000 and `id: body.id \|\| null` |
| `FrontDoor.ZeroIdEchoedAsNull` | src/http-server.ts:312 | `body.id \|\| null` echoes a request id of 0 as null |
| `FrontDoor.UnknownSessionNeverCreates` | src/http-server.ts:264-332 | a request carrying an unknown session id never creates a session and never reaches a transport |
| `FrontDoor.StreamAndDeleteNeedKnownSession` | src/http-server.ts:315-332 | GET and DELETE forward to a known session and otherwise get the 400 text answer |
| `FrontDoor.OtherMethodsNotAllowed` | src/http-server.ts:333-336 | any other method on the MCP endpoint gets 405 |
| `FrontDoor.RouteDependsOnlyOnOwnSession` | src/http-server.ts:253-332 | the decision depends on the session map only through whether the request's own id is in it |
| `Sessions.SessionRegistry.constructor` | src/http-server.ts:17 | the registry starts empty |
| `Sessions.SessionRegistry.Initialized` | src/http-server.ts:286-291 | the generated id enters the map bound to its transport; every other entry is unchanged |
| `Sessions.SessionRegistry.Closed` | src/http-server.ts:294-299 | the closing transport's own session id is removed when set, nothing else changes, and the closed transport is no longer reachable under any id |
| `Sessions.SessionRegistry.Shutdown` | src/http-server.ts:359-369 | every entry is closed exactly once; entries whose close succeeds are deleted, those whose close throws are kept, and the sweep goes on |
| `Sessions.SessionRegistry.Handle` | src/http-server.ts:231-352 | a request is routed against the current ids; only a created and initialized session changes the map, by one fresh entry |
| `ToolDispatch.RouteToolCall` | src/server.ts:84-137 | the name-comparison chain as a first-match lookup over the 37-entry table; it has no contract of its own, and its behaviour is stated by `KnownNamesRoute`, `EveryNameRoutes`, `RouteRoundTrip`, `RouteInjective` and `RouteAndRun` |
| `ToolDispatch.FirstMatchFound` | src/server.ts:84-136 | the chain finds a handler exactly for the names it lists, and the handler is listed with that name |
| `ToolDispatch.FirstMatchIsUnique` | src/server.ts:84-135 | with pairwise distinct names, each entry is found under its own name: first match is unique match |
| `ToolDispatch.DispatchNames` | src/server.ts:84-134 | the chain compares against the 37 tool names, in order |
| `ToolDispatch.ToolNamesDistinct` | src/server.ts:84-134 | the 37 tool names are pairwise distinct |
| `ToolDispatch.DispatchDistinct` | src/server.ts:84-134 | the names the chain compares against are pairwise distinct |
| `ToolDispatch.KnownNamesRoute` | src/server.ts:84-136 | a name is routed to a handler if and only if it is one of the 37 names |
| `ToolDispatch.EveryNameRoutes` | src/server.ts:84-134 | each of the 37 names reaches the handler listed with it, in the tools object of its group |
| `ToolDispatch.DispatchInverse` | src/server.ts:84-134 | the inverse table, grouped by tools object, maps each handler of the chain back to its name |
| `ToolDispatch.RouteRoundTrip` | src/server.ts:84-134 | the handler a name reaches answers to that name in the inverse table |
| `ToolDispatch.RouteInjective` | src/server.ts:84-134 | no two names reach the same handler |
| `ToolDispatch.ListedNameRoutes` | src/server.ts:84-134 | a name listed in the chain reaches the handler listed with it |
| `ToolDispatch.RouteAndRun` | src/server.ts:84-136 | a name outside the 37 tool names throws `Unknown tool: <name>`; a listed name runs the handler listed with it on the arguments |
| `ToolDispatch.ErrorResult` | src/server.ts:76-79 | a caught error becomes one text item, `Error: ` followed by the message |
| `ToolDispatch.CallTool` | src/server.ts:70-81 | a returned result passes through unchanged; anything thrown becomes a single `Error: ...` text item and never escapes |
| `ToolDispatch.UnknownToolIsTextResult` | src/server.ts:70-136 | a name outside the 37 yields the text result `Error: Unknown tool: <name>`, whatever the arguments |
| `ToolDispatch.ThrownErrorIsTextResult` | src/server.ts:75-79 | a thrown `Error` becomes `Error: ` followed by its message |
| `ToolDispatch.ThrownValueIsGenericText` | src/server.ts:76 | a thrown value that is not an `Error` becomes `Error: An unexpected error occurred` |
| `ToolDispatch.SuccessPassesThrough` | src/server.ts:71-74 | a handler's own result is returned unchanged |
| `ToolDispatch.ListTools` | src/server.ts:66-68 | the ListTools handler returns the tool definitions; it has no contract of its own, and `ListToolsIgnoresRequest` states that the answer does not depend on the request |
| `ToolDispatch.ListToolsIgnoresRequest` | src/server.ts:66-68 | ListTools returns the tool definitions, independent of the request |

## Left out

- `createMcpServer` and the `createServer` tool registrations (src/http-server.ts:20-162, src/index.ts:26-186) are left out. They register schemas with the MCP SDK and call the REST client. Only the key rule of `createServer` is modelled.
- The tool wrapper classes (src/tools/*-tools.ts) are left out. Each one validates arguments with zod, calls the REST client once and serialises the result. The model abstracts them as the `run` parameter of `ToolDispatch.CallTool`.
- The tool definitions behind `getToolDefinitions` are not part of this model. `ListTools` takes the list as a parameter.
- `JSON.parse`, base64 decoding, `randomUUID` and the environment are inputs (`Http.Platform` and the parameters of `Handle`), not implementations.
- Per-chunk `Buffer.toString()` decoding is left out. Chunks arrive as strings, so a UTF-8 character split across two chunks is not modelled.
- JSON numbers are reals: NaN, negative zero and floating-point rounding are not modelled.
- SDK internals are left out: `StreamableHTTPServerTransport.handleRequest`, `McpServer.connect`, SSE streaming and the stdio transport. `Forward` and `CreateSession` name the hand-over. Whether the SDK accepts the initialize message is the `initialized` input of `Handle`.
- A transport's closing (after DELETE, a dropped connection, or `close()`) happens inside the SDK. It reaches the model only as the separate `Closed` event.
- Sessions.SessionRegistry.Shutdown: close failure is an input set. If a failing `close()` had already fired `onclose`, the entry would be removed anyway; the model does not capture that. JavaScript's insertion-order iteration is not modelled either, and the sweep's result does not depend on the order.
- Sessions.SessionRegistry.Handle: errors thrown by the SDK after a request was forwarded are covered only by `FrontDoor.CatchAll`, not by `Handle`.
- Async interleaving of requests is left out. Each request is one atomic step.
- Also left out: CORS header writing, log output (the one way logging changes the outcome, a string conversion that throws, is modelled by `FrontDoor.LogThrows`), `server.listen`, `process.exit`, signal delivery, and the `run`, `getInstance` and `getAPI` members of `UKCompanyServer`.
- The Authorization and `mcp-session-id` headers are single strings, as Node delivers them. A list-valued Authorization header would make `startsWith` throw; that case is not modelled.
