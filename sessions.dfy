/**
 * The module-level `transports` map of http-server.ts: the only state of
 * the HTTP server. It is written by the session-initialized callback, by
 * a transport's `onclose`, and by the SIGINT sweep.
 */
module Sessions {
  import opened Wrappers
  import opened JsonValue
  import opened Http
  import opened FrontDoor

  /** Opaque identity of a `StreamableHTTPServerTransport` object. */
  type TransportId = nat

  /** Each transport is registered under at most one session id. */
  ghost predicate OneSessionPerTransport(m: map<string, TransportId>) {
    forall a, b | a in m && b in m && a != b :: m[a] != m[b]
  }

  /** The entries of `m` that survive a shutdown sweep: those whose close throws. */
  function Survivors(m: map<string, TransportId>, closeFails: set<TransportId>): (r: map<string, TransportId>)
    ensures r.Keys <= m.Keys
    ensures forall sid | sid in r :: r[sid] == m[sid] && m[sid] in closeFails
    ensures forall sid | sid in m && m[sid] in closeFails :: sid in r
  {
    map sid | sid in m && m[sid] in closeFails :: m[sid]
  }

  class SessionRegistry {
    var transports: map<string, TransportId>

    /** Session ids are generated, never empty; a transport serves one session. */
    ghost predicate Valid()
      reads this
    {
      "" !in transports && OneSessionPerTransport(transports)
    }

    constructor ()
      ensures Valid() && transports == map[]
    {
      transports := map[];
    }

    /** `onsessioninitialized`: the generated id is bound to its fresh transport. */
    method Initialized(sessionId: string, t: TransportId)
      requires Valid()
      requires sessionId != "" && sessionId !in transports && t !in transports.Values
      modifies this
      ensures Valid()
      ensures transports == old(transports)[sessionId := t]
    {
      transports := transports[sessionId := t];
    }

    /**
     * `onclose`: the closing transport's own session id, when set, is
     * removed; every other entry stays as it was. Since a transport serves
     * one session and ids are never empty, the closed transport is then no
     * longer reachable under any id.
     */
    method Closed(transportSessionId: Option<string>)
      requires Valid()
      modifies this
      ensures Valid()
      ensures transports ==
              if transportSessionId.Some? && transportSessionId.value != ""
              then old(transports) - {transportSessionId.value}
              else old(transports)
      ensures transportSessionId.Some? && transportSessionId.value in old(transports) ==>
              old(transports)[transportSessionId.value] !in transports.Values
    {
      if transportSessionId.Some? && transportSessionId.value != "" {
        transports := transports - {transportSessionId.value};
      }
    }

    /**
     * The SIGINT sweep: every entry is closed once; an entry whose close
     * succeeds is deleted, one whose close throws is logged and kept, and
     * the sweep carries on with the rest. `attempts` lists the ids in the
     * order their transports were closed.
     */
    method Shutdown(closeFails: set<TransportId>) returns (attempts: seq<string>)
      requires Valid()
      modifies this
      ensures Valid()
      ensures transports == Survivors(old(transports), closeFails)
      ensures |attempts| == |old(transports).Keys|
      ensures forall i | 0 <= i < |attempts| :: attempts[i] in old(transports)
      ensures forall i, j | 0 <= i < j < |attempts| :: attempts[i] != attempts[j]
    {
      ghost var initial := transports;
      var pending := transports.Keys;
      attempts := [];
      while pending != {}
        invariant pending <= initial.Keys
        invariant transports == map sid | sid in initial && (sid in pending || initial[sid] in closeFails) :: initial[sid]
        invariant forall i | 0 <= i < |attempts| :: attempts[i] in initial && attempts[i] !in pending
        invariant forall i, j | 0 <= i < j < |attempts| :: attempts[i] != attempts[j]
        invariant |attempts| + |pending| == |initial.Keys|
        invariant Valid()
        decreases pending
      {
        var sid :| sid in pending;
        var t := transports[sid];
        if t !in closeFails {
          transports := transports - {sid};
        }
        attempts := attempts + [sid];
        pending := pending - {sid};
      }
    }

    /**
     * One request handled as one atomic step: the routing decision is taken
     * against the current ids, and when it creates a session and the
     * transport reports the session initialized, the generated id (fresh,
     * as `randomUUID` guarantees) enters the map bound to the new transport.
     * No other outcome changes the map.
     */
    method Handle(req: Request, p: Platform, newSessionId: string, newTransport: TransportId, initialized: bool)
      returns (o: Outcome)
      requires Valid()
      requires newSessionId != "" && newSessionId !in transports && newTransport !in transports.Values
      modifies this
      ensures Valid()
      ensures o == Route(req, old(transports).Keys, p)
      ensures transports ==
              if o.CreateSession? && initialized then old(transports)[newSessionId := newTransport]
              else old(transports)
      ensures o.Forward? ==> o.sessionId in old(transports)
    {
      o := Route(req, transports.Keys, p);
      if o.CreateSession? && initialized {
        Initialized(newSessionId, newTransport);
      }
    }
  }

  /**
   * A session's life: an initialize POST carrying `x-api-key: ABC` creates
   * session S1 bound to ABC; a POST carrying S1 reaches that session; once
   * its transport closes, the same POST is a bad request and creates nothing.
   */
  method SessionLifecycle(p: Platform, initText: string, callText: string)
    requires initText != "" && callText != ""
    requires p.parseJson(initText) == Some(JObject(map["method" := JString("initialize"), "id" := JNumber(1.0)]))
    requires p.parseJson(callText) == Some(JObject(map["method" := JString("tools/call"), "id" := JNumber(2.0)]))
  {
    var registry := new SessionRegistry();
    var init := Request("POST", "/mcp", None, Absent, Single("ABC"), None, [initText], false);
    assert Concat(init.chunks) == initText;
    var o := registry.Handle(init, p, "S1", 1, true);
    assert o == CreateSession(JString("ABC"));
    assert registry.transports == map["S1" := 1];

    var call := Request("POST", "/mcp", Some("S1"), Absent, Absent, None, [callText], false);
    assert Concat(call.chunks) == callText;
    o := registry.Handle(call, p, "S2", 2, true);
    assert o == Forward("S1");

    registry.Closed(Some("S1"));
    o := registry.Handle(call, p, "S2", 2, true);
    assert o == BadRequest(JNumber(2.0));
    assert registry.transports == map[];
  }
}
