// The web dashboard of src/communication/channels/dashboard.py: the API-key rule
// shared by the REST routes and the WebSocket, the bounded buffer of broadcast events,
// the set of live WebSocket connections, and the routes that change the system state.
// HTTP and WebSocket transport are not modelled: a socket is a number, the sockets
// whose send fails during a broadcast are an input, and times arrive already formatted.
module Dashboard {
  import opened Py
  import opened Json
  import opened State
  import opened Hub

  type Socket = nat

  /** What a route answers: a body, or an HTTP error with its status code. */
  datatype Reply<T> = Served(body: T) | Failed(code: nat, detail: string)

  /**
   * `_verify_auth`: with no API keys configured every caller is let in; otherwise the
   * bearer credentials must be present and one of the keys.
   */
  function VerifyAuth(keys: set<string>, credentials: Option<string>): (r: Option<(nat, string)>)
    ensures r.None? <==> keys == {} || (credentials.Some? && credentials.value in keys)
    ensures r.Some? ==> r.value == (401, "Invalid API key")
  {
    if keys == {} then None
    else if credentials.None? || credentials.value !in keys then Some((401, "Invalid API key"))
    else None
  }

  /** The WebSocket's check on its `api_key` query parameter: refused (close code 4001) exactly when keys exist and it is not one. */
  predicate SocketRefused(keys: set<string>, apiKey: Option<string>) {
    keys != {} && (apiKey.None? || apiKey.value !in keys)
  }

  /** The WebSocket applies the same rule as the REST routes. */
  lemma SocketRuleIsRestRule(keys: set<string>, key: Option<string>)
    ensures SocketRefused(keys, key) <==> VerifyAuth(keys, key).Some?
  {
  }

  const BufferSize: nat := 100
  const ReplaySize: nat := 50
  const MaxHistoryLimit: int := 1000

  /** The event broadcast when a decision is resolved. */
  function DecisionEvent(id: string, action: string, stamp: string): Value {
    JObj([("type", JStr("decision_resolved")), ("decision_id", JStr(id)), ("action", JStr(action)),
          ("timestamp", JStr(stamp))])
  }

  /** The event `send` broadcasts for a hub message. */
  function MessageEvent(msg: Message, stamp: string): Value {
    JObj([("type", JStr("message")), ("id", JStr(msg.id)), ("priority", JStr(msg.priority.Name())),
          ("subject", JStr(msg.Subject())), ("body", JStr(msg.body)), ("context", msg.context),
          ("timestamp", JStr(stamp))])
  }

  /** What a WebSocket connection attempt ends in. */
  datatype Connection = Closed(code: nat, reason: string) | Accepted(replay: seq<Value>)

  /**
   * `history`'s `event_history[-limit:]`: the last `limit` events for a positive limit,
   * all of them for 0 (since `-0` is `0`), and all but the first `-limit` for a negative one.
   */
  lemma HistorySlice(h: seq<Event>, limit: int)
    ensures limit > 0 ==> From(h, -limit) == h[|h| - Min(limit, |h|)..]
    ensures limit == 0 ==> From(h, -limit) == h
    ensures limit < 0 ==> From(h, -limit) == h[Min(-limit, |h|)..]
  {
    if limit > 0 {
      LastN(h, limit);
    }
  }

  /** The loop of `_broadcast`: sends to every connection and collects those whose send fails. */
  method FailedSends(connections: set<Socket>, failing: set<Socket>) returns (disconnected: set<Socket>)
    ensures disconnected == connections * failing
  {
    disconnected := {};
    var remaining := connections;
    while remaining != {}
      invariant remaining <= connections
      invariant disconnected == (connections - remaining) * failing
      decreases |remaining|
    {
      var ws :| ws in remaining;
      if ws in failing {
        disconnected := disconnected + {ws};
      }
      remaining := remaining - {ws};
    }
  }

  class DashboardChannel {
    const apiKeys: set<string>
    /** The injected system state, if any. */
    const state: SystemState?
    var eventBuffer: seq<Value>
    var connections: set<Socket>

    ghost predicate Valid()
      reads this, state
    {
      |eventBuffer| <= BufferSize && (state != null ==> state.Valid())
    }

    constructor(apiKeys: seq<string>, state: SystemState?)
      requires state != null ==> state.Valid()
      ensures Valid()
      ensures this.apiKeys == (set k | k in apiKeys) && this.state == state
      ensures eventBuffer == [] && connections == {}
    {
      this.apiKeys := set k | k in apiKeys;
      this.state := state;
      eventBuffer := [];
      connections := {};
    }

    /**
     * `_broadcast`: the event joins the buffer, which keeps the last 100; every
     * connection is sent the event, and those whose send fails are dropped.
     * `reached` is the set of connections that received it.
     */
    method Broadcast(event: Value, failing: set<Socket>) returns (reached: set<Socket>)
      requires Valid()
      modifies this
      ensures Valid()
      ensures eventBuffer == AppendCapped(old(eventBuffer), event, BufferSize)
      ensures connections == old(connections) - failing
      ensures reached == connections
    {
      var disconnected := FailedSends(connections, failing);
      assert connections - disconnected == connections - failing;
      eventBuffer := AppendCapped(eventBuffer, event, BufferSize);
      connections := connections - disconnected;
      reached := connections;
    }

    /**
     * The WebSocket handshake: a refused key closes the socket with code 4001;
     * otherwise the socket joins the connections and is first sent the last 50
     * buffered events.
     */
    method Connect(ws: Socket, apiKey: Option<string>) returns (r: Connection)
      requires Valid()
      modifies this
      ensures Valid()
      ensures r.Closed? <==> SocketRefused(apiKeys, apiKey)
      ensures r.Closed? ==> r == Closed(4001, "Invalid API key") && connections == old(connections)
      ensures r.Accepted? ==> connections == old(connections) + {ws}
                              && r.replay == From(eventBuffer, -(ReplaySize as int))
      ensures eventBuffer == old(eventBuffer)
    {
      if apiKeys != {} && (apiKey.None? || apiKey.value !in apiKeys) {
        return Closed(4001, "Invalid API key");
      }
      connections := connections + {ws};
      r := Accepted(From(eventBuffer, -(ReplaySize as int)));
    }

    /** The end of a WebSocket session, however it ends: the socket leaves the connections. */
    method Disconnect(ws: Socket)
      requires Valid()
      modifies this
      ensures Valid()
      ensures connections == old(connections) - {ws} && eventBuffer == old(eventBuffer)
    {
      connections := connections - {ws};
    }

    /** `stop`: every connection is closed and forgotten. */
    method Stop()
      requires Valid()
      modifies this
      ensures Valid()
      ensures connections == {} && eventBuffer == old(eventBuffer)
    {
      connections := {};
    }

    /**
     * POST /api/decide: after the key check, resolves the decision with the requested
     * action as its status and "dashboard" as responder, broadcasts the resolution and
     * answers "recorded"; 500 without a state and 404 for an unknown id.
     */
    method Decide(credentials: Option<string>, decisionId: string, action: string, now: int,
                  stamp: string, failing: set<Socket>) returns (r: Reply<Value>)
      requires Valid()
      modifies this, state
      ensures Valid()
      ensures VerifyAuth(apiKeys, credentials).Some? ==> r == Failed(401, "Invalid API key")
      ensures VerifyAuth(apiKeys, credentials).None? && state == null ==>
                r == Failed(500, "System state not available")
      ensures state != null && VerifyAuth(apiKeys, credentials).None? ==>
                state.pending == Resolve(old(state.pending), decisionId, action, "dashboard", now).0
                && (r.Served? <==> Get(old(state.pending), decisionId).Some?)
      ensures state != null && VerifyAuth(apiKeys, credentials).None? && r.Failed? ==>
                r == Failed(404, "Decision not found")
      ensures r.Served? ==>
                r.body == JObj([("status", JStr("recorded")), ("decision_id", JStr(decisionId))])
                && eventBuffer == AppendCapped(old(eventBuffer), DecisionEvent(decisionId, action, stamp), BufferSize)
                && connections == old(connections) - failing
      ensures r.Failed? ==>
                eventBuffer == old(eventBuffer) && connections == old(connections)
      ensures r.Failed? && r.code != 404 ==> state == null || state.pending == old(state.pending)
      ensures state != null ==> state.today == old(state.today) && state.eventHistory == old(state.eventHistory)
                                && state.attributes == old(state.attributes)
    {
      var denied := VerifyAuth(apiKeys, credentials);
      if denied.Some? {
        return Failed(401, "Invalid API key");
      }
      if state == null {
        return Failed(500, "System state not available");
      }
      var decision := state.ResolveDecision(decisionId, action, "dashboard", now);
      if decision.None? {
        return Failed(404, "Decision not found");
      }
      var _ := Broadcast(DecisionEvent(decisionId, action, stamp), failing);
      r := Served(JObj([("status", JStr("recorded")), ("decision_id", JStr(decisionId))]));
    }

    /**
     * POST /api/pause and /api/resume: set the state's status attribute to "paused" or
     * "running" and broadcast it; 500 without a state.
     */
    method SetRunning(credentials: Option<string>, running: bool, stamp: string, failing: set<Socket>)
      returns (r: Reply<Value>)
      requires Valid()
      modifies this, state
      ensures Valid()
      ensures VerifyAuth(apiKeys, credentials).Some? ==> r == Failed(401, "Invalid API key")
      ensures VerifyAuth(apiKeys, credentials).None? && state == null ==>
                r == Failed(500, "System state not available")
      ensures VerifyAuth(apiKeys, credentials).None? && state != null ==> r.Served?
      ensures r.Failed? ==>
                eventBuffer == old(eventBuffer) && connections == old(connections)
                && (state == null || state.attributes == old(state.attributes))
      ensures r.Served? ==>
                var status := if running then "running" else "paused";
                r.body == JObj([("status", JStr(status))])
                && state != null
                && state.attributes == UpdateAttributes(old(state.attributes), [("status", JStr(status))]).0
                && eventBuffer == AppendCapped(old(eventBuffer),
                     JObj([("type", JStr(if running then "system_resumed" else "system_paused")), ("timestamp", JStr(stamp))]),
                     BufferSize)
                && connections == old(connections) - failing
      ensures state != null ==> state.pending == old(state.pending) && state.today == old(state.today)
                                && state.eventHistory == old(state.eventHistory)
    {
      var denied := VerifyAuth(apiKeys, credentials);
      if denied.Some? {
        return Failed(401, "Invalid API key");
      }
      if state == null {
        return Failed(500, "System state not available");
      }
      var status := if running then "running" else "paused";
      var _ := state.Update([("status", JStr(status))]);
      var _ := Broadcast(JObj([("type", JStr(if running then "system_resumed" else "system_paused")), ("timestamp", JStr(stamp))]), failing);
      r := Served(JObj([("status", JStr(status))]));
    }

    /**
     * GET /api/history: a limit over 1000 fails validation (422) before the key check;
     * without a state there are no events; otherwise `event_history[-limit:]`.
     */
    function History(credentials: Option<string>, limit: int): (r: Reply<seq<Event>>)
      reads this, state
      ensures limit > MaxHistoryLimit ==> r.Failed? && r.code == 422
      ensures limit <= MaxHistoryLimit && VerifyAuth(apiKeys, credentials).Some? ==> r == Failed(401, "Invalid API key")
      ensures r.Served? ==> limit <= MaxHistoryLimit && VerifyAuth(apiKeys, credentials).None?
      ensures r.Served? && state == null ==> r.body == []
      ensures r.Served? && state != null && limit > 0 ==>
                r.body == state.eventHistory[|state.eventHistory| - Min(limit, |state.eventHistory|)..]
      ensures r.Served? && state != null && limit == 0 ==> r.body == state.eventHistory
    {
      if limit > MaxHistoryLimit then Failed(422, "limit: Input should be less than or equal to 1000")
      else if VerifyAuth(apiKeys, credentials).Some? then Failed(401, "Invalid API key")
      else if state == null then Served([])
      else
        HistorySlice(state.eventHistory, limit);
        Served(From(state.eventHistory, -limit))
    }

    /** `send`: the message is broadcast as a "message" event. */
    method Send(msg: Message, stamp: string, failing: set<Socket>)
      requires Valid()
      modifies this
      ensures Valid()
      ensures eventBuffer == AppendCapped(old(eventBuffer), MessageEvent(msg, stamp), BufferSize)
      ensures connections == old(connections) - failing
    {
      var _ := Broadcast(MessageEvent(msg, stamp), failing);
    }

    /** `send_and_wait`: as `send`; answers arrive through the API instead, so there is never a reply. */
    method SendAndWait(msg: Message, stamp: string, failing: set<Socket>) returns (reply: Option<string>)
      requires Valid()
      modifies this
      ensures Valid()
      ensures reply.None?
      ensures eventBuffer == AppendCapped(old(eventBuffer), MessageEvent(msg, stamp), BufferSize)
      ensures connections == old(connections) - failing
    {
      Send(msg, stamp, failing);
      reply := None;
    }
  }

  /** The buffer never holds more than 100 events, and the newest is last. */
  lemma BufferBounded(buffer: seq<Value>, event: Value)
    ensures |AppendCapped(buffer, event, BufferSize)| <= BufferSize
    ensures AppendCapped(buffer, event, BufferSize)[|AppendCapped(buffer, event, BufferSize)| - 1] == event
  {
  }

  /** A new connection never replays more than 50 events, and replays the newest ones. */
  lemma ReplayIsNewest(buffer: seq<Value>)
    ensures |From(buffer, -(ReplaySize as int))| == Min(ReplaySize, |buffer|)
    ensures From(buffer, -(ReplaySize as int)) == buffer[|buffer| - Min(ReplaySize, |buffer|)..]
  {
    LastN(buffer, ReplaySize);
  }
}
