/**
 * The per-session registry of live viewer connections and the fan-out of
 * one message to every connection of a session. Connections are opaque
 * identities; whether a send raises is an input to the broadcast.
 */
module WebSockets {

  type SessionId = string

  /** The identity of one accepted WebSocket connection. */
  type Endpoint = nat

  type Registry = map<SessionId, set<Endpoint>>

  /** The endpoints registered for `sid`, empty when it has no entry. */
  function Members(m: Registry, sid: SessionId): set<Endpoint>
  {
    if sid in m then m[sid] else {}
  }

  /** No session is kept with an empty set (connect and disconnect keep this). */
  ghost predicate NoEmptyEntries(m: Registry)
  {
    forall s :: s in m ==> m[s] != {}
  }

  /** The registry after `connect(ws, sid)`. */
  function AfterConnect(m: Registry, ws: Endpoint, sid: SessionId): (r: Registry)
    ensures r.Keys == m.Keys + {sid}
    ensures r[sid] == Members(m, sid) + {ws}
    ensures forall s :: s in m && s != sid ==> r[s] == m[s]
  {
    m[sid := Members(m, sid) + {ws}]
  }

  /** The registry after `disconnect(ws, sid)`: the key goes when its set empties. */
  function AfterDisconnect(m: Registry, ws: Endpoint, sid: SessionId): (r: Registry)
    ensures sid !in m ==> r == m
    ensures sid in m && m[sid] - {ws} == {} ==> r.Keys == m.Keys - {sid}
    ensures sid in m && m[sid] - {ws} != {} ==> r.Keys == m.Keys && r[sid] == m[sid] - {ws}
    ensures forall s :: s in m && s != sid ==> s in r && r[s] == m[s]
  {
    if sid !in m then m
    else if m[sid] - {ws} == {} then m - {sid}
    else m[sid := m[sid] - {ws}]
  }

  /** The registry after a broadcast to `sid` in which the sends to `failing` raised. */
  function AfterBroadcast(m: Registry, sid: SessionId, failing: set<Endpoint>): (r: Registry)
    ensures sid !in m ==> r == m
    ensures sid in m ==> r.Keys == m.Keys && r[sid] == m[sid] - failing
    ensures forall s :: s in m && s != sid ==> r[s] == m[s]
  {
    if sid !in m then m else m[sid := m[sid] - failing]
  }

  /** `get_connection_count`: the size of the session's set, 0 when it has none. */
  function ConnectionCount(m: Registry, sid: SessionId): (n: nat)
    ensures sid !in m ==> n == 0
    ensures n == |Members(m, sid)|
  {
    |Members(m, sid)|
  }

  /** Connecting a new endpoint raises the count by one, a known one leaves it. */
  lemma ConnectCount(m: Registry, ws: Endpoint, sid: SessionId)
    ensures ConnectionCount(AfterConnect(m, ws, sid), sid) ==
      ConnectionCount(m, sid) + (if ws in Members(m, sid) then 0 else 1)
  {
    if ws !in Members(m, sid) {
      assert Members(AfterConnect(m, ws, sid), sid) - {ws} == Members(m, sid);
    } else {
      assert Members(AfterConnect(m, ws, sid), sid) == Members(m, sid);
    }
  }

  /**
   * Disconnecting an endpoint that was just connected restores the
   * registry, as long as no session was kept with an empty set.
   */
  lemma DisconnectUndoesConnect(m: Registry, ws: Endpoint, sid: SessionId)
    requires NoEmptyEntries(m)
    requires ws !in Members(m, sid)
    ensures AfterDisconnect(AfterConnect(m, ws, sid), ws, sid) == m
  {
    var c := AfterConnect(m, ws, sid);
    assert c[sid] - {ws} == Members(m, sid);
    if sid in m {
      assert m[sid] != {};
      assert AfterDisconnect(c, ws, sid) == c[sid := m[sid]];
    } else {
      assert AfterDisconnect(c, ws, sid) == c - {sid};
    }
  }

  /** Connect and disconnect never leave a session with an empty set. */
  lemma ConnectDisconnectKeepNoEmptyEntries(m: Registry, ws: Endpoint, sid: SessionId)
    requires NoEmptyEntries(m)
    ensures NoEmptyEntries(AfterConnect(m, ws, sid))
    ensures NoEmptyEntries(AfterDisconnect(m, ws, sid))
  {
    var c := AfterConnect(m, ws, sid);
    assert ws in c[sid];
  }

  /** A broadcast in which every send fails keeps the session with an empty set. */
  lemma BroadcastCanLeaveEmptyEntry(sid: SessionId, ws: Endpoint)
    ensures var r := AfterBroadcast(map[sid := {ws}], sid, {ws});
      sid in r && r[sid] == {} && ConnectionCount(r, sid) == 0 && !NoEmptyEntries(r)
  {
    var r := AfterBroadcast(map[sid := {ws}], sid, {ws});
    assert r[sid] == {};
  }

  class WebSocketManager {
    var activeConnections: Registry

    constructor ()
      ensures activeConnections == map[]
    {
      activeConnections := map[];
    }

    /** `connect`, after the connection has been accepted. */
    method Connect(ws: Endpoint, sid: SessionId)
      modifies this
      ensures activeConnections == AfterConnect(old(activeConnections), ws, sid)
    {
      if sid !in activeConnections {
        activeConnections := activeConnections[sid := {}];
      }
      activeConnections := activeConnections[sid := activeConnections[sid] + {ws}];
    }

    /** `disconnect`: a no-op for an unknown session. */
    method Disconnect(ws: Endpoint, sid: SessionId)
      modifies this
      ensures activeConnections == AfterDisconnect(old(activeConnections), ws, sid)
    {
      if sid in activeConnections {
        activeConnections := activeConnections[sid := activeConnections[sid] - {ws}];
        if activeConnections[sid] == {} {
          activeConnections := activeConnections - {sid};
        }
      }
    }

    /**
     * `broadcast_to_session`: tries every endpoint of a snapshot of the
     * session's set, in some order, and drops those whose send raised.
     * `attempted` lists the sends in the order they were made.
     */
    method BroadcastToSession(sid: SessionId, failing: set<Endpoint>) returns (attempted: seq<Endpoint>)
      modifies this
      ensures activeConnections == AfterBroadcast(old(activeConnections), sid, failing)
      ensures forall e :: e in attempted <==> e in Members(old(activeConnections), sid)
      ensures forall i, j :: 0 <= i < j < |attempted| ==> attempted[i] != attempted[j]
    {
      attempted := [];
      if sid !in activeConnections {
        return;
      }
      var connections := activeConnections[sid];
      var remaining := connections;
      assert connections - (failing - remaining) == connections;
      while remaining != {}
        invariant remaining <= connections
        invariant sid in activeConnections
        invariant activeConnections == old(activeConnections)[sid := activeConnections[sid]]
        invariant activeConnections[sid] == connections - (failing - remaining)
        invariant forall e :: e in attempted <==> e in connections && e !in remaining
        invariant forall i, j :: 0 <= i < j < |attempted| ==> attempted[i] != attempted[j]
        decreases remaining
      {
        var connection :| connection in remaining;
        attempted := attempted + [connection];
        if connection in failing {
          activeConnections := activeConnections[sid := activeConnections[sid] - {connection}];
        }
        assert connections - (failing - (remaining - {connection}))
          == if connection in failing then connections - (failing - remaining) - {connection}
             else connections - (failing - remaining);
        remaining := remaining - {connection};
      }
      assert connections - (failing - {}) == connections - failing;
    }

    /** `get_connection_count`. */
    function GetConnectionCount(sid: SessionId): (n: nat)
      reads this
      ensures n == |Members(activeConnections, sid)|
    {
      ConnectionCount(activeConnections, sid)
    }
  }
}
