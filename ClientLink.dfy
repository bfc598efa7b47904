/** The client session link: the websocket store of
    apps/client/src/lib/websocket/index.ts and the connect/retry logic of
    apps/client/src/lib/websocket/connection.ts.

    Each socket `connect` creates is a handle, its index in `sockets`; the
    browser's events for it (open, message, error, close) are methods taking
    that handle. A `setTimeout` that `retry` sets is an entry of `timers`
    recording its delay and the arguments it will reconnect with; `Fire`
    runs one of them. */
module ClientLink {
  import opened WsTypes

  const InitialBackoff := 250
  const OpenedBackoff := 1000

  /** The two arguments `connect` (and so each retry) captures. */
  datatype Credentials = Credentials(accessToken: string, instanceId: string)

  /** A pending `setTimeout` of `retry`. */
  datatype PendingRetry = PendingRetry(delay: nat, credentials: Credentials)

  /** A frame sent over the socket with the given handle. */
  datatype Outgoing = Outgoing(socket: nat, frame: ClientFrame)

  // ------ Selectors (pure reads of the store) ------

  /** A connection id that is set and not empty (truthy). */
  predicate Known(own: Option<string>)
  {
    own.Some? && own.value != ""
  }

  /** `useOther`: the entry under an id, if any. */
  function UseOther(connections: Connections, id: string): (r: Option<Connection>)
    ensures r.Some? <==> id in connections
    ensures r.Some? ==> r.value == connections[id]
  {
    if id in connections then Some(connections[id]) else None
  }

  /** `useSelf`: nothing without an own id, else the own entry if present. */
  function UseSelf(own: Option<string>, connections: Connections): (r: Option<Connection>)
    ensures !Known(own) ==> r.None?
    ensures Known(own) ==> r == UseOther(connections, own.value)
  {
    if Known(own) && own.value in connections then Some(connections[own.value]) else None
  }

  /** The presence `useMyPresence` returns: the own entry's presence, absent
      exactly when there is no own entry. */
  function MyPresence(own: Option<string>, connections: Connections): (r: Option<Presence>)
    ensures r.Some? <==> UseSelf(own, connections).Some?
    ensures r.Some? ==> r.value == UseSelf(own, connections).value.presence
  {
    if Known(own) && own.value in connections then Some(connections[own.value].presence) else None
  }

  /** `useOthers`: the roster entries whose own `connectionId` differs from
      the client's id (all of them while it has none). */
  function UseOthers(own: Option<string>, connections: Connections): (r: set<Connection>)
    ensures forall c :: c in r <==> c in connections.Values && own != Some(c.connectionId)
  {
    set id | id in connections && own != Some(connections[id].connectionId) :: connections[id]
  }

  /** `useOthersConnectionIds`: the roster's keys other than the own id. */
  function UseOthersConnectionIds(own: Option<string>, connections: Connections): (r: set<string>)
    ensures r == connections.Keys - (if own.Some? then {own.value} else {})
  {
    set id | id in connections && own != Some(id)
  }

  /** With every entry under its own id, the two views of "the others"
      agree: the ids of `useOthers` are `useOthersConnectionIds`. */
  lemma OthersIdsAgree(own: Option<string>, connections: Connections)
    requires WellKeyed(connections)
    ensures (set c | c in UseOthers(own, connections) :: c.connectionId) == UseOthersConnectionIds(own, connections)
  {
    var ids := set c | c in UseOthers(own, connections) :: c.connectionId;
    forall id | id in UseOthersConnectionIds(own, connections)
      ensures id in ids
    {
      assert connections[id] in UseOthers(own, connections);
    }
  }

  /** With every entry under its own id, the client never counts itself
      among the others. */
  lemma SelfNotAmongOthers(own: Option<string>, connections: Connections)
    requires WellKeyed(connections)
    ensures UseSelf(own, connections).Some? ==> UseSelf(own, connections).value !in UseOthers(own, connections)
    ensures forall c :: c in UseOthers(own, connections) ==> Some(c.connectionId) != own
  {
  }

  // ------ The store and its connection handlers ------

  class WebSocketStore {
    var ws: Option<nat>
    var exponentialBackoff: nat
    var connectionId: Option<string>
    var connections: Connections

    /** Every socket `connect` created, with the arguments its listeners captured. */
    var sockets: seq<Credentials>
    /** Retries scheduled and not yet fired. */
    var timers: seq<PendingRetry>
    /** Frames the client sent, in order. */
    var sent: seq<Outgoing>

    /** The store's initial state. */
    constructor ()
      ensures ws.None? && exponentialBackoff == InitialBackoff
      ensures connectionId.None? && connections == map[]
      ensures sockets == [] && timers == [] && sent == []
    {
      ws := None;
      exponentialBackoff := InitialBackoff;
      connectionId := None;
      connections := map[];
      sockets := [];
      timers := [];
      sent := [];
    }

    /** `connect`: an empty access token or instance id aborts with no
        socket and no retry; an exception while setting up the socket
        (`setupThrows`) schedules a retry; otherwise a socket is created. */
    method Connect(accessToken: string, instanceId: string, setupThrows: bool)
      modifies this
      ensures ws == old(ws) && exponentialBackoff == old(exponentialBackoff)
      ensures connectionId == old(connectionId) && connections == old(connections) && sent == old(sent)
      ensures accessToken == "" || instanceId == "" ==> sockets == old(sockets) && timers == old(timers)
      ensures accessToken != "" && instanceId != "" && setupThrows ==>
        && sockets == old(sockets)
        && timers == old(timers) + [PendingRetry(exponentialBackoff, Credentials(accessToken, instanceId))]
      ensures accessToken != "" && instanceId != "" && !setupThrows ==>
        sockets == old(sockets) + [Credentials(accessToken, instanceId)] && timers == old(timers)
    {
      if accessToken == "" {
        return;
      }
      if instanceId == "" {
        return;
      }
      if setupThrows {
        Retry(Credentials(accessToken, instanceId));
      } else {
        sockets := sockets + [Credentials(accessToken, instanceId)];
      }
    }

    /** `retry`: one timer whose delay is the backoff at this moment. */
    method Retry(credentials: Credentials)
      modifies this
      ensures timers == old(timers) + [PendingRetry(exponentialBackoff, credentials)]
      ensures ws == old(ws) && exponentialBackoff == old(exponentialBackoff) && sockets == old(sockets)
      ensures connectionId == old(connectionId) && connections == old(connections) && sent == old(sent)
    {
      timers := timers + [PendingRetry(exponentialBackoff, credentials)];
    }

    /** The `open` listener: record the socket and reset the backoff. */
    method OnOpen(socket: nat)
      requires socket < |sockets|
      modifies this
      ensures ws == Some(socket) && exponentialBackoff == OpenedBackoff
      ensures connectionId == old(connectionId) && connections == old(connections)
      ensures sockets == old(sockets) && timers == old(timers) && sent == old(sent)
    {
      ws := Some(socket);
      exponentialBackoff := OpenedBackoff;
    }

    /** The `message` listener: store the own id, or replace the roster
        wholesale; any other frame changes nothing. */
    method OnMessage(socket: nat, frame: ServerFrame)
      requires socket < |sockets|
      modifies this
      ensures frame.ConnectionIdFrame? ==> connectionId == Some(frame.connectionId) && connections == old(connections)
      ensures frame.ConnectionsFrame? ==> connections == frame.connections && connectionId == old(connectionId)
      ensures !frame.ConnectionIdFrame? && !frame.ConnectionsFrame? ==>
        connectionId == old(connectionId) && connections == old(connections)
      ensures ws == old(ws) && exponentialBackoff == old(exponentialBackoff)
      ensures sockets == old(sockets) && timers == old(timers) && sent == old(sent)
    {
      match frame
      case ConnectionIdFrame(id) =>
        connectionId := Some(id);
      case ConnectionsFrame(roster) =>
        connections := roster;
      case _ =>
    }

    /** The `error` listener only logs: it schedules no retry. */
    method OnError(socket: nat)
      requires socket < |sockets|
      ensures timers == old(timers) && ws == old(ws) && exponentialBackoff == old(exponentialBackoff)
    {
    }

    /** The `close` listener, clean or not: clear the socket and schedule
        exactly one retry with the socket's own arguments. */
    method OnClose(socket: nat, wasClean: bool)
      requires socket < |sockets|
      modifies this
      ensures ws.None?
      ensures timers == old(timers) + [PendingRetry(old(exponentialBackoff), old(sockets)[socket])]
      ensures exponentialBackoff == old(exponentialBackoff)
      ensures connectionId == old(connectionId) && connections == old(connections)
      ensures sockets == old(sockets) && sent == old(sent)
    {
      ws := None;
      Retry(sockets[socket]);
    }

    /** A retry's timer fires: double the backoff, then connect again with
        the captured arguments. */
    method Fire(i: nat, setupThrows: bool)
      requires i < |timers|
      modifies this
      ensures exponentialBackoff == 2 * old(exponentialBackoff)
      ensures ws == old(ws) && connectionId == old(connectionId) && connections == old(connections) && sent == old(sent)
      ensures var c := old(timers)[i].credentials;
        var rest := old(timers)[..i] + old(timers)[i + 1..];
        && (c.accessToken == "" || c.instanceId == "" ==> sockets == old(sockets) && timers == rest)
        && (c.accessToken != "" && c.instanceId != "" && setupThrows ==>
              sockets == old(sockets) && timers == rest + [PendingRetry(exponentialBackoff, c)])
        && (c.accessToken != "" && c.instanceId != "" && !setupThrows ==>
              sockets == old(sockets) + [c] && timers == rest)
    {
      var t := timers[i];
      timers := timers[..i] + timers[i + 1..];
      exponentialBackoff := exponentialBackoff * 2;
      Connect(t.credentials.accessToken, t.credentials.instanceId, setupThrows);
    }

    /** The setter `useMyPresence` returns, for the id it captured: a no-op
        without an id; otherwise the own entry's presence is replaced (a
        missing entry throws, `threw`, and nothing changes) and, with a live
        socket, one presence frame is sent. */
    method SetMyPresence(captured: Option<string>, presence: Presence) returns (threw: bool)
      modifies this
      ensures !Known(captured) ==> !threw && connections == old(connections) && sent == old(sent)
      ensures Known(captured) && captured.value !in old(connections) ==>
        threw && connections == old(connections) && sent == old(sent)
      ensures Known(captured) && captured.value in old(connections) ==>
        && !threw
        && connections == old(connections)[captured.value := old(connections)[captured.value].(presence := presence)]
        && sent == old(sent) + (if ws.Some? then [Outgoing(ws.value, PresenceUpdate(presence))] else [])
      ensures ws == old(ws) && exponentialBackoff == old(exponentialBackoff) && connectionId == old(connectionId)
      ensures sockets == old(sockets) && timers == old(timers)
    {
      threw := false;
      if !Known(captured) {
        return;
      }
      var id := captured.value;
      if id !in connections {
        threw := true;
        return;
      }
      connections := connections[id := connections[id].(presence := presence)];
      if ws.Some? {
        sent := sent + [Outgoing(ws.value, PresenceUpdate(presence))];
      }
    }
  }

  /** The setter touches the own entry only: every other entry, and the
      set of ids, stay as they were. */
  lemma SetterTouchesOwnEntryOnly(connections: Connections, id: string, presence: Presence)
    requires id in connections
    ensures var after := connections[id := connections[id].(presence := presence)];
      && after.Keys == connections.Keys
      && (forall other :: other in connections && other != id ==> after[other] == connections[other])
      && MyPresence(Some(id), after) == (if id != "" then Some(presence) else None)
  {
  }
}
