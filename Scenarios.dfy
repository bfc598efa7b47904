/** Properties that span several events: a coordinator restart after a game
    state write, two clients and a presence update, and a run of failed
    reconnects. Each is a driver whose postcondition follows only from the
    contracts of the steps it takes. */
module Scenarios {
  import opened WsTypes
  import opened Discord
  import opened Backend
  import opened ClientLink

  /** 2 to the power `n`. */
  function Pow2(n: nat): nat
  {
    if n == 0 then 1 else 2 * Pow2(n - 1)
  }

  /** A game state sent by any admitted socket is what a coordinator
      bootstrapped afresh from the same storage and key-value store holds. */
  method RestartAfterGameStateUpdate(instance: GameInstance, id: string, g: GameState, newCampaignId: string)
    returns (restarted: GameInstance)
    requires instance.Valid() && id in instance.sockets && newCampaignId != ""
    modifies instance
    ensures restarted.gameState == g && instance.gameState == g
    ensures restarted.host == instance.host && restarted.campaignId == instance.campaignId
    ensures restarted.connections == StoredRosterOf(instance.storage)
  {
    instance.WebSocketMessage(id, GameStateUpdate(g));
    var host, campaign := instance.host.value, instance.campaignId.value;
    GameStateWriteRoundTrip(old(instance.kv), host, campaign, g, newCampaignId, DefaultGameState);
    restarted := new GameInstance(instance.storage, instance.kv, newCampaignId);
  }

  /** A request through the worker's `fetch` to the instance its id names
      (`stub.fetch`): no socket is admitted under an identity the caller
      chose. An admission happened only without a caller-sent
      `X-Discord-User`, and its roster entry carries the profile the access
      token resolves to. */
  method AdmitThroughWorker(instance: GameInstance, request: WorkerRequest, fetchDiscordUser: string -> Option<APIUser>,
                            freshConnectionId: string, freshCampaignId: string)
    returns (response: Response)
    requires instance.Valid() && freshConnectionId != "" && freshConnectionId !in instance.outbox && freshCampaignId != ""
    modifies instance
    ensures instance.Valid()
    ensures !Given(request.instanceId) ==> response == Reply(400)
    ensures response == Reply(101) ==>
      && request.callerUserHeader.None?
      && Given(request.accessToken) && fetchDiscordUser(request.accessToken.value).Some?
      && freshConnectionId in instance.connections
      && instance.connections[freshConnectionId].discordUser == StripPrivateInfo(fetchDiscordUser(request.accessToken.value).value)
    ensures request.callerUserHeader.Some? ==> response != Reply(101)
  {
    match Route(request, fetchDiscordUser)
    case Rejected(status) =>
      response := Reply(status);
    case Forwarded(_, forwarded) =>
      var resolved := fetchDiscordUser(request.accessToken.value).value;
      response := instance.Fetch(forwarded, resolved, freshConnectionId, freshCampaignId);
  }

  /** The first user to join a new, empty board becomes its host and is
      sent its id, the `{system: null}` default and the one-entry roster. */
  method FirstJoin(u: APIUser) returns (board: GameInstance)
    requires u.id != ""
    ensures fresh(board) && board.Valid()
    ensures board.host == Some(u.id) && board.gameState == DefaultGameState
    ensures var a := Connection("A", StripPrivateInfo(u), true, InitialPresence);
      && board.connections == map["A" := a]
      && board.sockets == {"A"}
      && board.outbox == map["A" := [ConnectionIdFrame("A"), GameStateFrame(DefaultGameState), ConnectionsFrame(map["A" := a])]]
  {
    board := new GameInstance(map[], map[], "campaign-1");
    assert board.host.None? && board.connections == map[] && board.gameState == DefaultGameState;
    assert BootCampaign(map[], u.id, "campaign-1") == "campaign-1";
    CampaignKeysDistinct(u.id, Some("campaign-1"));
    var first := board.Fetch(Request(Some("websocket"), Header(u)), u, "A", "campaign-1");
    assert first == Reply(101);
  }

  /** Two users join a new board and the second moves its cursor: the
      first admitted is the host, each socket receives its id, the game
      state and every roster change in order, and the presence update
      reaches the first socket but is not echoed to its sender. */
  method TwoClientsShareOneBoard(u1: APIUser, u2: APIUser, p: Presence)
    returns (outA: seq<ServerFrame>, outB: seq<ServerFrame>)
    requires u1.id != "" && u2.id != "" && u1.id != u2.id
    ensures var a := Connection("A", StripPrivateInfo(u1), true, InitialPresence);
      var b := Connection("B", StripPrivateInfo(u2), false, InitialPresence);
      && outA == [ConnectionIdFrame("A"), GameStateFrame(DefaultGameState),
                  ConnectionsFrame(map["A" := a]), ConnectionsFrame(map["A" := a, "B" := b])]
                 + [PresenceFrame("B", p)]
      && outB == [ConnectionIdFrame("B"), GameStateFrame(DefaultGameState),
                  ConnectionsFrame(map["A" := a, "B" := b])]
  {
    var board := FirstJoin(u1);
    var a := Connection("A", StripPrivateInfo(u1), true, InitialPresence);
    var b := Connection("B", StripPrivateInfo(u2), false, InitialPresence);
    var second := board.Fetch(Request(Some("websocket"), Header(u2)), u2, "B", "campaign-2");
    assert board.connections == map["A" := a, "B" := b];
    assert board.outbox["A"] == [ConnectionIdFrame("A"), GameStateFrame(DefaultGameState),
                                 ConnectionsFrame(map["A" := a]), ConnectionsFrame(map["A" := a, "B" := b])];
    board.WebSocketMessage("B", PresenceUpdate(p));
    outA, outB := board.outbox["A"], board.outbox["B"];
  }

  /** Doubling the base is one more doubling. */
  lemma DoubledBase(b: nat, k: nat)
    ensures (2 * b) * Pow2(k) == b * Pow2(k + 1)
  {
    assert Pow2(k + 1) == 2 * Pow2(k);
  }

  /** Delays that double from `2 * b`, preceded by `b`, double from `b`. */
  lemma DoublingDelays(b: nat, rest: seq<nat>)
    requires forall k :: 0 <= k < |rest| ==> rest[k] == (2 * b) * Pow2(k)
    ensures forall k :: 0 <= k < |rest| + 1 ==> ([b] + rest)[k] == b * Pow2(k)
    ensures (2 * b) * Pow2(|rest|) == b * Pow2(|rest| + 1)
  {
    forall k | 0 <= k < |rest| + 1
      ensures ([b] + rest)[k] == b * Pow2(k)
    {
      if k > 0 {
        DoubledBase(b, k - 1);
      }
    }
    DoubledBase(b, |rest|);
  }

  /** After `n` closes in a row, each followed by its retry firing and
      connecting again, the k-th retry waits `b * 2^k` (b being the backoff
      before the first close) and the backoff ends at `b * 2^n`. */
  method ConsecutiveFailedReconnects(store: WebSocketStore, socket: nat, n: nat) returns (delays: seq<nat>)
    requires socket < |store.sockets| && store.timers == []
    requires store.sockets[socket].accessToken != "" && store.sockets[socket].instanceId != ""
    modifies store
    ensures |delays| == n
    ensures forall k :: 0 <= k < n ==> delays[k] == old(store.exponentialBackoff) * Pow2(k)
    ensures store.exponentialBackoff == old(store.exponentialBackoff) * Pow2(n)
    ensures store.timers == []
    decreases n
  {
    var b := store.exponentialBackoff;
    if n == 0 {
      return [];
    }
    var credentials := store.sockets[socket];
    store.OnClose(socket, false);
    assert store.timers == [PendingRetry(b, credentials)];
    var delay := store.timers[0].delay;
    assert delay == b;
    store.Fire(0, false);
    assert store.timers == [] && store.exponentialBackoff == 2 * b;
    assert store.sockets[|store.sockets| - 1] == credentials;
    var rest := ConsecutiveFailedReconnects(store, |store.sockets| - 1, n - 1);
    delays := [delay] + rest;
    DoublingDelays(b, rest);
  }
}
