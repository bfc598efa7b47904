/** The session coordinator of apps/backend/src/index.ts: one `GameInstance`
    per board, owning the roster, the host, the campaign and the game state,
    and the worker entry point that routes upgrade requests to it.

    Every event (bootstrap, an admission, an inbound frame, a close) is one
    atomic step. The durable storage of the instance and the shared key-value
    store are fields of the class; the transport is the set of open, tagged
    sockets and one outbox of sent frames per socket. */
module Backend {
  import opened WsTypes
  import opened Discord
  import GameStateJson

  /** Values in the instance's durable storage (structured clones). */
  datatype Stored = StoredRoster(roster: Connections) | StoredHost(id: string)

  /** The `X-Discord-User` header as `fetch` reads it: absent, text that
      `JSON.parse` turns into a user, or text on which it throws. */
  datatype UserHeader = NoHeader | Header(user: APIUser) | Malformed

  /** What the coordinator reads of an upgrade request: the `Upgrade`
      header and the `X-Discord-User` header. */
  datatype Request = Request(upgrade: Option<string>, discordUser: UserHeader)

  /** The reply to an admission: a status (101 for an accepted websocket),
      or an exception that escapes `fetch`. */
  datatype Response = Reply(status: nat) | Uncaught

  const RosterKey := "connections"
  const HostKey := "host"
  const FallbackUserId := "harris"
  const InitialPage := "page:page"
  const InitialPresence := Presence(InitialPage, None)

  // ------ Store keys ------

  /** A nullable string interpolated into a template literal. */
  function Show(o: Option<string>): string
  {
    match o
    case None => "null"
    case Some(s) => s
  }

  /** The template key `${host}-selectedCampaignId`. */
  function SelectedCampaignKey(host: string): (r: string)
    ensures |r| == |host| + 19 && r[..|host|] == host && r[|host|..] == "-selectedCampaignId"
  {
    host + "-selectedCampaignId"
  }

  /** The template key `${host}-campaigns`. */
  function CampaignsKey(host: string): (r: string)
    ensures |r| == |host| + 10 && r[..|host|] == host && r[|host|..] == "-campaigns"
  {
    host + "-campaigns"
  }

  /** Two hosts never share a selection key or a campaign-list key. */
  lemma {:induction false} HostKeysDistinct(h1: string, h2: string)
    ensures SelectedCampaignKey(h1) == SelectedCampaignKey(h2) ==> h1 == h2
    ensures CampaignsKey(h1) == CampaignsKey(h2) ==> h1 == h2
  {
    if SelectedCampaignKey(h1) == SelectedCampaignKey(h2) {
      assert h1 == SelectedCampaignKey(h1)[..|h1|] == SelectedCampaignKey(h2)[..|h2|] == h2;
    }
    if CampaignsKey(h1) == CampaignsKey(h2) {
      assert h1 == CampaignsKey(h1)[..|h1|] == CampaignsKey(h2)[..|h2|] == h2;
    }
  }

  /** The template key `${host}-${campaignId}-gameState`: a null part
      reads `null`. */
  function GameStateKey(host: Option<string>, campaignId: Option<string>): (r: string)
    ensures |r| > 10 && r[|r| - 10..] == "-gameState"
    ensures host.Some? && campaignId.Some? ==> r == host.value + "-" + campaignId.value + "-gameState"
    ensures host.None? ==> r[..5] == "null-"
  {
    Show(host) + "-" + Show(campaignId) + "-gameState"
  }

  /** `JSON.stringify([id])`: a one-element array holding the id as a JSON
      string. The characters `JSON.stringify` escapes (quote, backslash,
      control characters) are written unescaped, since a `randomUUID` never
      contains them. */
  function CampaignListJson(id: string): (r: string)
    ensures |r| == |id| + 4 && r[..2] == "[\"" && r[2..|r| - 2] == id && r[|r| - 2..] == "\"]"
  {
    "[\"" + id + "\"]"
  }

  /** The keys a host's campaign bookkeeping uses never collide. */
  lemma CampaignKeysDistinct(host: string, campaignId: Option<string>)
    ensures SelectedCampaignKey(host) != CampaignsKey(host)
    ensures SelectedCampaignKey(host) != GameStateKey(Some(host), campaignId)
    ensures CampaignsKey(host) != GameStateKey(Some(host), campaignId)
  {
    var sel := SelectedCampaignKey(host);
    assert sel[|sel| - 1] == 'd';
    assert CampaignsKey(host)[|CampaignsKey(host)| - 1] == 's';
    var gs := GameStateKey(Some(host), campaignId);
    assert gs[|gs| - 1] == 'e';
  }

  // ------ What bootstrap reads ------

  /** A key-value text, with the empty string read as absent (it is falsy). */
  function KvText(kv: map<string, string>, key: string): (r: Option<string>)
    ensures r.Some? <==> key in kv && kv[key] != ""
    ensures r.Some? ==> r.value == kv[key]
  {
    if key in kv && kv[key] != "" then Some(kv[key]) else None
  }

  /** `storage.get('host') || null`. */
  function StoredHostOf(storage: map<string, Stored>): (r: Option<string>)
    ensures r.Some? ==> r.value != "" && HostKey in storage && storage[HostKey] == StoredHost(r.value)
  {
    if HostKey in storage && storage[HostKey].StoredHost? && storage[HostKey].id != ""
    then Some(storage[HostKey].id) else None
  }

  /** `storage.get('connections') || {}`: a stored roster is taken as it
      is (an object is truthy), and it keeps every entry under its own id. */
  function StoredRosterOf(storage: map<string, Stored>): (r: Connections)
    ensures RosterKey in storage && storage[RosterKey].StoredRoster? ==> r == storage[RosterKey].roster
    ensures RosterKey !in storage ==> r == map[]
    ensures WellFormedStorage(storage) ==> WellKeyed(r)
  {
    if RosterKey in storage && storage[RosterKey].StoredRoster? then storage[RosterKey].roster else map[]
  }

  /** Only the coordinator writes its storage: a roster under `connections`
      (each entry under its own id) and a host id under `host`. */
  predicate WellFormedStorage(storage: map<string, Stored>)
  {
    && (RosterKey in storage ==> storage[RosterKey].StoredRoster? && WellKeyed(storage[RosterKey].roster))
    && (HostKey in storage ==> storage[HostKey].StoredHost?)
  }

  /** The campaign bootstrap selects for a host: the stored selection, or
      else the fresh id it then records. */
  function BootCampaign(kv: map<string, string>, host: string, newId: string): (r: string)
    ensures newId != "" ==> r != ""
    ensures KvText(kv, SelectedCampaignKey(host)).Some? ==> r == kv[SelectedCampaignKey(host)]
    ensures KvText(kv, SelectedCampaignKey(host)).None? ==> r == newId
  {
    match KvText(kv, SelectedCampaignKey(host))
    case Some(id) => id
    case None => newId
  }

  /** The game state bootstrap ends with, starting from `current`: the stored
      one if it parses, else `current`. */
  function BootGameState(kv: map<string, string>, key: string, current: GameState): (r: GameState)
    ensures KvText(kv, key).Some? && GameStateJson.Decode(kv[key]).Some? ==> r == GameStateJson.Decode(kv[key]).value
    ensures KvText(kv, key).None? || GameStateJson.Decode(kv[key]).None? ==> r == current
  {
    match KvText(kv, key)
    case None => current
    case Some(s) =>
      match GameStateJson.Decode(s)
      case Some(g) => g
      case None => current
  }

  /** The key-value store once a host's campaign is loaded: unchanged when a
      selection exists, else with `newId` recorded as the campaign list and as
      the selection. */
  function CampaignKv(kv: map<string, string>, host: string, newId: string): (r: map<string, string>)
    requires host != "" && newId != ""
    ensures CampaignSelected(r, host, BootCampaign(kv, host, newId))
    ensures forall k :: k != SelectedCampaignKey(host) && k != CampaignsKey(host) ==>
      (k in r <==> k in kv) && (k in kv ==> r[k] == kv[k])
  {
    if KvText(kv, SelectedCampaignKey(host)).Some? then kv
    else
      CampaignKeysDistinct(host, None);
      kv[CampaignsKey(host) := CampaignListJson(newId)][SelectedCampaignKey(host) := newId]
  }

  /** The key-value store once bootstrap has loaded a host's campaign and
      then the game state, starting from `current`: the campaign bookkeeping,
      plus `current` written under the game-state key when nothing is stored
      there. Afterwards the campaign is selected, its key holds text, and
      reading that key gives what it gave before the write. */
  function BootKv(kv: map<string, string>, host: string, newId: string, current: GameState): (r: map<string, string>)
    requires host != "" && newId != ""
    ensures var key := GameStateKey(Some(host), Some(BootCampaign(kv, host, newId)));
      && CampaignSelected(r, host, BootCampaign(kv, host, newId))
      && KvText(r, key).Some?
      && BootGameState(r, key, current) == BootGameState(CampaignKv(kv, host, newId), key, current)
  {
    var campaignKv := CampaignKv(kv, host, newId);
    var key := GameStateKey(Some(host), Some(BootCampaign(kv, host, newId)));
    CampaignKeysDistinct(host, Some(BootCampaign(kv, host, newId)));
    GameStateJson.DecodeEncode(current);
    if KvText(campaignKv, key).None? then campaignKv[key := GameStateJson.Encode(current)] else campaignKv
  }

  /** The stored game state under `key` is present but does not parse. */
  predicate GameStateUnreadable(kv: map<string, string>, key: string)
  {
    KvText(kv, key).Some? && GameStateJson.Decode(kv[key]).None?
  }

  /** The key-value store holds `campaignId` as the host's selection. */
  predicate CampaignSelected(kv: map<string, string>, host: string, campaignId: string)
  {
    KvText(kv, SelectedCampaignKey(host)) == Some(campaignId)
  }

  /** A game-state write under a host's selected campaign is what the next
      bootstrap of that host reads back: the selection survives the write
      and the stored text parses to the written state. */
  lemma GameStateWriteRoundTrip(kv: map<string, string>, host: string, campaignId: string, g: GameState, newId: string, current: GameState)
    requires host != "" && CampaignSelected(kv, host, campaignId)
    ensures var kv' := kv[GameStateKey(Some(host), Some(campaignId)) := GameStateJson.Encode(g)];
      && CampaignSelected(kv', host, campaignId)
      && BootCampaign(kv', host, newId) == campaignId
      && BootGameState(kv', GameStateKey(Some(host), Some(campaignId)), current) == g
  {
    CampaignKeysDistinct(host, Some(campaignId));
    GameStateJson.DecodeEncode(g);
  }

  // ------ The coordinator ------

  class GameInstance {
    var connections: Connections
    var host: Option<string>
    var campaignId: Option<string>
    var gameState: GameState

    /** The instance's durable storage and the shared key-value store. */
    var storage: map<string, Stored>
    var kv: map<string, string>

    /** The transport: ids of the open tagged sockets, and every frame sent
        to each socket ever accepted, in order. */
    var sockets: set<string>
    var outbox: map<string, seq<ServerFrame>>

    ghost predicate Valid()
      reads this
    {
      && WellFormedStorage(storage)
      && WellKeyed(connections)
      && host == StoredHostOf(storage)
      && (host.Some? <==> campaignId.Some?)
      && (campaignId.Some? ==> CampaignSelected(kv, host.value, campaignId.value))
      && sockets <= connections.Keys
      && sockets <= outbox.Keys
      && (sockets != {} ==> host.Some?)
      && "" !in sockets
    }

    /** Activation: field defaults, then the bootstrap `init` before any
        request is admitted. */
    constructor (storage0: map<string, Stored>, kv0: map<string, string>, freshCampaignId: string)
      requires WellFormedStorage(storage0) && freshCampaignId != ""
      ensures Valid()
      ensures connections == StoredRosterOf(storage0) && host == StoredHostOf(storage0)
      ensures storage == storage0 && sockets == {} && outbox == map[]
      ensures host.None? ==> campaignId.None? && gameState == DefaultGameState && kv == kv0
      ensures host.Some? ==> campaignId == Some(BootCampaign(kv0, host.value, freshCampaignId))
      ensures host.Some? ==>
        gameState == BootGameState(CampaignKv(kv0, host.value, freshCampaignId), GameStateKey(host, campaignId), DefaultGameState)
    {
      connections := map[];
      host := None;
      campaignId := None;
      gameState := DefaultGameState;
      storage := storage0;
      kv := kv0;
      sockets := {};
      outbox := map[];
      new;
      Init(freshCampaignId);
    }

    /** `init`: roster, then host, then (only with a host) campaign and
        game state. A parse failure of the stored game state is caught and
        leaves the default in place. */
    method Init(freshCampaignId: string)
      requires WellFormedStorage(storage) && freshCampaignId != ""
      requires host.None? && campaignId.None? && sockets == {}
      modifies this
      ensures Valid()
      ensures connections == StoredRosterOf(storage) && host == StoredHostOf(storage)
      ensures storage == old(storage) && sockets == old(sockets) && outbox == old(outbox)
      ensures host.None? ==> campaignId.None? && gameState == old(gameState) && kv == old(kv)
      ensures host.Some? ==> campaignId == Some(BootCampaign(old(kv), host.value, freshCampaignId))
      ensures host.Some? ==>
        && gameState == BootGameState(CampaignKv(old(kv), host.value, freshCampaignId), GameStateKey(host, campaignId), old(gameState))
        && kv == BootKv(old(kv), host.value, freshCampaignId, old(gameState))
    {
      LoadConnections();
      LoadHost();
      if host.Some? {
        LoadCampaign(freshCampaignId);
        var parsed := LoadGameState();
      }
    }

    method LoadConnections()
      modifies this
      ensures connections == StoredRosterOf(storage)
      ensures host == old(host) && campaignId == old(campaignId) && gameState == old(gameState)
      ensures storage == old(storage) && kv == old(kv) && sockets == old(sockets) && outbox == old(outbox)
    {
      connections := StoredRosterOf(storage);
    }

    method LoadHost()
      modifies this
      ensures host == StoredHostOf(storage)
      ensures connections == old(connections) && campaignId == old(campaignId) && gameState == old(gameState)
      ensures storage == old(storage) && kv == old(kv) && sockets == old(sockets) && outbox == old(outbox)
    {
      host := StoredHostOf(storage);
    }

    /** `loadCampaign`: reuse the host's selected campaign, or allocate
        `newId` and record it both as the campaign list and as the
        selection. Without a host it does nothing. */
    method LoadCampaign(newId: string)
      requires newId != ""
      modifies this
      ensures connections == old(connections) && host == old(host) && gameState == old(gameState)
      ensures storage == old(storage) && sockets == old(sockets) && outbox == old(outbox)
      ensures !Given(host) ==> campaignId == old(campaignId) && kv == old(kv)
      ensures Given(host) ==> campaignId == Some(BootCampaign(old(kv), host.value, newId))
      ensures Given(host) ==> kv == CampaignKv(old(kv), host.value, newId)
      ensures Given(host) ==> campaignId.Some? && CampaignSelected(kv, host.value, campaignId.value)
    {
      if !Given(host) {
        return;
      }
      var h := host.value;
      match KvText(kv, SelectedCampaignKey(h))
      case Some(selected) =>
        campaignId := Some(selected);
      case None =>
        campaignId := Some(newId);
        kv := kv[CampaignsKey(h) := CampaignListJson(newId)];
        kv := kv[SelectedCampaignKey(h) := newId];
    }

    /** `loadGameState`: with a host and a campaign, read the stored game
        state, or store the current one when nothing is there. `parsed` is
        false when `JSON.parse` would throw; the state is then unchanged. */
    method LoadGameState() returns (parsed: bool)
      modifies this
      ensures var key := GameStateKey(host, campaignId);
        && (!Given(host) || !Given(campaignId) ==> gameState == old(gameState) && kv == old(kv) && parsed)
        && (Given(host) && Given(campaignId) && KvText(old(kv), key).None? ==>
              kv == old(kv)[key := GameStateJson.Encode(old(gameState))] && gameState == old(gameState) && parsed)
        && (Given(host) && Given(campaignId) && KvText(old(kv), key).Some? ==>
              kv == old(kv) && gameState == BootGameState(old(kv), key, old(gameState))
              && parsed == GameStateJson.Decode(old(kv)[key]).Some?)
      ensures Given(host) && Given(campaignId) ==> gameState == BootGameState(kv, GameStateKey(host, campaignId), old(gameState))
      ensures connections == old(connections) && host == old(host) && campaignId == old(campaignId)
      ensures storage == old(storage) && sockets == old(sockets) && outbox == old(outbox)
    {
      parsed := true;
      if !Given(host) || !Given(campaignId) {
        return;
      }
      var key := GameStateKey(host, campaignId);
      match KvText(kv, key)
      case None =>
        kv := kv[key := GameStateJson.Encode(gameState)];
        GameStateJson.DecodeEncode(gameState);
      case Some(text) =>
        match GameStateJson.Decode(text)
        case Some(g) =>
          gameState := g;
        case None =>
          parsed := false;
    }

    /** `fetch`: admit a websocket upgrade. An `X-Discord-User` header that
        does not parse makes `JSON.parse` throw before anything changes.
        `freshConnectionId` is the UUID of the new socket, `freshCampaignId`
        the one a first campaign would get.

        The `addConnection` call of the source names `discordUser`, which is
        in scope on neither path; the model registers the header's user on
        the Discord path and the parameter `outerUser` on the other. */
    method Fetch(request: Request, outerUser: APIUser, freshConnectionId: string, freshCampaignId: string)
      returns (response: Response)
      requires Valid() && freshConnectionId != "" && freshConnectionId !in outbox && freshCampaignId != ""
      modifies this
      ensures Valid()
      ensures response == Reply(101) || response == Uncaught || response == Reply(426) || response == Reply(401)
      ensures response == Reply(426) <==> request.upgrade != Some("websocket")
      ensures response == Reply(401) <==>
        request.upgrade == Some("websocket") && request.discordUser.Header? && request.discordUser.user.id == ""
      ensures request.upgrade == Some("websocket") && request.discordUser.Malformed? ==> response == Uncaught
      // Only an admission touches the roster and the transport.
      ensures response != Reply(101) ==>
        connections == old(connections) && sockets == old(sockets) && outbox == old(outbox)
      // Rejections, and a header that does not parse, leave everything as it was.
      ensures response == Reply(426) || response == Reply(401) || request.discordUser.Malformed? ==>
        && host == old(host) && campaignId == old(campaignId) && gameState == old(gameState)
        && storage == old(storage) && kv == old(kv)
      // The host is elected once and then sticks.
      ensures old(host).Some? ==>
        host == old(host) && campaignId == old(campaignId) && kv == old(kv) && gameState == old(gameState)
      ensures old(host).None? && response != Reply(426) && response != Reply(401) && !request.discordUser.Malformed? ==>
        && host == Some(if request.discordUser.Header? then request.discordUser.user.id else FallbackUserId)
        && storage[HostKey] == StoredHost(host.value)
        && campaignId == Some(BootCampaign(old(kv), host.value, freshCampaignId))
        && gameState == BootGameState(CampaignKv(old(kv), host.value, freshCampaignId), GameStateKey(host, campaignId), old(gameState))
        && kv == BootKv(old(kv), host.value, freshCampaignId, old(gameState))
      // Loading an unreadable stored game state throws out of the election.
      ensures response == Uncaught && !request.discordUser.Malformed? ==>
        && old(host).None? && host.Some? && campaignId.Some?
        && storage == old(storage)[HostKey := StoredHost(host.value)]
        && GameStateUnreadable(CampaignKv(old(kv), host.value, freshCampaignId), GameStateKey(host, campaignId))
      // An admitted socket gets its id, the game state and the new roster, in that order.
      ensures response == Reply(101) ==>
        var user := if request.discordUser.Header? then request.discordUser.user else outerUser;
        var entry := Connection(freshConnectionId, StripPrivateInfo(user), host == Some(user.id), InitialPresence);
        && connections == old(connections)[freshConnectionId := entry]
        && sockets == old(sockets) + {freshConnectionId}
        && outbox.Keys == old(outbox).Keys + {freshConnectionId}
        && outbox[freshConnectionId] == [ConnectionIdFrame(freshConnectionId), GameStateFrame(gameState), ConnectionsFrame(connections)]
        && (forall id :: id in old(sockets) ==> outbox[id] == old(outbox)[id] + [ConnectionsFrame(connections)])
        && (forall id :: id in old(outbox) && id !in old(sockets) ==> outbox[id] == old(outbox)[id])
        && storage == (if old(host).None? then old(storage)[HostKey := StoredHost(host.value)] else old(storage))
                        [RosterKey := StoredRoster(connections)]
    {
      if request.upgrade != Some("websocket") {
        return Reply(426);
      }
      if request.discordUser.Malformed? {
        return Uncaught;
      }
      var user: APIUser;
      if request.discordUser.Header? {
        var discordUser := request.discordUser.user;
        if discordUser.id == "" {
          return Reply(401);
        }
        if host.None? {
          var ok := ElectHost(discordUser.id, freshCampaignId);
          if !ok {
            return Uncaught;
          }
        }
        user := discordUser;
      } else {
        if host.None? {
          var ok := ElectHost(FallbackUserId, freshCampaignId);
          if !ok {
            return Uncaught;
          }
        }
        user := outerUser;
      }
      Accept(freshConnectionId, user);
      response := Reply(101);
    }

    /** The tail of an admission: accept the socket under its tag, send it
        its id and the game state, then register it. */
    method Accept(id: string, user: APIUser)
      requires Valid() && id != "" && id !in outbox && host.Some?
      modifies this
      ensures Valid()
      ensures host == old(host) && campaignId == old(campaignId) && gameState == old(gameState) && kv == old(kv)
      ensures connections == old(connections)[id := Connection(id, StripPrivateInfo(user), host == Some(user.id), InitialPresence)]
      ensures sockets == old(sockets) + {id}
      ensures outbox.Keys == old(outbox).Keys + {id}
      ensures outbox[id] == [ConnectionIdFrame(id), GameStateFrame(gameState), ConnectionsFrame(connections)]
      ensures forall c :: c in old(sockets) ==> outbox[c] == old(outbox)[c] + [ConnectionsFrame(connections)]
      ensures forall c :: c in old(outbox) && c !in old(sockets) ==> outbox[c] == old(outbox)[c]
      ensures storage == old(storage)[RosterKey := StoredRoster(connections)]
    {
      sockets := sockets + {id};
      outbox := outbox[id := [ConnectionIdFrame(id), GameStateFrame(gameState)]];
      AddConnection(id, user);
    }

    /** The host election of `fetch`: record the admitted id as the host,
        persist it, then load the campaign and game state it determines.
        `parsed` is false when loading the game state throws. */
    method ElectHost(id: string, freshCampaignId: string) returns (parsed: bool)
      requires Valid() && host.None? && id != "" && freshCampaignId != ""
      modifies this
      ensures Valid()
      ensures host == Some(id) && storage == old(storage)[HostKey := StoredHost(id)]
      ensures campaignId == Some(BootCampaign(old(kv), id, freshCampaignId))
      ensures var campaignKv := CampaignKv(old(kv), id, freshCampaignId);
        var key := GameStateKey(host, campaignId);
        && gameState == BootGameState(campaignKv, key, old(gameState))
        && kv == BootKv(old(kv), id, freshCampaignId, old(gameState))
        && parsed == !GameStateUnreadable(campaignKv, key)
      ensures connections == old(connections) && sockets == old(sockets) && outbox == old(outbox)
    {
      assert sockets == {};
      host := Some(id);
      storage := storage[HostKey := StoredHost(id)];
      LoadCampaign(freshCampaignId);
      parsed := LoadGameState();
      CampaignKeysDistinct(id, campaignId);
    }

    /** `webSocketMessage` from the socket tagged `id`. */
    method WebSocketMessage(id: string, frame: ClientFrame)
      requires Valid() && id in sockets
      modifies this
      ensures Valid()
      ensures host == old(host) && campaignId == old(campaignId) && storage == old(storage) && sockets == old(sockets)
      ensures outbox.Keys == old(outbox).Keys
      ensures frame.PresenceUpdate? ==>
        && connections == old(connections)[id := old(connections)[id].(presence := frame.presence)]
        && gameState == old(gameState) && kv == old(kv)
        && (forall c :: c in sockets && c != id ==> outbox[c] == old(outbox)[c] + [PresenceFrame(id, frame.presence)])
      ensures frame.GameStateUpdate? ==>
        && gameState == frame.gameState && connections == old(connections)
        && kv == old(kv)[GameStateKey(host, campaignId) := GameStateJson.Encode(frame.gameState)]
        && (forall c :: c in sockets && c != id ==> outbox[c] == old(outbox)[c] + [GameStateFrame(frame.gameState)])
      ensures frame.PresenceUpdate? || frame.GameStateUpdate? ==>
        && outbox[id] == old(outbox)[id]
        && (forall c :: c in old(outbox) && c !in sockets ==> outbox[c] == old(outbox)[c])
      ensures !frame.PresenceUpdate? && !frame.GameStateUpdate? ==>
        connections == old(connections) && gameState == old(gameState) && kv == old(kv) && outbox == old(outbox)
    {
      match frame
      case PresenceUpdate(p) =>
        UpdatePresence(id, p);
      case GameStateUpdate(g) =>
        UpdateGameState(id, g);
      case RecordsUpdate =>
        // `this.updateRecords` is not defined and throws before any effect.
      case RecoveryRequest =>
        // `sendRecovery` has an empty body.
      case UnknownFrame(_) =>
    }

    /** `webSocketClose` for the socket tagged `id`: the socket is closed
        first, then its roster entry is removed. Closing again is harmless. */
    method WebSocketClose(id: string)
      requires Valid() && id in outbox
      modifies this
      ensures Valid()
      ensures sockets == old(sockets) - {id}
      ensures connections == old(connections) - {id}
      ensures id !in old(connections) ==> connections == old(connections)
      ensures storage == old(storage)[RosterKey := StoredRoster(connections)]
      ensures outbox.Keys == old(outbox).Keys
      ensures forall c :: c in sockets ==> outbox[c] == old(outbox)[c] + [ConnectionsFrame(connections)]
      ensures forall c :: c in old(outbox) && c !in sockets ==> outbox[c] == old(outbox)[c]
      ensures host == old(host) && campaignId == old(campaignId) && gameState == old(gameState) && kv == old(kv)
    {
      sockets := sockets - {id};
      RemoveConnection(id);
    }

    /** `broadcast`: send `m` to every open tagged socket whose id is not in
        `exclude`, and to no other. */
    method Broadcast(m: ServerFrame, exclude: seq<string>)
      requires sockets <= outbox.Keys
      modifies this
      ensures connections == old(connections) && host == old(host) && campaignId == old(campaignId)
      ensures gameState == old(gameState) && storage == old(storage) && kv == old(kv) && sockets == old(sockets)
      ensures outbox.Keys == old(outbox).Keys
      ensures forall id :: id in sockets && id !in exclude ==> outbox[id] == old(outbox)[id] + [m]
      ensures forall id :: id in old(outbox) && (id !in sockets || id in exclude) ==> outbox[id] == old(outbox)[id]
    {
      var pending := sockets;
      while pending != {}
        invariant connections == old(connections) && host == old(host) && campaignId == old(campaignId)
        invariant gameState == old(gameState) && storage == old(storage) && kv == old(kv) && sockets == old(sockets)
        invariant pending <= sockets
        invariant outbox.Keys == old(outbox).Keys
        invariant forall id :: id in sockets - pending && id !in exclude ==> outbox[id] == old(outbox)[id] + [m]
        invariant forall id :: id in old(outbox) && (id in pending || id !in sockets || id in exclude) ==>
          outbox[id] == old(outbox)[id]
        decreases pending
      {
        var id :| id in pending;
        if id !in exclude {
          outbox := outbox[id := outbox[id] + [m]];
        }
        pending := pending - {id};
      }
    }

    /** `addConnection`: register the entry, broadcast the roster to every
        socket (the new one included) and persist it. */
    method AddConnection(id: string, user: APIUser)
      requires WellKeyed(connections) && sockets <= outbox.Keys && sockets <= connections.Keys + {id}
      modifies this
      ensures host == old(host) && campaignId == old(campaignId) && gameState == old(gameState)
      ensures kv == old(kv) && sockets == old(sockets)
      ensures connections == old(connections)[id := Connection(id, StripPrivateInfo(user), host == Some(user.id), InitialPresence)]
      ensures WellKeyed(connections) && sockets <= connections.Keys
      ensures storage == old(storage)[RosterKey := StoredRoster(connections)]
      ensures outbox.Keys == old(outbox).Keys
      ensures forall c :: c in sockets ==> outbox[c] == old(outbox)[c] + [ConnectionsFrame(connections)]
      ensures forall c :: c in old(outbox) && c !in sockets ==> outbox[c] == old(outbox)[c]
    {
      connections := connections[id := Connection(id, StripPrivateInfo(user), host == Some(user.id), InitialPresence)];
      Broadcast(ConnectionsFrame(connections), []);
      storage := storage[RosterKey := StoredRoster(connections)];
    }

    /** `removeConnection`: delete the entry if present, broadcast the
        roster and persist it. */
    method RemoveConnection(id: string)
      requires WellKeyed(connections) && sockets <= outbox.Keys && id !in sockets
      modifies this
      ensures host == old(host) && campaignId == old(campaignId) && gameState == old(gameState)
      ensures kv == old(kv) && sockets == old(sockets)
      ensures connections == old(connections) - {id}
      ensures id !in old(connections) ==> connections == old(connections)
      ensures WellKeyed(connections)
      ensures storage == old(storage)[RosterKey := StoredRoster(connections)]
      ensures outbox.Keys == old(outbox).Keys
      ensures forall c :: c in sockets ==> outbox[c] == old(outbox)[c] + [ConnectionsFrame(connections)]
      ensures forall c :: c in old(outbox) && c !in sockets ==> outbox[c] == old(outbox)[c]
    {
      connections := connections - {id};
      Broadcast(ConnectionsFrame(connections), []);
      storage := storage[RosterKey := StoredRoster(connections)];
    }

    /** `updatePresence`: only the sender's presence changes, every other
        socket hears of it, the sender does not, and storage is not written. */
    method UpdatePresence(id: string, presence: Presence)
      requires Valid() && id in connections
      modifies this
      ensures Valid()
      ensures connections == old(connections)[id := old(connections)[id].(presence := presence)]
      ensures outbox.Keys == old(outbox).Keys
      ensures forall c :: c in sockets && c != id ==> outbox[c] == old(outbox)[c] + [PresenceFrame(id, presence)]
      ensures id in outbox ==> outbox[id] == old(outbox)[id]
      ensures forall c :: c in old(outbox) && c !in sockets ==> outbox[c] == old(outbox)[c]
      ensures storage == old(storage) && kv == old(kv)
      ensures host == old(host) && campaignId == old(campaignId) && gameState == old(gameState) && sockets == old(sockets)
    {
      connections := connections[id := connections[id].(presence := presence)];
      Broadcast(PresenceFrame(id, presence), [id]);
    }

    /** `updateGameState`: replace the game state, tell every other socket,
        and write it under the host's campaign key. */
    method UpdateGameState(id: string, g: GameState)
      requires Valid()
      modifies this
      ensures Valid()
      ensures gameState == g
      ensures kv == old(kv)[GameStateKey(host, campaignId) := GameStateJson.Encode(g)]
      ensures outbox.Keys == old(outbox).Keys
      ensures forall c :: c in sockets && c != id ==> outbox[c] == old(outbox)[c] + [GameStateFrame(g)]
      ensures id in outbox ==> outbox[id] == old(outbox)[id]
      ensures forall c :: c in old(outbox) && c !in sockets ==> outbox[c] == old(outbox)[c]
      ensures connections == old(connections) && storage == old(storage)
      ensures host == old(host) && campaignId == old(campaignId) && sockets == old(sockets)
    {
      gameState := g;
      Broadcast(GameStateFrame(g), [id]);
      kv := kv[GameStateKey(host, campaignId) := GameStateJson.Encode(g)];
      if host.Some? {
        CampaignKeysDistinct(host.value, campaignId);
      }
    }
  }

  // ------ The worker entry point ------

  /** An incoming request as the worker sees it: the query parameters, the
      `Upgrade` header and the text of any `X-Discord-User` header the
      caller sent. */
  datatype WorkerRequest = WorkerRequest(
    instanceId: Option<string>,
    accessToken: Option<string>,
    upgrade: Option<string>,
    callerUserHeader: Option<string>)

  /** A rejection, or the request forwarded to the instance named `instanceId`. */
  datatype Routed = Rejected(status: nat) | Forwarded(instanceId: string, request: Request)

  /** A nullable string that is present and not empty: a truthy string. */
  predicate Given(o: Option<string>)
  {
    o.Some? && o.value != ""
  }

  /** The default `fetch`: instance id, then access token, then the user the
      token resolves to. The forwarded headers are the caller's, copied under
      their lower-cased names, plus `X-Discord-User` holding the resolved
      user's JSON. Headers are case-insensitive, so a caller-sent
      `x-discord-user` is not replaced: the resolved JSON is appended to it,
      and the combined `<caller text>, <JSON>` is no JSON text. So the
      instance sees the resolved user exactly when the caller sent no such
      header, and a header it cannot parse otherwise; never a user the
      caller chose. */
  function Route(request: WorkerRequest, fetchDiscordUser: string -> Option<APIUser>): (r: Routed)
    ensures !Given(request.instanceId) ==> r == Rejected(400)
    ensures Given(request.instanceId) && !Given(request.accessToken) ==> r == Rejected(401)
    ensures Given(request.instanceId) && Given(request.accessToken) && fetchDiscordUser(request.accessToken.value).None? ==>
      r == Rejected(401)
    ensures r.Forwarded? <==>
      Given(request.instanceId) && Given(request.accessToken) && fetchDiscordUser(request.accessToken.value).Some?
    ensures r.Forwarded? ==> r.instanceId == request.instanceId.value && r.request.upgrade == request.upgrade
    ensures r.Forwarded? && request.callerUserHeader.None? ==>
      r.request.discordUser == Header(fetchDiscordUser(request.accessToken.value).value)
    ensures r.Forwarded? && request.callerUserHeader.Some? ==> r.request.discordUser == Malformed
  {
    if !Given(request.instanceId) then Rejected(400)
    else if !Given(request.accessToken) then Rejected(401)
    else
      match fetchDiscordUser(request.accessToken.value)
      case None => Rejected(401)
      case Some(user) =>
        var header := if request.callerUserHeader.Some? then Malformed else Header(user);
        Forwarded(request.instanceId.value, Request(request.upgrade, header))
  }
}
