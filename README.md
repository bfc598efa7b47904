# AdventureBoard session sync, modelled in Dafny

This project models the real-time core of AdventureBoard, a shared game board
that runs as a Discord activity. It has two halves.

- The **session coordinator** `GameInstance` is a Cloudflare Durable Object.
  There is one per board instance. It owns the roster of connections, the
  sticky host, the host's campaign and the game state. It admits websocket
  upgrades, dispatches inbound frames, fans frames out to the open sockets,
  and persists to its own durable storage and to a shared key-value store.
  The worker's default `fetch` routes each request to its instance.
- The **client session link** is the zustand websocket store. It holds the
  live socket, the reconnect backoff, the own connection id and the roster.
  It offers selectors over the roster, a presence setter that applies the
  change locally first, and connect/retry logic with exponential backoff.

Around them are the shared wire types, the identity redaction
`stripPrivateInfo` and the asset URL rewriter `s3UrlRewriter`.

Files and modules:

- `WsTypes.dfy` (`WsTypes`): the wire datatypes and the frames each side sends.
- `GameStateJson.dfy` (`GameStateJson`): the JSON text a game state is stored as
  in the key-value store, and its parser.
- `Discord.dfy` (`Discord`): the raw identity-provider user and `StripPrivateInfo`.
- `GameInstance.dfy` (`Backend`): the coordinator class, its store keys and
  bootstrap functions, and the worker router `Route`.
- `ClientLink.dfy` (`ClientLink`): the selectors and the class `WebSocketStore`
  with its connection handlers.
- `DiscordUtils.dfy` (`DiscordUtils`): `S3UrlRewriter`, with
  first-occurrence replacement.
- `Scenarios.dfy` (`Scenarios`): drivers whose postconditions span several
  events, proved from the step contracts alone.

Modelling choices:

- Every event is one atomic step: bootstrap, an admission, an inbound frame,
  a close, a timer firing.
- The coordinator's durable storage is a `map<string, Stored>` (structured
  clones). The key-value store is a `map<string, string>` of JSON text.
  Both are fields of the class.
- The transport is `sockets`, the ids of the open tagged sockets, plus
  `outbox`, which holds every frame sent to each accepted socket, in order.
- A fresh UUID is a parameter. A connection id is not empty and has never
  been used for a socket. A campaign id is not empty.
- JavaScript falsiness is explicit. An empty id, host, query parameter or
  stored text counts as absent, as `!x` does.
- The `X-Discord-User` header reaches the coordinator in one of three forms:
  absent (`NoHeader`), text `JSON.parse` turns into a user (`Header`), or
  text on which it throws (`Malformed`). A `Malformed` header makes `fetch`
  throw before anything changes.
- The worker copies the caller's headers under their lower-cased names and
  adds `X-Discord-User` with the resolved user's JSON. Header names are
  case-insensitive, so a caller-sent header is not replaced. The resolved
  JSON is appended to it, and `<caller text>, <JSON>` is never a JSON text.
  `Route` therefore forwards `Malformed` whenever the caller sent the header.
- `updatePresence` indexes the roster without checking the id. Its
  precondition is that the id is in the roster. `Valid()` keeps
  `sockets <= connections.Keys`, so a frame from an open socket always
  meets that precondition.
- `broadcast` targets the transport's open tagged sockets, not the roster.
- `webSocketClose` closes the socket before removing the entry. So the
  roster broadcast goes to the sockets that are still open.
- An `update` frame calls `this.updateRecords`, which is not defined and
  throws before doing anything. A `recovery` frame calls `sendRecovery`,
  whose body is empty. Both change nothing.
- `updateGameState` builds its key from `host` and `campaignId` as a
  template literal. A null part turns into the text `null` (`Show`).
- On the client, each socket `connect` creates is a handle: its index in
  `sockets`, together with the arguments its listeners captured. A pending
  `setTimeout` of `retry` is an entry of `timers` holding its delay. `Fire`
  consumes one entry: it doubles the backoff, then connects again.
- The setter returned by `useMyPresence` takes the id it captured. Without
  an id it does nothing. If the id has no roster entry, the in-place write
  at `apps/client/src/lib/websocket/index.ts:46` throws (`threw`) and
  nothing changes.
- `setupThrows` stands for an exception while `connect` sets up the socket,
  which the `catch` turns into a retry.

Behaviours of the code the model keeps as they are:

- The client handles `connectionId` and `connections` frames only. It
  ignores `gameState` and `presence` frames.
- An `error` event only logs. Only `close`, or an exception during setup,
  schedules a retry.
- The backoff doubles when a retry fires, not when it is scheduled. A
  retry waits for the backoff as it was when it was scheduled.
- The initial backoff is 250. Every successful open resets it to 1000.
- Without an `X-Discord-User` header, the host becomes `harris`.
- A caller-sent `X-Discord-User` header does not let a caller pick its
  identity, but it does not get overwritten either: the admission fails.

## Model

| member | source | states |
|---|---|---|
| `GameStateJson.ParseSystem` | packages/adventureboard-ws-types/types.ts:18-23 | whatever `system` text parses is the canonical JSON of the value it yields |
| `GameStateJson.ParseSystemJson` | packages/adventureboard-ws-types/types.ts:18 | null and each of the four systems (d&d5e, pathfinder, daggerheart, other) reads back as itself |
| `GameStateJson.Encode` | apps/backend/src/index.ts:86 | a stored game state is a JSON object text starting `{"system":` and ending `}` |
| `GameStateJson.Decode` | apps/backend/src/index.ts:88 | text that parses is exactly the stored text of the state it parses to |
| `GameStateJson.DecodeEncode` | apps/backend/src/index.ts:83-89 | parsing the stored text of a game state gives that game state back |
| `GameStateJson.EncodeInjective` | packages/adventureboard-ws-types/types.ts:18-23 | different game states are stored as different texts |
| `Discord.StripPrivateInfo` | apps/backend/src/discord.ts:17-25 | the redacted profile carries the same id, username, global name, avatar and discriminator as the user |
| `Discord.StripKeepsExactlyPublicProfile` | apps/backend/src/discord.ts:17-25 | two users have equal redacted profiles iff id, username, global name, avatar and discriminator agree, so no private field leaks |
| `Discord.StripIdempotent` | apps/backend/src/discord.ts:17-25 | stripping a stripped profile again changes nothing |
| `Discord.HostFlagFromStoredId` | apps/backend/src/index.ts:208-210 | `isHost` from the raw user equals the host comparison on the stored id |
| `DiscordUtils.FindFrom` | apps/client/src/lib/discord/utils.ts:3 | returns the first index at or after the start where the pattern occurs; none means no occurrence |
| `DiscordUtils.ReplaceFirst` | apps/client/src/lib/discord/utils.ts:3 | splices the replacement in at the leftmost occurrence only; no occurrence gives the string unchanged |
| `DiscordUtils.FindScheme` | apps/client/src/lib/discord/utils.ts:3 | the leftmost `https://` or `http://` match, preferring `https://` at the same index; none means neither occurs |
| `DiscordUtils.StripScheme` | apps/client/src/lib/discord/utils.ts:3 | exactly the leftmost scheme is cut (`https://` where both fit), the text on both sides kept; no scheme gives the URL unchanged |
| `DiscordUtils.S3UrlRewriter` | apps/client/src/lib/discord/utils.ts:1-6 | outside production the URL is unchanged; in production the leftmost scheme is cut, then the first `r2.starlightlabs.co/` of the rest becomes `/r2/`, each step a no-op when its pattern is absent |
| `DiscordUtils.ProxiedAsset` | apps/client/src/lib/discord/utils.ts:3 | in production `https://r2.starlightlabs.co/<path>` becomes `/r2/<path>` |
| `Backend.SelectedCampaignKey` | apps/backend/src/index.ts:64 | the key is the host followed by `-selectedCampaignId` |
| `Backend.CampaignsKey` | apps/backend/src/index.ts:69 | the key is the host followed by `-campaigns` |
| `Backend.HostKeysDistinct` | apps/backend/src/index.ts:64-70 | two different hosts never share a selection key or a campaign-list key |
| `Backend.CampaignListJson` | apps/backend/src/index.ts:69 | the stored campaign list is `["<id>"]`, a one-element JSON array holding the fresh id |
| `Backend.GameStateKey` | apps/backend/src/index.ts:83 | the key is `<host>-<campaignId>-gameState`, a null part reading `null` |
| `Backend.CampaignKeysDistinct` | apps/backend/src/index.ts:64-70 | a host's selected-campaign, campaign-list and game-state keys never collide |
| `Backend.KvText` | apps/backend/src/index.ts:65 | a stored text counts only when present and non-empty |
| `Backend.StoredHostOf` | apps/backend/src/index.ts:56-59 | a loaded host is non-empty and is what storage holds under `host` |
| `Backend.StoredRosterOf` | apps/backend/src/index.ts:51-54 | the stored roster is taken as it is, with none an empty roster; well-formed storage gives each entry under its own id |
| `Backend.BootCampaign` | apps/backend/src/index.ts:61-72 | the campaign is the stored selection if there is one, else the fresh id |
| `Backend.CampaignKv` | apps/backend/src/index.ts:64-71 | after loading, the selection names the campaign, and no key other than the two campaign keys changes |
| `Backend.BootGameState` | apps/backend/src/index.ts:80-90 | the game state is the stored one when present and parseable, otherwise the current one |
| `Backend.BootKv` | apps/backend/src/index.ts:61-90 | after bootstrap the campaign is selected, its game-state key holds text, and reading that key gives what it gave before the write |
| `Backend.GameStateWriteRoundTrip` | apps/backend/src/index.ts:252-257 | after a game-state write, the next bootstrap still selects the same campaign and reads back the written state |
| `Backend.GameInstance.constructor` | apps/backend/src/index.ts:16-49 | bootstrap: the stored roster or empty, the stored host or null; campaign and game state are loaded only with a host, otherwise `{system:null}` |
| `Backend.GameInstance.Init` | apps/backend/src/index.ts:35-49 | roster and host from storage; with a host, the campaign, game state and key-value store as bootstrap leaves them; a parse failure is swallowed |
| `Backend.GameInstance.LoadConnections` | apps/backend/src/index.ts:51-54 | the roster becomes the stored one, or empty |
| `Backend.GameInstance.LoadHost` | apps/backend/src/index.ts:56-59 | the host becomes the stored one, or null |
| `Backend.GameInstance.LoadCampaign` | apps/backend/src/index.ts:61-72 | without a truthy host nothing changes; with one, reuse the selection or record the fresh id as list and selection |
| `Backend.GameInstance.LoadGameState` | apps/backend/src/index.ts:80-90 | without a truthy host and campaign id nothing changes; absent text: store the current state; parseable: adopt it; unparseable: report the throw and change nothing |
| `Backend.GameInstance.Fetch` | apps/backend/src/index.ts:93-153 | 426 iff not an upgrade; 401 iff the header's user has no id; an unparseable header throws; rejections and the throw change nothing; host elected once, persisted with its key-value store, then sticky; a failed election persists the host, loads its campaign, keeps the game state and admits no socket; the new socket gets its id, the game state, the roster |
| `Backend.GameInstance.ElectHost` | apps/backend/src/index.ts:106-113 | host set and persisted, then campaign, game state and key-value store loaded for it |
| `Backend.GameInstance.Accept` | apps/backend/src/index.ts:129-150 | the socket is tagged and open; its outbox is id, game state, roster; the others get the roster |
| `Backend.GameInstance.WebSocketMessage` | apps/backend/src/index.ts:156-176 | presence and game-state frames act as their updates; update, recovery and unknown types change nothing |
| `Backend.GameInstance.WebSocketClose` | apps/backend/src/index.ts:178-187 | the socket closes and its entry goes; closing again or an unknown id leaves the roster unchanged; the rest get the roster; storage holds it |
| `Backend.GameInstance.Broadcast` | apps/backend/src/index.ts:190-201 | appends the frame to every open tagged socket not excluded, and to no other outbox |
| `Backend.GameInstance.AddConnection` | apps/backend/src/index.ts:205-214 | the entry is added under its own id; every open socket gets the roster; storage holds it |
| `Backend.GameInstance.RemoveConnection` | apps/backend/src/index.ts:216-220 | the entry is deleted, and deleting an absent id changes nothing; the roster is broadcast and persisted |
| `Backend.GameInstance.UpdatePresence` | apps/backend/src/index.ts:223-226 | only the sender's presence changes; every other socket gets it; no echo; storage and KV untouched |
| `Backend.GameInstance.UpdateGameState` | apps/backend/src/index.ts:252-257 | the game state is replaced; the others get it; the sender gets no echo; written under `host-campaignId-gameState` |
| `Backend.Route` | apps/backend/src/index.ts:270-307 | 400 without an instance id, then 401 without an access token, then 401 for an unresolved user; otherwise forward with the resolved user, or with an unparseable header when the caller sent one |
| `ClientLink.UseOther` | apps/client/src/lib/websocket/index.ts:68-71 | the entry under the id, or nothing when absent |
| `ClientLink.UseSelf` | apps/client/src/lib/websocket/index.ts:33-36 | nothing without an own id, else the lookup of the own id |
| `ClientLink.MyPresence` | apps/client/src/lib/websocket/index.ts:38-43 | the presence is the own entry's presence, absent exactly when the own entry is |
| `ClientLink.UseOthers` | apps/client/src/lib/websocket/index.ts:58-61 | exactly the roster entries whose own id is not the client's |
| `ClientLink.UseOthersConnectionIds` | apps/client/src/lib/websocket/index.ts:63-66 | the roster's ids less the own id |
| `ClientLink.OthersIdsAgree` | apps/client/src/lib/websocket/index.ts:58-66 | with entries under their own ids, the ids of `useOthers` are `useOthersConnectionIds` |
| `ClientLink.SelfNotAmongOthers` | apps/client/src/lib/websocket/index.ts:58-61 | the own entry is never among the others; no other has the own id |
| `ClientLink.SetterTouchesOwnEntryOnly` | apps/client/src/lib/websocket/index.ts:44-48 | the setter keeps the key set and every other entry; the own presence becomes the new one |
| `ClientLink.WebSocketStore.constructor` | apps/client/src/lib/websocket/index.ts:23-30 | no socket, backoff 250, no id, empty roster |
| `ClientLink.WebSocketStore.Connect` | apps/client/src/lib/websocket/connection.ts:3-56 | an empty token or instance id aborts with no socket and no retry; a setup exception schedules one retry; otherwise one socket is created |
| `ClientLink.WebSocketStore.Retry` | apps/client/src/lib/websocket/connection.ts:58-63 | schedules one timer whose delay is the current backoff |
| `ClientLink.WebSocketStore.OnOpen` | apps/client/src/lib/websocket/connection.ts:20-23 | the socket is recorded and the backoff is reset to 1000 |
| `ClientLink.WebSocketStore.OnMessage` | apps/client/src/lib/websocket/connection.ts:25-33 | a `connectionId` frame stores the id; a `connections` frame replaces the roster; other frames change nothing |
| `ClientLink.WebSocketStore.OnError` | apps/client/src/lib/websocket/connection.ts:35-37 | an error schedules no retry and changes nothing |
| `ClientLink.WebSocketStore.OnClose` | apps/client/src/lib/websocket/connection.ts:39-51 | clean or not: the socket is cleared and exactly one retry is scheduled at the current backoff |
| `ClientLink.WebSocketStore.Fire` | apps/client/src/lib/websocket/connection.ts:59-62 | consumes the timer, doubles the backoff, reconnects with the captured arguments |
| `ClientLink.WebSocketStore.SetMyPresence` | apps/client/src/lib/websocket/index.ts:38-56 | no id: no-op; missing entry: throws, no change; else only the own presence changes, and exactly one frame is sent iff a socket is live |
| `Scenarios.AdmitThroughWorker` | apps/backend/src/index.ts:270-307 | through the worker no socket is admitted under a caller-chosen identity: an admission means the caller sent no `X-Discord-User`, and the entry carries the token's resolved profile |
| `Scenarios.RestartAfterGameStateUpdate` | apps/backend/src/index.ts:252-257 | a coordinator bootstrapped from the same stores after a game-state frame holds that game state, host and campaign |
| `Scenarios.FirstJoin` | apps/backend/src/index.ts:93-153 | the first user on an empty board is host and is sent its id, `{system:null}` and the one-entry roster |
| `Scenarios.TwoClientsShareOneBoard` | apps/backend/src/index.ts:205-226 | first joiner is host; each socket sees its id, `{system:null}` and every roster change in order; presence reaches the other socket with no echo |
| `Scenarios.ConsecutiveFailedReconnects` | apps/client/src/lib/websocket/connection.ts:39-63 | after n closes without an open, the k-th retry waits b·2^k and the backoff ends at b·2^n |

## Left out

- `Backend.GameInstance.Fetch`: line 150 of apps/backend/src/index.ts passes `discordUser`, but that name is declared only inside the Discord branch (lines 100-114) and is in scope on neither path. As written, the source would throw a `ReferenceError` there, after accepting the socket and sending it the id and game-state frames, and would never register the connection. The model substitutes the header's user on the Discord path and the parameter `outerUser` on the other path, and admits the socket.
- The key-value store is one namespace shared by every board instance, and its keys name only the host. Another board with the same host reads and writes the same selection and game-state keys. The model gives each instance its own `kv`, so `Backend.GameStateWriteRoundTrip` and `Scenarios.RestartAfterGameStateUpdate` hold only when no other instance writes those keys in between.
- `Backend.CampaignListJson` writes the id unescaped. `JSON.stringify` would escape a quote, a backslash or a control character, which a `randomUUID` never contains.
- `fetchDiscordUser` (apps/backend/src/discord.ts:3-15) is a network call. `Route` takes it as a function parameter.
- JSON parsing of frames is not modelled; frames are datatypes. `X-Discord-User` is either parsed into a user or counted as text `JSON.parse` rejects, and a missing or empty `id` is `""`.
- `GameStateJson.Decode` accepts only the five canonical texts. Any other text counts as a parse failure, although `JSON.parse` would accept other well-formed JSON and adopt it unchecked.
- `loadSnapshot`, `saveSnapshot`, `updateRecords` and `sendRecovery` are stubs or commented out in the source. They are absent, or modelled as having no effect.
- Concurrency is not modelled: `blockConcurrencyWhile`, real parallelism, and the asynchronous completion of storage and key-value writes.
- Durable-storage read failures during `init` are not modelled. Only the game-state parse failure is.
- Hibernated sockets that survive an eviction are not modelled; a fresh activation starts with no sockets. Delivery failures of individual sends are not modelled either.
- In the Workers runtime, a closing socket may still be listed by the coordinator's `getWebSockets`; the model assumes it no longer is.
- Real timers, logging and the `location`-derived socket URL are not modelled. The unused `myPresence` store field and the `connect` field wrapper are left out.
- `ClientLink.UseOthers`, `ClientLink.UseOthersConnectionIds`: return sets, so the array order of `Object.values` and `Object.keys` is not modelled.
- `ClientLink.WebSocketStore.Fire`: the backoff is an unbounded `nat`, so a JavaScript number growing to `Infinity` is not modelled.
- Cursor coordinates are `real`; floating-point behaviour is not modelled.
- These are outside the synchronisation core and left out: the canvas UI (apps/client/src/components/Canvas.tsx), OAuth and auth glue, routes and config, and the one-field game store apps/client/src/lib/game/index.ts.
