/** The wire datatypes shared by the coordinator and the client
    (packages/adventureboard-ws-types/types.ts), and the frames both sides
    exchange over a socket. */
module WsTypes {

  /** `T | null` (or `T | undefined`) in the source. */
  datatype Option<+T> = None | Some(value: T)

  /** The redacted public profile a roster entry carries. */
  datatype DiscordUser = DiscordUser(
    id: string,
    username: string,
    globalName: Option<string>,
    avatar: Option<string>,
    discriminator: string)

  /** A cursor position on the board (a JavaScript number pair). */
  datatype Cursor = Cursor(x: real, y: real)

  /** Per-connection presence: always a page, optionally a cursor. */
  datatype Presence = Presence(pageId: string, cursor: Option<Cursor>)

  /** One roster entry. */
  datatype Connection = Connection(
    connectionId: string,
    discordUser: DiscordUser,
    isHost: bool,
    presence: Presence)

  /** The roster: connection id to entry. */
  type Connections = map<string, Connection>

  /** The four game systems; `GameState.system` may also be null. */
  datatype GameSystem = DnD5e | Pathfinder | Daggerheart | Other

  datatype GameState = GameState(system: Option<GameSystem>)

  /** The `{system: null}` default both sides start from. */
  const DefaultGameState := GameState(None)

  /** Frames the coordinator sends (the `type` tag is the constructor). */
  datatype ServerFrame =
    | ConnectionIdFrame(connectionId: string)
    | GameStateFrame(gameState: GameState)
    | ConnectionsFrame(connections: Connections)
    | PresenceFrame(connectionId: string, presence: Presence)

  /** Frames a client sends; any other `type` tag is `UnknownFrame`. */
  datatype ClientFrame =
    | PresenceUpdate(presence: Presence)
    | GameStateUpdate(gameState: GameState)
    | RecordsUpdate
    | RecoveryRequest
    | UnknownFrame(tag: string)

  /** Every roster entry sits under its own connection id. */
  predicate WellKeyed(c: Connections)
  {
    forall id :: id in c ==> c[id].connectionId == id
  }
}
