/** The JSON text the coordinator keeps a game state as in the key-value
    store: `JSON.stringify(gameState)` and `JSON.parse(text)`, restricted to
    the one field `GameState` has. */
module GameStateJson {
  import opened WsTypes

  const Prefix := "{\"system\":"

  /** The string literal of each game system, as in the `GameSystem` union. */
  function SystemName(s: GameSystem): string
  {
    match s
    case DnD5e => "d&d5e"
    case Pathfinder => "pathfinder"
    case Daggerheart => "daggerheart"
    case Other => "other"
  }

  /** The JSON value of the `system` field. */
  function SystemJson(o: Option<GameSystem>): string
  {
    match o
    case None => "null"
    case Some(s) => "\"" + SystemName(s) + "\""
  }

  /** Reads back the `system` field's JSON value; any other text is not a
      game system. */
  function ParseSystem(t: string): (r: Option<Option<GameSystem>>)
    ensures r.Some? ==> SystemJson(r.value) == t
  {
    if t == "null" then Some(None)
    else if t == SystemJson(Some(DnD5e)) then Some(Some(DnD5e))
    else if t == SystemJson(Some(Pathfinder)) then Some(Some(Pathfinder))
    else if t == SystemJson(Some(Daggerheart)) then Some(Some(Daggerheart))
    else if t == SystemJson(Some(Other)) then Some(Some(Other))
    else None
  }

  function Encode(g: GameState): (r: string)
    ensures |r| > |Prefix| && r[..|Prefix|] == Prefix && r[|r| - 1] == '}'
  {
    Prefix + SystemJson(g.system) + "}"
  }

  /** `None` stands for text `JSON.parse` rejects or that is not a game state.
      Whatever decodes was written by `Encode`: the text is the canonical one. */
  function Decode(s: string): (r: Option<GameState>)
    ensures r.Some? ==> Encode(r.value) == s
  {
    if |s| > |Prefix| && s[..|Prefix|] == Prefix && s[|s| - 1] == '}' then
      var body := s[|Prefix|..|s| - 1];
      assert s == s[..|Prefix|] + body + [s[|s| - 1]];
      match ParseSystem(body)
      case Some(o) => Some(GameState(o))
      case None => None
    else None
  }

  /** Every game state survives a write and a read of the store. */
  lemma DecodeEncode(g: GameState)
    ensures Decode(Encode(g)) == Some(g)
  {
    var s := Encode(g);
    assert s[|Prefix|..|s| - 1] == SystemJson(g.system);
    ParseSystemJson(g.system);
  }

  /** Each `system` value reads back as itself. */
  lemma ParseSystemJson(o: Option<GameSystem>)
    ensures ParseSystem(SystemJson(o)) == Some(o)
  {
    match o
    case None =>
    case Some(sys) =>
      assert SystemJson(o)[0] == '"';
      match sys
      case DnD5e =>
      case Pathfinder =>
        assert SystemJson(o)[1] == 'p';
      case Daggerheart =>
        assert SystemJson(o)[1] == 'd' && SystemJson(o)[2] == 'a';
      case Other =>
        assert SystemJson(o)[1] == 'o';
  }

  /** The four systems have four different names, so the encoding tells them apart. */
  lemma EncodeInjective(g: GameState, h: GameState)
    requires Encode(g) == Encode(h)
    ensures g == h
  {
    DecodeEncode(g);
    DecodeEncode(h);
  }
}
