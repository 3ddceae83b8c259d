/** The server status record of src/types/minecraft-api.ts (the
    mcsrvstat.us v3 response plus the measured `pingMs`), restricted to the
    fields the status message reads. An optional field of the source is an
    `Option`; of the nested `map`, `motd` and `info` objects only the `clean`
    text is kept. */
module MinecraftApi {
  import opened Wrappers

  const DEFAULT_PORT := 25565

  datatype PlayerEntry = PlayerEntry(name: string, uuid: string)

  datatype Players = Players(online: int, max: int, list: Option<seq<PlayerEntry>>)

  datatype Debug = Debug(apiversion: int)

  /** A plugin or a mod. */
  datatype Addon = Addon(name: string, version: string)

  datatype ServerStatus = ServerStatus(
    online: bool,
    ip: string,
    port: int,
    pingMs: Option<int>,
    debug: Option<Debug>,
    version: Option<string>,
    software: Option<string>,
    mapName: Option<string>,
    gamemode: Option<string>,
    players: Option<Players>,
    motd: Option<seq<string>>,
    icon: Option<string>,
    eulaBlocked: Option<bool>,
    info: Option<seq<string>>,
    plugins: Option<seq<Addon>>,
    mods: Option<seq<Addon>>)

  /** The names of the listed players, in list order; none without a list. */
  function OnlineNames(status: ServerStatus): (names: seq<string>)
    ensures status.players.Some? && status.players.value.list.Some? ==>
              |names| == |status.players.value.list.value|
              && forall i :: 0 <= i < |names| ==> names[i] == status.players.value.list.value[i].name
    ensures status.players.None? || status.players.value.list.None? ==> names == []
  {
    if status.players.Some? && status.players.value.list.Some? then
      var list := status.players.value.list.value;
      seq(|list|, i requires 0 <= i < |list| => list[i].name)
    else []
  }

  /** The record `fetchServerStatus` returns when the API call fails. */
  function OfflineStatus(address: string): (s: ServerStatus)
    ensures !s.online && s.ip == address && s.port == DEFAULT_PORT
    ensures s.players.None? && s.pingMs.None?
  {
    ServerStatus(false, address, DEFAULT_PORT, None, None, None, None, None, None, None, None, None, None, None, None, None)
  }
}
