/** `createStatusEmbed` of src/message-formatter.ts: renders one server
    status as the embed of the status message. The players that the source
    reads from the store file and the current time are parameters. */
module MessageFormatter {
  import opened Wrappers
  import opened Text
  import opened MinecraftApi
  import Database

  const TITLE_PREFIX := "Minecraft Server Status: "
  const LAST_UPDATED := "Last updated"
  const OFFLINE_DESCRIPTION := "\U{26A0}\U{FE0F} **Server is offline** \U{26A0}\U{FE0F}"
  const MOTD_HEADING := "**MOTD:**\n"
  const UNKNOWN_VERSION := "Unknown"
  const VANILLA := "Vanilla"

  /** At most this many plugins or mods are named. */
  const ADDON_LIMIT := 10

  const GREEN := "\U{1F7E2}"
  const YELLOW := "\U{1F7E1}"
  const RED := "\U{1F534}"

  const STATUS := "Status"
  const VERSION := "Version"
  const SOFTWARE := "Software"
  const PLAYERS := "\U{1F465} Players"
  const ONLINE_PLAYERS := "\U{1F3AE} Online Players"
  const RECENTLY_ONLINE := "\U{1F47B} Recently Online"
  const MAP := "\U{1F5FA}\U{FE0F} Map"
  const GAMEMODE := "\U{1F3AE} Gamemode"
  const PLUGINS := "\U{1F9E9} Plugins"
  const MODS := "\U{1F9F1} Mods"
  const ADDITIONAL_INFO := "Additional Info"
  const EULA_WARNING := "\U{26A0}\U{FE0F} EULA Warning"
  const EULA_TEXT := "This server appears to be blocked by the Minecraft EULA"

  /** `COLORS.ONLINE` (green) and `COLORS.OFFLINE` (red). */
  datatype Color = OnlineColor | OfflineColor

  datatype Thumbnail = ServerIcon(base64: string) | DefaultIcon

  /** The fields an embed can carry, each with its fixed label. */
  datatype FieldKind =
    | StatusField | VersionField | SoftwareField
    | PlayersField | OnlinePlayersField | RecentlyOnlineField
    | MapField | GamemodeField | PluginsField | ModsField
    | AdditionalInfoField | EulaWarningField
  {
    /** The name shown above the field's value. */
    function Label(): string {
      match this
      case StatusField => STATUS
      case VersionField => VERSION
      case SoftwareField => SOFTWARE
      case PlayersField => PLAYERS
      case OnlinePlayersField => ONLINE_PLAYERS
      case RecentlyOnlineField => RECENTLY_ONLINE
      case MapField => MAP
      case GamemodeField => GAMEMODE
      case PluginsField => PLUGINS
      case ModsField => MODS
      case AdditionalInfoField => ADDITIONAL_INFO
      case EulaWarningField => EULA_WARNING
    }

    /** The part of an online embed the field belongs to. */
    function Group(): Group {
      if IsHead() then Head else if IsPlayer() then PlayerGroup else Tail
    }

    predicate IsHead() {
      StatusField? || VersionField? || SoftwareField?
    }

    predicate IsPlayer() {
      PlayersField? || OnlinePlayersField? || RecentlyOnlineField?
    }
  }

  /** The three parts of an online embed, in order. */
  datatype Group = Head | PlayerGroup | Tail

  datatype Field = Field(name: FieldKind, value: string, inline: bool)

  datatype Embed = Embed(
    title: string,
    color: Color,
    timestamp: int,
    thumbnail: Thumbnail,
    description: Option<string>,
    fields: seq<Field>,
    footer: string)

  /** Some field of the list is of kind `k`. */
  predicate Has(fields: seq<Field>, k: FieldKind) {
    exists i :: 0 <= i < |fields| && fields[i].name == k
  }

  lemma HasConcat(a: seq<Field>, b: seq<Field>, k: FieldKind)
    ensures Has(a + b, k) <==> Has(a, k) || Has(b, k)
  {
    if Has(a + b, k) {
      var i :| 0 <= i < |a + b| && (a + b)[i].name == k;
      if i >= |a| {
        assert b[i - |a|].name == k;
      }
    }
    if Has(a, k) {
      var i :| 0 <= i < |a| && a[i].name == k;
      assert (a + b)[i].name == k;
    }
    if Has(b, k) {
      var i :| 0 <= i < |b| && b[i].name == k;
      assert (a + b)[|a| + i].name == k;
    }
  }

  lemma AppendAssoc(a: seq<Field>, b: seq<Field>, c: seq<Field>)
    ensures a + (b + c) == (a + b) + c
  {
  }

  /** A field present only when `c` holds: its kind is there exactly then. */
  lemma HasOptional(c: bool, f: Field, k: FieldKind)
    ensures Has(if c then [f] else [], k) <==> c && f.name == k
  {
    if c && f.name == k {
      assert [f][0].name == k;
    }
  }

  /** A JavaScript string is truthy when it is present and non-empty. */
  predicate Truthy(s: Option<string>) {
    s.Some? && s.value != ""
  }

  // ---------------------------------------------------------------------
  // Title, version, ping

  /** The title: the prefix and the address, with ":port" unless the port is
      the default 25565. */
  function Title(ip: string, port: int): (t: string)
    ensures StartsWith(t, TITLE_PREFIX + ip)
    ensures t == TITLE_PREFIX + ip <==> port == DEFAULT_PORT
    ensures port != DEFAULT_PORT ==> t[|TITLE_PREFIX + ip|..] == ":" + IntToString(port)
  {
    var t := TITLE_PREFIX + ip + (if port != DEFAULT_PORT then ":" + IntToString(port) else "");
    assert t[..|TITLE_PREFIX + ip|] == TITLE_PREFIX + ip;
    t
  }

  /** A title rendered for address `ip` carries the marker
      "Minecraft Server Status: ip", whatever the port. */
  lemma TitleCarriesMarker(ip: string, port: int)
    ensures Contains(Title(ip, port), TITLE_PREFIX + ip)
  {
    ContainsPrefix(Title(ip, port), TITLE_PREFIX + ip);
  }

  /** `status.version || "Unknown"`. */
  function VersionText(version: Option<string>): (s: string)
    ensures Truthy(version) ==> s == version.value
    ensures !Truthy(version) ==> s == UNKNOWN_VERSION
  {
    if Truthy(version) then version.value else UNKNOWN_VERSION
  }

  /** Green below 100 ms, yellow below 300 ms, red from 300 ms on. */
  function PingEmoji(ms: int): (e: string)
    ensures e == GREEN <==> ms < 100
    ensures e == YELLOW <==> 100 <= ms < 300
    ensures e == RED <==> 300 <= ms
  {
    if ms < 100 then GREEN else if ms < 300 then YELLOW else RED
  }

  /** `status.debug?.apiversion` is truthy: present and not 0. */
  predicate HasApiVersion(debug: Option<Debug>) {
    debug.Some? && debug.value.apiversion != 0
  }

  /** The ping part of the footer: the emoji for the round trip and its
      length in milliseconds, or nothing when no ping was measured. */
  function PingPart(pingMs: Option<int>): (p: string)
    ensures pingMs.None? <==> p == ""
    ensures pingMs.Some? ==> p == " | Ping: " + PingEmoji(pingMs.value) + " " + IntToString(pingMs.value) + "ms"
  {
    match pingMs
    case Some(ms) =>
      var head := " | Ping: " + PingEmoji(ms) + " ";
      var p := head + IntToString(ms) + "ms";
      assert p[..|head|] == head;
      p
    case None => ""
  }

  function ApiPart(debug: Option<Debug>): (a: string)
    ensures HasApiVersion(debug) ==> a == " | API v" + IntToString(debug.value.apiversion)
    ensures !HasApiVersion(debug) ==> a == ""
  {
    if HasApiVersion(debug) then " | API v" + IntToString(debug.value.apiversion) else ""
  }

  /** The footer of an online status: "Last updated", then the ping when it
      was measured, then the API version when it is set. */
  function Footer(pingMs: Option<int>, debug: Option<Debug>): (f: string)
    ensures StartsWith(f, LAST_UPDATED)
    ensures f == LAST_UPDATED <==> pingMs.None? && !HasApiVersion(debug)
    ensures f == LAST_UPDATED + (PingPart(pingMs) + ApiPart(debug))
    ensures pingMs.Some? ==> StartsWith(f[|LAST_UPDATED|..], " | Ping: " + PingEmoji(pingMs.value) + " ")
    ensures pingMs.None? && HasApiVersion(debug) ==>
              f[|LAST_UPDATED|..] == " | API v" + IntToString(debug.value.apiversion)
  {
    var ping := PingPart(pingMs);
    var api := ApiPart(debug);
    var f := LAST_UPDATED + (ping + api);
    SplitAppend(LAST_UPDATED, ping + api);
    assert HasApiVersion(debug) ==> |api| > 0;
    StartsWithAppend(ping, api, " | Ping: " + PingEmoji(pingMs.GetOr(0)) + " ");
    f
  }

  // ---------------------------------------------------------------------
  // Plugins and mods

  /** "name", followed by " (version)" when the version is non-empty. */
  function AddonLabel(a: Addon): string {
    a.name + (if a.version != "" then " (" + a.version + ")" else "")
  }

  function AddonLabels(list: seq<Addon>): (labels: seq<string>)
    ensures |labels| == |list|
    ensures forall i :: 0 <= i < |list| ==> labels[i] == AddonLabel(list[i])
  {
    seq(|list|, i requires 0 <= i < |list| => AddonLabel(list[i]))
  }

  /** The first ten add-ons joined by ", ", followed by " and N more..."
      when N further add-ons were left out. */
  function AddonSummary(list: seq<Addon>): string {
    if |list| > ADDON_LIMIT then
      Join(AddonLabels(list[..ADDON_LIMIT]), ", ") + (" and " + (NatToString(|list| - ADDON_LIMIT) + " more..."))
    else
      Join(AddonLabels(list), ", ")
  }

  /** Past ten add-ons the summary is the first ten, then the count of the
      others, which reads back as the number of add-ons left out. */
  lemma AddonSummaryCountsRest(list: seq<Addon>)
    requires |list| > ADDON_LIMIT
    ensures var rest: nat := |list| - ADDON_LIMIT;
            var count := NatToString(rest);
            && AddonSummary(list) == Join(AddonLabels(list[..ADDON_LIMIT]), ", ") + (" and " + (count + " more..."))
            && ParseDecimal(count) == Some(rest)
  {
    var rest: nat := |list| - ADDON_LIMIT;
    ParseNatToString(rest);
  }

  /** A field that is present only when a condition holds. */
  function OptionalField(c: bool, f: Field): (fields: seq<Field>)
    ensures fields == if c then [f] else []
  {
    if c then [f] else []
  }

  /** Every field of the list belongs to group `g`. */
  predicate InGroup(fields: seq<Field>, g: Group) {
    forall i :: 0 <= i < |fields| ==> fields[i].name.Group() == g
  }

  lemma GroupConcat(a: seq<Field>, b: seq<Field>, g: Group)
    requires InGroup(a, g) && InGroup(b, g)
    ensures InGroup(a + b, g)
  {
  }

  /** A list of one group has no field of another group's kind. */
  lemma OutsideGroup(fields: seq<Field>, g: Group, k: FieldKind)
    requires InGroup(fields, g) && k.Group() != g
    ensures !Has(fields, k)
  {
  }

  /** The field for a plugin or mod list, when the list is non-empty. */
  function AddonFields(name: FieldKind, list: Option<seq<Addon>>): (fields: seq<Field>)
    ensures |fields| == 1 <==> list.Some? && |list.value| > 0
    ensures fields == OptionalField(list.Some? && |list.value| > 0, Field(name, AddonSummary(list.GetOr([])), false))
  {
    if list.Some? && |list.value| > 0 then [Field(name, AddonSummary(list.value), false)] else []
  }

  // ---------------------------------------------------------------------
  // Lines of text: MOTD and additional info

  /** `clean.join("\n").trim()`, when the list is present and non-empty. */
  function CleanText(lines: Option<seq<string>>): string {
    if lines.Some? && |lines.value| > 0 then Trim(Join(lines.value, "\n")) else ""
  }

  function MotdDescription(motd: Option<seq<string>>): (d: Option<string>)
    ensures d.Some? <==> CleanText(motd) != ""
    ensures d.Some? ==> d.value == MOTD_HEADING + CleanText(motd)
  {
    var text := CleanText(motd);
    if text != "" then Some(MOTD_HEADING + text) else None
  }

  /** The additional-info field, when the cleaned text is non-empty. */
  function InfoFields(info: Option<seq<string>>): (fields: seq<Field>)
    ensures |fields| == 1 <==> CleanText(info) != ""
    ensures fields == OptionalField(CleanText(info) != "", Field(AdditionalInfoField, CleanText(info), false))
  {
    var text := CleanText(info);
    if text != "" then [Field(AdditionalInfoField, text, false)] else []
  }

  // ---------------------------------------------------------------------
  // Players

  /** "name (N units ago)" for each recently seen player, one per line. */
  function RecentLines(recent: seq<Database.PlayerRecord>, now: int): (lines: seq<string>)
    ensures |lines| == |recent|
    ensures forall i :: 0 <= i < |recent| ==>
              lines[i] == recent[i].name + " (" + Database.FormatLastSeen(recent[i].lastSeen, now) + ")"
  {
    seq(|recent|, i requires 0 <= i < |recent| =>
      recent[i].name + " (" + Database.FormatLastSeen(recent[i].lastSeen, now) + ")")
  }

  /** The player fields: the count, the online names when there are any, and
      the players seen recently but not online now when there are any. */
  function PlayerFields(players: Players, names: seq<string>, recent: seq<Database.PlayerRecord>, now: int)
    : (fields: seq<Field>)
    ensures |fields| >= 1
    ensures fields[0] == Field(PlayersField, IntToString(players.online) + "/" + IntToString(players.max), true)
    ensures Has(fields, OnlinePlayersField) <==> names != []
    ensures Has(fields, RecentlyOnlineField) <==> recent != []
    ensures InGroup(fields, PlayerGroup)
  {
    var count := [Field(PlayersField, IntToString(players.online) + "/" + IntToString(players.max), true)];
    var online := if names != [] then [Field(OnlinePlayersField, Join(names, ", "), false)] else [];
    var seen := if recent != [] then [Field(RecentlyOnlineField, Join(RecentLines(recent, now), "\n"), false)] else [];
    HasOptional(names != [], Field(OnlinePlayersField, Join(names, ", "), false), OnlinePlayersField);
    HasOptional(recent != [], Field(RecentlyOnlineField, Join(RecentLines(recent, now), "\n"), false), RecentlyOnlineField);
    HasOptional(names != [], Field(OnlinePlayersField, Join(names, ", "), false), RecentlyOnlineField);
    HasOptional(recent != [], Field(RecentlyOnlineField, Join(RecentLines(recent, now), "\n"), false), OnlinePlayersField);
    HasConcat(count, online, OnlinePlayersField);
    HasConcat(count + online, seen, OnlinePlayersField);
    HasConcat(count, online, RecentlyOnlineField);
    HasConcat(count + online, seen, RecentlyOnlineField);
    count + online + seen
  }

  /** The text each player field carries: the count "online/max", the
      online names joined by ", ", and the recently seen lines joined by
      line breaks; other fields are not constrained. */
  predicate PlayerValue(f: Field, players: Players, names: seq<string>, recent: seq<Database.PlayerRecord>, now: int) {
    match f.name
    case PlayersField => f.value == IntToString(players.online) + "/" + IntToString(players.max)
    case OnlinePlayersField => f.value == Join(names, ", ")
    case RecentlyOnlineField => f.value == Join(RecentLines(recent, now), "\n")
    case _ => true
  }

  /** Every field of the list carries the text its kind calls for. */
  predicate PlayerValues(fields: seq<Field>, players: Players, names: seq<string>, recent: seq<Database.PlayerRecord>,
                         now: int) {
    forall i :: 0 <= i < |fields| ==> PlayerValue(fields[i], players, names, recent, now)
  }

  /** The online-names field lists the names joined by ", ", and the
      recently-online field lists one "name (N units ago)" line per record. */
  lemma PlayerFieldsValues(players: Players, names: seq<string>, recent: seq<Database.PlayerRecord>, now: int)
    ensures var fields := PlayerFields(players, names, recent, now);
            && PlayerValues(fields, players, names, recent, now)
            && (names != [] ==> Field(OnlinePlayersField, Join(names, ", "), false) in fields)
            && (recent != [] ==> Field(RecentlyOnlineField, Join(RecentLines(recent, now), "\n"), false) in fields)
  {
    var count := [Field(PlayersField, IntToString(players.online) + "/" + IntToString(players.max), true)];
    var online := OptionalField(names != [], Field(OnlinePlayersField, Join(names, ", "), false));
    var seen := OptionalField(recent != [], Field(RecentlyOnlineField, Join(RecentLines(recent, now), "\n"), false));
    var fields := PlayerFields(players, names, recent, now);
    assert fields == count + online + seen;
    assert PlayerValues(count, players, names, recent, now);
    assert PlayerValues(online, players, names, recent, now);
    assert PlayerValues(seen, players, names, recent, now);
    PlayerValuesConcat(count, online, players, names, recent, now);
    PlayerValuesConcat(count + online, seen, players, names, recent, now);
    if names != [] {
      assert fields[1] == online[0];
    }
    if recent != [] {
      assert fields[|fields| - 1] == seen[0];
    }
  }

  lemma PlayerValuesConcat(a: seq<Field>, b: seq<Field>, players: Players, names: seq<string>,
                           recent: seq<Database.PlayerRecord>, now: int)
    requires PlayerValues(a, players, names, recent, now) && PlayerValues(b, players, names, recent, now)
    ensures PlayerValues(a + b, players, names, recent, now)
  {
  }

  /** Fields outside the player group carry no player text to check. */
  lemma PlayerValuesOutside(fields: seq<Field>, g: Group, players: Players, names: seq<string>,
                            recent: seq<Database.PlayerRecord>, now: int)
    requires InGroup(fields, g) && g != PlayerGroup
    ensures PlayerValues(fields, players, names, recent, now)
  {
    forall i | 0 <= i < |fields|
      ensures PlayerValue(fields[i], players, names, recent, now)
    {
      assert fields[i].name.Group() == g;
    }
  }

  // ---------------------------------------------------------------------
  // The embed

  /** Status and version, then Software for a non-vanilla software. */
  function HeadFields(status: ServerStatus): (fields: seq<Field>)
    ensures |fields| >= 2
    ensures fields[0] == Field(StatusField, GREEN + " Online", true)
    ensures fields[1] == Field(VersionField, VersionText(status.version), true)
    ensures Has(fields, SoftwareField) <==> Truthy(status.software) && status.software.value != VANILLA
    ensures Truthy(status.software) && status.software.value != VANILLA ==>
              |fields| == 3 && fields[2] == Field(SoftwareField, status.software.value, true)
    ensures InGroup(fields, Head)
  {
    var base := [Field(StatusField, GREEN + " Online", true), Field(VersionField, VersionText(status.version), true)];
    var c := Truthy(status.software) && status.software.value != VANILLA;
    var software := if c then [Field(SoftwareField, status.software.value, true)] else [];
    HasConcat(base, software, SoftwareField);
    HasOptional(c, Field(SoftwareField, status.software.GetOr(""), true), SoftwareField);
    base + software
  }

  /** The player fields, when the status reports players. */
  function PlayerPart(status: ServerStatus, stored: seq<Database.PlayerRecord>, recentDays: int, now: int)
    : (fields: seq<Field>)
    ensures Has(fields, PlayersField) <==> status.players.Some?
    ensures Has(fields, OnlinePlayersField) <==> status.players.Some? && OnlineNames(status) != []
    ensures Has(fields, RecentlyOnlineField) <==>
              status.players.Some? && Database.RecentlySeen(stored, OnlineNames(status), recentDays, now) != []
    ensures InGroup(fields, PlayerGroup)
  {
    if status.players.Some? then
      var names := OnlineNames(status);
      PlayerFields(status.players.value, names, Database.RecentlySeen(stored, names, recentDays, now), now)
    else []
  }

  /** Map, gamemode, plugins, mods, additional info and the EULA warning,
      each when the status carries it. */
  function TailFields(status: ServerStatus): seq<Field> {
    OptionalField(Truthy(status.mapName), Field(MapField, status.mapName.GetOr(""), true))
    + OptionalField(Truthy(status.gamemode), Field(GamemodeField, status.gamemode.GetOr(""), true))
    + AddonFields(PluginsField, status.plugins)
    + AddonFields(ModsField, status.mods)
    + InfoFields(status.info)
    + OptionalField(status.eulaBlocked == Some(true), Field(EulaWarningField, EULA_TEXT, false))
  }

  /** The fields after the player fields are all of the tail group. */
  lemma TailFieldsInTail(status: ServerStatus)
    ensures InGroup(TailFields(status), Tail)
  {
    var mapField := OptionalField(Truthy(status.mapName), Field(MapField, status.mapName.GetOr(""), true));
    var gamemode := OptionalField(Truthy(status.gamemode), Field(GamemodeField, status.gamemode.GetOr(""), true));
    var plugins := AddonFields(PluginsField, status.plugins);
    var mods := AddonFields(ModsField, status.mods);
    var info := InfoFields(status.info);
    var eula := OptionalField(status.eulaBlocked == Some(true), Field(EulaWarningField, EULA_TEXT, false));
    assert MapField.Group() == Tail && GamemodeField.Group() == Tail && EulaWarningField.Group() == Tail;
    assert PluginsField.Group() == Tail && ModsField.Group() == Tail;
    SixInGroup(mapField, gamemode, plugins, mods, info, eula, Tail);
  }

  /** The text each tail field carries; other fields are not constrained. */
  predicate TailValue(f: Field, status: ServerStatus) {
    match f.name
    case MapField => f.value == status.mapName.GetOr("")
    case GamemodeField => f.value == status.gamemode.GetOr("")
    case PluginsField => f.value == AddonSummary(status.plugins.GetOr([]))
    case ModsField => f.value == AddonSummary(status.mods.GetOr([]))
    case AdditionalInfoField => f.value == CleanText(status.info)
    case EulaWarningField => f.value == EULA_TEXT
    case _ => true
  }

  /** A kind is among the tail fields exactly when the status carries the
      field of that kind. */
  lemma TailHas(status: ServerStatus, k: FieldKind)
    ensures Has(TailFields(status), k) <==>
              || (k == MapField && Truthy(status.mapName))
              || (k == GamemodeField && Truthy(status.gamemode))
              || (k == PluginsField && status.plugins.Some? && |status.plugins.value| > 0)
              || (k == ModsField && status.mods.Some? && |status.mods.value| > 0)
              || (k == AdditionalInfoField && CleanText(status.info) != "")
              || (k == EulaWarningField && status.eulaBlocked == Some(true))
  {
    var f1 := OptionalField(Truthy(status.mapName), Field(MapField, status.mapName.GetOr(""), true));
    var f2 := OptionalField(Truthy(status.gamemode), Field(GamemodeField, status.gamemode.GetOr(""), true));
    var f3 := AddonFields(PluginsField, status.plugins);
    var f4 := AddonFields(ModsField, status.mods);
    var f5 := InfoFields(status.info);
    var f6 := OptionalField(status.eulaBlocked == Some(true), Field(EulaWarningField, EULA_TEXT, false));
    HasSix(f1, f2, f3, f4, f5, f6, k);
    HasOptional(Truthy(status.mapName), Field(MapField, status.mapName.GetOr(""), true), k);
    HasOptional(Truthy(status.gamemode), Field(GamemodeField, status.gamemode.GetOr(""), true), k);
    HasOptional(status.plugins.Some? && |status.plugins.value| > 0,
                Field(PluginsField, AddonSummary(status.plugins.GetOr([])), false), k);
    HasOptional(status.mods.Some? && |status.mods.value| > 0,
                Field(ModsField, AddonSummary(status.mods.GetOr([])), false), k);
    HasOptional(CleanText(status.info) != "", Field(AdditionalInfoField, CleanText(status.info), false), k);
    HasOptional(status.eulaBlocked == Some(true), Field(EulaWarningField, EULA_TEXT, false), k);
  }

  lemma HasSix(a: seq<Field>, b: seq<Field>, c: seq<Field>, d: seq<Field>, e: seq<Field>, f: seq<Field>, k: FieldKind)
    ensures Has(a + b + c + d + e + f, k) <==> Has(a, k) || Has(b, k) || Has(c, k) || Has(d, k) || Has(e, k) || Has(f, k)
  {
    HasConcat(a, b, k);
    HasConcat(a + b, c, k);
    HasConcat(a + b + c, d, k);
    HasConcat(a + b + c + d, e, k);
    HasConcat(a + b + c + d + e, f, k);
  }

  /** Every field of the list carries the text its kind calls for. */
  predicate TailValues(fields: seq<Field>, status: ServerStatus) {
    forall i :: 0 <= i < |fields| ==> TailValue(fields[i], status)
  }

  /** Each tail field carries its text from the status. */
  lemma TailFieldsValues(status: ServerStatus)
    ensures TailValues(TailFields(status), status)
  {
    var a := OptionalField(Truthy(status.mapName), Field(MapField, status.mapName.GetOr(""), true));
    var b := OptionalField(Truthy(status.gamemode), Field(GamemodeField, status.gamemode.GetOr(""), true));
    var c := AddonFields(PluginsField, status.plugins);
    var d := AddonFields(ModsField, status.mods);
    var e := InfoFields(status.info);
    var f := OptionalField(status.eulaBlocked == Some(true), Field(EulaWarningField, EULA_TEXT, false));
    assert TailValues(a, status) && TailValues(b, status) && TailValues(c, status);
    assert TailValues(d, status) && TailValues(e, status) && TailValues(f, status);
    ValuesConcat(a, b, status);
    ValuesConcat(a + b, c, status);
    ValuesConcat(a + b + c, d, status);
    ValuesConcat(a + b + c + d, e, status);
    ValuesConcat(a + b + c + d + e, f, status);
  }

  lemma ValuesConcat(a: seq<Field>, b: seq<Field>, status: ServerStatus)
    requires TailValues(a, status) && TailValues(b, status)
    ensures TailValues(a + b, status)
  {
  }

  /** The player fields of an online embed carry their text: the online
      names joined by ", ", and the lines of the query that excludes those
      names, joined by line breaks. */
  lemma PlayerFieldValues(status: ServerStatus, stored: seq<Database.PlayerRecord>, recentDays: int, now: int)
    requires status.players.Some?
    ensures var names := OnlineNames(status);
            var recent := Database.RecentlySeen(stored, names, recentDays, now);
            var fields := OnlineFields(status, stored, recentDays, now);
            && PlayerValues(fields, status.players.value, names, recent, now)
            && (names != [] ==> Field(OnlinePlayersField, Join(names, ", "), false) in fields)
            && (recent != [] ==> Field(RecentlyOnlineField, Join(RecentLines(recent, now), "\n"), false) in fields)
  {
    var names := OnlineNames(status);
    var recent := Database.RecentlySeen(stored, names, recentDays, now);
    var players := PlayerPart(status, stored, recentDays, now);
    assert players == PlayerFields(status.players.value, names, recent, now);
    PlayerFieldsValues(status.players.value, names, recent, now);
    TailFieldsInTail(status);
    PlayersBetween(HeadFields(status), players, TailFields(status), status.players.value, names, recent, now);
  }

  /** The player facts for any head and tail parts of their own groups. */
  lemma PlayersBetween(head: seq<Field>, players: seq<Field>, tail: seq<Field>, p: Players, names: seq<string>,
                       recent: seq<Database.PlayerRecord>, now: int)
    requires InGroup(head, Head) && InGroup(tail, Tail) && PlayerValues(players, p, names, recent, now)
    ensures PlayerValues(head + players + tail, p, names, recent, now)
    ensures forall f :: f in players ==> f in head + players + tail
  {
    PlayerValuesOutside(head, Head, p, names, recent, now);
    PlayerValuesOutside(tail, Tail, p, names, recent, now);
    PlayerValuesConcat(head, players, p, names, recent, now);
    PlayerValuesConcat(head + players, tail, p, names, recent, now);
  }

  /** Which fields an online embed carries after the player fields, and the
      text of each: the map and the gamemode when they are non-empty, the
      plugins and the mods for a non-empty list with its summary, the
      additional info when its trimmed text is non-empty, and the EULA
      warning when the server is blocked. */
  lemma TailFieldNames(status: ServerStatus, stored: seq<Database.PlayerRecord>, recentDays: int, now: int)
    ensures var fields := OnlineFields(status, stored, recentDays, now);
            && (Has(fields, MapField) <==> Truthy(status.mapName))
            && (Has(fields, GamemodeField) <==> Truthy(status.gamemode))
            && (Has(fields, PluginsField) <==> status.plugins.Some? && |status.plugins.value| > 0)
            && (Has(fields, ModsField) <==> status.mods.Some? && |status.mods.value| > 0)
            && (Has(fields, AdditionalInfoField) <==> CleanText(status.info) != "")
            && (Has(fields, EulaWarningField) <==> status.eulaBlocked == Some(true))
            && TailValues(fields, status)
  {
    TailAfter(HeadFields(status), PlayerPart(status, stored, recentDays, now), status);
  }

  /** The tail facts for any head and player fields of their own groups. */
  lemma TailAfter(head: seq<Field>, players: seq<Field>, status: ServerStatus)
    requires InGroup(head, Head) && InGroup(players, PlayerGroup)
    ensures var fields := head + players + TailFields(status);
            && (Has(fields, MapField) <==> Truthy(status.mapName))
            && (Has(fields, GamemodeField) <==> Truthy(status.gamemode))
            && (Has(fields, PluginsField) <==> status.plugins.Some? && |status.plugins.value| > 0)
            && (Has(fields, ModsField) <==> status.mods.Some? && |status.mods.value| > 0)
            && (Has(fields, AdditionalInfoField) <==> CleanText(status.info) != "")
            && (Has(fields, EulaWarningField) <==> status.eulaBlocked == Some(true))
            && TailValues(fields, status)
  {
    var tail := TailFields(status);
    InTail(head, players, tail, MapField);
    InTail(head, players, tail, GamemodeField);
    InTail(head, players, tail, PluginsField);
    InTail(head, players, tail, ModsField);
    InTail(head, players, tail, AdditionalInfoField);
    InTail(head, players, tail, EulaWarningField);
    TailHas(status, MapField);
    TailHas(status, GamemodeField);
    TailHas(status, PluginsField);
    TailHas(status, ModsField);
    TailHas(status, AdditionalInfoField);
    TailHas(status, EulaWarningField);
    TailFieldsValues(status);
    assert TailValues(head, status) && TailValues(players, status);
    ValuesConcat(head, players, status);
    ValuesConcat(head + players, tail, status);
  }

  /** A tail kind is in an online embed's fields exactly when it is in the
      tail part. */
  lemma InTail(head: seq<Field>, players: seq<Field>, tail: seq<Field>, k: FieldKind)
    requires InGroup(head, Head) && InGroup(players, PlayerGroup) && k.Group() == Tail
    ensures Has(head + players + tail, k) <==> Has(tail, k)
  {
    HasConcat(head, players, k);
    HasConcat(head + players, tail, k);
    OutsideGroup(head, Head, k);
    OutsideGroup(players, PlayerGroup, k);
  }

  lemma SixInGroup(a: seq<Field>, b: seq<Field>, c: seq<Field>, d: seq<Field>, e: seq<Field>, f: seq<Field>, g: Group)
    requires InGroup(a, g) && InGroup(b, g) && InGroup(c, g) && InGroup(d, g) && InGroup(e, g) && InGroup(f, g)
    ensures InGroup(a + b + c + d + e + f, g)
  {
    GroupConcat(a, b, g);
    GroupConcat(a + b, c, g);
    GroupConcat(a + b + c, d, g);
    GroupConcat(a + b + c + d, e, g);
    GroupConcat(a + b + c + d + e, f, g);
  }

  /** The fields of an online status, in the order the source adds them. */
  function OnlineFields(status: ServerStatus, stored: seq<Database.PlayerRecord>, recentDays: int, now: int)
    : seq<Field>
  {
    HeadFields(status) + PlayerPart(status, stored, recentDays, now) + TailFields(status)
  }

  /** An online embed opens with the status field, then the version. */
  lemma OnlineFieldsStart(status: ServerStatus, stored: seq<Database.PlayerRecord>, recentDays: int, now: int)
    ensures var fields := OnlineFields(status, stored, recentDays, now);
            && |fields| >= 2
            && fields[0] == Field(StatusField, GREEN + " Online", true)
            && fields[1] == Field(VersionField, VersionText(status.version), true)
  {
    var head := HeadFields(status);
    var rest := PlayerPart(status, stored, recentDays, now);
    assert (head + rest)[0] == head[0] && (head + rest)[1] == head[1];
  }

  function ThumbnailOf(icon: Option<string>): Thumbnail {
    if Truthy(icon) then ServerIcon(icon.value) else DefaultIcon
  }

  /** `createStatusEmbed(status)`, with the store's players, the retention
      window in days and the current time as parameters. */
  method CreateStatusEmbed(status: ServerStatus, stored: seq<Database.PlayerRecord>, recentDays: int, now: int)
    returns (embed: Embed)
    ensures embed.title == Title(status.ip, status.port)
    ensures embed.color == (if status.online then OnlineColor else OfflineColor)
    ensures embed.timestamp == now && embed.thumbnail == ThumbnailOf(status.icon)
    ensures !status.online ==>
              embed.description == Some(OFFLINE_DESCRIPTION) && embed.fields == [] && embed.footer == LAST_UPDATED
    ensures status.online ==>
              && embed.description == MotdDescription(status.motd)
              && embed.fields == OnlineFields(status, stored, recentDays, now)
              && embed.footer == Footer(status.pingMs, status.debug)
  {
    embed := Embed(Title(status.ip, status.port), if status.online then OnlineColor else OfflineColor,
                   now, ThumbnailOf(status.icon), None, [], LAST_UPDATED);
    if !status.online {
      embed := embed.(description := Some(OFFLINE_DESCRIPTION));
      return;
    }

    var description := MotdDescription(status.motd);
    var fields := BuildOnlineFields(status, stored, recentDays, now);
    var footer := Footer(status.pingMs, status.debug);
    embed := embed.(description := description, fields := fields, footer := footer);
  }

  /** The fields of an online status, pushed one group at a time. */
  method BuildOnlineFields(status: ServerStatus, stored: seq<Database.PlayerRecord>, recentDays: int, now: int)
    returns (fields: seq<Field>)
    ensures fields == OnlineFields(status, stored, recentDays, now)
  {
    fields := [Field(StatusField, GREEN + " Online", true), Field(VersionField, VersionText(status.version), true)];
    if Truthy(status.software) && status.software.value != VANILLA {
      fields := fields + [Field(SoftwareField, status.software.value, true)];
    }
    assert fields == HeadFields(status);
    if status.players.Some? {
      var names := OnlineNames(status);
      var recent := Database.RecentlySeen(stored, names, recentDays, now);
      fields := fields + PlayerFields(status.players.value, names, recent, now);
    }
    assert fields == HeadFields(status) + PlayerPart(status, stored, recentDays, now);
    fields := AppendTail(fields, status);
    AppendAssoc(HeadFields(status), PlayerPart(status, stored, recentDays, now), TailFields(status));
  }

  /** Appends the map, gamemode, plugin, mod, info and EULA fields that the
      status carries, in that order. */
  method AppendTail(head: seq<Field>, status: ServerStatus) returns (fields: seq<Field>)
    ensures fields == head + TailFields(status)
  {
    fields := head;
    ghost var tail := OptionalField(Truthy(status.mapName), Field(MapField, status.mapName.GetOr(""), true));
    if Truthy(status.mapName) {
      fields := fields + [Field(MapField, status.mapName.value, true)];
    }
    assert fields == head + tail;
    ghost var gamemode := OptionalField(Truthy(status.gamemode), Field(GamemodeField, status.gamemode.GetOr(""), true));
    if Truthy(status.gamemode) {
      fields := fields + [Field(GamemodeField, status.gamemode.value, true)];
    }
    tail := Extended(head, tail, gamemode, fields);
    fields := fields + AddonFields(PluginsField, status.plugins);
    tail := Extended(head, tail, AddonFields(PluginsField, status.plugins), fields);
    fields := fields + AddonFields(ModsField, status.mods);
    tail := Extended(head, tail, AddonFields(ModsField, status.mods), fields);
    var info := CleanText(status.info);
    if info != "" {
      fields := fields + [Field(AdditionalInfoField, info, false)];
    }
    tail := Extended(head, tail, InfoFields(status.info), fields);
    ghost var eula := OptionalField(status.eulaBlocked == Some(true), Field(EulaWarningField, EULA_TEXT, false));
    if status.eulaBlocked == Some(true) {
      fields := fields + [Field(EulaWarningField, EULA_TEXT, false)];
    }
    tail := Extended(head, tail, eula, fields);
  }

  /** The tail built so far grows by `more` while `fields` grows by it too. */
  ghost function Extended(head: seq<Field>, tail: seq<Field>, more: seq<Field>, fields: seq<Field>): (t: seq<Field>)
    requires fields == (head + tail) + more
    ensures t == tail + more && fields == head + t
  {
    AppendAssoc(head, tail, more);
    tail + more
  }

  /** Which optional fields an online embed carries: Software only for a
      non-vanilla software, the player count whenever players are reported,
      the online names only for a non-empty list, and the recently seen
      players only when the query finds some. */
  lemma OnlineFieldNames(status: ServerStatus, stored: seq<Database.PlayerRecord>, recentDays: int, now: int)
    ensures var fields := OnlineFields(status, stored, recentDays, now);
            && (Has(fields, SoftwareField) <==> Truthy(status.software) && status.software.value != VANILLA)
            && (Has(fields, PlayersField) <==> status.players.Some?)
            && (Has(fields, OnlinePlayersField) <==> status.players.Some? && OnlineNames(status) != [])
            && (Has(fields, RecentlyOnlineField) <==>
                  status.players.Some? && Database.RecentlySeen(stored, OnlineNames(status), recentDays, now) != [])
  {
    var head := HeadFields(status);
    var players := PlayerPart(status, stored, recentDays, now);
    var tail := TailFields(status);
    TailFieldsInTail(status);
    InParts(head, players, tail, SoftwareField);
    OutsideGroup(players, PlayerGroup, SoftwareField);
    forall k: FieldKind | k.Group() == PlayerGroup
      ensures Has(head + players + tail, k) <==> Has(players, k)
    {
      InParts(head, players, tail, k);
      OutsideGroup(head, Head, k);
    }
  }

  /** A field of the head or player group is present in an online embed's
      fields exactly when it is in one of the first two parts. */
  lemma InParts(head: seq<Field>, players: seq<Field>, tail: seq<Field>, k: FieldKind)
    requires InGroup(tail, Tail) && k.Group() != Tail
    ensures Has(head + players + tail, k) <==> Has(head, k) || Has(players, k)
  {
    HasConcat(head, players, k);
    HasConcat(head + players, tail, k);
    OutsideGroup(tail, Tail, k);
  }
}
