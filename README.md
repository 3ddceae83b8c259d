# mcsrvstat-discord in Dafny

A Discord bot posts the status of one Minecraft server. The status comes
from the mcsrvstat.us API. The bot keeps a single status message in a text
channel up to date, and it remembers in a JSON file which players it has
seen online. This project models the bot's sequential core and proves
properties of it:

- **The player presence store** (`database.dfy`, module `Database`). The
  store file is a `Store` class with two fields: `players` and
  `lastMessageId`. A failed read or write of the file is a boolean
  parameter of each call. `updatePlayerActivity` is a loop over the online
  names. It overwrites the first record with the same name, or appends a
  new record. The "recently seen" query is a filter followed by a stable
  sort, newest first, comparing whole seconds. `formatLastSeen` renders the
  elapsed time as "N minutes/hours/days ago". Timestamps are integers in
  milliseconds since the epoch, and the current time is a parameter.
- **The status-message reconciler** (`status_updater.dfy`, module
  `StatusUpdater`). It models `updateServerStatus` as a method over a
  `Channel` object, which holds the messages (newest first) and a log of
  the calls made on it. It works in four steps:
  - edit the message whose id is stored (KNOWN);
  - otherwise scan the 50 most recent messages for the bot's own status
    message (SEARCH);
  - otherwise send a new message (CREATE);
  - if any of those calls fails, make one fallback send.

  Whether each remote call succeeds, and the ids Discord gives to new
  messages, form an `Outcomes` parameter. A pure function `Reconcile`
  states what one cycle does. The method is proved to do exactly that.
- **The embed renderer** (`message_formatter.dfy`, module
  `MessageFormatter`). `createStatusEmbed` turns a server status into a
  title, a colour, a thumbnail, a description, an ordered field list and a
  footer. The stored players, the retention window and the current time
  are parameters.
- **The configuration loader** (`config.dfy`, module `Config`). It validates
  the environment, which is a map from variable name to value, and fills
  in the two numeric defaults.

Support modules:

- `wrappers.dfy` holds `Option` and `Result`.
- `text.dfy` holds decimal rendering and parsing, `join`, substring search
  and the ECMAScript `trim`.
- `minecraft_api.dfy` holds the status record the API returns, and the
  offline record that `fetchServerStatus` falls back to.

`updateServerStatus` catches every exception. In the model, every failure
is an outcome, and the method always terminates normally. When the channel
lookup finds no text channel, the method changes nothing and renders
nothing.

Two consequences of the code as written are visible in the model:

- `saveMessageId` and `updatePlayerActivity` rewrite the whole file from
  what `loadDatabase` returned. So a failed read followed by a successful
  write replaces the stored players with an empty list. See
  `Database.Store.SaveMessageId` and `Database.Store.UpdatePlayerActivity`.
- The title is built from the `ip` that the API reports. The scan looks
  for the configured address. A saved message is proved to be recognised
  by a later scan only when the title was rendered for the configured
  address (`StatusUpdater.SavedMessageIsRecognised`).

## Model

| member | source | states |
|---|---|---|
| Database.Loaded | src/database.ts:44-52 | a readable file yields the stored document; an unreadable one yields no players and no message id |
| Database.Store.Load | src/database.ts:44-52 | `loadDatabase` on the store: the persisted document, or the empty document when the read fails |
| Database.Store.Save | src/database.ts:57-63 | a successful write persists the document; a failed write leaves the file as it was |
| Database.Store.constructor | src/database.ts:34-36 | a new store file holds no players and no message id |
| Database.MessageIdOf | src/database.ts:79-82 | the id reads back exactly when it is present and non-empty, and is then the stored id |
| Database.Store.SaveMessageId | src/database.ts:69-73 | a successful write persists the loaded document with the new id (so a failed read first drops the players); a failed write changes nothing; afterwards the id reads back, or none when it is empty |
| Database.Store.GetLastMessageId | src/database.ts:79-82 | the stored id when the file is readable and the id is non-empty; none otherwise |
| Database.FindIndex | src/database.ts:95-97 | the first index holding the name, or -1 exactly when no record has that name |
| Database.UpsertOne | src/database.ts:95-107 | one pass of the loop: the first record with the name takes the new time, or a record for the name is appended; what the loop makes of it is stated by `UpsertShape` and `UpsertLastSeen` |
| Database.Upsert | src/database.ts:94-109 | the whole loop over the batch, one `UpsertOne` per name in batch order; `UpsertAll` is proved to compute it, and `UpsertShape`, `UpsertLastSeen`, `UpsertKeepsDistinct` and `UpsertIdempotent` state its result |
| Database.LastSeen | src/database.ts:95-97 | a last-seen time exists exactly for the names the store holds |
| Database.UpsertAll | src/database.ts:94-109 | the loop over the online names builds exactly the batch upsert `Upsert` |
| Database.Store.UpdatePlayerActivity | src/database.ts:89-114 | returns the loaded document with the batch upserted at `now`, and persists it when the write succeeds |
| Database.UpsertLastSeen | src/database.ts:91-109 | after the update every name of the batch reads back as seen at `now`, and every other name reads back as before |
| Database.UpsertShape | src/database.ts:99-107 | old records keep their positions and are refreshed exactly when their name is in the batch; new names follow in first-occurrence order, seen at `now` |
| Database.UpsertNames | src/database.ts:99-107 | the names after the update are the old names followed by the batch's new names |
| Database.NewNames | src/database.ts:102-107 | the appended names are exactly the batch names the store lacked, each once |
| Database.NewNamesAppend | src/database.ts:94-107 | the new names come in first-occurrence order: a batch split in two yields the first part's new names, then those of the second part that neither the store nor the first part holds |
| Database.UpsertKeepsDistinct | src/database.ts:95-107 | distinct names stay distinct, even when the batch lists a name twice |
| Database.UpsertSeenIsNoop | src/database.ts:94-109 | an update whose names all already read back as seen at `now` changes nothing |
| Database.UpsertIdempotent | src/database.ts:94-109 | a second identical update at the same time leaves the store as the first one left it |
| Database.Cutoff | src/database.ts:128 | the start of the retention window: `now` minus `daysToKeep` days of 86 400 000 ms |
| Database.UnixSeconds | src/database.ts:141 | the whole seconds of a millisecond timestamp, rounded down as `unix()` does; the sort compares these |
| Database.FilterRecent | src/database.ts:130-138 | keeps exactly the records of players not online now and seen strictly after the cutoff, never more records than it was given |
| Database.FilterRecentAppend | src/database.ts:130-138 | the filter keeps store order: filtering a concatenation gives the filtered first part followed by the filtered second part |
| Database.SortNewestFirst | src/database.ts:139-142 | the output is ordered newest first by whole seconds, is a permutation of the input, and keeps the input order of records from the same second |
| Database.Insert | src/database.ts:139-142 | inserting one record into a sorted list keeps it sorted, adds exactly that record, and puts it first among records of its second |
| Database.RecentlySeen | src/database.ts:122-143 | the filter at the cutoff `now` minus `daysToKeep` days, then the newest-first sort; `RecentlySeenSpec` states its result |
| Database.RecentlySeenSpec | src/database.ts:122-143 | the query returns exactly the offline records seen after `now` minus `daysToKeep` days, newest first, with ties in store order |
| Database.TruncDiv | src/database.ts:154-165 | a `diff` in a unit is the elapsed time divided by the unit, truncated toward zero, for both signs |
| Database.Ago | src/database.ts:157-166 | "N unit ago", with the unit plural unless N is 1; `AgoReadsBack` states that the count and the plural read back |
| Database.FormatLastSeen | src/database.ts:150-167 | minutes below 60, else hours below 24, else days; `FormatLastSeenBuckets` states the bucket and the count for each elapsed time |
| Database.FormatLastSeenBuckets | src/database.ts:150-167 | under an hour the text counts whole minutes; under a day, whole hours from 1 to 23; otherwise whole days, at least 1 |
| Database.AgoReadsBack | src/database.ts:157-166 | the count reads back from the text, and the unit is plural exactly when the count is not 1 |
| Config.ParseSetting | src/config.ts:22-29 | an unset or empty variable gives the default; a decimal value gives its number |
| Config.LoadConfig | src/config.ts:16-37 | fails exactly when a required variable is unset or empty, naming the first such variable in the order token, channel, address; on success the required strings are unchanged, each numeric setting is `ParseSetting` of its variable, and the interval and window default to 5 and 7 |
| Config.SettingRoundTrip | src/config.ts:23-28 | a setting written in decimal reads back as its value |
| Config.LoadConfigRoundTrip | src/config.ts:16-37 | with the required variables set, the configuration carries them and the decimal settings as written |
| MinecraftApi.OnlineNames | src/index.ts:41-43 | the names of the listed players in list order; none when players or the list are absent |
| MinecraftApi.OfflineStatus | src/minecraft-api.ts:32-36 | the failure record is offline, on the configured address and the default port, with no players and no ping |
| MessageFormatter.Title | src/message-formatter.ts:27-30 | the prefix and the address, plus ":port" exactly when the port is not 25565 |
| MessageFormatter.TitleCarriesMarker | src/message-formatter.ts:27-30 | every title contains "Minecraft Server Status: " followed by its address |
| MessageFormatter.VersionText | src/message-formatter.ts:50 | the version when it is present and non-empty, "Unknown" otherwise |
| MessageFormatter.PingEmoji | src/message-formatter.ts:174-175 | green below 100 ms, yellow from 100 to below 300 ms, red from 300 ms |
| MessageFormatter.PingPart | src/message-formatter.ts:173-177 | empty exactly when no ping was measured; otherwise the separator and "Ping: ", the emoji for the ping, the ping in decimal and "ms" |
| MessageFormatter.ApiPart | src/message-formatter.ts:180-182 | the separator, "API v" and the version when the API version is set and non-zero; empty otherwise |
| MessageFormatter.Footer | src/message-formatter.ts:170-185 | exactly "Last updated", then the ping part, then the API part; so it starts with "Last updated" and is only that when there is no ping and no API version, and without a ping the API version follows directly |
| MessageFormatter.AddonLabel | src/message-formatter.ts:124-127 | the add-on's name, followed by " (version)" when the version is non-empty |
| MessageFormatter.AddonSummary | src/message-formatter.ts:122-133 | the labels of the first ten add-ons joined by ", ", followed by " and N more..." past ten; `AddonSummaryCountsRest` states the second case |
| MessageFormatter.AddonSummaryCountsRest | src/message-formatter.ts:121-150 | past ten add-ons, the first ten labels joined by ", " followed by " and N more...", where N reads back as the number left out |
| MessageFormatter.AddonFields | src/message-formatter.ts:121-151 | exactly one field, carrying the list's summary, when the list is present and non-empty; no field otherwise |
| MessageFormatter.InfoFields | src/message-formatter.ts:154-159 | exactly one "Additional Info" field, carrying the joined and trimmed lines, when that text is non-empty; no field otherwise |
| MessageFormatter.CleanText | src/message-formatter.ts:154-155 | the lines joined by line breaks and trimmed, when the list is present and non-empty; empty otherwise |
| MessageFormatter.MotdDescription | src/message-formatter.ts:59-64 | a description exists exactly when the trimmed MOTD is non-empty, and carries it after the heading |
| Text.Trim | src/message-formatter.ts:155 | `trim`: leading white space removed, then trailing white space; `TrimWindowOf` states the result |
| Text.Join | src/message-formatter.ts:128 | the elements in order with the separator between neighbours; empty for no elements |
| Text.Contains | src/index.ts:80-82 | true exactly when the substring occurs at some position of the string |
| Text.TrimWindowOf | src/message-formatter.ts:60 | `trim` leaves the window between leading and trailing white space; the result is empty exactly when the text is all white space |
| MessageFormatter.RecentLines | src/message-formatter.ts:95-97 | one line per recently seen record, in query order: the name, then the `formatLastSeen` text in parentheses |
| MessageFormatter.PlayerFields | src/message-formatter.ts:67-103 | the count field "online/max" comes first; the online names appear exactly for a non-empty list; the recently seen players appear exactly when there are some; the fields are all of the player group |
| MessageFormatter.PlayerFieldsValues | src/message-formatter.ts:67-103 | the count field carries "online/max", the online-names field the names joined by ", ", and the recently-online field one "name (N units ago)" line per record joined by line breaks |
| MessageFormatter.HeadFields | src/message-formatter.ts:48-56 | Status "🟢 Online" and the version come first; Software appears exactly when it is present and not "Vanilla", and is then the third field, carrying the software name |
| MessageFormatter.PlayerPart | src/message-formatter.ts:67-104 | the player fields appear exactly when players are reported, and the recently seen field is present exactly when the query that excludes the online names finds records; `PlayerFieldValues` states the text they carry |
| MessageFormatter.OnlineFieldsStart | src/message-formatter.ts:48-51 | an online embed's first two fields are Status and Version |
| MessageFormatter.OnlineFieldNames | src/message-formatter.ts:48-104 | in the whole field list, each of Software, the player count, the online names and the recently seen list appears exactly under its condition |
| MessageFormatter.PlayerFieldValues | src/message-formatter.ts:76-103 | in the whole field list of an online embed with players, every player field carries its text: the online names joined by ", ", and the lines of the query that excludes those names, joined by line breaks; each field is there when its list is non-empty |
| MessageFormatter.TailFields | src/message-formatter.ts:106-167 | the map, gamemode, plugin, mod, info and EULA fields in that order, each under its condition; `TailHas`, `TailFieldsValues` and `TailFieldsInTail` state what it holds |
| MessageFormatter.TailHas | src/message-formatter.ts:106-167 | a kind is among the tail fields exactly when the status carries it: a non-empty map or gamemode, a non-empty plugin or mod list, info that is non-empty after trimming, a blocked EULA |
| MessageFormatter.TailFieldsValues | src/message-formatter.ts:106-167 | each tail field carries its text: the map, the gamemode, the add-on summary, the trimmed info, the fixed EULA warning |
| MessageFormatter.TailFieldsInTail | src/message-formatter.ts:106-167 | the fields after the player fields are only map, gamemode, plugins, mods, info and EULA fields |
| MessageFormatter.TailFieldNames | src/message-formatter.ts:106-167 | in the whole field list of an online embed, each of the map, gamemode, plugin, mod, info and EULA fields appears exactly under its condition, and each carries its text from the status |
| MessageFormatter.AppendTail | src/message-formatter.ts:106-167 | the fields become the given ones followed by exactly `TailFields`, so the appended fields are those `TailHas` and `TailFieldsValues` describe, in source order |
| MessageFormatter.OnlineFields | src/message-formatter.ts:47-167 | the head fields, then the player fields, then the tail fields; `OnlineFieldsStart`, `OnlineFieldNames` and `TailFieldNames` state what they hold |
| MessageFormatter.BuildOnlineFields | src/message-formatter.ts:47-167 | the fields are added head first, then players, then the rest |
| MessageFormatter.ThumbnailOf | src/message-formatter.ts:37-41 | the server icon when it is set and non-empty; the default logo otherwise |
| MessageFormatter.CreateStatusEmbed | src/message-formatter.ts:24-188 | the title and thumbnail always; green exactly when online; offline gives the warning, no fields and "Last updated"; online gives the MOTD description, the ordered fields and the full footer |
| StatusUpdater.Recent | src/index.ts:70 | the scan sees exactly the 50 newest messages, or all of them when there are fewer |
| StatusUpdater.IsStatusMessage | src/index.ts:71-84 | a message the scan recognises: written by the bot, with at least one embed, and some embed title contains the marker |
| StatusUpdater.FirstStatusMessage | src/index.ts:71-84 | the first message, in channel order, written by the bot with an embed whose title contains the marker; none when no message is recognised |
| StatusUpdater.FindStatusMessage | src/index.ts:76-92 | the scan loop returns the first recognised message |
| StatusUpdater.Channel.FetchMessage | src/index.ts:57 | logs the fetch; it succeeds exactly when the call works and a message has the id |
| StatusUpdater.Edited | src/index.ts:86 | the message list keeps its length, and exactly the messages with the id now carry one embed with the new title |
| StatusUpdater.Sent | src/index.ts:96 | a new bot message with one embed carrying the new title, in front of the others |
| StatusUpdater.Channel.EditMessage | src/index.ts:58 | logs the edit, and the message takes the new embed exactly when the call works |
| StatusUpdater.Channel.FetchRecentMessages | src/index.ts:70 | logs the fetch of 50 and returns the 50 newest messages when the call works |
| StatusUpdater.Channel.SendMessage | src/index.ts:96 | logs the send, and a new bot message with the embed becomes the newest exactly when the send works |
| StatusUpdater.Fallback | src/index.ts:102-108 | one more send is logged; a working send adds a new bot message with the embed and saves its id, a failed one saves nothing |
| StatusUpdater.SearchOrCreate | src/index.ts:69-108 | the scan, then an edit of the first recognised message or a new send; a failed scan, edit or send leads to `Fallback`; stated by `SearchOrCreateSucceeds` and `SearchOrCreateFallback` |
| StatusUpdater.KnownAttempt | src/index.ts:55-66 | the calls of a KNOWN step that did not succeed: the fetch by the stored id, then the edit when a message has the id; nothing without a stored id |
| StatusUpdater.Reconcile | src/index.ts:54-109 | at most two sends; a successful KNOWN step makes no scan, no send and no save; the scan happens exactly when the KNOWN step fails; a saved id belongs to a bot message carrying the new title |
| StatusUpdater.SearchOrCreateCalls | src/index.ts:69-108 | the search phase starts with the fetch of 50 and sends at most twice |
| StatusUpdater.SearchOrCreateSaved | src/index.ts:85-104 | the id it saves belongs to a bot message whose one embed has the new title |
| StatusUpdater.SearchOrCreateSucceeds | src/index.ts:69-97 | when every call works, a found message is edited and its id saved with no send; with none found exactly one message is sent and its id saved |
| StatusUpdater.SearchOrCreateFallback | src/index.ts:69-108 | when a call fails the phase ends with the fallback send, whose id is saved; it is the only send after a failed scan or edit, the second after a failed CREATE send |
| StatusUpdater.ReconcileBranches | src/index.ts:55-108 | a found message is edited and saved without a send; with none found one message is sent and saved; any failure leads to the fallback send, which is the last call and whose id is saved, with two sends in all after a failed CREATE send and one otherwise; the id is kept exactly when KNOWN succeeded or the fallback failed |
| StatusUpdater.ReconcileFallback | src/index.ts:54-108 | a cycle that reaches the fallback ends with its send and saves its id; it sends twice after a failed CREATE send, once otherwise |
| StatusUpdater.SavedMessageIsRecognised | src/index.ts:71-97 | a saved message, titled for the configured address, is recognised by the next scan |
| StatusUpdater.OfflineEmbedIsRecognised | src/minecraft-api.ts:32-36 | when the API cannot be reached, the title is exactly the marker for the configured address, so the message a cycle saves is recognised by a later scan |
| StatusUpdater.SavedIdIsKnownNextCycle | src/index.ts:55-60 | a saved id lets the next cycle's KNOWN step succeed when its fetch and edit work |
| StatusUpdater.RecordsActivity | src/index.ts:40 | the player update runs for an online status that reports a player list, even an empty one |
| StatusUpdater.AfterActivity | src/index.ts:40-45 | the player update runs only for an online status with a list: the loaded document with the online names upserted, persisted when the write works |
| StatusUpdater.AfterSave | src/index.ts:88-104 | `saveMessageId` for the id a cycle saved: the loaded document with that id when the write works; unchanged otherwise |
| StatusUpdater.SendFallback | src/index.ts:102-108 | one more send, whose id is saved when it works |
| StatusUpdater.SearchOrCreatePhase | src/index.ts:69-108 | the channel and the store end as the search phase of `Reconcile` says |
| StatusUpdater.ReconcilePhase | src/index.ts:54-109 | the channel calls, the messages and the stored id end as `Reconcile` says |
| StatusUpdater.UpdateServerStatus | src/index.ts:25-113 | no text channel means nothing changes; otherwise the players are recorded only for an online status with a list; the embed is rendered from the updated store; the channel and the stored id follow `Reconcile` |

## Left out

- `src/utils/ping.ts` is not part of this model. It does ICMP and TCP probing and wall-clock timing, and nothing in the core calls it.
- `fetchServerStatus` is reduced to its offline fallback record. The HTTP call and the measured `pingMs` are inputs: the status is a parameter of `UpdateServerStatus`.
- Discord login, the event handlers and the `node-cron` schedule are not modelled, so overlapping cycles are not modelled either. The `Client`'s own user id is a parameter and is assumed known.
- JSON serialisation, the ISO date strings and `initDatabase`'s directory creation are left out. The store is an in-memory value, and a timestamp is its millisecond count.
- Within one cycle, every read of the store file succeeds or fails alike, and so does every write (one `readOk` and one `writeOk` per cycle). The source allows each call to differ.
- dayjs calendar and time-zone details are left out. A day is 86 400 000 ms, and the current time is one value for the whole cycle, although the source reads the clock separately in each call.
- The default of 7 for the `daysToKeep` parameter of `getRecentlySeenPlayers` is not modelled: `Database.RecentlySeen` always takes the window, because the only caller always passes the configured one.
- Config.ParseSetting: a value that is not all decimal digits becomes `Unparsed(text)`. JavaScript `parseInt` would read a number prefix or give NaN, and the model does not compute that.
- `createStatusEmbed` calls `loadConfig` itself. The model assumes it sees the same environment as the bot's start-up, and passes the window in days as a parameter.
- MessageFormatter.CreateStatusEmbed: the thumbnail data URL, the colour hex values and the timestamp format of `EmbedBuilder` are left out. The colour is only online or offline, the thumbnail is the icon or the default logo, and the timestamp is the current time.
- Messages are modelled only by id, author and embed titles. Embed bodies are not compared after an edit.
- The fetch of 50 returns the 50 newest messages, newest first. The model does not capture Discord's own ordering or paging.
- An exception is modelled as a failed outcome in `Outcomes`. A fetch by id fails when the call fails or when no message has the id. Logging is not modelled.
- `src/models/index.ts` (mongoose schemas nothing uses) and `src/utils/logger.ts` (console output) are not part of this model.
