/** `updateServerStatus` of src/index.ts: one update cycle of the status
    message. The Discord channel is a `Channel` object holding its messages
    (newest first) and the log of the calls made on it; each remote call's
    success or failure, and the ids Discord gives to new messages, are an
    `Outcomes` parameter. The store file is a `Database.Store`. */
module StatusUpdater {
  import opened Wrappers
  import opened Text
  import opened MinecraftApi
  import Database
  import MessageFormatter

  /** `channel.messages.fetch({ limit: 50 })`. */
  const SEARCH_LIMIT := 50

  /** A channel message as far as the cycle looks at it: its id, its author,
      and the title of each of its embeds (a title may be absent). */
  datatype Message = Message(id: string, authorId: string, embedTitles: seq<Option<string>>)

  /** The calls the cycle makes on the channel. */
  datatype Call =
    | FetchById(id: string)
    | Edit(id: string)
    | FetchRecent(limit: nat)
    | Send

  /** What `client.channels.fetch(channelId)` yields: a text channel, nothing
      (or a failed fetch, which the outer `catch` ends the same way), or a
      channel of another kind. */
  datatype ChannelLookup = TextChannel | NoChannel | OtherChannel

  /** How each remote call of one cycle turns out. A fetch by id also fails
      when no message has that id; `sendId` and `fallbackId` are the ids of
      the messages the two sends create, `None` when that send fails. */
  datatype Outcomes = Outcomes(
    fetchOk: bool,
    knownEditOk: bool,
    recentOk: bool,
    foundEditOk: bool,
    sendId: Option<string>,
    fallbackId: Option<string>)

  /** What a cycle does to the channel: the calls it makes, the messages
      afterwards, and the id it hands to `saveMessageId`, if any. */
  datatype Cycle = Cycle(calls: seq<Call>, messages: seq<Message>, saved: Option<string>)

  /** The title marker the scan looks for. */
  function Marker(address: string): string {
    MessageFormatter.TITLE_PREFIX + address
  }

  predicate TitleMatches(title: Option<string>, marker: string) {
    title.Some? && Contains(title.value, marker)
  }

  /** A message the scan recognises: written by the bot, with at least one
      embed, one of whose titles contains the marker. */
  predicate IsStatusMessage(m: Message, botId: string, marker: string) {
    && m.authorId == botId
    && |m.embedTitles| > 0
    && exists k :: 0 <= k < |m.embedTitles| && TitleMatches(m.embedTitles[k], marker)
  }

  predicate HasId(messages: seq<Message>, id: string) {
    exists i :: 0 <= i < |messages| && messages[i].id == id
  }

  /** The messages the scan fetches: the 50 most recent. */
  function Recent(messages: seq<Message>): (r: seq<Message>)
    ensures |r| == if |messages| <= SEARCH_LIMIT then |messages| else SEARCH_LIMIT
    ensures |messages| <= SEARCH_LIMIT ==> r == messages
    ensures r == messages[..|r|]
  {
    if |messages| <= SEARCH_LIMIT then messages else messages[..SEARCH_LIMIT]
  }

  /** `r` is the first recognised message of `messages`, or `None` when no
      message is recognised. */
  predicate IsFirstStatusMessage(messages: seq<Message>, botId: string, marker: string, r: Option<Message>) {
    && (r.None? ==> forall i :: 0 <= i < |messages| ==> !IsStatusMessage(messages[i], botId, marker))
    && (r.Some? ==> exists i :: 0 <= i < |messages| && messages[i] == r.value
                                && IsStatusMessage(messages[i], botId, marker)
                                && forall j :: 0 <= j < i ==> !IsStatusMessage(messages[j], botId, marker))
  }

  /** The first recognised message, in the order the scan visits them. */
  function FirstStatusMessage(messages: seq<Message>, botId: string, marker: string): (r: Option<Message>)
    ensures IsFirstStatusMessage(messages, botId, marker, r)
  {
    if messages == [] then None
    else if IsStatusMessage(messages[0], botId, marker) then
      Some(messages[0])
    else
      var r := FirstStatusMessage(messages[1..], botId, marker);
      FirstStatusStep(messages, botId, marker, r);
      r
  }

  /** Skipping an unrecognised first message keeps the first recognised one. */
  lemma FirstStatusStep(messages: seq<Message>, botId: string, marker: string, r: Option<Message>)
    requires |messages| > 0 && !IsStatusMessage(messages[0], botId, marker)
    requires IsFirstStatusMessage(messages[1..], botId, marker, r)
    ensures IsFirstStatusMessage(messages, botId, marker, r)
  {
    if r.Some? {
      var i :| 0 <= i < |messages[1..]| && messages[1..][i] == r.value
               && IsStatusMessage(messages[1..][i], botId, marker)
               && forall j :: 0 <= j < i ==> !IsStatusMessage(messages[1..][j], botId, marker);
      assert messages[i + 1] == r.value;
      forall j | 0 <= j < i + 1
        ensures !IsStatusMessage(messages[j], botId, marker)
      {
        if j > 0 {
          assert messages[j] == messages[1..][j - 1];
        }
      }
    } else {
      forall i | 0 <= i < |messages|
        ensures !IsStatusMessage(messages[i], botId, marker)
      {
        if i > 0 {
          assert messages[i] == messages[1..][i - 1];
        }
      }
    }
  }

  /** The scan loop over the fetched messages: the first recognised one. */
  method FindStatusMessage(messages: seq<Message>, botId: string, marker: string) returns (r: Option<Message>)
    ensures r == FirstStatusMessage(messages, botId, marker)
  {
    var i := 0;
    while i < |messages|
      invariant 0 <= i <= |messages|
      invariant FirstStatusMessage(messages, botId, marker) == FirstStatusMessage(messages[i..], botId, marker)
    {
      assert messages[i..][1..] == messages[i + 1..];
      if messages[i].authorId == botId && |messages[i].embedTitles| > 0 {
        var k := 0;
        while k < |messages[i].embedTitles|
          invariant 0 <= k <= |messages[i].embedTitles|
          invariant forall j :: 0 <= j < k ==> !TitleMatches(messages[i].embedTitles[j], marker)
        {
          var title := messages[i].embedTitles[k];
          if title.Some? && Contains(title.value, marker) {
            return Some(messages[i]);
          }
          k := k + 1;
        }
      }
      i := i + 1;
    }
    return None;
  }

  /** `message.edit({ embeds: [statusEmbed] })`: the message with that id
      now carries one embed, with the new title. */
  function Edited(messages: seq<Message>, id: string, title: string): (r: seq<Message>)
    ensures |r| == |messages|
    ensures forall i :: 0 <= i < |r| ==>
              r[i] == if messages[i].id == id then messages[i].(embedTitles := [Some(title)]) else messages[i]
  {
    seq(|messages|, i requires 0 <= i < |messages| =>
      if messages[i].id == id then messages[i].(embedTitles := [Some(title)]) else messages[i])
  }

  /** `channel.send({ embeds: [statusEmbed] })`: a new bot message, newest. */
  function Sent(messages: seq<Message>, id: string, botId: string, title: string): seq<Message> {
    [Message(id, botId, [Some(title)])] + messages
  }

  /** The fallback send of the outer `catch`, after the calls in `pre`. */
  function Fallback(pre: seq<Call>, messages: seq<Message>, botId: string, title: string, fallbackId: Option<string>)
    : Cycle
  {
    match fallbackId
    case Some(id) => Cycle(pre + [Send], Sent(messages, id, botId, title), Some(id))
    case None => Cycle(pre + [Send], messages, None)
  }

  /** The search for the bot's message and, failing that, a new message. */
  function SearchOrCreate(messages: seq<Message>, botId: string, marker: string, title: string, o: Outcomes): Cycle {
    if !o.recentOk then
      Fallback([FetchRecent(SEARCH_LIMIT)], messages, botId, title, o.fallbackId)
    else match FirstStatusMessage(Recent(messages), botId, marker)
      case Some(m) =>
        if o.foundEditOk then Cycle([FetchRecent(SEARCH_LIMIT), Edit(m.id)], Edited(messages, m.id, title), Some(m.id))
        else Fallback([FetchRecent(SEARCH_LIMIT), Edit(m.id)], messages, botId, title, o.fallbackId)
      case None =>
        match o.sendId
        case Some(id) => Cycle([FetchRecent(SEARCH_LIMIT), Send], Sent(messages, id, botId, title), Some(id))
        case None => Fallback([FetchRecent(SEARCH_LIMIT), Send], messages, botId, title, o.fallbackId)
  }

  /** The stored message was fetched and edited. */
  predicate KnownUpdated(messages: seq<Message>, storedId: Option<string>, o: Outcomes) {
    storedId.Some? && o.fetchOk && HasId(messages, storedId.value) && o.knownEditOk
  }

  /** The calls of a KNOWN step that did not succeed. */
  function KnownAttempt(messages: seq<Message>, storedId: Option<string>, o: Outcomes): seq<Call> {
    match storedId
    case Some(id) => [FetchById(id)] + (if o.fetchOk && HasId(messages, id) then [Edit(id)] else [])
    case None => []
  }

  /** The channel side of one cycle with a text channel, given the stored id,
      the bot's id, the marker and the title of the new embed. */
  function Reconcile(messages: seq<Message>, storedId: Option<string>, botId: string, marker: string, title: string,
                     o: Outcomes): (c: Cycle)
    ensures multiset(c.calls)[Send] <= 2
    ensures KnownUpdated(messages, storedId, o) ==>
              c.calls == [FetchById(storedId.value), Edit(storedId.value)] && c.saved == None
    ensures FetchRecent(SEARCH_LIMIT) in c.calls <==> !KnownUpdated(messages, storedId, o)
    ensures c.saved.Some? ==>
              exists i :: 0 <= i < |c.messages| && c.messages[i] == Message(c.saved.value, botId, [Some(title)])
  {
    if KnownUpdated(messages, storedId, o) then
      var id := storedId.value;
      Cycle([FetchById(id), Edit(id)], Edited(messages, id, title), None)
    else
      var pre := KnownAttempt(messages, storedId, o);
      var rest := SearchOrCreate(messages, botId, marker, title, o);
      SearchOrCreateCalls(messages, botId, marker, title, o);
      SearchOrCreateSaved(messages, botId, marker, title, o);
      assert multiset(pre)[Send] == 0 && FetchRecent(SEARCH_LIMIT) !in pre;
      Cycle(pre + rest.calls, rest.messages, rest.saved)
  }

  /** The search phase starts with the scan and sends at most twice. */
  lemma SearchOrCreateCalls(messages: seq<Message>, botId: string, marker: string, title: string, o: Outcomes)
    ensures var c := SearchOrCreate(messages, botId, marker, title, o);
            && multiset(c.calls)[Send] <= 2
            && |c.calls| > 0 && c.calls[0] == FetchRecent(SEARCH_LIMIT)
  {
  }

  /** The id the search phase saves belongs to a bot message whose one embed
      has the new title. */
  lemma SearchOrCreateSaved(messages: seq<Message>, botId: string, marker: string, title: string, o: Outcomes)
    ensures var c := SearchOrCreate(messages, botId, marker, title, o);
            c.saved.Some? ==>
              exists i :: 0 <= i < |c.messages| && c.messages[i] == Message(c.saved.value, botId, [Some(title)])
  {
    var c := SearchOrCreate(messages, botId, marker, title, o);
    var first := FirstStatusMessage(Recent(messages), botId, marker);
    if o.recentOk && first.Some? && o.foundEditOk {
      var m := first.value;
      var i :| 0 <= i < |Recent(messages)| && Recent(messages)[i] == m && IsStatusMessage(m, botId, marker);
      assert c.messages == Edited(messages, m.id, title);
      assert c.messages[i] == m.(embedTitles := [Some(title)]);
    } else if c.saved.Some? {
      assert c.messages[0] == Message(c.saved.value, botId, [Some(title)]);
    }
  }

  /** Some call of the search phase failed, so the outer `catch` sends. */
  predicate ReachesFallback(messages: seq<Message>, storedId: Option<string>, botId: string, marker: string, o: Outcomes) {
    && !KnownUpdated(messages, storedId, o)
    && (|| !o.recentOk
        || (FirstStatusMessage(Recent(messages), botId, marker).Some? && !o.foundEditOk)
        || (FirstStatusMessage(Recent(messages), botId, marker).None? && o.sendId.None?))
  }

  /** The branches of a cycle after a failed KNOWN step: a found message is
      edited and its id saved without a send; with none found, exactly one
      new message is sent and its id saved; a failure in between leads to
      the fallback send, whose id (or nothing) is saved. The id is left as
      it was exactly when the KNOWN step succeeded or the fallback failed. */
  lemma ReconcileBranches(messages: seq<Message>, storedId: Option<string>, botId: string, marker: string,
                          title: string, o: Outcomes)
    ensures var c := Reconcile(messages, storedId, botId, marker, title, o);
            var first := FirstStatusMessage(Recent(messages), botId, marker);
            && (!KnownUpdated(messages, storedId, o) && o.recentOk && first.Some? && o.foundEditOk ==>
                  c.saved == Some(first.value.id) && Edit(first.value.id) in c.calls && Send !in c.calls)
            && (!KnownUpdated(messages, storedId, o) && o.recentOk && first.None? && o.sendId.Some? ==>
                  c.saved == o.sendId && multiset(c.calls)[Send] == 1)
            && (ReachesFallback(messages, storedId, botId, marker, o) ==>
                  && c.saved == o.fallbackId
                  && |c.calls| > 0 && c.calls[|c.calls| - 1] == Send
                  && multiset(c.calls)[Send] == (if o.recentOk && first.None? then 2 else 1))
            && (c.saved.None? <==>
                  KnownUpdated(messages, storedId, o)
                  || (ReachesFallback(messages, storedId, botId, marker, o) && o.fallbackId.None?))
  {
    if KnownUpdated(messages, storedId, o) {
    } else if ReachesFallback(messages, storedId, botId, marker, o) {
      ReconcileFallback(messages, storedId, botId, marker, title, o);
    } else {
      var c := Reconcile(messages, storedId, botId, marker, title, o);
      var pre := KnownAttempt(messages, storedId, o);
      var rest := SearchOrCreate(messages, botId, marker, title, o);
      SearchOrCreateSucceeds(messages, botId, marker, title, o);
      assert Send !in pre;
      assert c.calls == pre + rest.calls && c.saved == rest.saved;
      assert multiset(c.calls)[Send] == multiset(rest.calls)[Send];
    }
  }

  /** When every call of the search phase works, the found message is edited
      without a send, or else one new message is sent; its id is saved. */
  lemma SearchOrCreateSucceeds(messages: seq<Message>, botId: string, marker: string, title: string, o: Outcomes)
    requires var first := FirstStatusMessage(Recent(messages), botId, marker);
             && o.recentOk
             && (first.Some? ==> o.foundEditOk)
             && (first.None? ==> o.sendId.Some?)
    ensures var c := SearchOrCreate(messages, botId, marker, title, o);
            var first := FirstStatusMessage(Recent(messages), botId, marker);
            && (first.Some? ==> c.saved == Some(first.value.id) && Edit(first.value.id) in c.calls && Send !in c.calls)
            && (first.None? ==> c.saved == o.sendId && multiset(c.calls)[Send] == 1)
  {
  }

  /** A cycle that reaches the fallback ends with its send and saves its id;
      it sends once after a failed scan or edit, twice after a failed CREATE
      send. */
  lemma ReconcileFallback(messages: seq<Message>, storedId: Option<string>, botId: string, marker: string,
                          title: string, o: Outcomes)
    requires ReachesFallback(messages, storedId, botId, marker, o)
    ensures var c := Reconcile(messages, storedId, botId, marker, title, o);
            var first := FirstStatusMessage(Recent(messages), botId, marker);
            && c.saved == o.fallbackId
            && |c.calls| > 0 && c.calls[|c.calls| - 1] == Send
            && multiset(c.calls)[Send] == (if o.recentOk && first.None? then 2 else 1)
  {
    var c := Reconcile(messages, storedId, botId, marker, title, o);
    var pre := KnownAttempt(messages, storedId, o);
    var rest := SearchOrCreate(messages, botId, marker, title, o);
    SearchOrCreateFallback(messages, botId, marker, title, o);
    assert c.calls == pre + rest.calls;
    assert Send !in pre;
    assert multiset(c.calls)[Send] == multiset(rest.calls)[Send];
    assert c.calls[|c.calls| - 1] == rest.calls[|rest.calls| - 1];
  }

  /** When a call of the search phase fails, the phase ends with the
      fallback send: the only send after a failed scan or edit, the second
      after a failed CREATE send. */
  lemma SearchOrCreateFallback(messages: seq<Message>, botId: string, marker: string, title: string, o: Outcomes)
    requires var first := FirstStatusMessage(Recent(messages), botId, marker);
             || !o.recentOk
             || (first.Some? && !o.foundEditOk)
             || (first.None? && o.sendId.None?)
    ensures var c := SearchOrCreate(messages, botId, marker, title, o);
            var first := FirstStatusMessage(Recent(messages), botId, marker);
            && c.saved == o.fallbackId
            && |c.calls| > 0 && c.calls[|c.calls| - 1] == Send
            && multiset(c.calls)[Send] == (if o.recentOk && first.None? then 2 else 1)
  {
  }

  /** The stored message id a cycle hands to `saveMessageId` is recognised
      by a later scan: the saved message is the bot's, and its one embed has
      the new title, which carries the marker when it was rendered for the
      configured address. */
  lemma SavedMessageIsRecognised(messages: seq<Message>, storedId: Option<string>, botId: string, address: string,
                                 port: int, o: Outcomes)
    ensures var c := Reconcile(messages, storedId, botId, Marker(address), MessageFormatter.Title(address, port), o);
            c.saved.Some? ==> exists i :: 0 <= i < |c.messages| && c.messages[i].id == c.saved.value
                                          && IsStatusMessage(c.messages[i], botId, Marker(address))
  {
    var title := MessageFormatter.Title(address, port);
    var c := Reconcile(messages, storedId, botId, Marker(address), title, o);
    if c.saved.Some? {
      var i :| 0 <= i < |c.messages| && c.messages[i] == Message(c.saved.value, botId, [Some(title)]);
      MessageFormatter.TitleCarriesMarker(address, port);
      assert TitleMatches(c.messages[i].embedTitles[0], Marker(address));
    }
  }

  /** When the status API cannot be reached, the embed is titled for the
      configured address on the default port, so the message a cycle saves
      for it is recognised by a later scan. */
  lemma OfflineEmbedIsRecognised(messages: seq<Message>, storedId: Option<string>, botId: string, address: string,
                                 o: Outcomes)
    ensures var status := OfflineStatus(address);
            && MessageFormatter.Title(status.ip, status.port) == Marker(address)
            && var c := Reconcile(messages, storedId, botId, Marker(address),
                                  MessageFormatter.Title(status.ip, status.port), o);
               c.saved.Some? ==> exists i :: 0 <= i < |c.messages| && c.messages[i].id == c.saved.value
                                             && IsStatusMessage(c.messages[i], botId, Marker(address))
  {
    SavedMessageIsRecognised(messages, storedId, botId, address, DEFAULT_PORT, o);
  }

  /** A saved id makes the next cycle's KNOWN step succeed when its fetch and
      edit do. */
  lemma SavedIdIsKnownNextCycle(messages: seq<Message>, storedId: Option<string>, botId: string, marker: string,
                                title: string, o: Outcomes, next: Outcomes)
    requires next.fetchOk && next.knownEditOk
    ensures var c := Reconcile(messages, storedId, botId, marker, title, o);
            c.saved.Some? ==> KnownUpdated(c.messages, c.saved, next)
  {
    var c := Reconcile(messages, storedId, botId, marker, title, o);
    if c.saved.Some? {
      var i :| 0 <= i < |c.messages| && c.messages[i] == Message(c.saved.value, botId, [Some(title)]);
      assert c.messages[i].id == c.saved.value;
    }
  }

  // ---------------------------------------------------------------------
  // The channel and the cycle

  /** A Discord text channel: its messages, newest first, and the calls made
      on it so far. */
  class Channel {
    var messages: seq<Message>
    var calls: seq<Call>

    constructor (messages: seq<Message>)
      ensures this.messages == messages && calls == []
    {
      this.messages := messages;
      calls := [];
    }

    /** `channel.messages.fetch(id)`: succeeds when a message has that id. */
    method FetchMessage(id: string, ok: bool) returns (found: bool)
      modifies this
      ensures messages == old(messages) && calls == old(calls) + [FetchById(id)]
      ensures found <==> ok && HasId(messages, id)
    {
      calls := calls + [FetchById(id)];
      found := ok && HasId(messages, id);
    }

    /** `message.edit({ embeds: [statusEmbed] })`. */
    method EditMessage(id: string, title: string, ok: bool) returns (done: bool)
      modifies this
      ensures calls == old(calls) + [Edit(id)]
      ensures messages == if ok then Edited(old(messages), id, title) else old(messages)
      ensures done == ok
    {
      calls := calls + [Edit(id)];
      if ok {
        messages := Edited(messages, id, title);
      }
      done := ok;
    }

    /** `channel.messages.fetch({ limit: 50 })`. */
    method FetchRecentMessages(ok: bool) returns (recent: Option<seq<Message>>)
      modifies this
      ensures messages == old(messages) && calls == old(calls) + [FetchRecent(SEARCH_LIMIT)]
      ensures recent == if ok then Some(Recent(messages)) else None
    {
      calls := calls + [FetchRecent(SEARCH_LIMIT)];
      recent := if ok then Some(Recent(messages)) else None;
    }

    /** `channel.send({ embeds: [statusEmbed] })`, which Discord answers with
        the new message's id, or fails. */
    method SendMessage(botId: string, title: string, newId: Option<string>) returns (id: Option<string>)
      modifies this
      ensures calls == old(calls) + [Send]
      ensures messages == if newId.Some? then Sent(old(messages), newId.value, botId, title) else old(messages)
      ensures id == newId
    {
      calls := calls + [Send];
      if newId.Some? {
        messages := Sent(messages, newId.value, botId, title);
      }
      id := newId;
    }
  }

  /** The store after `saveMessageId(id)` for the id a cycle saved, if any. */
  function AfterSave(doc: Database.Document, saved: Option<string>, readOk: bool, writeOk: bool): Database.Document {
    if saved.Some? && writeOk then Database.Loaded(doc, readOk).(lastMessageId := saved) else doc
  }

  /** The guard of the player update: online, with a player list (an empty
      list counts). */
  predicate RecordsActivity(status: ServerStatus) {
    status.online && status.players.Some? && status.players.value.list.Some?
  }

  /** The store after the guarded `updatePlayerActivity`. */
  function AfterActivity(doc: Database.Document, status: ServerStatus, now: int, readOk: bool, writeOk: bool)
    : Database.Document
  {
    if RecordsActivity(status) && writeOk then
      var loaded := Database.Loaded(doc, readOk);
      loaded.(players := Database.Upsert(loaded.players, OnlineNames(status), now))
    else doc
  }

  /** The outer `catch`: one more send, whose id is saved when it succeeds. */
  method SendFallback(store: Database.Store, channel: Channel, botId: string, title: string, fallbackId: Option<string>,
                      readOk: bool, writeOk: bool)
    modifies store, channel
    ensures var c := Fallback([], old(channel.messages), botId, title, fallbackId);
            && channel.calls == old(channel.calls) + c.calls
            && channel.messages == c.messages
            && store.Persisted() == AfterSave(old(store.Persisted()), c.saved, readOk, writeOk)
  {
    var id := channel.SendMessage(botId, title, fallbackId);
    if id.Some? {
      store.SaveMessageId(id.value, readOk, writeOk);
    }
  }

  /** The search of the 50 most recent messages, then a new message, with
      the fallback send when a call fails. */
  method SearchOrCreatePhase(store: Database.Store, channel: Channel, botId: string, marker: string, title: string,
                             o: Outcomes, readOk: bool, writeOk: bool)
    modifies store, channel
    ensures var c := SearchOrCreate(old(channel.messages), botId, marker, title, o);
            && channel.calls == old(channel.calls) + c.calls
            && channel.messages == c.messages
            && store.Persisted() == AfterSave(old(store.Persisted()), c.saved, readOk, writeOk)
  {
    var recent := channel.FetchRecentMessages(o.recentOk);
    if recent.None? {
      SendFallback(store, channel, botId, title, o.fallbackId, readOk, writeOk);
      return;
    }
    var found := FindStatusMessage(recent.value, botId, marker);
    if found.Some? {
      var done := channel.EditMessage(found.value.id, title, o.foundEditOk);
      if !done {
        SendFallback(store, channel, botId, title, o.fallbackId, readOk, writeOk);
        return;
      }
      store.SaveMessageId(found.value.id, readOk, writeOk);
      return;
    }
    var id := channel.SendMessage(botId, title, o.sendId);
    if id.None? {
      SendFallback(store, channel, botId, title, o.fallbackId, readOk, writeOk);
      return;
    }
    store.SaveMessageId(id.value, readOk, writeOk);
  }

  lemma CallsAssoc(a: seq<Call>, b: seq<Call>, c: seq<Call>)
    ensures (a + b) + c == a + (b + c)
  {
  }

  /** The KNOWN step on the stored id, then the search phase unless it
      succeeded. */
  method ReconcilePhase(store: Database.Store, channel: Channel, lastId: Option<string>, botId: string, marker: string,
                        title: string, o: Outcomes, readOk: bool, writeOk: bool)
    modifies store, channel
    ensures var c := Reconcile(old(channel.messages), lastId, botId, marker, title, o);
            && channel.calls == old(channel.calls) + c.calls
            && channel.messages == c.messages
            && store.Persisted() == AfterSave(old(store.Persisted()), c.saved, readOk, writeOk)
  {
    if lastId.Some? {
      var found := channel.FetchMessage(lastId.value, o.fetchOk);
      if found {
        var done := channel.EditMessage(lastId.value, title, o.knownEditOk);
        if done {
          return;
        }
      }
    }
    ghost var pre := KnownAttempt(old(channel.messages), lastId, o);
    assert channel.calls == old(channel.calls) + pre;
    assert channel.messages == old(channel.messages);
    SearchOrCreatePhase(store, channel, botId, marker, title, o, readOk, writeOk);
    ghost var rest := SearchOrCreate(old(channel.messages), botId, marker, title, o);
    CallsAssoc(old(channel.calls), pre, rest.calls);
  }

  /** `updateServerStatus()`: with a text channel, records the online players
      when the guard holds, renders the embed from the updated store, then
      edits the stored message, or the bot's message found by the scan, or
      sends a new one, saving that message's id; without one, does nothing.
      Returns the rendered embed. */
  method UpdateServerStatus(store: Database.Store, channel: Channel, lookup: ChannelLookup, status: ServerStatus,
                            address: string, botId: string, recentDays: int, now: int,
                            readOk: bool, writeOk: bool, o: Outcomes)
    returns (embed: Option<MessageFormatter.Embed>)
    modifies store, channel
    ensures lookup != TextChannel ==>
              && embed == None
              && store.Persisted() == old(store.Persisted())
              && channel.messages == old(channel.messages) && channel.calls == old(channel.calls)
    ensures lookup == TextChannel ==>
              var updated := AfterActivity(old(store.Persisted()), status, now, readOk, writeOk);
              var loaded := Database.Loaded(updated, readOk);
              var c := Reconcile(old(channel.messages), Database.MessageIdOf(loaded), botId, Marker(address),
                                 MessageFormatter.Title(status.ip, status.port), o);
              && embed.Some?
              && embed.value.title == MessageFormatter.Title(status.ip, status.port)
              && embed.value.fields == (if status.online
                                        then MessageFormatter.OnlineFields(status, loaded.players, recentDays, now)
                                        else [])
              && channel.calls == old(channel.calls) + c.calls
              && channel.messages == c.messages
              && store.Persisted() == AfterSave(updated, c.saved, readOk, writeOk)
  {
    if lookup != TextChannel {
      return None;
    }
    if RecordsActivity(status) {
      var _ := store.UpdatePlayerActivity(OnlineNames(status), now, readOk, writeOk);
    }
    var e := MessageFormatter.CreateStatusEmbed(status, store.Load(readOk).players, recentDays, now);
    embed := Some(e);
    var lastId := store.GetLastMessageId(readOk);
    ReconcilePhase(store, channel, lastId, botId, Marker(address), e.title, o, readOk, writeOk);
  }
}
