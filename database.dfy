/** The player presence store of src/database.ts: a document holding the
    last-seen time of every player ever observed and the id of the status
    message, the upsert of a batch of online names, the windowed
    "recently seen" query and the "N units ago" rendering.

    Timestamps are integers in milliseconds since the epoch; the current time
    is a parameter. A day is 86 400 000 ms. */
module Database {
  import opened Wrappers
  import opened Text

  const SECOND_MS := 1000
  const MINUTE_MS := 60_000
  const HOUR_MS := 3_600_000
  const DAY_MS := 86_400_000

  datatype PlayerRecord = PlayerRecord(name: string, lastSeen: int)

  /** The persisted document: `{ players, lastMessageId? }`. */
  datatype Document = Document(players: seq<PlayerRecord>, lastMessageId: Option<string>)

  /** What `loadDatabase` returns when the file cannot be read or parsed. */
  const EMPTY_DOCUMENT := Document([], None)

  // ---------------------------------------------------------------------
  // Loading and the stored message id

  /** `loadDatabase()`: the stored document, or the empty one on failure. */
  function Loaded(stored: Document, readOk: bool): (d: Document)
    ensures readOk ==> d == stored
    ensures !readOk ==> d.players == [] && d.lastMessageId == None
  {
    if readOk then stored else EMPTY_DOCUMENT
  }

  /** `db.lastMessageId || null`: an absent or empty id reads as none. */
  function MessageIdOf(d: Document): (id: Option<string>)
    ensures id.Some? <==> d.lastMessageId.Some? && d.lastMessageId.value != ""
    ensures id.Some? ==> id == d.lastMessageId
  {
    match d.lastMessageId
    case Some(s) => if s != "" then Some(s) else None
    case None => None
  }

  // ---------------------------------------------------------------------
  // Names and lookup

  function Names(players: seq<PlayerRecord>): (r: seq<string>)
    ensures |r| == |players|
    ensures forall i :: 0 <= i < |players| ==> r[i] == players[i].name
  {
    seq(|players|, i requires 0 <= i < |players| => players[i].name)
  }

  predicate Distinct(s: seq<string>) {
    forall i, j :: 0 <= i < j < |s| ==> s[i] != s[j]
  }

  /** `players.findIndex(p => p.name === name)`: the first index holding
      `name`, or -1 when there is none. */
  function FindIndex(players: seq<PlayerRecord>, name: string): (r: int)
    ensures -1 <= r < |players|
    ensures r >= 0 ==> players[r].name == name
    ensures forall j :: 0 <= j < |players| && (r < 0 || j < r) ==> players[j].name != name
    ensures r >= 0 <==> name in Names(players)
  {
    if |players| == 0 then -1
    else if players[0].name == name then 0
    else
      var k := FindIndex(players[1..], name);
      assert Names(players) == [players[0].name] + Names(players[1..]);
      if k < 0 then -1 else k + 1
  }

  /** The last-seen time of the record `findIndex` would pick. */
  function LastSeen(players: seq<PlayerRecord>, name: string): (t: Option<int>)
    ensures t.Some? <==> name in Names(players)
  {
    var i := FindIndex(players, name);
    if i >= 0 then Some(players[i].lastSeen) else None
  }

  // ---------------------------------------------------------------------
  // updatePlayerActivity

  /** One iteration of the loop: overwrite the first record with this name,
      or append a new record. */
  function UpsertOne(players: seq<PlayerRecord>, name: string, now: int): seq<PlayerRecord>
  {
    var i := FindIndex(players, name);
    if i >= 0 then players[i := players[i].(lastSeen := now)]
    else players + [PlayerRecord(name, now)]
  }

  /** The store after the loop has visited every name of `names` in order. */
  function Upsert(players: seq<PlayerRecord>, names: seq<string>, now: int): seq<PlayerRecord>
  {
    if names == [] then players
    else UpsertOne(Upsert(players, names[..|names| - 1], now), names[|names| - 1], now)
  }

  /** The names of `names` that are not in `known`, each once, in the order of
      their first occurrence. */
  function NewNames(known: seq<string>, names: seq<string>): (r: seq<string>)
    ensures forall n :: n in r <==> n in names && n !in known
    ensures Distinct(r)
  {
    if names == [] then []
    else
      var init, n := names[..|names| - 1], names[|names| - 1];
      assert names == init + [n];
      if n in known || n in init then NewNames(known, init)
      else NewNames(known, init) + [n]
  }

  /** The new names come in first-occurrence order: those of a prefix of the
      batch first, then those of the rest that neither the store nor the
      prefix holds. */
  lemma {:induction false} NewNamesAppend(known: seq<string>, a: seq<string>, b: seq<string>)
    ensures NewNames(known, a + b) == NewNames(known, a) + NewNames(known + a, b)
  {
    if b == [] {
      assert a + b == a;
    } else {
      var init, n := b[..|b| - 1], b[|b| - 1];
      assert b == init + [n];
      assert a + b == (a + init) + [n];
      NewNamesAppend(known, a, init);
      NewNamesAppendStep(known, a, init, n);
    }
  }

  lemma NewNamesAppendStep(known: seq<string>, a: seq<string>, init: seq<string>, n: string)
    requires NewNames(known, a + init) == NewNames(known, a) + NewNames(known + a, init)
    ensures NewNames(known, (a + init) + [n]) == NewNames(known, a) + NewNames(known + a, init + [n])
  {
    NewNamesSnoc(known, a + init, n);
    NewNamesSnoc(known + a, init, n);
    var head, tail := NewNames(known, a), NewNames(known + a, init);
    if n in known + a || n in init {
      assert n in known || n in a + init;
    } else {
      assert !(n in known || n in a + init);
      assert (head + tail) + [n] == head + (tail + [n]);
    }
  }

  /** One more name: appended exactly when it is new. */
  lemma NewNamesSnoc(known: seq<string>, init: seq<string>, n: string)
    ensures NewNames(known, init + [n])
            == if n in known || n in init then NewNames(known, init) else NewNames(known, init) + [n]
  {
    var names := init + [n];
    assert names[..|names| - 1] == init;
  }

  /** Fresh records for `names`, all seen at `now`. */
  function Stamped(names: seq<string>, now: int): (r: seq<PlayerRecord>)
    ensures |r| == |names|
    ensures forall k :: 0 <= k < |names| ==> r[k] == PlayerRecord(names[k], now)
  {
    seq(|names|, k requires 0 <= k < |names| => PlayerRecord(names[k], now))
  }

  /** What one record of the old store becomes: a record is overwritten when
      its name is in the batch and it is the first record with that name. */
  function Refreshed(players: seq<PlayerRecord>, i: nat, names: seq<string>, now: int): (r: PlayerRecord)
    requires i < |players|
    ensures r.name == players[i].name
  {
    if players[i].name in names && FindIndex(players, players[i].name) == i
    then players[i].(lastSeen := now) else players[i]
  }

  /** The shape of the store after an upsert of `names`: every old record
      keeps its position (and is refreshed exactly when its name was in the
      batch), and the batch's new names follow, in first-occurrence order,
      seen at `now`. */
  predicate Shaped(players: seq<PlayerRecord>, names: seq<string>, now: int, r: seq<PlayerRecord>) {
    && |r| == |players| + |NewNames(Names(players), names)|
    && (forall i :: 0 <= i < |players| ==> r[i] == Refreshed(players, i, names, now))
    && r[|players|..] == Stamped(NewNames(Names(players), names), now)
  }

  lemma {:induction false} UpsertShape(players: seq<PlayerRecord>, names: seq<string>, now: int)
    ensures Shaped(players, names, now, Upsert(players, names, now))
  {
    if names == [] {
      assert forall i :: 0 <= i < |players| ==> Refreshed(players, i, names, now) == players[i];
    } else {
      var init, n := names[..|names| - 1], names[|names| - 1];
      assert names == init + [n];
      UpsertShape(players, init, now);
      UpsertStep(players, init, n, now, Upsert(players, init, now));
    }
  }

  /** The names of a shaped store: the old names, then the new ones. */
  lemma ShapedNames(players: seq<PlayerRecord>, names: seq<string>, now: int, q: seq<PlayerRecord>)
    requires Shaped(players, names, now, q)
    ensures Names(q) == Names(players) + NewNames(Names(players), names)
  {
    var added := NewNames(Names(players), names);
    forall i | 0 <= i < |q| ensures Names(q)[i] == (Names(players) + added)[i] {
      if i >= |players| {
        assert q[i] == q[|players|..][i - |players|];
      }
    }
  }

  lemma UpsertStep(players: seq<PlayerRecord>, init: seq<string>, n: string, now: int, q: seq<PlayerRecord>)
    requires Shaped(players, init, now, q)
    ensures Shaped(players, init + [n], now, UpsertOne(q, n, now))
  {
    ShapedNames(players, init, now, q);
    var known := Names(players);
    var names := init + [n];
    assert names[..|names| - 1] == init;
    if n in known {
      StepKnown(players, init, n, now, q);
    } else if n in init {
      StepRepeated(players, init, n, now, q);
    } else {
      StepNew(players, init, n, now, q);
    }
  }

  lemma StepKnown(players: seq<PlayerRecord>, init: seq<string>, n: string, now: int, q: seq<PlayerRecord>)
    requires Shaped(players, init, now, q)
    requires Names(q) == Names(players) + NewNames(Names(players), init)
    requires n in Names(players)
    ensures Shaped(players, init + [n], now, UpsertOne(q, n, now))
  {
    var names := init + [n];
    assert names[..|names| - 1] == init;
    var jp := FindIndex(players, n);
    assert q[jp].name == n;
    assert FindIndex(q, n) == jp;
    var r := UpsertOne(q, n, now);
    assert NewNames(Names(players), names) == NewNames(Names(players), init);
    assert r[|players|..] == q[|players|..];
    forall i | 0 <= i < |players| ensures r[i] == Refreshed(players, i, names, now) {
      if i != jp {
        assert r[i] == q[i];
        if players[i].name == n {
          assert Refreshed(players, i, names, now) == players[i];
        }
      }
    }
  }

  lemma StepRepeated(players: seq<PlayerRecord>, init: seq<string>, n: string, now: int, q: seq<PlayerRecord>)
    requires Shaped(players, init, now, q)
    requires Names(q) == Names(players) + NewNames(Names(players), init)
    requires n !in Names(players) && n in init
    ensures Shaped(players, init + [n], now, UpsertOne(q, n, now))
  {
    RepeatedKeepsStore(players, init, n, now, q);
    RepeatedAddsNothing(Names(players), init, n);
    RefreshedIgnoresUnknown(players, init, n, now);
    assert forall i :: 0 <= i < |players| ==> q[i] == Refreshed(players, i, init + [n], now);
  }

  lemma RepeatedKeepsStore(players: seq<PlayerRecord>, init: seq<string>, n: string, now: int, q: seq<PlayerRecord>)
    requires Shaped(players, init, now, q)
    requires Names(q) == Names(players) + NewNames(Names(players), init)
    requires n !in Names(players) && n in init
    ensures UpsertOne(q, n, now) == q
  {
    assert forall i :: 0 <= i < |players| ==> q[i].name == players[i].name;
    forall i | |players| <= i < |q| ensures q[i].lastSeen == now {
      assert q[i] == q[|players|..][i - |players|];
    }
    assert n in Names(q);
    RepeatedIsNoop(players, n, now, q);
  }

  lemma RepeatedAddsNothing(known: seq<string>, init: seq<string>, n: string)
    requires n in init
    ensures NewNames(known, init + [n]) == NewNames(known, init)
  {
    var names := init + [n];
    assert names[..|names| - 1] == init;
  }

  lemma StepNew(players: seq<PlayerRecord>, init: seq<string>, n: string, now: int, q: seq<PlayerRecord>)
    requires Shaped(players, init, now, q)
    requires Names(q) == Names(players) + NewNames(Names(players), init)
    requires n !in Names(players) && n !in init
    ensures Shaped(players, init + [n], now, UpsertOne(q, n, now))
  {
    var names := init + [n];
    var added := NewNames(Names(players), init);
    var r := UpsertOne(q, n, now);
    assert r == q + [PlayerRecord(n, now)] by {
      assert n !in Names(q);
    }
    assert NewNames(Names(players), names) == added + [n] by {
      NewAddsName(Names(players), init, n);
    }
    assert r[|players|..] == Stamped(added + [n], now) by {
      assert r[|players|..] == q[|players|..] + [PlayerRecord(n, now)];
    }
    assert forall i :: 0 <= i < |players| ==> r[i] == Refreshed(players, i, names, now) by {
      RefreshedIgnoresUnknown(players, init, n, now);
      assert forall i :: 0 <= i < |players| ==> r[i] == q[i];
    }
  }

  lemma NewAddsName(known: seq<string>, init: seq<string>, n: string)
    requires n !in known && n !in init
    ensures NewNames(known, init + [n]) == NewNames(known, init) + [n]
  {
    var names := init + [n];
    assert names[..|names| - 1] == init;
  }

  /** A name the batch already appended is found among the appended
      records, which were all seen at `now`. */
  lemma RepeatedIsNoop(players: seq<PlayerRecord>, n: string, now: int, q: seq<PlayerRecord>)
    requires |players| <= |q|
    requires forall i :: 0 <= i < |players| ==> q[i].name == players[i].name
    requires forall i :: |players| <= i < |q| ==> q[i].lastSeen == now
    requires n !in Names(players) && n in Names(q)
    ensures UpsertOne(q, n, now) == q
  {
    var j := FindIndex(q, n);
    assert q[j := q[j].(lastSeen := now)] == q;
  }

  /** Adding a name the old store does not hold refreshes no old record. */
  lemma RefreshedIgnoresUnknown(players: seq<PlayerRecord>, init: seq<string>, n: string, now: int)
    requires n !in Names(players)
    ensures forall i :: 0 <= i < |players| ==> Refreshed(players, i, init + [n], now) == Refreshed(players, i, init, now)
  {
    forall i | 0 <= i < |players| ensures Refreshed(players, i, init + [n], now) == Refreshed(players, i, init, now) {
      assert players[i].name != n;
    }
  }

  /** After an upsert the store's names are the old names followed by the
      batch's new names. */
  lemma UpsertNames(players: seq<PlayerRecord>, names: seq<string>, now: int)
    ensures Names(Upsert(players, names, now)) == Names(players) + NewNames(Names(players), names)
  {
    UpsertShape(players, names, now);
    var r := Upsert(players, names, now);
    forall i | |players| <= i < |r|
      ensures r[i].name == NewNames(Names(players), names)[i - |players|]
    {
      assert r[i] == r[|players|..][i - |players|];
    }
  }

  /** Every name of the batch reads back as seen at `now`; every other name
      reads back as before. */
  lemma UpsertLastSeen(players: seq<PlayerRecord>, names: seq<string>, now: int)
    ensures forall n :: n in names ==> LastSeen(Upsert(players, names, now), n) == Some(now)
    ensures forall n :: n !in names ==> LastSeen(Upsert(players, names, now), n) == LastSeen(players, n)
  {
    UpsertShape(players, names, now);
    UpsertNames(players, names, now);
    var r := Upsert(players, names, now);
    var added := NewNames(Names(players), names);
    forall n | n in names ensures LastSeen(r, n) == Some(now) {
      var j := FindIndex(r, n);
      if n in Names(players) {
        var jp := FindIndex(players, n);
        assert r[jp] == Refreshed(players, jp, names, now);
        assert j == jp;
      } else {
        assert n in added;
        assert j >= |players|;
        assert r[j] == r[|players|..][j - |players|];
      }
    }
    forall n | n !in names ensures LastSeen(r, n) == LastSeen(players, n) {
      if n in Names(players) {
        var jp := FindIndex(players, n);
        assert r[jp] == Refreshed(players, jp, names, now);
        assert FindIndex(r, n) == jp;
      } else {
        assert n !in added;
        assert n !in Names(r);
      }
    }
  }

  /** Names stay unique: a name listed twice in one batch finds the record
      the first occurrence appended. */
  lemma UpsertKeepsDistinct(players: seq<PlayerRecord>, names: seq<string>, now: int)
    requires Distinct(Names(players))
    ensures Distinct(Names(Upsert(players, names, now)))
  {
    UpsertNames(players, names, now);
    var known, added := Names(players), NewNames(Names(players), names);
    var all := known + added;
    forall i, j | 0 <= i < j < |all| ensures all[i] != all[j] {
      if j >= |known| && i < |known| {
        assert all[j] == added[j - |known|];
        assert all[j] !in known;
      } else if i >= |known| {
        assert all[i] == added[i - |known|] && all[j] == added[j - |known|];
      }
    }
  }

  /** Upserting names that all already read back as seen at `now` changes
      nothing. */
  lemma {:induction false} UpsertSeenIsNoop(players: seq<PlayerRecord>, names: seq<string>, now: int)
    requires forall n :: n in names ==> LastSeen(players, n) == Some(now)
    ensures Upsert(players, names, now) == players
  {
    if names != [] {
      var init, n := names[..|names| - 1], names[|names| - 1];
      assert names == init + [n];
      assert n in names;
      UpsertSeenIsNoop(players, init, now);
      var i := FindIndex(players, n);
      assert LastSeen(players, n) == Some(now);
      assert players[i].(lastSeen := now) == players[i];
    }
  }

  /** A second identical update leaves the store as the first one left it. */
  lemma UpsertIdempotent(players: seq<PlayerRecord>, names: seq<string>, now: int)
    ensures Upsert(Upsert(players, names, now), names, now) == Upsert(players, names, now)
  {
    UpsertLastSeen(players, names, now);
    UpsertSeenIsNoop(Upsert(players, names, now), names, now);
  }

  /** The loop of `updatePlayerActivity` over an in-memory player list. */
  method UpsertAll(players: seq<PlayerRecord>, names: seq<string>, now: int)
    returns (result: seq<PlayerRecord>)
    ensures result == Upsert(players, names, now)
  {
    result := players;
    for i := 0 to |names|
      invariant result == Upsert(players, names[..i], now)
    {
      assert names[..i + 1][..i] == names[..i];
      var index := FindIndex(result, names[i]);
      if index >= 0 {
        result := result[index := result[index].(lastSeen := now)];
      } else {
        result := result + [PlayerRecord(names[i], now)];
      }
    }
    assert names[..|names|] == names;
  }

  // ---------------------------------------------------------------------
  // The persisted file

  /** The JSON file behind src/database.ts. `readOk` and `writeOk` say
      whether the file could be read and parsed, or written, by that call. */
  class Store {
    var players: seq<PlayerRecord>
    var lastMessageId: Option<string>

    /** `initDatabase` on a missing file: `{ players: [] }`. */
    constructor ()
      ensures players == [] && lastMessageId == None
    {
      players := [];
      lastMessageId := None;
    }

    function Persisted(): Document
      reads this
    {
      Document(players, lastMessageId)
    }

    /** `loadDatabase()`. */
    function Load(readOk: bool): (d: Document)
      reads this
      ensures readOk ==> d == Persisted()
      ensures !readOk ==> d == EMPTY_DOCUMENT
    {
      Loaded(Persisted(), readOk)
    }

    /** `saveDatabase(db)`: a failed write leaves the file as it was. */
    method Save(d: Document, writeOk: bool)
      modifies this
      ensures Persisted() == if writeOk then d else old(Persisted())
    {
      if writeOk {
        players := d.players;
        lastMessageId := d.lastMessageId;
      }
    }

    /** `updatePlayerActivity(names)` at time `now`: returns the document it
        built, and writes it back. */
    method UpdatePlayerActivity(names: seq<string>, now: int, readOk: bool, writeOk: bool)
      returns (d: Document)
      modifies this
      ensures d == old(Load(readOk)).(players := Upsert(old(Load(readOk)).players, names, now))
      ensures Persisted() == if writeOk then d else old(Persisted())
    {
      var db := Load(readOk);
      var updated := UpsertAll(db.players, names, now);
      d := db.(players := updated);
      Save(d, writeOk);
    }

    /** `saveMessageId(id)`. */
    method SaveMessageId(id: string, readOk: bool, writeOk: bool)
      modifies this
      ensures Persisted() == if writeOk then old(Load(readOk)).(lastMessageId := Some(id)) else old(Persisted())
      ensures writeOk ==> MessageIdOf(Persisted()) == if id == "" then None else Some(id)
    {
      var db := Load(readOk);
      Save(db.(lastMessageId := Some(id)), writeOk);
    }

    /** `getLastMessageId()`. */
    method GetLastMessageId(readOk: bool) returns (id: Option<string>)
      ensures id == MessageIdOf(Load(readOk))
      ensures !readOk ==> id == None
      ensures readOk && lastMessageId.Some? && lastMessageId.value != "" ==> id == lastMessageId
    {
      var db := Load(readOk);
      id := MessageIdOf(db);
    }
  }

  // ---------------------------------------------------------------------
  // getRecentlySeenPlayers

  /** `dayjs(t).unix()`: whole seconds, rounded down. */
  function UnixSeconds(t: int): int {
    t / SECOND_MS
  }

  /** The start of the retention window, `now.subtract(daysToKeep, "day")`. */
  function Cutoff(now: int, daysToKeep: int): int {
    now - daysToKeep * DAY_MS
  }

  /** The filter of `getRecentlySeenPlayers`: offline now, and seen strictly
      after the cutoff. */
  predicate IsRecent(p: PlayerRecord, onlinePlayers: seq<string>, cutoff: int) {
    p.name !in onlinePlayers && p.lastSeen > cutoff
  }

  /** `players.filter(...)`, in store order. */
  function FilterRecent(players: seq<PlayerRecord>, onlinePlayers: seq<string>, cutoff: int)
    : (r: seq<PlayerRecord>)
    ensures forall p :: p in r <==> p in players && IsRecent(p, onlinePlayers, cutoff)
    ensures |r| <= |players|
  {
    if players == [] then []
    else
      var rest := FilterRecent(players[1..], onlinePlayers, cutoff);
      assert players == [players[0]] + players[1..];
      if IsRecent(players[0], onlinePlayers, cutoff) then [players[0]] + rest else rest
  }

  /** The filter keeps store order: filtering a concatenation filters each
      part in turn. */
  lemma {:induction false} FilterRecentAppend(a: seq<PlayerRecord>, b: seq<PlayerRecord>, onlinePlayers: seq<string>,
                                              cutoff: int)
    ensures FilterRecent(a + b, onlinePlayers, cutoff)
            == FilterRecent(a, onlinePlayers, cutoff) + FilterRecent(b, onlinePlayers, cutoff)
  {
    if a == [] {
      assert a + b == b;
    } else {
      assert (a + b)[1..] == a[1..] + b && (a + b)[0] == a[0];
      FilterRecentAppend(a[1..], b, onlinePlayers, cutoff);
    }
  }

  /** The records of `s` whose last-seen time falls in whole second `k`, in
      their order in `s`. */
  function InSecond(s: seq<PlayerRecord>, k: int): seq<PlayerRecord> {
    if s == [] then []
    else (if UnixSeconds(s[0].lastSeen) == k then [s[0]] else []) + InSecond(s[1..], k)
  }

  /** Newest first, comparing whole seconds. */
  predicate NewestFirst(s: seq<PlayerRecord>) {
    forall i, j :: 0 <= i < j < |s| ==> UnixSeconds(s[i].lastSeen) >= UnixSeconds(s[j].lastSeen)
  }

  /** Insert `x`, which came before every record of `s` in the input, ahead
      of the first record that is not strictly newer than it. */
  function Insert(x: PlayerRecord, s: seq<PlayerRecord>): (r: seq<PlayerRecord>)
    requires NewestFirst(s)
    ensures NewestFirst(r)
    ensures multiset(r) == multiset(s) + multiset{x}
    ensures forall k :: InSecond(r, k) == (if UnixSeconds(x.lastSeen) == k then [x] else []) + InSecond(s, k)
  {
    if s == [] || UnixSeconds(s[0].lastSeen) <= UnixSeconds(x.lastSeen) then
      InSecondCons(x, s);
      [x] + s
    else
      var rest := Insert(x, s[1..]);
      InsertBehind(x, s, rest);
      [s[0]] + rest
  }

  /** The records of one second in `[x] + s`: `x` if it falls in it, then
      those of `s`. */
  lemma InSecondCons(x: PlayerRecord, s: seq<PlayerRecord>)
    ensures forall k :: InSecond([x] + s, k) == (if UnixSeconds(x.lastSeen) == k then [x] else []) + InSecond(s, k)
  {
    forall k ensures InSecond([x] + s, k) == (if UnixSeconds(x.lastSeen) == k then [x] else []) + InSecond(s, k) {
      assert ([x] + s)[1..] == s;
    }
  }

  /** `x` is strictly older than the head of `s`, so it goes behind it. */
  lemma InsertBehind(x: PlayerRecord, s: seq<PlayerRecord>, rest: seq<PlayerRecord>)
    requires NewestFirst(s) && s != [] && UnixSeconds(s[0].lastSeen) > UnixSeconds(x.lastSeen)
    requires NewestFirst(rest)
    requires multiset(rest) == multiset(s[1..]) + multiset{x}
    requires forall k :: InSecond(rest, k) == (if UnixSeconds(x.lastSeen) == k then [x] else []) + InSecond(s[1..], k)
    ensures NewestFirst([s[0]] + rest)
    ensures multiset([s[0]] + rest) == multiset(s) + multiset{x}
    ensures forall k :: InSecond([s[0]] + rest, k) == (if UnixSeconds(x.lastSeen) == k then [x] else []) + InSecond(s, k)
  {
    assert s == [s[0]] + s[1..];
    BehindSorted(x, s, rest);
    forall k ensures InSecond([s[0]] + rest, k) == (if UnixSeconds(x.lastSeen) == k then [x] else []) + InSecond(s, k) {
      BehindSecond(x, s, rest, k);
    }
  }

  lemma BehindSorted(x: PlayerRecord, s: seq<PlayerRecord>, rest: seq<PlayerRecord>)
    requires NewestFirst(s) && s != [] && UnixSeconds(s[0].lastSeen) > UnixSeconds(x.lastSeen)
    requires NewestFirst(rest)
    requires multiset(rest) == multiset(s[1..]) + multiset{x}
    ensures NewestFirst([s[0]] + rest)
  {
    var r := [s[0]] + rest;
    forall j | 0 < j < |r| ensures UnixSeconds(s[0].lastSeen) >= UnixSeconds(r[j].lastSeen) {
      assert r[j] == rest[j - 1];
      assert r[j] in multiset(rest);
      if r[j] != x {
        assert r[j] in multiset(s[1..]);
        var m :| 0 <= m < |s[1..]| && s[1..][m] == r[j];
        assert s[m + 1] == r[j];
      }
    }
    forall i, j | 0 < i < j < |r| ensures UnixSeconds(r[i].lastSeen) >= UnixSeconds(r[j].lastSeen) {
      assert r[i] == rest[i - 1] && r[j] == rest[j - 1];
    }
  }

  lemma BehindSecond(x: PlayerRecord, s: seq<PlayerRecord>, rest: seq<PlayerRecord>, k: int)
    requires s != [] && UnixSeconds(s[0].lastSeen) > UnixSeconds(x.lastSeen)
    requires InSecond(rest, k) == (if UnixSeconds(x.lastSeen) == k then [x] else []) + InSecond(s[1..], k)
    ensures InSecond([s[0]] + rest, k) == (if UnixSeconds(x.lastSeen) == k then [x] else []) + InSecond(s, k)
  {
    assert s == [s[0]] + s[1..];
    InSecondCons(s[0], rest);
    InSecondCons(s[0], s[1..]);
    var tail := InSecond(s[1..], k);
    if UnixSeconds(x.lastSeen) == k {
      assert InSecond([s[0]] + rest, k) == [x] + tail;
      assert InSecond(s, k) == tail;
    } else if UnixSeconds(s[0].lastSeen) == k {
      assert InSecond([s[0]] + rest, k) == [s[0]] + tail;
      assert InSecond(s, k) == [s[0]] + tail;
    } else {
      assert InSecond([s[0]] + rest, k) == tail;
      assert InSecond(s, k) == tail;
    }
  }

  /** `sort((a, b) => dayjs(b.lastSeen).unix() - dayjs(a.lastSeen).unix())`,
      a stable sort, newest first. */
  function SortNewestFirst(s: seq<PlayerRecord>): (r: seq<PlayerRecord>)
    ensures NewestFirst(r)
    ensures multiset(r) == multiset(s)
    ensures forall k :: InSecond(r, k) == InSecond(s, k)
  {
    if s == [] then []
    else
      assert s == [s[0]] + s[1..];
      Insert(s[0], SortNewestFirst(s[1..]))
  }

  /** `getRecentlySeenPlayers(onlinePlayers, daysToKeep)` at time `now`. */
  function RecentlySeen(players: seq<PlayerRecord>, onlinePlayers: seq<string>, daysToKeep: int, now: int)
    : seq<PlayerRecord>
  {
    SortNewestFirst(FilterRecent(players, onlinePlayers, Cutoff(now, daysToKeep)))
  }

  /** The query returns exactly the offline records seen after the cutoff,
      newest first, and records seen in the same second keep store order. */
  lemma RecentlySeenSpec(players: seq<PlayerRecord>, onlinePlayers: seq<string>, daysToKeep: int, now: int)
    ensures var r := RecentlySeen(players, onlinePlayers, daysToKeep, now);
            && (forall p :: p in r <==> (p in players && p.name !in onlinePlayers
                                        && p.lastSeen > now - daysToKeep * DAY_MS))
            && multiset(r) == multiset(FilterRecent(players, onlinePlayers, Cutoff(now, daysToKeep)))
            && NewestFirst(r)
            && forall k :: InSecond(r, k) == InSecond(FilterRecent(players, onlinePlayers, Cutoff(now, daysToKeep)), k)
  {
    var f := FilterRecent(players, onlinePlayers, Cutoff(now, daysToKeep));
    var r := SortNewestFirst(f);
    forall p ensures p in r <==> p in f {
      assert p in r <==> p in multiset(r);
    }
  }

  // ---------------------------------------------------------------------
  // formatLastSeen

  /** `dayjs` `diff` in a unit: the elapsed milliseconds divided by the unit,
      truncated toward zero. */
  function TruncDiv(a: int, unit: int): (q: int)
    requires unit > 0
    ensures a >= 0 ==> q >= 0 && q * unit <= a < q * unit + unit
    ensures a < 0 ==> q <= 0 && q * unit - unit < a <= q * unit
  {
    if a >= 0 then
      DivBounds(a, unit);
      a / unit
    else
      DivBounds(-a, unit);
      var q := (-a) / unit;
      assert (-q) * unit == -(q * unit);
      -q
  }

  lemma DivBounds(a: int, unit: int)
    requires a >= 0 && unit > 0
    ensures 0 <= a / unit && (a / unit) * unit <= a < (a / unit) * unit + unit
  {
  }

  /** "N unit ago", with the unit plural unless N is exactly 1. */
  function Ago(count: int, unit: string): string {
    IntToString(count) + " " + unit + (if count != 1 then "s" else "") + " ago"
  }

  /** `formatLastSeen(lastSeen)` at time `now`. */
  function FormatLastSeen(lastSeen: int, now: int): string {
    var minutes := TruncDiv(now - lastSeen, MINUTE_MS);
    if minutes < 60 then Ago(minutes, "minute")
    else
      var hours := TruncDiv(now - lastSeen, HOUR_MS);
      if hours < 24 then Ago(hours, "hour")
      else Ago(TruncDiv(now - lastSeen, DAY_MS), "day")
  }

  /** The bucket is chosen by the elapsed time: under an hour in whole
      minutes, under a day in whole hours, otherwise in whole days. */
  lemma FormatLastSeenBuckets(lastSeen: int, now: int)
    ensures var e := now - lastSeen;
            && (e < HOUR_MS ==> FormatLastSeen(lastSeen, now) == Ago(TruncDiv(e, MINUTE_MS), "minute"))
            && (HOUR_MS <= e < DAY_MS ==>
                  FormatLastSeen(lastSeen, now) == Ago(e / HOUR_MS, "hour") && 1 <= e / HOUR_MS < 24)
            && (DAY_MS <= e ==> FormatLastSeen(lastSeen, now) == Ago(e / DAY_MS, "day") && 1 <= e / DAY_MS)
  {
    var e := now - lastSeen;
    if e >= HOUR_MS {
      assert TruncDiv(e, MINUTE_MS) >= 60;
      if e >= DAY_MS {
        assert TruncDiv(e, HOUR_MS) >= 24;
      }
    }
  }

  /** The count reads back from the text, and the unit is plural exactly
      when the count is not 1. */
  lemma AgoReadsBack(count: nat, unit: string)
    ensures var s := NatToString(count);
            && Ago(count, unit)[..|s|] == s && ParseDecimal(s) == Some(count)
            && Ago(count, unit)[|s|..] == " " + unit + (if count == 1 then "" else "s") + " ago"
  {
    ParseNatToString(count);
  }
}
