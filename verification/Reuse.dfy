/**
 Signing announcements and reusing a stored one across restarts (loadOrGenerateAnnounce and
 generateAnnounce of internal/announce/announce.go, over the announce table of the store).
 */
module Reuse {
  import opened Types
  import Store
  import opened Announce

  // The announce module's own tests on contents, payloads and signatures.
  datatype Tests = Tests(valid: Content -> bool, longEnough: Payload -> bool, fullSig: Signature -> bool)
  {
    // The empty payload of the placeholder row is too short to be an address message.
    ghost predicate Lawful() {
      !longEnough(0)
    }
  }

  // What the startup code hands to the network service, and for how long it stands.
  datatype Startup = Startup(content: Content, msg: Option<Message>, remain: int, write: Option<Store.Op>)

  // generateAnnounce: sign the content now, store it for the next startup, and publish it for 24 hours.
  function Generate(env: Env, tests: Tests, c: Content, now: int): Startup {
    if !tests.valid(c) then Startup(c, None, LONGEVITY, None)
    else
      var m := env.Announcement(AddrMsg(c, now));
      Startup(c, Some(m), LONGEVITY, Some(Store.SetAnnounce(m.payload, m.sig, now + LONGEVITY)))
  }

  function ReEncoded(env: Env, row: Store.AnnounceRow): Message {
    Message(NodeChannel, AddrTag, env.me, row.sig, row.payload)
  }

  // The stored row, or the zero values if there is none.
  function GetAnnounce(rows: seq<Store.AnnounceRow>): Store.AnnounceRow {
    if rows == [] then Store.AnnounceRow(0, 0, 0, None) else rows[0]
  }

  // loadOrGenerateAnnounce; `channels` and `rows` are none if the database query failed.
  function LoadOrGenerate(env: Env, tests: Tests, c: Content, channels: Option<seq<Chan>>,
                          rows: Option<seq<Store.AnnounceRow>>, now: int): Startup {
    if channels.None? then Startup(c, None, LONGEVITY, None)
    else
      var c1 := c.(channels := Sort(channels.value));
      if rows.None? then Generate(env, tests, c1, now)
      else
        var row := GetAnnounce(rows.value);
        var c2 := if row.owner.Some? then c1.(owner := row.owner.value) else c1;
        if !tests.valid(c2) then Startup(c2, None, LONGEVITY, None)
        else if tests.longEnough(row.payload) && tests.fullSig(row.sig) && now < row.time
             && env.decode(row.payload).Some?
             && env.encode(AddrMsg(c2, env.decode(row.payload).value.time)) == row.payload
        then Startup(c2, Some(ReEncoded(env, row)), row.time - now, None)
        else Generate(env, tests, c2, now)
  }

  // ---------------------------------------------------------------- the stored row

  // Signed by this node at some time not in the future, and good for 24 hours from then.
  ghost predicate Genuine(env: Env, payload: Payload, sig: Signature, expires: int, now: int) {
    && env.decode(payload).Some?
    && payload == env.encode(env.decode(payload).value)
    && sig == env.sign(payload)
    && expires == env.decode(payload).value.time + 86400
    && env.decode(payload).value.time <= now
  }

  ghost predicate RowSound(env: Env, row: Store.AnnounceRow, now: int) {
    (row.payload == 0 && row.sig == 0 && row.time == 0) || Genuine(env, row.payload, row.sig, row.time, now)
  }

  // A store operation and the time it is made.
  datatype Timed = Timed(op: Store.Op, now: int)

  // The store holds only what the announcement service wrote, at the times it wrote it.
  ghost predicate Made(env: Env, tests: Tests, e: Timed) {
    e.op.SetAnnounce? ==> exists c :: Generate(env, tests, c, e.now).write == Some(e.op)
  }

  ghost function Stored(t: Store.Tables, history: seq<Timed>): Store.Tables
    decreases |history|
  {
    if history == [] then t else Stored(Store.Apply(t, history[0].op), history[1..])
  }

  ghost predicate ClockFrom(from: int, history: seq<Timed>, to: int)
    decreases |history|
  {
    if history == [] then from <= to
    else from <= history[0].now && ClockFrom(history[0].now, history[1..], to)
  }

  ghost predicate TableSound(env: Env, rows: seq<Store.AnnounceRow>, now: int) {
    |rows| <= 1 && forall i :: 0 <= i < |rows| ==> RowSound(env, rows[i], now)
  }

  lemma GeneratedIsGenuine(env: Env, tests: Tests, c: Content, now: int)
    requires env.Lawful() && tests.valid(c)
    ensures
      var w := Generate(env, tests, c, now).write;
      && w.Some? && w.value.SetAnnounce?
      && Genuine(env, w.value.payload, w.value.sig, w.value.time, now)
  {
    assert env.decode(env.encode(AddrMsg(c, now))) == Some(AddrMsg(c, now));
  }

  lemma StepKeepsSound(env: Env, tests: Tests, t: Store.Tables, e: Timed)
    requires env.Lawful() && TableSound(env, t.announce, e.now) && Made(env, tests, e)
    ensures TableSound(env, Store.Apply(t, e.op).announce, e.now)
  {
    if e.op.SetAnnounce? {
      var c :| Generate(env, tests, c, e.now).write == Some(e.op);
      GeneratedIsGenuine(env, tests, c, e.now);
    }
  }

  /** Over any history of announcements, owner changes and restarts with a clock that does not go back,
      the announce table holds at most one row, and that is the empty placeholder or an announcement
      of this node with its own signature and an expiry 24 hours after its signing. */
  lemma {:induction false} AnnounceTableSound(env: Env, tests: Tests, t: Store.Tables, history: seq<Timed>,
                                              from: int, to: int)
    requires env.Lawful() && TableSound(env, t.announce, from) && ClockFrom(from, history, to)
    requires forall i :: 0 <= i < |history| ==> Made(env, tests, history[i])
    ensures TableSound(env, Stored(t, history).announce, to)
    decreases |history|
  {
    hide Made, Genuine;
    if history != [] {
      var e := history[0];
      LaterSound(env, t.announce, from, e.now);
      StepKeepsSound(env, tests, t, e);
      assert forall i :: 0 <= i < |history[1..]| ==> history[1..][i] == history[i + 1];
      AnnounceTableSound(env, tests, Store.Apply(t, e.op), history[1..], e.now, to);
    } else {
      LaterSound(env, t.announce, from, to);
    }
  }

  lemma LaterSound(env: Env, rows: seq<Store.AnnounceRow>, from: int, to: int)
    requires TableSound(env, rows, from) && from <= to
    ensures TableSound(env, rows, to)
  {
  }

  // ---------------------------------------------------------------- startup

  // The message is this node's announcement of content c, validly signed less than 24 hours before now,
  // and `remain` is exactly what is left of those 24 hours.
  ghost predicate Current(env: Env, c: Content, m: Message, remain: int, now: int) {
    && m.IsNodeAddr() && m.key == env.me && env.Verified(m)
    && env.decode(m.payload).Some?
    && var a := env.decode(m.payload).value;
       && m == env.Announcement(a) && a.content == c
       && a.time <= now < a.time + 86400 && remain == a.time + 86400 - now
  }

  // The owner that the announce table holds, if any.
  function StoredOwner(rows: Option<seq<Store.AnnounceRow>>): Option<PubKey> {
    if rows.Some? && rows.value != [] then rows.value[0].owner else None
  }

  // What a node that starts with content c has to announce: the stored channels in order, and the stored owner.
  ghost predicate StartsWith(c: Content, channels: seq<Chan>, owner: Option<PubKey>, started: Content) {
    && started.address == c.address && started.port == c.port
    && Sorted(started.channels) && multiset(started.channels) == multiset(channels)
    && started.owner == (if owner.Some? then owner.value else c.owner)
  }

  /** A node whose channels could be read goes on with its configured address and port, the stored
      channels in order, and the stored owner if there is one. */
  lemma StartupContent(env: Env, tests: Tests, c: Content, channels: Option<seq<Chan>>,
                       rows: Option<seq<Store.AnnounceRow>>, now: int)
    ensures
      var s := LoadOrGenerate(env, tests, c, channels, rows, now);
      if channels.Some? then StartsWith(c, channels.value, StoredOwner(rows), s.content) else s.content == c
  {
    if channels.Some? {
      SortSorts(channels.value);
    }
  }

  /** What startup hands out is current, reused or newly signed, and what it signs it also stores. It hands
      out nothing exactly if the channels could not be read or the content is not valid, and then it tries
      again after 24 hours. */
  lemma StartupIsCurrent(env: Env, tests: Tests, c: Content, channels: Option<seq<Chan>>,
                         rows: Option<seq<Store.AnnounceRow>>, now: int)
    requires env.Lawful() && tests.Lawful()
    requires rows.Some? ==> TableSound(env, rows.value, now)
    ensures
      var s := LoadOrGenerate(env, tests, c, channels, rows, now);
      && (if channels.Some? then StartsWith(c, channels.value, StoredOwner(rows), s.content) else s.content == c)
      && (s.msg.Some? ==> Current(env, s.content, s.msg.value, s.remain, now))
      && (s.msg.Some? <==> channels.Some? && tests.valid(s.content))
      && (s.msg.None? ==> s.write.None? && s.remain == 86400)
      && (s.write.Some? ==> s.write.value == Store.SetAnnounce(s.msg.value.payload, s.msg.value.sig, now + 86400))
  {
    StartupContent(env, tests, c, channels, rows, now);
    var s := LoadOrGenerate(env, tests, c, channels, rows, now);
    assert env.decode(env.encode(AddrMsg(s.content, now))) == Some(AddrMsg(s.content, now));
    if rows.Some? {
      var row := GetAnnounce(rows.value);
      if env.decode(row.payload).Some? {
        var time := env.decode(row.payload).value.time;
        assert env.decode(env.encode(AddrMsg(s.content, time))) == Some(AddrMsg(s.content, time));
      }
    }
  }

  // The last owner that a history sets.
  function LastOwner(history: seq<Timed>): Option<PubKey>
    decreases |history|
  {
    if history == [] then None
    else if LastOwner(history[1..]).Some? then LastOwner(history[1..])
    else if history[0].op.SetAnnounceOwner? then Some(history[0].op.owner)
    else None
  }

  lemma {:induction false} OwnerIsRemembered(t: Store.Tables, history: seq<Timed>)
    ensures StoredOwner(Some(Stored(t, history).announce)) ==
            if LastOwner(history).Some? then LastOwner(history) else StoredOwner(Some(t.announce))
    decreases |history|
  {
    if history != [] {
      OwnerIsRemembered(Store.Apply(t, history[0].op), history[1..]);
    }
  }

  /** So a node that starts after any history on a new database publishes a current announcement, of the
      owner that was set last. */
  lemma RestartIsCurrent(env: Env, tests: Tests, c: Content, channels: Option<seq<Chan>>, day: int,
                         history: seq<Timed>, from: int, now: int)
    requires env.Lawful() && tests.Lawful() && ClockFrom(from, history, now)
    requires forall i :: 0 <= i < |history| ==> Made(env, tests, history[i])
    ensures
      var rows := Stored(Store.InitialTables(day), history).announce;
      var s := LoadOrGenerate(env, tests, c, channels, Some(rows), now);
      && (channels.Some? ==> StartsWith(c, channels.value, LastOwner(history), s.content))
      && (s.msg.Some? ==> Current(env, s.content, s.msg.value, s.remain, now))
      && (s.msg.Some? <==> channels.Some? && tests.valid(s.content))
  {
    var rows := Stored(Store.InitialTables(day), history).announce;
    AnnounceTableSound(env, tests, Store.InitialTables(day), history, from, now);
    StartupIsCurrent(env, tests, c, channels, Some(rows), now);
    OwnerIsRemembered(Store.InitialTables(day), history);
  }

  /** A stored announcement is reused exactly if it is a full one that has not expired and announces the
      content the node would announce now. */
  lemma ReusedIff(env: Env, tests: Tests, c: Content, channels: seq<Chan>, rows: seq<Store.AnnounceRow>, now: int)
    requires env.Lawful() && tests.Lawful() && TableSound(env, rows, now)
    ensures
      var s := LoadOrGenerate(env, tests, c, Some(channels), Some(rows), now);
      var row := GetAnnounce(rows);
      s.msg.Some? && s.write.None? <==>
        && tests.valid(s.content) && tests.longEnough(row.payload) && tests.fullSig(row.sig) && now < row.time
        && env.decode(row.payload) == Some(AddrMsg(s.content, row.time - 86400))
  {
    var s := LoadOrGenerate(env, tests, c, Some(channels), Some(rows), now);
    var row := GetAnnounce(rows);
    if env.decode(row.payload).Some? {
      var time := env.decode(row.payload).value.time;
      assert env.decode(env.encode(AddrMsg(s.content, time))) == Some(AddrMsg(s.content, time));
    }
  }
}
