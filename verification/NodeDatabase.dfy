/**
 The database inside the running node: whatever the goroutines do, and in whatever order, it only ever
 changes by whole transactions of the store, so what the store guarantees over every history holds in
 every interleaving.
 */
module NodeDatabase {
  import opened Types
  import Store
  import opened PeerSystem

  // The channels an address payload carries.
  function Carried(env: Env): Payload -> seq<Chan> {
    (p: Payload) => match env.decode(p) case None => [] case Some(a) => a.content.channels
  }

  ghost predicate Sound(env: Env, t: Store.Tables) {
    Store.IndexAgrees(t, Carried(env)) && Store.InWindow(t)
  }

  lemma OpKeepsSound(env: Env, t: Store.Tables, op: Store.Op)
    requires Sound(env, t) && Store.Enabled(t, op) && Store.CarriesItsChannels(op, Carried(env))
    ensures Sound(env, Store.Apply(t, op))
  {
    Store.StepKeepsIndex(t, op, Carried(env));
    assert Store.Run(t, [op]) == Store.Apply(t, op) by {
      assert [op][1..] == [];
    }
    Store.ExpiryWindow(t, [op]);
  }

  lemma IngestKeepsSound(env: Env, s: Net, id: nat, end: TxnEnd)
    requires id in s.peers && s.peers[id].recv.Ingesting? && (end.Committed? ==> Store.FreshOid(s.db, end.oid))
    requires Sound(env, s.db)
    ensures Sound(env, IngestStep(env, s, id, end).db)
  {
    hide Ingested, Checked, Sound;
    var m := s.peers[id].recv.msg;
    if InRange(env, m.payload, s.now) && end.Committed? {
      var chans := env.decode(m.payload).value.content.channels;
      OpKeepsSound(env, s.db, Store.AddNode(m.key, RecordOf(env, m), chans, end.oid));
    }
  }

  // The announcement service stores its own node with the channels it encodes.
  lemma OwnNodeCarries(env: Env, body: AddrMsg, oid: int)
    requires env.Lawful()
    ensures Store.CarriesItsChannels(OwnNode(env, body, oid), Carried(env))
  {
    assert env.decode(env.encode(body)) == Some(body);
  }

  lemma HandFrame(env: Env, s: Net, id: nat, act: HandAct)
    requires id in s.hands && HandEnabled(env, s.hands[id], act)
    ensures HandStep(s, id, act).db == s.db
  {
  }

  // No other step touches the database.
  lemma DatabaseFrame(env: Env, s: Net, a: Action)
    requires Enabled(env, s, a) && !a.Ingest? && !a.Database? && !a.StoreOwn?
    ensures Next(env, s, a).db == s.db
  {
    hide Local, LocalEnabled, HandStep, HandEnabled, Tracked, Adopted, Removed, AfterIngest;
    hide Store.Apply, Store.Enabled;
    if a.OfHand? {
      HandFrame(env, s, a.id, a.hand);
    }
  }

  /** In every run of the node from a sound database, each live node's channel rows are those of its
      stored announcement and every expiry day is in its window. */
  lemma {:induction false} DatabaseStaysSound(env: Env, s: Net, actions: seq<Action>)
    requires env.Lawful() && Sound(env, s.db) && IsRun(env, s, actions)
    ensures Sound(env, Run(env, s, actions).db)
    decreases |actions|
  {
    hide Sound, Next, Carried;
    if actions != [] {
      var a := actions[0];
      StepKeepsSound(env, s, a);
      DatabaseStaysSound(env, Next(env, s, a), actions[1..]);
    }
  }

  lemma StepKeepsSound(env: Env, s: Net, a: Action)
    requires env.Lawful() && Sound(env, s.db) && Enabled(env, s, a)
    ensures Sound(env, Next(env, s, a).db)
  {
    hide Sound, IngestStep, HandEnabled, LocalEnabled;
    if a.Ingest? {
      IngestKeepsSound(env, s, a.id, a.end);
    } else if a.Database? {
      OpKeepsSound(env, s.db, a.op);
    } else if a.StoreOwn? {
      OwnNodeCarries(env, a.body, a.oid);
      OpKeepsSound(env, s.db, OwnNode(env, a.body, a.oid));
    } else {
      hide Next, Enabled;
      DatabaseFrame(env, s, a);
    }
  }

  // ---------------------------------------------------------------- the node's database is a store

  // The store transactions that a step commits.
  ghost function Transactions(env: Env, s: Net, a: Action): seq<Store.Op> {
    match a
    case Ingest(id, Committed(oid, _)) =>
      if id in s.peers && s.peers[id].recv.Ingesting? && InRange(env, s.peers[id].recv.msg.payload, s.now) then
        var m := s.peers[id].recv.msg;
        [Store.AddNode(m.key, RecordOf(env, m), env.decode(m.payload).value.content.channels, oid)]
      else []
    case StoreOwn(body, oid) => [OwnNode(env, body, oid)]
    case Database(op) => [op]
    case _ => []
  }

  ghost function AllTransactions(env: Env, s: Net, actions: seq<Action>): seq<Store.Op>
    requires IsRun(env, s, actions)
    decreases |actions|
  {
    if actions == [] then []
    else Transactions(env, s, actions[0]) + AllTransactions(env, Next(env, s, actions[0]), actions[1..])
  }

  lemma RunOne(t: Store.Tables, op: Store.Op)
    ensures Store.Run(t, [op]) == Store.Apply(t, op)
    ensures Store.Enabled(t, op) ==> Store.IsRun(t, [op])
  {
    assert [op][1..] == [];
  }

  lemma {:induction false} RunConcat(t: Store.Tables, a: seq<Store.Op>, b: seq<Store.Op>)
    ensures Store.Run(t, a + b) == Store.Run(Store.Run(t, a), b)
    ensures Store.IsRun(t, a) && Store.IsRun(Store.Run(t, a), b) ==> Store.IsRun(t, a + b)
    decreases |a|
  {
    if a == [] {
      assert a + b == b;
    } else {
      assert (a + b)[0] == a[0] && (a + b)[1..] == a[1..] + b;
      RunConcat(Store.Apply(t, a[0]), a[1..], b);
    }
  }

  lemma IngestCommits(env: Env, s: Net, id: nat, end: TxnEnd)
    requires id in s.peers && s.peers[id].recv.Ingesting? && (end.Committed? ==> Store.FreshOid(s.db, end.oid))
    ensures
      var ops := Transactions(env, s, Ingest(id, end));
      Store.IsRun(s.db, ops) && IngestStep(env, s, id, end).db == Store.Run(s.db, ops)
  {
    hide Ingested, Checked;
    var m := s.peers[id].recv.msg;
    if InRange(env, m.payload, s.now) && end.Committed? {
      var chans := env.decode(m.payload).value.content.channels;
      RunOne(s.db, Store.AddNode(m.key, RecordOf(env, m), chans, end.oid));
    }
  }

  lemma StepCommits(env: Env, s: Net, a: Action)
    requires Enabled(env, s, a)
    ensures
      var ops := Transactions(env, s, a);
      Store.IsRun(s.db, ops) && Next(env, s, a).db == Store.Run(s.db, ops)
  {
    hide IngestStep, HandEnabled, LocalEnabled;
    if a.Ingest? {
      IngestCommits(env, s, a.id, a.end);
    } else if a.Database? {
      RunOne(s.db, a.op);
    } else if a.StoreOwn? {
      RunOne(s.db, OwnNode(env, a.body, a.oid));
    } else {
      hide Next, Enabled;
      DatabaseFrame(env, s, a);
    }
  }

  /** Over every run of the node its database is what the store makes of the transactions committed, in the
      order in which they were, and of nothing else. So every theorem on histories of the store holds of it. */
  lemma {:induction false} DatabaseIsStore(env: Env, s: Net, actions: seq<Action>)
    requires IsRun(env, s, actions)
    ensures
      var ops := AllTransactions(env, s, actions);
      Store.IsRun(s.db, ops) && Run(env, s, actions).db == Store.Run(s.db, ops)
    decreases |actions|
  {
    hide Next, Enabled, Transactions;
    if actions != [] {
      var s1 := Next(env, s, actions[0]);
      StepCommits(env, s, actions[0]);
      DatabaseIsStore(env, s1, actions[1..]);
      RunConcat(s.db, Transactions(env, s, actions[0]), AllTransactions(env, s1, actions[1..]));
    }
  }
}
