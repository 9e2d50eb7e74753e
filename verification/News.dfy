/**
 What becomes of a message: every new address that the database takes is passed on to all peers once,
 what it knew already is not, and what handlers, re-gossip and this node itself have to say is broadcast.
 */
module News {
  import opened Types
  import opened Registry
  import Store
  import opened PeerSystem
  import opened PeerInvariant
  import opened PeerTheorems

  // Message m was broadcast once from s to t: it is the one new entry of the log, and it waits at the end
  // of the queue of every registered peer that had fewer than 100 messages waiting, and of no other.
  ghost predicate Cast(s: Net, t: Net, m: Message) {
    && t.log == s.log + [m] && t.peers.Keys == s.peers.Keys
    && t.shared.connectedPeers == s.shared.connectedPeers
    && forall q :: q in s.peers ==>
         t.peers[q].queue == s.peers[q].queue +
           if q in s.shared.connectedPeers.Values && |s.peers[q].queue| < 100 then [m] else []
  }

  // A broadcast touches nothing of a peer but its queue.
  predicate OnlyOffered(p: Peer, q: Peer) {
    q == p.(queue := q.queue, accepted := q.accepted, missed := q.missed)
  }

  lemma BroadcastOffers(s: Net, m: Message, q: nat)
    requires q in s.peers
    ensures q in Broadcast(s, m).peers && OnlyOffered(s.peers[q], Broadcast(s, m).peers[q])
  {
  }

  lemma BroadcastCasts(s: Net, m: Message)
    ensures Cast(s, Broadcast(s, m), m)
  {
  }

  // A broadcast after some peer has changed, but not its queue.
  lemma PeerThenCast(s: Net, id: nat, p: Peer, m: Message)
    requires id in s.peers && p.queue == s.peers[id].queue
    ensures Cast(s, Broadcast(WithPeer(s, id, p), m), m)
    ensures OnlyOffered(p, Broadcast(WithPeer(s, id, p), m).peers[id])
  {
    hide Broadcast, OnlyOffered;
    BroadcastCasts(WithPeer(s, id, p), m);
    BroadcastOffers(WithPeer(s, id, p), m, id);
    assert WithPeer(s, id, p).peers.Keys == s.peers.Keys;
  }

  // ---------------------------------------------------------------- storing an address

  function StoredPayload(db: Store.Tables, k: PubKey): Option<Payload> {
    if k in db.nodes then Some(db.nodes[k].rec.payload) else None
  }

  // Does the database hold something else under the message's key, and can it take the message?
  ghost predicate IsNews(env: Env, db: Store.Tables, m: Message)
    requires env.decode(m.payload).Some?
  {
    StoredPayload(db, m.key) != Some(m.payload) && Store.Distinct(env.decode(m.payload).value.content.channels)
  }

  // The database refuses a message that names a channel twice, unless it has it already.
  ghost predicate IsStorable(env: Env, db: Store.Tables, m: Message)
    requires env.decode(m.payload).Some?
  {
    StoredPayload(db, m.key) == Some(m.payload) || IsNews(env, db, m)
  }

  /** A committed ingest of news stores under the message's key exactly what the message says, to expire
      after 30 days, and leaves every other node alone; what is no news changes nothing. */
  lemma IngestStores(env: Env, s: Net, id: nat, oid: int, carried: bool, other: PubKey)
    requires id in s.peers && s.peers[id].recv.Ingesting? && Acceptable(env, s.peers[id].recv.msg.payload, s.now)
    ensures
      var m, db' := s.peers[id].recv.msg, IngestStep(env, s, id, Committed(oid, carried)).db;
      var a := env.decode(m.payload).value;
      && (!IsNews(env, s.db, m) ==> db' == s.db)
      && (IsNews(env, s.db, m) ==>
            && m.key in db'.nodes && db'.nodes[m.key].dayc == s.db.dayc + 30
            && db'.nodes[m.key].rec == Store.Record(a.content.address, a.time, a.content.owner, m.payload, m.sig)
            && StoredPayload(db', m.key) != StoredPayload(s.db, m.key)
            && (other != m.key ==> Store.SameRow(s.db.nodes, db'.nodes, other)))
  {
    hide Ingested, Checked, Store.Apply;
    var m := s.peers[id].recv.msg;
    var chans := env.decode(m.payload).value.content.channels;
    Store.AddNodeWrites(s.db, m.key, RecordOf(env, m), chans, oid, other, 0);
    assert Store.Apply(s.db, Store.AddNode(m.key, RecordOf(env, m), chans, oid)) ==
           IngestStep(env, s, id, Committed(oid, carried)).db by {
      AppliesAddNode(s.db, m.key, RecordOf(env, m), chans, oid);
    }
  }

  lemma AppliesAddNode(t: Store.Tables, key: PubKey, rec: Store.Record, chans: seq<Chan>, oid: int)
    ensures Store.Apply(t, Store.AddNode(key, rec, chans, oid)) == Store.AfterAddNode(t, key, rec, chans, oid)
  {
  }

  // Where the receive goroutine goes after an address it could ingest.
  predicate WentOn(p: Peer, relaying: bool, q: Peer) {
    && q.recv == (if relaying || p.outbound then Relaying else WaitAnnounce)
    && q.send == (if relaying || !p.outbound then p.send else LoopHead)
  }

  // Its records and what it has written stay as they are.
  predicate SameOtherwise(p: Peer, q: Peer) {
    q == p.(recv := q.recv, send := q.send, checkedAt := q.checkedAt)
  }

  lemma AfterIngestGoes(p: Peer, relaying: bool, failed: bool)
    ensures
      var q := AfterIngest(p, relaying, failed);
      SameOtherwise(p, q) && if failed then q.recv == Closing else WentOn(p, relaying, q)
  {
  }

  lemma IngestedGoes(p: Peer, outcome: Option<Store.AddOutcome>, carried: bool)
    requires p.recv.Ingesting?
    ensures
      var q, failed := Ingested(p, outcome, carried), outcome == None || outcome == Some(Store.Rejected);
      && SameOtherwise(p, q)
      && (q.recv.PassingOn? <==> outcome == Some(Store.Changed) || carried)
      && (q.recv.PassingOn? ==> q.recv == PassingOn(p.recv.msg, p.recv.relaying, failed) && q.send == p.send)
      && (!q.recv.PassingOn? ==> if failed then q.recv == Closing else WentOn(p, p.recv.relaying, q))
  {
    hide AfterIngest;
    AfterIngestGoes(p, p.recv.relaying, outcome == None || outcome == Some(Store.Rejected));
  }

  // The peer that ingested, with its address checked first.
  lemma CheckedGoes(p: Peer, now: int, outcome: Option<Store.AddOutcome>, carried: bool)
    requires p.recv.Ingesting?
    ensures
      var q, failed := Ingested(Checked(p, now), outcome, carried), outcome == None || outcome == Some(Store.Rejected);
      && SameOtherwise(p, q)
      && (q.recv.PassingOn? <==> outcome == Some(Store.Changed) || carried)
      && (q.recv.PassingOn? ==> q.recv == PassingOn(p.recv.msg, p.recv.relaying, failed) && q.send == p.send)
      && (!q.recv.PassingOn? ==> if failed then q.recv == Closing else WentOn(p, p.recv.relaying, q))
  {
    hide Ingested;
    IngestedGoes(Checked(p, now), outcome, carried);
  }

  lemma IngestIs(env: Env, s: Net, id: nat, end: TxnEnd)
    requires id in s.peers && s.peers[id].recv.Ingesting? && Acceptable(env, s.peers[id].recv.msg.payload, s.now)
    ensures
      var p, s1 := s.peers[id], IngestStep(env, s, id, end);
      var (db, outcome) := Stored(env, s.db, p.recv.msg, end);
      s1 == s.(db := db, peers := s.peers[id := Ingested(Checked(p, s.now), outcome, end.carried)])
  {
    hide Ingested, Checked, Stored;
  }

  lemma OutcomeMeans(env: Env, db: Store.Tables, m: Message, oid: int, carried: bool)
    requires env.decode(m.payload).Some?
    ensures
      var outcome := Stored(env, db, m, Committed(oid, carried)).1;
      && (outcome == Some(Store.Changed) <==> IsNews(env, db, m))
      && (outcome == None || outcome == Some(Store.Rejected) <==> !IsStorable(env, db, m))
  {
  }

  // ---------------------------------------------------------------- passing it on

  /** A committed ingest that changes what is stored under the message's key leaves the peer about to pass
      the message on, and so does one that carries over the report of a change; no other does. Nothing is
      broadcast by the ingest itself. If there is nothing to pass on, the peer goes on, or closes if the
      database refused the message. */
  lemma IngestDecides(env: Env, s: Net, id: nat, oid: int, carried: bool)
    requires id in s.peers && s.peers[id].recv.Ingesting? && Acceptable(env, s.peers[id].recv.msg.payload, s.now)
    ensures
      var p, s1 := s.peers[id], IngestStep(env, s, id, Committed(oid, carried));
      var m, relaying := p.recv.msg, p.recv.relaying;
      && id in s1.peers && s1 == s.(db := s1.db, peers := s.peers[id := s1.peers[id]])
      && SameOtherwise(p, s1.peers[id])
      && (s1.peers[id].recv.PassingOn? <==>
            StoredPayload(s1.db, m.key) != StoredPayload(s.db, m.key) || carried)
      && (s1.peers[id].recv.PassingOn? ==>
            s1.peers[id].recv == PassingOn(m, relaying, !IsStorable(env, s.db, m)) && s1.peers[id].send == p.send)
      && (!s1.peers[id].recv.PassingOn? ==>
            if IsStorable(env, s.db, m) then WentOn(p, relaying, s1.peers[id]) else s1.peers[id].recv == Closing)
  {
    var p := s.peers[id];
    var m := p.recv.msg;
    assert env.decode(m.payload).Some?;
    hide Ingested, Checked, Stored, IngestStep, SameOtherwise, WentOn, Acceptable, IsNews, IsStorable;
    IngestStores(env, s, id, oid, carried, m.key);
    IngestIs(env, s, id, Committed(oid, carried));
    OutcomeMeans(env, s.db, m, oid, carried);
    CheckedGoes(p, s.now, Stored(env, s.db, m, Committed(oid, carried)).1, carried);
  }

  lemma CastKeepsPeers(s: Net, t: Net, m: Message)
    requires Cast(s, t, m)
    ensures t.peers.Keys == s.peers.Keys
  {
  }

  predicate SameButQueue(p: Peer, q: Peer) {
    q == p.(recv := q.recv, send := q.send, checkedAt := q.checkedAt,
            queue := q.queue, accepted := q.accepted, missed := q.missed)
  }

  lemma KeepsQueue(p: Peer, q: Peer)
    requires SameOtherwise(p, q)
    ensures q.queue == p.queue
  {
  }

  lemma OfferedGoes(p: Peer, relaying: bool, q: Peer, t: Peer)
    requires SameOtherwise(p, q) && OnlyOffered(q, t)
    ensures SameButQueue(p, t) && t.recv == q.recv && (WentOn(p, relaying, t) <==> WentOn(p, relaying, q))
  {
  }

  /** Whenever a peer is about to pass a message on, its next step broadcasts it once, and the peer goes on,
      or closes if the address could not be stored. */
  lemma PassingOnCasts(env: Env, s: Net, id: nat)
    requires id in s.peers && s.peers[id].recv.PassingOn?
    ensures
      var p, t := s.peers[id], PassOnStep(s, id);
      && Cast(s, t, p.recv.msg) && t == s.(log := t.log, peers := t.peers)
      && id in t.peers && SameButQueue(p, t.peers[id])
      && if p.recv.failed then t.peers[id].recv == Closing else WentOn(p, p.recv.relaying, t.peers[id])
  {
    hide Broadcast, AfterIngest, OnlyOffered, SameOtherwise, SameButQueue, WentOn, Cast;
    var p := s.peers[id];
    var q := AfterIngest(p, p.recv.relaying, p.recv.failed);
    AfterIngestGoes(p, p.recv.relaying, p.recv.failed);
    KeepsQueue(p, q);
    PeerThenCast(s, id, q, p.recv.msg);
    BroadcastFrame(WithPeer(s, id, q), p.recv.msg);
    CastKeepsPeers(s, PassOnStep(s, id), p.recv.msg);
    OfferedGoes(p, p.recv.relaying, q, PassOnStep(s, id).peers[id]);
  }

  lemma BroadcastFrame(s: Net, m: Message)
    ensures Broadcast(s, m) == s.(log := Broadcast(s, m).log, peers := Broadcast(s, m).peers)
  {
  }

  // A broadcast by a peer that has changed only where it stands is one by the state before.
  lemma CastAfter(s: Net, s1: Net, id: nat, t: Net, m: Message)
    requires id in s.peers && id in s1.peers && SameOtherwise(s.peers[id], s1.peers[id]) && Cast(s1, t, m)
    requires s1 == s.(db := s1.db, peers := s.peers[id := s1.peers[id]])
    ensures Cast(s, t, m) && id in t.peers
  {
    KeepsQueue(s.peers[id], s1.peers[id]);
  }

  lemma IngestsNext(env: Env, s: Net, id: nat, end: TxnEnd)
    requires id in s.peers && s.peers[id].recv.Ingesting? && (end.Committed? ==> Store.FreshOid(s.db, end.oid))
    ensures Enabled(env, s, Ingest(id, end)) && Next(env, s, Ingest(id, end)) == IngestStep(env, s, id, end)
  {
    hide IngestStep;
  }

  lemma PassesOnNext(env: Env, s: Net, id: nat)
    requires id in s.peers && s.peers[id].recv.PassingOn?
    ensures Enabled(env, s, PassOn(id)) && Next(env, s, PassOn(id)) == PassOnStep(s, id)
  {
    hide PassOnStep;
  }

  lemma WentOnAfter(p: Peer, p1: Peer, relaying: bool, q: Peer)
    requires SameOtherwise(p, p1) && p1.send == p.send
    ensures WentOn(p, relaying, q) <==> WentOn(p1, relaying, q)
  {
  }

  /** So a new address, once stored, is broadcast exactly once by the peer that brought it, in the step
      after; an address that is no news, and whose transaction carried nothing over, is not. */
  lemma NewsIsPassedOn(env: Env, s: Net, id: nat, oid: int, carried: bool)
    requires id in s.peers && s.peers[id].recv.Ingesting? && Acceptable(env, s.peers[id].recv.msg.payload, s.now)
    requires Store.FreshOid(s.db, oid)
    ensures Enabled(env, s, Ingest(id, Committed(oid, carried)))
    ensures
      var m, s1 := s.peers[id].recv.msg, Next(env, s, Ingest(id, Committed(oid, carried)));
      && s1.log == s.log && id in s1.peers
      && (IsNews(env, s.db, m) ==> StoredPayload(s1.db, m.key) == Some(m.payload))
      && (IsNews(env, s.db, m) || carried ==>
            && Enabled(env, s1, PassOn(id)) && var s2 := Next(env, s1, PassOn(id));
            && Cast(s, s2, m) && s2.db == s1.db && id in s2.peers && !s2.peers[id].recv.PassingOn?
            && (IsStorable(env, s.db, m) ==> WentOn(s.peers[id], s.peers[id].recv.relaying, s2.peers[id])))
      && (!IsNews(env, s.db, m) && !carried ==> s1.db == s.db && !s1.peers[id].recv.PassingOn?)
  {
    assert env.decode(s.peers[id].recv.msg.payload).Some?;
    hide IngestStep, PassOnStep, Acceptable, SameOtherwise, SameButQueue, Cast, WentOn, Next, Enabled;
    var p, s1 := s.peers[id], IngestStep(env, s, id, Committed(oid, carried));
    IngestsNext(env, s, id, Committed(oid, carried));
    IngestStores(env, s, id, oid, carried, p.recv.msg.key);
    IngestDecides(env, s, id, oid, carried);
    if s1.peers[id].recv.PassingOn? {
      PassesOnNext(env, s1, id);
      PassingOnCasts(env, s1, id);
      CastAfter(s, s1, id, PassOnStep(s1, id), p.recv.msg);
      WentOnAfter(p, s1.peers[id], p.recv.relaying, PassOnStep(s1, id).peers[id]);
    }
  }

  /** An address that is not acceptable is neither stored nor passed on, and its peer closes; nor is one
      whose transaction fails, unless that reports a change all the same. */
  lemma RefusedIsDropped(env: Env, s: Net, id: nat, end: TxnEnd)
    requires id in s.peers && s.peers[id].recv.Ingesting?
    ensures
      var s1 := IngestStep(env, s, id, end);
      && id in s1.peers && s1.log == s.log && s1.shared == s.shared
      && (!Acceptable(env, s.peers[id].recv.msg.payload, s.now) ==> s1.db == s.db && s1.peers[id].recv == Closing)
      && (end.Aborted? ==> s1.db == s.db)
      && (end == Aborted(false) ==> s1.peers[id].recv == Closing)
  {
    hide Ingested, Checked, SameOtherwise, WentOn;
    var p := s.peers[id];
    if Acceptable(env, p.recv.msg.payload, s.now) {
      hide IngestStep;
      IngestIs(env, s, id, end);
      CheckedGoes(p, s.now, Stored(env, s.db, p.recv.msg, end).1, end.carried);
    } else {
      AcceptableIffInRange(env, p.recv.msg.payload, s.now);
    }
  }

  // ---------------------------------------------------------------- where messages come from

  /** While it relays, a peer's [Node][Addr] message of another key is ingested next; its other messages
      do not concern it, and a failed read makes it close. Reading broadcasts and stores nothing. */
  lemma RelayedIsIngested(env: Env, s: Net, id: nat, msg: Option<Message>)
    requires id in s.peers && s.peers[id].recv == Relaying && (msg.Some? ==> env.Verified(msg.value))
    ensures Enabled(env, s, Own(id, RelayRead(msg)))
    ensures
      var t := Next(env, s, Own(id, RelayRead(msg)));
      && t == WithPeer(s, id, s.peers[id].(recv :=
           if msg.None? then Closing
           else if msg.value.channel == NodeChannel && msg.value.tag == AddrTag && msg.value.key != env.me
           then Ingesting(msg.value, true)
           else Relaying))
  {
  }

  lemma HandReads(env: Env, s: Net, id: nat, m: Message)
    requires id in s.hands && s.hands[id].recv == HandServing && env.Verified(m)
    ensures Enabled(env, s, OfHand(id, HandRead(Some(m))))
    ensures Next(env, s, OfHand(id, HandRead(Some(m)))) == WithHand(s, id, s.hands[id].(recv := HandCasting(m)))
  {
    hide Broadcast, SwapRemove;
  }

  lemma HandCastsNext(env: Env, s: Net, id: nat, m: Message)
    requires id in s.hands && s.hands[id].recv == HandServing
    ensures
      var s1 := WithHand(s, id, s.hands[id].(recv := HandCasting(m)));
      Enabled(env, s1, OfHand(id, HandCast)) && Next(env, s1, OfHand(id, HandCast)) == Broadcast(s, m)
  {
    hide Broadcast, SwapRemove;
    var s1 := WithHand(s, id, s.hands[id].(recv := HandCasting(m)));
    assert s1.hands[id].(recv := HandServing) == s.hands[id];
    assert WithHand(s1, id, s.hands[id]).hands == s.hands;
    assert WithHand(s1, id, s.hands[id]) == s;
  }

  /** A message from a protocol handler is broadcast once, and the handler goes on being served. */
  lemma HandlersMessageIsCast(env: Env, s: Net, id: nat, m: Message)
    requires id in s.hands && s.hands[id].recv == HandServing && env.Verified(m)
    ensures
      var read, cast := OfHand(id, HandRead(Some(m))), OfHand(id, HandCast);
      && Enabled(env, s, read) && var s1 := Next(env, s, read);
      && s1.log == s.log && Enabled(env, s1, cast) && var s2 := Next(env, s1, cast);
      && Cast(s, s2, m) && s2.hands == s.hands
  {
    hide Next, Enabled, Broadcast;
    HandReads(env, s, id, m);
    HandCastsNext(env, s, id, m);
    BroadcastCasts(s, m);
    BroadcastFrame(s, m);
  }

  /** An announcement picked from the database is broadcast once, as its node signed it. */
  lemma GossipIsCast(env: Env, s: Net, k: PubKey)
    requires s.gossip.None? && k in s.db.nodes
    ensures
      var rec := s.db.nodes[k].rec;
      && Enabled(env, s, PickGossip(k)) && var s1 := Next(env, s, PickGossip(k));
      && s1.log == s.log && Enabled(env, s1, SendGossip) && var s2 := Next(env, s1, SendGossip);
      && Cast(s, s2, Message(NodeChannel, AddrTag, k, rec.sig, rec.payload)) && s2.gossip == None
  {
    hide Broadcast;
    var m := GossipOf(s, k);
    BroadcastCasts(s.(gossip := Some(m)), m);
  }

  /** This node's announcement becomes the current one, for every later handshake, and is broadcast once. */
  lemma OwnAnnouncementIsCast(env: Env, s: Net, body: AddrMsg)
    requires !s.forwarding
    ensures
      var m := Message(NodeChannel, AddrTag, env.me, env.sign(env.encode(body)), env.encode(body));
      && Enabled(env, s, Announce(body)) && var s1 := Next(env, s, Announce(body));
      && s1.shared.announce == Some(m) && s1.log == s.log
      && Enabled(env, s1, ForwardAnnounce) && var s2 := Next(env, s1, ForwardAnnounce);
      Cast(s, s2, m) && s2.shared.announce == Some(m) && !s2.forwarding
  {
    hide Broadcast;
    var s1 := Next(env, s, Announce(body));
    BroadcastCasts(s1, env.Announcement(body));
    BroadcastFrame(s1, env.Announcement(body));
  }

  /** And this node is entered in its own database with the content it announces, to expire after 30 days. */
  lemma OwnNodeIsStored(env: Env, s: Net, body: AddrMsg, oid: int)
    requires Store.FreshOid(s.db, oid) && Store.Distinct(body.content.channels)
    ensures Enabled(env, s, StoreOwn(body, oid))
    ensures
      var c, t := body.content, Next(env, s, StoreOwn(body, oid));
      && env.me in t.db.nodes && StoredPayload(t.db, env.me) == Some(env.encode(body)) && t == s.(db := t.db)
      && (StoredPayload(s.db, env.me) != Some(env.encode(body)) ==>
            && t.db.nodes[env.me].dayc == s.db.dayc + 30
            && t.db.nodes[env.me].rec ==
               Store.Record(c.address, body.time, c.owner, env.encode(body), env.sign(env.encode(body))))
  {
    var op := OwnNode(env, body, oid);
    Store.AddNodeWrites(s.db, op.key, op.rec, op.chans, oid, env.me, 0);
  }

  // ---------------------------------------------------------------- nothing else is broadcast

  // What a step broadcasts.
  function CastBy(s: Net, a: Action): seq<Message> {
    match a
    case PassOn(id) => if id in s.peers && s.peers[id].recv.PassingOn? then [s.peers[id].recv.msg] else []
    case ForwardAnnounce => if s.anns != [] then [s.anns[|s.anns| - 1]] else []
    case SendGossip => if s.gossip.Some? then [s.gossip.value] else []
    case OfHand(id, HandCast) => if id in s.hands && s.hands[id].recv.HandCasting? then [s.hands[id].recv.msg] else []
    case _ => []
  }

  lemma HandCasts(env: Env, s: Net, id: nat, act: HandAct)
    requires id in s.hands && HandEnabled(env, s.hands[id], act)
    ensures HandStep(s, id, act).log == s.log + CastBy(s, OfHand(id, act))
  {
    hide SwapRemove;
  }

  lemma IngestKeepsLog(env: Env, s: Net, id: nat, end: TxnEnd)
    requires id in s.peers && s.peers[id].recv.Ingesting?
    ensures IngestStep(env, s, id, end).log == s.log
  {
    hide Ingested, Checked, Stored;
  }

  /** Every step broadcasts what it has to pass on and nothing else. */
  lemma StepCasts(env: Env, s: Net, a: Action)
    requires Enabled(env, s, a)
    ensures Next(env, s, a).log == s.log + CastBy(s, a)
  {
    hide Local, LocalEnabled, IngestStep, HandStep, HandEnabled, Tracked, Adopted, Removed, AfterIngest;
    hide Store.Apply, Store.Enabled;
    match a
    case OfHand(id, act) => HandCasts(env, s, id, act);
    case Ingest(id, end) => IngestKeepsLog(env, s, id, end);
    case _ =>
  }
}
