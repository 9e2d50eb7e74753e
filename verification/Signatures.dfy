/**
 Signature integrity: what the node stores, queues, sends and passes on is validly signed, however
 it came in: from a peer, from a protocol handler, from this node's own announcements or out of the
 database for re-gossip.
 */
module Signatures {
  import opened Types
  import opened Registry
  import Store
  import opened PeerSystem
  import opened PeerInvariant
  import opened PeerSteps

  ghost predicate SignedRows(env: Env, nodes: map<PubKey, Store.Row>) {
    forall k :: k in nodes ==> k != NO_KEY && env.verify(k, nodes[k].rec.payload, nodes[k].rec.sig)
  }

  ghost predicate AllVerified(env: Env, ms: seq<Message>) {
    forall i :: 0 <= i < |ms| ==> env.Verified(ms[i])
  }

  ghost predicate Signed(env: Env, s: Net) {
    && AllVerified(env, s.log) && AllVerified(env, s.anns)
    && (s.gossip.Some? ==> env.Verified(s.gossip.value))
    && SignedRows(env, s.db.nodes)
    && (forall id :: id in s.hands && s.hands[id].recv.HandCasting? ==> env.Verified(s.hands[id].recv.msg))
  }

  lemma OpKeepsSigned(env: Env, t: Store.Tables, op: Store.Op)
    requires SignedRows(env, t.nodes)
    requires op.AddNode? ==> op.key != NO_KEY && env.verify(op.key, op.rec.payload, op.rec.sig)
    ensures SignedRows(env, Store.Apply(t, op).nodes)
  {
  }

  lemma IngestingVerified(env: Env, stopping: bool, stopped: bool, registered: bool, tracked: bool, p: Peer)
    requires ControlOk(env, stopping, stopped, registered, tracked, p)
    ensures p.recv.Ingesting? || p.recv.PassingOn? ==> env.Verified(p.recv.msg)
  {
  }

  // What a peer's receive goroutine stores and passes on is verified.
  lemma UnderWayVerified(env: Env, s: Net, id: nat)
    requires Inv(env, s) && id in s.peers
    ensures s.peers[id].recv.Ingesting? || s.peers[id].recv.PassingOn? ==> env.Verified(s.peers[id].recv.msg)
  {
    hide Inv, PeerOk, ControlOk;
    var p, v := s.peers[id], ViewOf(s);
    PeerFacts(env, s, id);
    IngestingVerified(env, s.stopping, s.stopped, id in v.registered, id in v.connections, p);
  }

  lemma CastKeepsSigned(env: Env, s: Net, m: Message)
    requires Signed(env, s) && env.Verified(m)
    ensures Signed(env, Broadcast(s, m))
  {
  }

  lemma IngestKeepsSigned(env: Env, s: Net, id: nat, end: TxnEnd)
    requires Signed(env, s) && id in s.peers && s.peers[id].recv.Ingesting? && env.Verified(s.peers[id].recv.msg)
    ensures Signed(env, IngestStep(env, s, id, end))
  {
    hide Ingested, Checked;
    var m := s.peers[id].recv.msg;
    if InRange(env, m.payload, s.now) {
      var chans := env.decode(m.payload).value.content.channels;
      if end.Committed? {
        OpKeepsSigned(env, s.db, Store.AddNode(m.key, RecordOf(env, m), chans, end.oid));
      }
    }
  }

  lemma HandKeepsSigned(env: Env, s: Net, id: nat, act: HandAct)
    requires Signed(env, s) && id in s.hands && HandEnabled(env, s.hands[id], act)
    ensures Signed(env, HandStep(s, id, act))
  {
    hide Broadcast, SwapRemove;
    var h := s.hands[id];
    if act.HandCast? {
      CastKeepsSigned(env, WithHand(s, id, h.(recv := HandServing)), h.recv.msg);
    }
  }

  // A step that leaves messages, handlers and database alone.
  lemma SameSigned(env: Env, s: Net, s': Net)
    requires Signed(env, s)
    requires s'.log == s.log && s'.anns == s.anns && s'.gossip == s.gossip && s'.db == s.db && s'.hands == s.hands
    ensures Signed(env, s')
  {
  }

  lemma PeerStepFrame(env: Env, s: Net, a: Action)
    requires Enabled(env, s, a)
    requires a.Own? || a.Dial? || a.TrackConn? || a.AdoptKey? || a.RemovePeer? || a.RequestStop? || a.Tick?
    ensures
      var s' := Next(env, s, a);
      s'.log == s.log && s'.anns == s.anns && s'.gossip == s.gossip && s'.db == s.db && s'.hands == s.hands
  {
    hide Local, LocalEnabled, Tracked, Adopted, Removed, Track, Adopt, Remove;
  }

  // This node's own announcements verify because it signs them.
  lemma OwnVerified(env: Env, body: AddrMsg)
    requires env.Lawful()
    ensures env.Verified(env.Announcement(body))
  {
  }

  lemma StepKeepsSigned(env: Env, s: Net, a: Action)
    requires env.Lawful() && Inv(env, s) && Signed(env, s) && Enabled(env, s, a)
    ensures Signed(env, Next(env, s, a))
  {
    hide PeerOk, ControlOk, Inv, Broadcast, IngestStep, HandStep, HandEnabled;
    hide Local, LocalEnabled, TrackStep, AdoptStep, RemoveStep;
    match a
    case Ingest(id, end) =>
      UnderWayVerified(env, s, id);
      IngestKeepsSigned(env, s, id, end);
    case PassOn(id) =>
      UnderWayVerified(env, s, id);
      var p := s.peers[id];
      var s1 := WithPeer(s, id, AfterIngest(p, p.recv.relaying, p.recv.failed));
      CastKeepsSigned(env, s1, p.recv.msg);
    case ForwardAnnounce =>
      CastKeepsSigned(env, s, s.anns[|s.anns| - 1]);
      SameSigned(env, Broadcast(s, s.anns[|s.anns| - 1]), Next(env, s, a));
    case SendGossip => CastKeepsSigned(env, s, s.gossip.value);
    case Database(op) => OpKeepsSigned(env, s.db, op);
    case StoreOwn(body, oid) => OpKeepsSigned(env, s.db, OwnNode(env, body, oid));
    case OfHand(id, act) => HandKeepsSigned(env, s, id, act);
    case Announce(body) => OwnVerified(env, body);
    case PickGossip(_) =>
    case AcceptHand(_) =>
    case StopAll =>
    case _ =>
      PeerStepFrame(env, s, a);
      SameSigned(env, s, Next(env, s, a));
  }

  lemma {:induction false} RunKeepsSigned(env: Env, s: Net, actions: seq<Action>)
    requires env.Lawful() && Inv(env, s) && Signed(env, s) && IsRun(env, s, actions)
    ensures Signed(env, Run(env, s, actions))
    decreases |actions|
  {
    hide Inv, Next, Enabled, Signed;
    if actions != [] {
      StepKeepsInv(env, s, actions[0]);
      StepKeepsSigned(env, s, actions[0]);
      RunKeepsSigned(env, Next(env, s, actions[0]), actions[1..]);
    }
  }

  lemma InitialSigned(env: Env, s: Net)
    requires Initial(s) && SignedRows(env, s.db.nodes)
    ensures Signed(env, s)
  {
  }

  /** In every run, every row of the node table, every broadcast, every message waiting for a peer or
      taken for it, and every announcement sent in a handshake is validly signed by the key it names. */
  lemma SignatureIntegrity(env: Env, s0: Net, actions: seq<Action>, id: nat)
    requires env.Lawful() && Initial(s0) && SignedRows(env, s0.db.nodes) && IsRun(env, s0, actions)
    ensures
      var s := Run(env, s0, actions);
      && SignedRows(env, s.db.nodes) && AllVerified(env, s.log)
      && (id in s.peers ==> AllVerified(env, Hello(s.peers[id].hello) + s.peers[id].took + s.peers[id].queue))
  {
    hide Inv, PeerOk, ControlOk, WiredOk, QueuedOk, HelloOk, Hello, AllVerified;
    InitialInv(env, s0);
    InitialSigned(env, s0);
    RunKeepsInv(env, s0, actions);
    RunKeepsSigned(env, s0, actions);
    var s := Run(env, s0, actions);
    if id in s.peers {
      PeerFacts(env, s, id);
      var p := s.peers[id];
      Parts(env, ViewOf(s), id, p);
      QueueSigned(env, p, ViewOf(s));
    }
  }

  lemma QueueSigned(env: Env, p: Peer, v: View)
    requires QueuedOk(p, v.log) && HelloOk(p, v.anns, v.castAt, v.log)
    requires AllVerified(env, v.log) && AllVerified(env, v.anns)
    ensures AllVerified(env, Hello(p.hello) + p.took + p.queue)
  {
    assert Hello(p.hello) + p.took + p.queue == Hello(p.hello) + (p.took + p.queue);
  }
}
