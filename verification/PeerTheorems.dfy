/**
 What the peer system guarantees in every reachable state, whatever the interleaving.
 */
module PeerTheorems {
  import opened Types
  import opened Registry
  import Store
  import opened PeerSystem
  import opened PeerInvariant
  import opened PeerSteps

  // ---------------------------------------------------------------- runs and reachable states

  lemma {:induction false} RunSnoc(env: Env, s: Net, actions: seq<Action>, a: Action)
    requires IsRun(env, s, actions) && Enabled(env, Run(env, s, actions), a)
    ensures IsRun(env, s, actions + [a]) && Run(env, s, actions + [a]) == Next(env, Run(env, s, actions), a)
    decreases |actions|
  {
    hide Enabled, Next;
    if actions == [] {
      assert [] + [a] == [a] && [a][1..] == [];
    } else {
      assert (actions + [a])[0] == actions[0] && (actions + [a])[1..] == actions[1..] + [a];
      RunSnoc(env, Next(env, s, actions[0]), actions[1..], a);
    }
  }

  // Some run goes from s to t.
  ghost predicate Leads(env: Env, s: Net, t: Net) {
    exists actions :: IsRun(env, s, actions) && Run(env, s, actions) == t
  }

  lemma StandsStill(env: Env, s: Net)
    ensures Leads(env, s, s)
  {
    assert IsRun(env, s, []) && Run(env, s, []) == s;
  }

  lemma GoesOn(env: Env, s: Net, t: Net, a: Action)
    requires Leads(env, s, t) && Enabled(env, t, a)
    ensures Leads(env, s, Next(env, t, a))
  {
    hide Enabled, Next;
    var actions :| IsRun(env, s, actions) && Run(env, s, actions) == t;
    RunSnoc(env, s, actions, a);
  }

  lemma {:induction false} RunConcat(env: Env, s: Net, a: seq<Action>, b: seq<Action>)
    requires IsRun(env, s, a) && IsRun(env, Run(env, s, a), b)
    ensures IsRun(env, s, a + b) && Run(env, s, a + b) == Run(env, Run(env, s, a), b)
    decreases |a|
  {
    hide Enabled, Next;
    if a == [] {
      assert a + b == b;
    } else {
      assert (a + b)[0] == a[0] && (a + b)[1..] == a[1..] + b;
      RunConcat(env, Next(env, s, a[0]), a[1..], b);
    }
  }

  lemma LeadsOn(env: Env, s: Net, t: Net, u: Net)
    requires Leads(env, s, t) && Leads(env, t, u)
    ensures Leads(env, s, u)
  {
    var a :| IsRun(env, s, a) && Run(env, s, a) == t;
    var b :| IsRun(env, t, b) && Run(env, t, b) == u;
    RunConcat(env, s, a, b);
  }

  ghost predicate Reachable(env: Env, s: Net) {
    exists s0 :: Initial(s0) && Leads(env, s0, s)
  }

  lemma ReachableInv(env: Env, s: Net)
    requires Reachable(env, s)
    ensures Inv(env, s)
  {
    hide Inv;
    var s0 :| Initial(s0) && Leads(env, s0, s);
    var actions :| IsRun(env, s0, actions) && Run(env, s0, actions) == s;
    InitialInv(env, s0);
    RunKeepsInv(env, s0, actions);
  }

  lemma StaysReachable(env: Env, s: Net, t: Net)
    requires Reachable(env, s) && Leads(env, s, t)
    ensures Reachable(env, t)
  {
    hide Leads;
    var s0 :| Initial(s0) && Leads(env, s0, s);
    LeadsOn(env, s0, s, t);
  }

  // ---------------------------------------------------------------- registry

  /** A registered peer sits under its own final key and under no other, and is not closed. */
  lemma RegistryUniqueness(env: Env, s: Net, k: PubKey)
    requires Reachable(env, s) && k in s.shared.connectedPeers
    ensures
      var id := s.shared.connectedPeers[k];
      && id in s.peers && s.peers[id].peerPub == k && !s.peers[id].closed
      && forall l :: HoldsKey(s.shared.connectedPeers, l, id) ==> l == k
  {
    hide PeerOk, ControlOk, Reachable;
    ReachableInv(env, s);
    var id := s.shared.connectedPeers[k];
    PeerFacts(env, s, id);
    ControlRegistered(env, s.stopping, s.stopped, id in ViewOf(s).registered, id in ViewOf(s).connections, s.peers[id]);
    assert id in ViewOf(s).registered;
  }

  lemma HandRegistry(env: Env, s: Net, id: nat, act: HandAct)
    requires id in s.hands && HandEnabled(env, s.hands[id], act)
    ensures HandStep(s, id, act).shared.connectedPeers == s.shared.connectedPeers
  {
    hide SwapRemove;
  }

  // Only trackPeer, adoptPeer and closePeer touch the registry.
  lemma RegistryFrame(env: Env, s: Net, a: Action)
    requires Enabled(env, s, a) && !a.TrackConn? && !a.AdoptKey? && !a.RemovePeer?
    ensures Next(env, s, a).shared.connectedPeers == s.shared.connectedPeers
  {
    hide Local, LocalEnabled, Stored, Ingested, InRange, AfterIngest, HandStep, HandEnabled, Store.Apply, Store.Enabled;
    if a.OfHand? {
      HandRegistry(env, s, a.id, a.hand);
    }
  }

  /** No step replaces an entry of the registry, and one disappears only when its own peer closes. */
  lemma NeverEvicted(env: Env, s: Net, a: Action, k: PubKey)
    requires Enabled(env, s, a) && k in s.shared.connectedPeers
    ensures
      var before, after := s.shared.connectedPeers, Next(env, s, a).shared.connectedPeers;
      HoldsKey(after, k, before[k]) || (k !in after && a.RemovePeer? && a.id == before[k])
  {
    if a.TrackConn? || a.AdoptKey? || a.RemovePeer? {
      hide Tracked, Adopted, Removed, SwapRemove;
    } else {
      hide Enabled, Next;
      RegistryFrame(env, s, a);
    }
  }

  lemma ClosedFacts(env: Env, stopping: bool, stopped: bool, registered: bool, tracked: bool, p: Peer)
    requires ControlOk(env, stopping, stopped, registered, tracked, p) && p.closed
    ensures !registered && !p.open && p.recv != Dialed && !p.recv.Adopting?
  {
  }

  // No step reopens a connection or undoes a close.
  predicate Later(p: Peer, p': Peer) {
    (p.closed ==> p'.closed) && (!p.open ==> !p'.open)
  }

  lemma LocalLater(env: Env, s: Net, p: Peer, act: LocalAct)
    requires LocalEnabled(env, s.stopping, p, act)
    ensures Later(p, Local(env, s, p, act))
  {
  }

  lemma PeerLater(env: Env, p: Peer, at: nat, ok: bool)
    ensures Later(p, Tracked(p, ok, at)) && Later(p, Removed(p, ok, at))
    ensures p.recv.Adopting? ==> Later(p, Adopted(env, p, ok, at))
  {
  }

  lemma IngestLater(p: Peer, now: int, outcome: Option<Store.AddOutcome>, carried: bool)
    requires p.recv.Ingesting?
    ensures Later(p, Ingested(Checked(p, now), outcome, carried)) && Later(p, p.(recv := Closing))
  {
  }

  lemma WithPeerLater(s: Net, i: nat, p': Peer, id: nat)
    requires i in s.peers && id in s.peers && Later(s.peers[i], p')
    ensures id in WithPeer(s, i, p').peers && Later(s.peers[id], WithPeer(s, i, p').peers[id])
  {
  }

  lemma TrackLater(env: Env, s: Net, i: nat, id: nat)
    requires i in s.peers && id in s.peers
    ensures id in TrackStep(s, i).peers && Later(s.peers[id], TrackStep(s, i).peers[id])
  {
    hide Tracked, Track, Later, WithPeer;
    var p, ok := s.peers[i], Track(s.shared, i, i, s.peers[i].wanted, s.stopping).1;
    PeerLater(env, p, |s.log|, ok);
    WithPeerLater(s, i, Tracked(p, ok, |s.log|), id);
  }

  lemma AdoptLater(env: Env, s: Net, i: nat, id: nat)
    requires i in s.peers && s.peers[i].recv.Adopting? && id in s.peers
    ensures id in AdoptStep(env, s, i).peers && Later(s.peers[id], AdoptStep(env, s, i).peers[id])
  {
    hide Adopted, Adopt, Later, WithPeer;
    var p, ok := s.peers[i], Adopt(s.shared, i, s.peers[i].peerPub).1;
    PeerLater(env, p, |s.log|, ok);
    WithPeerLater(s, i, Adopted(env, p, ok, |s.log|), id);
  }

  lemma RemoveLater(env: Env, s: Net, i: nat, sender: bool, id: nat)
    requires i in s.peers && id in s.peers
    ensures id in RemoveStep(s, i, sender).peers && Later(s.peers[id], RemoveStep(s, i, sender).peers[id])
  {
    hide Removed, Remove, Later, WithPeer;
    PeerLater(env, s.peers[i], |s.log|, sender);
    WithPeerLater(s, i, Removed(s.peers[i], sender, |s.log|), id);
  }

  lemma IngestStepLater(env: Env, s: Net, i: nat, end: TxnEnd, id: nat)
    requires i in s.peers && s.peers[i].recv.Ingesting? && id in s.peers
    ensures id in IngestStep(env, s, i, end).peers && Later(s.peers[id], IngestStep(env, s, i, end).peers[id])
  {
    hide Ingested, Checked, Stored, Later, WithPeer;
    var p := s.peers[i];
    IngestLater(p, s.now, None, false);
    if !InRange(env, p.recv.msg.payload, s.now) {
      WithPeerLater(s, i, p.(recv := Closing), id);
    } else {
      var outcome := Stored(env, s.db, p.recv.msg, end).1;
      CheckedKeepsRecv(p, s.now);
      IngestLater(p, s.now, outcome, end.carried);
      WithPeerLater(s, i, Ingested(Checked(p, s.now), outcome, end.carried), id);
    }
  }

  lemma CheckedKeepsRecv(p: Peer, now: int)
    requires p.recv.Ingesting?
    ensures Checked(p, now).recv == p.recv
  {
  }

  lemma HandLater(env: Env, s: Net, i: nat, act: HandAct, id: nat)
    requires i in s.hands && HandEnabled(env, s.hands[i], act) && id in s.peers
    ensures id in HandStep(s, i, act).peers && Later(s.peers[id], HandStep(s, i, act).peers[id])
  {
    hide Broadcast, SwapRemove;
    if act.HandCast? {
      BroadcastLater(WithHand(s, i, s.hands[i].(recv := HandServing)), s.hands[i].recv.msg);
    }
  }

  lemma PassOnLater(s: Net, i: nat, id: nat)
    requires i in s.peers && s.peers[i].recv.PassingOn? && id in s.peers
    ensures id in PassOnStep(s, i).peers && Later(s.peers[id], PassOnStep(s, i).peers[id])
  {
    hide Broadcast, AfterIngest;
    var p := s.peers[i];
    ProceedLater(p, p.recv.relaying, p.recv.failed);
    BroadcastLater(WithPeer(s, i, AfterIngest(p, p.recv.relaying, p.recv.failed)), p.recv.msg);
  }

  lemma BroadcastLater(s: Net, m: Message)
    ensures forall id :: id in s.peers ==> id in Broadcast(s, m).peers && Later(s.peers[id], Broadcast(s, m).peers[id])
  {
  }

  predicate OfOnePeer(a: Action) {
    a.Own? || a.Ingest? || a.TrackConn? || a.AdoptKey? || a.RemovePeer?
  }

  lemma OnePeerLater(env: Env, s: Net, a: Action, id: nat)
    requires Enabled(env, s, a) && id in s.peers && OfOnePeer(a)
    ensures id in Next(env, s, a).peers && Later(s.peers[id], Next(env, s, a).peers[id])
  {
    hide Local, LocalEnabled, TrackStep, AdoptStep, RemoveStep, IngestStep, Later, WithPeer;
    match a
    case Own(i, act) =>
      LocalLater(env, s, s.peers[i], act);
      WithPeerLater(s, i, Local(env, s, s.peers[i], act), id);
    case Ingest(i, end) => IngestStepLater(env, s, i, end, id);
    case TrackConn(i) => TrackLater(env, s, i, id);
    case AdoptKey(i) => AdoptLater(env, s, i, id);
    case RemovePeer(i, sender) => RemoveLater(env, s, i, sender, id);
  }

  lemma OthersLater(env: Env, s: Net, a: Action, id: nat)
    requires Enabled(env, s, a) && id in s.peers && !OfOnePeer(a)
    ensures id in Next(env, s, a).peers && Later(s.peers[id], Next(env, s, a).peers[id])
  {
    hide Broadcast, PassOnStep, HandStep, HandEnabled, Later;
    LaterSame(s.peers[id], id !in s.shared.connections);
    match a
    case PassOn(i) => PassOnLater(s, i, id);
    case ForwardAnnounce => BroadcastLater(s, s.anns[|s.anns| - 1]);
    case SendGossip => BroadcastLater(s, s.gossip.value);
    case OfHand(i, act) => HandLater(env, s, i, act, id);
    case _ =>
  }

  lemma StepLater(env: Env, s: Net, a: Action, id: nat)
    requires Enabled(env, s, a) && id in s.peers
    ensures id in Next(env, s, a).peers && Later(s.peers[id], Next(env, s, a).peers[id])
  {
    hide Enabled, Next, Later;
    if OfOnePeer(a) {
      OnePeerLater(env, s, a, id);
    } else {
      OthersLater(env, s, a, id);
    }
  }

  lemma LaterSame(p: Peer, keepOpen: bool)
    ensures Later(p, p) && Later(p, p.(open := p.open && keepOpen))
  {
  }

  lemma ProceedLater(p: Peer, relaying: bool, failed: bool)
    ensures Later(p, AfterIngest(p, relaying, failed))
  {
  }

  lemma ClosedIsOut(env: Env, s: Net, id: nat)
    requires Inv(env, s) && id in s.peers && s.peers[id].closed
    ensures id !in s.shared.connectedPeers.Values
  {
    hide Inv, PeerOk, ControlOk;
    PeerFacts(env, s, id);
    ClosedFacts(env, s.stopping, s.stopped, id in ViewOf(s).registered, id in ViewOf(s).connections, s.peers[id]);
  }

  /** A closed peer is in no entry of the registry and, whatever steps follow, never will be again. */
  lemma {:induction false} ClosedPeerStaysOut(env: Env, s: Net, actions: seq<Action>, id: nat)
    requires Inv(env, s) && IsRun(env, s, actions) && id in s.peers && s.peers[id].closed
    ensures
      var t := Run(env, s, actions);
      id in t.peers && t.peers[id].closed && id !in t.shared.connectedPeers.Values
    decreases |actions|
  {
    hide Inv, Next, Enabled;
    if actions == [] {
      ClosedIsOut(env, s, id);
    } else {
      StepKeepsInv(env, s, actions[0]);
      StepLater(env, s, actions[0], id);
      ClosedPeerStaysOut(env, Next(env, s, actions[0]), actions[1..], id);
    }
  }

  /** So over every run an entry of the registry stays as it is until its own peer closes. */
  lemma {:induction false} EntryStays(env: Env, s: Net, actions: seq<Action>, k: PubKey)
    requires IsRun(env, s, actions) && k in s.shared.connectedPeers
    requires forall i :: 0 <= i < |actions| && actions[i].RemovePeer? ==> actions[i].id != s.shared.connectedPeers[k]
    ensures HoldsKey(Run(env, s, actions).shared.connectedPeers, k, s.shared.connectedPeers[k])
    decreases |actions|
  {
    hide Next, Enabled;
    if actions != [] {
      NeverEvicted(env, s, actions[0], k);
      assert forall i :: 0 <= i < |actions[1..]| ==> actions[1..][i] == actions[i + 1];
      EntryStays(env, Next(env, s, actions[0]), actions[1..], k);
    }
  }

  // ---------------------------------------------------------------- handshake

  // An address that decodes, is public unless local ones are allowed, and is neither more than 30 days
  // old nor more than 5 minutes ahead.
  predicate Acceptable(env: Env, payload: Payload, now: int) {
    && env.decode(payload).Some?
    && var a := env.decode(payload).value;
       && (env.isPublic(a.content.address) || env.allowLocal)
       && -2592000 <= a.time - now <= 300
  }

  lemma AcceptableIffInRange(env: Env, payload: Payload, now: int)
    ensures InRange(env, payload, now) <==> Acceptable(env, payload, now)
  {
  }

  lemma GateFacts(env: Env, stopping: bool, stopped: bool, registered: bool, tracked: bool, p: Peer)
    requires ControlOk(env, stopping, stopped, registered, tracked, p) && (p.recv == Relaying || p.send != NotStarted)
    ensures p.first.Some?
    ensures
      var m := p.first.value;
      && m.IsNodeAddr() && env.Verified(m) && m.key != env.me && (p.hasPub ==> m.key == p.wanted)
      && InRange(env, m.payload, p.checkedAt) && p.peerPub == m.key
      && (registered <==> !p.closed)
  {
  }

  /** A peer that relays, or that anything is sent to beyond the handshake, began with a verified
      [Node][Addr] message for the expected key, which is not this node's own, with an address and
      time in range when it was ingested; and until it closes it is registered under that key. */
  lemma HandshakeGate(env: Env, s: Net, id: nat)
    requires Reachable(env, s) && id in s.peers && (s.peers[id].recv == Relaying || s.peers[id].send != NotStarted)
    ensures s.peers[id].first.Some?
    ensures
      var p := s.peers[id];
      var m := p.first.value;
      && m.IsNodeAddr() && env.Verified(m) && m.key != env.me && (p.hasPub ==> m.key == p.wanted)
      && Acceptable(env, m.payload, p.checkedAt)
      && (!p.closed ==> HoldsKey(s.shared.connectedPeers, m.key, id))
  {
    hide Reachable, PeerOk, ControlOk, InRange, Acceptable;
    ReachableInv(env, s);
    PeerFacts(env, s, id);
    var p := s.peers[id];
    GateFacts(env, s.stopping, s.stopped, id in ViewOf(s).registered, id in ViewOf(s).connections, p);
    AcceptableIffInRange(env, p.first.value.payload, p.checkedAt);
    if !p.closed {
      assert id in s.shared.connectedPeers.Values;
      var k :| k in s.shared.connectedPeers && s.shared.connectedPeers[k] == id;
    }
  }

  // ---------------------------------------------------------------- announcements

  // Registered by trackPeer, or by adoptPeer before it is sent the announcement.
  predicate RegisteredFirst(p: Peer) {
    !p.outbound || (p.hasPub && p.wanted != NO_KEY)
  }

  // ReceiveAnnounce has returned for announcement n.
  predicate Returned(s: Net, n: nat) {
    n < |s.anns| && (s.forwarding ==> n < |s.anns| - 1)
  }

  /** When a registered peer was offered announcement n: exactly if it was registered by the time n was
      forwarded and its queue had room. A peer registered before its handshake was registered by then,
      unless its handshake already carried n or a later one. */
  lemma AnnouncementOffered(env: Env, s: Net, id: nat, n: nat)
    requires Reachable(env, s) && Returned(s, n)
    requires id in s.shared.connectedPeers.Values && id in s.peers && s.peers[id].hello.Some?
    ensures n < |s.castAt| && s.castAt[n] < |s.log| && s.log[s.castAt[n]] == s.anns[n]
    ensures
      var p := s.peers[id];
      && p.regAt.Some?
      && (s.castAt[n] in p.accepted <==> p.regAt.value <= s.castAt[n] && s.castAt[n] !in p.missed)
      && (s.castAt[n] in p.accepted ==> s.anns[n] in p.took + p.queue)
      && (RegisteredFirst(p) && p.helloNo <= n ==> p.regAt.value <= s.castAt[n])
  {
    hide Reachable, ControlOk, WireOk;
    ReachableInv(env, s);
    PeerFacts(env, s, id);
    var p, i := s.peers[id], s.castAt[n];
    ControlRegistered(env, s.stopping, s.stopped, id in ViewOf(s).registered, id in ViewOf(s).connections, p);
    if i in p.accepted {
      var j :| 0 <= j < |p.accepted| && p.accepted[j] == i;
      assert (p.took + p.queue)[j] == s.log[i];
    }
  }

  /** Once ReceiveAnnounce has returned for announcement n, every registered peer that was registered
      before its handshake and has been sent it was sent announcement n or a later one there, or had
      n put in its queue, or its queue was full when n was forwarded. */
  lemma NoLostAnnouncement(env: Env, s: Net, id: nat, n: nat)
    requires Reachable(env, s) && Returned(s, n)
    requires id in s.shared.connectedPeers.Values && id in s.peers && s.peers[id].hello.Some?
    requires RegisteredFirst(s.peers[id])
    ensures n < |s.castAt|
    ensures
      var p := s.peers[id];
      || (n < p.helloNo <= |s.anns| && p.hello.value == s.anns[p.helloNo - 1])
      || (s.castAt[n] in p.accepted && s.anns[n] in p.took + p.queue)
      || s.castAt[n] in p.missed
  {
    hide Reachable, ControlOk, WireOk, QueueOk;
    AnnouncementOffered(env, s, id, n);
    ReachableInv(env, s);
    PeerFacts(env, s, id);
  }

  // ---------------------------------------------------------------- the wire

  lemma {:induction false} ChunksAlternate(frames: seq<Message>, j: nat)
    requires j < |frames|
    ensures |Chunks(frames)| == 2 * |frames|
    ensures Chunks(frames)[2 * j] == Head(frames[j]) && Chunks(frames)[2 * j + 1] == Body(frames[j])
    decreases |frames|
  {
    var n := |frames| - 1;
    if n == 0 {
      assert frames[..n] == [];
    } else {
      ChunksAlternate(frames[..n], if j < n then j else 0);
    }
  }

  /** On every connection at most one goroutine is writing; what has been written is a prefix of
      whole frames, each header followed by its own payload; the first frame is an announcement that
      this node made of itself; the others are broadcasts made between the peer's registration and its
      closing, in order and each once, and the broadcasts of that time that are missing found the queue
      full; and the queue never exceeds its capacity. */
  lemma WireDiscipline(env: Env, s: Net, id: nat)
    requires Reachable(env, s) && id in s.peers
    ensures
      var p := s.peers[id];
      && !((p.recv == PutHead || p.recv == PutBody) && (p.send.SendHead? || p.send.SendBody?))
      && p.wire <= Chunks(Hello(p.hello) + p.took)
      && (p.hello.None? ==> p.wire == [])
      && (p.hello.Some? ==>
            p.hello.value in s.anns && p.hello.value.key == env.me && p.hello.value.IsNodeAddr())
      && |p.queue| <= QUEUE_CAPACITY
      && FifoOk(p.accepted, p.took + p.queue, s.log)
      && End(p, |s.log|) <= |s.log|
      && (forall i :: i in p.accepted || i in p.missed <==> p.regAt.Some? && p.regAt.value <= i < End(p, |s.log|))
      && (forall i :: i in p.missed ==> i !in p.accepted)
  {
    hide Reachable, ControlOk, FifoOk;
    ReachableInv(env, s);
    PeerFacts(env, s, id);
    var p := s.peers[id];
    OneWriter(env, s.stopping, s.stopped, id in ViewOf(s).registered, id in ViewOf(s).connections, p);
    ChunksOfHello(p.hello);
  }

  lemma OneWriter(env: Env, stopping: bool, stopped: bool, registered: bool, tracked: bool, p: Peer)
    requires ControlOk(env, stopping, stopped, registered, tracked, p)
    ensures !((p.recv == PutHead || p.recv == PutBody) && p.send != NotStarted)
  {
  }

  // ---------------------------------------------------------------- shutdown

  /** Every open connection is in `connections` exactly once, or still with the goroutine that dialed
      or accepted it; once Stop has run, only the latter are open. */
  lemma ShutdownAccounting(env: Env, s: Net, id: nat)
    requires Reachable(env, s)
    ensures Store.Distinct(s.shared.connections)
    ensures id in s.peers && s.peers[id].open && s.peers[id].recv != Dialed && s.peers[id].recv != Refused ==>
      id in s.shared.connections && !s.stopped
    ensures id in s.hands && s.hands[id].open && s.hands[id].recv != HandAccepted && s.hands[id].recv != HandRefused ==>
      id in s.shared.connections && !s.stopped
  {
    hide Reachable, PeerOk, ControlOk;
    ReachableInv(env, s);
    if id in s.peers {
      PeerFacts(env, s, id);
      OpenFacts(env, s.stopping, s.stopped, id in ViewOf(s).registered, id in ViewOf(s).connections, s.peers[id]);
    }
  }

  lemma OpenFacts(env: Env, stopping: bool, stopped: bool, registered: bool, tracked: bool, p: Peer)
    requires ControlOk(env, stopping, stopped, registered, tracked, p)
    ensures p.open && p.recv != Dialed && p.recv != Refused ==> tracked && !stopped
  {
  }

  /** After Stop, a connection still held by its dialer or acceptor is refused when it is handed in, and
      closed by the step after that. */
  lemma LateConnectionsClose(env: Env, s: Net, id: nat)
    requires Reachable(env, s) && s.stopped && id in s.peers
    ensures s.peers[id].recv == Dialed ==>
      var s1 := Next(env, s, TrackConn(id));
      s1.shared == s.shared && id in s1.peers && s1.peers[id].recv == Refused
    ensures s.peers[id].recv == Refused ==> !Next(env, s, Own(id, DropConn)).peers[id].open
  {
    hide Reachable, PeersOk, HandsOk, RegistryOk;
    ReachableInv(env, s);
    assert s.stopping;
  }

  /** The same for the connection of a protocol handler. */
  lemma LateHandlersClose(env: Env, s: Net, id: nat)
    requires Reachable(env, s) && s.stopped && id in s.hands
    ensures s.hands[id].recv == HandAccepted ==>
      var s1 := Next(env, s, OfHand(id, TrackHand));
      s1.shared == s.shared && id in s1.hands && s1.hands[id].recv == HandRefused
    ensures s.hands[id].recv == HandRefused ==> !Next(env, s, OfHand(id, DropHand)).hands[id].open
  {
    hide Reachable, PeersOk, HandsOk, RegistryOk;
    ReachableInv(env, s);
    assert s.stopping;
  }

  /** A closed connection stays closed, whatever steps follow. */
  lemma {:induction false} ClosedForGood(env: Env, s: Net, actions: seq<Action>, id: nat)
    requires IsRun(env, s, actions) && id in s.peers && !s.peers[id].open
    ensures id in Run(env, s, actions).peers && !Run(env, s, actions).peers[id].open
    decreases |actions|
  {
    hide Next, Enabled;
    if actions != [] {
      StepLater(env, s, actions[0], id);
      ClosedForGood(env, Next(env, s, actions[0]), actions[1..], id);
    }
  }
}
