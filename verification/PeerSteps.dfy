/**
 Every step of the peer system keeps its invariant, and so does every run.
 */
module PeerSteps {
  import opened Types
  import opened Registry
  import Store
  import opened PeerSystem
  import opened PeerInvariant

  // ---------------------------------------------------------------- frames

  // A peer's invariant only asks whether the peer itself is registered and its connection tracked.
  lemma SameForPeer(env: Env, v: View, v': View, id: nat, p: Peer)
    requires PeerOk(env, v, id, p)
    requires v' == v.(registered := v'.registered, connections := v'.connections)
    requires id in v'.registered <==> id in v.registered
    requires id in v'.connections <==> id in v.connections
    ensures PeerOk(env, v', id, p)
  {
    hide ControlOk, WireOk, QueueOk, HelloOk;
  }

  lemma Parts(env: Env, v: View, id: nat, p: Peer)
    ensures PeerOk(env, v, id, p) <==>
      && ControlOk(env, v.stopping, v.stopped, id in v.registered, id in v.connections, p)
      && WiredOk(p) && QueuedOk(p, v.log) && HelloOk(p, v.anns, v.castAt, v.log)
  {
    hide ControlOk, WireOk, QueueOk, HelloOk;
  }

  // A step that changes one peer and its own entries in the shared state.
  lemma PeerAndSharedChange(env: Env, s: Net, id: nat, p': Peer, shared': Shared<nat>)
    requires Inv(env, s) && id in s.peers
    requires PeerOk(env, ViewOf(WithPeer(s, id, p').(shared := shared')), id, p')
    requires forall q :: q != id ==> (q in shared'.connectedPeers.Values <==> q in s.shared.connectedPeers.Values)
    requires forall q :: q != id ==> (q in shared'.connections <==> q in s.shared.connections)
    requires RegistryOk(shared'.connectedPeers, s.peers) && p'.peerPub == s.peers[id].peerPub
    requires Store.Distinct(shared'.connections) && shared'.announce == s.shared.announce
    ensures Inv(env, WithPeer(s, id, p').(shared := shared'))
  {
    hide PeerOk;
    var s' := WithPeer(s, id, p').(shared := shared');
    forall q | q in s'.peers
      ensures PeerOk(env, ViewOf(s'), q, s'.peers[q])
    {
      if q != id {
        SameForPeer(env, ViewOf(s), ViewOf(s'), q, s.peers[q]);
      }
    }
    forall h | h in s'.hands
      ensures HandOk(s'.hands[h], h in s'.shared.connections, s'.stopped)
    {
      assert h != id;
    }
    assert s'.peers.Keys == s.peers.Keys;
  }

  // ---------------------------------------------------------------- dialing and tracking

  lemma NewPeerOk(env: Env, v: View, id: nat, outbound: bool, hasPub: bool, key: PubKey)
    requires id !in v.registered && id !in v.connections
    requires (hasPub ==> outbound) && (!hasPub ==> key == NO_KEY)
    ensures PeerOk(env, v, id, NewPeer(outbound, hasPub, key))
  {
  }

  lemma DialStep(env: Env, s: Net, id: nat, outbound: bool, hasPub: bool, key: PubKey)
    requires Inv(env, s) && id !in s.peers && id !in s.hands
    requires (hasPub ==> outbound) && (!hasPub ==> key == NO_KEY)
    ensures Inv(env, WithPeer(s, id, NewPeer(outbound, hasPub, key)))
  {
    hide PeerOk;
    NewPeerOk(env, ViewOf(s), id, outbound, hasPub, key);
    var s' := WithPeer(s, id, NewPeer(outbound, hasPub, key));
    assert ViewOf(s') == ViewOf(s);
    assert s'.peers.Keys == s.peers.Keys + {id};
  }

  lemma DialedFacts(env: Env, v: View, id: nat, p: Peer)
    requires PeerOk(env, v, id, p) && p.recv == Dialed
    ensures p.regAt.None? && p.hello.None? && p.peerPub == p.wanted && !p.closed
    ensures id !in v.registered && id !in v.connections
    ensures QueuedOk(p, v.log) && WiredOk(p)
  {
    hide QueueOk, HelloOk;
  }

  lemma TrackControl(env: Env, p: Peer, at: nat, ok: bool, duplicate: bool, stopping: bool, stopped: bool)
    requires ControlOk(env, stopping, stopped, false, false, p) && p.recv == Dialed
    requires stopping ==> !ok && !duplicate
    requires stopped ==> stopping
    requires !stopping ==> ok == !duplicate
    ensures ControlOk(env, stopping, stopped, ok && p.wanted != NO_KEY, ok || duplicate, Tracked(p, ok, at))
  {
  }

  lemma HasMember<T>(s: seq<T>)
    ensures s == [] || exists x :: x in s
  {
    if s != [] {
      assert s[0] in s;
    }
  }

  // A peer that was never registered has no queue, and may be registered now.
  lemma RegisterQueue(p: Peer, log: seq<Message>)
    requires QueuedOk(p, log) && p.regAt.None? && !p.closed
    ensures p.took == [] && p.queue == []
    ensures QueuedOk(p.(regAt := Some(|log|)), log)
  {
    HasMember(p.accepted);
    assert |p.took + p.queue| == 0;
    assert forall i :: i !in p.missed;
  }

  lemma TrackRest(env: Env, v: View, id: nat, p: Peer, ok: bool)
    requires PeerOk(env, v, id, p) && p.recv == Dialed
    ensures
      var p' := Tracked(p, ok, |v.log|);
      WiredOk(p') && QueuedOk(p', v.log) && HelloOk(p', v.anns, v.castAt, v.log) && p'.peerPub == p.peerPub
  {
    hide QueueOk, Chunks, ControlOk;
    DialedFacts(env, v, id, p);
    RegisterQueue(p, v.log);
  }

  lemma TrackShared(s: Net, id: nat, key: PubKey)
    requires Store.Distinct(s.shared.connections) && id !in s.shared.connections
    requires id in s.peers && s.peers[id].peerPub == key && RegistryOk(s.shared.connectedPeers, s.peers)
    requires id !in s.shared.connectedPeers.Values
    ensures
      var (shared', ok) := Track(s.shared, id, id, key, s.stopping);
      && (id in shared'.connectedPeers.Values <==> ok && key != NO_KEY)
      && (id in shared'.connections <==> !s.stopping)
      && (s.stopping ==> !ok)
      && (forall q :: q != id ==> (q in shared'.connectedPeers.Values <==> q in s.shared.connectedPeers.Values))
      && (forall q :: q != id ==> (q in shared'.connections <==> q in s.shared.connections))
      && Store.Distinct(shared'.connections) && shared'.announce == s.shared.announce
      && RegistryOk(shared'.connectedPeers, s.peers)
  {
    if key !in s.shared.connectedPeers {
      AddedValue(s.shared.connectedPeers, key, id);
    }
  }

  // Entering a peer under a free key makes it, and nobody else, registered.
  lemma AddedValue(m: map<PubKey, nat>, key: PubKey, id: nat)
    requires key !in m
    ensures forall q :: q in m[key := id].Values <==> q in m.Values || q == id
  {
    var m' := m[key := id];
    assert m'[key] == id;
    assert forall k :: k in m ==> m'[k] == m[k];
  }

  lemma TrackConnStep(env: Env, s: Net, id: nat)
    requires Inv(env, s) && id in s.peers && s.peers[id].recv == Dialed
    ensures Inv(env, TrackStep(s, id))
  {
    hide PeerOk, ControlOk, WiredOk, QueuedOk, HelloOk, Track, Tracked;
    var p, v := s.peers[id], ViewOf(s);
    var (shared', ok) := Track(s.shared, id, id, p.wanted, s.stopping);
    var p' := Tracked(p, ok, |s.log|);
    Parts(env, v, id, p);
    DialedFacts(env, v, id, p);
    TrackRest(env, v, id, p, ok);
    TrackShared(s, id, p.wanted);
    TrackControl(env, p, |s.log|, ok, !ok && !s.stopping, s.stopping, s.stopped);
    Parts(env, ViewOf(WithPeer(s, id, p').(shared := shared')), id, p');
    PeerAndSharedChange(env, s, id, p', shared');
  }

  // ---------------------------------------------------------------- adopting

  lemma AdoptControl(env: Env, p: Peer, at: nat, ok: bool, stopping: bool, stopped: bool, tracked: bool)
    requires ControlOk(env, stopping, stopped, false, tracked, p) && p.recv.Adopting?
    ensures ControlOk(env, stopping, stopped, ok, tracked, Adopted(env, p, ok, at))
  {
  }

  lemma AdoptingFacts(env: Env, v: View, id: nat, p: Peer)
    requires PeerOk(env, v, id, p) && p.recv.Adopting?
    ensures p.regAt.None? && id !in v.registered && p.send == NotStarted && !Known(p) && !p.closed
    ensures !p.outbound ==> p.hello.None?
    ensures QueuedOk(p, v.log) && WiredOk(p) && HelloOk(p, v.anns, v.castAt, v.log)
  {
    hide QueueOk, HelloOk;
  }

  lemma GotAdoptedFrame(env: Env, p: Peer, m: Message)
    requires p.recv.Adopting?
    ensures MovedOn(p, GotAdopted(env, p, m))
  {
    hide MovedOn;
    RecvMovesOn(p, Closing);
    RecvMovesOn(p, Ingesting(m, false));
  }

  lemma AdoptFrame(env: Env, p: Peer, ok: bool, at: nat)
    requires p.recv.Adopting?
    ensures
      var p' := Adopted(env, p, ok, at);
      MovedOn(p.(regAt := p'.regAt), p') && (p'.regAt == p.regAt || p'.regAt == Some(at))
  {
    hide GotAdopted, MovedOn;
    if ok {
      var p1 := p.(regAt := Some(at));
      GotAdoptedFrame(env, p1, p.recv.msg);
      KeepsRegAt(p1, GotAdopted(env, p1, p.recv.msg));
    } else {
      RecvMovesOn(p, Closing);
    }
  }

  lemma KeepsRegAt(p: Peer, p': Peer)
    requires MovedOn(p, p')
    ensures p'.regAt == p.regAt && p.(regAt := p'.regAt) == p
  {
  }

  lemma AdoptRest(env: Env, v: View, id: nat, p: Peer, ok: bool)
    requires PeerOk(env, v, id, p) && p.recv.Adopting?
    ensures
      var p' := Adopted(env, p, ok, |v.log|);
      WiredOk(p') && QueuedOk(p', v.log) && HelloOk(p', v.anns, v.castAt, v.log) && p'.peerPub == p.peerPub
  {
    hide QueuedOk, WireOk, PeerOk, MovedOn, Adopted;
    AdoptingFacts(env, v, id, p);
    RegisterQueue(p, v.log);
    AdoptFrame(env, p, ok, |v.log|);
    var p' := Adopted(env, p, ok, |v.log|);
    MovedOnRest(p.(regAt := p'.regAt), p', v);
  }

  lemma AdoptKeyStep(env: Env, s: Net, id: nat)
    requires Inv(env, s) && id in s.peers && s.peers[id].recv.Adopting?
    ensures Inv(env, AdoptStep(env, s, id))
  {
    hide PeerOk, ControlOk, WiredOk, QueuedOk, HelloOk, Adopted;
    var p, v := s.peers[id], ViewOf(s);
    var (shared', ok) := Adopt(s.shared, id, p.peerPub);
    var p' := Adopted(env, p, ok, |s.log|);
    Parts(env, v, id, p);
    AdoptingFacts(env, v, id, p);
    AdoptRest(env, v, id, p, ok);
    if ok {
      AddedValue(s.shared.connectedPeers, p.peerPub, id);
    }
    AdoptControl(env, p, |s.log|, ok, s.stopping, s.stopped, id in v.connections);
    Parts(env, ViewOf(WithPeer(s, id, p').(shared := shared')), id, p');
    PeerAndSharedChange(env, s, id, p', shared');
  }

  // ---------------------------------------------------------------- ingesting

  // May this peer leave the handshake's ingestion, if that is where it is?
  predicate MayProceed(env: Env, p: Peer) {
    match p.recv
    case Ingesting(_, relaying) => relaying || PassedGate(env, p)
    case PassingOn(_, _, _) => true
    case _ => false
  }

  lemma ProceedControl(env: Env, p: Peer, failed: bool, stopping: bool, stopped: bool, registered: bool, tracked: bool)
    requires ControlOk(env, stopping, stopped, registered, tracked, p) && MayProceed(env, p)
    ensures ControlOk(env, stopping, stopped, registered, tracked, AfterIngest(p, p.recv.relaying, failed))
  {
  }

  lemma ProceedFrame(p: Peer, failed: bool)
    requires (p.recv.Ingesting? || p.recv.PassingOn?) && (p.recv.relaying <==> p.send != NotStarted)
    ensures MovedOn(p, AfterIngest(p, p.recv.relaying, failed))
  {
  }

  lemma CheckedControl(env: Env, p: Peer, now: int, stopping: bool, stopped: bool, registered: bool, tracked: bool)
    requires ControlOk(env, stopping, stopped, registered, tracked, p)
    requires p.recv.Ingesting? && InRange(env, p.recv.msg.payload, now)
    ensures ControlOk(env, stopping, stopped, registered, tracked, Checked(p, now)) && MayProceed(env, Checked(p, now))
  {
  }

  lemma PassingControl(env: Env, p: Peer, failed: bool, stopping: bool, stopped: bool, registered: bool, tracked: bool)
    requires ControlOk(env, stopping, stopped, registered, tracked, p) && p.recv.Ingesting? && MayProceed(env, p)
    ensures ControlOk(env, stopping, stopped, registered, tracked,
                      p.(recv := PassingOn(p.recv.msg, p.recv.relaying, failed)))
    ensures ControlOk(env, stopping, stopped, registered, tracked, p.(recv := Closing))
  {
  }

  lemma IngestControl(env: Env, p: Peer, outcome: Option<Store.AddOutcome>, carried: bool,
                      stopping: bool, stopped: bool, registered: bool, tracked: bool)
    requires ControlOk(env, stopping, stopped, registered, tracked, p) && p.recv.Ingesting? && MayProceed(env, p)
    ensures ControlOk(env, stopping, stopped, registered, tracked, Ingested(p, outcome, carried))
  {
    hide AfterIngest, ControlOk, MayProceed;
    var failed := outcome == None || outcome == Some(Store.Rejected);
    ProceedControl(env, p, failed, stopping, stopped, registered, tracked);
    PassingControl(env, p, failed, stopping, stopped, registered, tracked);
  }

  lemma IngestFrame(p: Peer, outcome: Option<Store.AddOutcome>, carried: bool)
    requires p.recv.Ingesting? && (p.recv.relaying <==> p.send != NotStarted)
    ensures MovedOn(p, Ingested(p, outcome, carried))
  {
    hide AfterIngest, MovedOn;
    var failed := outcome == None || outcome == Some(Store.Rejected);
    ProceedFrame(p, failed);
    RecvMovesOn(p, PassingOn(p.recv.msg, p.recv.relaying, failed));
  }

  lemma IngestingFacts(env: Env, v: View, id: nat, p: Peer)
    requires PeerOk(env, v, id, p) && (p.recv.Ingesting? || p.recv.PassingOn?)
    ensures p.recv.relaying <==> p.send != NotStarted
    ensures p.recv.PassingOn? ==> MayProceed(env, p)
  {
    hide QueueOk, HelloOk, WireOk;
  }

  lemma ClosingControl(env: Env, p: Peer, stopping: bool, stopped: bool, registered: bool, tracked: bool)
    requires ControlOk(env, stopping, stopped, registered, tracked, p) && p.recv.Ingesting?
    ensures ControlOk(env, stopping, stopped, registered, tracked, p.(recv := Closing))
  {
  }

  lemma MovedOnRest(p: Peer, p': Peer, v: View)
    requires MovedOn(p, p')
    requires p.recv == AwaitFirst || p.recv.Adopting? || p.recv.Ingesting? || p.recv.PassingOn? || p.recv == Relaying
    requires WiredOk(p) && QueuedOk(p, v.log) && HelloOk(p, v.anns, v.castAt, v.log)
    ensures WiredOk(p') && QueuedOk(p', v.log) && HelloOk(p', v.anns, v.castAt, v.log) && p'.peerPub == p.peerPub
  {
    MovedOnWire(p, p');
    hide QueueOk, WiredOk, BeforeHello;
  }

  // A peer moves on by itself.
  lemma MovedOnStep(env: Env, s: Net, id: nat, p': Peer)
    requires Inv(env, s) && id in s.peers && MovedOn(s.peers[id], p')
    requires s.peers[id].recv.Ingesting? || s.peers[id].recv.PassingOn?
    requires ControlOk(env, s.stopping, s.stopped, id in ViewOf(s).registered, id in ViewOf(s).connections, p')
    ensures Inv(env, WithPeer(s, id, p'))
  {
    hide PeerOk, ControlOk, WiredOk, QueuedOk, HelloOk, MovedOn;
    var p, v := s.peers[id], ViewOf(s);
    Parts(env, v, id, p);
    MovedOnRest(p, p', v);
    Parts(env, v, id, p');
    OnePeerChanges(env, s, id, p');
  }

  lemma RefusedIngest(env: Env, s: Net, id: nat)
    requires Inv(env, s) && id in s.peers && s.peers[id].recv.Ingesting?
    ensures Inv(env, WithPeer(s, id, s.peers[id].(recv := Closing)))
  {
    hide PeerOk, ControlOk, Inv;
    var p, v := s.peers[id], ViewOf(s);
    PeerFacts(env, s, id);
    ClosingControl(env, p, s.stopping, s.stopped, id in v.registered, id in v.connections);
    MovedOnStep(env, s, id, p.(recv := Closing));
  }

  lemma PeerFacts(env: Env, s: Net, id: nat)
    requires Inv(env, s) && id in s.peers
    ensures PeerOk(env, ViewOf(s), id, s.peers[id])
    ensures ControlOk(env, s.stopping, s.stopped, id in ViewOf(s).registered, id in ViewOf(s).connections, s.peers[id])
  {
    hide ControlOk, WireOk, QueueOk, HelloOk;
    assert PeerOk(env, ViewOf(s), id, s.peers[id]);
  }

  lemma CheckedFrame(p: Peer, now: int)
    requires p.recv.Ingesting?
    ensures MovedOn(p, Checked(p, now))
  {
  }

  lemma CheckedStep(env: Env, s: Net, id: nat)
    requires Inv(env, s) && id in s.peers && s.peers[id].recv.Ingesting?
    requires InRange(env, s.peers[id].recv.msg.payload, s.now)
    ensures
      var p := Checked(s.peers[id], s.now);
      Inv(env, WithPeer(s, id, p)) && MayProceed(env, p)
  {
    hide PeerOk, ControlOk, Inv, MovedOn, InRange, MayProceed;
    var p, v := s.peers[id], ViewOf(s);
    PeerFacts(env, s, id);
    CheckedControl(env, p, s.now, s.stopping, s.stopped, id in v.registered, id in v.connections);
    CheckedFrame(p, s.now);
    MovedOnStep(env, s, id, Checked(p, s.now));
  }

  lemma IngestedStep(env: Env, s: Net, id: nat, outcome: Option<Store.AddOutcome>, carried: bool)
    requires Inv(env, s) && id in s.peers && s.peers[id].recv.Ingesting? && MayProceed(env, s.peers[id])
    ensures Inv(env, WithPeer(s, id, Ingested(s.peers[id], outcome, carried)))
  {
    hide PeerOk, ControlOk, Inv, MovedOn, Ingested, MayProceed;
    var p, v := s.peers[id], ViewOf(s);
    PeerFacts(env, s, id);
    IngestingFacts(env, v, id, p);
    IngestControl(env, p, outcome, carried, s.stopping, s.stopped, id in v.registered, id in v.connections);
    IngestFrame(p, outcome, carried);
    MovedOnStep(env, s, id, Ingested(p, outcome, carried));
  }

  lemma IngestsStep(env: Env, s: Net, id: nat, end: TxnEnd)
    requires Inv(env, s) && id in s.peers && s.peers[id].recv.Ingesting?
    ensures Inv(env, IngestStep(env, s, id, end))
  {
    hide Inv, Ingested, MayProceed, Stored;
    var p, s' := s.peers[id], IngestStep(env, s, id, end);
    if !InRange(env, p.recv.msg.payload, s.now) {
      RefusedIngest(env, s, id);
    } else {
      CheckedStep(env, s, id);
      var s1 := WithPeer(s, id, Checked(p, s.now));
      var outcome := Stored(env, s.db, p.recv.msg, end).1;
      var s2 := WithPeer(s1, id, Ingested(s1.peers[id], outcome, end.carried));
      IngestedStep(env, s1, id, outcome, end.carried);
      assert s2.peers == s'.peers;
      DatabaseIsApart(env, s2, s');
    }
  }

  // The invariant does not look at the database, the clock or the message picked for re-gossip.
  lemma DatabaseIsApart(env: Env, s: Net, s': Net)
    requires Inv(env, s) && s' == s.(db := s'.db, now := s'.now, gossip := s'.gossip)
    ensures Inv(env, s')
  {
    hide PeerOk;
    assert ViewOf(s') == ViewOf(s);
  }

  // ---------------------------------------------------------------- closing

  lemma RemoveControl(env: Env, p: Peer, sender: bool, at: nat, stopping: bool, stopped: bool, registered: bool,
                      tracked: bool)
    requires ControlOk(env, stopping, stopped, registered, tracked, p)
    requires if sender then p.send == SendRemoving else p.recv == Removing
    ensures ControlOk(env, stopping, stopped, false, false, Removed(p, sender, at))
  {
  }

  lemma RemoveQueue(p: Peer, sender: bool, log: seq<Message>)
    requires QueuedOk(p, log)
    ensures QueuedOk(Removed(p, sender, |log|), log)
  {
    hide QueueOk;
  }

  lemma RemoveWire(p: Peer, sender: bool, at: nat)
    requires WiredOk(p)
    requires if sender then p.send == SendRemoving else p.recv == Removing
    ensures WiredOk(Removed(p, sender, at))
  {
    hide Chunks;
  }

  lemma RemoveRest(p: Peer, sender: bool, v: View)
    requires WiredOk(p) && QueuedOk(p, v.log) && HelloOk(p, v.anns, v.castAt, v.log)
    requires if sender then p.send == SendRemoving else p.recv == Removing
    ensures
      var p' := Removed(p, sender, |v.log|);
      WiredOk(p') && QueuedOk(p', v.log) && HelloOk(p', v.anns, v.castAt, v.log) && p'.peerPub == p.peerPub
  {
    hide WiredOk, QueueOk;
    RemoveQueue(p, sender, v.log);
    RemoveWire(p, sender, |v.log|);
  }

  /** Removing a peer takes out its own registration, if it has one, and nobody else's. */
  lemma RemoveShared(s: Net, id: nat)
    requires Store.Distinct(s.shared.connections) && RegistryOk(s.shared.connectedPeers, s.peers) && id in s.peers
    ensures
      var shared' := Remove(s.shared, id, id, s.peers[id].peerPub);
      && id !in shared'.connectedPeers.Values && id !in shared'.connections
      && (forall q :: q != id ==> (q in shared'.connectedPeers.Values <==> q in s.shared.connectedPeers.Values))
      && (forall q :: q != id ==> (q in shared'.connections <==> q in s.shared.connections))
      && Store.Distinct(shared'.connections) && shared'.announce == s.shared.announce
      && RegistryOk(shared'.connectedPeers, s.peers)
  {
    var peers, key := s.shared.connectedPeers, s.peers[id].peerPub;
    var peers' := Remove(s.shared, id, id, key).connectedPeers;
    SwapRemoveKeepsOthers(s.shared.connections, id);
    forall q | q in peers.Values && q != id
      ensures q in peers'.Values
    {
      var k :| k in peers && peers[k] == q;
      assert k in peers' && peers'[k] == q;
    }
  }

  lemma RemovePeerStep(env: Env, s: Net, id: nat, sender: bool)
    requires Inv(env, s) && id in s.peers
    requires if sender then s.peers[id].send == SendRemoving else s.peers[id].recv == Removing
    ensures Inv(env, RemoveStep(s, id, sender))
  {
    hide PeerOk, ControlOk, WiredOk, QueuedOk, HelloOk, Remove, Removed;
    var p, v := s.peers[id], ViewOf(s);
    var shared', p' := Remove(s.shared, id, id, p.peerPub), Removed(p, sender, |s.log|);
    Parts(env, v, id, p);
    RemoveControl(env, p, sender, |s.log|, s.stopping, s.stopped, id in v.registered, id in v.connections);
    RemoveRest(p, sender, v);
    RemoveShared(s, id);
    Parts(env, ViewOf(WithPeer(s, id, p').(shared := shared')), id, p');
    PeerAndSharedChange(env, s, id, p', shared');
  }

  // ---------------------------------------------------------------- broadcasting

  lemma OfferFifo(accepted: seq<nat>, through: seq<Message>, log: seq<Message>, m: Message)
    requires FifoOk(accepted, through, log)
    ensures FifoOk(accepted, through, log + [m])
    ensures FifoOk(accepted + [|log|], through + [m], log + [m])
  {
  }

  lemma OfferCover(regAt: Option<nat>, accepted: seq<nat>, missed: seq<nat>, casts: nat)
    requires CoverOk(regAt, casts, accepted, missed, casts) && regAt.Some?
    ensures CoverOk(regAt, casts + 1, accepted + [casts], missed, casts + 1)
    ensures CoverOk(regAt, casts + 1, accepted, missed + [casts], casts + 1)
  {
    assert forall i :: i in accepted + [casts] <==> i in accepted || i == casts;
    assert forall i :: i in missed + [casts] <==> i in missed || i == casts;
  }

  lemma OfferQueue(p: Peer, log: seq<Message>, m: Message)
    requires QueuedOk(p, log) && p.regAt.Some? && !p.closed
    ensures QueuedOk(Offer(p, |log|, m), log + [m])
  {
    hide FifoOk, CoverOk;
    OfferFifo(p.accepted, p.took + p.queue, log, m);
    OfferCover(p.regAt, p.accepted, p.missed, |log|);
    assert p.took + (p.queue + [m]) == (p.took + p.queue) + [m];
  }

  lemma SkipQueue(p: Peer, log: seq<Message>, m: Message)
    requires QueuedOk(p, log) && (p.regAt.None? || p.closed)
    ensures QueuedOk(p, log + [m])
  {
  }

  lemma OfferFrame(p: Peer, i: nat, m: Message)
    ensures
      var p' := Offer(p, i, m);
      p' == p.(queue := p'.queue, accepted := p'.accepted, missed := p'.missed)
  {
  }

  lemma OfferControl(env: Env, p: Peer, p': Peer, stopping: bool, stopped: bool, registered: bool, tracked: bool)
    requires ControlOk(env, stopping, stopped, registered, tracked, p)
    requires p' == p.(queue := p'.queue, accepted := p'.accepted, missed := p'.missed)
    ensures ControlOk(env, stopping, stopped, registered, tracked, p')
  {
  }

  // A broadcast is made, possibly the one that forwards the last announcement.
  lemma CastHello(p: Peer, p': Peer, v: View, m: Message, castAt': seq<nat>)
    requires HelloOk(p, v.anns, v.castAt, v.log)
    requires p' == p.(queue := p'.queue, accepted := p'.accepted, missed := p'.missed)
    requires castAt' == v.castAt || castAt' == v.castAt + [|v.log|]
    ensures HelloOk(p', v.anns, castAt', v.log + [m])
  {
  }

  lemma ControlRegistered(env: Env, stopping: bool, stopped: bool, registered: bool, tracked: bool, p: Peer)
    requires ControlOk(env, stopping, stopped, registered, tracked, p)
    ensures registered <==> p.regAt.Some? && !p.closed
  {
  }

  lemma OfferedPeer(env: Env, v: View, id: nat, p: Peer, m: Message, castAt': seq<nat>)
    requires PeerOk(env, v, id, p)
    requires castAt' == v.castAt || castAt' == v.castAt + [|v.log|]
    ensures
      var p' := if id in v.registered then Offer(p, |v.log|, m) else p;
      PeerOk(env, v.(log := v.log + [m], castAt := castAt'), id, p') && p'.peerPub == p.peerPub
  {
    hide PeerOk, ControlOk, QueuedOk, HelloOk, WireOk, Offer;
    var v', p' := v.(log := v.log + [m], castAt := castAt'), if id in v.registered then Offer(p, |v.log|, m) else p;
    Parts(env, v, id, p);
    ControlRegistered(env, v.stopping, v.stopped, id in v.registered, id in v.connections, p);
    OfferFrame(p, |v.log|, m);
    if id in v.registered {
      OfferQueue(p, v.log, m);
    } else {
      SkipQueue(p, v.log, m);
    }
    OfferControl(env, p, p', v.stopping, v.stopped, id in v.registered, id in v.connections);
    CastHello(p, p', v, m, castAt');
    Parts(env, v', id, p');
  }

  lemma BroadcastPeers(env: Env, s: Net, m: Message, castAt': seq<nat>)
    requires Inv(env, s)
    requires castAt' == s.castAt || castAt' == s.castAt + [|s.log|]
    ensures PeersOk(env, ViewOf(Broadcast(s, m).(castAt := castAt')), Broadcast(s, m).peers)
    ensures RegistryOk(s.shared.connectedPeers, Broadcast(s, m).peers)
  {
    hide PeerOk, Offer;
    var s' := Broadcast(s, m).(castAt := castAt');
    var v := ViewOf(s);
    assert ViewOf(s') == v.(log := v.log + [m], castAt := castAt');
    forall id | id in s.peers
      ensures PeerOk(env, ViewOf(s'), id, s'.peers[id]) && s'.peers[id].peerPub == s.peers[id].peerPub
    {
      OfferedPeer(env, v, id, s.peers[id], m, castAt');
    }
  }

  lemma BroadcastStep(env: Env, s: Net, m: Message)
    requires Inv(env, s)
    ensures Inv(env, Broadcast(s, m))
  {
    hide PeersOk;
    BroadcastPeers(env, s, m, s.castAt);
    assert Broadcast(s, m).(castAt := s.castAt) == Broadcast(s, m);
    assert Broadcast(s, m).peers.Keys == s.peers.Keys;
  }

  lemma ForwardStep(env: Env, s: Net)
    requires Inv(env, s) && s.forwarding && s.anns != []
    ensures Inv(env, Broadcast(s, s.anns[|s.anns| - 1]).(forwarding := false, castAt := s.castAt + [|s.log|]))
  {
    hide PeersOk;
    var m := s.anns[|s.anns| - 1];
    var s' := Broadcast(s, m).(forwarding := false, castAt := s.castAt + [|s.log|]);
    BroadcastPeers(env, s, m, s'.castAt);
    assert ViewOf(s') == ViewOf(Broadcast(s, m).(castAt := s'.castAt));
    assert s'.peers.Keys == s.peers.Keys;
  }

  lemma PassOnsStep(env: Env, s: Net, id: nat)
    requires Inv(env, s) && id in s.peers && s.peers[id].recv.PassingOn?
    ensures Inv(env, PassOnStep(s, id))
  {
    hide PeerOk, ControlOk, Inv, MovedOn, AfterIngest, MayProceed;
    var p, v := s.peers[id], ViewOf(s);
    PeerFacts(env, s, id);
    IngestingFacts(env, v, id, p);
    ProceedControl(env, p, p.recv.failed, s.stopping, s.stopped, id in v.registered, id in v.connections);
    ProceedFrame(p, p.recv.failed);
    var p' := AfterIngest(p, p.recv.relaying, p.recv.failed);
    MovedOnStep(env, s, id, p');
    BroadcastStep(env, WithPeer(s, id, p'), p.recv.msg);
  }

  // ---------------------------------------------------------------- announcing, stopping

  lemma AnnounceHello(p: Peer, v: View, m: Message)
    requires HelloOk(p, v.anns, v.castAt, v.log)
    ensures HelloOk(p, v.anns + [m], v.castAt, v.log)
  {
  }

  lemma AnnounceStep(env: Env, s: Net, m: Message)
    requires Inv(env, s) && !s.forwarding && m.key == env.me && m.IsNodeAddr()
    ensures Inv(env, s.(anns := s.anns + [m], shared := s.shared.(announce := Some(m)), forwarding := true))
  {
    hide ControlOk, WireOk, QueueOk, HelloOk;
    var s' := s.(anns := s.anns + [m], shared := s.shared.(announce := Some(m)), forwarding := true);
    forall id | id in s'.peers
      ensures PeerOk(env, ViewOf(s'), id, s'.peers[id])
    {
      assert PeerOk(env, ViewOf(s), id, s.peers[id]);
      AnnounceHello(s.peers[id], ViewOf(s), m);
    }
  }

  lemma StoppingControl(env: Env, p: Peer, stopping: bool, stopped: bool, registered: bool, tracked: bool)
    requires ControlOk(env, stopping, stopped, registered, tracked, p)
    ensures ControlOk(env, true, stopped, registered, tracked, p)
  {
  }

  lemma RequestStopStep(env: Env, s: Net)
    requires Inv(env, s)
    ensures Inv(env, s.(stopping := true))
  {
    hide ControlOk, WireOk, QueueOk, HelloOk;
    var s', v := s.(stopping := true), ViewOf(s);
    forall id | id in s'.peers
      ensures PeerOk(env, ViewOf(s'), id, s'.peers[id])
    {
      assert PeerOk(env, v, id, s.peers[id]);
      StoppingControl(env, s.peers[id], s.stopping, s.stopped, id in v.registered, id in v.connections);
    }
  }

  lemma StoppedControl(env: Env, p: Peer, stopping: bool, stopped: bool, registered: bool, tracked: bool)
    requires ControlOk(env, stopping, stopped, registered, tracked, p)
    ensures ControlOk(env, stopping, true, registered, tracked, p.(open := p.open && !tracked))
  {
  }

  lemma StopsStep(env: Env, s: Net)
    requires Inv(env, s) && s.stopping
    ensures Inv(env, StopStep(s))
  {
    hide ControlOk, WireOk, QueueOk, HelloOk;
    var s', v := StopStep(s), ViewOf(s);
    forall id | id in s'.peers
      ensures PeerOk(env, ViewOf(s'), id, s'.peers[id])
    {
      assert PeerOk(env, v, id, s.peers[id]);
      StoppedControl(env, s.peers[id], s.stopping, s.stopped, id in v.registered, id in v.connections);
      assert HelloOk(s'.peers[id], v.anns, v.castAt, v.log) by {
        StoppedHello(s.peers[id], v, s'.peers[id].open);
      }
    }
    assert s'.peers.Keys == s.peers.Keys && s'.hands.Keys == s.hands.Keys;
  }

  lemma StoppedHello(p: Peer, v: View, open: bool)
    requires HelloOk(p, v.anns, v.castAt, v.log)
    ensures HelloOk(p.(open := open), v.anns, v.castAt, v.log)
  {
  }

  // ---------------------------------------------------------------- protocol handlers

  // A step that changes one handler and its own entries in the shared state.
  lemma HandAndSharedChange(env: Env, s: Net, id: nat, h': Hand, shared': Shared<nat>)
    requires Inv(env, s) && id !in s.peers
    requires HandOk(h', id in shared'.connections, s.stopped)
    requires shared'.connectedPeers == s.shared.connectedPeers && shared'.announce == s.shared.announce
    requires forall q :: q != id ==> (q in shared'.connections <==> q in s.shared.connections)
    requires Store.Distinct(shared'.connections)
    ensures Inv(env, WithHand(s, id, h').(shared := shared'))
  {
    hide PeerOk, HandOk;
    var s' := WithHand(s, id, h').(shared := shared');
    forall q | q in s'.peers
      ensures PeerOk(env, ViewOf(s'), q, s'.peers[q])
    {
      SameForPeer(env, ViewOf(s), ViewOf(s'), q, s.peers[q]);
    }
    assert s'.hands.Keys == s.hands.Keys + {id};
  }

  lemma HandFacts(env: Env, s: Net, id: nat)
    requires Inv(env, s) && id in s.hands
    ensures HandOk(s.hands[id], id in s.shared.connections, s.stopped) && id !in s.peers
    ensures Store.Distinct(s.shared.connections) && (s.stopped ==> s.stopping)
  {
    hide PeersOk;
  }

  // What a handler's own steps do to it and to the shared state.
  lemma HandMoves(env: Env, s: Net, id: nat, act: HandAct)
    requires id in s.hands && HandEnabled(env, s.hands[id], act) && !act.HandCast?
    requires HandOk(s.hands[id], id in s.shared.connections, s.stopped)
    requires Store.Distinct(s.shared.connections) && (s.stopped ==> s.stopping)
    ensures
      var s' := HandStep(s, id, act);
      && id in s'.hands && s' == WithHand(s, id, s'.hands[id]).(shared := s'.shared)
      && HandOk(s'.hands[id], id in s'.shared.connections, s.stopped)
      && s'.shared.connectedPeers == s.shared.connectedPeers && s'.shared.announce == s.shared.announce
      && (forall q :: q != id ==> (q in s'.shared.connections <==> q in s.shared.connections))
      && Store.Distinct(s'.shared.connections)
  {
    hide SwapRemove;
    SwapRemoveKeepsOthers(s.shared.connections, id);
  }

  lemma HandlesStep(env: Env, s: Net, id: nat, act: HandAct)
    requires Inv(env, s) && id in s.hands && HandEnabled(env, s.hands[id], act)
    ensures Inv(env, HandStep(s, id, act))
  {
    hide Inv;
    var h := s.hands[id];
    HandFacts(env, s, id);
    if act.HandCast? {
      HandAndSharedChange(env, s, id, h.(recv := HandServing), s.shared);
      BroadcastStep(env, WithHand(s, id, h.(recv := HandServing)), h.recv.msg);
    } else {
      hide HandStep, HandEnabled, HandOk;
      HandMoves(env, s, id, act);
      var s' := HandStep(s, id, act);
      HandAndSharedChange(env, s, id, s'.hands[id], s'.shared);
    }
  }

  lemma AcceptHandStep(env: Env, s: Net, id: nat)
    requires Inv(env, s) && id !in s.peers && id !in s.hands
    ensures Inv(env, WithHand(s, id, Hand(true, HandAccepted, HandNotStarted, false)))
  {
    hide PeersOk, RegistryOk;
    assert id !in s.shared.connections;
    HandAndSharedChange(env, s, id, Hand(true, HandAccepted, HandNotStarted, false), s.shared);
  }

  // ---------------------------------------------------------------- all steps, all runs

  lemma StepKeepsInv(env: Env, s: Net, a: Action)
    requires Inv(env, s) && Enabled(env, s, a)
    ensures Inv(env, Next(env, s, a))
  {
    hide Inv, IngestStep, TrackStep, AdoptStep, RemoveStep, PassOnStep, HandStep, StopStep, Broadcast, Local;
    match a
    case Own(id, act) => LocalStep(env, s, id, act);
    case Dial(id, outbound, hasPub, key) => DialStep(env, s, id, outbound, hasPub, key);
    case TrackConn(id) => TrackConnStep(env, s, id);
    case AdoptKey(id) => AdoptKeyStep(env, s, id);
    case Ingest(id, end) => IngestsStep(env, s, id, end);
    case PassOn(id) => PassOnsStep(env, s, id);
    case RemovePeer(id, sender) => RemovePeerStep(env, s, id, sender);
    case Announce(body) => AnnounceStep(env, s, env.Announcement(body));
    case StoreOwn(body, oid) => DatabaseIsApart(env, s, Next(env, s, a));
    case ForwardAnnounce => ForwardStep(env, s);
    case PickGossip(key) => DatabaseIsApart(env, s, Next(env, s, a));
    case SendGossip =>
      BroadcastStep(env, s, s.gossip.value);
      DatabaseIsApart(env, Broadcast(s, s.gossip.value), Next(env, s, a));
    case Database(op) => DatabaseIsApart(env, s, Next(env, s, a));
    case AcceptHand(id) => AcceptHandStep(env, s, id);
    case OfHand(id, act) => HandlesStep(env, s, id, act);
    case RequestStop => RequestStopStep(env, s);
    case StopAll => StopsStep(env, s);
    case Tick(now) => DatabaseIsApart(env, s, Next(env, s, a));
  }

  lemma InitialInv(env: Env, s: Net)
    requires Initial(s)
    ensures Inv(env, s)
  {
  }

  lemma {:induction false} RunKeepsInv(env: Env, s: Net, actions: seq<Action>)
    requires Inv(env, s) && IsRun(env, s, actions)
    ensures Inv(env, Run(env, s, actions))
    decreases |actions|
  {
    hide Inv, Next, Enabled;
    if actions != [] {
      StepKeepsInv(env, s, actions[0]);
      RunKeepsInv(env, Next(env, s, actions[0]), actions[1..]);
    }
  }
}
