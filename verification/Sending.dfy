/**
 The two ends of a peer's life after the handshake: what waits in its queue goes out, and a peer that
 fails is closed and forgotten.
 */
module Sending {
  import opened Types
  import opened Registry
  import Store
  import opened PeerSystem
  import opened PeerInvariant
  import opened PeerSteps
  import opened PeerTheorems
  import opened Handshake

  // ---------------------------------------------------------------- the queue goes out

  // The peer after the send goroutine has taken the next message, and after it has written it whole.
  function Taken(p: Peer): Peer
    requires p.queue != []
  {
    p.(send := SendHead(p.queue[0]), queue := p.queue[1..], took := p.took + [p.queue[0]])
  }

  function SentOne(p: Peer): Peer
    requires p.queue != []
  {
    var m := p.queue[0];
    p.(queue := p.queue[1..], took := p.took + [m], wire := p.wire + [Head(m), Body(m)])
  }

  // One more step of the peer, after it has already changed to p.
  lemma ActsAgain(env: Env, s: Net, id: nat, p: Peer, act: LocalAct)
    requires id in s.peers && Leads(env, s, WithPeer(s, id, p)) && LocalEnabled(env, s.stopping, p, act)
    ensures Leads(env, s, WithPeer(s, id, Local(env, s, p, act)))
  {
    hide Leads, LocalEnabled;
    var t := WithPeer(s, id, p);
    Acts(env, s, t, id, act);
    assert WithPeer(t, id, Local(env, t, p, act)) == WithPeer(s, id, Local(env, t, p, act));
  }

  lemma SelectIs(env: Env, s: Net, p: Peer)
    requires p.send == LoopHead && !s.stopping
    ensures Local(env, s, p, SendLoop) == p.(send := Selecting)
  {
  }

  lemma TakeIs(env: Env, s: Net, p: Peer)
    requires p.send == LoopHead && p.queue != []
    ensures Local(env, s, p.(send := Selecting), TakeQueued) == Taken(p)
  {
  }

  lemma HeadIs(env: Env, s: Net, p: Peer)
    requires p.open && p.queue != []
    ensures
      var m := p.queue[0];
      Local(env, s, Taken(p), WriteQueued(true)) == Taken(p).(send := SendBody(m), wire := p.wire + [Head(m)])
  {
  }

  lemma BodyIs(env: Env, s: Net, p: Peer)
    requires p.open && p.queue != [] && p.send == LoopHead
    ensures
      var m := p.queue[0];
      Local(env, s, Taken(p).(send := SendBody(m), wire := p.wire + [Head(m)]), WriteQueued(true)) == SentOne(p)
  {
    var m := p.queue[0];
    assert (p.wire + [Head(m)]) + [Body(m)] == p.wire + [Head(m), Body(m)];
  }

  lemma TakesNext(env: Env, s: Net, id: nat)
    requires id in s.peers && s.peers[id].send == LoopHead && s.peers[id].queue != [] && !s.stopping
    ensures Leads(env, s, WithPeer(s, id, Taken(s.peers[id])))
  {
    var p := s.peers[id];
    assert WithPeer(s, id, p) == s;
    hide Leads, Local, Taken;
    StandsStill(env, s);
    SelectIs(env, s, p);
    ActsAgain(env, s, id, p, SendLoop);
    TakeIs(env, s, p);
    ActsAgain(env, s, id, p.(send := Selecting), TakeQueued);
  }

  lemma TakenSends(p: Peer)
    requires p.queue != [] && p.open
    ensures Taken(p).open && Taken(p).send == SendHead(p.queue[0])
  {
  }

  lemma NextGoesOut(env: Env, s: Net, id: nat)
    requires id in s.peers && s.peers[id].send == LoopHead && s.peers[id].open && s.peers[id].queue != [] && !s.stopping
    ensures Leads(env, s, WithPeer(s, id, SentOne(s.peers[id])))
  {
    var p, m := s.peers[id], s.peers[id].queue[0];
    hide Leads, Local, SentOne, Taken;
    TakesNext(env, s, id);
    TakenSends(p);
    HeadIs(env, s, p);
    ActsAgain(env, s, id, Taken(p), WriteQueued(true));
    BodyIs(env, s, p);
    ActsAgain(env, s, id, Taken(p).(send := SendBody(m), wire := p.wire + [Head(m)]), WriteQueued(true));
  }

  lemma {:induction false} ChunksCons(m: Message, rest: seq<Message>)
    ensures Chunks([m] + rest) == [Head(m), Body(m)] + Chunks(rest)
    decreases |rest|
  {
    if rest == [] {
      assert [m] + rest == [] + [m];
      ChunksSnoc([], m);
    } else {
      var n := |rest| - 1;
      ChunksCons(m, rest[..n]);
      assert rest == rest[..n] + [rest[n]];
      ChunksSnoc(rest[..n], rest[n]);
      ChunksSnoc([m] + rest[..n], rest[n]);
      assert [m] + rest == ([m] + rest[..n]) + [rest[n]];
    }
  }

  // All of p's queue has been taken and written whole, in order, and nothing else.
  predicate Drained(p: Peer, q: Peer) {
    q == p.(queue := [], took := p.took + p.queue, wire := p.wire + Chunks(p.queue))
  }

  lemma DrainedAfterOne(p: Peer, q: Peer)
    requires p.queue != [] && Drained(SentOne(p), q)
    ensures Drained(p, q)
  {
    hide Chunks;
    var p1 := SentOne(p);
    assert p.queue == [p.queue[0]] + p1.queue;
    ChunksCons(p.queue[0], p1.queue);
    assert p1.took + p1.queue == p.took + p.queue;
    assert p1.wire + Chunks(p1.queue) == p.wire + Chunks(p.queue);
  }

  lemma NothingToDrain(p: Peer)
    requires p.queue == []
    ensures Drained(p, p)
  {
    assert p.took + p.queue == p.took && p.wire + Chunks(p.queue) == p.wire;
  }

  lemma SentOneStays(p: Peer)
    requires p.queue != []
    ensures SentOne(p).send == p.send && SentOne(p).open == p.open && |SentOne(p).queue| < |p.queue|
  {
  }

  /** What waits for a connected peer has a run to its connection: every message whole, in order, nothing
      left over, nothing else written. */
  lemma {:induction false} QueueGoesOut(env: Env, s: Net, id: nat) returns (q: Peer)
    requires id in s.peers && s.peers[id].send == LoopHead && s.peers[id].open && !s.stopping
    ensures Leads(env, s, WithPeer(s, id, q)) && Drained(s.peers[id], q)
    decreases |s.peers[id].queue|
  {
    hide Leads, Drained, SentOne;
    var p := s.peers[id];
    if p.queue == [] {
      StandsStill(env, s);
      NothingToDrain(p);
      q := p;
      assert WithPeer(s, id, q) == s;
    } else {
      var s1 := WithPeer(s, id, SentOne(p));
      NextGoesOut(env, s, id);
      SentOneStays(p);
      q := QueueGoesOut(env, s1, id);
      assert WithPeer(s1, id, q) == WithPeer(s, id, q);
      LeadsOn(env, s, s1, WithPeer(s, id, q));
      DrainedAfterOne(p, q);
    }
  }

  // ---------------------------------------------------------------- closing

  /** Every failure of a peer's connection, and the end of the service for its send goroutine, leads to
      closePeer. */
  lemma FailureCloses(env: Env, s: Net, id: nat, act: LocalAct)
    requires id in s.peers && LocalEnabled(env, s.stopping, s.peers[id], act)
    ensures
      var q := Local(env, s, s.peers[id], act);
      && (act == WriteHello(false) || act == ReadFirst(None) || act == RelayRead(None) ==> q.recv == Closing)
      && (act == WriteQueued(false) || act == SendStop ==> q.send == SendClosing)
  {
  }

  lemma ClosesConn(env: Env, s: Net, id: nat, sender: bool) returns (t: Net)
    requires id in s.peers && if sender then s.peers[id].send == SendClosing else s.peers[id].recv == Closing
    ensures Leads(env, s, t) && id in t.peers && t == s.(peers := s.peers[id := t.peers[id]])
    ensures
      var p, q := s.peers[id], t.peers[id];
      && q == p.(open := false, recv := q.recv, send := q.send)
      && if sender then q.send == SendRemoving && q.recv == p.recv else q.recv == Removing && q.send == p.send
  {
    var act := if sender then SendCloseConn else CloseConn;
    t := WithPeer(s, id, Local(env, s, s.peers[id], act));
    hide Leads;
    StandsStill(env, s);
    Acts(env, s, s, id, act);
  }

  lemma RemovesNext(env: Env, s: Net, id: nat, sender: bool)
    requires id in s.peers && if sender then s.peers[id].send == SendRemoving else s.peers[id].recv == Removing
    ensures Enabled(env, s, RemovePeer(id, sender)) && Next(env, s, RemovePeer(id, sender)) == RemoveStep(s, id, sender)
  {
    hide RemoveStep;
  }

  lemma RemovedIs(p: Peer, sender: bool, at: nat)
    ensures
      var q := Removed(p, sender, at);
      q.closed && q.open == p.open && if sender then q.send == SendEnded else q.recv == Ended
  {
  }

  /** A peer about to close has a run of two steps to its end: its connection is closed, it is registered
      nowhere, its connection is tracked no more, and nobody else's registration or connection is touched. */
  lemma CloserFinishes(env: Env, s: Net, id: nat, sender: bool) returns (t: Net)
    requires Reachable(env, s) && id in s.peers
    requires if sender then s.peers[id].send == SendClosing else s.peers[id].recv == Closing
    ensures Leads(env, s, t) && id in t.peers
    ensures t.peers[id].closed && !t.peers[id].open
    ensures if sender then t.peers[id].send == SendEnded else t.peers[id].recv == Ended
    ensures id !in t.shared.connectedPeers.Values && id !in t.shared.connections
    ensures forall q :: q != id ==>
      && (q in t.shared.connectedPeers.Values <==> q in s.shared.connectedPeers.Values)
      && (q in t.shared.connections <==> q in s.shared.connections)
  {
    hide Reachable, Leads, PeersOk, HandsOk, Removed, Remove, Next, Enabled;
    var s1 := ClosesConn(env, s, id, sender);
    StaysReachable(env, s, s1);
    ReachableInv(env, s1);
    RemoveShared(s1, id);
    RemovesNext(env, s1, id, sender);
    GoesOn(env, s, s1, RemovePeer(id, sender));
    t := RemoveStep(s1, id, sender);
    RemovedIs(s1.peers[id], sender, |s1.log|);
  }

  /** A connection that was refused is closed by its next step. */
  lemma RefusedCloses(env: Env, s: Net, id: nat)
    requires id in s.peers && s.peers[id].recv == Refused
    ensures Enabled(env, s, Own(id, DropConn))
    ensures
      var t := Next(env, s, Own(id, DropConn));
      && id in t.peers && !t.peers[id].open && t.peers[id].recv == Dropped && t == WithPeer(s, id, t.peers[id])
  {
  }

  // ---------------------------------------------------------------- the end of the service

  /** Once the service is to stop, Stop can run, and it closes exactly the tracked connections, of peers and
      of handlers, and nothing else changes. */
  lemma StopClosesTracked(env: Env, s: Net, id: nat)
    ensures Enabled(env, s, RequestStop) && Enabled(env, Next(env, s, RequestStop), StopAll)
    ensures
      var t := Next(env, Next(env, s, RequestStop), StopAll);
      && t.stopping && t.stopped && t == s.(stopping := true, stopped := true, peers := t.peers, hands := t.hands)
      && (id in t.peers <==> id in s.peers) && (id in t.hands <==> id in s.hands)
      && (id in s.peers ==>
            t.peers[id] == s.peers[id].(open := s.peers[id].open && id !in s.shared.connections))
      && (id in s.hands ==>
            t.hands[id] == s.hands[id].(open := s.hands[id].open && id !in s.shared.connections))
  {
  }

  /** While the service stops, the receive goroutine of a relaying peer ends without closing it, one that
      waits for an announcement stops waiting and goes on without one, and the send goroutine ends at its
      next round; until then they do not. */
  lemma StoppingSteps(env: Env, s: Net, id: nat)
    requires id in s.peers
    ensures
      var p := s.peers[id];
      && (LocalEnabled(env, s.stopping, p, RelayStop) <==> p.recv == Relaying && s.stopping)
      && (LocalEnabled(env, s.stopping, p, RelayStop) ==> Local(env, s, p, RelayStop) == p.(recv := Ended))
      && (LocalEnabled(env, s.stopping, p, GiveUpWaiting) <==> p.recv == WaitAnnounce && s.stopping)
      && (LocalEnabled(env, s.stopping, p, GiveUpWaiting) ==>
            Local(env, s, p, GiveUpWaiting) == p.(recv := PutHead, asked := true))
      && (p.send == LoopHead ==>
            Local(env, s, p, SendLoop) == p.(send := if s.stopping then SendEnded else Selecting))
  {
  }
}
