/**
 Who gets through the handshake: which first messages end it, and that nothing else does.
 */
module Handshake {
  import opened Types
  import opened Registry
  import Store
  import opened PeerSystem
  import opened PeerInvariant
  import opened PeerSteps
  import opened PeerTheorems
  import opened News

  // ---------------------------------------------------------------- tracking

  lemma TrackedIs(p: Peer, ok: bool, at: nat)
    ensures Tracked(p, ok, at).recv == if !ok then Refused else if p.outbound then WaitAnnounce else AwaitFirst
  {
  }

  lemma TracksNext(env: Env, s: Net, id: nat)
    requires id in s.peers && s.peers[id].recv == Dialed
    ensures Enabled(env, s, TrackConn(id)) && Next(env, s, TrackConn(id)) == TrackStep(s, id)
  {
    hide TrackStep;
  }

  /** trackPeer refuses a connection if and only if the service is stopping or the connection was dialed
      for a key that is registered already; it tracks it unless the service is stopping, and registers it
      exactly if it was dialed for a free key. The peer goes on to the handshake, or is about to be dropped. */
  lemma TrackingDecides(env: Env, s: Net, id: nat)
    requires id in s.peers && s.peers[id].recv == Dialed
    ensures Enabled(env, s, TrackConn(id))
    ensures
      var p, t := s.peers[id], Next(env, s, TrackConn(id));
      var taken := p.wanted != 0 && p.wanted in s.shared.connectedPeers;
      && id in t.peers && t.log == s.log && t.db == s.db
      && t.peers[id].recv ==
         (if s.stopping || taken then Refused else if p.outbound then WaitAnnounce else AwaitFirst)
      && t.shared.connections == (if s.stopping then s.shared.connections else s.shared.connections + [id])
      && t.shared.connectedPeers ==
         if s.stopping || taken || p.wanted == 0 then s.shared.connectedPeers
         else s.shared.connectedPeers[p.wanted := id]
  {
    hide Tracked, Next, Enabled;
    TracksNext(env, s, id);
    TrackedIs(s.peers[id], Track(s.shared, id, id, s.peers[id].wanted, s.stopping).1, |s.log|);
  }

  // ---------------------------------------------------------------- which first messages are refused

  predicate IsAddress(m: Message) {
    m.channel == NodeChannel && m.tag == AddrTag
  }

  // Nothing was read, or no [Node][Addr] message, or one for an unexpected key, this node's own key, or,
  // from a peer not known before, a key that is registered already.
  predicate Refusable(env: Env, p: Peer, msg: Option<Message>, registry: map<PubKey, nat>) {
    || msg.None? || !IsAddress(msg.value)
    || (p.hasPub && msg.value.key != p.wanted) || msg.value.key == env.me
    || (!p.hasPub && msg.value.key in registry)
  }

  // Does the first message lead to adoptPeer?
  predicate LeadsToAdopt(env: Env, p: Peer, m: Message) {
    !p.hasPub && if p.outbound then IsAddress(m) else m.key != env.me
  }

  lemma ReadingDecides(env: Env, p: Peer, m: Message)
    requires Identity(p)
    ensures
      var p' := GotFirst(env, p, m);
      && FirstTaken(p, m, p')
      && (p'.recv == Adopting(m) <==> LeadsToAdopt(env, p, m))
      && (p'.recv == Ingesting(m, false) <==> p.hasPub && IsAddress(m) && m.key == p.peerPub && m.key != env.me)
      && (p'.recv != Closing ==> p'.peerPub == m.key)
  {
  }

  lemma AdoptingControl(env: Env, stopping: bool, stopped: bool, registered: bool, tracked: bool, p: Peer)
    requires ControlOk(env, stopping, stopped, registered, tracked, p) && p.recv.Adopting?
    ensures p.first == Some(p.recv.msg) && p.peerPub == p.recv.msg.key
    ensures p.outbound ==> IsAddress(p.recv.msg)
    ensures !p.outbound ==> p.recv.msg.key != env.me
  {
  }

  lemma AdoptedDecides(env: Env, p: Peer, ok: bool, at: nat)
    requires p.recv.Adopting?
    ensures
      var m, p' := p.recv.msg, Adopted(env, p, ok, at);
      && p'.first == p.first && p'.peerPub == p.peerPub
      && p'.recv ==
         if ok && (p.outbound ==> m.key != env.me) && (!p.outbound ==> IsAddress(m)) then Ingesting(m, false)
         else Closing
  {
  }

  lemma AdoptKeyIs(env: Env, s: Net, id: nat)
    requires id in s.peers && s.peers[id].recv.Adopting?
    ensures
      var p, s' := s.peers[id], Next(env, s, AdoptKey(id));
      && id in s'.peers
      && s'.peers[id] == Adopted(env, p, p.peerPub !in s.shared.connectedPeers, |s.log|)
      && s'.shared == Adopt(s.shared, id, p.peerPub).0
  {
    hide Adopted;
  }

  /** Whenever adoptPeer is called, it registers the peer exactly if its key is free. The peer is about to
      close exactly if the key was not free, the message is no [Node][Addr] or the key is this node's own;
      otherwise its address is ingested next. */
  lemma AdoptionDecides(env: Env, s: Net, id: nat)
    requires Reachable(env, s) && id in s.peers && s.peers[id].recv.Adopting?
    ensures
      var m, registry, s' := s.peers[id].recv.msg, s.shared.connectedPeers, Next(env, s, AdoptKey(id));
      && id in s'.peers && s'.peers[id].first == Some(m) && s'.peers[id].peerPub == m.key
      && s'.shared.connectedPeers == (if m.key in registry then registry else registry[m.key := id])
      && (s'.peers[id].recv == Closing <==> m.key in registry || !IsAddress(m) || m.key == env.me)
      && (s'.peers[id].recv != Closing ==> s'.peers[id].recv == Ingesting(m, false))
  {
    hide Reachable, PeerOk, ControlOk, Next, Adopted;
    var p := s.peers[id];
    ReachableInv(env, s);
    PeerFacts(env, s, id);
    AdoptingControl(env, s.stopping, s.stopped, id in ViewOf(s).registered, id in ViewOf(s).connections, p);
    AdoptKeyIs(env, s, id);
    AdoptedDecides(env, p, p.peerPub !in s.shared.connectedPeers, |s.log|);
  }

  lemma FirstControlFacts(env: Env, stopping: bool, stopped: bool, registered: bool, tracked: bool, p: Peer)
    requires ControlOk(env, stopping, stopped, registered, tracked, p) && p.recv == AwaitFirst
    ensures Identity(p) && (p.hasPub ==> p.peerPub == p.wanted)
    ensures p.hasPub && p.wanted != NO_KEY ==> registered
  {
  }

  // After the first message, and after adoptPeer where it is due.
  ghost function AfterFirst(env: Env, s: Net, id: nat, msg: Option<Message>): Net
    requires id in s.peers && LocalEnabled(env, s.stopping, s.peers[id], ReadFirst(msg))
  {
    var s1 := Next(env, s, Own(id, ReadFirst(msg)));
    if s1.peers[id].recv.Adopting? then Next(env, s1, AdoptKey(id)) else s1
  }

  lemma AfterFirstIs(env: Env, s: Net, id: nat, m: Message)
    requires id in s.peers && LocalEnabled(env, s.stopping, s.peers[id], ReadFirst(Some(m)))
    requires Identity(s.peers[id])
    ensures
      var p, t := s.peers[id], AfterFirst(env, s, id, Some(m));
      && id in t.peers && t.now == s.now && t.stopping == s.stopping && t.db == s.db
      && (LeadsToAdopt(env, p, m) ==>
            && t.shared == Adopt(s.shared, id, m.key).0
            && t.peers[id] == Adopted(env, GotFirst(env, p, m), m.key !in s.shared.connectedPeers, |s.log|))
      && (!LeadsToAdopt(env, p, m) ==> t.shared == s.shared && t.peers[id] == GotFirst(env, p, m))
  {
    hide GotFirst, Adopted;
    ReadingDecides(env, s.peers[id], m);
  }

  /** After its first message, and adoptPeer where it is due, a peer is about to close if and only if it
      sent none, or no [Node][Addr] message, or one for another key than expected, or for this node's own
      key, or, if it was not known before, for a key that is registered already. Otherwise it is registered
      under the message's key, its address is ingested next, and no other registration has changed. */
  lemma FirstMessageDecides(env: Env, s: Net, id: nat, msg: Option<Message>, k: PubKey)
    requires Reachable(env, s) && id in s.peers && LocalEnabled(env, s.stopping, s.peers[id], ReadFirst(msg))
    ensures
      var p, registry, t := s.peers[id], s.shared.connectedPeers, AfterFirst(env, s, id, msg);
      && id in t.peers
      && (t.peers[id].recv == Closing <==> Refusable(env, p, msg, registry))
      && (t.peers[id].recv != Closing ==>
            && t.peers[id].recv == Ingesting(msg.value, false) && t.peers[id].first == msg
            && HoldsKey(t.shared.connectedPeers, msg.value.key, id)
            && (k != msg.value.key ==>
                  (k in t.shared.connectedPeers <==> k in registry)
                  && (k in registry ==> t.shared.connectedPeers[k] == registry[k])))
  {
    hide Reachable, PeerOk, ControlOk, GotFirst, Adopted, AfterFirst;
    ReachableInv(env, s);
    PeerFacts(env, s, id);
    var p := s.peers[id];
    FirstControlFacts(env, s.stopping, s.stopped, id in ViewOf(s).registered, id in ViewOf(s).connections, p);
    if msg.Some? {
      var m := msg.value;
      AfterFirstIs(env, s, id, m);
      ReadingDecides(env, p, m);
      if LeadsToAdopt(env, p, m) {
        AdoptedDecides(env, GotFirst(env, p, m), m.key !in s.shared.connectedPeers, |s.log|);
      } else if p.hasPub && m.key == p.wanted && m.key != NO_KEY {
        RegisteredUnder(s, id);
      }
    } else {
      assert AfterFirst(env, s, id, msg).peers[id].recv == Closing by {
        NothingRead(env, s, id);
      }
    }
  }

  lemma NothingRead(env: Env, s: Net, id: nat)
    requires id in s.peers && s.peers[id].recv == AwaitFirst
    ensures id in AfterFirst(env, s, id, None).peers && AfterFirst(env, s, id, None).peers[id].recv == Closing
  {
  }

  lemma RegisteredUnder(s: Net, id: nat)
    requires RegistryOk(s.shared.connectedPeers, s.peers) && id in s.peers && id in s.shared.connectedPeers.Values
    ensures HoldsKey(s.shared.connectedPeers, s.peers[id].peerPub, id)
  {
    var k :| k in s.shared.connectedPeers && s.shared.connectedPeers[k] == id;
  }

  // ---------------------------------------------------------------- everyone else gets through

  // Between s and t nothing changed in what the handshake of peer id starts from.
  predicate Kept(s: Net, t: Net, id: nat) {
    && id in s.peers && id in t.peers && t.now == s.now && t.stopping == s.stopping
    && t.shared.announce == s.shared.announce
    && var p, q := s.peers[id], t.peers[id];
       q.outbound == p.outbound && q.hasPub == p.hasPub && q.wanted == p.wanted && q.open == p.open
  }

  lemma IsTracked(env: Env, s: Net, id: nat) returns (t: Net)
    requires id in s.peers && s.peers[id].recv == Dialed && !s.stopping
    requires s.peers[id].wanted == NO_KEY || s.peers[id].wanted !in s.shared.connectedPeers
    ensures Leads(env, s, t) && Kept(s, t, id) && t.db == s.db
    ensures
      var p, q := s.peers[id], t.peers[id];
      && q.recv == (if p.outbound then WaitAnnounce else AwaitFirst)
      && q.send == p.send && q.wire == p.wire && q.peerPub == p.peerPub
      && t.shared.connectedPeers ==
         if p.wanted == NO_KEY then s.shared.connectedPeers else s.shared.connectedPeers[p.wanted := id]
  {
    t := Next(env, s, TrackConn(id));
    hide Next, Enabled;
    StandsStill(env, s);
    assert Enabled(env, s, TrackConn(id)) by {
      TrackIsEnabled(env, s, id);
    }
    GoesOn(env, s, s, TrackConn(id));
  }

  lemma TrackIsEnabled(env: Env, s: Net, id: nat)
    requires id in s.peers && s.peers[id].recv == Dialed
    ensures Enabled(env, s, TrackConn(id))
  {
  }

  // One step of the peer itself.
  lemma Acts(env: Env, s: Net, t: Net, id: nat, act: LocalAct)
    requires Leads(env, s, t) && id in t.peers && LocalEnabled(env, t.stopping, t.peers[id], act)
    ensures Leads(env, s, WithPeer(t, id, Local(env, t, t.peers[id], act)))
  {
    hide Leads, Local, LocalEnabled;
    GoesOn(env, s, t, Own(id, act));
  }

  // The peer after sendMyAddress has read the announcement, and after it has written it whole.
  function Asked(p: Peer, s: Net): Peer {
    p.(asked := true, hello := s.shared.announce, helloNo := |s.anns|, helloAt := |s.log|, recv := PutHead)
  }

  function Greeted(p: Peer, s: Net): Peer
    requires s.shared.announce.Some?
  {
    HelloStep(HelloStep(Asked(p, s), true), true)
  }

  lemma GreetedIs(p: Peer, s: Net)
    requires s.shared.announce.Some?
    ensures
      var q, m := Greeted(p, s), s.shared.announce.value;
      && q.recv == (if p.outbound then AwaitFirst else Relaying)
      && q.send == (if p.outbound then p.send else LoopHead)
      && q.wire == p.wire + [Head(m), Body(m)]
      && q.peerPub == p.peerPub && q.first == p.first && q.open == p.open
      && q.outbound == p.outbound && q.hasPub == p.hasPub && q.wanted == p.wanted
  {
    var m := s.shared.announce.value;
    assert (p.wire + [Head(m)]) + [Body(m)] == p.wire + [Head(m), Body(m)];
  }

  lemma Writes(env: Env, s: Net, t: Net, id: nat, p: Peer)
    requires Leads(env, s, t) && id in t.peers && t.peers[id] == p
    requires (p.recv == PutHead || p.recv == PutBody) && p.open
    ensures Leads(env, s, WithPeer(t, id, HelloStep(p, true)))
  {
    hide Leads, HelloStep;
    Acts(env, s, t, id, WriteHello(true));
  }

  lemma Asks(env: Env, s: Net, id: nat)
    requires id in s.peers && s.peers[id].recv == WaitAnnounce && s.shared.announce.Some?
    ensures Leads(env, s, WithPeer(s, id, Asked(s.peers[id], s)))
  {
    StandsStill(env, s);
    hide Leads;
    Acts(env, s, s, id, ReadAnnounce);
  }

  lemma HalfWritten(p: Peer, s: Net)
    requires s.shared.announce.Some? && p.open
    ensures
      var q := HelloStep(Asked(p, s), true);
      q.recv == PutBody && q.open
  {
  }

  lemma GreetingLeads(env: Env, s: Net, id: nat)
    requires id in s.peers && s.peers[id].recv == WaitAnnounce && s.peers[id].open && s.shared.announce.Some?
    ensures Leads(env, s, WithPeer(s, id, Greeted(s.peers[id], s)))
  {
    hide Leads, HelloStep;
    var p := s.peers[id];
    var p1 := Asked(p, s);
    var p2 := HelloStep(p1, true);
    Asks(env, s, id);
    HalfWritten(p, s);
    Writes(env, s, WithPeer(s, id, p1), id, p1);
    assert WithPeer(WithPeer(s, id, p1), id, p2) == WithPeer(s, id, p2);
    Writes(env, s, WithPeer(s, id, p2), id, p2);
    assert WithPeer(WithPeer(s, id, p2), id, HelloStep(p2, true)) == WithPeer(s, id, HelloStep(p2, true));
  }

  lemma Greets(env: Env, s: Net, id: nat) returns (t: Net)
    requires id in s.peers && s.peers[id].recv == WaitAnnounce && s.peers[id].open && s.shared.announce.Some?
    ensures Leads(env, s, t) && Kept(s, t, id) && t.db == s.db && t.shared == s.shared
    ensures
      var p, q, m := s.peers[id], t.peers[id], s.shared.announce.value;
      && q.recv == (if p.outbound then AwaitFirst else Relaying)
      && q.send == (if p.outbound then p.send else LoopHead)
      && q.wire == p.wire + [Head(m), Body(m)]
      && q.peerPub == p.peerPub && q.first == p.first
  {
    hide Leads, Greeted;
    GreetingLeads(env, s, id);
    GreetedIs(s.peers[id], s);
    t := WithPeer(s, id, Greeted(s.peers[id], s));
  }

  lemma IsHeard(env: Env, s: Net, id: nat, m: Message) returns (t: Net)
    requires Reachable(env, s) && id in s.peers && LocalEnabled(env, s.stopping, s.peers[id], ReadFirst(Some(m)))
    requires !Refusable(env, s.peers[id], Some(m), s.shared.connectedPeers)
    ensures Leads(env, s, t) && Kept(s, t, id) && t.db == s.db
    ensures
      var p, q := s.peers[id], t.peers[id];
      && q.recv == Ingesting(m, false) && q.send == p.send && q.wire == p.wire && q.first == Some(m)
      && HoldsKey(t.shared.connectedPeers, m.key, id)
  {
    assert s.peers[id].recv == AwaitFirst;
    hide Reachable, Leads, AfterFirst, LocalEnabled, Identity, Refusable;
    t := AfterFirst(env, s, id, Some(m));
    FirstMessageDecides(env, s, id, Some(m), m.key);
    AfterFirstLeads(env, s, id, Some(m));
    WaitingIdentity(env, s, id);
    AfterFirstKeeps(env, s, id, m);
  }

  lemma WaitingIdentity(env: Env, s: Net, id: nat)
    requires Reachable(env, s) && id in s.peers && s.peers[id].recv == AwaitFirst
    ensures Identity(s.peers[id])
  {
    hide Reachable, PeerOk, ControlOk;
    ReachableInv(env, s);
    PeerFacts(env, s, id);
    FirstControlFacts(env, s.stopping, s.stopped, id in ViewOf(s).registered, id in ViewOf(s).connections, s.peers[id]);
  }

  lemma AfterFirstLeads(env: Env, s: Net, id: nat, msg: Option<Message>)
    requires id in s.peers && LocalEnabled(env, s.stopping, s.peers[id], ReadFirst(msg))
    ensures Leads(env, s, AfterFirst(env, s, id, msg))
  {
    hide Leads, Local, LocalEnabled;
    StandsStill(env, s);
    GoesOn(env, s, s, Own(id, ReadFirst(msg)));
    var s1 := Next(env, s, Own(id, ReadFirst(msg)));
    if s1.peers[id].recv.Adopting? {
      GoesOn(env, s, s1, AdoptKey(id));
    }
  }

  lemma AfterFirstKeeps(env: Env, s: Net, id: nat, m: Message)
    requires id in s.peers && LocalEnabled(env, s.stopping, s.peers[id], ReadFirst(Some(m)))
    requires Identity(s.peers[id])
    ensures
      var p, t := s.peers[id], AfterFirst(env, s, id, Some(m));
      id in t.peers && Kept(s, t, id) && t.db == s.db && t.peers[id].send == p.send && t.peers[id].wire == p.wire
  {
    hide GotFirst, Adopted, AfterFirst;
    var p := s.peers[id];
    AfterFirstIs(env, s, id, m);
    ReadingDecides(env, p, m);
    if LeadsToAdopt(env, p, m) {
      AdoptedKeeps(env, GotFirst(env, p, m), m.key !in s.shared.connectedPeers, |s.log|);
    }
  }

  lemma AdoptedKeeps(env: Env, p: Peer, ok: bool, at: nat)
    requires p.recv.Adopting?
    ensures
      var q := Adopted(env, p, ok, at);
      q == p.(recv := q.recv, regAt := q.regAt)
  {
  }

  // Between s and t the peer has only moved on; other peers' queues and the database may have grown.
  predicate OnlyMoved(s: Net, t: Net, id: nat) {
    && Kept(s, t, id) && t.shared == s.shared
    && var p, q := s.peers[id], t.peers[id];
       q.wire == p.wire && q.first == p.first && q.peerPub == p.peerPub
  }

  lemma MovedInPlace(s: Net, t: Net, id: nat)
    requires id in s.peers && id in t.peers && t == s.(db := t.db, peers := s.peers[id := t.peers[id]])
    requires SameOtherwise(s.peers[id], t.peers[id])
    ensures OnlyMoved(s, t, id)
  {
  }

  lemma MovedInPassing(s: Net, t: Net, id: nat)
    requires id in s.peers && id in t.peers && t == s.(log := t.log, peers := t.peers)
    requires SameButQueue(s.peers[id], t.peers[id])
    ensures OnlyMoved(s, t, id)
  {
  }

  lemma MovedOnAgain(s: Net, t: Net, u: Net, id: nat)
    requires OnlyMoved(s, t, id) && OnlyMoved(t, u, id)
    ensures OnlyMoved(s, u, id)
  {
  }

  // The ingest itself.
  lemma StoresAddress(env: Env, s: Net, id: nat, oid: int) returns (t: Net)
    requires id in s.peers && s.peers[id].recv.Ingesting? && !s.peers[id].recv.relaying
    requires Acceptable(env, s.peers[id].recv.msg.payload, s.now) && IsStorable(env, s.db, s.peers[id].recv.msg)
    requires Store.FreshOid(s.db, oid)
    ensures Leads(env, s, t) && OnlyMoved(s, t, id)
    ensures
      var p, m := s.peers[id], s.peers[id].recv.msg;
      && StoredPayload(t.db, m.key) == Some(m.payload)
      && var q := t.peers[id];
         if q.recv.PassingOn? then q.recv == PassingOn(m, false, false) && q.send == p.send else WentOn(p, false, q)
  {
    var m, end := s.peers[id].recv.msg, Committed(oid, false);
    assert env.decode(m.payload).Some?;
    assert StoredPayload(s.db, m.key) == Some(m.payload) || IsNews(env, s.db, m);
    hide Leads, IngestStep, Acceptable, SameOtherwise, WentOn, OnlyMoved, Next, Enabled, IsNews, IsStorable;
    t := IngestStep(env, s, id, end);
    IngestStores(env, s, id, oid, false, m.key);
    IngestDecides(env, s, id, oid, false);
    IngestsNext(env, s, id, end);
    StandsStill(env, s);
    GoesOn(env, s, s, Ingest(id, end));
    MovedInPlace(s, t, id);
    OnlyMovedStays(s, t, id);
  }

  lemma OnlyMovedStays(s: Net, t: Net, id: nat)
    requires OnlyMoved(s, t, id)
    ensures id in t.peers
  {
  }

  lemma PassesItOn(env: Env, s: Net, id: nat) returns (t: Net)
    requires id in s.peers && s.peers[id].recv.PassingOn? && !s.peers[id].recv.failed && !s.peers[id].recv.relaying
    ensures Leads(env, s, t) && OnlyMoved(s, t, id) && t.db == s.db
    ensures WentOn(s.peers[id], false, t.peers[id])
  {
    hide Leads, PassOnStep, SameButQueue, WentOn, OnlyMoved, Next, Enabled, Cast;
    t := PassOnStep(s, id);
    PassingOnCasts(env, s, id);
    PassesOnNext(env, s, id);
    StandsStill(env, s);
    GoesOn(env, s, s, PassOn(id));
    MovedInPassing(s, t, id);
  }

  // The peer's address is stored, and passed on if it is news, and the peer goes on.
  lemma IsIngested(env: Env, s: Net, id: nat, oid: int) returns (t: Net)
    requires id in s.peers && s.peers[id].recv.Ingesting? && !s.peers[id].recv.relaying
    requires Acceptable(env, s.peers[id].recv.msg.payload, s.now) && IsStorable(env, s.db, s.peers[id].recv.msg)
    requires Store.FreshOid(s.db, oid)
    ensures Leads(env, s, t) && OnlyMoved(s, t, id) && WentOn(s.peers[id], false, t.peers[id])
    ensures StoredPayload(t.db, s.peers[id].recv.msg.key) == Some(s.peers[id].recv.msg.payload)
  {
    hide Leads, Acceptable, IsStorable;
    t := StoresAddress(env, s, id, oid);
    if t.peers[id].recv.PassingOn? {
      var s1 := t;
      t := PassesItOn(env, s1, id);
      LeadsOn(env, s, s1, t);
      MovedOnAgain(s, s1, t, id);
    }
  }

  lemma DialedPeer(env: Env, s: Net, id: nat)
    requires Reachable(env, s) && id in s.peers && s.peers[id].recv == Dialed
    ensures
      var p := s.peers[id];
      && p.open && p.wire == [] && p.send == NotStarted && Identity(p)
  {
    hide Reachable, PeerOk, ControlOk;
    ReachableInv(env, s);
    PeerFacts(env, s, id);
    DialedWire(s.peers[id]) by {
      Parts(env, ViewOf(s), id, s.peers[id]);
    }
    DialedControl(env, s.stopping, s.stopped, id in ViewOf(s).registered, id in ViewOf(s).connections, s.peers[id]);
  }

  lemma DialedWire(p: Peer)
    requires WiredOk(p) && p.recv == Dialed
    ensures p.send == NotStarted ==> p.wire == []
  {
    ChunksOfHello(p.hello);
  }

  lemma DialedControl(env: Env, stopping: bool, stopped: bool, registered: bool, tracked: bool, p: Peer)
    requires ControlOk(env, stopping, stopped, registered, tracked, p) && p.recv == Dialed
    ensures p.open && p.send == NotStarted && Identity(p)
  {
  }

  // The peer relays and is sent to; its first message was m; it got our announcement; it is registered
  // under its key and the database has its address.
  ghost predicate GotThrough(s: Net, id: nat, m: Message, announcement: Message) {
    && id in s.peers && s.peers[id].recv == Relaying && s.peers[id].send == LoopHead && s.peers[id].open
    && s.peers[id].first == Some(m) && s.peers[id].wire == [Head(announcement), Body(announcement)]
    && HoldsKey(s.shared.connectedPeers, m.key, id)
    && StoredPayload(s.db, m.key) == Some(m.payload)
  }

  lemma OutboundGetsThrough(env: Env, s: Net, id: nat, m: Message, oid: int) returns (t: Net)
    requires Reachable(env, s) && id in s.peers && s.peers[id].recv == WaitAnnounce && s.peers[id].outbound
    requires s.peers[id].open && s.peers[id].wire == [] && s.shared.announce.Some?
    requires env.Verified(m) && IsAddress(m) && m.key != env.me
    requires if s.peers[id].hasPub then m.key == s.peers[id].wanted else m.key !in s.shared.connectedPeers
    requires Acceptable(env, m.payload, s.now) && IsStorable(env, s.db, m) && Store.FreshOid(s.db, oid)
    ensures Leads(env, s, t) && GotThrough(t, id, m, s.shared.announce.value)
  {
    hide Reachable, Leads, Acceptable, IsStorable;
    var s1 := Greets(env, s, id);
    StaysReachable(env, s, s1);
    var s2 := IsHeard(env, s1, id, m);
    LeadsOn(env, s, s1, s2);
    t := IsIngested(env, s2, id, oid);
    LeadsOn(env, s, s2, t);
  }

  lemma InboundIsTaken(env: Env, s: Net, id: nat, m: Message, oid: int) returns (t: Net)
    requires Reachable(env, s) && id in s.peers && s.peers[id].recv == AwaitFirst
    requires !s.peers[id].outbound && !s.peers[id].hasPub && s.peers[id].open
    requires env.Verified(m) && IsAddress(m) && m.key != env.me && m.key !in s.shared.connectedPeers
    requires Acceptable(env, m.payload, s.now) && IsStorable(env, s.db, m) && Store.FreshOid(s.db, oid)
    ensures Leads(env, s, t) && id in t.peers && t.shared.announce == s.shared.announce
    ensures
      var p, q := s.peers[id], t.peers[id];
      && q.recv == WaitAnnounce && !q.outbound && q.open && q.wire == p.wire && q.first == Some(m)
      && HoldsKey(t.shared.connectedPeers, m.key, id) && StoredPayload(t.db, m.key) == Some(m.payload)
  {
    hide Reachable, Leads, Acceptable, IsStorable;
    var s1 := IsHeard(env, s, id, m);
    t := IsIngested(env, s1, id, oid);
    LeadsOn(env, s, s1, t);
  }

  lemma InboundGetsThrough(env: Env, s: Net, id: nat, m: Message, oid: int) returns (t: Net)
    requires Reachable(env, s) && id in s.peers && s.peers[id].recv == AwaitFirst
    requires !s.peers[id].outbound && !s.peers[id].hasPub
    requires s.peers[id].open && s.peers[id].wire == [] && s.shared.announce.Some?
    requires env.Verified(m) && IsAddress(m) && m.key != env.me && m.key !in s.shared.connectedPeers
    requires Acceptable(env, m.payload, s.now) && IsStorable(env, s.db, m) && Store.FreshOid(s.db, oid)
    ensures Leads(env, s, t) && GotThrough(t, id, m, s.shared.announce.value)
  {
    hide Reachable, Leads, Acceptable, IsStorable, Kept;
    var s1 := InboundIsTaken(env, s, id, m, oid);
    t := Greets(env, s1, id);
    KeptOpen(s1, t, id);
    LeadsOn(env, s, s1, t);
  }

  lemma KeptOpen(s: Net, t: Net, id: nat)
    requires Kept(s, t, id)
    ensures id in s.peers && id in t.peers && t.peers[id].open == s.peers[id].open
  {
  }

  /** Every peer, inbound, dialed under a known key or dialed as a seed, that has anything else to say than
      what is refused, an acceptable address that the database can take, and a key not registered yet, has a
      run through the handshake: at its end it relays and is sent to, it has been sent this node's
      announcement whole, it is registered under its key, and its address is stored. */
  lemma EveryoneElseGetsThrough(env: Env, s: Net, id: nat, m: Message, oid: int) returns (t: Net)
    requires Reachable(env, s) && id in s.peers && s.peers[id].recv == Dialed
    requires !s.stopping && s.shared.announce.Some?
    requires env.Verified(m) && IsAddress(m) && m.key != env.me && m.key !in s.shared.connectedPeers
    requires s.peers[id].hasPub ==> m.key == s.peers[id].wanted
    requires Acceptable(env, m.payload, s.now) && IsStorable(env, s.db, m) && Store.FreshOid(s.db, oid)
    ensures Leads(env, s, t) && GotThrough(t, id, m, s.shared.announce.value)
  {
    hide Reachable, Leads, Acceptable, IsStorable, Identity, GotThrough;
    DialedPeer(env, s, id);
    WantedKey(s.peers[id]);
    var s1 := IsTracked(env, s, id);
    StaysReachable(env, s, s1);
    if s.peers[id].outbound {
      t := OutboundGetsThrough(env, s1, id, m, oid);
    } else {
      t := InboundGetsThrough(env, s1, id, m, oid);
    }
    LeadsOn(env, s, s1, t);
  }

  lemma WantedKey(p: Peer)
    requires Identity(p)
    ensures (p.hasPub ==> p.outbound) && (!p.hasPub ==> p.wanted == NO_KEY)
  {
  }
}
