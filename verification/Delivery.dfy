/**
 A node of the gossip network is the peer system: what the network does in one delivery, the goroutines of
 the receiving node do in the steps that handle the message.
 */
module Delivery {
  import opened Types
  import opened Registry
  import Store
  import Gossip
  import opened PeerSystem
  import opened PeerInvariant
  import opened PeerTheorems
  import opened News
  import opened Handshake

  // Node v of the network holds for every other key what this node's database stores.
  ghost predicate Mirrors(env: Env, db: Store.Tables, g: Gossip.Network, v: Gossip.Node) {
    && v in g.keyOf && g.keyOf[v] == env.me
    && forall k: PubKey :: k != env.me ==> MirrorsKey(db, g, v, k)
  }

  predicate MirrorsKey(db: Store.Tables, g: Gossip.Network, v: Gossip.Node, k: PubKey) {
    StoredPayload(db, k) == if (v, k) in g.stored then Some(g.stored[(v, k)]) else None
  }

  // The nodes whose queue here is full; `nodeOf` says which node each registered peer is.
  function FullNodes(s: Net, nodeOf: map<nat, Gossip.Node>): set<Gossip.Node> {
    set q | q in nodeOf && q in s.peers && |s.peers[q].queue| >= 100 :: nodeOf[q]
  }

  // Every registered peer is another node, and a connected one.
  ghost predicate Named(s: Net, g: Gossip.Network, v: Gossip.Node, nodeOf: map<nat, Gossip.Node>) {
    && nodeOf.Keys == s.shared.connectedPeers.Values
    && (forall q :: q in nodeOf ==> q in s.peers && nodeOf[q] != v && (v, nodeOf[q]) in g.wires)
    && (forall q, r :: q in nodeOf && r in nodeOf && nodeOf[q] == nodeOf[r] ==> q == r)
  }

  // The step of the network that delivers message m from node u.
  ghost function Delivered(env: Env, s: Net, m: Message, u: Gossip.Node, v: Gossip.Node,
                           nodeOf: map<nat, Gossip.Node>): Gossip.Step
  {
    Gossip.Step((u, v), Acceptable(env, m.payload, s.now) && IsStorable(env, s.db, m), FullNodes(s, nodeOf))
  }

  // What the goroutines come to agrees with what the network comes to: the same payloads are stored, the
  // peer is closed exactly if the network drops its connection, and each peer's queue has got the message
  // exactly if the link to it has.
  ghost predicate Agrees(env: Env, s: Net, t: Net, id: nat, m: Message, g: Gossip.Network, step: Gossip.Step,
                         nodeOf: map<nat, Gossip.Node>)
    requires Gossip.Enabled(g, step)
  {
    var v, g' := step.link.1, Gossip.Next(g, step);
    && Mirrors(env, t.db, g', v) && id in t.peers && t.peers.Keys == s.peers.Keys
    && t.peers[id].recv == (if step.link in g'.wires then Relaying else Closing)
    && forall q :: q in nodeOf && q in s.peers && (v, nodeOf[q]) in g.wires && step.link in g'.wires ==>
         QueueAgrees(s, t, q, m, g, step, nodeOf[q])
  }

  ghost predicate QueueAgrees(s: Net, t: Net, q: nat, m: Message, g: Gossip.Network, step: Gossip.Step, w: Gossip.Node)
    requires Gossip.Enabled(g, step) && q in s.peers && q in t.peers && (step.link.1, w) in g.wires
  {
    var l, g' := (step.link.1, w), Gossip.Next(g, step);
    l in g'.wires &&
    if t.peers[q].queue == s.peers[q].queue then g'.wires[l] == Gossip.Left(g, step, l)
    else t.peers[q].queue == s.peers[q].queue + [m]
         && g'.wires[l] == Gossip.Left(g, step, l) + [Gossip.Gram(m.key, m.payload)]
  }

  // A delivery that leaves the database and the queues alone.
  lemma QuietAgrees(env: Env, s: Net, t: Net, id: nat, m: Message, g: Gossip.Network, step: Gossip.Step,
                    nodeOf: map<nat, Gossip.Node>)
    requires Gossip.Enabled(g, step) && g.wires[step.link][0] == Gossip.Gram(m.key, m.payload)
    requires step.link.0 != step.link.1 && Mirrors(env, s.db, g, step.link.1)
    requires !Gossip.Ingests(g, step) && t.db == s.db && t.peers.Keys == s.peers.Keys && id in t.peers
    requires forall q :: q in s.peers ==> t.peers[q].queue == s.peers[q].queue
    requires t.peers[id].recv == if m.key == env.me || step.accepted then Relaying else Closing
    ensures Agrees(env, s, t, id, m, g, step, nodeOf)
  {
    hide Gossip.Next, MirrorsKey;
    var v, g' := step.link.1, Gossip.Next(g, step);
    Gossip.DeliveryEffects(g, step, step.link, (v, m.key));
    forall k: PubKey | k != env.me
      ensures MirrorsKey(t.db, g', v, k)
    {
      Gossip.DeliveryEffects(g, step, step.link, (v, k));
      SameKey(s.db, g, g', v, k);
    }
    forall q | q in nodeOf && q in s.peers && (v, nodeOf[q]) in g.wires && step.link in g'.wires
      ensures QueueAgrees(s, t, q, m, g, step, nodeOf[q])
    {
      Gossip.DeliveryEffects(g, step, (v, nodeOf[q]), (v, m.key));
    }
  }

  lemma SameKey(db: Store.Tables, g: Gossip.Network, g': Gossip.Network, v: Gossip.Node, k: PubKey)
    requires MirrorsKey(db, g, v, k)
    requires (v, k) in g'.stored <==> (v, k) in g.stored
    requires (v, k) in g.stored ==> g'.stored[(v, k)] == g.stored[(v, k)]
    ensures MirrorsKey(db, g', v, k)
  {
  }

  // A delivery of news: it is stored and broadcast.
  lemma NewsAgrees(env: Env, s: Net, t: Net, id: nat, m: Message, g: Gossip.Network, step: Gossip.Step,
                   nodeOf: map<nat, Gossip.Node>)
    requires Gossip.Enabled(g, step) && g.wires[step.link][0] == Gossip.Gram(m.key, m.payload)
    requires Mirrors(env, s.db, g, step.link.1) && Gossip.Ingests(g, step)
    requires Named(s, g, step.link.1, nodeOf) && step.full == FullNodes(s, nodeOf)
    requires Cast(s, t, m) && id in t.peers && t.peers[id].recv == Relaying
    requires StoredPayload(t.db, m.key) == Some(m.payload)
    requires forall k: PubKey :: k != m.key ==> StoredPayload(t.db, k) == StoredPayload(s.db, k)
    ensures Agrees(env, s, t, id, m, g, step, nodeOf)
  {
    hide Gossip.Next;
    var v, g' := step.link.1, Gossip.Next(g, step);
    Gossip.DeliveryEffects(g, step, step.link, (v, m.key));
    forall k: PubKey | k != env.me
      ensures MirrorsKey(t.db, g', v, k)
    {
      assert MirrorsKey(s.db, g, v, k);
      Gossip.DeliveryEffects(g, step, step.link, (v, k));
    }
    forall q | q in nodeOf && q in s.peers && (v, nodeOf[q]) in g.wires && step.link in g'.wires
      ensures QueueAgrees(s, t, q, m, g, step, nodeOf[q])
    {
      Gossip.DeliveryEffects(g, step, (v, nodeOf[q]), (v, m.key));
      assert nodeOf[q] in FullNodes(s, nodeOf) <==> |s.peers[q].queue| >= 100;
    }
  }

  // Does this delivery make the node ingest? Exactly if the message is acceptable news.
  lemma IngestsIff(env: Env, s: Net, m: Message, g: Gossip.Network, u: Gossip.Node, v: Gossip.Node,
                   nodeOf: map<nat, Gossip.Node>)
    requires (u, v) in g.wires && g.wires[(u, v)] != [] && g.wires[(u, v)][0] == Gossip.Gram(m.key, m.payload)
    requires Mirrors(env, s.db, g, v)
    ensures Gossip.Ingests(g, Delivered(env, s, m, u, v, nodeOf)) <==>
      m.key != env.me && Acceptable(env, m.payload, s.now) && IsNews(env, s.db, m)
  {
    assert m.key != env.me ==> MirrorsKey(s.db, g, v, m.key);
  }

  // The peer has read a message of another key.
  function Read(s: Net, id: nat, m: Message): Net
    requires id in s.peers
  {
    WithPeer(s, id, s.peers[id].(recv := Ingesting(m, true)))
  }

  // Reading the message, and ingesting and passing it on where that is due.
  ghost function Handled(env: Env, s: Net, id: nat, m: Message, oid: int): Net
    requires id in s.peers && s.peers[id].recv == Relaying
  {
    if m.key == env.me then s
    else
      var s2 := IngestStep(env, Read(s, id, m), id, Committed(oid, false));
      if id in s2.peers && s2.peers[id].recv.PassingOn? then PassOnStep(s2, id) else s2
  }

  lemma HandledLeads(env: Env, s: Net, id: nat, m: Message, oid: int)
    requires id in s.peers && s.peers[id].recv == Relaying && env.Verified(m) && IsAddress(m)
    requires Store.FreshOid(s.db, oid)
    ensures Leads(env, s, Handled(env, s, id, m, oid))
  {
    hide Leads, IngestStep, PassOnStep;
    StandsStill(env, s);
    if m.key != env.me {
      var s1 := WithPeer(s, id, s.peers[id].(recv := Ingesting(m, true)));
      var s2 := IngestStep(env, s1, id, Committed(oid, false));
      RelayedIsIngested(env, s, id, Some(m));
      GoesOn(env, s, s, Own(id, RelayRead(Some(m))));
      hide Next, Enabled;
      IngestsNext(env, s1, id, Committed(oid, false));
      GoesOn(env, s, s1, Ingest(id, Committed(oid, false)));
      if id in s2.peers && s2.peers[id].recv.PassingOn? {
        PassesOnNext(env, s2, id);
        GoesOn(env, s, s2, PassOn(id));
      }
    }
  }

  lemma AcceptableDecodes(env: Env, payload: Payload, now: int)
    requires Acceptable(env, payload, now)
    ensures env.decode(payload).Some?
  {
  }

  lemma WentOnRelaying(p: Peer, q: Peer)
    ensures WentOn(p, true, q) ==> q.recv == Relaying
  {
  }

  lemma RefusedOnlyMoves(env: Env, s: Net, id: nat, oid: int)
    requires id in s.peers && s.peers[id].recv.Ingesting? && !Acceptable(env, s.peers[id].recv.msg.payload, s.now)
    ensures IngestStep(env, s, id, Committed(oid, false)) == WithPeer(s, id, s.peers[id].(recv := Closing))
  {
    AcceptableIffInRange(env, s.peers[id].recv.msg.payload, s.now);
  }

  lemma CastAfterReading(s: Net, s1: Net, s2: Net, id: nat, t: Net, m: Message)
    requires id in s.peers && id in s1.peers && s1 == WithPeer(s, id, s.peers[id].(recv := s1.peers[id].recv))
    requires id in s2.peers && s2 == s1.(db := s2.db, peers := s1.peers[id := s2.peers[id]])
    requires SameOtherwise(s1.peers[id], s2.peers[id]) && Cast(s2, t, m)
    ensures Cast(s, t, m) && id in t.peers
  {
    CastAfter(s1, s2, id, t, m);
  }

  lemma SameQueues(s: Net, s1: Net, s2: Net, id: nat)
    requires id in s.peers && id in s1.peers && s1 == WithPeer(s, id, s.peers[id].(recv := s1.peers[id].recv))
    requires id in s2.peers && s2 == s1.(db := s2.db, peers := s1.peers[id := s2.peers[id]])
    requires SameOtherwise(s1.peers[id], s2.peers[id])
    ensures s2.peers.Keys == s.peers.Keys && forall q :: q in s.peers ==> s2.peers[q].queue == s.peers[q].queue
  {
    KeepsQueue(s1.peers[id], s2.peers[id]);
  }

  // What handling a message comes to: it was news, stored and broadcast, or nothing was stored or broadcast.
  ghost predicate StoredAndCast(s: Net, t: Net, id: nat, m: Message) {
    && id in t.peers && t.peers[id].recv == Relaying
    && Cast(s, t, m) && StoredPayload(t.db, m.key) == Some(m.payload)
    && forall k: PubKey :: k != m.key ==> StoredPayload(t.db, k) == StoredPayload(s.db, k)
  }

  ghost predicate NothingCame(s: Net, t: Net) {
    && t.db == s.db && t.peers.Keys == s.peers.Keys
    && forall q :: q in s.peers ==> t.peers[q].queue == s.peers[q].queue
  }

  lemma HandledNews(env: Env, s: Net, id: nat, m: Message, oid: int)
    requires id in s.peers && s.peers[id].recv == Relaying && m.key != env.me
    requires Acceptable(env, m.payload, s.now) && IsNews(env, s.db, m)
    ensures StoredAndCast(s, Handled(env, s, id, m, oid), id, m)
  {
    AcceptableDecodes(env, m.payload, s.now);
    var s1 := Read(s, id, m);
    var s2 := IngestStep(env, s1, id, Committed(oid, false));
    hide IngestStep, PassOnStep, Acceptable, IsNews, Cast, WentOn, SameOtherwise, SameButQueue;
    IngestDecides(env, s1, id, oid, false);
    forall k: PubKey
      ensures k != m.key ==> StoredPayload(s2.db, k) == StoredPayload(s.db, k)
      ensures StoredPayload(s2.db, m.key) == Some(m.payload) && StoredPayload(s.db, m.key) != Some(m.payload)
    {
      NewsIsStored(env, s1, id, oid, k);
    }
    PassingOnCasts(env, s2, id);
    CastAfterReading(s, s1, s2, id, PassOnStep(s2, id), m);
    WentOnRelaying(s2.peers[id], PassOnStep(s2, id).peers[id]);
  }

  lemma NewsIsStored(env: Env, s: Net, id: nat, oid: int, k: PubKey)
    requires id in s.peers && s.peers[id].recv.Ingesting? && Acceptable(env, s.peers[id].recv.msg.payload, s.now)
    requires IsNews(env, s.db, s.peers[id].recv.msg)
    ensures
      var m, db' := s.peers[id].recv.msg, IngestStep(env, s, id, Committed(oid, false)).db;
      && StoredPayload(db', m.key) == Some(m.payload) && StoredPayload(s.db, m.key) != Some(m.payload)
      && (k != m.key ==> StoredPayload(db', k) == StoredPayload(s.db, k))
  {
    hide IngestStep;
    IngestStores(env, s, id, oid, false, k);
  }

  lemma HandledKnown(env: Env, s: Net, id: nat, m: Message, oid: int)
    requires id in s.peers && s.peers[id].recv == Relaying && m.key != env.me
    requires Acceptable(env, m.payload, s.now) && !IsNews(env, s.db, m)
    ensures
      var t := Handled(env, s, id, m, oid);
      && NothingCame(s, t) && id in t.peers
      && t.peers[id].recv == if IsStorable(env, s.db, m) then Relaying else Closing
  {
    AcceptableDecodes(env, m.payload, s.now);
    var s1 := Read(s, id, m);
    var s2 := IngestStep(env, s1, id, Committed(oid, false));
    hide IngestStep, PassOnStep, Acceptable, IsNews, IsStorable, WentOn, SameOtherwise;
    IngestStores(env, s1, id, oid, false, m.key);
    IngestDecides(env, s1, id, oid, false);
    WentOnRelaying(s1.peers[id], s2.peers[id]);
    SameQueues(s, s1, s2, id);
  }

  lemma HandledRefused(env: Env, s: Net, id: nat, m: Message, oid: int)
    requires id in s.peers && s.peers[id].recv == Relaying && m.key != env.me && !Acceptable(env, m.payload, s.now)
    ensures
      var t := Handled(env, s, id, m, oid);
      NothingCame(s, t) && id in t.peers && t.peers[id].recv == Closing
  {
    hide IngestStep, PassOnStep, Acceptable;
    RefusedOnlyMoves(env, Read(s, id, m), id, oid);
  }

  /** Each delivery of the gossip network is a run of the receiving node's goroutines: from any state that
      agrees with the network, reading the message, checking and storing it and passing it on lead to a state
      that agrees with the network after the delivery. */
  lemma DeliveryIsARun(env: Env, s: Net, id: nat, m: Message, oid: int, g: Gossip.Network, u: Gossip.Node,
                       v: Gossip.Node, nodeOf: map<nat, Gossip.Node>) returns (t: Net)
    requires id in s.peers && s.peers[id].recv == Relaying && env.Verified(m) && IsAddress(m)
    requires Store.FreshOid(s.db, oid) && u != v && Mirrors(env, s.db, g, v) && Named(s, g, v, nodeOf)
    requires (u, v) in g.wires && g.wires[(u, v)] != [] && g.wires[(u, v)][0] == Gossip.Gram(m.key, m.payload)
    ensures Leads(env, s, t)
    ensures Agrees(env, s, t, id, m, g, Delivered(env, s, m, u, v, nodeOf), nodeOf)
  {
    hide Leads, Handled, Mirrors, Named, Agrees, Cast, IsNews, Acceptable;
    t := Handled(env, s, id, m, oid);
    var step := Delivered(env, s, m, u, v, nodeOf);
    HandledLeads(env, s, id, m, oid);
    IngestsIff(env, s, m, g, u, v, nodeOf);
    if m.key == env.me {
      OwnIsIgnored(env, s, id, m, oid);
      QuietAgrees(env, s, t, id, m, g, step, nodeOf);
    } else if Gossip.Ingests(g, step) {
      HandledNews(env, s, id, m, oid);
      NewsAgrees(env, s, t, id, m, g, step, nodeOf);
    } else {
      if Acceptable(env, m.payload, s.now) {
        HandledKnown(env, s, id, m, oid);
      } else {
        HandledRefused(env, s, id, m, oid);
      }
      QuietAgrees(env, s, t, id, m, g, step, nodeOf);
    }
  }

  lemma OwnIsIgnored(env: Env, s: Net, id: nat, m: Message, oid: int)
    requires id in s.peers && s.peers[id].recv == Relaying && m.key == env.me
    ensures Handled(env, s, id, m, oid) == s
  {
  }
}
