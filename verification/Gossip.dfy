/**
 Address gossip over a network of nodes. Each node stores one payload per key; an arriving
 announcement that differs from the stored one replaces it and is passed on to every connected
 peer, the one it came from included. A link is the whole way from one node's send queue to the
 other node's reader and delivers in order.
 */
module Gossip {
  import opened Types
  import Store

  type Node = nat
  type Link = (Node, Node)

  datatype Gram = Gram(key: PubKey, payload: Payload)

  predicate OwnsIn(keyOf: map<Node, PubKey>, v: Node, k: PubKey) {
    v in keyOf && keyOf[v] == k
  }

  datatype Network = Network(
    keyOf: map<Node, PubKey>,
    stored: map<(Node, PubKey), Payload>,
    wires: map<Link, seq<Gram>>)
  {
    predicate Holds(v: Node, k: PubKey, p: Payload) {
      (v, k) in stored && stored[(v, k)] == p
    }

    predicate Owns(v: Node, k: PubKey) {
      OwnsIn(keyOf, v, k)
    }
  }

  // Node `link.1` takes the next announcement off `link`. If it does not accept it, it closes the
  // connection; `full` are the peers whose send queue has no room when it passes it on.
  datatype Step = Step(link: Link, accepted: bool, full: set<Node>)

  predicate Enabled(s: Network, step: Step) {
    step.link in s.wires && s.wires[step.link] != []
  }

  function Popped(wires: map<Link, seq<Gram>>, l: Link): map<Link, seq<Gram>>
    requires l in wires && wires[l] != []
  {
    wires[l := wires[l][1..]]
  }

  function Broadcast(wires: map<Link, seq<Gram>>, v: Node, m: Gram, full: set<Node>): map<Link, seq<Gram>> {
    map l | l in wires :: if l.0 == v && l.1 !in full then wires[l] + [m] else wires[l]
  }

  // Does this delivery make the node store and pass on?
  predicate Ingests(s: Network, step: Step)
    requires Enabled(s, step)
  {
    var m := s.wires[step.link][0];
    step.accepted && !s.Owns(step.link.1, m.key) && !s.Holds(step.link.1, m.key, m.payload)
  }

  function Next(s: Network, step: Step): Network
    requires Enabled(s, step)
  {
    var l := step.link;
    var m := s.wires[l][0];
    if s.Owns(l.1, m.key) then s.(wires := Popped(s.wires, l))
    else if !step.accepted then s.(wires := s.wires - {l, (l.1, l.0)})
    else if !Ingests(s, step) then s.(wires := Popped(s.wires, l))
    else s.(stored := s.stored[(l.1, m.key) := m.payload],
            wires := Broadcast(Popped(s.wires, l), l.1, m, step.full))
  }

  predicate IsRun(s: Network, steps: seq<Step>)
    decreases |steps|
  {
    steps != [] ==> Enabled(s, steps[0]) && IsRun(Next(s, steps[0]), steps[1..])
  }

  function Run(s: Network, steps: seq<Step>): Network
    requires IsRun(s, steps)
    decreases |steps|
  {
    if steps == [] then s else Run(Next(s, steps[0]), steps[1..])
  }

  /** The rule each node follows is the one its database implements: AddNetNode reports a change
      exactly if the payload is not the stored one, and then stores it and touches no other key. */
  lemma DatabaseFollowsRule(t: Store.Tables, k: PubKey, rec: Store.Record, chans: seq<Chan>, oid: int, other: PubKey)
    requires Store.Distinct(chans)
    ensures Store.OutcomeOf(t, k, rec.payload, chans) == Store.Changed <==>
            !(k in t.nodes && t.nodes[k].rec.payload == rec.payload)
    ensures var t' := Store.AfterAddNode(t, k, rec, chans, oid);
      && k in t'.nodes && t'.nodes[k].rec.payload == rec.payload
      && (other != k ==> Store.SameRow(t.nodes, t'.nodes, other))
  {
  }

  // What waits on link l once its first announcement has been taken, if l is the link it came over.
  function Left(s: Network, step: Step, l: Link): seq<Gram>
    requires Enabled(s, step) && l in s.wires
  {
    if l == step.link then s.wires[l][1..] else s.wires[l]
  }

  /** What one delivery does to every link and every stored payload. A refused announcement costs the
      connection in both directions. Otherwise only the announcement itself is taken, and if it is news to a
      node that does not own its key, it is stored there and sent on every link of that node, the one it came
      over included, except to peers whose queue is full; a full queue costs nobody else the announcement. */
  lemma DeliveryEffects(s: Network, step: Step, l: Link, at: (Node, PubKey))
    requires Enabled(s, step) && l in s.wires
    ensures
      var s', v, m := Next(s, step), step.link.1, s.wires[step.link][0];
      var owns, held := s.Owns(v, m.key), s.Holds(v, m.key, m.payload);
      && s'.keyOf == s.keyOf
      && (l !in s'.wires <==> !owns && !step.accepted && (l == step.link || l == (v, step.link.0)))
      && (l in s'.wires && step.accepted ==>
            s'.wires[l] == Left(s, step, l) + (if !owns && !held && l.0 == v && l.1 !in step.full then [m] else []))
      && (l in s'.wires && !step.accepted ==> s'.wires[l] == Left(s, step, l))
      && (if !owns && !held && step.accepted && at == (v, m.key) then at in s'.stored && s'.stored[at] == m.payload
          else (at in s'.stored <==> at in s.stored) && (at in s.stored ==> s'.stored[at] == s.stored[at]))
  {
  }

  // ---------------------------------------------------------------- termination

  // Which payload a node is to end up with for a key.
  type Target = (Node, PubKey) -> Payload

  // All announcements under way are for these keys and carry, wherever one can be stored, the payload
  // that is due there; nodes joined by a link, neither of which owns the key, are due the same.
  ghost predicate OnePayload(s: Network, keys: set<PubKey>, target: Target) {
    && (forall l :: l in s.wires ==> l.1 in s.keyOf)
    && (forall l, i :: l in s.wires && 0 <= i < |s.wires[l]| ==> s.wires[l][i].key in keys)
    && (forall l, i :: l in s.wires && 0 <= i < |s.wires[l]| && !s.Owns(l.1, s.wires[l][i].key) ==>
          s.wires[l][i].payload == target(l.1, s.wires[l][i].key))
    && (forall l, k :: l in s.wires && k in keys && !s.Owns(l.0, k) && !s.Owns(l.1, k) ==>
          target(l.0, k) == target(l.1, k))
  }

  function Lacking(s: Network, keys: set<PubKey>, target: Target): set<(Node, PubKey)> {
    set v, k | v in s.keyOf && k in keys && !s.Owns(v, k) && !s.Holds(v, k, target(v, k)) :: (v, k)
  }

  function QueueLength(wires: map<Link, seq<Gram>>, l: Link): nat {
    if l in wires then |wires[l]| else 0
  }

  function InFlight(wires: map<Link, seq<Gram>>, links: seq<Link>): nat
    decreases |links|
  {
    if links == [] then 0 else QueueLength(wires, links[0]) + InFlight(wires, links[1..])
  }

  // Announcements under way, plus what every pair still lacking could add.
  function Measure(s: Network, links: seq<Link>, keys: set<PubKey>, target: Target): nat {
    InFlight(s.wires, links) + |links| * |Lacking(s, keys, target)|
  }

  lemma {:induction false} InFlightGrowth(a: map<Link, seq<Gram>>, b: map<Link, seq<Gram>>, links: seq<Link>,
                                          extra: nat)
    requires forall l :: l in links ==> QueueLength(b, l) <= QueueLength(a, l) + extra
    ensures InFlight(b, links) <= InFlight(a, links) + extra * |links|
    decreases |links|
  {
    if links != [] {
      InFlightGrowth(a, b, links[1..], extra);
      assert extra * |links| == extra + extra * |links[1..]|;
    }
  }

  lemma {:induction false} InFlightShrinks(a: map<Link, seq<Gram>>, b: map<Link, seq<Gram>>, links: seq<Link>, l: Link)
    requires l in links && QueueLength(b, l) < QueueLength(a, l)
    requires forall l' :: l' in links ==> QueueLength(b, l') <= QueueLength(a, l')
    ensures InFlight(b, links) < InFlight(a, links)
    decreases |links|
  {
    if links[0] == l {
      InFlightGrowth(a, b, links[1..], 0);
    } else {
      InFlightShrinks(a, b, links[1..], l);
    }
  }

  lemma StepKeepsOnePayload(s: Network, step: Step, keys: set<PubKey>, target: Target)
    requires OnePayload(s, keys, target) && Enabled(s, step)
    ensures OnePayload(Next(s, step), keys, target)
  {
    var v, m := step.link.1, s.wires[step.link][0];
    var s' := Next(s, step);
    forall l, i | l in s'.wires && 0 <= i < |s'.wires[l]|
      ensures s'.wires[l][i].key in keys
      ensures !s.Owns(l.1, s'.wires[l][i].key) ==> s'.wires[l][i].payload == target(l.1, s'.wires[l][i].key)
    {
      var sent := s'.wires[l][i];
      assert sent in s.wires[l] || (sent == m && l.0 == v && !s.Owns(v, m.key));
    }
  }

  lemma IngestFills(s: Network, step: Step, keys: set<PubKey>, target: Target)
    requires OnePayload(s, keys, target) && Enabled(s, step) && Ingests(s, step)
    ensures |Lacking(Next(s, step), keys, target)| == |Lacking(s, keys, target)| - 1
  {
    var pair := (step.link.1, s.wires[step.link][0].key);
    assert pair in Lacking(s, keys, target);
    assert Lacking(Next(s, step), keys, target) == Lacking(s, keys, target) - {pair};
  }

  lemma IngestGrowth(s: Network, step: Step, links: seq<Link>)
    requires Enabled(s, step) && Ingests(s, step) && step.link in links
    ensures InFlight(Next(s, step).wires, links) < InFlight(s.wires, links) + |links|
  {
    var popped := Popped(s.wires, step.link);
    InFlightShrinks(s.wires, popped, links, step.link);
    InFlightGrowth(popped, Next(s, step).wires, links, 1);
  }

  lemma OtherStepShrinks(s: Network, step: Step, links: seq<Link>, keys: set<PubKey>, target: Target)
    requires Enabled(s, step) && !Ingests(s, step) && step.link in links
    ensures InFlight(Next(s, step).wires, links) < InFlight(s.wires, links)
    ensures Lacking(Next(s, step), keys, target) == Lacking(s, keys, target)
  {
    var wires' := Next(s, step).wires;
    assert forall l :: QueueLength(wires', l) <= QueueLength(s.wires, l);
    InFlightShrinks(s.wires, wires', links, step.link);
  }

  lemma StepDecreases(s: Network, step: Step, links: seq<Link>, keys: set<PubKey>, target: Target)
    requires OnePayload(s, keys, target) && Enabled(s, step) && step.link in links
    ensures Measure(Next(s, step), links, keys, target) < Measure(s, links, keys, target)
  {
    if Ingests(s, step) {
      IngestFills(s, step, keys, target);
      IngestGrowth(s, step, links);
      ProductStep(|links|, |Lacking(s, keys, target)|);
    } else {
      OtherStepShrinks(s, step, links, keys, target);
    }
  }

  lemma ProductStep(d: nat, n: nat)
    requires n > 0
    ensures d * n == d * (n - 1) + d
  {
  }

  /** Every run in which each key has one payload under way, at least within each part of the network
      that nodes not owning it connect, halts within a bound that its starting state gives, even if
      connections are closed and full queues drop announcements. */
  lemma {:induction false} FloodTerminates(s: Network, steps: seq<Step>, links: seq<Link>, keys: set<PubKey>,
                                           target: Target)
    requires OnePayload(s, keys, target) && IsRun(s, steps) && (forall l :: l in s.wires ==> l in links)
    ensures |steps| <= InFlight(s.wires, links) + |links| * |Lacking(s, keys, target)|
    decreases |steps|
  {
    if steps != [] {
      StepDecreases(s, steps[0], links, keys, target);
      StepKeepsOnePayload(s, steps[0], keys, target);
      FloodTerminates(Next(s, steps[0]), steps[1..], links, keys, target);
    }
  }

  // Does step i of the run make node v store and pass on key k?
  ghost predicate IngestsAt(s: Network, steps: seq<Step>, i: nat, v: Node, k: PubKey)
    requires IsRun(s, steps) && i < |steps|
    decreases i
  {
    if i == 0 then Ingests(s, steps[0]) && steps[0].link.1 == v && s.wires[steps[0].link][0].key == k
    else IngestsAt(Next(s, steps[0]), steps[1..], i - 1, v, k)
  }

  lemma {:induction false} HolderNeverIngests(s: Network, steps: seq<Step>, i: nat, v: Node, k: PubKey,
                                              keys: set<PubKey>, target: Target)
    requires OnePayload(s, keys, target) && IsRun(s, steps) && i < |steps|
    requires k in keys && s.Holds(v, k, target(v, k))
    ensures !IngestsAt(s, steps, i, v, k)
    decreases i
  {
    StepKeepsOnePayload(s, steps[0], keys, target);
    if i > 0 {
      HolderNeverIngests(Next(s, steps[0]), steps[1..], i - 1, v, k, keys, target);
    }
  }

  lemma IngestHolds(s: Network, step: Step, keys: set<PubKey>, target: Target)
    requires OnePayload(s, keys, target) && Enabled(s, step) && Ingests(s, step)
    ensures
      var v, k := step.link.1, s.wires[step.link][0].key;
      k in keys && Next(s, step).Holds(v, k, target(v, k))
  {
  }

  /** Along such a run no node stores and passes on the same key twice. */
  lemma {:induction false} IngestsAtMostOnce(s: Network, steps: seq<Step>, i: nat, j: nat, v: Node, k: PubKey,
                                             keys: set<PubKey>, target: Target)
    requires OnePayload(s, keys, target) && IsRun(s, steps) && i < j < |steps|
    ensures !(IngestsAt(s, steps, i, v, k) && IngestsAt(s, steps, j, v, k))
    decreases i
  {
    hide Next, OnePayload, Enabled, Ingests;
    var s' := Next(s, steps[0]);
    StepKeepsOnePayload(s, steps[0], keys, target);
    if i > 0 {
      IngestsAtMostOnce(s', steps[1..], i - 1, j - 1, v, k, keys, target);
    } else if IngestsAt(s, steps, 0, v, k) {
      IngestHolds(s, steps[0], keys, target);
      HolderNeverIngests(s', steps[1..], j - 1, v, k, keys, target);
    }
  }

  // ---------------------------------------------------------------- coverage

  // Nothing is refused and no queue is full.
  predicate Reliable(steps: seq<Step>) {
    forall i :: 0 <= i < |steps| ==> steps[i].accepted && steps[i].full == {}
  }

  // The node that link l leads to holds the payload, owns the key, or has it coming.
  ghost predicate Reached(s: Network, l: Link, k: PubKey, p: Payload)
    requires l in s.wires
  {
    s.Holds(l.1, k, p) || s.Owns(l.1, k) || Gram(k, p) in s.wires[l]
  }

  // A holder's neighbour holds it too, or owns the key, or has it coming.
  ghost predicate Spreading(s: Network, k: PubKey, p: Payload) {
    forall l :: l in s.wires && s.Holds(l.0, k, p) ==> Reached(s, l, k, p)
  }

  ghost predicate OneFor(s: Network, k: PubKey, p: Payload) {
    forall l, i :: l in s.wires && 0 <= i < |s.wires[l]| && s.wires[l][i].key == k ==> s.wires[l][i].payload == p
  }

  lemma StepKeepsOneFor(s: Network, step: Step, k: PubKey, p: Payload)
    requires OneFor(s, k, p) && Enabled(s, step)
    ensures OneFor(Next(s, step), k, p)
  {
    var m := s.wires[step.link][0];
    var s' := Next(s, step);
    forall l, i | l in s'.wires && 0 <= i < |s'.wires[l]| && s'.wires[l][i].key == k
      ensures s'.wires[l][i].payload == p
    {
      assert s'.wires[l][i] == m || s'.wires[l][i] in s.wires[l];
    }
  }

  lemma StepKeepsHeld(s: Network, step: Step, k: PubKey, p: Payload)
    requires OneFor(s, k, p) && Enabled(s, step)
    ensures forall v :: s.Holds(v, k, p) ==> Next(s, step).Holds(v, k, p)
  {
  }

  lemma StaysReached(s: Network, step: Step, l: Link, k: PubKey, p: Payload)
    requires OneFor(s, k, p) && Enabled(s, step) && step.accepted && l in s.wires && Reached(s, l, k, p)
    ensures l in Next(s, step).wires && Reached(Next(s, step), l, k, p)
  {
    var m, s' := s.wires[step.link][0], Next(s, step);
    StepKeepsHeld(s, step, k, p);
    if Gram(k, p) in s.wires[l] && !(s.Holds(l.1, k, p) || s.Owns(l.1, k)) {
      assert s.wires[l] == [s.wires[l][0]] + s.wires[l][1..];
      assert (l == step.link && m == Gram(k, p)) || Gram(k, p) in s'.wires[l];
    }
  }

  lemma PassedOn(s: Network, step: Step, l: Link, k: PubKey, p: Payload)
    requires OneFor(s, k, p) && Enabled(s, step) && step.accepted && step.full == {}
    requires l in s.wires && !s.Holds(l.0, k, p) && Next(s, step).Holds(l.0, k, p)
    ensures l in Next(s, step).wires && Reached(Next(s, step), l, k, p)
  {
    var m, s' := s.wires[step.link][0], Next(s, step);
    assert Ingests(s, step) && l.0 == step.link.1 && m == Gram(k, p);
    assert s'.wires[l][|s'.wires[l]| - 1] == m;
  }

  lemma StepKeepsSpreading(s: Network, step: Step, k: PubKey, p: Payload)
    requires Spreading(s, k, p) && OneFor(s, k, p) && Enabled(s, step) && step.accepted && step.full == {}
    ensures Spreading(Next(s, step), k, p)
  {
    var s' := Next(s, step);
    forall l | l in s'.wires && s'.Holds(l.0, k, p)
      ensures Reached(s', l, k, p)
    {
      if s.Holds(l.0, k, p) {
        assert Reached(s, l, k, p);
        StaysReached(s, step, l, k, p);
      } else {
        PassedOn(s, step, l, k, p);
      }
    }
  }

  lemma {:induction false} RunKeepsSpreading(s: Network, steps: seq<Step>, k: PubKey, p: Payload)
    requires Spreading(s, k, p) && OneFor(s, k, p) && IsRun(s, steps) && Reliable(steps)
    ensures Spreading(Run(s, steps), k, p)
    ensures forall v :: s.Holds(v, k, p) ==> Run(s, steps).Holds(v, k, p)
    ensures Run(s, steps).keyOf == s.keyOf && Run(s, steps).wires.Keys == s.wires.Keys
    decreases |steps|
  {
    if steps != [] {
      StepKeepsSpreading(s, steps[0], k, p);
      StepKeepsOneFor(s, steps[0], k, p);
      StepKeepsHeld(s, steps[0], k, p);
      assert forall i :: 0 <= i < |steps[1..]| ==> steps[1..][i] == steps[i + 1];
      assert Next(s, steps[0]).wires.Keys == s.wires.Keys;
      RunKeepsSpreading(Next(s, steps[0]), steps[1..], k, p);
    }
  }

  // The owner of key k stores a new announcement of its own and sends it to every peer.
  function Originate(s: Network, owner: Node, k: PubKey, p: Payload): Network {
    s.(stored := s.stored[(owner, k) := p], wires := Broadcast(s.wires, owner, Gram(k, p), {}))
  }

  predicate IsPath(wires: map<Link, seq<Gram>>, path: seq<Node>) {
    && path != []
    && forall i :: 0 <= i < |path| - 1 ==> (path[i], path[i + 1]) in wires
  }

  predicate Quiet(s: Network) {
    forall l :: l in s.wires ==> s.wires[l] == []
  }

  // A run can be continued until nothing is under way.
  lemma StuckIffQuiet(s: Network)
    ensures Quiet(s) <==> forall step :: !Enabled(s, step)
  {
    forall l | l in s.wires && s.wires[l] != []
      ensures exists step :: Enabled(s, step)
    {
      assert Enabled(s, Step(l, true, {}));
    }
  }

  lemma {:induction false} QuietSpreadCovers(s: Network, path: seq<Node>, k: PubKey, p: Payload)
    requires Spreading(s, k, p) && Quiet(s) && IsPath(s.wires, path)
    requires forall v :: s.Owns(v, k) ==> v == path[0]
    requires s.Holds(path[0], k, p)
    ensures s.Holds(path[|path| - 1], k, p)
    decreases |path|
  {
    if |path| > 1 {
      var front := path[..|path| - 1];
      QuietSpreadCovers(s, front, k, p);
      assert (front[|front| - 1], path[|path| - 1]) in s.wires;
    }
  }

  lemma OriginateSpreads(s: Network, owner: Node, k: PubKey, p: Payload)
    requires forall l, i :: l in s.wires && 0 <= i < |s.wires[l]| ==> s.wires[l][i].key != k
    requires forall v :: !s.Holds(v, k, p)
    ensures
      var s0 := Originate(s, owner, k, p);
      Spreading(s0, k, p) && OneFor(s0, k, p) && s0.Holds(owner, k, p) && s0.wires.Keys == s.wires.Keys
  {
    var s0 := Originate(s, owner, k, p);
    forall l | l in s0.wires && s0.Holds(l.0, k, p)
      ensures Reached(s0, l, k, p)
    {
      assert !s.Holds(l.0, k, p);
      assert s0.wires[l][|s0.wires[l]| - 1] == Gram(k, p);
    }
    forall l, i | l in s0.wires && 0 <= i < |s0.wires[l]| && s0.wires[l][i].key == k
      ensures s0.wires[l][i].payload == p
    {
      assert l in s.wires;
      assert i < |s.wires[l]| ==> s0.wires[l][i] == s.wires[l][i];
    }
  }

  /** A new announcement sent into a network where its key is quiet reaches, by the time nothing is
      under way, every node that a path of connections joins to its owner. */
  lemma FloodCovers(s: Network, owner: Node, k: PubKey, p: Payload, steps: seq<Step>, path: seq<Node>)
    requires forall v :: s.Owns(v, k) <==> v == owner
    requires forall l, i :: l in s.wires && 0 <= i < |s.wires[l]| ==> s.wires[l][i].key != k
    requires forall v :: !s.Holds(v, k, p)
    requires IsRun(Originate(s, owner, k, p), steps) && Reliable(steps)
    requires Quiet(Run(Originate(s, owner, k, p), steps))
    requires IsPath(s.wires, path) && path[0] == owner
    ensures Run(Originate(s, owner, k, p), steps).Holds(path[|path| - 1], k, p)
  {
    hide Spreading, OneFor, Quiet;
    var s0 := Originate(s, owner, k, p);
    OriginateSpreads(s, owner, k, p);
    RunKeepsSpreading(s0, steps, k, p);
    assert forall v :: Run(s0, steps).Owns(v, k) <==> s.Owns(v, k);
    QuietSpreadCovers(Run(s0, steps), path, k, p);
  }

  // ---------------------------------------------------------------- two payloads for one key

  // u and v hold different payloads for a key that is neither's own, and each has its own one
  // on the way to the other.
  predicate Chasing(s: Network, u: Node, v: Node, k: PubKey, p: Payload, q: Payload) {
    && u != v && p != q && !s.Owns(u, k) && !s.Owns(v, k)
    && s.Holds(u, k, p) && s.Holds(v, k, q)
    && (u, v) in s.wires && s.wires[(u, v)] == [Gram(k, p)]
    && (v, u) in s.wires && s.wires[(v, u)] == [Gram(k, q)]
  }

  lemma ChaseRound(s: Network, u: Node, v: Node, k: PubKey, p: Payload, q: Payload)
    requires Chasing(s, u, v, k, p, q)
    ensures
      var there, back := Step((u, v), true, {}), Step((v, u), true, {});
      && Enabled(s, there) && Enabled(Next(s, there), back)
      && Chasing(Next(Next(s, there), back), u, v, k, q, p)
  {
  }

  /** Two payloads for one key can replace each other for ever: from every such state there are
      runs of any length, with nothing refused, dropped or injected. */
  lemma {:induction false} ChaseNeverEnds(s: Network, u: Node, v: Node, k: PubKey, p: Payload, q: Payload, rounds: nat)
    returns (steps: seq<Step>)
    requires Chasing(s, u, v, k, p, q)
    ensures |steps| == 2 * rounds && IsRun(s, steps) && Reliable(steps)
    ensures !Quiet(Run(s, steps))
    decreases rounds
  {
    if rounds == 0 {
      return [];
    }
    var there, back := Step((u, v), true, {}), Step((v, u), true, {});
    ChaseRound(s, u, v, k, p, q);
    var s1 := Next(s, there);
    var s2 := Next(s1, back);
    var rest := ChaseNeverEnds(s2, u, v, k, q, p, rounds - 1);
    var tail := [back] + rest;
    assert tail[1..] == rest;
    assert IsRun(s1, tail);
    steps := [there] + tail;
    assert steps[1..] == tail;
    assert Run(s, steps) == Run(s1, tail) == Run(s2, rest);
  }

  // ---------------------------------------------------------------- when every flood ends

  // Everything under way is for key k.
  ghost predicate OnlyKey(s: Network, k: PubKey) {
    forall l, i :: l in s.wires && 0 <= i < |s.wires[l]| ==> s.wires[l][i].key == k
  }

  // Every link has the owner of key k at one of its ends.
  ghost predicate OwnerAtEachLink(s: Network, k: PubKey) {
    forall l :: l in s.wires ==> s.Owns(l.0, k) || s.Owns(l.1, k)
  }

  lemma StepKeepsOnlyKey(s: Network, step: Step, k: PubKey)
    requires OnlyKey(s, k) && Enabled(s, step)
    ensures OnlyKey(Next(s, step), k)
  {
    var s' := Next(s, step);
    forall l, i | l in s'.wires && 0 <= i < |s'.wires[l]|
      ensures s'.wires[l][i].key == k
    {
      assert s'.wires[l][i] == s.wires[step.link][0] || s'.wires[l][i] in s.wires[l];
    }
  }

  // Announcements under way, plus what each one not yet with an owner could add.
  function OwnedMeasure(s: Network, links: seq<Link>, toOthers: seq<Link>): nat {
    InFlight(s.wires, links) + |links| * InFlight(s.wires, toOthers)
  }

  // The links, and those of them that do not lead to the owner of key k.
  ghost predicate SplitLinks(s: Network, k: PubKey, links: seq<Link>, toOthers: seq<Link>) {
    && (forall l :: l in s.wires ==> l in links)
    && (forall l :: l in s.wires && !s.Owns(l.1, k) ==> l in toOthers)
    && (forall l :: l in toOthers ==> !s.Owns(l.1, k))
  }

  lemma OwnedStepDecreases(s: Network, step: Step, k: PubKey, links: seq<Link>, toOthers: seq<Link>)
    requires OnlyKey(s, k) && OwnerAtEachLink(s, k) && SplitLinks(s, k, links, toOthers) && Enabled(s, step)
    ensures OwnedMeasure(Next(s, step), links, toOthers) < OwnedMeasure(s, links, toOthers)
  {
    var wires' := Next(s, step).wires;
    assert s.wires[step.link][0].key == k;
    if Ingests(s, step) {
      IngestGrowth(s, step, links);
      assert forall l :: l in toOthers ==> QueueLength(wires', l) <= QueueLength(s.wires, l);
      InFlightShrinks(s.wires, wires', toOthers, step.link);
      ProductGrows(|links|, InFlight(wires', toOthers) + 1, InFlight(s.wires, toOthers));
    } else {
      OtherStepShrinks(s, step, links, {}, (v, k) => 0);
      InFlightGrowth(s.wires, wires', toOthers, 0);
      ProductGrows(|links|, InFlight(wires', toOthers), InFlight(s.wires, toOthers));
    }
  }

  lemma ProductGrows(d: nat, m: nat, n: nat)
    requires m <= n
    ensures d * m <= d * n && (m > 0 ==> d * m == d * (m - 1) + d)
  {
  }

  lemma {:induction false} OwnedFloodTerminates(s: Network, steps: seq<Step>, k: PubKey, links: seq<Link>,
                                                toOthers: seq<Link>)
    requires OnlyKey(s, k) && OwnerAtEachLink(s, k) && SplitLinks(s, k, links, toOthers) && IsRun(s, steps)
    ensures |steps| <= OwnedMeasure(s, links, toOthers)
    decreases |steps|
  {
    hide OwnedMeasure, OnlyKey;
    if steps != [] {
      OwnedStepDecreases(s, steps[0], k, links, toOthers);
      StepKeepsOnlyKey(s, steps[0], k);
      OwnedFloodTerminates(Next(s, steps[0]), steps[1..], k, links, toOthers);
    }
  }

  // No run from this state is longer than n.
  ghost predicate HaltsWithin(s: Network, n: nat) {
    forall steps :: IsRun(s, steps) ==> |steps| <= n
  }

  ghost predicate Halts(s: Network) {
    exists n: nat :: HaltsWithin(s, n)
  }

  lemma {:induction false} Listed(links: set<Link>) returns (list: seq<Link>)
    ensures forall l :: l in list <==> l in links
  {
    if links == {} {
      return [];
    }
    var l :| l in links;
    var rest := Listed(links - {l});
    list := [l] + rest;
  }

  lemma OwnedFloodHalts(s: Network, k: PubKey)
    requires OnlyKey(s, k) && OwnerAtEachLink(s, k)
    ensures Halts(s)
  {
    var links := Listed(s.wires.Keys);
    var toOthers := Listed(set l | l in s.wires && !s.Owns(l.1, k));
    forall steps | IsRun(s, steps)
      ensures |steps| <= OwnedMeasure(s, links, toOthers)
    {
      OwnedFloodTerminates(s, steps, k, links, toOthers);
    }
    assert HaltsWithin(s, OwnedMeasure(s, links, toOthers));
  }

  // Two payloads for key k on the link between u and v.
  function Crossing(keyOf: map<Node, PubKey>, links: set<Link>, k: PubKey, u: Node, v: Node): Network {
    Network(keyOf, map[(u, k) := 0, (v, k) := 1],
            map l | l in links :: if l == (u, v) then [Gram(k, 0)] else if l == (v, u) then [Gram(k, 1)] else [])
  }

  lemma CrossingNeverHalts(keyOf: map<Node, PubKey>, links: set<Link>, k: PubKey, u: Node, v: Node)
    requires (u, v) in links && (v, u) in links && u != v
    requires var s := Crossing(keyOf, links, k, u, v); !s.Owns(u, k) && !s.Owns(v, k)
    ensures !Halts(Crossing(keyOf, links, k, u, v))
  {
    var s := Crossing(keyOf, links, k, u, v);
    if Halts(s) {
      var n: nat :| HaltsWithin(s, n);
      var steps := ChaseNeverEnds(s, u, v, k, 0, 1, n + 1);
    }
  }

  /** With connections that go both ways, every flood for key k halts, whatever each node holds and
      whatever is under way, if and only if no connection joins two nodes that do not own k. */
  lemma HaltsIff(keyOf: map<Node, PubKey>, links: set<Link>, k: PubKey)
    requires forall l :: l in links ==> (l.1, l.0) in links && l.0 != l.1
    ensures
      (forall s: Network :: s.keyOf == keyOf && s.wires.Keys == links && OnlyKey(s, k) ==> Halts(s)) <==>
      (forall l :: l in links ==> OwnsIn(keyOf, l.0, k) || OwnsIn(keyOf, l.1, k))
  {
    hide Halts;
    if forall l :: l in links ==> OwnsIn(keyOf, l.0, k) || OwnsIn(keyOf, l.1, k) {
      forall s: Network | s.keyOf == keyOf && s.wires.Keys == links && OnlyKey(s, k)
        ensures Halts(s)
      {
        OwnedFloodHalts(s, k);
      }
    } else {
      var l :| l in links && !OwnsIn(keyOf, l.0, k) && !OwnsIn(keyOf, l.1, k);
      var s := Crossing(keyOf, links, k, l.0, l.1);
      CrossingNeverHalts(keyOf, links, k, l.0, l.1);
      assert s.keyOf == keyOf && s.wires.Keys == links && OnlyKey(s, k);
    }
  }

  // ---------------------------------------------------------------- how a chase begins

  // Three nodes connected to each other, one of which owns key k, and what is under way among them.
  predicate Triangle(s: Network, o: Node, u: Node, v: Node, k: PubKey, ou: seq<Gram>, ov: seq<Gram>, uv: seq<Gram>,
                     vu: seq<Gram>)
  {
    && o != u && u != v && o != v
    && s.Owns(o, k) && !s.Owns(u, k) && !s.Owns(v, k)
    && (o, u) in s.wires && s.wires[(o, u)] == ou && (o, v) in s.wires && s.wires[(o, v)] == ov
    && (u, v) in s.wires && s.wires[(u, v)] == uv && (v, u) in s.wires && s.wires[(v, u)] == vu
  }

  lemma OriginateTwice(s: Network, o: Node, u: Node, v: Node, k: PubKey, p: Payload, q: Payload)
    requires Triangle(s, o, u, v, k, [], [], [], []) && !s.Holds(u, k, p) && !s.Holds(v, k, p)
    ensures
      var s' := Originate(Originate(s, o, k, p), o, k, q);
      && Triangle(s', o, u, v, k, [Gram(k, p), Gram(k, q)], [Gram(k, p), Gram(k, q)], [], [])
      && !s'.Holds(u, k, p) && !s'.Holds(v, k, p)
  {
  }

  lemma FirstToU(s: Network, o: Node, u: Node, v: Node, k: PubKey, p: Payload, q: Payload)
    requires Triangle(s, o, u, v, k, [Gram(k, p), Gram(k, q)], [Gram(k, p), Gram(k, q)], [], [])
    requires !s.Holds(u, k, p) && !s.Holds(v, k, p)
    ensures
      var step := Step((o, u), true, {});
      && Enabled(s, step) && var s' := Next(s, step);
      && Triangle(s', o, u, v, k, [Gram(k, q)], [Gram(k, p), Gram(k, q)], [Gram(k, p)], [])
      && s'.Holds(u, k, p) && !s'.Holds(v, k, p)
  {
  }

  lemma FirstToV(s: Network, o: Node, u: Node, v: Node, k: PubKey, p: Payload, q: Payload)
    requires Triangle(s, o, u, v, k, [Gram(k, q)], [Gram(k, p), Gram(k, q)], [Gram(k, p)], [])
    requires s.Holds(u, k, p) && !s.Holds(v, k, p)
    ensures
      var step := Step((o, v), true, {});
      && Enabled(s, step) && var s' := Next(s, step);
      && Triangle(s', o, u, v, k, [Gram(k, q)], [Gram(k, q)], [Gram(k, p)], [Gram(k, p)])
      && s'.Holds(u, k, p) && s'.Holds(v, k, p)
  {
  }

  lemma SecondToV(s: Network, o: Node, u: Node, v: Node, k: PubKey, p: Payload, q: Payload)
    requires Triangle(s, o, u, v, k, [Gram(k, q)], [Gram(k, q)], [Gram(k, p)], [Gram(k, p)])
    requires s.Holds(u, k, p) && s.Holds(v, k, p) && p != q
    ensures
      var step := Step((o, v), true, {});
      && Enabled(s, step) && var s' := Next(s, step);
      && Triangle(s', o, u, v, k, [Gram(k, q)], [], [Gram(k, p)], [Gram(k, p), Gram(k, q)])
      && s'.Holds(u, k, p) && s'.Holds(v, k, q)
  {
  }

  lemma FirstBack(s: Network, o: Node, u: Node, v: Node, k: PubKey, p: Payload, q: Payload)
    requires Triangle(s, o, u, v, k, [Gram(k, q)], [], [Gram(k, p)], [Gram(k, p), Gram(k, q)])
    requires s.Holds(u, k, p) && s.Holds(v, k, q) && p != q
    ensures
      var step := Step((v, u), true, {});
      Enabled(s, step) && Chasing(Next(s, step), u, v, k, p, q)
  {
  }

  lemma RunCons(s: Network, step: Step, rest: seq<Step>)
    requires Enabled(s, step) && IsRun(Next(s, step), rest)
    ensures IsRun(s, [step] + rest) && Run(s, [step] + rest) == Run(Next(s, step), rest)
  {
    hide Enabled, Next;
    assert ([step] + rest)[1..] == rest;
  }

  /** An owner that announces twice in a row can set off such a chase among two of its neighbours. */
  lemma DoubleAnnounceCanChase(s: Network, o: Node, u: Node, v: Node, k: PubKey, p: Payload, q: Payload)
    returns (steps: seq<Step>)
    requires Triangle(s, o, u, v, k, [], [], [], []) && p != q && !s.Holds(u, k, p) && !s.Holds(v, k, p)
    ensures
      var s0 := Originate(Originate(s, o, k, p), o, k, q);
      IsRun(s0, steps) && Reliable(steps) && Chasing(Run(s0, steps), u, v, k, p, q)
  {
    hide Next, Enabled, Originate, Chasing, Triangle;
    var toU, toV, back := Step((o, u), true, {}), Step((o, v), true, {}), Step((v, u), true, {});
    var s0 := Originate(Originate(s, o, k, p), o, k, q);
    OriginateTwice(s, o, u, v, k, p, q);
    FirstToU(s0, o, u, v, k, p, q);
    var s1 := Next(s0, toU);
    FirstToV(s1, o, u, v, k, p, q);
    var s2 := Next(s1, toV);
    SecondToV(s2, o, u, v, k, p, q);
    var s3 := Next(s2, toV);
    FirstBack(s3, o, u, v, k, p, q);
    RunCons(s3, back, []);
    RunCons(s2, toV, [back] + []);
    RunCons(s1, toV, [toV] + ([back] + []));
    RunCons(s0, toU, [toV] + ([toV] + ([back] + [])));
    steps := [toU] + ([toV] + ([toV] + ([back] + [])));
  }
}
