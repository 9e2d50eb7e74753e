/**
 Peers dialed as DNS seeds are sent this node's announcement before they are registered. A run in
 which such a peer ends up registered, open and with an empty queue, and yet was never offered the
 latest announcement.
 */
module SeedGap {
  import opened Types
  import opened Registry
  import Store
  import opened PeerSystem
  import opened PeerTheorems

  const FIRST := Message(NodeChannel, AddrTag, 1, 0, 10)
  const SECOND := Message(NodeChannel, AddrTag, 1, 0, 20)
  const SEED := Message(NodeChannel, AddrTag, 2, 0, 30)

  // Node 1, in a world where every signature verifies and every address is public and current.
  function World(): Env {
    Env(1, false, (a: Address) => true, (k: PubKey, p: Payload, g: Signature) => true, (p: Payload) => 0,
        (m: AddrMsg) => if m.time == 0 then 10 else 20, (p: Payload) => Some(Said(0)))
  }

  function Said(time: int): AddrMsg {
    AddrMsg(Content(0, 0, 0, []), time)
  }

  // The database already knows the seed's announcement, so that ingesting it broadcasts nothing.
  function KnownSeed(): Store.Tables {
    Store.InitialTables(0).(nodes := map[SEED.key := Store.Row(0, Store.Record(0, 0, 0, SEED.payload, SEED.sig), 31)])
  }

  function Start(): Net {
    Net(Shared([], map[], [], None), map[], map[], [], false, [], [], None, KnownSeed(), 0, false, false)
  }

  // The first announcement has been set and forwarded.
  function Announced(): Net {
    Start().(shared := Shared([], map[], [], Some(FIRST)), anns := [FIRST], castAt := [0], log := [FIRST])
  }

  // Peer 7 has been dialed as a seed and tracked.
  function With(s: Net, p: Peer): Net {
    s.(shared := s.shared.(connections := [7]), peers := map[7 := p])
  }

  function Waiting(): Peer {
    NewPeer(true, false, NO_KEY).(recv := WaitAnnounce)
  }

  function Writing(recv: Recv, wire: seq<Chunk>): Peer {
    NewPeer(true, false, NO_KEY).(recv := recv, asked := true, hello := Some(FIRST), helloNo := 1, helloAt := 1,
                                  wire := wire)
  }

  function Greeted(): Peer {
    Writing(AwaitFirst, [Head(FIRST), Body(FIRST)])
  }

  // Meanwhile a second announcement has been set and forwarded.
  function Renewed(p: Peer): Net {
    With(Announced(), p).(shared := Shared([7], map[], [], Some(SECOND)), anns := [FIRST, SECOND],
                          castAt := [0, 1], log := [FIRST, SECOND])
  }

  function Recognised(): Peer {
    Greeted().(first := Some(SEED), peerPub := SEED.key, recv := Adopting(SEED))
  }

  function Registered(p: Peer): Net {
    Renewed(p).(shared := Shared([7], map[SEED.key := 7], [], Some(SECOND)))
  }

  lemma Do(env: Env, s: Net, a: Action, s': Net)
    requires Reachable(env, s) && Enabled(env, s, a) && Next(env, s, a) == s'
    ensures Reachable(env, s')
  {
    hide Enabled, Next, Leads;
    StandsStill(env, s);
    GoesOn(env, s, s, a);
    StaysReachable(env, s, s');
  }

  lemma ReachAnnounced()
    ensures Reachable(World(), Announced())
  {
    assert Reachable(World(), Start()) by {
      StandsStill(World(), Start());
    }
    hide Reachable;
    var s1 := Start().(shared := Shared([], map[], [], Some(FIRST)), anns := [FIRST], forwarding := true);
    Do(World(), Start(), Announce(Said(0)), s1);
    Do(World(), s1, ForwardAnnounce, Announced());
  }

  lemma ReachWaiting()
    ensures Reachable(World(), With(Announced(), Waiting()))
  {
    hide Reachable;
    ReachAnnounced();
    var s1 := Announced().(peers := map[7 := NewPeer(true, false, NO_KEY)]);
    Do(World(), Announced(), Dial(7, true, false, NO_KEY), s1);
    Do(World(), s1, TrackConn(7), With(Announced(), Waiting()));
  }

  lemma ReachWriting()
    ensures Reachable(World(), With(Announced(), Writing(PutHead, [])))
  {
    hide Reachable;
    ReachWaiting();
    Do(World(), With(Announced(), Waiting()), Own(7, ReadAnnounce), With(Announced(), Writing(PutHead, [])));
  }

  lemma Write(p: Peer, p': Peer)
    requires Reachable(World(), With(Announced(), p)) && p.open && (p.recv == PutHead || p.recv == PutBody)
    requires HelloStep(p, true) == p'
    ensures Reachable(World(), With(Announced(), p'))
  {
    hide Reachable, HelloStep;
    Do(World(), With(Announced(), p), Own(7, WriteHello(true)), With(Announced(), p'));
  }

  lemma ReachGreeted()
    ensures Reachable(World(), With(Announced(), Greeted()))
  {
    hide Reachable, With;
    ReachWriting();
    var p1, p2 := Writing(PutHead, []), Writing(PutBody, [Head(FIRST)]);
    assert p1.wire + [Head(FIRST)] == p2.wire && p2.wire + [Body(FIRST)] == Greeted().wire;
    Write(p1, p2);
    Write(p2, Greeted());
  }

  lemma ReachRenewed()
    ensures Reachable(World(), Renewed(Greeted()))
  {
    hide Reachable;
    ReachGreeted();
    var s1 := Renewed(Greeted()).(forwarding := true, castAt := [0], log := [FIRST]);
    Do(World(), With(Announced(), Greeted()), Announce(Said(1)), s1);
    Do(World(), s1, ForwardAnnounce, Renewed(Greeted()));
  }

  lemma ReachRecognised()
    ensures Reachable(World(), Renewed(Recognised()))
  {
    hide Reachable;
    ReachRenewed();
    Do(World(), Renewed(Greeted()), Own(7, ReadFirst(Some(SEED))), Renewed(Recognised()));
  }

  /** The seed peer is registered and relaying and nothing waits for it, yet the current announcement,
      already forwarded, was never sent or offered to it. */
  lemma SeedMissesAnnouncement()
    ensures
      var p := Recognised().(regAt := Some(2), recv := Relaying, send := LoopHead);
      && Reachable(World(), Registered(p))
      && Registered(p).shared.connectedPeers.Values == {7} && Returned(Registered(p), 1)
      && Registered(p).anns[1] == SECOND && p.hello == Some(FIRST)
      && p.took + p.queue == [] && p.missed == []
  {
    hide Reachable;
    ReachRecognised();
    var p1 := Recognised().(regAt := Some(2), recv := Ingesting(SEED, false));
    var p2 := Recognised().(regAt := Some(2), recv := Relaying, send := LoopHead);
    Do(World(), Renewed(Recognised()), AdoptKey(7), Registered(p1));
    Do(World(), Registered(p1), Ingest(7, Committed(1, false)), Registered(p2));
    assert Registered(p2).shared.connectedPeers.Values == {7};
  }
}
