/**
 What every step of the peer system keeps. The invariant of a peer is a conjunction of small
 predicates, each over the few fields it needs, so that most steps keep most of them trivially.
 */
module PeerInvariant {
  import opened Types
  import opened Registry
  import opened Store
  import opened PeerSystem

  // ---------------------------------------------------------------- one peer

  predicate Untracked(r: Recv) {
    r == Dialed || r == Refused || r == Dropped
  }

  // Registered by trackPeer, under the key it was dialed with.
  predicate Known(p: Peer) {
    p.hasPub && p.wanted != NO_KEY
  }

  // The message passed every check that comes before the address is ingested.
  predicate Vetted(env: Env, p: Peer, m: Message) {
    && p.first == Some(m) && p.peerPub == m.key
    && m.IsNodeAddr() && env.Verified(m) && m.key != env.me
    && (p.hasPub ==> m.key == p.wanted)
  }

  predicate PassedGate(env: Env, p: Peer) {
    && p.first.Some? && Vetted(env, p, p.first.value)
    && InRange(env, p.first.value.payload, p.checkedAt)
  }

  // Is the receive goroutine at a point that only a vetted peer reaches?
  predicate BeyondGate(p: Peer) {
    match p.recv
    case WaitAnnounce => !p.outbound
    case PutHead => !p.outbound
    case PutBody => !p.outbound
    case Ingesting(_, relaying) => relaying
    case PassingOn(_, relaying, _) => true
    case Relaying => true
    case _ => p.send != NotStarted
  }

  predicate Identity(p: Peer) {
    && (p.hasPub ==> p.outbound)
    && (!p.hasPub ==> p.wanted == NO_KEY)
    && (p.hasPub || Untracked(p.recv) ==> p.peerPub == p.wanted)
  }

  predicate RecvOk(env: Env, p: Peer) {
    match p.recv
    case Dialed => p.regAt.None? && p.first.None?
    case Refused => p.regAt.None?
    case Dropped => p.regAt.None?
    case WaitAnnounce => p.outbound ==> (p.regAt.Some? <==> Known(p))
    case PutHead => p.asked && (p.outbound ==> (p.regAt.Some? <==> Known(p)))
    case PutBody => p.asked && (p.outbound ==> (p.regAt.Some? <==> Known(p)))
    case AwaitFirst => (p.outbound ==> p.asked) && (p.regAt.Some? <==> Known(p))
    case Adopting(m) =>
      && !p.hasPub && p.regAt.None? && p.first == Some(m) && p.peerPub == m.key && env.Verified(m)
      && (p.outbound ==> p.asked && m.IsNodeAddr()) && (!p.outbound ==> m.key != env.me)
    case Ingesting(m, relaying) =>
      && p.regAt.Some? && env.Verified(m) && (p.outbound ==> p.asked) && (!relaying ==> Vetted(env, p, m))
    case PassingOn(m, _, _) => env.Verified(m) && (p.outbound ==> p.asked)
    case _ => true
  }

  predicate SendOk(p: Peer, stopping: bool) {
    && (p.send != NotStarted ==>
          p.asked && (p.recv == Relaying || (p.recv.Ingesting? && p.recv.relaying)
            || (p.recv.PassingOn? && p.recv.relaying) || p.recv == Closing || p.recv == Removing || p.recv == Ended))
    && (p.send == NotStarted ==>
          p.recv != Relaying && !(p.recv.Ingesting? && p.recv.relaying) && !(p.recv.PassingOn? && p.recv.relaying)
          && (p.closed ==> p.recv == Ended))
    && (p.asked && p.hello.None? ==> stopping)
    && (p.send == Selecting || p.send.SendHead? || p.send.SendBody? ==> p.hello.Some?)
  }

  predicate GateOk(env: Env, p: Peer) {
    BeyondGate(p) ==> p.regAt.Some? && PassedGate(env, p)
  }

  // ---------------------------------------------------------------- the wire

  function Chunks(frames: seq<Message>): seq<Chunk> {
    if frames == [] then []
    else
      var n := |frames| - 1;
      Chunks(frames[..n]) + [Head(frames[n]), Body(frames[n])]
  }

  function Hello(hello: Option<Message>): seq<Message> {
    if hello.None? then [] else [hello.value]
  }

  // What has been written before the send goroutine exists.
  predicate HandshakeWire(recv: Recv, hello: Option<Message>, wire: seq<Chunk>) {
    match recv
    case PutHead => wire == []
    case PutBody => wire == if hello.Some? then [Head(hello.value)] else []
    case Closing => true
    case Removing => true
    case Ended => true
    case _ => wire == Chunks(Hello(hello))
  }

  predicate BeforeHello(recv: Recv, outbound: bool) {
    || Untracked(recv) || recv == WaitAnnounce
    || (!outbound && (recv == AwaitFirst || recv.Adopting? || (recv.Ingesting? && !recv.relaying)
                      || (recv.PassingOn? && !recv.relaying)))
  }

  // What has been written, given where the two goroutines stand.
  predicate WireOk(recv: Recv, send: Send, outbound: bool, hello: Option<Message>, took: seq<Message>,
                   wire: seq<Chunk>)
  {
    && wire <= Chunks(Hello(hello) + took)
    && (BeforeHello(recv, outbound) ==> hello.None?)
    && (hello.None? ==> took == [])
    && (send == NotStarted ==> took == [] && HandshakeWire(recv, hello, wire))
    && (send == LoopHead || send == Selecting ==> wire == Chunks(Hello(hello) + took))
    && (send.SendHead? ==> took != [] && took[|took| - 1] == send.msg
                           && wire == Chunks(Hello(hello) + took[..|took| - 1]))
    && (send.SendBody? ==> took != [] && took[|took| - 1] == send.msg
                           && wire == Chunks(Hello(hello) + took[..|took| - 1]) + [Head(send.msg)])
  }

  // ---------------------------------------------------------------- the queue

  // What went through the queue are the accepted broadcasts, in order.
  ghost predicate FifoOk(accepted: seq<nat>, through: seq<Message>, log: seq<Message>) {
    && |through| == |accepted|
    && (forall i :: 0 <= i < |accepted| ==> accepted[i] < |log| && through[i] == log[accepted[i]])
    && (forall i, j :: 0 <= i < j < |accepted| ==> accepted[i] < accepted[j])
  }

  // The broadcasts that could reach the peer: those before it closed.
  function End(p: Peer, casts: nat): nat {
    if p.closed then p.closedAt else casts
  }

  // From registration to closing, every broadcast was either accepted or found the queue full.
  ghost predicate CoverOk(regAt: Option<nat>, end: nat, accepted: seq<nat>, missed: seq<nat>, casts: nat) {
    && end <= casts
    && (regAt.Some? ==> regAt.value <= end)
    && (forall i :: i in accepted || i in missed ==> regAt.Some? && regAt.value <= i < end)
    && (forall i :: i in missed ==> i !in accepted)
    && (regAt.Some? ==> forall i :: regAt.value <= i < end ==> i in accepted || i in missed)
  }

  ghost predicate QueueOk(regAt: Option<nat>, end: nat, accepted: seq<nat>, missed: seq<nat>, took: seq<Message>,
                          queue: seq<Message>, log: seq<Message>)
  {
    && |queue| <= QUEUE_CAPACITY
    && FifoOk(accepted, took + queue, log)
    && CoverOk(regAt, end, accepted, missed, |log|)
  }

  ghost predicate QueuedOk(p: Peer, log: seq<Message>) {
    QueueOk(p.regAt, End(p, |log|), p.accepted, p.missed, p.took, p.queue, log)
  }

  // ---------------------------------------------------------------- announcements

  ghost predicate HelloOk(p: Peer, anns: seq<Message>, castAt: seq<nat>, log: seq<Message>) {
    p.hello.Some? ==>
      && 0 < p.helloNo <= |anns| && p.hello.value == anns[p.helloNo - 1]
      && p.helloAt <= |log|
      && (forall n :: p.helloNo <= n < |castAt| ==> p.helloAt <= castAt[n])
      && (Known(p) || !p.outbound ==> p.regAt.Some? && p.regAt.value <= p.helloAt)
  }

  // ---------------------------------------------------------------- connections

  predicate ConnOk(p: Peer, tracked: bool, stopped: bool) {
    && (p.open && !Untracked(p.recv) ==> tracked)
    && (p.recv == Dialed ==> p.open && !tracked && !p.closed)
    && (p.recv == Refused ==> !p.closed)
    && (p.recv == Dropped || p.recv == Removing || p.send == SendRemoving || p.closed ==> !p.open)
    && (stopped && !(p.recv == Dialed || p.recv == Refused) ==> !p.open)
  }

  predicate HandOk(h: Hand, tracked: bool, stopped: bool) {
    && (h.open && h.recv != HandAccepted && h.recv != HandRefused && h.recv != HandDropped ==> tracked)
    && (h.recv == HandAccepted ==> h.open && !tracked && !h.closed && h.send == HandNotStarted)
    && (h.recv == HandRefused ==> !tracked && h.send == HandNotStarted)
    && (h.recv == HandDropped || h.recv == HandRemoving || h.send == HandSendRemoving || h.closed ==> !h.open)
    && (stopped && !(h.recv == HandAccepted || h.recv == HandRefused) ==> !h.open)
  }

  // ---------------------------------------------------------------- the whole state

  // The part of the state that a peer's invariant looks at.
  datatype View = View(stopping: bool, stopped: bool, registered: set<nat>, connections: seq<nat>,
                       log: seq<Message>, anns: seq<Message>, castAt: seq<nat>)

  function ViewOf(s: Net): View {
    View(s.stopping, s.stopped, s.shared.connectedPeers.Values, s.shared.connections, s.log, s.anns, s.castAt)
  }

  predicate ControlOk(env: Env, stopping: bool, stopped: bool, registered: bool, tracked: bool, p: Peer) {
    && Identity(p)
    && RecvOk(env, p)
    && SendOk(p, stopping)
    && GateOk(env, p)
    && (registered <==> p.regAt.Some? && !p.closed)
    && ConnOk(p, tracked, stopped)
  }

  ghost predicate PeerOk(env: Env, v: View, id: nat, p: Peer) {
    && ControlOk(env, v.stopping, v.stopped, id in v.registered, id in v.connections, p)
    && WireOk(p.recv, p.send, p.outbound, p.hello, p.took, p.wire)
    && QueuedOk(p, v.log)
    && HelloOk(p, v.anns, v.castAt, v.log)
  }

  ghost predicate PeersOk(env: Env, v: View, peers: map<nat, Peer>) {
    forall id :: id in peers ==> PeerOk(env, v, id, peers[id])
  }

  ghost predicate RegistryOk(connectedPeers: map<PubKey, nat>, peers: map<nat, Peer>) {
    forall k :: k in connectedPeers ==> connectedPeers[k] in peers && peers[connectedPeers[k]].peerPub == k
  }

  ghost predicate HandsOk(v: View, hands: map<nat, Hand>) {
    forall id :: id in hands ==> HandOk(hands[id], id in v.connections, v.stopped)
  }

  ghost predicate ConnectionsOk(v: View, peers: set<nat>, hands: set<nat>) {
    && Distinct(v.connections)
    && (forall c :: c in v.connections ==> c in peers || c in hands)
    && peers !! hands
    && (v.stopped ==> v.stopping)
  }

  ghost predicate AnnouncementsOk(me: PubKey, announce: Option<Message>, anns: seq<Message>, castAt: seq<nat>,
                                  log: seq<Message>, forwarding: bool)
  {
    && (forall n :: 0 <= n < |anns| ==> anns[n].key == me && anns[n].IsNodeAddr())
    && announce == (if anns == [] then None else Some(anns[|anns| - 1]))
    && |castAt| == |anns| - (if forwarding then 1 else 0)
    && (forall n :: 0 <= n < |castAt| ==> castAt[n] < |log| && log[castAt[n]] == anns[n])
  }

  ghost predicate Inv(env: Env, s: Net) {
    && PeersOk(env, ViewOf(s), s.peers)
    && RegistryOk(s.shared.connectedPeers, s.peers)
    && HandsOk(ViewOf(s), s.hands)
    && ConnectionsOk(ViewOf(s), s.peers.Keys, s.hands.Keys)
    && AnnouncementsOk(env.me, s.shared.announce, s.anns, s.castAt, s.log, s.forwarding)
  }

  // ---------------------------------------------------------------- local steps

  lemma ChunksSnoc(frames: seq<Message>, m: Message)
    ensures Chunks(frames + [m]) == Chunks(frames) + [Head(m), Body(m)]
  {
    assert (frames + [m])[..|frames|] == frames;
  }

  lemma ChunksOfHello(hello: Option<Message>)
    ensures Chunks([]) == []
    ensures hello.Some? ==> Chunks(Hello(hello)) == [Head(hello.value), Body(hello.value)]
  {
    if hello.Some? {
      ChunksSnoc([], hello.value);
      assert [] + [hello.value] == Hello(hello);
    }
  }

  // A step that changes one peer and leaves its key and everything shared alone.
  lemma OnePeerChanges(env: Env, s: Net, id: nat, p': Peer)
    requires Inv(env, s) && id in s.peers
    requires PeerOk(env, ViewOf(s), id, p')
    requires id in s.shared.connectedPeers.Values ==> p'.peerPub == s.peers[id].peerPub
    ensures Inv(env, WithPeer(s, id, p'))
  {
    hide PeerOk;
    var s' := WithPeer(s, id, p');
    assert ViewOf(s') == ViewOf(s);
    assert s'.peers.Keys == s.peers.Keys;
  }

  lemma OutboundFirstControl(env: Env, p: Peer, m: Message, stopping: bool, stopped: bool,
                             registered: bool, tracked: bool)
    requires ControlOk(env, stopping, stopped, registered, tracked, p) && p.recv == AwaitFirst
    requires env.Verified(m) && p.outbound
    ensures ControlOk(env, stopping, stopped, registered, tracked, GotFirst(env, p, m))
  {
  }

  lemma InboundFirstControl(env: Env, p: Peer, m: Message, stopping: bool, stopped: bool,
                            registered: bool, tracked: bool)
    requires ControlOk(env, stopping, stopped, registered, tracked, p) && p.recv == AwaitFirst
    requires env.Verified(m) && !p.outbound
    ensures ControlOk(env, stopping, stopped, registered, tracked, GotFirst(env, p, m))
  {
  }

  lemma FirstControl(env: Env, p: Peer, msg: Option<Message>, stopping: bool, stopped: bool,
                     registered: bool, tracked: bool)
    requires ControlOk(env, stopping, stopped, registered, tracked, p) && LocalEnabled(env, stopping, p, ReadFirst(msg))
    ensures ControlOk(env, stopping, stopped, registered, tracked,
                      if msg.None? then p.(recv := Closing) else GotFirst(env, p, msg.value))
  {
    if msg.Some? {
      hide ControlOk, GotFirst;
      if p.outbound {
        OutboundFirstControl(env, p, msg.value, stopping, stopped, registered, tracked);
      } else {
        InboundFirstControl(env, p, msg.value, stopping, stopped, registered, tracked);
      }
    }
  }

  lemma RelayControl(env: Env, p: Peer, msg: Option<Message>, stopping: bool, stopped: bool,
                     registered: bool, tracked: bool)
    requires ControlOk(env, stopping, stopped, registered, tracked, p) && LocalEnabled(env, stopping, p, RelayRead(msg))
    ensures ControlOk(env, stopping, stopped, registered, tracked, RelayStep(env, p, msg))
  {
  }

  lemma HelloControl(env: Env, p: Peer, ok: bool, stopping: bool, stopped: bool, registered: bool, tracked: bool)
    requires ControlOk(env, stopping, stopped, registered, tracked, p) && LocalEnabled(env, stopping, p, WriteHello(ok))
    ensures ControlOk(env, stopping, stopped, registered, tracked, HelloStep(p, ok))
  {
  }

  lemma WriteControl(env: Env, p: Peer, ok: bool, stopping: bool, stopped: bool, registered: bool, tracked: bool)
    requires ControlOk(env, stopping, stopped, registered, tracked, p)
    requires LocalEnabled(env, stopping, p, WriteQueued(ok))
    ensures ControlOk(env, stopping, stopped, registered, tracked, WriteStep(p, ok))
  {
  }

  lemma RecvControl(env: Env, s: Net, p: Peer, act: LocalAct, registered: bool, tracked: bool)
    requires ControlOk(env, s.stopping, s.stopped, registered, tracked, p) && LocalEnabled(env, s.stopping, p, act)
    requires act.DropConn? || act.ReadAnnounce? || act.GiveUpWaiting? || act.RelayStop? || act.CloseConn?
    ensures ControlOk(env, s.stopping, s.stopped, registered, tracked, Local(env, s, p, act))
  {
  }

  lemma SendControl(env: Env, s: Net, p: Peer, act: LocalAct, registered: bool, tracked: bool)
    requires ControlOk(env, s.stopping, s.stopped, registered, tracked, p) && LocalEnabled(env, s.stopping, p, act)
    requires act.SendLoop? || act.TakeQueued? || act.SendStop? || act.SendCloseConn?
    ensures ControlOk(env, s.stopping, s.stopped, registered, tracked, Local(env, s, p, act))
  {
  }

  lemma LocalControl(env: Env, s: Net, p: Peer, act: LocalAct, registered: bool, tracked: bool)
    requires ControlOk(env, s.stopping, s.stopped, registered, tracked, p) && LocalEnabled(env, s.stopping, p, act)
    ensures ControlOk(env, s.stopping, s.stopped, registered, tracked, Local(env, s, p, act))
  {
    hide ControlOk;
    match act
    case ReadFirst(msg) => FirstControl(env, p, msg, s.stopping, s.stopped, registered, tracked);
    case RelayRead(msg) => RelayControl(env, p, msg, s.stopping, s.stopped, registered, tracked);
    case WriteHello(ok) => HelloControl(env, p, ok, s.stopping, s.stopped, registered, tracked);
    case WriteQueued(ok) => WriteControl(env, p, ok, s.stopping, s.stopped, registered, tracked);
    case SendLoop => SendControl(env, s, p, act, registered, tracked);
    case TakeQueued => SendControl(env, s, p, act, registered, tracked);
    case SendStop => SendControl(env, s, p, act, registered, tracked);
    case SendCloseConn => SendControl(env, s, p, act, registered, tracked);
    case _ => RecvControl(env, s, p, act, registered, tracked);
  }

  predicate WiredOk(p: Peer) {
    WireOk(p.recv, p.send, p.outbound, p.hello, p.took, p.wire)
  }

  lemma HelloIsOver(outbound: bool)
    ensures !BeforeHello(PutBody, outbound) && !BeforeHello(Closing, outbound) && !BeforeHello(Relaying, outbound)
    ensures outbound ==> !BeforeHello(AwaitFirst, outbound)
  {
  }

  lemma HelloWire(p: Peer, ok: bool)
    requires WiredOk(p) && (p.recv == PutHead || p.recv == PutBody) && p.send == NotStarted
    ensures WiredOk(HelloStep(p, ok))
  {
    hide WiredOk, HelloStep;
    if !ok {
      FailedHello(p);
    } else if p.recv == PutHead {
      HelloHeadWire(p);
    } else {
      HelloBodyWire(p);
    }
  }

  lemma FailedHello(p: Peer)
    requires WiredOk(p) && (p.recv == PutHead || p.recv == PutBody) && p.send == NotStarted
    ensures WiredOk(HelloStep(p, false))
  {
    hide Chunks, BeforeHello;
    HelloIsOver(p.outbound);
  }

  lemma HelloHeadWire(p: Peer)
    requires WiredOk(p) && p.recv == PutHead && p.send == NotStarted
    ensures WiredOk(HelloStep(p, true))
  {
    hide Chunks, BeforeHello;
    HelloIsOver(p.outbound);
    ChunksOfHello(p.hello);
    assert Hello(p.hello) + p.took == Hello(p.hello);
  }

  lemma HelloBodyWire(p: Peer)
    requires WiredOk(p) && p.recv == PutBody && p.send == NotStarted
    ensures WiredOk(HelloStep(p, true))
  {
    hide Chunks, BeforeHello;
    HelloIsOver(p.outbound);
    ChunksOfHello(p.hello);
    assert Hello(p.hello) + p.took == Hello(p.hello);
  }

  lemma TakeWire(p: Peer, p': Peer)
    requires WiredOk(p) && p.send == Selecting && p.queue != [] && p.hello.Some?
    requires p' == p.(send := SendHead(p.queue[0]), queue := p.queue[1..], took := p.took + [p.queue[0]])
    ensures WiredOk(p')
  {
    hide Chunks;
    assert p'.took[..|p'.took| - 1] == p.took;
    ChunksSnoc(Hello(p.hello) + p.took, p.queue[0]);
    assert Hello(p.hello) + p'.took == (Hello(p.hello) + p.took) + [p.queue[0]];
  }

  // The frames taken so far but the last, and the last.
  lemma LastTaken(p: Peer, m: Message)
    requires p.took != [] && p.took[|p.took| - 1] == m
    ensures Chunks(Hello(p.hello) + p.took) == Chunks(Hello(p.hello) + p.took[..|p.took| - 1]) + [Head(m), Body(m)]
  {
    var t := p.took[..|p.took| - 1];
    ChunksSnoc(Hello(p.hello) + t, m);
    assert Hello(p.hello) + p.took == (Hello(p.hello) + t) + [m];
  }

  lemma HeadWire(p: Peer)
    requires WiredOk(p) && p.send.SendHead?
    ensures WiredOk(WriteStep(p, true))
  {
    hide Chunks, Hello;
    LastTaken(p, p.send.msg);
  }

  lemma BodyWire(p: Peer)
    requires WiredOk(p) && p.send.SendBody?
    ensures WiredOk(WriteStep(p, true))
  {
    hide Chunks, Hello;
    LastTaken(p, p.send.msg);
  }

  lemma FailedWrite(p: Peer)
    requires WiredOk(p) && p.send != NotStarted
    ensures WiredOk(p.(send := SendClosing))
  {
    hide Chunks, Hello, BeforeHello;
  }

  lemma WriteWire(p: Peer, ok: bool)
    requires WiredOk(p) && (p.send.SendHead? || p.send.SendBody?)
    ensures WiredOk(WriteStep(p, ok))
  {
    hide WiredOk;
    if !ok {
      FailedWrite(p);
    } else if p.send.SendHead? {
      HeadWire(p);
    } else {
      BodyWire(p);
    }
  }

  // The receive goroutine moves on without writing; it may start the send goroutine.
  lemma RecvMoves(recv: Recv, recv': Recv, send: Send, outbound: bool, hello: Option<Message>, took: seq<Message>,
                  wire: seq<Chunk>)
    requires WireOk(recv, send, outbound, hello, took, wire)
    requires send == NotStarted ==>
      !(recv == PutHead || recv == PutBody || recv == Closing || recv == Removing || recv == Ended)
    requires recv' != PutHead && recv' != PutBody
    requires BeforeHello(recv', outbound) ==> BeforeHello(recv, outbound)
    ensures WireOk(recv', send, outbound, hello, took, wire)
    ensures send == NotStarted ==> WireOk(recv', LoopHead, outbound, hello, took, wire)
  {
    hide Chunks;
    assert Hello(hello) + [] == Hello(hello);
  }

  // p' differs from p only in fields that neither its registration nor its queue look at.
  predicate SameRecords(p: Peer, p': Peer) {
    p' == p.(open := p'.open, recv := p'.recv, send := p'.send, first := p'.first, asked := p'.asked,
             wire := p'.wire, checkedAt := p'.checkedAt)
  }

  // And its receive goroutine has only moved on.
  predicate MovedOn(p: Peer, p': Peer) {
    && SameRecords(p, p') && p'.wire == p.wire
    && (p'.send == p.send || (p.send == NotStarted && p'.send == LoopHead))
    && p'.recv != PutHead && p'.recv != PutBody
    && (BeforeHello(p'.recv, p.outbound) ==> BeforeHello(p.recv, p.outbound))
  }

  lemma MovedOnWire(p: Peer, p': Peer)
    requires WiredOk(p) && MovedOn(p, p')
    requires p.recv == AwaitFirst || p.recv.Adopting? || p.recv.Ingesting? || p.recv.PassingOn? || p.recv == Relaying
    ensures WiredOk(p')
  {
    hide WireOk, BeforeHello;
    RecvMoves(p.recv, p'.recv, p.send, p.outbound, p.hello, p.took, p.wire);
  }

  lemma PeerPubWire(p: Peer, key: PubKey)
    requires WiredOk(p)
    ensures WiredOk(p.(peerPub := key))
  {
    hide WireOk;
  }

  lemma RecvMovesOn(p: Peer, recv: Recv)
    requires recv != PutHead && recv != PutBody && (BeforeHello(recv, p.outbound) ==> BeforeHello(p.recv, p.outbound))
    ensures MovedOn(p, p.(recv := recv))
  {
    hide BeforeHello;
  }

  // What the first message changes: the key, if it was not known, and where the peer goes on.
  predicate FirstTaken(p: Peer, m: Message, p': Peer) {
    && p' == p.(first := Some(m), peerPub := p'.peerPub, recv := p'.recv)
    && (p'.recv == Closing || p'.recv == Ingesting(m, false) || p'.recv == Adopting(m))
    && (p.hasPub && p.outbound ==> p'.peerPub == p.peerPub)
  }

  lemma OutboundFirstTaken(env: Env, p: Peer, m: Message)
    requires p.outbound
    ensures FirstTaken(p, m, GotFirst(env, p, m))
  {
  }

  lemma InboundFirstTaken(env: Env, p: Peer, m: Message)
    requires !p.outbound
    ensures FirstTaken(p, m, GotFirst(env, p, m))
  {
  }

  lemma FirstFrame(env: Env, p: Peer, msg: Option<Message>)
    requires p.recv == AwaitFirst
    ensures
      var p' := if msg.None? then p.(recv := Closing) else GotFirst(env, p, msg.value);
      && MovedOn(p.(peerPub := p'.peerPub), p')
      && (p.hasPub && p.outbound ==> p'.peerPub == p.peerPub)
  {
    hide GotFirst;
    if msg.Some? {
      if p.outbound {
        OutboundFirstTaken(env, p, msg.value);
      } else {
        InboundFirstTaken(env, p, msg.value);
      }
    }
  }

  lemma RelayFrame(env: Env, p: Peer, msg: Option<Message>)
    requires p.recv == Relaying
    ensures MovedOn(p, RelayStep(env, p, msg))
  {
  }

  lemma RecvWire(env: Env, s: Net, p: Peer, act: LocalAct)
    requires WiredOk(p) && SendOk(p, s.stopping) && LocalEnabled(env, s.stopping, p, act)
    requires act.DropConn? || act.ReadAnnounce? || act.GiveUpWaiting? || act.RelayStop? || act.CloseConn?
    ensures WiredOk(Local(env, s, p, act))
  {
    hide Chunks;
    ChunksOfHello(p.hello);
  }

  lemma SendWire(env: Env, s: Net, p: Peer, act: LocalAct)
    requires WiredOk(p) && LocalEnabled(env, s.stopping, p, act)
    requires act.SendLoop? || act.SendStop? || act.SendCloseConn?
    ensures WiredOk(Local(env, s, p, act))
  {
    hide Chunks;
  }

  lemma LocalWire(env: Env, s: Net, p: Peer, act: LocalAct)
    requires WiredOk(p) && SendOk(p, s.stopping) && LocalEnabled(env, s.stopping, p, act)
    ensures WiredOk(Local(env, s, p, act))
  {
    hide WiredOk, MovedOn;
    match act
    case ReadFirst(msg) =>
      FirstFrame(env, p, msg);
      var p' := Local(env, s, p, act);
      PeerPubWire(p, p'.peerPub);
      MovedOnWire(p.(peerPub := p'.peerPub), p');
    case RelayRead(msg) =>
      RelayFrame(env, p, msg);
      MovedOnWire(p, Local(env, s, p, act));
    case WriteHello(ok) => HelloWire(p, ok);
    case TakeQueued => TakeWire(p, Local(env, s, p, act));
    case WriteQueued(ok) => WriteWire(p, ok);
    case SendLoop => SendWire(env, s, p, act);
    case SendStop => SendWire(env, s, p, act);
    case SendCloseConn => SendWire(env, s, p, act);
    case _ => RecvWire(env, s, p, act);
  }

  // ---------------------------------------------------------------- queue and hello under local steps

  lemma HelloFrame(p: Peer, ok: bool)
    ensures SameRecords(p, HelloStep(p, ok))
  {
  }

  lemma WriteFrame(p: Peer, ok: bool)
    requires p.send.SendHead? || p.send.SendBody?
    ensures SameRecords(p, WriteStep(p, ok))
  {
  }

  // What a local step changes in the fields that registration and queue look at.
  ghost predicate Framed(s: Net, p: Peer, act: LocalAct, p': Peer) {
    match act
    case ReadFirst(_) =>
      && p.recv == AwaitFirst && SameRecords(p.(peerPub := p'.peerPub), p')
      && (p.hasPub && p.outbound ==> p'.peerPub == p.peerPub)
    case ReadAnnounce =>
      && p.recv == WaitAnnounce
      && (p' == p || SameRecords(p.(hello := s.shared.announce, helloNo := |s.anns|, helloAt := |s.log|), p'))
    case TakeQueued =>
      p.queue != [] && SameRecords(p.(queue := p.queue[1..], took := p.took + [p.queue[0]]), p')
    case _ => SameRecords(p, p')
  }

  lemma RecvLocalFrame(env: Env, s: Net, p: Peer, act: LocalAct)
    requires LocalEnabled(env, s.stopping, p, act)
    requires act.DropConn? || act.ReadAnnounce? || act.GiveUpWaiting? || act.RelayStop? || act.CloseConn?
    ensures Framed(s, p, act, Local(env, s, p, act))
  {
  }

  lemma SendLocalFrame(env: Env, s: Net, p: Peer, act: LocalAct)
    requires LocalEnabled(env, s.stopping, p, act)
    requires act.SendLoop? || act.TakeQueued? || act.SendStop? || act.SendCloseConn?
    ensures Framed(s, p, act, Local(env, s, p, act))
  {
  }

  lemma LocalFrame(env: Env, s: Net, p: Peer, act: LocalAct)
    requires LocalEnabled(env, s.stopping, p, act)
    ensures Framed(s, p, act, Local(env, s, p, act))
  {
    hide GotFirst, HelloStep, WriteStep, RelayStep, BeforeHello;
    match act
    case ReadFirst(msg) => FirstFrame(env, p, msg);
    case RelayRead(msg) => RelayFrame(env, p, msg);
    case WriteHello(ok) => HelloFrame(p, ok);
    case WriteQueued(ok) => WriteFrame(p, ok);
    case SendLoop => SendLocalFrame(env, s, p, act);
    case TakeQueued => SendLocalFrame(env, s, p, act);
    case SendStop => SendLocalFrame(env, s, p, act);
    case SendCloseConn => SendLocalFrame(env, s, p, act);
    case _ => RecvLocalFrame(env, s, p, act);
  }

  lemma TakenQueue(p: Peer, log: seq<Message>)
    requires QueuedOk(p, log) && p.queue != []
    ensures QueuedOk(p.(queue := p.queue[1..], took := p.took + [p.queue[0]]), log)
  {
    hide FifoOk, CoverOk;
    assert (p.took + [p.queue[0]]) + p.queue[1..] == p.took + p.queue;
  }

  lemma LocalQueue(env: Env, s: Net, p: Peer, act: LocalAct)
    requires QueuedOk(p, s.log) && LocalEnabled(env, s.stopping, p, act)
    ensures QueuedOk(Local(env, s, p, act), s.log)
  {
    hide Local, LocalEnabled, QueueOk;
    LocalFrame(env, s, p, act);
    if act.TakeQueued? {
      TakenQueue(p, s.log);
    }
  }

  lemma SameHello(p: Peer, p': Peer, anns: seq<Message>, castAt: seq<nat>, log: seq<Message>)
    requires HelloOk(p, anns, castAt, log)
    requires p'.hello == p.hello && p'.helloNo == p.helloNo && p'.helloAt == p.helloAt && p'.regAt == p.regAt
    requires p'.outbound == p.outbound && p'.hasPub == p.hasPub && p'.wanted == p.wanted
    ensures HelloOk(p', anns, castAt, log)
  {
  }

  lemma ReadHello(env: Env, s: Net, p: Peer)
    requires AnnouncementsOk(env.me, s.shared.announce, s.anns, s.castAt, s.log, s.forwarding)
    requires p.regAt.Some? ==> p.regAt.value <= |s.log|
    requires Known(p) || !p.outbound ==> p.regAt.Some?
    ensures
      var p' := p.(hello := s.shared.announce, helloNo := |s.anns|, helloAt := |s.log|);
      HelloOk(p', s.anns, s.castAt, s.log)
  {
  }

  lemma LocalHello(env: Env, s: Net, p: Peer, act: LocalAct)
    requires HelloOk(p, s.anns, s.castAt, s.log) && LocalEnabled(env, s.stopping, p, act)
    requires AnnouncementsOk(env.me, s.shared.announce, s.anns, s.castAt, s.log, s.forwarding)
    requires p.regAt.Some? ==> p.regAt.value <= |s.log|
    requires act.ReadAnnounce? && (Known(p) || !p.outbound) ==> p.regAt.Some?
    ensures HelloOk(Local(env, s, p, act), s.anns, s.castAt, s.log)
  {
    hide Local, LocalEnabled, HelloOk, AnnouncementsOk;
    var p' := Local(env, s, p, act);
    LocalFrame(env, s, p, act);
    if act.ReadAnnounce? {
      ReadHello(env, s, p);
      if p' != p {
        SameHello(p.(hello := s.shared.announce, helloNo := |s.anns|, helloAt := |s.log|), p', s.anns, s.castAt, s.log);
      }
    } else {
      SameHello(p, p', s.anns, s.castAt, s.log);
    }
  }

  lemma ControlImplies(env: Env, stopping: bool, stopped: bool, registered: bool, tracked: bool, p: Peer)
    requires ControlOk(env, stopping, stopped, registered, tracked, p)
    ensures SendOk(p, stopping)
    ensures p.recv == WaitAnnounce && (Known(p) || !p.outbound) ==> p.regAt.Some?
    ensures registered ==> p.recv != AwaitFirst || (p.hasPub && p.outbound)
  {
  }

  lemma LocalStep(env: Env, s: Net, id: nat, act: LocalAct)
    requires Inv(env, s) && id in s.peers && LocalEnabled(env, s.stopping, s.peers[id], act)
    ensures Inv(env, WithPeer(s, id, Local(env, s, s.peers[id], act)))
  {
    hide ControlOk, WireOk, QueueOk, HelloOk, Local, SendOk;
    var p := s.peers[id];
    var v := ViewOf(s);
    assert PeerOk(env, v, id, p);
    LocalFrame(env, s, p, act);
    ControlImplies(env, v.stopping, v.stopped, id in v.registered, id in v.connections, p);
    LocalControl(env, s, p, act, id in v.registered, id in v.connections);
    LocalWire(env, s, p, act);
    LocalQueue(env, s, p, act);
    QueueBounds(p, s.log);
    LocalHello(env, s, p, act);
    OnePeerChanges(env, s, id, Local(env, s, p, act));
  }

  lemma QueueBounds(p: Peer, log: seq<Message>)
    requires QueuedOk(p, log)
    ensures p.regAt.Some? ==> p.regAt.value <= |log|
  {
  }
}
