/**
 The network service as a concurrent step system. Every goroutine has a program counter; a step is
 one critical section, one blocking operation or one write, and any enabled step of any goroutine
 may come next. Computation that touches nothing shared belongs to the step before it.

 A peer and its connection share one number. Each peer has a receive goroutine (`recv`) and, after
 the handshake, a send goroutine (`send`); until it is tracked, its dialer or acceptor runs `recv`.
 */
module PeerSystem {
  import opened Types
  import opened Registry
  import opened Store

  const OLDEST_SECONDS := 30 * 24 * 60 * 60
  const NEWEST_SECONDS := 5 * 60

  // A message goes out as two writes.
  datatype Chunk = Head(m: Message) | Body(m: Message)

  datatype Recv =
    | Dialed                                                      // about to call trackPeer
    | Refused                                                     // trackPeer said no: about to close
    | Dropped                                                     // closed by the dialer or acceptor
    | WaitAnnounce                                                // sendMyAddress: polling for it
    | PutHead                                                     // sendMyAddress: about to write
    | PutBody
    | AwaitFirst                                                  // reading the peer's first message
    | Adopting(msg: Message)                                      // about to call adoptPeer
    | Ingesting(msg: Message, relaying: bool)                     // about to check and store an address
    | PassingOn(msg: Message, relaying: bool, failed: bool)       // about to forward it to all peers
    | Relaying
    | Closing                                                     // closePeer: about to close
    | Removing                                                    // closePeer: about to lock
    | Ended

  datatype Send = NotStarted | LoopHead | Selecting | SendHead(msg: Message) | SendBody(msg: Message)
                | SendClosing | SendRemoving | SendEnded

  // The second group of fields only records what happened.
  datatype Peer = Peer(
    outbound: bool, hasPub: bool, wanted: PubKey,
    peerPub: PubKey, open: bool, recv: Recv, send: Send, queue: seq<Message>,

    first: Option<Message>,    // the first message read
    checkedAt: int,            // the time at which its address passed the checks
    asked: bool,               // sendMyAddress has left its polling loop
    hello: Option<Message>,    // the announcement it read there; none if the service was stopping
    helloNo: nat,              // how many announcements had been set by then
    helloAt: nat,              // how many broadcasts had been made by then
    regAt: Option<nat>,        // how many broadcasts had been made when it was registered
    closed: bool,              // closePeer has run its critical section
    closedAt: nat,             // how many broadcasts had been made by then
    accepted: seq<nat>,        // broadcasts put in the queue
    missed: seq<nat>,          // broadcasts that found the queue full
    took: seq<Message>,        // messages the send goroutine took from the queue
    wire: seq<Chunk>)          // what has been written to the connection

  datatype HandRecv = HandAccepted | HandRefused | HandDropped | HandServing | HandCasting(msg: Message)
                    | HandClosing | HandRemoving | HandEnded

  datatype HandSend = HandNotStarted | HandSending | HandSendClosing | HandSendRemoving | HandSendEnded

  datatype Hand = Hand(open: bool, recv: HandRecv, send: HandSend, closed: bool)

  datatype Net = Net(
    shared: Shared<nat>,
    peers: map<nat, Peer>,
    hands: map<nat, Hand>,
    anns: seq<Message>,        // every announcement set so far
    forwarding: bool,          // ReceiveAnnounce is between setting and forwarding
    castAt: seq<nat>,          // the broadcast that forwarded each announcement
    log: seq<Message>,         // every broadcast so far
    gossip: Option<Message>,   // a stored announcement picked for re-gossip
    db: Tables,
    now: int,
    stopping: bool,            // the service context is cancelled
    stopped: bool)             // Stop has run

  // How AddNetNode's transaction ends. It reports a change if its last attempt found one; it may also
  // carry over the report of an attempt that had to be retried, and so report a change when it fails.
  datatype TxnEnd = Committed(oid: int, carried: bool) | Aborted(carried: bool)

  // Steps of a peer's goroutines that change nothing but the peer itself.
  datatype LocalAct =
    | DropConn
    | ReadAnnounce
    | GiveUpWaiting
    | WriteHello(ok: bool)
    | ReadFirst(msg: Option<Message>)
    | RelayRead(msg: Option<Message>)
    | RelayStop
    | CloseConn
    | SendLoop
    | TakeQueued
    | SendStop
    | WriteQueued(ok: bool)
    | SendCloseConn

  // Steps of a protocol handler's goroutines; `sender` says which of the two calls closeHandler.
  datatype HandAct =
    | TrackHand
    | DropHand
    | HandRead(msg: Option<Message>)
    | HandCast
    | HandStartSend
    | HandSendFails
    | CloseHandConn(sender: bool)
    | RemoveHand(sender: bool)

  datatype Action =
    | Own(id: nat, act: LocalAct)
    | Dial(id: nat, outbound: bool, hasPub: bool, key: PubKey)
    | TrackConn(id: nat)
    | AdoptKey(id: nat)
    | Ingest(id: nat, end: TxnEnd)
    | PassOn(id: nat)
    | RemovePeer(id: nat, sender: bool)
    | Announce(body: AddrMsg)
    | StoreOwn(body: AddrMsg, oid: int)
    | ForwardAnnounce
    | PickGossip(key: PubKey)
    | SendGossip
    | Database(op: Op)
    | AcceptHand(id: nat)
    | OfHand(id: nat, hand: HandAct)
    | RequestStop
    | StopAll
    | Tick(now: int)

  // ---------------------------------------------------------------- the handshake's checks

  predicate InRange(env: Env, payload: Payload, now: int) {
    match env.decode(payload)
    case None => false
    case Some(a) =>
      && (env.isPublic(a.content.address) || env.allowLocal)
      && now - OLDEST_SECONDS <= a.time <= now + NEWEST_SECONDS
  }

  function RecordOf(env: Env, m: Message): Record
    requires env.decode(m.payload).Some?
  {
    var a := env.decode(m.payload).value;
    Record(a.content.address, a.time, a.content.owner, m.payload, m.sig)
  }

  function NewPeer(outbound: bool, hasPub: bool, key: PubKey): Peer {
    Peer(outbound, hasPub, key, key, true, Dialed, NotStarted, [],
         None, 0, false, None, 0, 0, None, false, 0, [], [], [], [])
  }

  // After the peer's first message: the key checks that come before adoptPeer or instead of it.
  function GotFirst(env: Env, p: Peer, m: Message): Peer {
    var p := p.(first := Some(m));
    if p.outbound then
      if !m.IsNodeAddr() then p.(recv := Closing)
      else if p.hasPub then
        if m.key != p.peerPub || m.key == env.me then p.(recv := Closing)
        else p.(recv := Ingesting(m, false))
      else p.(peerPub := m.key, recv := Adopting(m))
    else
      var p := p.(peerPub := m.key);
      if m.key == env.me then p.(recv := Closing) else p.(recv := Adopting(m))
  }

  // After adoptPeer: the checks that remain before the address is ingested.
  function GotAdopted(env: Env, p: Peer, m: Message): Peer {
    if (p.outbound && m.key == env.me) || (!p.outbound && !m.IsNodeAddr()) then p.(recv := Closing)
    else p.(recv := Ingesting(m, false))
  }

  function StartSending(p: Peer): Peer {
    p.(recv := Relaying, send := LoopHead)
  }

  function AfterIngest(p: Peer, relaying: bool, failed: bool): Peer {
    if failed then p.(recv := Closing)
    else if relaying then p.(recv := Relaying)
    else if p.outbound then StartSending(p)
    else p.(recv := WaitAnnounce)
  }

  // ---------------------------------------------------------------- broadcasts

  // A non-blocking send of broadcast i to a registered peer.
  function Offer(p: Peer, i: nat, m: Message): Peer {
    if |p.queue| < QUEUE_CAPACITY then p.(queue := Offered(p.queue, m), accepted := p.accepted + [i])
    else p.(missed := p.missed + [i])
  }

  function Broadcast(s: Net, m: Message): Net {
    s.(log := s.log + [m],
       peers := map id | id in s.peers ::
         if id in s.shared.connectedPeers.Values then Offer(s.peers[id], |s.log|, m) else s.peers[id])
  }

  // ---------------------------------------------------------------- steps of one peer's goroutines

  predicate LocalEnabled(env: Env, stopping: bool, p: Peer, act: LocalAct) {
    match act
    case DropConn => p.recv == Refused
    case ReadAnnounce => p.recv == WaitAnnounce
    case GiveUpWaiting => p.recv == WaitAnnounce && stopping
    case WriteHello(ok) => (p.recv == PutHead || p.recv == PutBody) && (ok ==> p.open)
    case ReadFirst(msg) => p.recv == AwaitFirst && (msg.Some? ==> env.Verified(msg.value))
    case RelayRead(msg) => p.recv == Relaying && (msg.Some? ==> env.Verified(msg.value))
    case RelayStop => p.recv == Relaying && stopping
    case CloseConn => p.recv == Closing
    case SendLoop => p.send == LoopHead
    case TakeQueued => p.send == Selecting && p.queue != []
    case SendStop => p.send == Selecting && stopping
    case WriteQueued(ok) => (p.send.SendHead? || p.send.SendBody?) && (ok ==> p.open)
    case SendCloseConn => p.send == SendClosing
  }

  function HelloStep(p: Peer, ok: bool): Peer {
    if !ok then p.(recv := Closing)
    else if p.recv == PutHead then
      p.(wire := if p.hello.None? then p.wire else p.wire + [Head(p.hello.value)], recv := PutBody)
    else
      var p' := p.(wire := if p.hello.None? then p.wire else p.wire + [Body(p.hello.value)]);
      if p.outbound then p'.(recv := AwaitFirst) else StartSending(p')
  }

  function WriteStep(p: Peer, ok: bool): Peer
    requires p.send.SendHead? || p.send.SendBody?
  {
    if !ok then p.(send := SendClosing)
    else if p.send.SendHead? then p.(wire := p.wire + [Head(p.send.msg)], send := SendBody(p.send.msg))
    else p.(wire := p.wire + [Body(p.send.msg)], send := LoopHead)
  }

  function RelayStep(env: Env, p: Peer, msg: Option<Message>): Peer {
    if msg.None? then p.(recv := Closing)
    else if msg.value.IsNodeAddr() && msg.value.key != env.me then p.(recv := Ingesting(msg.value, true))
    else p // own announcement, unknown [Node] message, or one for the protocol handlers
  }

  function Local(env: Env, s: Net, p: Peer, act: LocalAct): Peer
    requires LocalEnabled(env, s.stopping, p, act)
  {
    match act
    case DropConn => p.(open := false, recv := Dropped)
    case ReadAnnounce =>
      if s.shared.announce.None? then p
      else p.(asked := true, hello := s.shared.announce, helloNo := |s.anns|, helloAt := |s.log|, recv := PutHead)
    case GiveUpWaiting => p.(asked := true, recv := PutHead)
    case WriteHello(ok) => HelloStep(p, ok)
    case ReadFirst(msg) => if msg.None? then p.(recv := Closing) else GotFirst(env, p, msg.value)
    case RelayRead(msg) => RelayStep(env, p, msg)
    case RelayStop => p.(recv := Ended)
    case CloseConn => p.(open := false, recv := Removing)
    case SendLoop => p.(send := if s.stopping then SendEnded else Selecting)
    case TakeQueued => p.(send := SendHead(p.queue[0]), queue := p.queue[1..], took := p.took + [p.queue[0]])
    case SendStop => p.(send := SendClosing)
    case WriteQueued(ok) => WriteStep(p, ok)
    case SendCloseConn => p.(open := false, send := SendRemoving)
  }

  function WithPeer(s: Net, id: nat, p: Peer): Net {
    s.(peers := s.peers[id := p])
  }

  function WithHand(s: Net, id: nat, h: Hand): Net {
    s.(hands := s.hands[id := h])
  }

  // ---------------------------------------------------------------- steps on shared state

  function Tracked(p: Peer, ok: bool, at: nat): Peer {
    if !ok then p.(recv := Refused)
    else p.(recv := if p.outbound then WaitAnnounce else AwaitFirst,
            regAt := if p.wanted == NO_KEY then None else Some(at))
  }

  function TrackStep(s: Net, id: nat): Net
    requires id in s.peers
  {
    var p := s.peers[id];
    var (shared, ok) := Track(s.shared, id, id, p.wanted, s.stopping);
    WithPeer(s, id, Tracked(p, ok, |s.log|)).(shared := shared)
  }

  function Adopted(env: Env, p: Peer, ok: bool, at: nat): Peer
    requires p.recv.Adopting?
  {
    if ok then GotAdopted(env, p.(regAt := Some(at)), p.recv.msg) else p.(recv := Closing)
  }

  function AdoptStep(env: Env, s: Net, id: nat): Net
    requires id in s.peers && s.peers[id].recv.Adopting?
  {
    var p := s.peers[id];
    var (shared, ok) := Adopt(s.shared, id, p.peerPub);
    WithPeer(s, id, Adopted(env, p, ok, |s.log|)).(shared := shared)
  }

  // The transaction that stores the address of message m, and its outcome.
  ghost function Stored(env: Env, db: Tables, m: Message, end: TxnEnd): (Tables, Option<AddOutcome>)
    requires env.decode(m.payload).Some?
  {
    match end
    case Aborted(_) => (db, None)
    case Committed(oid, _) =>
      var rec, chans := RecordOf(env, m), env.decode(m.payload).value.content.channels;
      (AfterAddNode(db, m.key, rec, chans, oid), Some(OutcomeOf(db, m.key, m.payload, chans)))
  }

  // The peer once its address has passed the checks.
  function Checked(p: Peer, now: int): Peer
    requires p.recv.Ingesting?
  {
    if p.recv.relaying then p else p.(checkedAt := now)
  }

  // The peer after ingestAddress, up to a broadcast; `outcome` is none if the transaction failed.
  function Ingested(p: Peer, outcome: Option<AddOutcome>, carried: bool): Peer
    requires p.recv.Ingesting?
  {
    var m, relaying := p.recv.msg, p.recv.relaying;
    var failed := outcome == None || outcome == Some(Rejected);
    if carried || outcome == Some(Changed) then p.(recv := PassingOn(m, relaying, failed))
    else AfterIngest(p, relaying, failed)
  }

  ghost function IngestStep(env: Env, s: Net, id: nat, end: TxnEnd): Net
    requires id in s.peers && s.peers[id].recv.Ingesting?
  {
    var p := s.peers[id];
    if !InRange(env, p.recv.msg.payload, s.now) then WithPeer(s, id, p.(recv := Closing))
    else
      var (db, outcome) := Stored(env, s.db, p.recv.msg, end);
      WithPeer(s, id, Ingested(Checked(p, s.now), outcome, end.carried)).(db := db)
  }

  function Removed(p: Peer, sender: bool, at: nat): Peer {
    var p := p.(closed := true, closedAt := if p.closed then p.closedAt else at);
    if sender then p.(send := SendEnded) else p.(recv := Ended)
  }

  function RemoveStep(s: Net, id: nat, sender: bool): Net
    requires id in s.peers
  {
    var p := s.peers[id];
    WithPeer(s, id, Removed(p, sender, |s.log|)).(shared := Remove(s.shared, id, id, p.peerPub))
  }

  function PassOnStep(s: Net, id: nat): Net
    requires id in s.peers && s.peers[id].recv.PassingOn?
  {
    var p := s.peers[id];
    Broadcast(WithPeer(s, id, AfterIngest(p, p.recv.relaying, p.recv.failed)), p.recv.msg)
  }

  predicate HandEnabled(env: Env, h: Hand, act: HandAct) {
    match act
    case TrackHand => h.recv == HandAccepted
    case DropHand => h.recv == HandRefused
    case HandRead(msg) => h.recv == HandServing && (msg.Some? ==> env.Verified(msg.value))
    case HandCast => h.recv.HandCasting?
    case HandStartSend => h.recv == HandServing && h.send == HandNotStarted
    case HandSendFails => h.send == HandSending
    case CloseHandConn(sender) => if sender then h.send == HandSendClosing else h.recv == HandClosing
    case RemoveHand(sender) => if sender then h.send == HandSendRemoving else h.recv == HandRemoving
  }

  function HandStep(s: Net, id: nat, act: HandAct): Net
    requires id in s.hands && (act.HandCast? ==> s.hands[id].recv.HandCasting?)
  {
    var h := s.hands[id];
    match act
    case TrackHand =>
      var (shared, ok) := TrackHandler(s.shared, id, s.stopping);
      WithHand(s, id, h.(recv := if ok then HandServing else HandRefused)).(shared := shared)
    case DropHand => WithHand(s, id, h.(open := false, recv := HandDropped))
    case HandRead(msg) => WithHand(s, id, h.(recv := if msg.None? then HandClosing else HandCasting(msg.value)))
    case HandCast => Broadcast(WithHand(s, id, h.(recv := HandServing)), h.recv.msg)
    case HandStartSend => WithHand(s, id, h.(send := HandSending))
    case HandSendFails => WithHand(s, id, h.(send := HandSendClosing))
    case CloseHandConn(sender) =>
      var h := h.(open := false);
      WithHand(s, id, if sender then h.(send := HandSendRemoving) else h.(recv := HandRemoving))
    case RemoveHand(sender) =>
      var h := h.(closed := true);
      WithHand(s, id, if sender then h.(send := HandSendEnded) else h.(recv := HandEnded))
        .(shared := RemoveHandler(s.shared, id))
  }

  function StopStep(s: Net): Net {
    s.(stopped := true,
       peers := map id | id in s.peers :: s.peers[id].(open := s.peers[id].open && id !in s.shared.connections),
       hands := map id | id in s.hands :: s.hands[id].(open := s.hands[id].open && id !in s.shared.connections))
  }

  function GossipOf(s: Net, key: PubKey): Message
    requires key in s.db.nodes
  {
    Message(NodeChannel, AddrTag, key, s.db.nodes[key].rec.sig, s.db.nodes[key].rec.payload)
  }

  // The announcement service enters this node in the node table.
  function OwnNode(env: Env, body: AddrMsg, oid: int): Op {
    var m, c := env.Announcement(body), body.content;
    AddNode(env.me, Record(c.address, body.time, c.owner, m.payload, m.sig), c.channels, oid)
  }

  // ---------------------------------------------------------------- all steps

  ghost predicate Enabled(env: Env, s: Net, a: Action) {
    match a
    case Own(id, act) => id in s.peers && LocalEnabled(env, s.stopping, s.peers[id], act)
    case Dial(id, outbound, hasPub, key) =>
      id !in s.peers && id !in s.hands && (hasPub ==> outbound) && (!hasPub ==> key == NO_KEY)
    case TrackConn(id) => id in s.peers && s.peers[id].recv == Dialed
    case AdoptKey(id) => id in s.peers && s.peers[id].recv.Adopting?
    case Ingest(id, end) =>
      id in s.peers && s.peers[id].recv.Ingesting? && (end.Committed? ==> FreshOid(s.db, end.oid))
    case PassOn(id) => id in s.peers && s.peers[id].recv.PassingOn?
    case RemovePeer(id, sender) =>
      id in s.peers && if sender then s.peers[id].send == SendRemoving else s.peers[id].recv == Removing
    case Announce(_) => !s.forwarding
    case StoreOwn(body, oid) => FreshOid(s.db, oid)
    case ForwardAnnounce => s.forwarding && s.anns != []
    case PickGossip(key) => s.gossip.None? && key in s.db.nodes
    case SendGossip => s.gossip.Some?
    case Database(op) => !op.AddNode?
    case AcceptHand(id) => id !in s.peers && id !in s.hands
    case OfHand(id, act) => id in s.hands && HandEnabled(env, s.hands[id], act)
    case RequestStop => true
    case StopAll => s.stopping
    case Tick(now) => s.now <= now
  }

  ghost function Next(env: Env, s: Net, a: Action): Net
    requires Enabled(env, s, a)
  {
    match a
    case Own(id, act) => WithPeer(s, id, Local(env, s, s.peers[id], act))
    case Dial(id, outbound, hasPub, key) => WithPeer(s, id, NewPeer(outbound, hasPub, key))
    case TrackConn(id) => TrackStep(s, id)
    case AdoptKey(id) => AdoptStep(env, s, id)
    case Ingest(id, end) => IngestStep(env, s, id, end)
    case PassOn(id) => PassOnStep(s, id)
    case RemovePeer(id, sender) => RemoveStep(s, id, sender)
    case Announce(body) =>
      var m := env.Announcement(body);
      s.(anns := s.anns + [m], shared := s.shared.(announce := Some(m)), forwarding := true)
    case StoreOwn(body, oid) => s.(db := Apply(s.db, OwnNode(env, body, oid)))
    case ForwardAnnounce =>
      Broadcast(s, s.anns[|s.anns| - 1]).(forwarding := false, castAt := s.castAt + [|s.log|])
    case PickGossip(key) => s.(gossip := Some(GossipOf(s, key)))
    case SendGossip => Broadcast(s, s.gossip.value).(gossip := None)
    case Database(op) => s.(db := Apply(s.db, op))
    case AcceptHand(id) => WithHand(s, id, Hand(true, HandAccepted, HandNotStarted, false))
    case OfHand(id, act) => HandStep(s, id, act)
    case RequestStop => s.(stopping := true)
    case StopAll => StopStep(s)
    case Tick(now) => s.(now := now)
  }

  ghost predicate Initial(s: Net) {
    && s.shared == Shared([], map[], [], None)
    && s.peers == map[] && s.hands == map[] && s.anns == [] && !s.forwarding && s.castAt == []
    && s.log == [] && s.gossip == None && !s.stopping && !s.stopped
  }

  ghost predicate IsRun(env: Env, s: Net, actions: seq<Action>)
    decreases |actions|
  {
    actions != [] ==> Enabled(env, s, actions[0]) && IsRun(env, Next(env, s, actions[0]), actions[1..])
  }

  ghost function Run(env: Env, s: Net, actions: seq<Action>): Net
    requires IsRun(env, s, actions)
    decreases |actions|
  {
    if actions == [] then s else Run(env, Next(env, s, actions[0]), actions[1..])
  }
}
