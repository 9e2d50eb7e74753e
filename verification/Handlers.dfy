/**
 The list of protocol handlers that the service tracks.
 */
module Handlers {
  import opened Types
  import opened Registry
  import Store
  import opened PeerSystem
  import opened PeerTheorems

  // Tracked, and not closed yet.
  predicate IsServed(h: Hand) {
    h.recv != HandAccepted && h.recv != HandRefused && h.recv != HandDropped && !h.closed
  }

  ghost predicate HandlersOk(s: Net) {
    && Store.Distinct(s.shared.handlers)
    && (forall id :: id in s.shared.handlers <==> id in s.hands && IsServed(s.hands[id]))
    && forall id :: id in s.hands && s.hands[id].recv == HandAccepted ==>
         !s.hands[id].closed && s.hands[id].send == HandNotStarted
  }

  lemma HandMoves(s: Net, id: nat, h: Hand)
    requires HandlersOk(s) && id in s.hands && h.recv != HandAccepted && (IsServed(h) <==> IsServed(s.hands[id]))
    ensures HandlersOk(WithHand(s, id, h))
  {
    hide IsServed;
  }

  lemma HandIsTracked(s: Net, id: nat)
    requires HandlersOk(s) && id in s.hands && s.hands[id].recv == HandAccepted
    ensures HandlersOk(HandStep(s, id, TrackHand))
  {
  }

  lemma HandIsRemoved(s: Net, id: nat, sender: bool)
    requires HandlersOk(s) && id in s.hands && HandlerEnds(s.hands[id], sender)
    ensures HandlersOk(HandStep(s, id, RemoveHand(sender)))
  {
    hide SwapRemove;
    SwapRemoveKeepsOthers(s.shared.handlers, id);
  }

  predicate HandlerEnds(h: Hand, sender: bool) {
    if sender then h.send == HandSendRemoving else h.recv == HandRemoving
  }

  lemma HandKeepsHandlers(env: Env, s: Net, id: nat, act: HandAct)
    requires HandlersOk(s) && id in s.hands && HandEnabled(env, s.hands[id], act)
    ensures HandlersOk(HandStep(s, id, act))
  {
    var h := s.hands[id];
    assert h.recv == HandAccepted ==> h.send == HandNotStarted;
    hide Broadcast, HandlersOk;
    match act
    case TrackHand => HandIsTracked(s, id);
    case RemoveHand(sender) => HandIsRemoved(s, id, sender);
    case HandCast =>
      HandMoves(s, id, h.(recv := HandServing));
      BroadcastKeepsHands(WithHand(s, id, h.(recv := HandServing)), h.recv.msg);
      SameHandlers(WithHand(s, id, h.(recv := HandServing)), HandStep(s, id, act));
    case _ =>
      hide HandStep, HandEnabled, IsServed;
      HandMovesOn(env, s, id, act);
      HandMoves(s, id, HandStep(s, id, act).hands[id]);
  }

  lemma HandMovesOn(env: Env, s: Net, id: nat, act: HandAct)
    requires id in s.hands && HandEnabled(env, s.hands[id], act)
    requires s.hands[id].recv == HandAccepted ==> s.hands[id].send == HandNotStarted
    requires !act.TrackHand? && !act.RemoveHand? && !act.HandCast?
    ensures
      var t := HandStep(s, id, act);
      && id in t.hands && t == WithHand(s, id, t.hands[id])
      && t.hands[id].recv != HandAccepted && (IsServed(t.hands[id]) <==> IsServed(s.hands[id]))
  {
  }

  lemma SameHandlers(s: Net, t: Net)
    requires HandlersOk(s) && t.hands == s.hands && t.shared == s.shared
    ensures HandlersOk(t)
  {
  }

  lemma BroadcastKeepsHands(s: Net, m: Message)
    ensures Broadcast(s, m).hands == s.hands && Broadcast(s, m).shared == s.shared
  {
  }

  // The list and the handlers are as before, but for connections that were closed.
  ghost predicate SameHands(s: Net, t: Net) {
    && t.shared.handlers == s.shared.handlers && t.hands.Keys == s.hands.Keys
    && forall id :: id in s.hands ==> t.hands[id] == s.hands[id].(open := t.hands[id].open)
  }

  lemma StopKeepsHands(s: Net)
    ensures SameHands(s, StopStep(s))
  {
  }

  lemma CastKeepsHands(env: Env, s: Net, a: Action)
    requires Enabled(env, s, a) && (a.PassOn? || a.ForwardAnnounce? || a.SendGossip?)
    ensures SameHands(s, Next(env, s, a))
  {
    hide Broadcast, AfterIngest;
    match a
    case PassOn(id) =>
      var p := s.peers[id];
      BroadcastKeepsHands(WithPeer(s, id, AfterIngest(p, p.recv.relaying, p.recv.failed)), p.recv.msg);
    case ForwardAnnounce => BroadcastKeepsHands(s, s.anns[|s.anns| - 1]);
    case SendGossip => BroadcastKeepsHands(s, s.gossip.value);
  }

  lemma IngestKeepsHands(env: Env, s: Net, id: nat, end: TxnEnd)
    requires id in s.peers && s.peers[id].recv.Ingesting?
    ensures SameHands(s, IngestStep(env, s, id, end))
  {
    hide Ingested, Checked, Stored, InRange;
  }

  // No other step touches the list, and the service's Stop only closes connections.
  lemma HandlersFrame(env: Env, s: Net, a: Action)
    requires Enabled(env, s, a) && !a.OfHand? && !a.AcceptHand?
    ensures SameHands(s, Next(env, s, a))
  {
    if a.PassOn? || a.ForwardAnnounce? || a.SendGossip? {
      CastKeepsHands(env, s, a);
    } else {
      hide Local, LocalEnabled, IngestStep, StopStep, Tracked, Adopted, Removed, Broadcast, HandEnabled;
      hide Store.Apply, Store.Enabled;
      match a
      case Ingest(id, end) => IngestKeepsHands(env, s, id, end);
      case StopAll => StopKeepsHands(s);
      case _ =>
    }
  }

  lemma HandIsAccepted(env: Env, s: Net, id: nat)
    requires HandlersOk(s) && Enabled(env, s, AcceptHand(id))
    ensures HandlersOk(Next(env, s, AcceptHand(id)))
  {
  }

  lemma StillHandlers(s: Net, t: Net)
    requires HandlersOk(s) && SameHands(s, t)
    ensures HandlersOk(t)
  {
  }

  lemma HandActs(env: Env, s: Net, id: nat, act: HandAct)
    requires Enabled(env, s, OfHand(id, act))
    ensures id in s.hands && HandEnabled(env, s.hands[id], act)
    ensures Next(env, s, OfHand(id, act)) == HandStep(s, id, act)
  {
    hide HandStep, HandEnabled;
  }

  lemma StepKeepsHandlers(env: Env, s: Net, a: Action)
    requires HandlersOk(s) && Enabled(env, s, a)
    ensures HandlersOk(Next(env, s, a))
  {
    hide HandStep, HandEnabled, HandlersOk, Next, Enabled;
    if a.OfHand? {
      HandActs(env, s, a.id, a.hand);
      HandKeepsHandlers(env, s, a.id, a.hand);
    } else if a.AcceptHand? {
      HandIsAccepted(env, s, a.id);
    } else {
      HandlersFrame(env, s, a);
      StillHandlers(s, Next(env, s, a));
    }
  }

  lemma {:induction false} RunKeepsHandlers(env: Env, s: Net, actions: seq<Action>)
    requires HandlersOk(s) && IsRun(env, s, actions)
    ensures HandlersOk(Run(env, s, actions))
    decreases |actions|
  {
    hide HandlersOk, Next, Enabled;
    if actions != [] {
      StepKeepsHandlers(env, s, actions[0]);
      RunKeepsHandlers(env, Next(env, s, actions[0]), actions[1..]);
    }
  }

  /** In every reachable state the list of handlers holds, once each, exactly those that were tracked and
      have not been closed. */
  lemma HandlersListed(env: Env, s: Net, id: nat)
    requires Reachable(env, s)
    ensures Store.Distinct(s.shared.handlers)
    ensures id in s.shared.handlers <==> id in s.hands && IsServed(s.hands[id])
  {
    var s0 :| Initial(s0) && Leads(env, s0, s);
    var actions :| IsRun(env, s0, actions) && Run(env, s0, actions) == s;
    RunKeepsHandlers(env, s0, actions);
  }

  /** A handler's connection is tracked and served if and only if the service is not stopping; otherwise
      nothing is tracked and the next step closes it. */
  lemma HandlerIsServed(env: Env, s: Net, id: nat)
    requires id in s.hands && s.hands[id].recv == HandAccepted
    ensures
      var t := Next(env, s, OfHand(id, TrackHand));
      && Enabled(env, s, OfHand(id, TrackHand)) && id in t.hands
      && (if s.stopping then t.hands[id].recv == HandRefused && t.shared == s.shared
          else && t.hands[id].recv == HandServing
               && t.shared.handlers == s.shared.handlers + [id] && t.shared.connections == s.shared.connections + [id])
      && (s.stopping ==> Enabled(env, t, OfHand(id, DropHand)) && !Next(env, t, OfHand(id, DropHand)).hands[id].open)
  {
  }

  /** A handler that fails, on either of its goroutines, is closed and leaves both lists, and every other
      handler and connection stays. */
  lemma HandlerCloses(env: Env, s: Net, id: nat, sender: bool, other: nat)
    requires id in s.hands && if sender then s.hands[id].send == HandSendClosing else s.hands[id].recv == HandClosing
    requires Store.Distinct(s.shared.handlers) && Store.Distinct(s.shared.connections)
    ensures
      var close, remove := OfHand(id, CloseHandConn(sender)), OfHand(id, RemoveHand(sender));
      && Enabled(env, s, close) && var s1 := Next(env, s, close);
      && Enabled(env, s1, remove) && var t := Next(env, s1, remove);
      && id in t.hands && t.hands[id].closed && !t.hands[id].open
      && id !in t.shared.handlers && id !in t.shared.connections
      && (other != id ==> (other in t.shared.handlers <==> other in s.shared.handlers)
                          && (other in t.shared.connections <==> other in s.shared.connections))
  {
    hide SwapRemove;
    SwapRemoveKeepsOthers(s.shared.handlers, id);
    SwapRemoveKeepsOthers(s.shared.connections, id);
  }
}
