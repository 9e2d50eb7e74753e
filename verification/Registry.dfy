/**
 The mutex-guarded state of the network service (internal/netsvc/service.go): what each critical
 section does to it, as functions, and the service object whose methods do exactly that in place.
 */
module Registry {
  import opened Types
  import opened Store

  const QUEUE_CAPACITY := 100
  const PEER_LOCK_SECONDS := 30

  // P identifies a peer connection object; connections and handlers are named by number.
  datatype Shared<P> = Shared(
    connections: seq<nat>,
    connectedPeers: map<PubKey, P>,
    handlers: seq<nat>,
    announce: Option<Message>)

  // ---------------------------------------------------------------- unordered removal

  function FirstIndex<T(==)>(xs: seq<T>, x: T): (i: nat)
    requires x in xs
    ensures i < |xs| && xs[i] == x && x !in xs[..i]
  {
    if xs[0] == x then 0 else 1 + FirstIndex(xs[1..], x)
  }

  // Overwrite the first occurrence with the last element and shorten.
  function SwapRemove<T(==)>(xs: seq<T>, x: T): seq<T> {
    if x !in xs then xs
    else xs[FirstIndex(xs, x) := xs[|xs| - 1]][..|xs| - 1]
  }

  /** Swap-removal takes out the element and keeps every other one, once. */
  lemma SwapRemoveKeepsOthers<T>(xs: seq<T>, x: T)
    requires Distinct(xs)
    ensures Distinct(SwapRemove(xs, x))
    ensures forall y :: y in SwapRemove(xs, x) <==> y in xs && y != x
  {
    if x in xs {
      var i, n := FirstIndex(xs, x), |xs| - 1;
      var ys := SwapRemove(xs, x);
      assert forall j :: 0 <= j < n ==> ys[j] == if j == i then xs[n] else xs[j];
      forall y | y in xs && y != x
        ensures y in ys
      {
        var j :| 0 <= j < |xs| && xs[j] == y;
        assert ys[if j == n then i else j] == y;
      }
    }
  }

  // ---------------------------------------------------------------- critical sections

  predicate HoldsKey<P(==)>(peers: map<PubKey, P>, key: PubKey, peer: P) {
    key in peers && peers[key] == peer
  }

  // The connection is recorded before the duplicate check.
  function Track<P>(s: Shared<P>, conn: nat, peer: P, key: PubKey, stopping: bool): (Shared<P>, bool) {
    if stopping then (s, false)
    else
      var tracked := s.(connections := s.connections + [conn]);
      if key == NO_KEY then (tracked, true)
      else if key in s.connectedPeers then (tracked, false)
      else (tracked.(connectedPeers := s.connectedPeers[key := peer]), true)
  }

  function Adopt<P>(s: Shared<P>, peer: P, key: PubKey): (Shared<P>, bool) {
    if key in s.connectedPeers then (s, false)
    else (s.(connectedPeers := s.connectedPeers[key := peer]), true)
  }

  function Remove<P(==)>(s: Shared<P>, conn: nat, peer: P, key: PubKey): Shared<P> {
    s.(connectedPeers := if HoldsKey(s.connectedPeers, key, peer) then s.connectedPeers - {key} else s.connectedPeers,
       connections := SwapRemove(s.connections, conn))
  }

  function TrackHandler<P>(s: Shared<P>, conn: nat, stopping: bool): (Shared<P>, bool) {
    if stopping then (s, false)
    else (s.(connections := s.connections + [conn], handlers := s.handlers + [conn]), true)
  }

  function RemoveHandler<P>(s: Shared<P>, conn: nat): Shared<P> {
    s.(connections := SwapRemove(s.connections, conn), handlers := SwapRemove(s.handlers, conn))
  }

  // A non-blocking send: dropped if the queue is full.
  function Offered(queue: seq<Message>, m: Message): seq<Message> {
    if |queue| < QUEUE_CAPACITY then queue + [m] else queue
  }

  function TryLock(locked: map<PubKey, int>, key: PubKey, now: int): (map<PubKey, int>, bool) {
    if key in locked && now < locked[key] then (locked, false)
    else (locked[key := now + PEER_LOCK_SECONDS], true)
  }

  // ---------------------------------------------------------------- the service object

  class PeerConn {
    const conn: nat
    var peerPub: PubKey
    var send: seq<Message>

    constructor (conn: nat, peerPub: PubKey)
      ensures this.conn == conn && this.peerPub == peerPub && send == []
    {
      this.conn := conn;
      this.peerPub := peerPub;
      send := [];
    }
  }

  class NetService {
    var connections: seq<nat>
    var connectedPeers: map<PubKey, PeerConn>
    var handlers: seq<nat>
    var encAnnounce: Option<Message>
    var lockedPeers: map<PubKey, int>
    var open: set<nat> // connections not yet closed
    var stopping: bool

    ghost function State(): Shared<PeerConn>
      reads this
    {
      Shared(connections, connectedPeers, handlers, encAnnounce)
    }

    constructor ()
      ensures State() == Shared([], map[], [], None)
      ensures lockedPeers == map[] && open == {} && !stopping
    {
      connections, connectedPeers, handlers, encAnnounce := [], map[], [], None;
      lockedPeers, open, stopping := map[], {}, false;
    }

    method TrackPeer(conn: nat, peer: PeerConn, pubKey: PubKey) returns (ok: bool)
      modifies this`connections, this`connectedPeers
      ensures (State(), ok) == Track(old(State()), conn, peer, pubKey, stopping)
    {
      if stopping {
        return false;
      }
      connections := connections + [conn];
      if pubKey != NO_KEY {
        if pubKey in connectedPeers {
          return false;
        }
        connectedPeers := connectedPeers[pubKey := peer];
      }
      return true;
    }

    method AdoptPeer(peer: PeerConn, pubKey: PubKey) returns (ok: bool)
      modifies this`connectedPeers
      ensures (State(), ok) == Adopt(old(State()), peer, pubKey)
    {
      if pubKey in connectedPeers {
        return false;
      }
      connectedPeers := connectedPeers[pubKey := peer];
      return true;
    }

    method ClosePeer(peer: PeerConn)
      modifies this`open, this`connections, this`connectedPeers
      ensures State() == Remove(old(State()), peer.conn, peer, peer.peerPub)
      ensures open == old(open) - {peer.conn}
    {
      open := open - {peer.conn};
      var key := peer.peerPub;
      if key in connectedPeers && connectedPeers[key] == peer {
        connectedPeers := connectedPeers - {key};
      }
      connections := Without(connections, peer.conn);
    }

    // The removal loop of closePeer and closeHandler.
    static method Without(xs: seq<nat>, x: nat) returns (ys: seq<nat>)
      ensures ys == SwapRemove(xs, x)
    {
      ys := xs;
      for i := 0 to |xs|
        invariant ys == xs && x !in xs[..i]
      {
        if ys[i] == x {
          assert FirstIndex(xs, x) == i;
          ys := ys[i := ys[|ys| - 1]];
          ys := ys[..|ys| - 1];
          return;
        }
      }
    }

    method AcceptHandler(conn: nat) returns (ok: bool)
      modifies this`connections, this`handlers
      ensures (State(), ok) == TrackHandler(old(State()), conn, stopping)
    {
      if stopping {
        return false;
      }
      connections := connections + [conn];
      handlers := handlers + [conn];
      return true;
    }

    method CloseHandler(conn: nat)
      modifies this`open, this`connections, this`handlers
      ensures State() == RemoveHandler(old(State()), conn)
      ensures open == old(open) - {conn}
    {
      open := open - {conn};
      connections := Without(connections, conn);
      handlers := Without(handlers, conn);
    }

    /** Offers the message once to every registered peer, in whatever order the map yields them,
        and to nobody else. */
    method ForwardToPeers(msg: Message)
      requires forall k, l :: k in connectedPeers && l in connectedPeers && connectedPeers[k] == connectedPeers[l] ==>
        k == l
      modifies set k | k in connectedPeers :: connectedPeers[k]
      ensures forall k :: k in connectedPeers ==>
        && connectedPeers[k].send == Offered(old(connectedPeers[k].send), msg)
        && connectedPeers[k].peerPub == old(connectedPeers[k].peerPub)
    {
      var rest := connectedPeers.Keys;
      while rest != {}
        invariant rest <= connectedPeers.Keys
        invariant forall k :: k in connectedPeers ==>
          && connectedPeers[k].send == (if k in rest then old(connectedPeers[k].send)
                                        else Offered(old(connectedPeers[k].send), msg))
          && connectedPeers[k].peerPub == old(connectedPeers[k].peerPub)
        decreases rest
      {
        var k :| k in rest;
        var peer := connectedPeers[k];
        if |peer.send| < QUEUE_CAPACITY {
          peer.send := peer.send + [msg];
        }
        rest := rest - {k};
      }
    }

    method LockPeer(pubKey: PubKey, now: int) returns (ok: bool)
      modifies this`lockedPeers
      ensures (lockedPeers, ok) == TryLock(old(lockedPeers), pubKey, now)
    {
      if pubKey in lockedPeers {
        var until := lockedPeers[pubKey];
        if now < until {
          return false;
        }
      }
      lockedPeers := lockedPeers[pubKey := now + PEER_LOCK_SECONDS];
      return true;
    }

    method SetAnnounce(msg: Message)
      modifies this`encAnnounce
      ensures State() == old(State()).(announce := Some(msg))
    {
      encAnnounce := Some(msg);
    }

    /** Closes every tracked connection. */
    method Stop()
      modifies this`open
      ensures open == old(open) - ToSet(connections)
    {
      for i := 0 to |connections|
        invariant open == old(open) - ToSet(connections[..i])
      {
        open := open - {connections[i]};
      }
      assert connections[..|connections|] == connections;
    }
  }

  // ---------------------------------------------------------------- lock spacing

  datatype Attempt = Attempt(key: PubKey, now: int)

  // The outcome of the last of a history of lockPeer calls, and the map it leaves.
  function LocksAfter(calls: seq<Attempt>): map<PubKey, int> {
    if calls == [] then map[]
    else TryLock(LocksAfter(calls[..|calls| - 1]), calls[|calls| - 1].key, calls[|calls| - 1].now).0
  }

  predicate Locked(calls: seq<Attempt>, i: nat)
    requires i < |calls|
  {
    TryLock(LocksAfter(calls[..i]), calls[i].key, calls[i].now).1
  }

  ghost predicate ClockRuns(calls: seq<Attempt>) {
    forall i, j :: 0 <= i <= j < |calls| ==> calls[i].now <= calls[j].now
  }

  // The deadline in force for a key is the one its last successful call set.
  lemma {:induction false} LockRemembers(calls: seq<Attempt>, i: nat, j: nat)
    requires i < j <= |calls| && Locked(calls, i) && ClockRuns(calls)
    ensures calls[i].key in LocksAfter(calls[..j])
    ensures LocksAfter(calls[..j])[calls[i].key] >= calls[i].now + PEER_LOCK_SECONDS
    decreases j
  {
    var c := calls[..j];
    assert c[..|c| - 1] == calls[..j - 1];
    if i < j - 1 {
      LockRemembers(calls, i, j - 1);
    }
  }

  /** Two successful locks of one key are at least 30 seconds apart. */
  lemma LockSpacing(calls: seq<Attempt>, i: nat, j: nat)
    requires ClockRuns(calls) && i < j < |calls| && calls[i].key == calls[j].key
    requires Locked(calls, i) && Locked(calls, j)
    ensures calls[j].now - calls[i].now >= 30
  {
    LockRemembers(calls, i, j);
  }

  // A deadline in force was set by a successful call 30 seconds before it.
  lemma {:induction false} LockWasSet(calls: seq<Attempt>, j: nat, key: PubKey) returns (i: nat)
    requires j <= |calls| && key in LocksAfter(calls[..j])
    ensures i < j && calls[i].key == key && Locked(calls, i) && LocksAfter(calls[..j])[key] == calls[i].now + 30
    decreases j
  {
    var c := calls[..j];
    assert c[..|c| - 1] == calls[..j - 1];
    if calls[j - 1].key == key && Locked(calls, j - 1) {
      i := j - 1;
    } else {
      i := LockWasSet(calls, j - 1, key);
    }
  }

  /** A lock is granted if and only if it was not granted to anyone for the same key in the 30 seconds
      before. */
  lemma LockGrantedIff(calls: seq<Attempt>, j: nat)
    requires ClockRuns(calls) && j < |calls|
    ensures Locked(calls, j) <==>
      forall i :: 0 <= i < j && calls[i].key == calls[j].key && Locked(calls, i) ==> calls[j].now - calls[i].now >= 30
  {
    if Locked(calls, j) {
      forall i | 0 <= i < j && calls[i].key == calls[j].key && Locked(calls, i)
        ensures calls[j].now - calls[i].now >= 30
      {
        LockSpacing(calls, i, j);
      }
    } else {
      var i := LockWasSet(calls, j, calls[j].key);
      assert calls[j].now - calls[i].now < 30;
    }
  }

  function OnlyKey(calls: seq<Attempt>, key: PubKey): seq<Attempt> {
    if calls == [] then []
    else
      var rest := OnlyKey(calls[..|calls| - 1], key);
      if calls[|calls| - 1].key == key then rest + [calls[|calls| - 1]] else rest
  }

  /** What happens to a key depends on the calls for that key alone. */
  lemma {:induction false} LocksAreIndependent(calls: seq<Attempt>, key: PubKey, now: int)
    ensures TryLock(LocksAfter(calls), key, now).1 == TryLock(LocksAfter(OnlyKey(calls, key)), key, now).1
    ensures key in LocksAfter(calls) <==> key in LocksAfter(OnlyKey(calls, key))
    ensures key in LocksAfter(calls) ==> LocksAfter(calls)[key] == LocksAfter(OnlyKey(calls, key))[key]
    decreases |calls|
  {
    if calls != [] {
      var front, c := calls[..|calls| - 1], calls[|calls| - 1];
      LocksAreIndependent(front, key, now);
      var rest := OnlyKey(front, key);
      if c.key == key {
        assert (rest + [c])[..|rest|] == rest;
      }
    }
  }
}
