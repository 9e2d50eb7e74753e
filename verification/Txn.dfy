/**
 The transaction runner `doTxn`: retry on conflict, at most 120 attempts. The closure it runs
 assigns results to variables of its caller, and a rollback does not undo those.
 */
module Txn {
  import opened Types
  import opened Store

  const LIMIT := 120

  // How one run of the closure ends; `res` is what it leaves in the captured variables.
  datatype Try<S, R> = Done(db: S, res: R) | Err(conflict: bool, res: R)

  datatype Phase = Fine | Busy | Broken

  // Everything an execution depends on: how attempt i begins and commits, what other
  // connections commit before it, and what the closure does in it.
  datatype World<!S, !R> = World(
    begin: nat -> Phase,
    commit: nat -> Phase,
    others: (nat, S) -> S,
    work: (nat, S, R) -> Try<S, R>)

  // How an attempt ends. `Jams`: the closure ended in a conflict. Its transaction is rolled back only
  // when the whole call returns, and until then it keeps the only connection of the pool; a failed
  // begin or commit gives the connection back.
  datatype Verdict = Commits | Retries | Jams | Fails

  function VerdictOf<S, R>(w: World<S, R>, i: nat, db: S, res: R): Verdict {
    if w.begin(i) != Fine then (if w.begin(i) == Busy then Retries else Fails)
    else
      var t := w.work(i, db, res);
      if t.Err? then (if t.conflict then Jams else Fails)
      else if w.commit(i) == Fine then Commits
      else if w.commit(i) == Busy then Retries
      else Fails
  }

  function Captured<S, R>(w: World<S, R>, i: nat, db: S, res: R): R {
    if w.begin(i) != Fine then res else w.work(i, db, res).res
  }

  // The database and the captured variables as attempt i finds them, if all attempts before it retried.
  function Entry<S, R>(w: World<S, R>, i: nat, db: S, res: R): (S, R) {
    if i == 0 then (w.others(0, db), res)
    else
      var (d, r) := Entry(w, i - 1, db, res);
      (w.others(i, d), Captured(w, i - 1, d, r))
  }

  function VerdictAt<S, R>(w: World<S, R>, i: nat, db: S, res: R): Verdict {
    var (d, r) := Entry(w, i, db, res);
    VerdictOf(w, i, d, r)
  }

  // How a call ends. `Waits`: Begin waits for ever for the connection this call itself still holds.
  datatype End = Succeeds | GivesUp | Waits

  /** At most 120 attempts, each but the last a conflict at begin or commit. The call succeeds exactly if
      the last attempt committed, and then the database is the closure applied once to what the others
      had left; otherwise it is untouched by this call. It waits for ever exactly if an attempt before
      the 120th had its closure end in a conflict. */
  method DoTxn<S, R>(w: World<S, R>, db: S, init: R) returns (db': S, res: R, end: End, attempts: nat)
    ensures 1 <= attempts <= 120
    ensures forall j :: 0 <= j < attempts - 1 ==> VerdictAt(w, j, db, init) == Retries
    ensures VerdictAt(w, attempts - 1, db, init) == Retries ==> attempts == 120
    ensures end == Succeeds <==> VerdictAt(w, attempts - 1, db, init) == Commits
    ensures end == Waits <==> VerdictAt(w, attempts - 1, db, init) == Jams && attempts < 120
    ensures end == Succeeds ==>
      var (d, r) := Entry(w, attempts - 1, db, init);
      Done(db', res) == w.work(attempts - 1, d, r)
    ensures end != Succeeds ==>
      var (d, r) := Entry(w, attempts - 1, db, init);
      db' == d && res == Captured(w, attempts - 1, d, r)
  {
    var limit := LIMIT;
    var connectionFree := true;
    attempts := 0;
    db', res := db, init;
    while true
      invariant limit + attempts == LIMIT && 0 < limit
      invariant connectionFree ==> (w.others(attempts, db'), res) == Entry(w, attempts, db, init)
      invariant forall j :: 0 <= j < attempts - 1 ==> VerdictAt(w, j, db, init) == Retries
      invariant connectionFree && attempts > 0 ==> VerdictAt(w, attempts - 1, db, init) == Retries
      invariant !connectionFree ==>
        && attempts > 0 && VerdictAt(w, attempts - 1, db, init) == Jams
        && db' == Entry(w, attempts - 1, db, init).0
        && res == Captured(w, attempts - 1, db', Entry(w, attempts - 1, db, init).1)
      decreases limit
    {
      if !connectionFree {
        return db', res, Waits, attempts;
      }
      db' := w.others(attempts, db');
      attempts := attempts + 1;
      var begin := w.begin(attempts - 1);
      if begin != Fine {
        if begin == Busy {
          limit := limit - 1;
          if limit != 0 {
            continue;
          }
        }
        return db', res, GivesUp, attempts;
      }
      connectionFree := false;
      var t := w.work(attempts - 1, db', res);
      res := t.res;
      if t.Err? {
        if t.conflict {
          limit := limit - 1;
          if limit != 0 {
            continue;
          }
        }
        return db', res, GivesUp, attempts;
      }
      connectionFree := true;
      var commit := w.commit(attempts - 1);
      if commit != Fine {
        if commit == Busy {
          limit := limit - 1;
          if limit != 0 {
            continue;
          }
        }
        return db', res, GivesUp, attempts;
      }
      return t.db, res, Succeeds, attempts;
    }
  }

  // ---------------------------------------------------------------- when a call returns

  // The number of attempts a call makes, starting with attempt i.
  function AttemptsFrom<S, R>(w: World<S, R>, i: nat, db: S, res: R): nat
    requires i < LIMIT
    decreases LIMIT - i
  {
    if i == LIMIT - 1 || VerdictAt(w, i, db, res) != Retries then i + 1
    else AttemptsFrom(w, i + 1, db, res)
  }

  // Does a call return, or does its last attempt keep the connection that the next one needs?
  predicate Returns<S, R>(w: World<S, R>, db: S, res: R) {
    var n := AttemptsFrom(w, 0, db, res);
    n == LIMIT || (n > 0 && VerdictAt(w, n - 1, db, res) != Jams)
  }

  // Attempt i is made: all before it met a conflict at begin or commit.
  ghost predicate Made<S, R>(w: World<S, R>, i: nat, db: S, res: R) {
    forall j :: 0 <= j < i ==> VerdictAt(w, j, db, res) == Retries
  }

  lemma {:induction false} AttemptsMade<S, R>(w: World<S, R>, i: nat, db: S, res: R)
    requires i < LIMIT && Made(w, i, db, res)
    ensures
      var n := AttemptsFrom(w, i, db, res);
      i < n <= LIMIT && Made(w, n - 1, db, res) && (n < LIMIT ==> VerdictAt(w, n - 1, db, res) != Retries)
    decreases LIMIT - i
  {
    if i < LIMIT - 1 && VerdictAt(w, i, db, res) == Retries {
      AttemptsMade(w, i + 1, db, res);
    }
  }

  lemma {:induction false} AttemptsAre<S, R>(w: World<S, R>, i: nat, db: S, res: R, n: nat)
    requires i < n <= LIMIT && (forall j :: i <= j < n - 1 ==> VerdictAt(w, j, db, res) == Retries)
    requires VerdictAt(w, n - 1, db, res) == Retries ==> n == LIMIT
    ensures AttemptsFrom(w, i, db, res) == n
    decreases LIMIT - i
  {
    if i < n - 1 {
      AttemptsAre(w, i + 1, db, res, n);
    }
  }

  /** What `DoTxn` promises of its attempts decides how often a call tries and whether it returns: the
      condition under which `DoTxn` waits is that the call does not return. */
  lemma WaitsIffNotReturns<S, R>(w: World<S, R>, db: S, res: R, attempts: nat)
    requires 1 <= attempts <= LIMIT && (forall j :: 0 <= j < attempts - 1 ==> VerdictAt(w, j, db, res) == Retries)
    requires VerdictAt(w, attempts - 1, db, res) == Retries ==> attempts == LIMIT
    ensures AttemptsFrom(w, 0, db, res) == attempts
    ensures VerdictAt(w, attempts - 1, db, res) == Jams && attempts < LIMIT <==> !Returns(w, db, res)
  {
    hide VerdictAt;
    AttemptsAre(w, 0, db, res, attempts);
  }

  lemma JamCounts<S, R>(w: World<S, R>, i: nat, db: S, res: R)
    requires i < LIMIT - 1 && Made(w, i, db, res) && VerdictAt(w, i, db, res) == Jams
    ensures AttemptsFrom(w, 0, db, res) == i + 1
  {
    hide VerdictAt;
    AttemptsAre(w, 0, db, res, i + 1);
  }

  /** A call returns if and only if no attempt it makes before the 120th has its closure end in a
      conflict; conflicts at begin or commit are harmless. */
  lemma ReturnsIff<S, R>(w: World<S, R>, db: S, res: R)
    ensures Returns(w, db, res) <==>
      forall i: nat :: i < 119 && Made(w, i, db, res) ==> VerdictAt(w, i, db, res) != Jams
  {
    hide VerdictAt, AttemptsFrom;
    AttemptsMade(w, 0, db, res);
    var n := AttemptsFrom(w, 0, db, res);
    forall i: nat | i < LIMIT - 1 && Made(w, i, db, res) && VerdictAt(w, i, db, res) == Jams
      ensures !Returns(w, db, res)
    {
      JamCounts(w, i, db, res);
    }
  }

  /** What each attempt comes to: it is retried for a conflict at begin, or at commit of a closure that
      ended well, and for nothing else. */
  lemma VerdictMeans<S, R>(w: World<S, R>, i: nat, db: S, res: R)
    ensures
      var t := w.work(i, Entry(w, i, db, res).0, Entry(w, i, db, res).1);
      && (VerdictAt(w, i, db, res) == Retries <==>
            w.begin(i) == Busy || (w.begin(i) == Fine && t.Done? && w.commit(i) == Busy))
      && (VerdictAt(w, i, db, res) == Jams <==> w.begin(i) == Fine && t.Err? && t.conflict)
      && (VerdictAt(w, i, db, res) == Commits <==> w.begin(i) == Fine && t.Done? && w.commit(i) == Fine)
  {
    hide Entry;
  }

  // In attempt i the closure ends well.
  predicate WorksAt<S, R>(w: World<S, R>, i: nat, db: S, res: R) {
    w.work(i, Entry(w, i, db, res).0, Entry(w, i, db, res).1).Done?
  }

  /** Up to 119 conflicts at begin or commit do not keep a call from succeeding: it succeeds in the first
      attempt that meets none, if there the closure ends well. */
  lemma TransientConflictsAreSurvived<S, R>(w: World<S, R>, db: S, res: R, n: nat)
    requires n < 120 && (forall i :: 0 <= i <= n ==> WorksAt(w, i, db, res))
    requires forall i :: 0 <= i < n ==> w.begin(i) == Busy || (w.begin(i) == Fine && w.commit(i) == Busy)
    requires w.begin(n) == Fine && w.commit(n) == Fine
    ensures AttemptsFrom(w, 0, db, res) == n + 1 && VerdictAt(w, n, db, res) == Commits && Returns(w, db, res)
  {
    hide VerdictAt, AttemptsFrom;
    forall i | 0 <= i < n
      ensures VerdictAt(w, i, db, res) == Retries
    {
      assert WorksAt(w, i, db, res);
      VerdictMeans(w, i, db, res);
    }
    assert WorksAt(w, n, db, res);
    VerdictMeans(w, n, db, res);
    AttemptsAre(w, 0, db, res, n + 1);
  }

  // A closure that hands on the driver's own error, as AddChannel, SetAnnounce and SetAnnounceOwner do;
  // `busy` says in which attempts the database is locked.
  function PlainWork<S>(apply: S -> S, busy: nat -> bool): (nat, S, ()) -> Try<S, ()> {
    (i: nat, db: S, res: ()) => if busy(i) then Err(true, res) else Done(apply(db), res)
  }

  lemma PlainVerdict<S>(w: World<S, ()>, apply: S -> S, busy: nat -> bool, i: nat, db: S)
    requires w.work == PlainWork(apply, busy)
    ensures VerdictAt(w, i, db, ()) == Jams <==> w.begin(i) == Fine && busy(i)
  {
    hide Entry;
  }

  /** A call with such a closure returns if and only if the database is never locked while the closure
      runs in an attempt before the 120th. */
  lemma PlainReturnsIff<S>(w: World<S, ()>, apply: S -> S, busy: nat -> bool, db: S)
    requires w.work == PlainWork(apply, busy)
    ensures Returns(w, db, ()) <==>
      forall i: nat :: i < 119 && Made(w, i, db, ()) ==> !(w.begin(i) == Fine && busy(i))
  {
    hide Made, Returns, VerdictAt, PlainWork;
    ReturnsIff(w, db, ());
    forall i: nat
      ensures VerdictAt(w, i, db, ()) == Jams <==> w.begin(i) == Fine && busy(i)
    {
      PlainVerdict(w, apply, busy, i, db);
    }
  }

  /** So one locked database, when the closure first runs, is enough for a call never to return. */
  lemma OneConflictHangs<S>(w: World<S, ()>, apply: S -> S, busy: nat -> bool, db: S)
    requires w.work == PlainWork(apply, busy) && w.begin(0) == Fine && busy(0)
    ensures !Returns(w, db, ()) && AttemptsFrom(w, 0, db, ()) == 1
  {
    hide VerdictAt, PlainWork;
    PlainVerdict(w, apply, busy, 0, db);
  }

  // ---------------------------------------------------------------- AddNetNode under retry

  // The closure of AddNetNode: `changed` is only ever assigned true, at the very end. A database error
  // (`fault`) comes wrapped, so that doTxn does not see it as a conflict.
  ghost function AddNetNodeWork(key: PubKey, rec: Record, chans: seq<Chan>, oid: int, fault: nat -> bool)
    : (nat, Tables, bool) -> Try<Tables, bool>
  {
    (i: nat, t: Tables, changed: bool) =>
      if fault(i) then Err(false, changed) else
      match OutcomeOf(t, key, rec.payload, chans)
      case Unchanged => Done(t, changed)
      case Changed => Done(AfterAddNode(t, key, rec, chans, oid), true)
      case Rejected => Err(false, changed)
  }

  /** A call of AddNetNode always returns. */
  lemma AddNetNodeReturns(w: World<Tables, bool>, key: PubKey, rec: Record, chans: seq<Chan>, oid: int,
                          fault: nat -> bool, db: Tables)
    requires w.work == AddNetNodeWork(key, rec, chans, oid, fault)
    ensures Returns(w, db, false)
  {
    ReturnsIff(w, db, false);
  }

  ghost predicate FindsChange<R>(w: World<Tables, R>, fault: nat -> bool, i: nat, db: Tables, res: R,
                                 key: PubKey, payload: Payload, chans: seq<Chan>)
  {
    w.begin(i) == Fine && !fault(i) && OutcomeOf(Entry(w, i, db, res).0, key, payload, chans) == Changed
  }

  /** The reported `changed` is true exactly if some attempt so far found a change to make,
      whether or not that attempt was the one that committed. */
  lemma {:induction false} ChangedSurvivesRetry(w: World<Tables, bool>, key: PubKey, rec: Record, chans: seq<Chan>,
                                                oid: int, fault: nat -> bool, db: Tables, n: nat)
    requires w.work == AddNetNodeWork(key, rec, chans, oid, fault)
    ensures
      var (d, r) := Entry(w, n, db, false);
      Captured(w, n, d, r) <==>
        exists i :: 0 <= i <= n && FindsChange(w, fault, i, db, false, key, rec.payload, chans)
  {
    if n != 0 {
      ChangedSurvivesRetry(w, key, rec, chans, oid, fault, db, n - 1);
    }
    var (d, r) := Entry(w, n, db, false);
    assert Captured(w, n, d, r) <==> r || FindsChange(w, fault, n, db, false, key, rec.payload, chans);
  }

  /** A retried AddNetNode can report a change it did not commit: it lost its first attempt at
      commit, and meanwhile someone else stored the same payload. */
  lemma RetryReportsUncommittedChange(key: PubKey, rec: Record, oid: int, today: int)
    ensures exists w: World<Tables, bool>, fault: nat -> bool ::
      && w.work == AddNetNodeWork(key, rec, [], oid, fault)
      && VerdictAt(w, 0, InitialTables(today), false) == Retries
      && VerdictAt(w, 1, InitialTables(today), false) == Commits
      && var (d, r) := Entry(w, 1, InitialTables(today), false);
         w.work(1, d, r) == Done(d, true)
  {
    var t0 := InitialTables(today);
    var stored := AfterAddNode(t0, key, rec, [], oid);
    var fault := (i: nat) => false;
    var w := World(
      (i: nat) => Fine,
      (i: nat) => if i == 0 then Busy else Fine,
      (i: nat, t: Tables) => if i == 0 then t else stored,
      AddNetNodeWork(key, rec, [], oid, fault));
    assert OutcomeOf(t0, key, rec.payload, []) == Changed;
    assert Entry(w, 0, t0, false) == (t0, false);
    assert Entry(w, 1, t0, false) == (stored, true);
    assert OutcomeOf(stored, key, rec.payload, []) == Unchanged;
  }
}
