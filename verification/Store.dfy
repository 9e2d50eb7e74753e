/**
 The node database (internal/store/sqlite.go): its tables as values, each
 transaction's effect as a function, and what every history of transactions keeps.
 */
module Store {
  import opened Types

  const NODE_DAYS := 30
  const CHANNEL_DAYS := 7

  // The columns of `node` that an announcement supplies.
  datatype Record = Record(address: Address, time: int, owner: PubKey, payload: Payload, sig: Signature)

  datatype Row = Row(oid: int, rec: Record, dayc: int)

  datatype AnnounceRow = AnnounceRow(payload: Payload, sig: Signature, time: int, owner: Option<PubKey>)

  datatype Tables = Tables(
    nodes: map<PubKey, Row>,
    chans: set<(int, Chan)>,
    channels: map<Chan, int>,
    announce: seq<AnnounceRow>,
    dayc: int,
    last: int)

  function InitialTables(today: int): Tables {
    Tables(map[], {}, map[], [], 1, today)
  }

  // One committed call of the store interface. `oid` is the rowid SQLite picks if it
  // has to insert; it may be one that a deleted row used before.
  datatype Op =
    | AddNode(key: PubKey, rec: Record, chans: seq<Chan>, oid: int)
    | UpdateNetTime(key: PubKey)
    | AddChannel(chan: Chan)
    | TrimNodes(today: int)
    | SetAnnounce(payload: Payload, sig: Signature, time: int)
    | SetAnnounceOwner(owner: PubKey)

  ghost predicate Distinct<T>(s: seq<T>) {
    forall i, j :: 0 <= i < j < |s| ==> s[i] != s[j]
  }

  ghost predicate FreshOid(t: Tables, oid: int) {
    forall k :: k in t.nodes ==> t.nodes[k].oid != oid
  }

  ghost predicate Enabled(t: Tables, op: Op) {
    op.AddNode? && op.key !in t.nodes ==> FreshOid(t, op.oid)
  }

  // ---------------------------------------------------------------- transactions

  datatype AddOutcome = Unchanged | Changed | Rejected

  ghost function OutcomeOf(t: Tables, key: PubKey, payload: Payload, chans: seq<Chan>): AddOutcome {
    if key in t.nodes && t.nodes[key].rec.payload == payload then Unchanged
    else if Distinct(chans) then Changed
    else Rejected
  }

  function OidFor(t: Tables, key: PubKey, oid: int): int {
    if key in t.nodes then t.nodes[key].oid else oid
  }

  function Reindex(chans: set<(int, Chan)>, oid: int, names: seq<Chan>): set<(int, Chan)> {
    (set e | e in chans && e.0 != oid) + (set c | c in names :: (oid, c))
  }

  ghost function AfterAddNode(t: Tables, key: PubKey, rec: Record, chans: seq<Chan>, oid: int): Tables {
    if OutcomeOf(t, key, rec.payload, chans) != Changed then t else
    var id := OidFor(t, key, oid);
    t.(nodes := t.nodes[key := Row(id, rec, t.dayc + NODE_DAYS)],
       chans := Reindex(t.chans, id, chans))
  }

  function AfterUpdateNetTime(t: Tables, key: PubKey): Tables {
    if key !in t.nodes then t else
    t.(nodes := t.nodes[key := t.nodes[key].(dayc := t.dayc + NODE_DAYS)])
  }

  function AfterAddChannel(t: Tables, chan: Chan): Tables {
    t.(channels := t.channels[chan := t.dayc + CHANNEL_DAYS])
  }

  function LiveNodes(nodes: map<PubKey, Row>, dayc: int): map<PubKey, Row> {
    map k | k in nodes && nodes[k].dayc >= dayc :: nodes[k]
  }

  function LiveChannels(channels: map<Chan, int>, dayc: int): map<Chan, int> {
    map c | c in channels && channels[c] >= dayc :: channels[c]
  }

  function AfterTrimNodes(t: Tables, today: int): Tables {
    if t.last == today then t else
    t.(dayc := t.dayc + 1, last := today,
       nodes := LiveNodes(t.nodes, t.dayc + 1),
       channels := LiveChannels(t.channels, t.dayc + 1))
  }

  // On an empty table the insert names four columns and three values: it fails and
  // the transaction rolls back.
  function AfterSetAnnounce(t: Tables, payload: Payload, sig: Signature, time: int): Tables {
    t.(announce := seq(|t.announce|, i requires 0 <= i < |t.announce| =>
      t.announce[i].(payload := payload, sig := sig, time := time)))
  }

  function AfterSetAnnounceOwner(t: Tables, owner: PubKey): Tables {
    if |t.announce| == 0 then t.(announce := [AnnounceRow(0, 0, 0, Some(owner))]) else
    t.(announce := seq(|t.announce|, i requires 0 <= i < |t.announce| =>
      t.announce[i].(owner := Some(owner))))
  }

  ghost function Apply(t: Tables, op: Op): Tables {
    match op
    case AddNode(key, rec, chans, oid) => AfterAddNode(t, key, rec, chans, oid)
    case UpdateNetTime(key) => AfterUpdateNetTime(t, key)
    case AddChannel(chan) => AfterAddChannel(t, chan)
    case TrimNodes(today) => AfterTrimNodes(t, today)
    case SetAnnounce(payload, sig, time) => AfterSetAnnounce(t, payload, sig, time)
    case SetAnnounceOwner(owner) => AfterSetAnnounceOwner(t, owner)
  }

  predicate SameRow(a: map<PubKey, Row>, b: map<PubKey, Row>, k: PubKey) {
    (k in a <==> k in b) && (k in a ==> a[k] == b[k])
  }

  // ---------------------------------------------------------------- what each transaction writes

  // Nothing but the tables `nodes` and `chans` differs.
  predicate OnlyNodesDiffer(t: Tables, t': Tables) {
    t'.channels == t.channels && t'.announce == t.announce && t'.dayc == t.dayc && t'.last == t.last
  }

  /** A new or changed announcement leaves under its key exactly what it says, expiring 30 days after the
      day counter, under the rowid the key already had or else the new one, with exactly its channels under
      that rowid. The same payload again, or a list that names a channel twice, changes nothing. */
  lemma AddNodeWrites(t: Tables, key: PubKey, rec: Record, chans: seq<Chan>, oid: int, other: PubKey, id: int)
    ensures
      var t' := Apply(t, AddNode(key, rec, chans, oid));
      var same := key in t.nodes && t.nodes[key].rec.payload == rec.payload;
      && (same || !Distinct(chans) ==> t' == t)
      && (!same && Distinct(chans) ==>
            && OnlyNodesDiffer(t, t') && key in t'.nodes
            && t'.nodes[key].rec == rec && t'.nodes[key].dayc == t.dayc + 30
            && t'.nodes[key].oid == (if key in t.nodes then t.nodes[key].oid else oid)
            && (other != key ==> SameRow(t.nodes, t'.nodes, other))
            && ChansUnder(t', id) == if id == t'.nodes[key].oid then ToSet(chans) else ChansUnder(t, id))
  {
    if !(key in t.nodes && t.nodes[key].rec.payload == rec.payload) && Distinct(chans) {
      var at := OidFor(t, key, oid);
      var t' := Apply(t, AddNode(key, rec, chans, oid));
      ReindexAt(t, at, chans, id);
      assert ChansUnder(t', id) == ChansUnder(t.(chans := Reindex(t.chans, at, chans)), id);
    }
  }

  /** Hearing from a known node, or of a channel, moves its expiry to 30 (7) days after the day counter
      and touches nothing else; an unknown node is not entered. */
  lemma RenewalWrites(t: Tables, key: PubKey, other: PubKey, c: Chan, d: Chan)
    ensures
      var t' := Apply(t, UpdateNetTime(key));
      && OnlyNodesDiffer(t, t') && t'.chans == t.chans && t'.nodes.Keys == t.nodes.Keys
      && (key in t.nodes ==> t'.nodes[key] == Row(t.nodes[key].oid, t.nodes[key].rec, t.dayc + 30))
      && (other != key ==> SameRow(t.nodes, t'.nodes, other))
    ensures
      var t' := Apply(t, AddChannel(c));
      && t'.(channels := t.channels) == t && c in t'.channels && t'.channels[c] == t.dayc + 7
      && (d != c ==> (d in t'.channels <==> d in t.channels) && (d in t.channels ==> t'.channels[d] == t.channels[d]))
  {
    var t' := Apply(t, UpdateNetTime(key));
    assert t'.nodes.Keys == t.nodes.Keys;
  }

  /** On another day than the last, trimming advances the day counter by one and deletes exactly the nodes
      and channels that expire before it; on the same day it does nothing. */
  lemma TrimWrites(t: Tables, today: int, k: PubKey, c: Chan)
    ensures
      var t' := Apply(t, TrimNodes(today));
      && (t.last == today ==> t' == t)
      && (t.last != today ==>
            && t'.dayc == t.dayc + 1 && t'.last == today && t'.chans == t.chans && t'.announce == t.announce
            && (k in t'.nodes <==> k in t.nodes && t.nodes[k].dayc >= t'.dayc)
            && (k in t'.nodes ==> t'.nodes[k] == t.nodes[k])
            && (c in t'.channels <==> c in t.channels && t.channels[c] >= t'.dayc)
            && (c in t'.channels ==> t'.channels[c] == t.channels[c]))
  {
  }

  /** Storing an announcement keeps the owner of each row, and setting an owner keeps the announcement;
      an owner set on an empty table comes with an empty announcement. */
  lemma AnnounceWrites(t: Tables, payload: Payload, sig: Signature, time: int, owner: PubKey, i: nat)
    ensures
      var t' := Apply(t, SetAnnounce(payload, sig, time));
      && t'.(announce := t.announce) == t && |t'.announce| == |t.announce|
      && (i < |t.announce| ==> t'.announce[i] == AnnounceRow(payload, sig, time, t.announce[i].owner))
    ensures
      var t' := Apply(t, SetAnnounceOwner(owner));
      && t'.(announce := t.announce) == t
      && (t.announce == [] ==> t'.announce == [AnnounceRow(0, 0, 0, Some(owner))])
      && (t.announce != [] ==> |t'.announce| == |t.announce|)
      && (i < |t.announce| ==>
            var row := t.announce[i]; t'.announce[i] == AnnounceRow(row.payload, row.sig, row.time, Some(owner)))
  {
  }

  // ---------------------------------------------------------------- histories

  ghost function Run(t: Tables, ops: seq<Op>): Tables
    decreases |ops|
  {
    if ops == [] then t else Run(Apply(t, ops[0]), ops[1..])
  }

  ghost predicate IsRun(t: Tables, ops: seq<Op>)
    decreases |ops|
  {
    ops != [] ==> Enabled(t, ops[0]) && IsRun(Apply(t, ops[0]), ops[1..])
  }

  // ---------------------------------------------------------------- channel index

  function ChansUnder(t: Tables, oid: int): set<Chan> {
    set e | e in t.chans && e.0 == oid :: e.1
  }

  function ToSet<T>(s: seq<T>): set<T> {
    set x | x in s
  }

  ghost predicate IndexAgrees(t: Tables, chansOf: Payload -> seq<Chan>) {
    && (forall k, l :: k in t.nodes && l in t.nodes && t.nodes[k].oid == t.nodes[l].oid ==> k == l)
    && (forall k :: k in t.nodes ==>
          ChansUnder(t, t.nodes[k].oid) == ToSet(chansOf(t.nodes[k].rec.payload)))
  }

  // Callers pass the channel list that the payload itself carries.
  predicate CarriesItsChannels(op: Op, chansOf: Payload -> seq<Chan>) {
    op.AddNode? ==> op.chans == chansOf(op.rec.payload)
  }

  lemma ReindexAt(t: Tables, id: int, names: seq<Chan>, other: int)
    ensures ChansUnder(t.(chans := Reindex(t.chans, id, names)), other) ==
            if other == id then ToSet(names) else ChansUnder(t, other)
  {
    var t' := t.(chans := Reindex(t.chans, id, names));
    if other == id {
      assert forall c :: c in names ==> (id, c) in t'.chans;
    } else {
      assert forall e :: e in t.chans && e.0 == other <==> e in t'.chans && e.0 == other;
      assert forall c :: c in ChansUnder(t, other) ==> (other, c) in t'.chans;
      assert forall c :: c in ChansUnder(t', other) ==> (other, c) in t.chans;
    }
  }

  lemma AddNodeKeepsIndex(t: Tables, op: Op, chansOf: Payload -> seq<Chan>)
    requires op.AddNode? && Enabled(t, op) && CarriesItsChannels(op, chansOf) && IndexAgrees(t, chansOf)
    ensures IndexAgrees(Apply(t, op), chansOf)
  {
    if OutcomeOf(t, op.key, op.rec.payload, op.chans) == Changed {
      var id := OidFor(t, op.key, op.oid);
      var t' := Apply(t, op);
      forall k | k in t'.nodes
        ensures ChansUnder(t', t'.nodes[k].oid) == ToSet(chansOf(t'.nodes[k].rec.payload))
      {
        ReindexAt(t, id, op.chans, t'.nodes[k].oid);
        assert ChansUnder(t', t'.nodes[k].oid) ==
               ChansUnder(t.(chans := Reindex(t.chans, id, op.chans)), t'.nodes[k].oid);
      }
    }
  }

  lemma StepKeepsIndex(t: Tables, op: Op, chansOf: Payload -> seq<Chan>)
    requires Enabled(t, op) && CarriesItsChannels(op, chansOf) && IndexAgrees(t, chansOf)
    ensures IndexAgrees(Apply(t, op), chansOf)
  {
    if op.AddNode? {
      AddNodeKeepsIndex(t, op, chansOf);
    } else {
      var t' := Apply(t, op);
      assert t'.chans == t.chans;
      assert forall oid :: ChansUnder(t', oid) == ChansUnder(t, oid);
    }
  }

  /** Over every history from an agreeing state, the `chan` rows under a live node's rowid are
      exactly the channels of the announcement that node row holds. */
  lemma {:induction false} ChannelIndexAgreement(t: Tables, ops: seq<Op>, chansOf: Payload -> seq<Chan>)
    requires IndexAgrees(t, chansOf) && IsRun(t, ops)
    requires forall i :: 0 <= i < |ops| ==> CarriesItsChannels(ops[i], chansOf)
    ensures IndexAgrees(Run(t, ops), chansOf)
    decreases |ops|
  {
    if ops != [] {
      StepKeepsIndex(t, ops[0], chansOf);
      ChannelIndexAgreement(Apply(t, ops[0]), ops[1..], chansOf);
    }
  }

  /** Trimming leaves `chan` rows behind that belong to no node, and a later node that is given
      the same rowid does not inherit them. */
  lemma OrphanRowsAreNotInherited(rec: Record, today: int, oid: int, a: Chan, b: Chan, k: PubKey, l: PubKey)
    requires a != b && k != l
    ensures
      var t := Tables(map[k := Row(oid, rec, 1)], {(oid, a)}, map[], [], 1, today);
      var trimmed := Apply(t, TrimNodes(today + 1));
      && trimmed.nodes == map[] && (oid, a) in trimmed.chans
      && ChansUnder(Apply(trimmed, AddNode(l, rec, [b], oid)), oid) == {b}
  {
    var t := Tables(map[k := Row(oid, rec, 1)], {(oid, a)}, map[], [], 1, today);
    var trimmed := Apply(t, TrimNodes(today + 1));
    var t' := Apply(trimmed, AddNode(l, rec, [b], oid));
    assert OutcomeOf(trimmed, l, rec.payload, [b]) == Changed;
    assert t'.chans == Reindex(trimmed.chans, oid, [b]);
    ReindexAt(trimmed, oid, [b], oid);
    assert ChansUnder(t', oid) == ChansUnder(trimmed.(chans := Reindex(trimmed.chans, oid, [b])), oid);
  }

  // ---------------------------------------------------------------- expiry

  ghost predicate InWindow(t: Tables) {
    && (forall k :: k in t.nodes ==> t.dayc <= t.nodes[k].dayc <= t.dayc + NODE_DAYS)
    && (forall c :: c in t.channels ==> t.dayc <= t.channels[c] <= t.dayc + CHANNEL_DAYS)
  }

  /** Every history keeps each expiry day between the day counter and 30 (7) days after it. */
  lemma {:induction false} ExpiryWindow(t: Tables, ops: seq<Op>)
    requires InWindow(t)
    ensures InWindow(Run(t, ops))
    decreases |ops|
  {
    if ops != [] {
      assert InWindow(Apply(t, ops[0]));
      ExpiryWindow(Apply(t, ops[0]), ops[1..]);
    }
  }

  // Does this transaction write the expiry day of node `k`?
  predicate WritesNode(t: Tables, op: Op, k: PubKey) {
    match op
    case AddNode(key, rec, _, _) => key == k && !(k in t.nodes && t.nodes[k].rec.payload == rec.payload)
    case UpdateNetTime(key) => key == k
    case _ => false
  }

  predicate WritesChannel(op: Op, c: Chan) {
    op.AddChannel? && op.chan == c
  }

  predicate Advances(t: Tables, op: Op) {
    op.TrimNodes? && op.today != t.last
  }

  ghost function CountAdvances(t: Tables, ops: seq<Op>): nat
    decreases |ops|
  {
    if ops == [] then 0
    else (if Advances(t, ops[0]) then 1 else 0) + CountAdvances(Apply(t, ops[0]), ops[1..])
  }

  ghost predicate NodeUntouched(t: Tables, ops: seq<Op>, k: PubKey)
    decreases |ops|
  {
    ops != [] ==> !WritesNode(t, ops[0], k) && NodeUntouched(Apply(t, ops[0]), ops[1..], k)
  }

  predicate ChannelUntouched(ops: seq<Op>, c: Chan) {
    forall i :: 0 <= i < |ops| ==> !WritesChannel(ops[i], c)
  }

  /** A node row with `left` advances to live survives exactly `left` of them, whatever else
      happens; hearing the same payload again does not prolong it. */
  lemma {:induction false} NodeLifetime(t: Tables, ops: seq<Op>, k: PubKey)
    requires k in t.nodes && t.dayc <= t.nodes[k].dayc
    requires NodeUntouched(t, ops, k)
    ensures k in Run(t, ops).nodes <==> CountAdvances(t, ops) <= t.nodes[k].dayc - t.dayc
    ensures k in Run(t, ops).nodes ==> Run(t, ops).nodes[k] == t.nodes[k]
    decreases |ops|
  {
    if ops != [] {
      var t' := Apply(t, ops[0]);
      if k in t'.nodes {
        NodeLifetime(t', ops[1..], k);
      } else {
        StaysDeleted(t', ops[1..], k);
      }
    }
  }

  lemma {:induction false} StaysDeleted(t: Tables, ops: seq<Op>, k: PubKey)
    requires k !in t.nodes && NodeUntouched(t, ops, k)
    ensures k !in Run(t, ops).nodes
    decreases |ops|
  {
    if ops != [] {
      StaysDeleted(Apply(t, ops[0]), ops[1..], k);
    }
  }

  lemma {:induction false} ChannelLifetime(t: Tables, ops: seq<Op>, c: Chan)
    requires c in t.channels ==> t.dayc <= t.channels[c]
    requires ChannelUntouched(ops, c)
    ensures c in Run(t, ops).channels <==> c in t.channels && CountAdvances(t, ops) <= t.channels[c] - t.dayc
    decreases |ops|
  {
    if ops != [] {
      assert forall i :: 0 <= i < |ops| - 1 ==> ops[1..][i] == ops[i + 1];
      ChannelLifetime(Apply(t, ops[0]), ops[1..], c);
    }
  }

  // The trims of this history read days that never go back, starting from `day`.
  predicate ClockFrom(day: int, ops: seq<Op>)
    decreases |ops|
  {
    ops != [] ==>
      if ops[0].TrimNodes? then day <= ops[0].today && ClockFrom(ops[0].today, ops[1..])
      else ClockFrom(day, ops[1..])
  }

  /** n advances take at least n - 1 calendar days, counted from the day the history starts,
      however long the node was offline before or in between. */
  lemma {:induction false} AdvancesTakeDays(t: Tables, ops: seq<Op>, day: int)
    requires t.last <= day && ClockFrom(day, ops)
    ensures CountAdvances(t, ops) > 0 ==>
      Run(t, ops).last >= day + CountAdvances(t, ops) - (if t.last == day then 0 else 1)
    ensures CountAdvances(t, ops) == 0 ==> Run(t, ops).last == t.last
    decreases |ops|
  {
    if ops != [] {
      var t' := Apply(t, ops[0]);
      if ops[0].TrimNodes? {
        AdvancesTakeDays(t', ops[1..], ops[0].today);
      } else {
        AdvancesTakeDays(t', ops[1..], day);
      }
    }
  }

  // This transaction writes the row of node k, whether it is new or not.
  ghost predicate Renews(t: Tables, op: Op, k: PubKey) {
    match op
    case AddNode(key, rec, chans, _) =>
      key == k && Distinct(chans) && !(k in t.nodes && t.nodes[k].rec.payload == rec.payload)
    case UpdateNetTime(key) => key == k && k in t.nodes
    case _ => false
  }

  /** A node row that a transaction on calendar day `day` writes, and none after it, goes at the 31st
      advance of the day counter, and so on no calendar day before `day` + 30; a channel that it adds or
      renews goes at the 8th, and so not before `day` + 7. */
  lemma NeverExpiresEarly(t: Tables, write: Op, ops: seq<Op>, day: int, k: PubKey, c: Chan)
    requires t.last <= day && ClockFrom(day, ops)
    ensures
      var t' := Apply(t, write);
      Renews(t, write, k) && NodeUntouched(t', ops, k) ==>
        && (k in Run(t', ops).nodes <==> CountAdvances(t', ops) < 31)
        && (k !in Run(t', ops).nodes ==> Run(t', ops).last >= day + 30)
    ensures
      var t' := Apply(t, write);
      write == AddChannel(c) && ChannelUntouched(ops, c) ==>
        && (c in Run(t', ops).channels <==> CountAdvances(t', ops) < 8)
        && (c !in Run(t', ops).channels ==> Run(t', ops).last >= day + 7)
  {
    hide Run, CountAdvances, NodeUntouched, ChannelUntouched, ClockFrom;
    var t' := Apply(t, write);
    if Renews(t, write, k) && NodeUntouched(t', ops, k) {
      AdvancesTakeDays(t', ops, day);
      NodeLifetime(t', ops, k);
    }
    if write == AddChannel(c) && ChannelUntouched(ops, c) {
      AdvancesTakeDays(t', ops, day);
      ChannelLifetime(t', ops, c);
    }
  }

  // ---------------------------------------------------------------- announce table

  predicate SetsOwner(ops: seq<Op>) {
    exists i :: 0 <= i < |ops| && ops[i].SetAnnounceOwner?
  }

  /** The announce table never holds two rows, and holds one exactly if it did at the start or an
      owner was ever set: publishing alone never creates it. */
  lemma {:induction false} AnnounceTableShape(t: Tables, ops: seq<Op>)
    requires |t.announce| <= 1
    ensures |Run(t, ops).announce| == if t.announce != [] || SetsOwner(ops) then 1 else 0
    decreases |ops|
  {
    if ops != [] {
      AnnounceTableShape(Apply(t, ops[0]), ops[1..]);
      assert ops == [ops[0]] + ops[1..];
      assert SetsOwner(ops) <==> ops[0].SetAnnounceOwner? || SetsOwner(ops[1..]) by {
        if SetsOwner(ops[1..]) {
          var i :| 0 <= i < |ops[1..]| && ops[1..][i].SetAnnounceOwner?;
          assert ops[i + 1].SetAnnounceOwner?;
        }
        if SetsOwner(ops) && !ops[0].SetAnnounceOwner? {
          var i :| 0 <= i < |ops| && ops[i].SetAnnounceOwner?;
          assert ops[1..][i - 1].SetAnnounceOwner?;
        }
      }
    }
  }
}
