/**
 The announcement service (internal/announce/announce.go): the content it accumulates from change
 messages, the timer that delays and renews announcements, and what it publishes.
 */
module Announce {
  import opened Types
  import SqliteStore
  import Store

  const LONGEVITY := 24 * 60 * 60
  const QUEUE_DELAY := 10

  // `Channels` carries the channels stored when it is handled, and whether the query that reads them succeeds.
  datatype Change =
    | PublicAddress(address: Address, port: nat)
    | OwnerKey(key: PubKey)
    | Channels(stored: seq<Chan>, readable: bool)
    | Unknown

  // ---------------------------------------------------------------- sorting

  predicate Sorted(s: seq<Chan>) {
    forall i, j :: 0 <= i < j < |s| ==> s[i] <= s[j]
  }

  function Insert(x: Chan, s: seq<Chan>): seq<Chan>
    decreases |s|
  {
    if s == [] || x <= s[0] then [x] + s else [s[0]] + Insert(x, s[1..])
  }

  function Sort(s: seq<Chan>): seq<Chan>
    decreases |s|
  {
    if s == [] then [] else Insert(s[0], Sort(s[1..]))
  }

  lemma {:induction false} InsertAdds(x: Chan, s: seq<Chan>)
    ensures multiset(Insert(x, s)) == multiset(s) + multiset{x}
    decreases |s|
  {
    if s != [] && s[0] < x {
      assert s == [s[0]] + s[1..];
      InsertAdds(x, s[1..]);
    }
  }

  lemma {:induction false} InsertSorts(x: Chan, s: seq<Chan>)
    requires Sorted(s)
    ensures Sorted(Insert(x, s))
    decreases |s|
  {
    if s != [] && s[0] < x {
      var r := Insert(x, s[1..]);
      InsertSorts(x, s[1..]);
      InsertAdds(x, s[1..]);
      forall i | 0 <= i < |r|
        ensures s[0] <= r[i]
      {
        assert r[i] in multiset(s[1..]) + multiset{x};
        assert r[i] in s[1..] || r[i] == x;
      }
    }
  }

  lemma {:induction false} SortSorts(s: seq<Chan>)
    ensures multiset(Sort(s)) == multiset(s) && Sorted(Sort(s)) && |Sort(s)| == |s|
    decreases |s|
  {
    if s != [] {
      assert s == [s[0]] + s[1..];
      SortSorts(s[1..]);
      InsertAdds(s[0], Sort(s[1..]));
      InsertSorts(s[0], Sort(s[1..]));
    }
    assert |multiset(Sort(s))| == |Sort(s)| && |multiset(s)| == |s|;
  }

  lemma LeastFirst(a: seq<Chan>, b: seq<Chan>)
    requires Sorted(a) && a != [] && b != [] && multiset(a) == multiset(b)
    ensures a[0] <= b[0]
  {
    assert b[0] in multiset(a);
    var i :| 0 <= i < |a| && a[i] == b[0];
  }

  lemma {:induction false} SortedIsUnique(a: seq<Chan>, b: seq<Chan>)
    requires Sorted(a) && Sorted(b) && multiset(a) == multiset(b)
    ensures a == b
    decreases |a|
  {
    assert |a| == |multiset(a)| == |multiset(b)| == |b|;
    if a != [] {
      LeastFirst(a, b);
      LeastFirst(b, a);
      assert a == [a[0]] + a[1..] && b == [b[0]] + b[1..];
      assert multiset(a[1..]) == multiset(a) - multiset{a[0]};
      assert multiset(b[1..]) == multiset(b) - multiset{b[0]};
      SortedIsUnique(a[1..], b[1..]);
    }
  }

  // ---------------------------------------------------------------- accumulating changes

  // The content after a change, and whether the change was accepted rather than ignored. Stored
  // channels are sorted only if there are as many of them as before.
  function Applied(c: Content, change: Change): (Content, bool) {
    match change
    case PublicAddress(address, port) => (c.(address := address, port := port), true)
    case OwnerKey(key) => if c.owner == key then (c, false) else (c.(owner := key), true)
    case Channels(stored, readable) =>
      if !readable then (c, false)
      else if |stored| != |c.channels| then (c.(channels := stored), true)
      else if Sort(stored) == c.channels then (c, false)
      else (c.(channels := Sort(stored)), true)
    case Unknown => (c, false)
  }

  // The reference: every change is simply taken over.
  function TakenOver(c: Content, change: Change): Content {
    match change
    case PublicAddress(address, port) => c.(address := address, port := port)
    case OwnerKey(key) => c.(owner := key)
    case Channels(stored, _) => c.(channels := stored)
    case Unknown => c
  }

  // Equal up to the order of the channels.
  ghost predicate SameContent(a: Content, b: Content) {
    a.(channels := []) == b.(channels := []) && multiset(a.channels) == multiset(b.channels)
  }

  function Accumulated(c: Content, changes: seq<Change>): Content
    decreases |changes|
  {
    if changes == [] then c
    else Applied(Accumulated(c, changes[..|changes| - 1]), changes[|changes| - 1]).0
  }

  function AllTakenOver(c: Content, changes: seq<Change>): Content
    decreases |changes|
  {
    if changes == [] then c
    else TakenOver(AllTakenOver(c, changes[..|changes| - 1]), changes[|changes| - 1])
  }

  // A report of other channels than the current ones, which the database could not back up.
  ghost predicate Lost(c: Content, change: Change) {
    change.Channels? && !change.readable && multiset(change.stored) != multiset(c.channels)
  }

  /** A change is ignored only if taking it over would leave the content as it is, or if it is a report
      of other channels that could not be read; and only such a report is not taken over. */
  lemma IgnoredOnlyIfUnchanged(c: Content, change: Change)
    ensures !Applied(c, change).1 ==>
      Applied(c, change).0 == c && (Lost(c, change) || SameContent(TakenOver(c, change), c))
    ensures SameContent(Applied(c, change).0, TakenOver(c, change)) <==> !Lost(c, change)
  {
    if change.Channels? {
      SortSorts(change.stored);
    }
  }

  /** A report of channels is ignored exactly if they could not be read, or are the current ones and the
      current ones are in sorted order; otherwise a new announcement is signed even for the same set. */
  lemma ChannelsIgnoredIff(c: Content, stored: seq<Chan>, readable: bool)
    ensures !Applied(c, Channels(stored, readable)).1 <==>
      !readable || (Sorted(c.channels) && multiset(stored) == multiset(c.channels))
  {
    SortSorts(stored);
    if Sorted(c.channels) && multiset(stored) == multiset(c.channels) {
      SortedIsUnique(Sort(stored), c.channels);
      assert |stored| == |multiset(stored)|;
    }
  }

  // The last report of channels, if there was one, was read or told nothing new.
  ghost predicate LastReportHeard(c: Content, changes: seq<Change>)
    decreases |changes|
  {
    if changes == [] then true
    else
      var front, change := changes[..|changes| - 1], changes[|changes| - 1];
      if change.Channels? then !Lost(Accumulated(c, front), change) else LastReportHeard(c, front)
  }

  /** Sorting and ignoring known values lose nothing: the accumulated content is, up to the order of the
      channels, what taking every change over gives, if and only if the last report of channels was read
      or told nothing new; address and owner always agree. */
  lemma {:induction false} AccumulatedIsTakenOver(c: Content, changes: seq<Change>)
    ensures SameContent(Accumulated(c, changes), AllTakenOver(c, changes)) <==> LastReportHeard(c, changes)
    ensures Accumulated(c, changes).(channels := []) == AllTakenOver(c, changes).(channels := [])
    decreases |changes|
  {
    if changes != [] {
      var front, change := changes[..|changes| - 1], changes[|changes| - 1];
      AccumulatedIsTakenOver(c, front);
      IgnoredOnlyIfUnchanged(Accumulated(c, front), change);
    }
  }

  // ---------------------------------------------------------------- the timer

  // A Go timer: its deadline while armed, and the ticks in its channel, which holds at most one.
  datatype Timer = Timer(armed: Option<int>, ticks: nat)

  // Firing disarms it and sends a tick, which a full channel does not take.
  function Fired(t: Timer): Timer {
    Timer(None, if t.ticks == 0 then 1 else t.ticks)
  }

  function StopTimer(t: Timer): (Timer, bool) {
    (t.(armed := None), t.armed.Some?)
  }

  // ---------------------------------------------------------------- the loop

  datatype Pc =
    | Head                 // in select
    | Stopping             // about to call timer.Stop
    | Draining             // Stop returned false: about to receive from the timer's channel
    | Resetting(delay: int)
    | Generating           // received a tick: about to sign and publish

  // `after` says how many changes had been accepted by then.
  datatype Publication = Publication(content: Content, at: int, after: nat)

  datatype Service = Service(
    content: Content,
    timer: Timer,
    pc: Pc,
    now: int,
    start: Content,             // the content the loop started with
    changes: seq<Change>,       // every change received
    dirty: bool,                // a change was accepted since the last publication
    accepted: nat,              // how many changes were accepted
    acceptedAt: int,            // when the last of them was received
    handled: nat,               // how many of them the loop has finished handling
    handledAt: int,             // when it had finished the last of those
    firstDue: int,              // when the timer that startup set goes off
    ticked: nat,                // how many ticks the loop has finished handling
    tickedAt: int,              // when it had finished the last of those
    acceptedByTick: nat,        // how many changes had been accepted when it handled the last one
    published: seq<Publication>)

  datatype Event =
    | Passes(now: int)
    | Fires
    | Receives(change: Change)
    | StopsTimer
    | Drains
    | Resets
    | TakesTick
    | Generates

  predicate Enabled(s: Service, e: Event) {
    match e
    case Passes(now) => s.now <= now
    case Fires => s.timer.armed.Some? && s.timer.armed.value <= s.now
    case Receives(_) => s.pc == Head
    case StopsTimer => s.pc == Stopping
    case Drains => s.pc == Draining && s.timer.ticks > 0
    case Resets => s.pc.Resetting?
    case TakesTick => s.pc == Head && s.timer.ticks > 0
    case Generates => s.pc == Generating
  }

  function Handled(s: Service): Service {
    s.(pc := Head, handled := s.accepted, handledAt := s.now)
  }

  function Received(valid: Content -> bool, s: Service, change: Change): Service {
    var (content, accepted) := Applied(s.content, change);
    var s1 := s.(changes := s.changes + [change]);
    if !accepted then s1
    else
      var s2 := s1.(content := content, dirty := true, accepted := s.accepted + 1, acceptedAt := s.now);
      if valid(content) then s2.(pc := Stopping) else Handled(s2)
  }

  function Next(valid: Content -> bool, s: Service, e: Event): Service
    requires Enabled(s, e)
  {
    match e
    case Passes(now) => s.(now := now)
    case Fires => s.(timer := Fired(s.timer))
    case Receives(change) => Received(valid, s, change)
    case StopsTimer =>
      var (timer, stopped) := StopTimer(s.timer);
      s.(timer := timer, pc := if stopped then Resetting(QUEUE_DELAY) else Draining)
    case Drains => s.(timer := s.timer.(ticks := s.timer.ticks - 1), pc := Resetting(QUEUE_DELAY))
    case Resets =>
      var s1 := s.(timer := s.timer.(armed := Some(s.now + s.pc.delay)));
      if s.pc.delay == QUEUE_DELAY then Handled(s1)
      else s1.(pc := Head, ticked := s.ticked + 1, tickedAt := s.now)
    case TakesTick => s.(timer := s.timer.(ticks := s.timer.ticks - 1), pc := Generating)
    case Generates =>
      var s1 := s.(acceptedByTick := s.accepted, pc := Resetting(LONGEVITY));
      if valid(s.content) then
        s1.(published := s.published + [Publication(s.content, s.now, s.accepted)], dirty := false)
      else s1
  }

  // At the loop's start: the content after startup, the timer set to what remains.
  predicate Initial(s: Service) {
    && s.pc == Head && s.timer == Timer(Some(s.firstDue), 0)
    && s.content == s.start && s.changes == [] && !s.dirty
    && s.accepted == 0 && s.handled == 0 && s.ticked == 0 && s.acceptedByTick == 0 && s.published == []
  }

  predicate IsRun(valid: Content -> bool, s: Service, events: seq<Event>)
    decreases |events|
  {
    events != [] ==> Enabled(s, events[0]) && IsRun(valid, Next(valid, s, events[0]), events[1..])
  }

  function Run(valid: Content -> bool, s: Service, events: seq<Event>): Service
    requires IsRun(valid, s, events)
    decreases |events|
  {
    if events == [] then s else Run(valid, Next(valid, s, events[0]), events[1..])
  }

  // Exactly one of "armed" and "one undrained tick", except while the loop has just taken it away.
  predicate TimerOk(s: Service) {
    match s.pc
    case Head => s.timer.ticks == if s.timer.armed.Some? then 0 else 1
    case Stopping => s.timer.ticks == if s.timer.armed.Some? then 0 else 1
    case Draining => s.timer == Timer(None, 1)
    case Resetting(delay) => s.timer == Timer(None, 0) && (delay == QUEUE_DELAY || delay == LONGEVITY)
    case Generating => s.timer == Timer(None, 0)
  }

  // Is the loop between receiving an accepted change and setting the timer for it?
  predicate Handling(pc: Pc) {
    pc == Stopping || pc == Draining || pc == Resetting(QUEUE_DELAY)
  }

  // At most the last accepted change is still being handled.
  predicate HandledOk(s: Service) {
    && s.accepted == s.handled + (if Handling(s.pc) then 1 else 0)
    && (s.dirty ==> s.accepted > 0)
    && (s.accepted > 0 ==> s.acceptedAt <= s.now)
    && (s.accepted > 0 && s.handled == s.accepted ==> s.acceptedAt <= s.handledAt <= s.now)
  }

  // Unpublished valid content waits for a deadline 10 seconds after its change was handled.
  predicate FreshOk(valid: Content -> bool, s: Service) {
    s.dirty && valid(s.content) ==>
      match s.pc
      case Head =>
        if s.timer.armed.Some? then s.timer.armed.value == s.handledAt + QUEUE_DELAY
        else s.handledAt + QUEUE_DELAY <= s.now
      case Resetting(delay) => delay == QUEUE_DELAY
      case _ => true
  }

  // Without a change the next announcement is due 24 hours after the last tick was handled, or when
  // startup said.
  function RenewalDue(s: Service): int {
    if s.ticked == 0 then s.firstDue else s.tickedAt + LONGEVITY
  }

  // While no change has been accepted since the last tick, the timer stands for the renewal.
  predicate DueOk(s: Service) {
    && s.acceptedByTick <= s.accepted
    && (s.ticked > 0 ==> s.tickedAt <= s.now)
    && match s.pc
       case Head =>
         s.accepted == s.acceptedByTick ==>
           if s.timer.armed.Some? then s.timer.armed.value == RenewalDue(s) else RenewalDue(s) <= s.now
       case Generating => s.accepted == s.acceptedByTick ==> RenewalDue(s) <= s.now
       case Resetting(delay) => s.accepted == s.acceptedByTick <==> delay == LONGEVITY
       case _ => s.acceptedByTick < s.accepted
  }

  // Publications with no accepted change between them are at least 24 hours apart.
  ghost predicate Spaced(published: seq<Publication>) {
    forall i, j :: 0 <= i < j < |published| && published[i].after == published[j].after ==>
      published[j].at >= published[i].at + LONGEVITY
  }

  // All publications were made by time `at`, with `after` changes accepted.
  ghost predicate MadeBy(published: seq<Publication>, at: int, after: nat) {
    forall i :: 0 <= i < |published| ==> published[i].at <= at && published[i].after <= after
  }

  ghost predicate SpacingOk(s: Service) {
    && Spaced(s.published)
    && (s.published != [] ==>
          && (s.pc == Resetting(LONGEVITY) || s.ticked > 0)
          && MadeBy(s.published, if s.pc == Resetting(LONGEVITY) then s.now else s.tickedAt, s.acceptedByTick))
  }

  ghost predicate Inv(valid: Content -> bool, s: Service) {
    && TimerOk(s) && HandledOk(s) && FreshOk(valid, s) && DueOk(s) && SpacingOk(s)
    && s.content == Accumulated(s.start, s.changes)
  }

  lemma AppliedOnlyIfAccepted(c: Content, change: Change)
    ensures !Applied(c, change).1 ==> Applied(c, change).0 == c
  {
  }

  lemma ReceiveKeepsInv(valid: Content -> bool, s: Service, change: Change)
    requires Inv(valid, s) && Enabled(s, Receives(change))
    ensures Inv(valid, Received(valid, s, change))
  {
    hide Applied;
    AppliedOnlyIfAccepted(s.content, change);
    assert (s.changes + [change])[..|s.changes|] == s.changes;
  }

  lemma PublishKeepsSpacing(valid: Content -> bool, s: Service)
    requires DueOk(s) && SpacingOk(s) && s.pc == Generating
    ensures SpacingOk(Next(valid, s, Generates))
  {
  }

  lemma StepKeepsSpacing(valid: Content -> bool, s: Service, e: Event)
    requires DueOk(s) && SpacingOk(s) && Enabled(s, e) && !e.Receives?
    ensures SpacingOk(Next(valid, s, e))
  {
    if e.Generates? {
      PublishKeepsSpacing(valid, s);
    }
  }

  lemma StepKeepsInv(valid: Content -> bool, s: Service, e: Event)
    requires Inv(valid, s) && Enabled(s, e)
    ensures Inv(valid, Next(valid, s, e))
  {
    hide Received, Applied, Accumulated, SpacingOk;
    if e.Receives? {
      ReceiveKeepsInv(valid, s, e.change);
    } else {
      StepKeepsSpacing(valid, s, e);
    }
  }

  lemma {:induction false} RunKeepsInv(valid: Content -> bool, s: Service, events: seq<Event>)
    requires Inv(valid, s) && IsRun(valid, s, events)
    ensures Inv(valid, Run(valid, s, events))
    decreases |events|
  {
    hide Inv;
    if events != [] {
      StepKeepsInv(valid, s, events[0]);
      RunKeepsInv(valid, Next(valid, s, events[0]), events[1..]);
    }
  }

  /** In every run, at the loop head exactly one of "armed" and "one undrained tick" holds; the receive
      that drains the channel after a failed Stop never blocks; and no tick is left when the timer is
      set again. */
  lemma TimerNeverBlocks(valid: Content -> bool, s: Service, events: seq<Event>)
    requires Initial(s) && IsRun(valid, s, events)
    ensures
      var t := Run(valid, s, events);
      && (t.pc == Head ==> (t.timer.armed.Some? <==> t.timer.ticks == 0) && t.timer.ticks <= 1)
      && (t.pc == Draining ==> Enabled(t, Drains))
      && (t.pc.Resetting? ==> t.timer == Timer(None, 0))
  {
    RunKeepsInv(valid, s, events);
  }

  /** In every run, while valid content has changed since the last publication and the loop waits, every
      accepted change has been handled, and the deadline is 10 seconds after the last of them was: it is
      armed, or has passed with its tick waiting to be taken. */
  lemma AnnouncementFreshness(valid: Content -> bool, s: Service, events: seq<Event>)
    requires Initial(s) && IsRun(valid, s, events)
    ensures
      var t := Run(valid, s, events);
      t.dirty && valid(t.content) && t.pc == Head ==>
        && t.handled == t.accepted && t.acceptedAt <= t.handledAt <= t.now
        && if t.timer.ticks == 0 then t.timer.armed == Some(t.handledAt + 10)
           else t.timer.ticks == 1 && t.handledAt + 10 <= t.now
  {
    RunKeepsInv(valid, s, events);
  }

  /** In every run, while no change has been accepted since the loop last handled a tick, the timer it
      waits for is armed for exactly 24 hours after it had handled that tick, or has gone off since; before
      the first tick it is the timer that startup set. */
  lemma RenewalDeadline(valid: Content -> bool, s: Service, events: seq<Event>)
    requires Initial(s) && IsRun(valid, s, events)
    ensures
      var t := Run(valid, s, events);
      var due := if t.ticked == 0 then s.firstDue else t.tickedAt + 86400;
      t.pc == Head && t.accepted == t.acceptedByTick ==>
        if t.timer.ticks == 0 then t.timer.armed == Some(due) else t.timer.ticks == 1 && due <= t.now
  {
    RunKeepsInv(valid, s, events);
    FirstDueStays(valid, s, events);
  }

  lemma {:induction false} FirstDueStays(valid: Content -> bool, s: Service, events: seq<Event>)
    requires IsRun(valid, s, events)
    ensures Run(valid, s, events).firstDue == s.firstDue
    decreases |events|
  {
    if events != [] {
      FirstDueStays(valid, Next(valid, s, events[0]), events[1..]);
    }
  }

  /** In every run, two publications with no accepted change between them are at least 24 hours apart. */
  lemma RenewalSpacing(valid: Content -> bool, s: Service, events: seq<Event>, i: nat, j: nat)
    requires Initial(s) && IsRun(valid, s, events)
    requires i < j < |Run(valid, s, events).published|
    ensures
      var published := Run(valid, s, events).published;
      published[i].after == published[j].after ==> published[j].at - published[i].at >= 86400
  {
    RunKeepsInv(valid, s, events);
  }

  // ---------------------------------------------------------------- a loop that never lags

  // Time passes only while the loop waits, and not beyond the deadline it waits for.
  predicate Punctual(s: Service, e: Event) {
    e.Passes? ==> s.pc == Head && s.timer.armed.Some? && e.now <= s.timer.armed.value
  }

  predicate IsPunctualRun(valid: Content -> bool, s: Service, events: seq<Event>)
    decreases |events|
  {
    events != [] ==>
      && Enabled(s, events[0]) && Punctual(s, events[0])
      && IsPunctualRun(valid, Next(valid, s, events[0]), events[1..])
  }

  // The last publication is of this content.
  predicate LastIs(published: seq<Publication>, content: Content, at: int) {
    published != [] && published[|published| - 1].content == content && published[|published| - 1].at == at
  }

  // The content is no older than 24 hours, or 10 seconds after a change.
  predicate InTime(valid: Content -> bool, s: Service) {
    && (s.accepted == s.acceptedByTick && s.pc != Resetting(LONGEVITY) ==> s.now <= RenewalDue(s))
    && (s.dirty && valid(s.content) ==> s.now <= s.acceptedAt + QUEUE_DELAY)
    && (Handling(s.pc) ==> s.now == s.acceptedAt)
    && (s.accepted > 0 && s.handled == s.accepted ==> s.handledAt == s.acceptedAt)
    && (s.accepted == s.acceptedByTick && valid(s.content) ==>
          if s.pc == Resetting(LONGEVITY) then LastIs(s.published, s.content, s.now)
          else s.ticked > 0 ==> LastIs(s.published, s.content, s.tickedAt))
    && (s.accepted == s.acceptedByTick && valid(s.content) ==> !s.dirty)
  }

  lemma StepKeepsInTime(valid: Content -> bool, s: Service, e: Event)
    requires Inv(valid, s) && InTime(valid, s) && Enabled(s, e) && Punctual(s, e)
    ensures InTime(valid, Next(valid, s, e))
  {
    hide Applied, Accumulated, SpacingOk;
    if e.Receives? {
      AppliedOnlyIfAccepted(s.content, e.change);
    }
  }

  lemma {:induction false} PunctualRun(valid: Content -> bool, s: Service, events: seq<Event>)
    requires Inv(valid, s) && InTime(valid, s) && IsPunctualRun(valid, s, events)
    ensures IsRun(valid, s, events) && InTime(valid, Run(valid, s, events))
    decreases |events|
  {
    hide Inv, InTime, Next, Enabled, Punctual;
    if events != [] {
      StepKeepsInv(valid, s, events[0]);
      StepKeepsInTime(valid, s, events[0]);
      PunctualRun(valid, Next(valid, s, events[0]), events[1..]);
    }
  }

  /** If time passes only while the loop waits for its timer, valid content is never without an announcement
      for longer: once a tick has been handled and while no change is accepted, the last publication is of
      the current content and at most 24 hours old; and an accepted change of it is published within 10
      seconds of its receipt. */
  lemma RenewedInTime(valid: Content -> bool, s: Service, events: seq<Event>)
    requires Initial(s) && s.now <= s.firstDue && IsPunctualRun(valid, s, events)
    ensures IsRun(valid, s, events)
    ensures
      var t := Run(valid, s, events);
      && (t.accepted == t.acceptedByTick && valid(t.content) && t.ticked > 0 ==>
            && t.published != [] && var last := t.published[|t.published| - 1];
            last.content == t.content && last.at <= t.now <= last.at + 86400)
      && (t.accepted == 0 && t.ticked == 0 && t.pc != Resetting(LONGEVITY) ==> t.now <= s.firstDue)
      && (t.dirty && valid(t.content) ==> t.now <= t.acceptedAt + 10)
  {
    PunctualRun(valid, s, events);
    RunKeepsInv(valid, s, events);
    FirstDueStays(valid, s, events);
  }

  /** Whenever it publishes, the publication carries what all changes so far amount to, if the last report
      of channels was heard, and it is made if and only if that content is valid. */
  lemma PublishesAccumulated(valid: Content -> bool, s: Service, events: seq<Event>)
    requires Initial(s) && IsRun(valid, s, events) && Enabled(Run(valid, s, events), Generates)
    ensures
      var t := Run(valid, s, events);
      var t' := Next(valid, t, Generates);
      && (t'.published != t.published <==> valid(t.content))
      && (valid(t.content) ==>
            && t'.published == t.published + [Publication(t.content, t.now, t.accepted)]
            && (SameContent(t.content, AllTakenOver(t.start, t.changes)) <==> LastReportHeard(t.start, t.changes)))
  {
    RunKeepsInv(valid, s, events);
    var t := Run(valid, s, events);
    AccumulatedIsTakenOver(t.start, t.changes);
    assert t.published + [Publication(t.content, t.now, t.accepted)] != t.published;
  }

  lemma RunStep(valid: Content -> bool, s: Service, e: Event, rest: seq<Event>)
    requires Enabled(s, e) && IsRun(valid, Next(valid, s, e), rest)
    ensures IsRun(valid, s, [e] + rest) && Run(valid, s, [e] + rest) == Run(valid, Next(valid, s, e), rest)
  {
    hide Enabled, Next;
    assert ([e] + rest)[1..] == rest;
  }

  // What handling a tick comes to, from the deadline on.
  function TickEvents(t: Timer): seq<Event> {
    if t.armed.Some? then [Fires, TakesTick, Generates, Resets] else [TakesTick, Generates, Resets]
  }

  lemma TickIsHandled(valid: Content -> bool, s: Service)
    requires s.pc == Head && s.timer == Timer(None, 1)
    ensures
      var events := [TakesTick, Generates, Resets];
      && IsRun(valid, s, events) && var t := Run(valid, s, events);
      && t.pc == Head && t.content == s.content && t.timer == Timer(Some(s.now + 86400), 0)
      && t.published == s.published + (if valid(s.content) then [Publication(s.content, s.now, s.accepted)] else [])
  {
    var s1 := Next(valid, s, TakesTick);
    var s2 := Next(valid, s1, Generates);
    RunStep(valid, s2, Resets, []);
    RunStep(valid, s1, Generates, [Resets] + []);
    RunStep(valid, s, TakesTick, [Generates] + ([Resets] + []));
    assert [TakesTick] + ([Generates] + ([Resets] + [])) == [TakesTick, Generates, Resets];
  }

  /** Once its deadline has come, the loop can go round: it publishes the content, if that is valid, and
      leaves the timer armed for 24 hours from then. */
  lemma DueIsPublished(valid: Content -> bool, s: Service)
    requires s.pc == Head && TimerOk(s) && (s.timer.armed.Some? ==> s.timer.armed.value <= s.now)
    ensures
      var events := TickEvents(s.timer);
      && IsRun(valid, s, events) && var t := Run(valid, s, events);
      && t.pc == Head && t.content == s.content && t.timer == Timer(Some(s.now + 86400), 0)
      && t.published == s.published + (if valid(s.content) then [Publication(s.content, s.now, s.accepted)] else [])
  {
    if s.timer.armed.Some? {
      var s1 := Next(valid, s, Fires);
      TickIsHandled(valid, s1);
      RunStep(valid, s, Fires, [TakesTick, Generates, Resets]);
      assert [Fires] + [TakesTick, Generates, Resets] == TickEvents(s.timer);
    } else {
      TickIsHandled(valid, s);
    }
  }

  predicate ReadsReport(e: Event) {
    e.Receives? && e.change.Channels? && e.change.readable
  }

  // The publications from the n-th on carry these channels.
  predicate PublishedSince(s: Service, n: nat, channels: seq<Chan>) {
    n <= |s.published| && forall i :: n <= i < |s.published| ==> s.published[i].content.channels == channels
  }

  lemma {:induction false} ChannelsStay(valid: Content -> bool, s: Service, events: seq<Event>, n: nat)
    requires IsRun(valid, s, events) && PublishedSince(s, n, s.content.channels)
    requires forall i :: 0 <= i < |events| ==> !ReadsReport(events[i])
    ensures
      var t := Run(valid, s, events);
      t.content.channels == s.content.channels && PublishedSince(t, n, s.content.channels)
    decreases |events|
  {
    if events != [] {
      hide Enabled, IsRun;
      assert !ReadsReport(events[0]);
      assert forall i :: 0 <= i < |events[1..]| ==> events[1..][i] == events[i + 1];
      StepKeepsChannels(valid, s, events[0], n);
      ChannelsStay(valid, Next(valid, s, events[0]), events[1..], n);
    }
  }

  lemma StepKeepsChannels(valid: Content -> bool, s: Service, e: Event, n: nat)
    requires Enabled(s, e) && !ReadsReport(e) && PublishedSince(s, n, s.content.channels)
    ensures
      var t := Next(valid, s, e);
      t.content.channels == s.content.channels && PublishedSince(t, n, s.content.channels)
  {
  }

  /** A channel whose report could not be read is lost: the content lacks it, and so does everything
      published from then on, until a later report is read. */
  lemma UnreadReportIsLost(valid: Content -> bool, s: Service, x: Chan, events: seq<Event>)
    requires s.pc == Head && x !in s.content.channels
    requires IsRun(valid, Next(valid, s, Receives(Channels(s.content.channels + [x], false))), events)
    requires forall i :: 0 <= i < |events| ==> !ReadsReport(events[i])
    ensures Lost(s.content, Channels(s.content.channels + [x], false))
    ensures
      var t := Run(valid, Next(valid, s, Receives(Channels(s.content.channels + [x], false))), events);
      && x !in t.content.channels
      && PublishedSince(t, |s.published|, s.content.channels)
  {
    var stored := s.content.channels + [x];
    assert x in multiset(stored) && x !in multiset(s.content.channels);
    ChannelsStay(valid, Next(valid, s, Receives(Channels(stored, false))), events, |s.published|);
  }

  // The loop sets the timer for a change: the timer was armed, or its tick must be drained first.
  function SettingEvents(t: Timer): seq<Event> {
    if t.armed.Some? then [StopsTimer, Resets] else [StopsTimer, Drains, Resets]
  }

  // What handling one change message comes to, if nothing else happens meanwhile.
  function ChangeEvents(valid: Content -> bool, s: Service, change: Change): seq<Event> {
    var (content, accepted) := Applied(s.content, change);
    if accepted && valid(content) then [Receives(change)] + SettingEvents(s.timer) else [Receives(change)]
  }

  function TimerAfterChange(valid: Content -> bool, c: Content, t: Timer, change: Change, now: int): Timer {
    if Applied(c, change).1 && valid(Applied(c, change).0) then Timer(Some(now + QUEUE_DELAY), 0) else t
  }

  lemma TimerIsSet(valid: Content -> bool, s: Service)
    requires s.pc == Stopping && TimerOk(s)
    ensures IsRun(valid, s, SettingEvents(s.timer))
    ensures
      var t := Run(valid, s, SettingEvents(s.timer));
      t.pc == Head && t.content == s.content && t.timer == Timer(Some(s.now + QUEUE_DELAY), 0)
  {
    var s1 := Next(valid, s, StopsTimer);
    if s.timer.armed.Some? {
      RunStep(valid, s1, Resets, []);
      RunStep(valid, s, StopsTimer, [Resets] + []);
      assert [StopsTimer] + ([Resets] + []) == SettingEvents(s.timer);
    } else {
      var s2 := Next(valid, s1, Drains);
      RunStep(valid, s2, Resets, []);
      RunStep(valid, s1, Drains, [Resets] + []);
      RunStep(valid, s, StopsTimer, [Drains] + ([Resets] + []));
      assert [StopsTimer] + ([Drains] + ([Resets] + [])) == SettingEvents(s.timer);
    }
  }

  /** The loop's single steps take a change from one loop head to the next with the effect that the
      service object's OnChange states. */
  lemma ChangeReturnsToHead(valid: Content -> bool, s: Service, change: Change)
    requires s.pc == Head && TimerOk(s)
    ensures
      var events := ChangeEvents(valid, s, change);
      && IsRun(valid, s, events) && var t := Run(valid, s, events);
      && t.pc == Head && t.content == Applied(s.content, change).0
      && t.timer == TimerAfterChange(valid, s.content, s.timer, change, s.now)
  {
    hide Applied, Run, IsRun;
    var s1 := Next(valid, s, Receives(change));
    AppliedOnlyIfAccepted(s.content, change);
    if s1.pc == Stopping {
      TimerIsSet(valid, s1);
      RunStep(valid, s, Receives(change), SettingEvents(s.timer));
    } else {
      NoStep(valid, s1);
      RunStep(valid, s, Receives(change), []);
      assert [Receives(change)] + [] == ChangeEvents(valid, s, change);
    }
  }

  lemma NoStep(valid: Content -> bool, s: Service)
    ensures IsRun(valid, s, []) && Run(valid, s, []) == s
  {
  }

  // ---------------------------------------------------------------- the service object

  // The store after a change: an accepted owner key is stored too, if that succeeds.
  ghost function StoreAfter(t: Store.Tables, c: Content, change: Change, writable: bool): Store.Tables {
    if change.OwnerKey? && Applied(c, change).1 && writable then Store.AfterSetAnnounceOwner(t, change.key) else t
  }

  class Announcer {
    const store: SqliteStore.SQLiteStore
    var nextAnnounce: Content
    var armed: Option<int>
    var ticks: nat

    ghost function TimerState(): Timer
      reads this
    {
      Timer(armed, ticks)
    }

    constructor (store: SqliteStore.SQLiteStore, content: Content, remain: int, now: int)
      ensures this.store == store && nextAnnounce == content && TimerState() == Timer(Some(now + remain), 0)
    {
      this.store := store;
      nextAnnounce, armed, ticks := content, Some(now + remain), 0;
    }

    // The comparison loop of the ChangeChannel case.
    static method Differs(channels: seq<Chan>, current: seq<Chan>) returns (different: bool)
      requires |channels| == |current|
      ensures different <==> channels != current
    {
      different := false;
      for i := 0 to |channels|
        invariant !different && channels[..i] == current[..i]
      {
        if channels[i] != current[i] {
          return true;
        }
      }
      assert channels == channels[..|channels|] && current == current[..|channels|];
    }

    // The switch on the change message; false where the code continues with the loop at once.
    // If the store is not `writable`, its error is only logged.
    method Apply(change: Change, writable: bool) returns (accepted: bool)
      modifies this`nextAnnounce, store
      ensures (nextAnnounce, accepted) == Applied(old(nextAnnounce), change)
      ensures store.Contents() == StoreAfter(old(store.Contents()), old(nextAnnounce), change, writable)
    {
      match change {
        case PublicAddress(address, port) =>
          nextAnnounce := nextAnnounce.(address := address, port := port);
        case OwnerKey(key) =>
          if nextAnnounce.owner == key {
            return false;
          }
          nextAnnounce := nextAnnounce.(owner := key);
          if writable {
            store.SetAnnounceOwner(key);
          }
        case Channels(stored, readable) =>
          if !readable {
            return false;
          }
          var channels := stored;
          var current := nextAnnounce.channels;
          if |channels| == |current| {
            channels := Sort(channels);
            SortSorts(stored);
            var different := Differs(channels, current);
            if !different {
              return false;
            }
          }
          nextAnnounce := nextAnnounce.(channels := channels);
        case Unknown =>
          return false;
      }
      return true;
    }

    /** One change message, from the loop head back to it: an accepted change of valid content leaves
        the timer armed for 10 seconds and its channel empty, whether or not it had fired before; and an
        accepted owner key is stored. */
    method OnChange(valid: Content -> bool, change: Change, writable: bool, now: int)
      requires ticks == if armed.Some? then 0 else 1
      modifies this, store
      ensures nextAnnounce == Applied(old(nextAnnounce), change).0
      ensures TimerState() == TimerAfterChange(valid, old(nextAnnounce), old(TimerState()), change, now)
      ensures store.Contents() == StoreAfter(old(store.Contents()), old(nextAnnounce), change, writable)
    {
      var accepted := Apply(change, writable);
      if accepted && valid(nextAnnounce) {
        var stopped := armed.Some?;
        armed := None;
        if !stopped {
          ticks := ticks - 1;
        }
        armed := Some(now + QUEUE_DELAY);
      }
    }
  }
}
