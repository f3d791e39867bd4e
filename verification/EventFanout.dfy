/** realtime/events.py: the bounded queue between the repository and the sinks. Steps run from one
    `await` to the next; a blocked `put` is a step of its own. The five-second limit on closing is
    left out. */
module EventFanout {
  import opened Base

  datatype Notice = Notice(callId: string, sequence: nat, kind: string)

  const CRITICAL := {
    "call.commit_allowed", "call.commit_denied", "call.input_required", "call.input_received",
    "call.input_timeout", "call.completed", "call.failed", "call.cancelled"}

  /** A queue element: an event, or the `None` that ends the consumer. */
  datatype Slot = Carry(notice: Notice) | End

  /** What the consumer is doing: waiting for an element, or about to offer one to sink `next`. */
  datatype Consumer = Ready | Offering(notice: Notice, next: nat) | Stopped

  /** How a sink's `send` ends. */
  datatype Outcome = Sent | Raised

  /** `capacity` 0 means unbounded, as for asyncio.Queue. `offered` and `outcomes` are what each sink
      was sent and how that ended, `logged` the exceptions written to the log; the last four fields are
      histories of the queue. */
  datatype State = State(
    capacity: nat,
    queue: seq<Slot>,
    blocked: seq<Slot>,
    closed: bool,
    consumer: Consumer,
    offered: seq<seq<Notice>>,
    outcomes: seq<seq<Outcome>>,
    logged: seq<(nat, Notice)>,
    taken: seq<Notice>,
    enqueued: seq<Notice>,
    published: seq<Notice>,
    dropped: seq<Notice>)

  predicate Full(s: State) {
    s.capacity > 0 && |s.queue| >= s.capacity
  }

  function Notices(slots: seq<Slot>): seq<Notice> {
    if slots == [] then []
    else
      var last := slots[|slots| - 1];
      Notices(slots[..|slots| - 1]) + if last.Carry? then [last.notice] else []
  }

  function Put(s: State, slot: Slot): State {
    s.(queue := s.queue + [slot], enqueued := s.enqueued + Notices([slot]))
  }

  /** `await queue.put(...)` up to the point where it returns or blocks. */
  function PutOrBlock(s: State, slot: Slot): State {
    if Full(s) then s.(blocked := s.blocked + [slot]) else Put(s, slot)
  }

  function Publish(s: State, e: Notice): State {
    if s.closed then s
    else
      var t := s.(published := s.published + [e]);
      if e.kind in CRITICAL then PutOrBlock(t, Carry(e))
      else if Full(s) then t.(dropped := t.dropped + [e])
      else Put(t, Carry(e))
  }

  /** A blocked `put` finds room; which one is up to the scheduler. */
  function Unblock(s: State, i: nat): State
    requires i < |s.blocked|
  {
    Put(s.(blocked := s.blocked[..i] + s.blocked[i + 1..]), s.blocked[i])
  }

  function Take(s: State): State
    requires s.queue != [] && s.consumer.Ready?
  {
    var t := s.(queue := s.queue[1..]);
    match s.queue[0]
    case End => t.(consumer := Stopped)
    case Carry(e) => t.(taken := s.taken + [e], consumer := if s.offered == [] then Ready else Offering(e, 0))
  }

  /** The event is sent to the next sink; an exception is caught and logged, and the loop goes on. */
  function Offer(s: State, outcome: Outcome): State
    requires s.consumer.Offering? && s.consumer.next < |s.offered| == |s.outcomes|
  {
    var i, e := s.consumer.next, s.consumer.notice;
    s.(offered := s.offered[i := s.offered[i] + [e]],
       outcomes := s.outcomes[i := s.outcomes[i] + [outcome]],
       logged := if outcome.Raised? then s.logged + [(i, e)] else s.logged,
       consumer := if i + 1 == |s.offered| then Ready else Offering(e, i + 1))
  }

  function Close(s: State): State {
    if s.closed then s else PutOrBlock(s.(closed := true), End)
  }

  datatype Action = DoPublish(notice: Notice) | DoUnblock(i: nat) | DoTake | DoOffer(outcome: Outcome) | DoClose

  predicate Enabled(s: State, a: Action) {
    match a
    case DoPublish(_) => true
    case DoUnblock(i) => i < |s.blocked| && !Full(s)
    case DoTake => s.queue != [] && s.consumer.Ready?
    case DoOffer(_) => s.consumer.Offering? && s.consumer.next < |s.offered| == |s.outcomes|
    case DoClose => true
  }

  function Next(s: State, a: Action): State
    requires Enabled(s, a)
  {
    match a
    case DoPublish(e) => Publish(s, e)
    case DoUnblock(i) => Unblock(s, i)
    case DoTake => Take(s)
    case DoOffer(outcome) => Offer(s, outcome)
    case DoClose => Close(s)
  }

  predicate Valid(s: State, run: seq<Action>)
    decreases |run|
  {
    run == [] || (Enabled(s, run[0]) && Valid(Next(s, run[0]), run[1..]))
  }

  function After(s: State, run: seq<Action>): State
    requires Valid(s, run)
    decreases |run|
  {
    if run == [] then s else After(Next(s, run[0]), run[1..])
  }

  /** A started dispatcher with its sinks. */
  predicate Initial(s: State) {
    && s == State(s.capacity, [], [], false, Ready, s.offered, s.outcomes, [], [], [], [], [])
    && |s.outcomes| == |s.offered|
    && forall j :: 0 <= j < |s.offered| ==> s.offered[j] == [] && s.outcomes[j] == []
  }

  // ---- Conservation and order ----

  /** The queue keeps its bound and holds what was enqueued and not yet taken. */
  ghost predicate QueueOk(s: State) {
    (s.capacity > 0 ==> |s.queue| <= s.capacity) && s.enqueued == s.taken + Notices(s.queue)
  }

  /** Every published event was enqueued, is blocked, or was dropped because it is not critical. */
  ghost predicate Balanced(s: State) {
    && multiset(s.published) == multiset(s.enqueued) + multiset(Notices(s.blocked)) + multiset(s.dropped)
    && (forall e <- s.dropped :: e.kind !in CRITICAL)
  }

  /** Each sink was offered the taken events in order; the current one has not reached the sinks
      from `next` on. */
  ghost predicate SinksOk(s: State) {
    && (s.consumer.Offering? ==>
          s.consumer.next < |s.offered| && s.taken != [] && s.taken[|s.taken| - 1] == s.consumer.notice)
    && (forall j :: 0 <= j < |s.offered| ==>
          s.offered[j] ==
          if s.consumer.Offering? && s.consumer.next <= j then s.taken[..|s.taken| - 1] else s.taken)
  }

  ghost predicate Conserves(s: State) {
    QueueOk(s) && Balanced(s) && SinksOk(s)
  }

  lemma {:induction false} NoticesConcat(a: seq<Slot>, b: seq<Slot>)
    ensures Notices(a + b) == Notices(a) + Notices(b)
  {
    if b == [] {
      assert a + b == a;
    } else {
      NoticesConcat(a, b[..|b| - 1]);
      assert (a + b)[..|a + b| - 1] == a + b[..|b| - 1];
    }
  }

  lemma NoticesOne(slot: Slot)
    ensures Notices([slot]) == if slot.Carry? then [slot.notice] else []
  {
    assert [slot][..0] == [];
  }

  lemma PutKeepsQueue(s: State, slot: Slot)
    requires QueueOk(s) && !Full(s)
    ensures QueueOk(Put(s, slot))
  {
    NoticesConcat(s.queue, [slot]);
    hide Notices;
    assert s.taken + (Notices(s.queue) + Notices([slot])) == s.enqueued + Notices([slot]);
  }

  /** A slot is put or blocked: either way its event, newly published, is accounted for. */
  lemma PutBalances(s: State, slot: Slot, published: seq<Notice>)
    requires Balanced(s) && published == s.published + (if slot.Carry? then [slot.notice] else [])
    ensures Balanced(Put(s, slot).(published := published))
    ensures Balanced(s.(blocked := s.blocked + [slot], published := published))
  {
    NoticesOne(slot);
    NoticesConcat(s.blocked, [slot]);
    hide Notices;
  }

  lemma PublishKeeps(s: State, e: Notice)
    requires Conserves(s)
    ensures Conserves(Publish(s, e))
  {
    hide Notices, CRITICAL;
    if !s.closed {
      PutBalances(s, Carry(e), s.published + [e]);
      if !Full(s) {
        PutKeepsQueue(s, Carry(e));
      }
    }
  }

  /** Moving one blocked slot elsewhere. */
  lemma WithoutOne(blocked: seq<Slot>, i: nat)
    requires i < |blocked|
    ensures multiset(Notices(blocked)) ==
            multiset(Notices(blocked[..i] + blocked[i + 1..])) + multiset(Notices([blocked[i]]))
  {
    hide Notices;
    var before, slot, behind := blocked[..i], [blocked[i]], blocked[i + 1..];
    NoticesConcat(before, slot + behind);
    NoticesConcat(slot, behind);
    NoticesConcat(before, behind);
    assert blocked == before + (slot + behind);
    MovedOut(Notices(before), Notices(slot), Notices(behind));
  }

  lemma MovedOut(x: seq<Notice>, y: seq<Notice>, z: seq<Notice>)
    ensures multiset(x + (y + z)) == multiset(x + z) + multiset(y)
  {
  }

  lemma UnblockBalances(s: State, i: nat)
    requires Balanced(s) && i < |s.blocked|
    ensures Balanced(Unblock(s, i))
  {
    hide Notices, CRITICAL;
    WithoutOne(s.blocked, i);
    var t := Unblock(s, i);
    assert multiset(t.enqueued) == multiset(s.enqueued) + multiset(Notices([s.blocked[i]]));
  }

  lemma UnblockKeeps(s: State, i: nat)
    requires Conserves(s) && i < |s.blocked| && !Full(s)
    ensures Conserves(Unblock(s, i))
  {
    PutKeepsQueue(s.(blocked := s.blocked[..i] + s.blocked[i + 1..]), s.blocked[i]);
    UnblockBalances(s, i);
    SinksSame(s, Unblock(s, i));
    hide Balanced, SinksOk;
  }

  lemma SinksSame(s: State, t: State)
    requires SinksOk(s) && t.taken == s.taken && t.offered == s.offered && t.consumer == s.consumer
    ensures SinksOk(t)
  {
  }

  lemma CloseKeeps(s: State)
    requires Conserves(s)
    ensures Conserves(Close(s))
  {
    hide Notices, CRITICAL;
    if !s.closed {
      PutBalances(s, End, s.published);
      if !Full(s) {
        PutKeepsQueue(s, End);
      }
    }
  }

  lemma TakeKeepsQueue(s: State)
    requires QueueOk(s) && s.queue != [] && s.consumer.Ready?
    ensures QueueOk(Take(s))
  {
    NoticesOne(s.queue[0]);
    NoticesConcat([s.queue[0]], s.queue[1..]);
    assert [s.queue[0]] + s.queue[1..] == s.queue;
    hide Notices;
    var rest := Notices(s.queue[1..]);
    if s.queue[0].Carry? {
      var e := s.queue[0].notice;
      assert s.taken + ([e] + rest) == s.taken + [e] + rest;
    } else {
      assert [] + rest == rest;
    }
  }

  lemma TakeKeeps(s: State)
    requires Conserves(s) && s.queue != [] && s.consumer.Ready?
    ensures Conserves(Take(s))
  {
    TakeKeepsQueue(s);
    hide Notices, CRITICAL, QueueOk;
    if s.queue[0].Carry? {
      assert (s.taken + [s.queue[0].notice])[..|s.taken|] == s.taken;
    }
  }

  lemma OfferKeeps(s: State, outcome: Outcome)
    requires Conserves(s) && s.consumer.Offering? && |s.outcomes| == |s.offered|
    ensures Conserves(Offer(s, outcome))
  {
    hide Notices, CRITICAL;
    assert s.taken == s.taken[..|s.taken| - 1] + [s.consumer.notice];
  }

  lemma NextKeepsConserves(s: State, a: Action)
    requires Conserves(s) && Enabled(s, a)
    ensures Conserves(Next(s, a))
  {
    match a {
      case DoPublish(e) => PublishKeeps(s, e);
      case DoUnblock(i) => UnblockKeeps(s, i);
      case DoTake => TakeKeeps(s);
      case DoOffer(outcome) => OfferKeeps(s, outcome);
      case DoClose => CloseKeeps(s);
    }
  }

  lemma {:induction false} RunKeepsConserves(s: State, run: seq<Action>)
    requires Conserves(s) && Valid(s, run)
    ensures Conserves(After(s, run))
    decreases |run|
  {
    if run != [] {
      NextKeepsConserves(s, run[0]);
      RunKeepsConserves(Next(s, run[0]), run[1..]);
    }
  }

  /** At every point of every run the events published while open split exactly into taken, queued,
      blocked and dropped ones; the dropped ones are not critical; the queue keeps its bound; and
      every sink has been offered the taken events in the order in which they were enqueued (the
      last one perhaps not yet), whatever the other sinks raised. */
  lemma FanoutConserves(s: State, run: seq<Action>)
    requires Initial(s) && Valid(s, run)
    ensures var t := After(s, run);
            && multiset(t.published) ==
               multiset(t.taken) + multiset(Notices(t.queue)) + multiset(Notices(t.blocked)) + multiset(t.dropped)
            && (forall e <- t.dropped :: e.kind !in {
                  "call.commit_allowed", "call.commit_denied", "call.input_required", "call.input_received",
                  "call.input_timeout", "call.completed", "call.failed", "call.cancelled"})
            && (t.capacity > 0 ==> |t.queue| <= t.capacity)
            && t.taken <= t.enqueued
            && (forall j :: 0 <= j < |t.offered| ==>
                  t.offered[j] <= t.taken && |t.taken| <= |t.offered[j]| + 1
                  && (!t.consumer.Offering? ==> t.offered[j] == t.taken))
  {
    RunKeepsConserves(s, run);
    forall kind ensures kind in CRITICAL <==> kind in {
      "call.commit_allowed", "call.commit_denied", "call.input_required", "call.input_received",
      "call.input_timeout", "call.completed", "call.failed", "call.cancelled"} {
      CriticalKinds(kind);
    }
    hide CRITICAL;
  }

  /** The kinds that are never dropped. */
  lemma CriticalKinds(kind: string)
    ensures kind in CRITICAL <==> kind in {
              "call.commit_allowed", "call.commit_denied", "call.input_required", "call.input_received",
              "call.input_timeout", "call.completed", "call.failed", "call.cancelled"}
  {
  }

  /** An event is dropped exactly when it is published to an open dispatcher, is of none of the eight
      critical kinds, and finds as many elements queued as the queue may hold. */
  lemma DroppedIff(s: State, a: Action)
    requires Enabled(s, a)
    ensures var dropped := a.DoPublish? && !s.closed && 0 < s.capacity <= |s.queue| && a.notice.kind !in {
                "call.commit_allowed", "call.commit_denied", "call.input_required", "call.input_received",
                "call.input_timeout", "call.completed", "call.failed", "call.cancelled"};
            Next(s, a).dropped == s.dropped + if dropped then [a.notice] else []
  {
    if a.DoPublish? {
      CriticalKinds(a.notice.kind);
    }
    hide CRITICAL, Notices;
    assert s.dropped + [] == s.dropped;
  }

  // ---- Sinks do not affect one another ----

  /** The events whose `send` ended in this way, in order. */
  function Ended(events: seq<Notice>, outcomes: seq<Outcome>, outcome: Outcome): seq<Notice>
    requires |events| == |outcomes|
  {
    if events == [] then []
    else
      var n := |events| - 1;
      Ended(events[..n], outcomes[..n], outcome) + if outcomes[n] == outcome then [events[n]] else []
  }

  /** The exceptions logged for one sink. */
  function LoggedFor(logged: seq<(nat, Notice)>, j: nat): seq<Notice> {
    if logged == [] then []
    else
      var n := |logged| - 1;
      LoggedFor(logged[..n], j) + if logged[n].0 == j then [logged[n].1] else []
  }

  /** Each offer has one outcome, and the log names exactly the offers that raised. */
  ghost predicate Reported(s: State) {
    && |s.outcomes| == |s.offered|
    && forall j :: 0 <= j < |s.offered| ==>
         |s.outcomes[j]| == |s.offered[j]|
         && LoggedFor(s.logged, j) == Ended(s.offered[j], s.outcomes[j], Raised)
  }

  lemma EndedPush(events: seq<Notice>, outcomes: seq<Outcome>, e: Notice, o: Outcome, outcome: Outcome)
    requires |events| == |outcomes|
    ensures Ended(events + [e], outcomes + [o], outcome) == Ended(events, outcomes, outcome) + if o == outcome then [e] else []
  {
    assert (events + [e])[..|events|] == events && (outcomes + [o])[..|events|] == outcomes;
  }

  lemma LoggedPush(logged: seq<(nat, Notice)>, i: nat, e: Notice, j: nat)
    ensures LoggedFor(logged + [(i, e)], j) == LoggedFor(logged, j) + if i == j then [e] else []
  {
    assert (logged + [(i, e)])[..|logged|] == logged;
  }

  lemma NextKeepsReported(s: State, a: Action)
    requires Reported(s) && Enabled(s, a)
    ensures Reported(Next(s, a))
  {
    hide Notices, CRITICAL;
    if a.DoOffer? {
      var i, e := s.consumer.next, s.consumer.notice;
      var t := Offer(s, a.outcome);
      EndedPush(s.offered[i], s.outcomes[i], e, a.outcome, Raised);
      forall j | 0 <= j < |s.offered|
        ensures LoggedFor(t.logged, j) == LoggedFor(s.logged, j) + if a.outcome.Raised? && i == j then [e] else []
      {
        LoggedPush(s.logged, i, e, j);
      }
      hide Ended, LoggedFor;
    }
  }

  lemma {:induction false} RunKeepsReported(s: State, run: seq<Action>)
    requires Reported(s) && Valid(s, run)
    ensures Reported(After(s, run))
    decreases |run|
  {
    if run != [] {
      NextKeepsReported(s, run[0]);
      hide Next, Reported;
      RunKeepsReported(Next(s, run[0]), run[1..]);
    }
  }

  /** The same but for how sends to sinks other than `j` ended. */
  ghost predicate SameFor(s: State, t: State, j: nat) {
    && t == s.(outcomes := t.outcomes, logged := t.logged)
    && |s.outcomes| == |s.offered| == |t.outcomes|
    && (j < |s.offered| ==> t.outcomes[j] == s.outcomes[j])
    && LoggedFor(t.logged, j) == LoggedFor(s.logged, j)
  }

  /** Two actions that may differ only in how a send to a sink other than `j` ends. */
  predicate Matching(s: State, a: Action, b: Action, j: nat) {
    a == b || (a.DoOffer? && b.DoOffer? && s.consumer.Offering? && s.consumer.next != j)
  }

  ghost predicate AllMatching(s: State, run: seq<Action>, other: seq<Action>, j: nat)
    requires Valid(s, run)
    decreases |run|
  {
    |other| == |run|
    && (run == [] || (Matching(s, run[0], other[0], j) && AllMatching(Next(s, run[0]), run[1..], other[1..], j)))
  }

  lemma StepIsolates(s: State, t: State, a: Action, b: Action, j: nat)
    requires SameFor(s, t, j) && Enabled(s, a) && Matching(s, a, b, j)
    ensures Enabled(t, b) && SameFor(Next(s, a), Next(t, b), j)
  {
    hide Notices, CRITICAL;
    if a.DoOffer? {
      LoggedPush(s.logged, s.consumer.next, s.consumer.notice, j);
      LoggedPush(t.logged, t.consumer.next, t.consumer.notice, j);
    }
    hide LoggedFor;
  }

  /** Whatever other sinks raise, everything else is the same: the same events are taken and offered to
      every sink in the same order, and sink `j` receives the same ones. */
  lemma {:induction false} SinksAreIsolated(s: State, t: State, run: seq<Action>, other: seq<Action>, j: nat)
    requires SameFor(s, t, j) && Valid(s, run) && AllMatching(s, run, other, j)
    ensures Valid(t, other) && SameFor(After(s, run), After(t, other), j)
    decreases |run|
  {
    if run != [] {
      StepIsolates(s, t, run[0], other[0], j);
      hide Next, Enabled, SameFor, Matching;
      SinksAreIsolated(Next(s, run[0]), Next(t, other[0]), run[1..], other[1..], j);
    }
  }

  /** Over every run each sink receives, in order, exactly the events offered to it whose own send did
      not raise, and the log names exactly the others. */
  lemma DeliveredUnlessRaised(s: State, run: seq<Action>)
    requires Initial(s) && Valid(s, run)
    ensures Reported(After(s, run))
  {
    RunKeepsReported(s, run);
  }

  // ---- What closing can strand ----

  /** The end marker is in the queue; `ahead` are the events before it. */
  ghost predicate Marked(s: State, ahead: seq<Slot>) {
    s.closed && ahead + [End] <= s.queue && forall x <- ahead :: x.Carry?
  }

  /** A step takes the first event ahead of the marker, or the marker, or nothing. */
  lemma MarkerStep(s: State, ahead: seq<Slot>, a: Action)
    requires Marked(s, ahead) && !s.consumer.Stopped? && Enabled(s, a)
    ensures var t := Next(s, a);
            if !a.DoTake? then Marked(t, ahead) && !t.consumer.Stopped? && t.taken == s.taken
            else if ahead == [] then t.consumer.Stopped? && t.taken == s.taken
            else Marked(t, ahead[1..]) && !t.consumer.Stopped?
                 && ahead[0].Carry? && t.taken == s.taken + [ahead[0].notice]
  {
    hide Notices, CRITICAL;
    assert s.queue[0] == (ahead + [End])[0];
    if a.DoTake? {
      if ahead != [] {
        assert ahead[0] in ahead;
        assert (ahead + [End])[1..] == ahead[1..] + [End];
      }
    } else {
      assert s.queue <= Next(s, a).queue;
    }
  }

  /** Once the marker is in the queue only the events ahead of it are ever taken. */
  lemma {:induction false} NothingBehindMarkerIsTaken(s: State, ahead: seq<Slot>, run: seq<Action>)
    requires Valid(s, run)
    requires (Marked(s, ahead) && !s.consumer.Stopped?) || (s.consumer.Stopped? && ahead == [])
    ensures var t := After(s, run);
            t.taken <= s.taken + Notices(ahead) && (t.consumer.Stopped? ==> t.taken == s.taken + Notices(ahead))
    decreases |run|
  {
    if run != [] {
      var t := Next(s, run[0]);
      if s.consumer.Stopped? {
        assert t.consumer.Stopped? && t.taken == s.taken;
        NothingBehindMarkerIsTaken(t, [], run[1..]);
      } else {
        MarkerStep(s, ahead, run[0]);
        hide Next, Marked;
        var rest := if run[0].DoTake? && ahead != [] then ahead[1..] else ahead;
        if run[0].DoTake? && ahead != [] {
          assert ahead == [ahead[0]] + rest;
          NoticesOne(ahead[0]);
          NoticesConcat([ahead[0]], rest);
          assert s.taken + ([ahead[0].notice] + Notices(rest)) == t.taken + Notices(rest);
        }
        NothingBehindMarkerIsTaken(t, rest, run[1..]);
      }
    }
  }

  lemma SplitOf(s: State)
    requires Conserves(s)
    ensures multiset(s.published) == multiset(s.enqueued) + multiset(Notices(s.blocked)) + multiset(s.dropped)
    ensures s.enqueued == s.taken + Notices(s.queue)
  {
    hide Notices, CRITICAL, SinksOk;
  }

  /** From the moment the marker is the last element of the queue, a run that ends the consumer has
      taken every event that was published and not dropped exactly when no publisher was blocked at
      that moment: a critical event whose `put` is still waiting then is never offered. */
  lemma CloseStrandsIff(s: State, ahead: seq<Slot>, run: seq<Action>)
    requires Conserves(s) && Marked(s, ahead) && s.queue == ahead + [End] && Valid(s, run)
    requires After(s, run).consumer.Stopped? && !s.consumer.Stopped?
    ensures var t := After(s, run);
            multiset(t.published) == multiset(t.taken) + multiset(t.dropped) <==> Notices(s.blocked) == []
  {
    SplitOf(s);
    hide Conserves;
    NothingBehindMarkerIsTaken(s, ahead, run);
    ClosedKeepsPublished(s, run);
    NoticesOne(End);
    NoticesConcat(ahead, [End]);
    var t := After(s, run);
    hide After, Valid, Notices, CRITICAL, SinksOk, Marked;
    assert Notices(ahead) + [] == Notices(ahead);
    assert t.taken == s.enqueued;
    var stuck := Notices(s.blocked);
    assert multiset(t.published) == multiset(t.taken) + multiset(stuck) + multiset(t.dropped);
    if stuck != [] {
      assert stuck[0] in multiset(stuck);
      assert multiset(t.published)[stuck[0]] > (multiset(t.taken) + multiset(t.dropped))[stuck[0]];
    }
  }

  lemma {:induction false} ClosedKeepsPublished(s: State, run: seq<Action>)
    requires s.closed && Valid(s, run)
    ensures var t := After(s, run); t.published == s.published && t.dropped == s.dropped
    decreases |run|
  {
    if run != [] {
      ClosedKeepsPublished(Next(s, run[0]), run[1..]);
    }
  }

  // ---- A critical event that is stranded ----

  /** Some run leads from `s` to `t`. */
  ghost predicate Leads(s: State, t: State) {
    exists run :: Valid(s, run) && After(s, run) == t
  }

  lemma LeadsHere(s: State)
    ensures Leads(s, s)
  {
    assert Valid(s, []) && After(s, []) == s;
  }

  lemma LeadsStep(s: State, a: Action, t: State)
    requires Enabled(s, a) && Leads(Next(s, a), t)
    ensures Leads(s, t)
  {
    hide Next, Enabled;
    var rest :| Valid(Next(s, a), rest) && After(Next(s, a), rest) == t;
    assert ([a] + rest)[1..] == rest;
    assert Valid(s, [a] + rest) && After(s, [a] + rest) == t;
  }

  /** A critical event is published until the queue is full. */
  lemma {:induction false} LeadsToFull(s: State, a: Notice) returns (t: State)
    requires a.kind in CRITICAL && !s.closed && |s.queue| <= s.capacity && s.capacity > 0
    ensures Full(t) && |t.queue| == t.capacity
    ensures t == s.(queue := t.queue, enqueued := t.enqueued, published := t.published)
    ensures s.queue <= t.queue && forall i :: |s.queue| <= i < |t.queue| ==> t.queue[i] == Carry(a)
    ensures Leads(s, t)
    decreases s.capacity - |s.queue|
  {
    hide CRITICAL, Notices;
    if Full(s) {
      LeadsHere(s);
      t := s;
    } else {
      var m := Publish(s, a);
      t := LeadsToFull(m, a);
      hide Leads;
      LeadsStep(s, DoPublish(a), t);
    }
  }

  /** The event just taken is sent to the remaining sinks. */
  lemma {:induction false} LeadsToOffered(s: State, j: nat) returns (t: State)
    requires s.consumer.Offering? && s.consumer.next == j < |s.offered| == |s.outcomes|
    ensures t == s.(consumer := Ready, offered := t.offered, outcomes := t.outcomes)
    ensures |t.offered| == |s.offered| == |t.outcomes|
    ensures forall i :: 0 <= i < |s.offered| ==>
              t.offered[i] == if i < j then s.offered[i] else s.offered[i] + [s.consumer.notice]
    ensures Leads(s, t)
    decreases |s.offered| - j
  {
    var m := Offer(s, Sent);
    if j + 1 == |s.offered| {
      LeadsHere(m);
      t := m;
    } else {
      t := LeadsToOffered(m, j + 1);
    }
    hide Leads;
    LeadsStep(s, DoOffer(Sent), t);
  }

  /** One event is taken and sent to every sink. */
  lemma LeadsToTaken(s: State) returns (t: State)
    requires s.queue != [] && s.queue[0].Carry? && s.consumer.Ready? && |s.offered| == |s.outcomes| > 0
    ensures t == s.(queue := s.queue[1..], taken := s.taken + [s.queue[0].notice], offered := t.offered, outcomes := t.outcomes)
    ensures |t.offered| == |s.offered| == |t.outcomes|
    ensures forall i :: 0 <= i < |s.offered| ==> t.offered[i] == s.offered[i] + [s.queue[0].notice]
    ensures Leads(s, t)
  {
    t := LeadsToOffered(Take(s), 0);
    hide Leads;
    LeadsStep(s, DoTake, t);
  }

  /** The consumer works off the queue up to the end marker. */
  lemma {:induction false} LeadsToStop(s: State) returns (t: State)
    requires s.queue != [] && s.queue[|s.queue| - 1].End? && s.consumer.Ready? && |s.offered| == |s.outcomes| > 0
    requires forall i :: 0 <= i < |s.queue| - 1 ==> s.queue[i].Carry?
    ensures t.consumer.Stopped? && t.blocked == s.blocked && t.closed == s.closed && t.published == s.published
    ensures |t.offered| == |s.offered|
    ensures forall b: Notice :: Carry(b) !in s.queue ==>
              forall i :: 0 <= i < |s.offered| ==> (b in t.offered[i] <==> b in s.offered[i])
    ensures Leads(s, t)
    decreases |s.queue|
  {
    if |s.queue| == 1 {
      t := Take(s);
      LeadsHere(t);
      hide Leads;
      LeadsStep(s, DoTake, t);
    } else {
      var m := LeadsToTaken(s);
      t := LeadsToStop(m);
      LeadsThrough(s, m, t);
      assert s.queue[0] in s.queue && forall x <- m.queue :: x in s.queue;
      hide Leads;
    }
  }

  lemma LeadsThrough(s: State, m: State, t: State)
    requires Leads(s, m) && Leads(m, t)
    ensures Leads(s, t)
  {
    var run :| Valid(s, run) && After(s, run) == m;
    RunThrough(s, run, m, t);
  }

  lemma {:induction false} RunThrough(s: State, run: seq<Action>, m: State, t: State)
    requires Valid(s, run) && After(s, run) == m && Leads(m, t)
    ensures Leads(s, t)
    decreases |run|
  {
    if run != [] {
      hide Leads, Next, Enabled;
      RunThrough(Next(s, run[0]), run[1..], m, t);
      LeadsStep(s, run[0], t);
    }
  }

  /** With any bound on the queue and any sinks, some run strands a critical event: the queue is full,
      the event has to wait, the consumer takes one event, and `close` gets its marker into the free
      place before the waiting `put` wakes up. The consumer then stops, and no sink is ever offered
      the event. */
  lemma CriticalEventCanBeStranded(s: State, a: Notice, b: Notice)
    requires Initial(s) && s.capacity >= 1 && s.offered != [] && a != b && a.kind in CRITICAL && b.kind in CRITICAL
    ensures exists t :: Leads(s, t) && t.consumer.Stopped? && t.blocked == [Carry(b)] && b in t.published
                        && forall i :: 0 <= i < |t.offered| ==> b !in t.offered[i]
  {
    hide CRITICAL, Notices;
    var full := LeadsToFull(s, a);
    var waiting := Publish(full, b);
    assert forall i :: 0 <= i < |full.queue| ==> full.queue[i] == Carry(a);
    assert waiting.blocked == [Carry(b)] && waiting.queue == full.queue && b in waiting.published;
    var taken := LeadsToTaken(waiting);
    var closing := Close(taken);
    assert closing.queue == taken.queue + [End] && closing.blocked == [Carry(b)];
    assert forall i :: 0 <= i < |taken.queue| ==> taken.queue[i] == full.queue[i + 1];
    assert forall i :: 0 <= i < |closing.queue| ==> closing.queue[i] == if i < |taken.queue| then Carry(a) else End;
    var t := LeadsToStop(closing);
    hide Leads;
    assert Carry(b) !in closing.queue;
    LeadsStep(taken, DoClose, t);
    LeadsThrough(waiting, taken, t);
    LeadsStep(full, DoPublish(b), t);
    LeadsThrough(s, full, t);
  }
}
