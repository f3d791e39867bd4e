/** What the queue, the futures and the first failure guarantee over every run, every interleaving
    and every pattern of write failures. */
module Accounting {
  import opened Base
  import opened Models
  import opened Rows
  import opened CallSites
  import opened WriteBehind
  import P = Policy

  function Items(queue: seq<Entry>): seq<Item> {
    if queue == [] then []
    else Items(queue[..|queue| - 1]) + if queue[|queue| - 1].Work? then [queue[|queue| - 1].item] else []
  }

  function Waiters(items: seq<Item>): seq<nat> {
    if items == [] then []
    else
      var last := items[|items| - 1];
      Waiters(items[..|items| - 1]) + if last.waiter.Some? then [last.waiter.value] else []
  }

  function Required(items: seq<Item>): seq<Item> {
    if items == [] then []
    else
      var last := items[|items| - 1];
      Required(items[..|items| - 1]) + if last.required then [last] else []
  }

  ghost predicate Counting(numbers: seq<nat>) {
    forall i :: 0 <= i < |numbers| ==> numbers[i] == i
  }

  /** Nothing but `Stop` follows a `Stop`, and there is one exactly after closing. */
  ghost predicate StopsLast(ctx: Context) {
    && (forall i, j :: 0 <= i < j < |ctx.queue| && ctx.queue[i].Stop? ==> ctx.queue[j].Stop?)
    && (ctx.stopped ==> ctx.closed && forall e <- ctx.queue :: e.Stop?)
    && (ctx.closed && !ctx.stopped ==> ctx.queue != [] && ctx.queue[|ctx.queue| - 1].Stop?)
    && (!ctx.closed ==> forall e <- ctx.queue :: e.Work?)
  }

  /** Futures are created and settled in the same order; only required work is waited for, so a
      future raises only after a required failure. */
  ghost predicate FuturesOk(s: System) {
    && Counting(Waiters(s.log.accepted)) && |Waiters(s.log.accepted)| == |s.ctx.futures|
    && s.log.settled == Waiters(s.log.handled)
    && (forall i :: 0 <= i < |s.ctx.futures| ==> (s.ctx.futures[i].Waiting? <==> |s.log.settled| <= i))
    && (forall item <- s.log.accepted :: item.waiter.Some? ==> item.required)
    && (!s.ctx.failed ==> forall f <- s.ctx.futures :: !f.Raised?)
  }

  ghost predicate Accounted(s: System) {
    && s.log.accepted == s.log.handled + Items(s.ctx.queue)
    && StopsLast(s.ctx)
    && FuturesOk(s)
    // the first required failure stops all later required work
    && Required(s.log.landed) <= Required(s.log.handled)
    && (!s.ctx.failed ==> Required(s.log.landed) == Required(s.log.handled))
  }

  // ---- The three projections distribute over appending ----

  lemma {:induction false} ItemsPop(queue: seq<Entry>)
    requires queue != []
    ensures Items(queue) == (if queue[0].Work? then [queue[0].item] else []) + Items(queue[1..])
  {
    if |queue| > 1 {
      var front := queue[..|queue| - 1];
      ItemsPop(front);
      assert front[1..] == queue[1..][..|queue[1..]| - 1];
    }
  }

  lemma ItemsPush(queue: seq<Entry>, e: Entry)
    ensures Items(queue + [e]) == Items(queue) + if e.Work? then [e.item] else []
  {
    assert (queue + [e])[..|queue|] == queue;
  }

  lemma {:induction false} WaitersConcat(a: seq<Item>, b: seq<Item>)
    ensures Waiters(a + b) == Waiters(a) + Waiters(b)
  {
    if b == [] {
      assert a + b == a;
    } else {
      WaitersConcat(a, b[..|b| - 1]);
      assert (a + b)[..|a + b| - 1] == a + b[..|b| - 1];
    }
  }

  lemma {:induction false} RequiredConcat(a: seq<Item>, b: seq<Item>)
    ensures Required(a + b) == Required(a) + Required(b)
  {
    if b == [] {
      assert a + b == a;
    } else {
      RequiredConcat(a, b[..|b| - 1]);
      assert (a + b)[..|a + b| - 1] == a + b[..|b| - 1];
    }
  }

  // ---- Every action keeps the accounts ----

  lemma PushKeeps(s: System, op: Operation, required: bool)
    requires Accounted(s)
    ensures Accounted(Push(s, op, required))
  {
    if !s.ctx.closed {
      var item := Item(op, required, None);
      ItemsPush(s.ctx.queue, Work(item));
      WaitersConcat(s.log.accepted, [item]);
      assert Waiters([item]) == [];
      assert s.log.accepted + [item] == s.log.handled + (Items(s.ctx.queue) + [item]);
    }
  }

  lemma StopsPush(ctx: Context, t: Context, e: Entry)
    requires StopsLast(ctx) && !ctx.closed && e.Work?
    requires t.queue == ctx.queue + [e] && t.closed == ctx.closed && t.stopped == ctx.stopped
    ensures StopsLast(t)
  {
    assert forall i :: 0 <= i < |ctx.queue| ==> ctx.queue[i] in ctx.queue;
  }

  lemma CountingPush(numbers: seq<nat>)
    requires Counting(numbers)
    ensures Counting(numbers + [|numbers|])
  {
  }

  lemma PushWaitingFutures(s: System, op: Operation)
    requires FuturesOk(s) && !s.ctx.closed && |s.log.settled| <= |s.ctx.futures|
    ensures FuturesOk(PushWaiting(s, op))
  {
    var item := Item(op, true, Some(|s.ctx.futures|));
    assert Waiters([item]) == [|s.ctx.futures|];
    hide Waiters;
    WaitersConcat(s.log.accepted, [item]);
    CountingPush(Waiters(s.log.accepted));
    hide Counting;
  }

  lemma PushWaitingKeeps(s: System, op: Operation)
    requires Accounted(s) && !s.ctx.closed
    ensures Accounted(PushWaiting(s, op))
  {
    var item := Item(op, true, Some(|s.ctx.futures|));
    WaitersConcat(s.log.handled, Items(s.ctx.queue));
    PushWaitingFutures(s, op);
    StopsPush(s.ctx, PushWaiting(s, op).ctx, Work(item));
    hide Required, Items, Waiters, StopsLast, FuturesOk;
    ItemsPush(s.ctx.queue, Work(item));
    assert s.log.accepted + [item] == s.log.handled + (Items(s.ctx.queue) + [item]);
  }

  /** The waiter at the head of the queue is the oldest future that is not settled. */
  lemma HeadWaiter(s: System)
    requires Accounted(s) && s.ctx.queue != [] && s.ctx.queue[0].Work?
    ensures var w := s.ctx.queue[0].item.waiter;
            w.Some? ==> w.value == |s.log.settled| < |s.ctx.futures| && s.ctx.futures[w.value].Waiting?
  {
    var item := s.ctx.queue[0].item;
    ItemsPop(s.ctx.queue);
    var rest := Items(s.ctx.queue[1..]);
    assert s.log.accepted == s.log.handled + ([item] + rest);
    WaitersConcat(s.log.handled, [item] + rest);
    WaitersConcat([item], rest);
    if item.waiter.Some? {
      assert Waiters([item]) == [item.waiter.value];
      assert Waiters(s.log.accepted)[|s.log.settled|] == item.waiter.value;
    }
  }

  /** A future raises only when its item was required, and then the failure is on record. */
  lemma WriterKeepsRaised(backend: Backend, s: System, fate: Fate, now: int)
    requires Accounted(s) && s.ctx.queue != [] && s.ctx.queue[0].Work? && !s.ctx.stopped
    ensures var t := WriterStep(backend, s, fate, now); !t.ctx.failed ==> forall f <- t.ctx.futures :: !f.Raised?
  {
    var item := s.ctx.queue[0].item;
    ItemsPop(s.ctx.queue);
    assert (s.log.handled + ([item] + Items(s.ctx.queue[1..])))[|s.log.handled|] == item;
    assert item in s.log.accepted;
    hide Perform, StopsLast, Required, Waiters, Items, Counting;
  }

  lemma WriterKeepsStops(backend: Backend, s: System, fate: Fate, now: int)
    requires StopsLast(s.ctx) && s.ctx.queue != [] && !s.ctx.stopped
    ensures StopsLast(WriterStep(backend, s, fate, now).ctx)
  {
    hide Perform, Settle;
    var q := s.ctx.queue;
    if q[0].Stop? {
      assert forall e <- q[1..] :: e.Stop?;
    }
  }

  lemma WriterKeepsFutures(backend: Backend, s: System, fate: Fate, now: int)
    requires Accounted(s) && s.ctx.queue != [] && s.ctx.queue[0].Work? && !s.ctx.stopped
    ensures var t := WriterStep(backend, s, fate, now);
            && t.log.settled == Waiters(t.log.handled)
            && |t.ctx.futures| == |s.ctx.futures|
            && (forall i :: 0 <= i < |t.ctx.futures| ==> (t.ctx.futures[i].Waiting? <==> |t.log.settled| <= i))
  {
    hide Perform, StopsLast, Required;
    var item := s.ctx.queue[0].item;
    HeadWaiter(s);
    WaitersConcat(s.log.handled, [item]);
    assert Waiters([item]) == if item.waiter.Some? then [item.waiter.value] else [];
  }

  /** What one item adds to the histories. */
  lemma WriterLog(backend: Backend, s: System, fate: Fate, now: int)
    requires s.ctx.queue != [] && s.ctx.queue[0].Work? && !s.ctx.stopped
    ensures var item := s.ctx.queue[0].item;
            var t := WriterStep(backend, s, fate, now);
            && t.log.handled == s.log.handled + [item]
            && (t.log.landed == s.log.landed || t.log.landed == s.log.landed + [item])
            && (item.required && s.ctx.failed ==> t.log.landed == s.log.landed && t.ctx.failed)
            && (s.ctx.failed ==> t.ctx.failed)
            && (item.required && !t.ctx.failed ==> t.log.landed == s.log.landed + [item])
  {
    hide Perform, Settle;
  }

  lemma WriterKeepsRequired(backend: Backend, s: System, fate: Fate, now: int)
    requires Required(s.log.landed) <= Required(s.log.handled)
    requires !s.ctx.failed ==> Required(s.log.landed) == Required(s.log.handled)
    requires s.ctx.queue != [] && s.ctx.queue[0].Work? && !s.ctx.stopped
    ensures var t := WriterStep(backend, s, fate, now);
            && Required(t.log.landed) <= Required(t.log.handled)
            && (!t.ctx.failed ==> Required(t.log.landed) == Required(t.log.handled))
  {
    var item := s.ctx.queue[0].item;
    assert Required([item]) == if item.required then [item] else [];
    hide WriterStep, Required;
    WriterLog(backend, s, fate, now);
    RequiredConcat(s.log.handled, [item]);
    RequiredConcat(s.log.landed, [item]);
  }

  lemma WriterKeeps(backend: Backend, s: System, fate: Fate, now: int)
    requires Accounted(s) && s.ctx.queue != [] && !s.ctx.stopped
    ensures Accounted(WriterStep(backend, s, fate, now))
  {
    hide Perform, StopsLast, Required, Waiters, Settle;
    var q := s.ctx.queue;
    ItemsPop(q);
    WriterKeepsStops(backend, s, fate, now);
    if q[0].Work? {
      WriterKeepsFutures(backend, s, fate, now);
      WriterKeepsRaised(backend, s, fate, now);
      WriterKeepsRequired(backend, s, fate, now);
      assert s.log.handled + ([q[0].item] + Items(q[1..])) == (s.log.handled + [q[0].item]) + Items(q[1..]);
    }
  }

  lemma StopPushed(ctx: Context, t: Context)
    requires StopsLast(ctx) && t.queue == ctx.queue + [Stop] && t.closed && t.stopped == ctx.stopped
    ensures StopsLast(t)
  {
    assert forall i :: 0 <= i < |ctx.queue| ==> ctx.queue[i] in ctx.queue;
  }

  lemma FinishCloseKeeps(s: System, future: nat)
    requires Accounted(s) && CloseResumable(s.ctx, future)
    ensures Accounted(FinishClose(s, future))
  {
    StopPushed(s.ctx, FinishClose(s, future).ctx);
    hide StopsLast, Required, Items, Waiters, Counting;
    ItemsPush(s.ctx.queue, Stop);
    assert s.log.handled + (Items(s.ctx.queue) + []) == s.log.handled + Items(s.ctx.queue);
  }

  /** Accounted reads only these parts of a system. */
  ghost predicate SameAccounts(s: System, t: System) {
    && t.ctx.queue == s.ctx.queue && t.ctx.futures == s.ctx.futures
    && t.ctx.failed == s.ctx.failed && t.ctx.closed == s.ctx.closed && t.ctx.stopped == s.ctx.stopped
    && t.log.(answers := []) == s.log.(answers := [])
  }

  lemma SameAccountsKeeps(s: System, t: System)
    requires Accounted(s) && SameAccounts(s, t)
    ensures Accounted(t)
  {
  }

  /** Tools that submit without waiting. */
  lemma ToolKeepsAccounted(backend: Backend, s: System, a: Action)
    requires Accounted(s) && Enabled(s, a)
    requires a.DoRecordFact? || a.DoPropose? || a.DoHear? || a.DoNote?
    ensures Accounted(Next(backend, s, a))
  {
    hide Accounted, P.Decide, Strip;
    var t := Next(backend, s, a);
    match a {
      case DoRecordFact(key, value) =>
        var hot := s.ctx.hot.(facts := s.ctx.hot.facts[key := value]);
        SameAccountsKeeps(s, s.(ctx := s.ctx.(hot := hot)));
        PushKeeps(s.(ctx := s.ctx.(hot := hot)), Store(Snapshot(hot, "call.fact_recorded", NO_PAYLOAD, InCall)), true);
      case DoNote(name, payload) =>
        PushKeeps(s, Store(Note(name, payload)), false);
      case DoHear(role, text, interrupted) =>
        var transcript := Strip(text);
        var last := if role.User? then Some(transcript) else None;
        var changed := if role.User? then s.(ctx := s.ctx.(hot := s.ctx.hot.(lastRemote := last))) else s;
        SameAccountsKeeps(s, changed);
        PushKeeps(changed, Speak(role, transcript, interrupted, last), true);
      case DoPropose(id, kind, value) =>
        if t != s {
          var hot := t.ctx.hot;
          var changed := s.(ctx := s.ctx.(hot := hot));
          SameAccountsKeeps(s, changed);
          PushKeeps(changed, Store(Snapshot(hot, "call.candidate_detected", NO_PAYLOAD, ActiveOnly)), true);
        }
    }
  }

  /** Tools that submit and wait. */
  lemma WaitingToolKeepsAccounted(backend: Backend, s: System, a: Action)
    requires Accounted(s) && Enabled(s, a) && (a.DoAuthorize? || a.DoSave?)
    ensures Accounted(Next(backend, s, a))
  {
    hide Accounted, P.Decide;
    var t := Next(backend, s, a);
    match a {
      case DoAuthorize(action, payload) =>
        if t.log.accepted != s.log.accepted {
          var op := t.log.accepted[|s.log.accepted|].op;
          PushWaitingKeeps(s, op);
          SameAccountsKeeps(PushWaiting(s, op), t);
        } else {
          SameAccountsKeeps(s, t);
        }
      case DoSave(voice, name, payload, scope) =>
        var changed := s.(ctx := s.ctx.(hot := s.ctx.hot.(voice := voice)));
        SameAccountsKeeps(s, changed);
        if !s.ctx.closed {
          var op := Store(Snapshot(changed.ctx.hot, name, payload, scope));
          PushWaitingKeeps(changed, op);
          SameAccountsKeeps(PushWaiting(changed, op), t);
        }
    }
  }

  lemma CompletionKeepsAccounted(s: System, outcome: Outcome)
    requires Accounted(s)
    ensures Accounted(SubmitCompletion(s, outcome))
  {
    var changed := s.(ctx := s.ctx.(phase := Some(Phase.Closing)));
    SameAccountsKeeps(s, changed);
    if !s.ctx.closed {
      PushWaitingKeeps(changed, Store(Complete(s.ctx.hot, outcome)));
    }
  }

  lemma EndingKeepsAccounted(backend: Backend, s: System, a: Action)
    requires Accounted(s) && Enabled(s, a) && (a.DoFinishCall? || a.DoFinishUnlocked?)
    ensures Accounted(Next(backend, s, a))
  {
    hide Accounted;
    var outcome := OutcomeNow(s, a.success, a.reason, a.summary, if a.DoFinishCall? then a.notes else []);
    CompletionKeepsAccounted(s, outcome);
    SameAccountsKeeps(SubmitCompletion(s, outcome), Next(backend, s, a));
  }

  lemma BarrierKeepsAccounted(backend: Backend, s: System, a: Action)
    requires Accounted(s) && Enabled(s, a) && (a.DoBeginAsk? || a.DoBeginClose?)
    ensures Accounted(Next(backend, s, a))
  {
    hide Accounted;
    if s.ctx.closed {
      SameAccountsKeeps(s, Next(backend, s, a));
    } else {
      PushWaitingKeeps(s, Barrier);
      SameAccountsKeeps(PushWaiting(s, Barrier), Next(backend, s, a));
    }
  }

  /** Actions that submit nothing. */
  lemma QuietKeepsAccounted(backend: Backend, s: System, a: Action)
    requires Accounted(s) && Enabled(s, a)
    requires a.DoUsage? || a.DoResume? || a.DoResumeLoose? || a.DoAsk? || a.DoAnswered? || a.DoWorker? || a.DoOutside?
             || a.DoReadForEnding? || a.DoWriteCompleting? || a.DoWriteCompleted?
    ensures Accounted(Next(backend, s, a))
  {
    hide Accounted, ApplySite, UpdateOf, WriterStep, RecordFact, Propose, Hear, Authorize, Save;
    hide FinishCall, FinishUnlocked, BeginAsk, BeginClose, FinishClose;
    SameAccountsKeeps(s, Next(backend, s, a));
  }

  lemma NextKeepsAccounted(backend: Backend, s: System, a: Action)
    requires Accounted(s) && Enabled(s, a)
    ensures Accounted(Next(backend, s, a))
  {
    hide Accounted;
    if a.DoRecordFact? || a.DoPropose? || a.DoHear? || a.DoNote? {
      ToolKeepsAccounted(backend, s, a);
      hide Next;
    } else if a.DoAuthorize? || a.DoSave? {
      WaitingToolKeepsAccounted(backend, s, a);
      hide Next;
    } else if a.DoFinishCall? || a.DoFinishUnlocked? {
      EndingKeepsAccounted(backend, s, a);
      hide Next;
    } else if a.DoBeginAsk? || a.DoBeginClose? {
      BarrierKeepsAccounted(backend, s, a);
      hide Next;
    } else if a.DoWriter? {
      hide WriterStep;
      WriterKeeps(backend, s, a.fate, a.now);
    } else if a.DoFinishClose? {
      hide FinishClose;
      FinishCloseKeeps(s, a.future);
    } else {
      QuietKeepsAccounted(backend, s, a);
      hide Next;
    }
  }

  lemma {:induction false} RunKeepsAccounted(backend: Backend, s: System, run: seq<Action>)
    requires Accounted(s) && Valid(backend, s, run)
    ensures Accounted(After(backend, s, run))
    decreases |run|
  {
    if run != [] {
      NextKeepsAccounted(backend, s, run[0]);
      RunKeepsAccounted(backend, Next(backend, s, run[0]), run[1..]);
    }
  }

  // ---- The theorems ----

  /** Fail-stop: the required operations that took effect are a prefix, in submission order, of
      those submitted. */
  lemma FailStopPrefix(backend: Backend, s: System, run: seq<Action>)
    requires Initial(s) && Valid(backend, s, run)
    ensures var t := After(backend, s, run);
            Required(t.log.landed) <= Required(t.log.accepted)
  {
    RunKeepsAccounted(backend, s, run);
    var t := After(backend, s, run);
    RequiredConcat(t.log.handled, Items(t.ctx.queue));
  }

  /** Shutdown: once the writer has stopped, every accepted item was dequeued exactly once and in
      order, and every future was settled exactly once. */
  lemma ShutdownAccounts(backend: Backend, s: System, run: seq<Action>)
    requires Initial(s) && Valid(backend, s, run)
    requires After(backend, s, run).ctx.stopped
    ensures var t := After(backend, s, run);
            && t.log.handled == t.log.accepted
            && t.log.settled == seq(|t.ctx.futures|, i => i)
            && (forall f <- t.ctx.futures :: !f.Waiting?)
  {
    RunKeepsAccounted(backend, s, run);
    var t := After(backend, s, run);
    hide After, Valid, Waiters, Required;
    NoItems(t.ctx.queue);
  }

  lemma {:induction false} NoItems(queue: seq<Entry>)
    requires forall e <- queue :: e.Stop?
    ensures Items(queue) == []
  {
    if queue != [] {
      assert queue[|queue| - 1] in queue;
      NoItems(queue[..|queue| - 1]);
    }
  }

  /** Nothing is accepted after closing, and closing is never undone. */
  lemma NothingAcceptedOnceClosed(backend: Backend, s: System, a: Action)
    requires s.ctx.closed && Enabled(s, a)
    ensures Next(backend, s, a).log.accepted == s.log.accepted
    ensures Next(backend, s, a).ctx.closed
  {
  }

  /** The writer that is left alone drains the queue: it takes one step for each element before the
      first `Stop`, and then stops. */
  function Drain(backend: Backend, s: System, fates: nat -> Fate, now: int): System
    requires s.ctx.closed && StopsLast(s.ctx)
    decreases !s.ctx.stopped, |s.ctx.queue|
  {
    if s.ctx.stopped then s
    else
      var t := WriterStep(backend, s, fates(|s.ctx.queue|), now);
      assert s.ctx.queue[0].Work? ==> t.ctx.queue != [] && t.ctx.queue[|t.ctx.queue| - 1] == s.ctx.queue[|s.ctx.queue| - 1];
      assert StopsLast(t.ctx);
      Drain(backend, t, fates, now)
  }

  lemma {:induction false} DrainSettlesEverything(backend: Backend, s: System, fates: nat -> Fate, now: int)
    requires Accounted(s) && s.ctx.closed
    ensures var t := Drain(backend, s, fates, now);
            && t.ctx.stopped && Accounted(t)
            && t.log.handled == t.log.accepted == s.log.accepted
            && (forall f <- t.ctx.futures :: !f.Waiting?)
    decreases !s.ctx.stopped, |s.ctx.queue|
  {
    if s.ctx.stopped {
      NoItems(s.ctx.queue);
    } else {
      WriterKeeps(backend, s, fates(|s.ctx.queue|), now);
      DrainSettlesEverything(backend, WriterStep(backend, s, fates(|s.ctx.queue|), now), fates, now);
    }
  }

  // ---- Awaiting a future while nothing but the writer runs ----

  /** Somebody waits, so the writer has work and has not stopped. */
  lemma WaitingHasWork(s: System, future: nat)
    requires Accounted(s) && future < |s.ctx.futures| && s.ctx.futures[future].Waiting?
    ensures Items(s.ctx.queue) != [] && s.ctx.queue != [] && !s.ctx.stopped
  {
    WaitersConcat(s.log.handled, Items(s.ctx.queue));
    if forall e <- s.ctx.queue :: e.Stop? {
      NoItems(s.ctx.queue);
    }
  }

  /** The writer runs until the future is settled. */
  ghost function AwaitFuture(backend: Backend, s: System, future: nat, fates: nat -> Fate, now: int): (t: System)
    requires Accounted(s) && future < |s.ctx.futures|
    ensures Accounted(t) && |t.ctx.futures| == |s.ctx.futures| && !t.ctx.futures[future].Waiting?
    ensures t.log.accepted == s.log.accepted && t.ctx.closed == s.ctx.closed && t.ctx.hot == s.ctx.hot
    ensures t.ctx.closers == s.ctx.closers && t.ending == s.ending
    decreases |s.ctx.queue|
  {
    if !s.ctx.futures[future].Waiting? then s
    else
      WaitingHasWork(s, future);
      WriterKeeps(backend, s, fates(|s.ctx.queue|), now);
      AwaitFuture(backend, WriterStep(backend, s, fates(|s.ctx.queue|), now), future, fates, now)
  }

  /** Awaiting the newest submission means that everything accepted has been handled; if it succeeds
      without a required failure, every required operation has taken effect. */
  lemma AwaitNewest(backend: Backend, s: System, fates: nat -> Fate, now: int)
    requires Accounted(s) && s.log.accepted != [] && |s.ctx.futures| > 0
    requires s.log.accepted[|s.log.accepted| - 1].waiter == Some(|s.ctx.futures| - 1)
    ensures var t := AwaitFuture(backend, s, |s.ctx.futures| - 1, fates, now);
            && t.log.handled == t.log.accepted
            && (!t.ctx.failed ==> t.ctx.futures[|s.ctx.futures| - 1].Done?)
            && (!t.ctx.failed ==> Required(t.log.landed) == Required(t.log.accepted))
  {
    hide AwaitFuture, StopsLast;
    var t := AwaitFuture(backend, s, |s.ctx.futures| - 1, fates, now);
    var left := Items(t.ctx.queue);
    if left != [] {
      WaitersConcat(t.log.handled, left);
      assert false;
    }
  }
}
