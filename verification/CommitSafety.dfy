/** Commitments are never lost and never reported early. */
module CommitSafety {
  import opened Base
  import opened Models
  import opened Rows
  import opened CallSites
  import opened WriteBehind
  import opened QueueStates
  import P = Policy

  /** The parts of a system that commitments depend on. */
  datatype View = View(
    queue: seq<Entry>,
    futures: seq<Future>,
    holder: Holder,
    hot: seq<Commitment>,
    stored: seq<Commitment>,
    status: Status,
    failed: bool)

  function ViewOf(s: System): View {
    View(s.ctx.queue, s.ctx.futures, s.ctx.holder, s.ctx.hot.commitments,
         s.row.call.state.commitments, s.row.call.status, s.ctx.failed)
  }

  predicate Awaits(holder: Holder) {
    holder.Committing? || holder.Saving? || holder.Finishing? || holder.Flushing?
  }

  /** The commitment whose operation is still in the queue, with its future. */
  function Flight(v: View): Option<(Commitment, nat)> {
    if v.holder.Committing? && v.holder.future < |v.futures| && v.futures[v.holder.future].Waiting?
    then Some((v.holder.commitment, v.holder.future)) else None
  }

  /** A commitment has become durable and its tool has not woken up yet. */
  predicate Landed(v: View) {
    v.holder.Committing? && v.holder.future < |v.futures| && v.futures[v.holder.future].Done?
  }

  predicate WaitedBy(e: Entry, future: nat) {
    e.Work? && e.item.waiter == Some(future)
  }

  predicate IsCommit(e: Entry) {
    e.Work? && e.item.op.Store? && e.item.op.site.Commit?
  }

  /** Every queued snapshot holds the hot commitments, but for the one of the commitment in flight,
      which holds one more and is followed by no other snapshot. */
  predicate Tidy(queue: seq<Entry>, hot: seq<Commitment>, flight: Option<(Commitment, nat)>) {
    if queue == [] then flight.None?
    else
      var e, rest := queue[0], queue[1..];
      if flight.Some? && WaitedBy(e, flight.value.1) then
        IsCommit(e) && StateOf(e).value.commitments == hot + [flight.value.0] && NoStates(rest)
      else
        (StateOf(e).Some? ==> !IsCommit(e) && StateOf(e).value.commitments == hot) && Tidy(rest, hot, flight)
  }

  predicate PreActive(status: Status) {
    status in {Created, Validating, Queued, Prewarming, Dialing, Ringing, Connected}
  }

  /** The stored list is the hot list, or has exactly one more commitment: a landed one, or one
      whose write took effect although it raised. */
  predicate OneAheadAtMost(v: View) {
    && (Landed(v) ==> v.stored == v.hot + [v.holder.commitment])
    && (!Landed(v) && !v.failed ==> v.stored == v.hot)
    && (v.stored == v.hot || (|v.stored| == |v.hot| + 1 && v.hot <= v.stored))
    && (PreActive(v.status) ==> v.stored == v.hot)
  }

  predicate QueueOk(queue: seq<Entry>, futures: nat) {
    forall e <- queue :: e.Work? ==> Queueable(e.item) && (e.item.waiter.Some? ==> e.item.waiter.value < futures)
  }

  ghost predicate Safe(v: View) {
    && (Awaits(v.holder) ==> v.holder.future < |v.futures|)
    && QueueOk(v.queue, |v.futures|)
    && Tidy(v.queue, v.hot, Flight(v))
    && (v.holder.Committing? && Flight(v).None? ==> NoStates(v.queue))
    && OneAheadAtMost(v)
  }

  // ---- Tidy under pushing ----

  lemma {:induction false} TidyPush(queue: seq<Entry>, hot: seq<Commitment>, flight: Option<(Commitment, nat)>, e: Entry)
    requires Tidy(queue, hot, flight)
    requires flight.Some? ==> !WaitedBy(e, flight.value.1) && StateOf(e).None?
    requires StateOf(e).Some? ==> !IsCommit(e) && StateOf(e).value.commitments == hot
    ensures Tidy(queue + [e], hot, flight)
    decreases |queue|
  {
    if queue == [] {
      assert (queue + [e])[1..] == [];
    } else {
      assert (queue + [e])[1..] == queue[1..] + [e];
      if !(flight.Some? && WaitedBy(queue[0], flight.value.1)) {
        TidyPush(queue[1..], hot, flight, e);
      }
    }
  }

  lemma {:induction false} TidyPushCommit(queue: seq<Entry>, hot: seq<Commitment>, e: Entry, c: Commitment, future: nat)
    requires Tidy(queue, hot, None)
    requires forall x <- queue :: !WaitedBy(x, future)
    requires WaitedBy(e, future) && IsCommit(e) && StateOf(e).value.commitments == hot + [c]
    ensures Tidy(queue + [e], hot, Some((c, future)))
    decreases |queue|
  {
    assert (queue + [e])[1..] == if queue == [] then [] else queue[1..] + [e];
    if queue != [] {
      assert queue[0] in queue;
      TidyPushCommit(queue[1..], hot, e, c, future);
    }
  }

  lemma {:induction false} TidyWithoutStates(queue: seq<Entry>, hot: seq<Commitment>)
    requires NoStates(queue)
    ensures Tidy(queue, hot, None)
    decreases |queue|
  {
    if queue != [] {
      assert queue[0] in queue;
      TidyWithoutStates(queue[1..], hot);
    }
  }

  // ---- The ways a view can change ----

  /** Work is pushed; a waiting submission brings a new future. */
  function Pushed(v: View, item: Item, holder: Holder): View {
    v.(queue := v.queue + [Work(item)],
       futures := if item.waiter.Some? then v.futures + [Waiting] else v.futures,
       holder := holder)
  }

  ghost predicate FreshWaiter(v: View, item: Item) {
    item.waiter.Some? ==> item.waiter.value == |v.futures|
  }

  lemma PushKeepsSafe(v: View, item: Item, holder: Holder)
    requires Safe(v) && Queueable(item) && FreshWaiter(v, item)
    requires holder == v.holder || (v.holder.Nobody? && !holder.Committing? &&
               (Awaits(holder) ==> item.waiter == Some(holder.future)))
    requires StateOf(Work(item)).Some? ==>
               !v.holder.Committing? && !IsCommit(Work(item)) && StateOf(Work(item)).value.commitments == v.hot
    ensures Safe(Pushed(v, item, holder))
  {
    hide Queueable;
    var t := Pushed(v, item, holder);
    assert Flight(t) == Flight(v);
    TidyPush(v.queue, v.hot, Flight(v), Work(item));
  }

  lemma PushStopKeepsSafe(v: View)
    requires Safe(v)
    ensures Safe(v.(queue := v.queue + [Stop]))
  {
    var t := v.(queue := v.queue + [Stop]);
    assert Flight(t) == Flight(v);
    TidyPush(v.queue, v.hot, Flight(v), Stop);
  }

  lemma PushCommitKeepsSafe(v: View, state: CallState, c: Commitment)
    requires Safe(v) && v.holder.Nobody? && state.commitments == v.hot + [c]
    ensures Safe(Pushed(v, Item(Store(Commit(state, c)), true, Some(|v.futures|)), Committing(c, |v.futures|)))
  {
    hide Tidy;
    var item := Item(Store(Commit(state, c)), true, Some(|v.futures|));
    var t := Pushed(v, item, Committing(c, |v.futures|));
    assert Flight(t) == Some((c, |v.futures|));
    TidyPushCommit(v.queue, v.hot, Work(item), c, |v.futures|);
  }

  /** The holder wakes up; a landed commitment enters the hot state. */
  lemma ResumeKeepsSafe(v: View, holder: Holder)
    requires Safe(v) && Awaits(v.holder) && !v.futures[v.holder.future].Waiting?
    requires !Awaits(holder)
    ensures Safe(v.(holder := holder, hot := if Landed(v) then v.hot + [v.holder.commitment] else v.hot))
  {
    var t := v.(holder := holder, hot := if Landed(v) then v.hot + [v.holder.commitment] else v.hot);
    if v.holder.Committing? {
      TidyWithoutStates(v.queue, t.hot);
    }
  }

  lemma ReleaseKeepsSafe(v: View)
    requires Safe(v) && v.holder.Asking?
    ensures Safe(v.(holder := Nobody))
  {
  }

  /** A direct write keeps the stored commitments, or replaces them by the hot ones before the call
      is active. */
  lemma DirectKeepsSafe(v: View, stored: seq<Commitment>, status: Status)
    requires Safe(v)
    requires stored == v.stored || (stored == v.hot && PreActive(v.status))
    requires PreActive(status) ==> PreActive(v.status)
    ensures Safe(v.(stored := stored, status := status))
  {
    var t := v.(stored := stored, status := status);
    assert Flight(t) == Flight(v) && Landed(t) == Landed(v);
  }

  // ---- The writer ----

  lemma WriterKeepsSafe(backend: Backend, s: System, fate: Fate, now: int)
    requires Safe(ViewOf(s)) && s.ctx.queue != [] && !s.ctx.stopped
    ensures Safe(ViewOf(WriterStep(backend, s, fate, now)))
    ensures s.row.call.state.commitments <= WriterStep(backend, s, fate, now).row.call.state.commitments
  {
    var v := ViewOf(s);
    var t := WriterStep(backend, s, fate, now);
    var e := v.queue[0];
    assert e in v.queue;
    if e.Work? {
      WriterRow(backend, s, fate, now);
      if Flight(v).Some? && WaitedBy(e, Flight(v).value.1) {
        WriterLandsCommit(backend, s, fate, now);
      } else {
        WriterKeepsOthers(backend, s, fate, now);
      }
    }
  }

  lemma WriterLandsCommit(backend: Backend, s: System, fate: Fate, now: int)
    requires Safe(ViewOf(s)) && s.ctx.queue != [] && !s.ctx.stopped
    requires Flight(ViewOf(s)).Some? && WaitedBy(s.ctx.queue[0], Flight(ViewOf(s)).value.1)
    ensures Safe(ViewOf(WriterStep(backend, s, fate, now)))
    ensures s.row.call.state.commitments <= WriterStep(backend, s, fate, now).row.call.state.commitments
  {
    hide Perform;
    var v := ViewOf(s);
    var e := v.queue[0];
    assert e in v.queue;
    WriterRow(backend, s, fate, now);
    TidyWithoutStates(v.queue[1..], v.hot);
  }

  lemma WriterKeepsOthers(backend: Backend, s: System, fate: Fate, now: int)
    requires Safe(ViewOf(s)) && s.ctx.queue != [] && !s.ctx.stopped && s.ctx.queue[0].Work?
    requires Flight(ViewOf(s)).Some? ==> !WaitedBy(s.ctx.queue[0], Flight(ViewOf(s)).value.1)
    ensures Safe(ViewOf(WriterStep(backend, s, fate, now)))
    ensures s.row.call.state.commitments <= WriterStep(backend, s, fate, now).row.call.state.commitments
  {
    hide Perform;
    var v := ViewOf(s);
    var e := v.queue[0];
    assert e in v.queue;
    WriterRow(backend, s, fate, now);
    var w := ViewOf(WriterStep(backend, s, fate, now));
    assert Flight(w) == Flight(v) && Landed(w) == Landed(v);
  }
}
