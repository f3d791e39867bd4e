/** Completed calls tell the truth: the outcome of a completed call lists the facts and commitments
    of its durable state, also when facts are recorded after finish_call. */
module OutcomeTruth {
  import opened Base
  import opened Models
  import opened Rows
  import opened CallSites
  import opened WriteBehind
  import opened QueueStates
  import opened CommitSafety
  import opened CommitRuns
  import P = Policy

  predicate Tells(outcome: Outcome, state: CallState) {
    outcome.facts == state.facts && outcome.commitments == state.commitments
  }

  predicate SameContent(a: CallState, b: CallState) {
    a.facts == b.facts && a.commitments == b.commitments
  }

  /** An entry that fails once the call is completing, and with it every later required one. */
  predicate Doomed(e: Entry) {
    && e.Work? && e.item.required && e.item.op.Store?
    && match e.item.op.site
       case Snapshot(_, _, _, scope) => !scope.UntilCompletion?
       case _ => true
  }

  predicate SomeDoomed(queue: seq<Entry>) {
    exists e <- queue :: Doomed(e)
  }

  /** Up to the first doomed entry every queued snapshot has the content of `state`. */
  predicate Compatible(queue: seq<Entry>, state: CallState) {
    queue == [] || Doomed(queue[0])
    || ((StateOf(queue[0]).Some? ==> SameContent(StateOf(queue[0]).value, state)) && Compatible(queue[1..], state))
  }

  /** Nothing behind a completion with snapshot `state` can change the content of the stored state:
      neither the queue nor a snapshot still to be taken. */
  predicate Sealed(queue: seq<Entry>, state: CallState, ctx: Context) {
    Compatible(queue, state) && (SomeDoomed(queue) || ctx.closed || SameContent(ctx.hot, state))
  }

  /** Every queued completion tells the truth about its snapshot and seals what follows. */
  predicate CompletionsSealed(queue: seq<Entry>, ctx: Context) {
    queue != [] ==>
      && (IsCompletion(queue[0]) ==>
            Tells(queue[0].item.op.site.outcome, queue[0].item.op.site.state)
            && Sealed(queue[1..], queue[0].item.op.site.state, ctx))
      && CompletionsSealed(queue[1..], ctx)
  }

  ghost predicate Truthful(s: System) {
    var call := s.row.call;
    && (call.status.Completing? || call.status.Completed? ==>
          call.outcome.Some? && Tells(call.outcome.value, call.state))
    && (call.outcome.Some? ==> call.status.Completing? || call.status.Terminal())
    && (call.status.Completing? && !s.ctx.failed ==> Sealed(s.ctx.queue, call.state, s.ctx))
    && (!s.ctx.failed ==> CompletionsSealed(s.ctx.queue, s.ctx))
    // a commitment lands only while the call is in progress
    && (Landed(ViewOf(s)) && !s.ctx.closed ==> !call.status.Completing?)
    // the end of the call
    && (s.ctx.stopped ==> s.ctx.closed && forall e <- s.ctx.queue :: e.Stop?)
    && (!s.ending.NotBegun? ==> s.ctx.closed && s.ctx.stopped)
    && (s.ending.Hangup? ==> Tells(s.ending.outcome, call.state))
    && (s.ending.Enriching? && call.status.Completing? ==> Tells(s.ending.outcome, call.state))
  }

  // ---- Pushing ----

  /** What may follow a completion without breaking its seal, given whether one before it is doomed. */
  predicate Harmless(e: Entry, state: CallState) {
    Doomed(e) || (StateOf(e).Some? ==> SameContent(StateOf(e).value, state))
  }

  lemma {:induction false} CompatiblePush(queue: seq<Entry>, state: CallState, e: Entry)
    requires Compatible(queue, state)
    requires SomeDoomed(queue) || Harmless(e, state)
    ensures Compatible(queue + [e], state)
    decreases |queue|
  {
    assert (queue + [e])[1..] == if queue == [] then [] else queue[1..] + [e];
    if queue == [] {
      assert Compatible([], state);
    } else if !Doomed(queue[0]) {
      assert SomeDoomed(queue) ==> SomeDoomed(queue[1..]);
      CompatiblePush(queue[1..], state, e);
    }
  }

  /** A push together with a change of the hot state: either the entry is doomed, or it is harmless
      for the old hot state and the hot content stays. */
  ghost predicate Respectful(e: Entry, ctx: Context, ctx': Context) {
    || Doomed(e)
    || ctx'.closed
    || (SameContent(ctx'.hot, ctx.hot) && (StateOf(e).Some? ==> SameContent(StateOf(e).value, ctx.hot)))
  }

  lemma SealedPush(queue: seq<Entry>, state: CallState, ctx: Context, e: Entry, ctx': Context)
    requires Sealed(queue, state, ctx) && Respectful(e, ctx, ctx')
    requires ctx.closed ==> ctx'.closed && StateOf(e).None?
    requires ctx'.closed ==> StateOf(e).None?
    ensures Sealed(queue + [e], state, ctx')
  {
    CompatiblePush(queue, state, e);
    if SomeDoomed(queue) {
      var x :| x in queue && Doomed(x);
      assert x in queue + [e];
    }
    assert e in queue + [e];
  }

  lemma {:induction false} CompletionsPush(queue: seq<Entry>, ctx: Context, e: Entry, ctx': Context)
    requires CompletionsSealed(queue, ctx) && Respectful(e, ctx, ctx')
    requires ctx.closed ==> ctx'.closed && StateOf(e).None?
    requires ctx'.closed ==> StateOf(e).None?
    requires IsCompletion(e) ==>
               Tells(e.item.op.site.outcome, e.item.op.site.state) && SameContent(ctx'.hot, e.item.op.site.state)
    ensures CompletionsSealed(queue + [e], ctx')
    decreases |queue|
  {
    assert (queue + [e])[1..] == if queue == [] then [] else queue[1..] + [e];
    if queue == [] {
      assert CompletionsSealed([], ctx') && ((queue + [e])[1..] == []);
    } else {
      CompletionsPush(queue[1..], ctx, e, ctx');
      if IsCompletion(queue[0]) {
        SealedPush(queue[1..], queue[0].item.op.site.state, ctx, e, ctx');
      }
    }
  }

  lemma PushTruthful(s: System, t: System, e: Entry)
    requires Truthful(s)
    requires t.row == s.row && t.ending == s.ending && t.ctx.queue == s.ctx.queue + [e]
    requires t.ctx.failed == s.ctx.failed && t.ctx.stopped == s.ctx.stopped
    requires Respectful(e, s.ctx, t.ctx)
    requires s.ctx.closed ==> e.Stop?
    requires t.ctx.closed == (s.ctx.closed || e.Stop?)
    requires IsCompletion(e) ==>
               Tells(e.item.op.site.outcome, e.item.op.site.state) && SameContent(t.ctx.hot, e.item.op.site.state)
    requires Landed(ViewOf(t)) ==> Landed(ViewOf(s))
    ensures Truthful(t)
  {
    hide Sealed, CompletionsSealed, Doomed, Landed;
    if !s.ctx.failed {
      CompletionsPush(s.ctx.queue, s.ctx, e, t.ctx);
      if s.row.call.status.Completing? {
        SealedPush(s.ctx.queue, s.row.call.state, s.ctx, e, t.ctx);
      }
    }
    if t.ctx.stopped {
      assert t.ctx.closed;
    }
  }

  // ---- Changing the hot state without pushing ----

  lemma {:induction false} CompletionsHot(queue: seq<Entry>, ctx: Context, ctx': Context)
    requires CompletionsSealed(queue, ctx)
    requires ctx'.closed || (!ctx.closed && SameContent(ctx'.hot, ctx.hot)) || NoStates(queue)
    ensures CompletionsSealed(queue, ctx')
    decreases |queue|
  {
    if queue != [] {
      assert queue[0] in queue;
      CompletionsHot(queue[1..], ctx, ctx');
    }
  }

  lemma QuietTruthful(s: System, t: System)
    requires Truthful(s)
    requires t.row == s.row && t.ending == s.ending && t.ctx.queue == s.ctx.queue
    requires t.ctx.failed == s.ctx.failed && t.ctx.stopped == s.ctx.stopped && t.ctx.closed == s.ctx.closed
    requires s.ctx.closed || SameContent(t.ctx.hot, s.ctx.hot)
    requires Landed(ViewOf(t)) ==> Landed(ViewOf(s))
    ensures Truthful(t)
  {
    hide Compatible, SomeDoomed, Landed;
    if !s.ctx.failed {
      CompletionsHot(s.ctx.queue, s.ctx, t.ctx);
    }
    hide CompletionsSealed;
  }

  /** A landed commitment enters the hot state: no completion can be queued or performed then. */
  lemma ResumeTruthful(s: System)
    requires Truthful(s) && Safe(ViewOf(s)) && Resumable(s.ctx)
    ensures Truthful(Resume(s))
  {
    var t := Resume(s);
    if Landed(ViewOf(s)) {
      CommittingHasNoStates(s);
      if !s.ctx.failed {
        CompletionsHot(s.ctx.queue, s.ctx, t.ctx);
      }
      hide CompletionsSealed, Compatible, SomeDoomed, Safe;
    } else {
      hide Safe;
      QuietTruthful(s, t);
    }
  }

  lemma CommittingHasNoStates(s: System)
    requires Safe(ViewOf(s)) && Landed(ViewOf(s))
    ensures NoStates(s.ctx.queue)
  {
  }

  // ---- The writer ----

  lemma WriterTruthful(backend: Backend, s: System, fate: Fate, now: int)
    requires Truthful(s) && Safe(ViewOf(s)) && s.ctx.queue != [] && !s.ctx.stopped
    requires s.ctx.queue[0].Stop? ==> forall e <- s.ctx.queue :: e.Stop?
    requires s.ctx.queue[0].Stop? ==> s.ctx.closed
    ensures Truthful(WriterStep(backend, s, fate, now))
  {
    var e := s.ctx.queue[0];
    assert e in s.ctx.queue;
    if e.Stop? {
      StopTruthful(backend, s, fate, now);
    } else {
      WriterRow(backend, s, fate, now);
      if s.row.call.status.Completing? {
        WriterWhileCompleting(backend, s, fate, now);
      } else {
        WriterBeforeCompleting(backend, s, fate, now);
      }
    }
  }

  lemma StopTruthful(backend: Backend, s: System, fate: Fate, now: int)
    requires Truthful(s) && s.ctx.queue != [] && !s.ctx.stopped && s.ctx.queue[0].Stop? && s.ctx.closed
    requires forall e <- s.ctx.queue :: e.Stop?
    ensures Truthful(WriterStep(backend, s, fate, now))
  {
    hide SomeDoomed;
    if !s.ctx.failed {
      CompletionsHot(s.ctx.queue[1..], s.ctx, WriterStep(backend, s, fate, now).ctx);
    }
  }

  lemma NotLandedWhileCompleting(backend: Backend, s: System, fate: Fate, now: int)
    requires Truthful(s) && Safe(ViewOf(s)) && s.ctx.queue != [] && !s.ctx.stopped && s.ctx.queue[0].Work?
    requires s.row.call.status.Completing? && !s.ctx.closed
    ensures !Landed(ViewOf(WriterStep(backend, s, fate, now)))
  {
    hide OneAheadAtMost, CompletionsSealed, Sealed, AppendTurn;
    var e := s.ctx.queue[0];
    assert e in s.ctx.queue;
  }

  /** While the call is completing the head either fails, or keeps the content. */
  lemma WriterKeepsSealed(backend: Backend, s: System, fate: Fate, now: int)
    requires Truthful(s) && s.ctx.queue != [] && !s.ctx.stopped
    requires s.ctx.queue[0].Work? && Queueable(s.ctx.queue[0].item)
    requires s.row.call.status.Completing?
    ensures var t := WriterStep(backend, s, fate, now);
            && t.row.call.status.Completing? && t.row.call.outcome == s.row.call.outcome
            && SameContent(t.row.call.state, s.row.call.state)
            && (!t.ctx.failed ==> Sealed(t.ctx.queue, t.row.call.state, t.ctx))
  {
    hide Perform, CompletionsSealed, Landed;
    WriterRow(backend, s, fate, now);
    var e := s.ctx.queue[0];
    assert SomeDoomed(s.ctx.queue) ==> Doomed(e) || SomeDoomed(s.ctx.queue[1..]);
    CompatibleSame(s.ctx.queue[1..], s.row.call.state, WriterStep(backend, s, fate, now).row.call.state);
  }

  lemma {:induction false} CompatibleSame(queue: seq<Entry>, a: CallState, b: CallState)
    requires SameContent(a, b)
    ensures Compatible(queue, a) == Compatible(queue, b)
    decreases |queue|
  {
    if queue != [] {
      CompatibleSame(queue[1..], a, b);
    }
  }

  lemma WriterWhileCompleting(backend: Backend, s: System, fate: Fate, now: int)
    requires Truthful(s) && Safe(ViewOf(s)) && s.ctx.queue != [] && !s.ctx.stopped && s.ctx.queue[0].Work?
    requires s.row.call.status.Completing?
    ensures Truthful(WriterStep(backend, s, fate, now))
  {
    HeadQueueable(s);
    hide Safe, Perform, Sealed, Landed;
    WriterKeepsSealed(backend, s, fate, now);
    if !s.ctx.closed {
      NotLandedWhileCompleting(backend, s, fate, now);
    }
    if !WriterStep(backend, s, fate, now).ctx.failed {
      CompletionsHot(s.ctx.queue[1..], s.ctx, WriterStep(backend, s, fate, now).ctx);
    }
  }

  lemma HeadQueueable(s: System)
    requires Safe(ViewOf(s)) && s.ctx.queue != [] && s.ctx.queue[0].Work?
    ensures Queueable(s.ctx.queue[0].item)
  {
    assert s.ctx.queue[0] in s.ctx.queue;
  }

  /** Before that, a completion that lands finds everything behind it sealed. */
  lemma WriterBeforeCompleting(backend: Backend, s: System, fate: Fate, now: int)
    requires Truthful(s) && Safe(ViewOf(s)) && s.ctx.queue != [] && !s.ctx.stopped && s.ctx.queue[0].Work?
    requires !s.row.call.status.Completing?
    ensures Truthful(WriterStep(backend, s, fate, now))
  {
    hide Perform, OneAheadAtMost;
    var e := s.ctx.queue[0];
    assert e in s.ctx.queue;
    WriterRow(backend, s, fate, now);
    var t := WriterStep(backend, s, fate, now);
    if !t.ctx.failed {
      CompletionsHot(s.ctx.queue[1..], s.ctx, t.ctx);
    }
  }
}
