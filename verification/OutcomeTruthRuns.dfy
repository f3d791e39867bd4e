/** OutcomeTruth over every run. */
module OutcomeTruthRuns {
  import opened Base
  import opened Models
  import opened Rows
  import opened CallSites
  import opened WriteBehind
  import opened QueueStates
  import opened CommitSafety
  import opened CommitRuns
  import opened OutcomeTruth
  import A = Accounting
  import P = Policy

  /** Facts, candidates, commitments and reports: doomed once the call is completing, or harmless. */
  lemma SnapshotToolTruthful(backend: Backend, s: System, a: Action)
    requires Truthful(s) && Enabled(s, a)
    requires a.DoRecordFact? || a.DoPropose? || a.DoAuthorize? || a.DoSave?
    ensures Truthful(Next(backend, s, a))
  {
    hide Truthful, P.Decide, Sealed, CompletionsSealed;
    var t := Next(backend, s, a);
    if t.log.accepted == s.log.accepted {
      QuietTruthful(s, t);
    } else {
      PushTruthful(s, t, t.ctx.queue[|s.ctx.queue|]);
    }
  }

  lemma FinishTruthful(backend: Backend, s: System, a: Action)
    requires Truthful(s) && Enabled(s, a) && (a.DoFinishCall? || a.DoFinishUnlocked?)
    ensures Truthful(Next(backend, s, a))
  {
    hide Truthful, Sealed, CompletionsSealed;
    var t := Next(backend, s, a);
    if t.log.accepted == s.log.accepted {
      QuietTruthful(s, t);
    } else {
      PushTruthful(s, t, t.ctx.queue[|s.ctx.queue|]);
    }
  }

  lemma OtherToolTruthful(backend: Backend, s: System, a: Action)
    requires Truthful(s) && Enabled(s, a)
    requires a.DoBeginAsk? || a.DoHear? || a.DoNote? || a.DoBeginClose?
    ensures Truthful(Next(backend, s, a))
  {
    hide Truthful, Sealed, CompletionsSealed, Strip;
    var t := Next(backend, s, a);
    if t.log.accepted == s.log.accepted {
      QuietTruthful(s, t);
    } else {
      PushTruthful(s, t, t.ctx.queue[|s.ctx.queue|]);
    }
  }

  lemma CloseTruthful(s: System, future: nat)
    requires Truthful(s) && CloseResumable(s.ctx, future)
    ensures Truthful(FinishClose(s, future))
  {
    if s.ctx.stopped {
      StoppedClose(s, future);
    } else {
      hide Truthful;
      PushTruthful(s, FinishClose(s, future), Stop);
    }
  }

  lemma StoppedClose(s: System, future: nat)
    requires Truthful(s) && CloseResumable(s.ctx, future) && s.ctx.stopped
    ensures Truthful(FinishClose(s, future))
  {
    var t := FinishClose(s, future);
    if !s.ctx.failed {
      CompletionsPush(s.ctx.queue, s.ctx, Stop, t.ctx);
      if s.row.call.status.Completing? {
        SealedPush(s.ctx.queue, s.row.call.state, s.ctx, Stop, t.ctx);
      }
    }
    hide Sealed, CompletionsSealed;
  }

  // ---- Direct writes ----

  /** A stored row that keeps facts, commitments and outcome and does not become completing. */
  lemma RowTruthful(s: System, t: System)
    requires Truthful(s)
    requires t.ctx.queue == s.ctx.queue && t.ctx.failed == s.ctx.failed && t.ending == s.ending
    requires t.ctx.stopped == s.ctx.stopped && t.ctx.closed == s.ctx.closed
    requires SameContent(t.ctx.hot, s.ctx.hot)
    requires Landed(ViewOf(t)) ==> Landed(ViewOf(s))
    requires var a, b := s.row.call, t.row.call;
             && b.outcome == a.outcome
             && (a.status.Completing? || !s.ending.NotBegun? ==> SameContent(b.state, a.state))
             && (b.status.Completing? ==> a.status.Completing?)
             && (b.status.Completed? ==> a.status.Completed? && SameContent(b.state, a.state))
             && (a.status.Completing? || a.status.Terminal() ==> b.status.Completing? || b.status.Terminal())
    ensures Truthful(t)
  {
    hide Landed;
    if !s.ctx.failed {
      if s.ctx.closed {
        CompletionsHot(s.ctx.queue, s.ctx, t.ctx);
      } else {
        CompletionsHot(s.ctx.queue, s.ctx, t.ctx);
      }
      if s.row.call.status.Completing? {
        CompatibleSame(s.ctx.queue, s.row.call.state, t.row.call.state);
      }
    }
    hide CompletionsSealed, Compatible, SomeDoomed;
  }

  /** Questions, answers and failures leave outcome and content, and no call gets completing by them. */
  lemma OutsideKeepsOutcome(backend: Backend, row: Row, site: Site, now: int)
    requires OutsideSite(site, row.call.state)
             || (site.AskInput? && site.state == row.call.state.(pendingInput := site.state.pendingInput))
    ensures var a, b := row.call, Direct(backend, row, site, now).call;
            && b.outcome == a.outcome && SameContent(b.state, a.state)
            && (b.status.Completing? ==> a.status.Completing?)
            && (b.status.Completed? ==> a.status.Completed?)
            && (a.status.Completing? || a.status.Terminal() ==> b.status.Completing? || b.status.Terminal())
  {
    DirectEffect(backend, row, site, now);
    hide ApplySite;
  }

  lemma WorkerKeepsOutcome(backend: Backend, row: Row, site: Site, hot: CallState, now: int)
    requires WorkerSite(site, hot) && ApplySite(backend, row, site, now).Ok?
    ensures var a, b := row.call, ApplySite(backend, row, site, now).value.call;
            && b.outcome == a.outcome && !a.status.Completing? && !a.status.Terminal()
            && !b.status.Completing? && !b.status.Terminal()
  {
    DirectEffect(backend, row, site, now);
    hide ApplySite;
  }

  lemma DirectTruthful(backend: Backend, s: System, a: Action)
    requires Truthful(s) && Enabled(s, a)
    requires a.DoAsk? || a.DoWorker? || a.DoOutside?
    ensures Truthful(Next(backend, s, a))
  {
    hide Truthful, UpdateOf, ApplySite, Landed;
    if a.DoWorker? {
      WorkerTruthful(backend, s, a.site, a.now);
    } else if a.DoAsk? {
      OutsideKeepsOutcome(backend, s.row, AskInput(s.row.call.state.(pendingInput := Some(a.request))), a.now);
      LandedStays(backend, s, a);
      RowTruthful(s, Ask(backend, s, a.request, a.now));
    } else {
      OutsideKeepsOutcome(backend, s.row, a.site, a.now);
      LandedStays(backend, s, a);
      RowTruthful(s, s.(row := Direct(backend, s.row, a.site, a.now)));
    }
  }

  lemma WorkerTruthful(backend: Backend, s: System, site: Site, now: int)
    requires Truthful(s) && WorkerSite(site, s.ctx.hot) && s.ending.NotBegun?
    ensures Truthful(WorkerWrite(backend, s, site, now))
  {
    hide Truthful, UpdateOf, ApplySite;
    if ApplySite(backend, s.row, site, now).Ok? {
      WorkerKeepsOutcome(backend, s.row, site, s.ctx.hot, now);
      RowTruthful(s, WorkerWrite(backend, s, site, now));
    }
  }

  /** These writes leave the future of a commitment in flight. */
  lemma LandedStays(backend: Backend, s: System, a: Action)
    requires Enabled(s, a) && (a.DoAsk? || a.DoOutside?)
    ensures Landed(ViewOf(Next(backend, s, a))) ==> Landed(ViewOf(s))
  {
    hide UpdateOf, ApplySite;
  }

  // ---- The end of the call ----

  lemma ReadTruthful(s: System)
    requires Truthful(s) && s.ctx.closed && s.ctx.stopped
    ensures Truthful(ReadForEnding(s))
    ensures s.row.call.outcome.None? ==> !s.row.call.status.Completing?
  {
    hide Sealed, CompletionsSealed;
  }

  lemma {:induction false} StopsSealed(queue: seq<Entry>, state: CallState, ctx: Context)
    requires ctx.closed && forall e <- queue :: e.Stop?
    ensures Sealed(queue, state, ctx) && CompletionsSealed(queue, ctx)
    decreases |queue|
  {
    if queue != [] {
      assert queue[0] in queue;
      StopsSealed(queue[1..], state, ctx);
    }
  }

  lemma WriteCompletingTruthful(backend: Backend, s: System, now: int)
    requires Truthful(s) && s.ending.Hangup?
    ensures Truthful(WriteCompleting(backend, s, now))
  {
    DirectEffect(backend, s.row, CompleteOnHangup(s.ending.outcome), now);
    var t := WriteCompleting(backend, s, now);
    StopsSealed(s.ctx.queue, t.row.call.state, s.ctx);
    hide ApplySite, Sealed, CompletionsSealed;
  }

  lemma WriteCompletedTruthful(backend: Backend, s: System, summary: Option<string>, now: int)
    requires Truthful(s) && s.ending.Enriching?
    ensures Truthful(WriteCompleted(backend, s, summary, now))
  {
    var outcome := s.ending.outcome.(summary := summary.GetOr(s.ending.outcome.summary));
    DirectEffect(backend, s.row, Finish(outcome), now);
    hide ApplySite, Sealed, CompletionsSealed;
  }

  lemma NextKeepsTruthful(backend: Backend, s: System, a: Action)
    requires Truthful(s) && Safe(ViewOf(s)) && A.StopsLast(s.ctx) && Enabled(s, a)
    ensures Truthful(Next(backend, s, a))
  {
    hide Truthful, Safe, UpdateOf, ApplySite, P.Decide;
    if a.DoAsk? || a.DoWorker? || a.DoOutside? {
      DirectTruthful(backend, s, a);
    } else if a.DoWriteCompleting? {
      WriteCompletingTruthful(backend, s, a.now);
    } else if a.DoWriteCompleted? {
      WriteCompletedTruthful(backend, s, a.enriched, a.now);
    } else if a.DoReadForEnding? {
      ReadTruthful(s);
    } else if a.DoWriter? {
      assert s.ctx.queue[0] in s.ctx.queue;
      WriterTruthful(backend, s, a.fate, a.now);
    } else if a.DoFinishClose? {
      CloseTruthful(s, a.future);
    } else if a.DoResume? {
      ResumeTruthful(s);
    } else if a.DoUsage? || a.DoAnswered? || a.DoResumeLoose? {
      QuietTruthful(s, Next(backend, s, a));
    } else {
      if a.DoRecordFact? || a.DoPropose? || a.DoAuthorize? || a.DoSave? {
        SnapshotToolTruthful(backend, s, a);
      } else if a.DoFinishCall? || a.DoFinishUnlocked? {
        FinishTruthful(backend, s, a);
      } else {
        OtherToolTruthful(backend, s, a);
      }
    }
  }

  lemma {:induction false} RunKeepsTruthful(backend: Backend, s: System, run: seq<Action>)
    requires Truthful(s) && Safe(ViewOf(s)) && A.Accounted(s) && Valid(backend, s, run)
    ensures Truthful(After(backend, s, run))
    decreases |run|
  {
    if run != [] {
      NextKeepsTruthful(backend, s, run[0]);
      NextKeepsSafe(backend, s, run[0]);
      A.NextKeepsAccounted(backend, s, run[0]);
      hide Truthful, Safe, A.Accounted;
      RunKeepsTruthful(backend, Next(backend, s, run[0]), run[1..]);
    }
  }

  /** Every call brought to COMPLETED, by whatever run, has an outcome whose facts and commitments
      are those of its durable state; and a call that is completing already has one. */
  lemma CompletedTellsTheTruth(backend: Backend, s: System, run: seq<Action>)
    requires Initial(s) && Valid(backend, s, run)
    ensures var call := After(backend, s, run).row.call;
            call.status.Completed? || call.status.Completing? ==>
              && call.outcome.Some?
              && call.outcome.value.facts == call.state.facts
              && call.outcome.value.commitments == call.state.commitments
  {
    RunKeepsTruthful(backend, s, run);
  }

  // ---- What is stored once the call is completing ----

  predicate EndingOrOver(status: Status) {
    status.Completing? || status.Terminal()
  }

  /** Nothing the writer lands on a terminal call has a snapshot. */
  lemma WriterOnTerminal(backend: Backend, s: System, fate: Fate, now: int)
    requires Safe(ViewOf(s)) && s.ctx.queue != [] && !s.ctx.stopped && s.row.call.status.Terminal()
    ensures var t := WriterStep(backend, s, fate, now);
            t.row.call.status == s.row.call.status && SameContent(t.row.call.state, s.row.call.state)
  {
    if s.ctx.queue[0].Work? {
      HeadQueueable(s);
      hide Safe;
      WriterRow(backend, s, fate, now);
      hide WriterStep;
    }
  }

  lemma DirectKeepsContent(backend: Backend, s: System, a: Action)
    requires Enabled(s, a) && EndingOrOver(s.row.call.status)
    requires a.DoAsk? || a.DoWorker? || a.DoOutside? || a.DoWriteCompleting? || a.DoWriteCompleted?
    ensures var call := Next(backend, s, a).row.call;
            EndingOrOver(call.status) && SameContent(call.state, s.row.call.state)
  {
    hide ApplySite, UpdateOf;
    if a.DoWorker? {
      if ApplySite(backend, s.row, a.site, a.now).Ok? {
        WorkerKeepsOutcome(backend, s.row, a.site, s.ctx.hot, a.now);
      }
    } else if a.DoAsk? || a.DoOutside? {
      var site := if a.DoAsk? then AskInput(s.row.call.state.(pendingInput := Some(a.request))) else a.site;
      OutsideKeepsOutcome(backend, s.row, site, a.now);
    } else {
      EndKeepsContent(backend, s, a);
    }
  }

  lemma EndKeepsContent(backend: Backend, s: System, a: Action)
    requires Enabled(s, a) && EndingOrOver(s.row.call.status) && (a.DoWriteCompleting? || a.DoWriteCompleted?)
    ensures var call := Next(backend, s, a).row.call;
            EndingOrOver(call.status) && SameContent(call.state, s.row.call.state)
  {
    var site := if a.DoWriteCompleting? then CompleteOnHangup(s.ending.outcome)
                else Finish(s.ending.outcome.(summary := a.enriched.GetOr(s.ending.outcome.summary)));
    DirectEffect(backend, s.row, site, a.now);
    hide ApplySite;
  }

  lemma NextKeepsContent(backend: Backend, s: System, a: Action)
    requires Truthful(s) && Safe(ViewOf(s)) && Enabled(s, a) && EndingOrOver(s.row.call.status)
    ensures var call := Next(backend, s, a).row.call;
            EndingOrOver(call.status) && SameContent(call.state, s.row.call.state)
  {
    hide P.Decide, FindCommitment, Strip, ApplySite, UpdateOf;
    if a.DoWriter? {
      hide Truthful, Safe, WriterStep;
      if s.row.call.status.Terminal() {
        WriterOnTerminal(backend, s, a.fate, a.now);
      } else {
        WriterWhileEnding(backend, s, a.fate, a.now);
      }
    } else if a.DoAsk? || a.DoWorker? || a.DoOutside? || a.DoWriteCompleting? || a.DoWriteCompleted? {
      hide Truthful, Safe, Next;
      DirectKeepsContent(backend, s, a);
    } else {
      hide Truthful, Safe;
    }
  }

  lemma WriterWhileEnding(backend: Backend, s: System, fate: Fate, now: int)
    requires Truthful(s) && Safe(ViewOf(s)) && s.ctx.queue != [] && !s.ctx.stopped && s.row.call.status.Completing?
    ensures var call := WriterStep(backend, s, fate, now).row.call;
            call.status.Completing? && SameContent(call.state, s.row.call.state)
  {
    if s.ctx.queue[0].Work? {
      HeadQueueable(s);
      hide Safe;
      WriterKeepsSealed(backend, s, fate, now);
      hide Truthful, WriterStep;
    }
  }

  lemma {:induction false} RunKeepsContent(backend: Backend, s: System, run: seq<Action>)
    requires Truthful(s) && Safe(ViewOf(s)) && A.Accounted(s) && Valid(backend, s, run) && EndingOrOver(s.row.call.status)
    ensures SameContent(After(backend, s, run).row.call.state, s.row.call.state)
    decreases |run|
  {
    if run != [] {
      NextKeepsContent(backend, s, run[0]);
      NextKeepsTruthful(backend, s, run[0]);
      NextKeepsSafe(backend, s, run[0]);
      A.NextKeepsAccounted(backend, s, run[0]);
      hide Truthful, Safe, A.Accounted, Next, EndingOrOver;
      RunKeepsContent(backend, Next(backend, s, run[0]), run[1..]);
    }
  }

  /** Once a call is completing, or ended in any way, its stored facts and commitments never change
      again, whatever is recorded, queued, performed or lost afterwards: a late fact is never stored. */
  lemma LateFactsAreNeverStored(backend: Backend, s: System, before: seq<Action>, after: seq<Action>)
    requires Initial(s) && Valid(backend, s, before)
    requires Valid(backend, After(backend, s, before), after)
    requires EndingOrOver(After(backend, s, before).row.call.status)
    ensures var m := After(backend, s, before);
            SameContent(After(backend, m, after).row.call.state, m.row.call.state)
  {
    RunKeepsSafe(backend, s, before);
    RunKeepsTruthful(backend, s, before);
    A.RunKeepsAccounted(backend, s, before);
    var m := After(backend, s, before);
    hide Truthful, Safe, A.Accounted, After, Valid, EndingOrOver;
    RunKeepsContent(backend, m, after);
  }

  /** A fact recorded after finish_call reaches the hot state only: its write fails. */
  lemma LateFactIsNotStored(backend: Backend, s: System, key: string, value: Json, fate: Fate, now: int)
    requires s.row.call.status.Completing? && s.ctx.queue == [] && !s.ctx.closed && !s.ctx.stopped && !s.ctx.failed
    ensures var t := WriterStep(backend, RecordFact(s, key, value), fate, now);
            t.row == s.row && t.ctx.failed && t.ctx.hot.facts[key] == value
  {
    var site := Snapshot(s.ctx.hot.(facts := s.ctx.hot.facts[key := value]), "call.fact_recorded", NO_PAYLOAD, InCall);
    DirectEffect(backend, s.row, site, now);
  }
}
