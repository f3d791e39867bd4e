/** Where the outcome of a call comes from: success, reason and notes are those of a completion that a
    tool asked for, or the call was hung up. */
module OutcomeSources {
  import opened Base
  import opened Models
  import opened Rows
  import opened CallSites
  import opened WriteBehind
  import opened QueueStates
  import opened CommitSafety
  import opened CommitRuns
  import T = OutcomeTruth
  import O = OutcomeTruthRuns
  import P = Policy

  /** Success, reason and notes that this action gives to the outcome of the call. */
  function Given(a: Action): set<(bool, string, seq<string>)> {
    if a.DoFinishCall? then {(a.success, a.reason, a.notes)}
    else if a.DoFinishUnlocked? then {(a.success, a.reason, [])}
    else {}
  }

  function AllGiven(run: seq<Action>): set<(bool, string, seq<string>)> {
    if run == [] then {} else Given(run[0]) + AllGiven(run[1..])
  }

  predicate From(outcome: Outcome, given: set<(bool, string, seq<string>)>) {
    || (outcome.success, outcome.reason, outcome.notes) in given
    || (outcome.reason == "remote_hangup" && outcome.notes == [])
  }

  predicate EntryFrom(e: Entry, given: set<(bool, string, seq<string>)>) {
    IsCompletion(e) ==> From(e.item.op.site.outcome, given)
  }

  /** Every outcome that is stored, queued or about to be written. */
  ghost predicate AllFrom(s: System, given: set<(bool, string, seq<string>)>) {
    && (s.row.call.outcome.Some? ==> From(s.row.call.outcome.value, given))
    && (forall e <- s.ctx.queue :: EntryFrom(e, given))
    && (s.ending.Hangup? || s.ending.Enriching? ==> From(s.ending.outcome, given))
  }

  lemma PushFrom(s: System, t: System, given: set<(bool, string, seq<string>)>, more: set<(bool, string, seq<string>)>)
    requires AllFrom(s, given) && given <= more && t.row == s.row && t.ending == s.ending
    requires t.ctx.queue == s.ctx.queue
             || (|t.ctx.queue| == |s.ctx.queue| + 1 && t.ctx.queue[..|s.ctx.queue|] == s.ctx.queue
                 && EntryFrom(t.ctx.queue[|s.ctx.queue|], more))
    ensures AllFrom(t, more)
  {
    forall e <- t.ctx.queue ensures EntryFrom(e, more) {
      var i :| 0 <= i < |t.ctx.queue| && t.ctx.queue[i] == e;
      if i < |s.ctx.queue| {
        assert e == s.ctx.queue[i] && EntryFrom(e, given);
      }
    }
  }

  lemma WriterFrom(backend: Backend, s: System, fate: Fate, now: int, given: set<(bool, string, seq<string>)>)
    requires AllFrom(s, given) && Safe(ViewOf(s)) && s.ctx.queue != [] && !s.ctx.stopped
    ensures AllFrom(WriterStep(backend, s, fate, now), given)
  {
    var e := s.ctx.queue[0];
    assert EntryFrom(e, given);
    if e.Work? {
      T.HeadQueueable(s);
      hide Safe, Perform, Settle, From;
      WriterRow(backend, s, fate, now);
    }
  }

  lemma DirectFrom(backend: Backend, s: System, a: Action, given: set<(bool, string, seq<string>)>)
    requires AllFrom(s, given) && Enabled(s, a)
    requires a.DoAsk? || a.DoWorker? || a.DoOutside?
    ensures AllFrom(Next(backend, s, a), given)
  {
    hide UpdateOf, ApplySite, EntryFrom, From;
    if a.DoWorker? {
      if ApplySite(backend, s.row, a.site, a.now).Ok? {
        O.WorkerKeepsOutcome(backend, s.row, a.site, s.ctx.hot, a.now);
      }
    } else {
      var site := if a.DoAsk? then AskInput(s.row.call.state.(pendingInput := Some(a.request))) else a.site;
      O.OutsideKeepsOutcome(backend, s.row, site, a.now);
    }
  }

  lemma EndingFrom(backend: Backend, s: System, a: Action, given: set<(bool, string, seq<string>)>)
    requires AllFrom(s, given) && Enabled(s, a)
    requires a.DoReadForEnding? || a.DoWriteCompleting? || a.DoWriteCompleted?
    ensures AllFrom(Next(backend, s, a), given)
  {
    hide EntryFrom;
    if a.DoWriteCompleting? {
      DirectEffect(backend, s.row, CompleteOnHangup(s.ending.outcome), a.now);
    } else if a.DoWriteCompleted? {
      var outcome := s.ending.outcome.(summary := a.enriched.GetOr(s.ending.outcome.summary));
      DirectEffect(backend, s.row, Finish(outcome), a.now);
    }
    hide ApplySite;
  }

  lemma ToolFrom(backend: Backend, s: System, a: Action, given: set<(bool, string, seq<string>)>)
    requires AllFrom(s, given) && Enabled(s, a)
    requires !a.DoAsk? && !a.DoWorker? && !a.DoOutside? && !a.DoWriter?
    requires !a.DoReadForEnding? && !a.DoWriteCompleting? && !a.DoWriteCompleted?
    ensures AllFrom(Next(backend, s, a), given + Given(a))
  {
    hide AllFrom, P.Decide, FindCommitment, Strip;
    PushFrom(s, Next(backend, s, a), given, given + Given(a));
  }

  lemma NextFrom(backend: Backend, s: System, a: Action, given: set<(bool, string, seq<string>)>)
    requires AllFrom(s, given) && Safe(ViewOf(s)) && Enabled(s, a)
    ensures AllFrom(Next(backend, s, a), given + Given(a))
  {
    hide AllFrom, Safe, WriterStep;
    if a.DoAsk? || a.DoWorker? || a.DoOutside? || a.DoWriter? || a.DoReadForEnding? || a.DoWriteCompleting?
       || a.DoWriteCompleted? {
      assert given + Given(a) == given;
      if a.DoWriter? {
        WriterFrom(backend, s, a.fate, a.now, given);
      } else if a.DoAsk? || a.DoWorker? || a.DoOutside? {
        hide Next;
        DirectFrom(backend, s, a, given);
      } else {
        hide Next;
        EndingFrom(backend, s, a, given);
      }
    } else {
      hide Next;
      ToolFrom(backend, s, a, given);
    }
  }

  lemma {:induction false} RunFrom(backend: Backend, s: System, run: seq<Action>, given: set<(bool, string, seq<string>)>)
    requires AllFrom(s, given) && Safe(ViewOf(s)) && Valid(backend, s, run)
    ensures AllFrom(After(backend, s, run), given + AllGiven(run))
    decreases |run|
  {
    hide AllFrom, Safe, Next, Enabled, Given;
    if run == [] {
      assert given + {} == given;
    } else {
      NextFrom(backend, s, run[0], given);
      NextKeepsSafe(backend, s, run[0]);
      RunFrom(backend, Next(backend, s, run[0]), run[1..], given + Given(run[0]));
      assert given + Given(run[0]) + AllGiven(run[1..]) == given + AllGiven(run);
    }
  }

  /** Over every run, whatever fails: a stored outcome has success, reason and notes of a completion
      that some tool asked for in this run, or it is that of a hangup; the policy, the writer, the
      repository and the supervisor add none of their own. */
  lemma OutcomesAreGiven(backend: Backend, s: System, run: seq<Action>)
    requires Initial(s) && Valid(backend, s, run)
    ensures var outcome := After(backend, s, run).row.call.outcome;
            outcome.Some? ==>
              || (outcome.value.success, outcome.value.reason, outcome.value.notes) in AllGiven(run)
              || (outcome.value.reason == "remote_hangup" && outcome.value.notes == [])
  {
    assert AllFrom(s, {}) && Safe(ViewOf(s));
    RunFrom(backend, s, run, {});
    assert {} + AllGiven(run) == AllGiven(run);
    hide Safe, Initial, Valid, After, AllGiven;
  }
}
