/** A call whose remote party hangs up: what its outcome says, over every run that follows. */
module HangupRuns {
  import opened Base
  import opened Models
  import opened Rows
  import opened CallSites
  import opened WriteBehind
  import opened CommitRuns
  import opened OutcomeTruth
  import O = OutcomeTruthRuns
  import P = Policy

  /** The outcome of a hangup: a success exactly when the call is inbound or a stored commitment is
      allowed and confirmed, with the stored facts and commitments. */
  ghost predicate Reports(outcome: Outcome, call: CallRecord) {
    && outcome.reason == "remote_hangup"
    && (outcome.success <==>
          call.direction == Inbound || exists c :: c in call.state.commitments && c.allowed && c.confirmed)
    && outcome.facts == call.state.facts && outcome.commitments == call.state.commitments && outcome.notes == []
  }

  /** What is true once the end of the call has been read with this outcome. */
  ghost predicate Ends(t: System, outcome: Outcome, direction: Direction) {
    var call := t.row.call;
    && t.ctx.stopped && !t.ending.NotBegun?
    && (t.ending.Hangup? || t.ending.Enriching? ==> t.ending.outcome == outcome)
    && call.direction == direction && Tells(outcome, call.state)
    && (call.outcome.Some? ==> call.outcome.value == outcome.(summary := call.outcome.value.summary))
    && (call.status.Completing? || call.status.Completed? ==> call.outcome.Some?)
  }

  lemma ReportsRead(call: CallRecord)
    ensures Reports(HangupOutcome(call), call)
  {
  }

  lemma DirectionStays(backend: Backend, row: Row, site: Site, now: int)
    ensures Direct(backend, row, site, now).call.direction == row.call.direction
  {
    hide UpdateOf;
  }

  lemma OutsideEnds(backend: Backend, t: System, a: Action, outcome: Outcome, direction: Direction)
    requires Ends(t, outcome, direction) && Enabled(t, a) && a.DoOutside?
    ensures Ends(Next(backend, t, a), outcome, direction)
  {
    DirectionStays(backend, t.row, a.site, a.now);
    O.OutsideKeepsOutcome(backend, t.row, a.site, a.now);
    hide Direct;
  }

  lemma WriteEnds(backend: Backend, t: System, a: Action, outcome: Outcome, direction: Direction)
    requires Ends(t, outcome, direction) && Enabled(t, a) && (a.DoWriteCompleting? || a.DoWriteCompleted?)
    ensures Ends(Next(backend, t, a), outcome, direction)
  {
    var site := if a.DoWriteCompleting? then CompleteOnHangup(t.ending.outcome)
                else Finish(t.ending.outcome.(summary := a.enriched.GetOr(t.ending.outcome.summary)));
    DirectEffect(backend, t.row, site, a.now);
    DirectionStays(backend, t.row, site, a.now);
    hide ApplySite;
  }

  lemma {:induction false} RunEnds(backend: Backend, t: System, run: seq<Action>, outcome: Outcome, direction: Direction)
    requires Ends(t, outcome, direction) && Valid(backend, t, run)
    ensures Ends(After(backend, t, run), outcome, direction)
    decreases |run|
  {
    if run != [] {
      var a := run[0];
      if a.DoOutside? {
        OutsideEnds(backend, t, a, outcome, direction);
      } else if a.DoWriteCompleting? || a.DoWriteCompleted? {
        WriteEnds(backend, t, a, outcome, direction);
      } else {
        QuietEnds(backend, t, a, outcome, direction);
      }
      hide Ends, Next, Enabled;
      RunEnds(backend, Next(backend, t, a), run[1..], outcome, direction);
    }
  }

  lemma QuietEnds(backend: Backend, t: System, a: Action, outcome: Outcome, direction: Direction)
    requires Ends(t, outcome, direction) && Enabled(t, a)
    requires !a.DoWriteCompleting? && !a.DoWriteCompleted? && !a.DoOutside?
    ensures Ends(Next(backend, t, a), outcome, direction)
  {
    hide P.Decide, FindCommitment, Strip, ApplySite, UpdateOf, WriterStep, Ask, WorkerWrite, ReadForEnding;
  }

  lemma ReadEnds(backend: Backend, s: System)
    requires Enabled(s, DoReadForEnding) && s.row.call.status in {Active, InputRequired} && s.row.call.outcome.None?
    ensures Ends(Next(backend, s, DoReadForEnding), HangupOutcome(s.row.call), s.row.call.direction)
  {
    ReportsRead(s.row.call);
    hide HangupOutcome, WriterStep, Ask, WorkerWrite, Authorize, Propose, Hear;
  }

  /** When the remote party hangs up on a call without an outcome, then whatever happens afterwards
      (answers, failures, cancellation, lost writes), if the call gets to COMPLETING or COMPLETED its
      outcome is that of a hangup; the supervisor can change the summary alone. */
  lemma HangupIsReported(backend: Backend, s: System, after: seq<Action>)
    requires Enabled(s, DoReadForEnding) && Valid(backend, Next(backend, s, DoReadForEnding), after)
    requires s.row.call.status in {Active, InputRequired} && s.row.call.outcome.None?
    ensures var call := After(backend, Next(backend, s, DoReadForEnding), after).row.call;
            call.status in {Completing, Completed} ==>
              && call.outcome.Some? && Reports(call.outcome.value, call)
              && call.outcome.value == HangupOutcome(s.row.call).(summary := call.outcome.value.summary)
  {
    var t := Next(backend, s, DoReadForEnding);
    var outcome := HangupOutcome(s.row.call);
    ReportsRead(s.row.call);
    ReadEnds(backend, s);
    hide HangupOutcome, Next, Enabled;
    RunEnds(backend, t, after, outcome, s.row.call.direction);
    hide After, Valid;
  }
}
