/** worker/agent.py: the status writes of the job that owns a call, and how it ends. */
module CallWorker {
  import opened Base
  import opened Models
  import opened Rows
  import opened CallSites
  import opened MemoryRepository
  import opened ActiveCalls
  import H = HangupRuns
  import S = CallStore
  import W = WriteBehind

  /** `_complete_call` as one value: the three steps of the write-behind model in a row. */
  function Completion(s: W.System, summary: Option<string>, now: int): W.System {
    var read := W.ReadForEnding(s);
    var completing := if read.ending.Hangup? then W.WriteCompleting(Memory, read, now) else read;
    if completing.ending.Enriching? then W.WriteCompleted(Memory, completing, summary, now) else completing
  }

  /** The two writes at the end of a call. */
  lemma EndWrites(row: Row, outcome: Outcome, now: int)
    ensures var r := ApplySite(Memory, row, CompleteOnHangup(outcome), now);
            && (r.Ok? <==> row.call.status in {Active, InputRequired})
            && (r.Ok? ==> r.value.call.status == Completing && r.value.call.outcome == Some(outcome))
    ensures var r := ApplySite(Memory, row, Finish(outcome), now);
            && (r.Ok? <==> row.call.status == Completing)
            && (r.Ok? ==> r.value.call.status == Completed && r.value.call.outcome == Some(outcome)
                          && r.value.call.endedAt == Some(now))
  {
  }

  lemma CompletionWrites(s: W.System, summary: Option<string>, now: int)
    ensures var before, after := s.row.call, Completion(s, summary, now).row.call;
            var outcome := before.outcome.GetOr(W.HangupOutcome(before));
            if before.status == Completing || (before.status in {Active, InputRequired} && before.outcome.None?) then
              && after.status == Completed && after.endedAt == Some(now)
              && after.outcome == Some(outcome.(summary := summary.GetOr(outcome.summary)))
            else after == before
  {
    var call := s.row.call;
    var outcome := call.outcome.GetOr(W.HangupOutcome(call));
    var enriched := outcome.(summary := summary.GetOr(outcome.summary));
    hide W.HangupOutcome;
    EndWrites(s.row, outcome, now);
    EndWrites(s.row, enriched, now);
    var completing := ApplySite(Memory, s.row, CompleteOnHangup(outcome), now);
    if completing.Ok? {
      EndWrites(completing.value, enriched, now);
    }
    hide ApplySite;
  }

  /** The remote party hangs up on a call without an outcome: it ends COMPLETED as a hangup, with the
      supervisor's summary or one of three. */
  lemma CompletionOnHangup(s: W.System, summary: Option<string>, now: int)
    requires s.row.call.status in {Active, InputRequired, Completing} && s.row.call.outcome.None?
    ensures var before, after := s.row.call, Completion(s, summary, now).row.call;
            && after.status == Completed && after.endedAt == Some(now)
            && after.outcome.Some? && H.Reports(after.outcome.value, before)
            && after.outcome.value.summary == summary.GetOr(
                 if before.direction == Inbound then "Eingehendes Gespräch wurde beendet."
                 else if exists c :: c in before.state.commitments && c.allowed && c.confirmed
                 then "Gespräch beendet; verbindliche Zusage wurde erfasst."
                 else "Gespräch wurde ohne verbindliche Zusage beendet.")
  {
    CompletionWrites(s, summary, now);
    H.ReportsRead(s.row.call);
    hide Completion;
  }

  /** A call that has an outcome when it ends keeps it but for the summary; one that is not in
      progress, or has an outcome too early, is left as it is. */
  lemma CompletionOtherwise(s: W.System, summary: Option<string>, now: int)
    ensures var before, after := s.row.call, Completion(s, summary, now).row.call;
            && (before.status == Completing && before.outcome.Some? ==>
                  && after.status == Completed
                  && after.outcome == Some(before.outcome.value.(
                       summary := summary.GetOr(before.outcome.value.summary))))
            && (before.status !in {Active, InputRequired, Completing} ==> after == before)
            && (before.status != Completing && before.outcome.Some? ==> after == before)
  {
    CompletionWrites(s, summary, now);
    hide Completion, W.HangupOutcome;
  }

  class Worker {
    const context: ActiveCallContext

    ghost predicate Valid()
      reads context, context.repository
    {
      context.Valid()
    }

    constructor (context: ActiveCallContext)
      requires context.Valid()
      ensures Valid() && this.context == context
    {
      this.context := context;
    }

    /** A status write of the worker followed by `apply_call`: DIALING, RINGING, CONNECTED, ACTIVE. */
    method WriteAndApply(site: Site, now: int) returns (ok: bool)
      requires Valid() && W.WorkerSite(site, context.Snapshot())
      modifies context`status, context`phase, context`connectedAt, context`pendingInput, context`roomName,
               context`dispatchId, context`sipIdentity, context`voice, context.repository
      ensures Valid()
      ensures OthersKept(old(context.repository.View()), context.repository.View(), context.callId)
      ensures ok == ApplySite(Memory, old(context.View()).row, site, now).Ok?
      ensures context.View() == W.WorkerWrite(Memory, old(context.View()), site, now)
    {
      hide MemoryCallRepository.Valid, MemoryCallRepository.View, UpdateOf, S.AfterUpdate, OthersKept, UpdateRow;
      ghost var store := context.repository.View();
      var call := context.repository.UpdateCall(context.callId, UpdateOf(site), now);
      WriteIs(store, context.callId, site, now);
      if call.Err? {
        return false;
      }
      hide ApplySite;
      context.ApplyCall(call.value);
      return true;
    }

    method Dial(now: int) returns (ok: bool)
      requires Valid()
      modifies context`status, context`phase, context`connectedAt, context`pendingInput, context`roomName,
               context`dispatchId, context`sipIdentity, context`voice, context.repository
      ensures Valid()
      ensures context.View() == W.WorkerWrite(Memory, old(context.View()), Site.Dial(old(context.Snapshot())), now)
    {
      ok := WriteAndApply(Site.Dial(context.Snapshot()), now);
    }

    /** The write of `call.active` after the answering machine was told apart. */
    method Activate(now: int) returns (ok: bool)
      requires Valid()
      modifies context`status, context`phase, context`connectedAt, context`pendingInput, context`roomName,
               context`dispatchId, context`sipIdentity, context`voice, context.repository
      ensures Valid()
      ensures context.View() == W.WorkerWrite(Memory, old(context.View()), Site.Activate(old(context.Snapshot())), now)
    {
      ok := WriteAndApply(Site.Activate(context.Snapshot()), now);
    }

    /** The two failure paths of the job: the watchdog and the exception handler read the status and
        write FAILED only over a status that is not terminal and has not moved. */
    method Fail(error: CallError, now: int) returns (failed: bool)
      requires Valid()
      modifies context.repository
      ensures Valid()
      ensures OthersKept(old(context.repository.View()), context.repository.View(), context.callId)
      ensures var row := old(context.View()).row;
              && failed == !row.call.status.Terminal()
              && context.View() == old(context.View()).(
                   row := if failed then W.Direct(Memory, row, WorkerFailed(row.call.status, error), now) else row)
    {
      ghost var store := context.repository.View();
      var current := context.repository.GetCall(context.callId);
      var read := current.value.status;
      if read.Terminal() {
        return false;
      }
      hide MemoryCallRepository.Valid, MemoryCallRepository.View, S.AfterUpdate, UpdateRow;
      var updated := context.repository.UpdateCall(context.callId, UpdateOf(WorkerFailed(read, error)), now);
      WriteIs(store, context.callId, WorkerFailed(read, error), now);
      return true;
    }

    /** `_complete_call`; `summary` is what the supervisor makes of the outcome, if anything. */
    method CompleteCall(summary: Option<string>, now: int) returns (raised: bool)
      requires Valid()
      modifies context.repository
      ensures Valid()
      ensures OthersKept(old(context.repository.View()), context.repository.View(), context.callId)
      ensures context.View().row == Completion(old(context.View()), summary, now).row
    {
      ghost var start := context.View();
      var read := context.repository.GetCall(context.callId);
      var call := read.value;
      if call.status.Terminal() {
        return false;
      }
      hide MemoryCallRepository.Valid, MemoryCallRepository.View;
      var outcome := if call.outcome.Some? then call.outcome.value else W.HangupOutcome(call);
      if call.outcome.None? && !call.status.Completing? {
        ghost var store := context.repository.View();
        var completing := context.repository.UpdateCall(context.callId, UpdateOf(CompleteOnHangup(outcome)), now);
        WriteIs(store, context.callId, CompleteOnHangup(outcome), now);
        if completing.Err? {
          return true;
        }
      }
      hide UpdateOf, S.AfterUpdate, UpdateRow, ApplySite;
      var enriched := outcome.(summary := summary.GetOr(outcome.summary));
      ghost var store := context.repository.View();
      var completed := context.repository.UpdateCall(context.callId, UpdateOf(Finish(enriched)), now);
      WriteIs(store, context.callId, Finish(enriched), now);
      return completed.Err?;
    }
  }

  lemma WriteIs(store: S.Store, id: string, site: Site, now: int)
    requires id in store.rows
    ensures var r := S.AfterUpdate(Memory, store, id, UpdateOf(site), now);
            var direct := ApplySite(Memory, store.rows[id], site, now);
            && id in r.0.rows && OthersKept(store, r.0, id)
            && r.0.rows[id] == (if direct.Ok? then direct.value else store.rows[id])
            && r.1.Ok? == direct.Ok? && (direct.Ok? ==> r.1.value == direct.value.call)
  {
    hide UpdateRow, UpdateOf;
  }
}
