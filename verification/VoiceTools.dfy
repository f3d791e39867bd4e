/** voice/tools.py: the tools that the model calls, over the context of its call. A tool that awaits a
    durable write or a flush is split there: `Resume` is what runs afterwards. */
module VoiceTools {
  import opened Base
  import opened Models
  import opened Rows
  import opened CallSites
  import opened MemoryRepository
  import opened ActiveCalls
  import opened Service
  import W = WriteBehind
  import P = Policy
  import S = CallStore
  import I = InputRequests

  class ToolRuntime {
    const context: ActiveCallContext
    const service: CallService
    var farewellRequired: bool
    var finished: bool

    ghost predicate Valid()
      reads context, context.repository
    {
      context.Valid() && service.repository == context.repository
    }

    constructor (context: ActiveCallContext, service: CallService)
      requires context.Valid() && service.repository == context.repository
      ensures Valid() && this.context == context && this.service == service && !farewellRequired && !finished
    {
      this.context, this.service, farewellRequired, finished := context, service, false, false;
    }

    /** `record_fact` */
    method RecordFact(key: string, value: Json) returns (recorded: bool)
      requires Valid() && context.holder.Nobody?
      modifies context`facts, context`queue, context`log
      ensures Valid() && recorded == !context.closed
      ensures context.View() == W.RecordFact(old(context.View()), key, value)
    {
      hide MemoryCallRepository.Valid, MemoryCallRepository.View;
      context.RecordFact(key, value);
      recorded := context.PersistState("call.fact_recorded", NO_PAYLOAD, InCall);
    }

    /** `propose_candidate`; without a candidate the policy raised. */
    method ProposeCandidate(id: string, kind: string, value: Fields) returns (candidate: Option<Candidate>)
      requires Valid() && context.holder.Nobody?
      modifies context`candidates, context`queue, context`log
      ensures Valid()
      ensures context.View() == W.Propose(old(context.View()), id, kind, value)
      ensures candidate.Some? ==> context.candidates == old(context.candidates) + [candidate.value]
      ensures candidate.None? ==> context.candidates == old(context.candidates)
    {
      hide P.Decide, MemoryCallRepository.Valid, MemoryCallRepository.View;
      var action := if kind == "appointment" then "book_appointment" else kind;
      var decision := P.Decide(context.permissions, context.constraints, action, value);
      if decision.Raises? {
        return None;
      }
      var reason := if decision.Denied? then Some(decision.reason) else None;
      var found := Candidate(id, kind, value, decision.Allowed?, reason);
      context.AddCandidate(found);
      var accepted := context.PersistState("call.candidate_detected", NO_PAYLOAD, ActiveOnly);
      return Some(found);
    }

    /** What the model is told about a commitment. */
    method Reply(commitment: Commitment, replay: bool) returns (answer: W.Answer)
      modifies context`log
      ensures answer == W.Answer(commitment.id, commitment.allowed, replay)
      ensures context.log == old(context.log).(answers := old(context.log).answers + [answer])
    {
      answer := W.Answer(commitment.id, commitment.allowed, replay);
      context.log := context.log.(answers := context.log.answers + [answer]);
    }

    /** `authorize_commit` up to the await of its durable write. A replay answers at once. */
    method AuthorizeCommit(action: string, payload: Fields) returns (answer: Option<W.Answer>)
      requires Valid() && context.holder.Nobody?
      modifies context`queue, context`futures, context`holder, context`log
      ensures Valid()
      ensures context.View() == W.Authorize(old(context.View()), action, payload)
      ensures answer.Some? <==> W.FindCommitment(old(context.commitments), CommitId(action, payload)).Some?
      ensures answer.Some? ==> context.log.answers == old(context.log).answers + [answer.value]
    {
      hide P.Decide, W.FindCommitment, MemoryCallRepository.Valid, MemoryCallRepository.View;
      var id := CommitId(action, payload);
      var existing := context.FindCommitment(id);
      if existing.Some? {
        var replay := Reply(existing.value, true);
        return Some(replay);
      }
      var decision := P.Decide(context.permissions, context.constraints, action, payload);
      if decision.Raises? {
        return None;
      }
      var commitment := W.NewCommitment(action, payload, decision);
      var future := context.PersistCommitment(commitment);
      if future.Some? {
        context.holder := W.Committing(commitment, future.value);
      }
      return None;
    }

    /** A locked change of the voice session with a durable write: the two of `cold_transfer`, the
        answering-machine result and the session report. */
    method SaveVoiceSession(voice: VoiceSession, name: string, payload: Payload, scope: Scope)
      requires Valid() && context.holder.Nobody?
      modifies context`voice, context`queue, context`futures, context`holder, context`log
      ensures Valid() && context.View() == W.Save(old(context.View()), voice, name, payload, scope)
    {
      hide MemoryCallRepository.Valid, MemoryCallRepository.View;
      context.RecordVoiceSession(voice);
      var future := context.PersistStateDurable(name, payload, scope);
      if future.Some? {
        context.holder := W.Saving(future.value);
      }
    }

    /** `finish_call` up to its await. */
    method FinishCall(success: bool, reason: string, summary: string, notes: seq<string>)
      requires Valid() && context.holder.Nobody?
      modifies context`phase, context`queue, context`futures, context`holder, context`log
      ensures Valid() && context.View() == W.FinishCall(old(context.View()), success, reason, summary, notes)
    {
      hide W.SubmitCompletion, MemoryCallRepository.Valid, MemoryCallRepository.View;
      var state := context.Snapshot();
      var future := context.PersistCompletion(Outcome(success, reason, summary, state.facts, state.commitments, notes));
      if future.Some? {
        context.holder := W.Finishing(future.value);
      }
    }

    /** The completion at the end of a successful `cold_transfer`, and `_finish_amd_call`: no lock. */
    method FinishUnlocked(success: bool, reason: string, summary: string)
      requires Valid() && !context.holder.Committing?
      modifies context`phase, context`queue, context`futures, context`loose, context`log
      ensures Valid() && context.View() == W.FinishUnlocked(old(context.View()), success, reason, summary)
    {
      hide W.SubmitCompletion, MemoryCallRepository.Valid, MemoryCallRepository.View;
      var state := context.Snapshot();
      var future := context.PersistCompletion(Outcome(success, reason, summary, state.facts, state.commitments, []));
      if future.Some? {
        context.loose := context.loose + {future.value};
      }
    }

    /** `request_user_input` up to the await of its flush. */
    method BeginAsk()
      requires Valid() && context.holder.Nobody?
      modifies context`queue, context`futures, context`holder, context`log
      ensures Valid() && context.View() == W.BeginAsk(old(context.View()))
    {
      hide MemoryCallRepository.Valid, MemoryCallRepository.View;
      var future := context.SubmitAndWait(W.Barrier);
      if future.Some? {
        context.holder := W.Flushing(future.value);
      }
    }

    /** `authorize_commit` after its await: only now does the commitment enter the hot state, and only
        now does the model get its answer. A failed write raises. */
    method ResumeCommit() returns (answer: Option<W.Answer>)
      requires Valid() && W.Resumable(context.Ctx()) && context.holder.Committing?
      modifies context`commitments, context`holder, context`log
      ensures Valid()
      ensures context.View() == W.Resume(old(context.View()))
      ensures answer.Some? <==> old(context.futures)[old(context.holder).future].Done?
      ensures answer.Some? ==> context.log.answers == old(context.log).answers + [answer.value]
    {
      hide MemoryCallRepository.Valid, MemoryCallRepository.View;
      var commitment, done := context.holder.commitment, context.futures[context.holder.future].Done?;
      context.holder := W.Nobody;
      if !done {
        return None;
      }
      context.AddCommitment(commitment);
      var told := Reply(commitment, false);
      return Some(told);
    }

    method ResumeSave()
      requires Valid() && W.Resumable(context.Ctx()) && context.holder.Saving?
      modifies context`holder
      ensures Valid() && context.View() == W.Resume(old(context.View()))
    {
      hide MemoryCallRepository.Valid, MemoryCallRepository.View;
      context.holder := W.Nobody;
    }

    /** `finish_call` after its await. */
    method ResumeFinish()
      requires Valid() && W.Resumable(context.Ctx()) && context.holder.Finishing?
      modifies this, context`status, context`holder
      ensures Valid() && context.View() == W.Resume(old(context.View()))
      ensures finished == (old(finished) || old(context.futures)[old(context.holder).future].Done?)
    {
      hide MemoryCallRepository.Valid, MemoryCallRepository.View;
      var done := context.futures[context.holder.future].Done?;
      context.holder := W.Nobody;
      if done {
        context.status := Completing;
        farewellRequired, finished := true, true;
      }
    }

    /** The flush of `request_user_input` is over. */
    method ResumeFlush()
      requires Valid() && W.Resumable(context.Ctx()) && context.holder.Flushing?
      modifies context`holder
      ensures Valid() && context.View() == W.Resume(old(context.View()))
    {
      hide MemoryCallRepository.Valid, MemoryCallRepository.View;
      var done := context.futures[context.holder.future].Done?;
      context.holder := if done && !context.requiredFailure then W.Asking else W.Nobody;
    }

    /** `request_user_input` after its flush: the service stores the question, and only then does the
        hot state show it. */
    method Ask(requestId: string, question: string, options: seq<string>, timeout: nat, now: int)
      returns (asked: Result<InputRequest>)
      requires Valid() && context.holder.Asking?
      modifies context`pendingInput, context`status, context`holder, context.repository
      ensures Valid() && context.View() == W.Ask(Memory, old(context.View()), requestId, now)
    {
      hide MemoryCallRepository.Valid, MemoryCallRepository.View, I.RequestInput, ApplySite;
      ghost var store := context.repository.View();
      asked := service.RequestInput(context.callId, requestId, question, options, timeout, now);
      var id := context.callId;
      AskIs(store, id, InputRequest(requestId, id, Pending, question, options, None, now + timeout, None), now);
      context.holder := W.Nobody;
      if asked.Ok? {
        context.pendingInput, context.status := Some(requestId), InputRequired;
      }
    }

    /** The wait is over: the question was answered or timed out. */
    method Answered()
      requires Valid() && context.holder.Nobody?
      modifies context`pendingInput, context`status
      ensures Valid()
      ensures var s := old(context.View());
              context.View() == s.(ctx := s.ctx.(hot := s.ctx.hot.(pendingInput := None), status := Active))
    {
      context.pendingInput, context.status := None, Active;
    }
  }

  /** What the service's `request_input` does to the row of the call. */
  lemma AskIs(store: S.Store, id: string, request: InputRequest, now: int)
    requires id in store.rows && request.callId == id
    ensures var r := I.RequestInput(Memory, store, request, now);
            var state := store.rows[id].call.state.(pendingInput := Some(request.id));
            var direct := ApplySite(Memory, store.rows[id], AskInput(state), now);
            && id in r.0.rows && (r.1.None? <==> direct.Ok?)
            && r.0.rows[id] == if direct.Ok? then direct.value else store.rows[id]
  {
    hide UpdateRow, UpdateOf;
  }
}
