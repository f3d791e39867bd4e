/** What the hot state of a call remembers of a run, action by action, and that it is stored. */
module HotHistory {
  import opened Base
  import opened Models
  import opened Rows
  import opened CallSites
  import opened WriteBehind
  import opened QueueStates
  import R = HotStateRuns
  import P = Policy

  /** A final turn of the remote party that is not blank. */
  const Utterance: Action -> bool := (a: Action) => a.DoHear? && a.role == User && Strip(a.text) != []

  function Records(key: string): Action -> bool {
    (a: Action) => a.DoRecordFact? && a.key == key
  }

  /** The last action of this kind is the k-th. */
  ghost predicate Last(run: seq<Action>, kind: Action -> bool, k: int) {
    0 <= k < |run| && kind(run[k]) && forall j :: k < j < |run| ==> !kind(run[j])
  }

  ghost predicate Never(run: seq<Action>, kind: Action -> bool) {
    forall j :: 0 <= j < |run| ==> !kind(run[j])
  }

  lemma LastFromFirst(run: seq<Action>, kind: Action -> bool, k: int)
    requires run != []
    ensures k > 0 && Last(run, kind, k) ==> Last(run[1..], kind, k - 1)
    ensures Last(run, kind, 0) ==> kind(run[0]) && Never(run[1..], kind)
    ensures Never(run, kind) ==> !kind(run[0]) && Never(run[1..], kind)
  {
    assert forall j :: 0 <= j < |run[1..]| ==> run[1..][j] == run[j + 1];
  }

  /** The candidate a proposal leaves behind: an appointment is judged as a booking, everything else as
      the action its kind names; a policy that raises leaves none. */
  function Proposed(a: Action, permissions: Permissions, constraints: seq<Constraint>): seq<Candidate> {
    if !a.DoPropose? then []
    else
      var verdict :=
        P.Decide(permissions, constraints, if a.kind == "appointment" then "book_appointment" else a.kind, a.value_);
      match verdict
      case Allowed => [Candidate(a.id, a.kind, a.value_, true, None)]
      case Denied(reason) => [Candidate(a.id, a.kind, a.value_, false, Some(reason))]
      case Raises => []
  }

  function AllProposed(run: seq<Action>, permissions: Permissions, constraints: seq<Constraint>): seq<Candidate> {
    if run == [] then []
    else Proposed(run[0], permissions, constraints) + AllProposed(run[1..], permissions, constraints)
  }

  // ---- What a state that started as `before` holds after a run ----

  /** The last utterance is the text of the last remote turn. */
  ghost predicate Heard(before: Option<string>, run: seq<Action>, after: Option<string>) {
    && (forall k :: Last(run, Utterance, k) ==> after == Some(Strip(run[k].text)))
    && (Never(run, Utterance) ==> after == before)
  }

  /** A fact has the value it was last given. */
  ghost predicate Told(before: Fields, run: seq<Action>, after: Fields, key: string) {
    && (forall k :: Last(run, Records(key), k) ==> key in after && after[key] == run[k].value)
    && (Never(run, Records(key)) ==> (key in after <==> key in before) && (key in after ==> after[key] == before[key]))
  }

  ghost predicate Remembers(before: CallState, run: seq<Action>, after: CallState) {
    && Heard(before.lastRemote, run, after.lastRemote)
    && (forall key :: Told(before.facts, run, after.facts, key))
    && after.candidates == before.candidates + AllProposed(run, before.permissions, before.constraints)
  }

  ghost predicate StepRemembers(before: CallState, a: Action, after: CallState) {
    && after.lastRemote == (if Utterance(a) then Some(Strip(a.text)) else before.lastRemote)
    && after.facts == (if a.DoRecordFact? then before.facts[a.key := a.value] else before.facts)
    && after.candidates == before.candidates + Proposed(a, before.permissions, before.constraints)
    && after.permissions == before.permissions && after.constraints == before.constraints
  }

  lemma ToolRemembers(backend: Backend, s: System, a: Action)
    requires Enabled(s, a) && (a.DoRecordFact? || a.DoPropose? || a.DoHear?)
    ensures StepRemembers(s.ctx.hot, a, Next(backend, s, a).ctx.hot)
  {
    hide P.Decide, FindCommitment, Strip, ApplySite, UpdateOf, Perform, Settle, WriterStep;
  }

  lemma NextRemembers(backend: Backend, s: System, a: Action)
    requires Enabled(s, a)
    ensures StepRemembers(s.ctx.hot, a, Next(backend, s, a).ctx.hot)
  {
    hide StepRemembers, Next;
    if a.DoRecordFact? || a.DoPropose? || a.DoHear? {
      ToolRemembers(backend, s, a);
    } else {
      NotRemembered(a, s.ctx.hot);
      OthersKeepMemory(backend, s, a);
    }
  }

  lemma NotRemembered(a: Action, hot: CallState)
    requires !a.DoRecordFact? && !a.DoPropose? && !a.DoHear?
    ensures forall after: CallState ::
              after.lastRemote == hot.lastRemote && after.facts == hot.facts && after.candidates == hot.candidates
              && after.permissions == hot.permissions && after.constraints == hot.constraints ==>
                StepRemembers(hot, a, after)
  {
    assert hot.candidates + [] == hot.candidates;
  }

  lemma SubmittersKeepMemory(backend: Backend, s: System, a: Action)
    requires Enabled(s, a) && (a.DoAuthorize? || a.DoSave? || a.DoFinishCall? || a.DoFinishUnlocked?)
    ensures var before, after := s.ctx.hot, Next(backend, s, a).ctx.hot;
            && after.lastRemote == before.lastRemote && after.facts == before.facts
            && after.candidates == before.candidates
            && after.permissions == before.permissions && after.constraints == before.constraints
  {
    hide P.Decide, FindCommitment, WriterStep, WorkerWrite, Ask, WriteCompleting, WriteCompleted, Resume;
  }

  lemma OthersKeepMemory(backend: Backend, s: System, a: Action)
    requires Enabled(s, a) && !a.DoRecordFact? && !a.DoPropose? && !a.DoHear?
    ensures var before, after := s.ctx.hot, Next(backend, s, a).ctx.hot;
            && after.lastRemote == before.lastRemote && after.facts == before.facts
            && after.candidates == before.candidates
            && after.permissions == before.permissions && after.constraints == before.constraints
  {
    if a.DoAuthorize? || a.DoSave? || a.DoFinishCall? || a.DoFinishUnlocked? {
      SubmittersKeepMemory(backend, s, a);
      hide Next;
    } else {
      hide RecordFact, Propose, Hear, Authorize, Save, FinishCall, FinishUnlocked;
      hide ApplySite, UpdateOf, Perform, Settle;
    }
  }

  lemma HeardFirst(before: Option<string>, run: seq<Action>, m: Option<string>, after: Option<string>)
    requires run != [] && Heard(m, run[1..], after)
    requires m == if Utterance(run[0]) then Some(Strip(run[0].text)) else before
    ensures Heard(before, run, after)
  {
    hide Strip, Last, Never;
    LastFromFirst(run, Utterance, 0);
    forall k | Last(run, Utterance, k) ensures 0 <= k < |run| && run[k].DoHear? && after == Some(Strip(run[k].text)) {
      LastFromFirst(run, Utterance, k);
      LastIs(run, Utterance, k);
    }
  }

  lemma LastIs(run: seq<Action>, kind: Action -> bool, k: int)
    requires Last(run, kind, k)
    ensures 0 <= k < |run| && kind(run[k]) && (k > 0 ==> run[k] == run[1..][k - 1])
  {
  }

  lemma ToldFirst(before: Fields, run: seq<Action>, m: Fields, after: Fields, key: string)
    requires run != [] && Told(m, run[1..], after, key)
    requires m == if run[0].DoRecordFact? then before[run[0].key := run[0].value] else before
    ensures Told(before, run, after, key)
  {
    hide Last, Never;
    LastFromFirst(run, Records(key), 0);
    forall k | Last(run, Records(key), k)
      ensures 0 <= k < |run| && run[k].DoRecordFact? && key in after && after[key] == run[k].value
    {
      LastFromFirst(run, Records(key), k);
      LastIs(run, Records(key), k);
    }
  }

  lemma FactsFirst(before: Fields, run: seq<Action>, m: Fields, after: Fields)
    requires run != [] && forall key :: Told(m, run[1..], after, key)
    requires m == if run[0].DoRecordFact? then before[run[0].key := run[0].value] else before
    ensures forall key :: Told(before, run, after, key)
  {
    forall key ensures Told(before, run, after, key) {
      ToldFirst(before, run, m, after, key);
    }
  }

  lemma RemembersFirst(before: CallState, run: seq<Action>, m: CallState, after: CallState)
    requires run != [] && StepRemembers(before, run[0], m) && Remembers(m, run[1..], after)
    ensures Remembers(before, run, after)
  {
    hide Heard, Told, Proposed;
    HeardFirst(before.lastRemote, run, m.lastRemote, after.lastRemote);
    FactsFirst(before.facts, run, m.facts, after.facts);
    var first := Proposed(run[0], before.permissions, before.constraints);
    var rest := AllProposed(run[1..], before.permissions, before.constraints);
    assert before.candidates + first + rest == before.candidates + (first + rest);
  }

  lemma {:induction false} HotRemembers(backend: Backend, s: System, run: seq<Action>)
    requires Valid(backend, s, run)
    ensures Remembers(s.ctx.hot, run, After(backend, s, run).ctx.hot)
    decreases |run|
  {
    if run != [] {
      var m := Next(backend, s, run[0]);
      NextRemembers(backend, s, run[0]);
      hide Next, Enabled, Remembers, StepRemembers, Proposed;
      HotRemembers(backend, m, run[1..]);
      RemembersFirst(s.ctx.hot, run, m.ctx.hot, After(backend, s, run).ctx.hot);
    } else {
      assert s.ctx.hot.candidates + [] == s.ctx.hot.candidates;
    }
  }

  /** Over every run the hot state holds the text of the last remote turn, each fact as it was last
      recorded, and the proposals in order with the verdicts of the policy; and once an open context
      without a required failure has written everything behind, the row holds the same. */
  lemma RowRemembers(backend: Backend, s: System, run: seq<Action>)
    requires Initial(s) && Valid(backend, s, run)
    ensures var t := After(backend, s, run);
            && Remembers(s.ctx.hot, run, t.ctx.hot)
            && (t.ctx.queue == [] && !t.ctx.failed && !t.ctx.closed ==> Remembers(s.ctx.hot, run, t.row.call.state))
  {
    HotRemembers(backend, s, run);
    R.QueueClosesTheGap(backend, s, run);
    hide Heard, Told, Initial, Valid, After;
  }

  // ---- The voice session ----

  /** A saved voice session is hot at once, and stored, with everything else that is hot, once what is
      queued now has been written, whatever was queued before. */
  lemma SavedVoiceIsStored(s: System, voice: VoiceSession, name: string, payload: Payload, scope: Scope)
    requires !s.ctx.closed
    ensures var t := Save(s, voice, name, payload, scope);
            && t.ctx.hot == s.ctx.hot.(voice := voice) && t.row == s.row
            && Replay(t.ctx.queue, t.row.call.state) == t.ctx.hot
  {
    var hot := s.ctx.hot.(voice := voice);
    var e := Work(Item(Store(Snapshot(hot, name, payload, scope)), true, Some(|s.ctx.futures|)));
    ReplayPush(s.ctx.queue, e, s.row.call.state);
    hide Replay;
  }

  /** The voice session after a run that starts with `voice`: the one saved last, with the usage reported
      last since. */
  function VoiceAfter(voice: VoiceSession, run: seq<Action>): VoiceSession
    decreases |run|
  {
    if run == [] then voice
    else
      var next :=
        match run[0]
        case DoSave(saved, _, _, _) => saved
        case DoUsage(usage) => voice.(usage := usage)
        case _ => voice;
      VoiceAfter(next, run[1..])
  }

  lemma NextVoice(backend: Backend, s: System, a: Action)
    requires Enabled(s, a) && !a.DoWorker?
    ensures VoiceAfter(s.ctx.hot.voice, [a]) == Next(backend, s, a).ctx.hot.voice
  {
    hide P.Decide, FindCommitment, Strip, ApplySite, UpdateOf, Perform, Settle;
    assert [a][1..] == [];
  }

  /** But for the status writes of the worker, which come before the conversation, the hot voice session
      is the one saved last with the usage reported last since. */
  lemma {:induction false} HotVoice(backend: Backend, s: System, run: seq<Action>)
    requires Valid(backend, s, run) && forall a <- run :: !a.DoWorker?
    ensures After(backend, s, run).ctx.hot.voice == VoiceAfter(s.ctx.hot.voice, run)
    decreases |run|
  {
    if run != [] {
      NextVoice(backend, s, run[0]);
      hide Next, Enabled;
      assert [run[0]][1..] == [];
      HotVoice(backend, Next(backend, s, run[0]), run[1..]);
    }
  }

  // ---- What the worker applies ----

  /** An accepted status write of the worker brings status, phase, connection time, question, room,
      dispatch, identity and voice session of the context to what is stored; what the tools have
      gathered stays. */
  lemma WorkerWriteIsApplied(backend: Backend, s: System, site: Site, now: int)
    requires ApplySite(backend, s.row, site, now).Ok?
    ensures var t := WorkerWrite(backend, s, site, now);
            var call, hot, was := t.row.call, t.ctx.hot, s.ctx.hot;
            && t.row == ApplySite(backend, s.row, site, now).value
            && t.ctx.status == call.status && t.ctx.phase == call.phase && t.ctx.connectedAt == call.connectedAt
            && hot.pendingInput == call.state.pendingInput && hot.roomName == call.state.roomName
            && hot.dispatchId == call.state.dispatchId && hot.sipIdentity == call.state.sipIdentity
            && hot.voice == call.state.voice
            && hot.facts == was.facts && hot.candidates == was.candidates && hot.commitments == was.commitments
            && hot.lastRemote == was.lastRemote && t.ctx.queue == s.ctx.queue && t.ctx.futures == s.ctx.futures
  {
    hide ApplySite;
  }

  // ---- The end of a conversation ----

  /** Asking for a completion, with the lock or without, shows the closing phase at once, changes nothing
      that the tools have gathered, and queues, unless the context is closed, one completion with all of
      that and the outcome asked for. */
  lemma FinishIsQueued(s: System, success: bool, reason: string, summary: string, notes: seq<string>)
    ensures var outcome := Outcome(success, reason, summary, s.ctx.hot.facts, s.ctx.hot.commitments, notes);
            var t := FinishCall(s, success, reason, summary, notes);
            && t.ctx.phase == Some(Phase.Closing) && t.ctx.hot == s.ctx.hot && t.row == s.row
            && t.ctx.queue == s.ctx.queue + if s.ctx.closed then [] else
                 [Work(Item(Store(Complete(s.ctx.hot, outcome)), true, Some(|s.ctx.futures|)))]
    ensures var outcome := Outcome(success, reason, summary, s.ctx.hot.facts, s.ctx.hot.commitments, []);
            var t := FinishUnlocked(s, success, reason, summary);
            && t.ctx.phase == Some(Phase.Closing) && t.ctx.hot == s.ctx.hot && t.row == s.row
            && t.ctx.queue == s.ctx.queue + if s.ctx.closed then [] else
                 [Work(Item(Store(Complete(s.ctx.hot, outcome)), true, Some(|s.ctx.futures|)))]
  {
    assert s.ctx.queue + [] == s.ctx.queue;
  }

  /** Whoever waited for a completion shows COMPLETING afterwards exactly when it was written. */
  lemma FinishIsShown(s: System, future: nat)
    requires future < |s.ctx.futures| && !s.ctx.futures[future].Waiting? && s.ctx.status != Completing
    ensures s.ctx.holder == Finishing(future) ==>
              (Resume(s).ctx.status == Completing <==> s.ctx.futures[future] == Done) && Resume(s).ctx.holder == Nobody
    ensures future in s.ctx.loose ==>
              (ResumeLoose(s, future).ctx.status == Completing <==> s.ctx.futures[future] == Done)
  {
  }
}
