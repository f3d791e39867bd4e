/** realtime/active_calls.py, the tools of voice/tools.py and the call end of worker/agent.py as one
    system: the hot state of a call, the queue drained by a single writer, and the stored row.

    Every action runs from one `await` to the next. A repository call is one action; what it does to
    the row and what it reports is chosen by a `Fate`. Tools hold the state lock from the first
    action to the last; the two completions that do not take it may not start while a commitment is
    in flight. A service write to the state is atomic with the read it is based on. */
module WriteBehind {
  import opened Base
  import opened Models
  import opened Rows
  import opened CallSites
  import P = Policy

  datatype Operation =
    | Store(site: Site)
    | Speak(role: Role, text: string, interrupted: bool, last: Option<string>)
    | Barrier

  datatype Item = Item(op: Operation, required: bool, waiter: Option<nat>)

  /** A queue element: work, or the `None` that ends the writer. */
  datatype Entry = Work(item: Item) | Stop

  datatype Future = Waiting | Done | Raised

  /** Who holds `_state_lock`, and the future it is awaiting. */
  datatype Holder =
    | Nobody
    | Committing(commitment: Commitment, future: nat)
    | Saving(future: nat)
    | Finishing(future: nat)
    | Flushing(future: nat)
    | Asking

  /** `ActiveCallContext`: `hot` is what `snapshot()` returns. */
  datatype Context = Context(
    hot: CallState,
    status: Status,
    phase: Option<Phase>,
    connectedAt: Option<int>,
    queue: seq<Entry>,
    futures: seq<Future>,
    failed: bool,
    closed: bool,
    stopped: bool,
    holder: Holder,
    loose: set<nat>,
    closers: set<nat>)

  datatype Answer = Answer(id: CommitId, allowed: bool, replay: bool)

  /** Histories: items in the order they were accepted, dequeued and took effect; futures in the
      order they were settled; answers given to the model. */
  datatype Log = Log(
    accepted: seq<Item>,
    handled: seq<Item>,
    landed: seq<Item>,
    settled: seq<nat>,
    answers: seq<Answer>)

  /** How far `_complete_call` is: not begun, about to write COMPLETING, about to write COMPLETED. */
  datatype Ending = NotBegun | Hangup(outcome: Outcome) | Enriching(outcome: Outcome) | Over

  datatype System = System(ctx: Context, row: Row, log: Log, ending: Ending)

  // ---- The queue ----

  function Push(s: System, op: Operation, required: bool): System {
    if s.ctx.closed then s
    else
      var item := Item(op, required, None);
      s.(ctx := s.ctx.(queue := s.ctx.queue + [Work(item)]), log := s.log.(accepted := s.log.accepted + [item]))
  }

  /** `_submit_and_wait` up to its `await`: the future is the newest one. */
  function PushWaiting(s: System, op: Operation): System
    requires !s.ctx.closed
  {
    var item := Item(op, true, Some(|s.ctx.futures|));
    s.(ctx := s.ctx.(queue := s.ctx.queue + [Work(item)], futures := s.ctx.futures + [Waiting]),
       log := s.log.(accepted := s.log.accepted + [item]))
  }

  // ---- The writer ----

  /** A repository call takes effect and returns, has no effect and raises, or takes effect and
      still raises (the acknowledgement is lost). */
  datatype Fate = Lands | Lost | LandsButRaises

  function Perform(backend: Backend, row: Row, op: Operation, now: int): Result<Row> {
    match op
    case Store(site) => ApplySite(backend, row, site, now)
    case Speak(role, text, interrupted, last) => AppendTurn(backend, row, role, text, interrupted, last, now)
    case Barrier => Ok(row)
  }

  function Settle(futures: seq<Future>, waiter: Option<nat>, result: Future): seq<Future> {
    if waiter.Some? && waiter.value < |futures| && futures[waiter.value].Waiting?
    then futures[waiter.value := result] else futures
  }

  /** One turn of the loop of `_run_persistence`. */
  function WriterStep(backend: Backend, s: System, fate: Fate, now: int): System
    requires s.ctx.queue != [] && !s.ctx.stopped
  {
    var head, tail := s.ctx.queue[0], s.ctx.queue[1..];
    match head
    case Stop => s.(ctx := s.ctx.(queue := tail, stopped := true))
    case Work(item) =>
      var skip := item.required && s.ctx.failed;
      var attempt := Perform(backend, s.row, item.op, now);
      var lands := !skip && attempt.Ok? && !fate.Lost?;
      var ok := lands && fate.Lands?;
      System(
        s.ctx.(queue := tail,
               failed := s.ctx.failed || (item.required && !ok),
               futures := Settle(s.ctx.futures, item.waiter, if ok then Done else Raised)),
        if lands then attempt.value else s.row,
        s.log.(handled := s.log.handled + [item],
               landed := if lands then s.log.landed + [item] else s.log.landed,
               settled := if item.waiter.Some? then s.log.settled + [item.waiter.value] else s.log.settled),
        s.ending)
  }

  // ---- The tools, each up to its first await ----

  function RecordFact(s: System, key: string, value: Json): System {
    var hot := s.ctx.hot.(facts := s.ctx.hot.facts[key := value]);
    Push(s.(ctx := s.ctx.(hot := hot)), Store(Snapshot(hot, "call.fact_recorded", NO_PAYLOAD, InCall)), true)
  }

  /** `propose_candidate`: a raising policy leaves no trace. */
  function Propose(s: System, id: string, kind: string, value: Fields): System {
    var action := if kind == "appointment" then "book_appointment" else kind;
    var verdict := P.Decide(s.ctx.hot.permissions, s.ctx.hot.constraints, action, value);
    if verdict.Raises? then s
    else
      var reason := if verdict.Denied? then Some(verdict.reason) else None;
      var hot := s.ctx.hot.(candidates := s.ctx.hot.candidates + [Candidate(id, kind, value, verdict.Allowed?, reason)]);
      Push(s.(ctx := s.ctx.(hot := hot)), Store(Snapshot(hot, "call.candidate_detected", NO_PAYLOAD, ActiveOnly)), true)
  }

  function FindCommitment(commitments: seq<Commitment>, id: CommitId): (r: Option<Commitment>)
    ensures r.Some? ==> r.value in commitments && r.value.id == id
    ensures r.None? ==> forall c <- commitments :: c.id != id
  {
    if commitments == [] then None
    else if commitments[0].id == id then Some(commitments[0])
    else FindCommitment(commitments[1..], id)
  }

  function NewCommitment(action: string, payload: Fields, verdict: P.Verdict): Commitment {
    var reason := if verdict.Denied? then Some(verdict.reason) else None;
    Commitment(CommitId(action, payload), action, payload, verdict.Allowed?, reason, verdict.Allowed?)
  }

  /** `authorize_commit` and `persist_commitment`: answer from the hot state, or submit and wait. */
  function Authorize(s: System, action: string, payload: Fields): System {
    var existing := FindCommitment(s.ctx.hot.commitments, CommitId(action, payload));
    if existing.Some? then
      s.(log := s.log.(answers := s.log.answers + [Answer(existing.value.id, existing.value.allowed, true)]))
    else
      var verdict := P.Decide(s.ctx.hot.permissions, s.ctx.hot.constraints, action, payload);
      if verdict.Raises? || s.ctx.closed then s
      else
        var c := NewCommitment(action, payload, verdict);
        var state := s.ctx.hot.(commitments := s.ctx.hot.commitments + [c]);
        var t := PushWaiting(s, Store(Commit(state, c)));
        t.(ctx := t.ctx.(holder := Committing(c, |s.ctx.futures|)))
  }

  /** A locked `persist_state_durable` after a change to the voice session. */
  function Save(s: System, voice: VoiceSession, name: string, payload: Payload, scope: Scope): System {
    var hot := s.ctx.hot.(voice := voice);
    var changed := s.(ctx := s.ctx.(hot := hot));
    if s.ctx.closed then changed
    else
      var t := PushWaiting(changed, Store(Snapshot(hot, name, payload, scope)));
      t.(ctx := t.ctx.(holder := Saving(|s.ctx.futures|)))
  }

  function OutcomeNow(s: System, success: bool, reason: string, summary: string, notes: seq<string>): Outcome {
    Outcome(success, reason, summary, s.ctx.hot.facts, s.ctx.hot.commitments, notes)
  }

  /** `persist_completion` up to its await. */
  function SubmitCompletion(s: System, outcome: Outcome): System {
    var changed := s.(ctx := s.ctx.(phase := Some(Phase.Closing)));
    if s.ctx.closed then changed else PushWaiting(changed, Store(Complete(s.ctx.hot, outcome)))
  }

  /** `finish_call`, under the lock. */
  function FinishCall(s: System, success: bool, reason: string, summary: string, notes: seq<string>): System {
    var t := SubmitCompletion(s, OutcomeNow(s, success, reason, summary, notes));
    if s.ctx.closed then t else t.(ctx := t.ctx.(holder := Finishing(|s.ctx.futures|)))
  }

  /** `_finish_amd_call` and the end of a successful `cold_transfer`, without the lock. */
  function FinishUnlocked(s: System, success: bool, reason: string, summary: string): System {
    var t := SubmitCompletion(s, OutcomeNow(s, success, reason, summary, []));
    if s.ctx.closed then t else t.(ctx := t.ctx.(loose := t.ctx.loose + {|s.ctx.futures|}))
  }

  /** `request_user_input` up to the await of its flush. */
  function BeginAsk(s: System): System {
    if s.ctx.closed then s
    else
      var t := PushWaiting(s, Barrier);
      t.(ctx := t.ctx.(holder := Flushing(|s.ctx.futures|)))
  }

  /** `persist_transcript` */
  function Hear(s: System, role: Role, text: string, interrupted: bool): System {
    var transcript := Strip(text);
    if transcript == [] then s
    else
      var last := if role.User? then Some(transcript) else None;
      var changed := if role.User? then s.(ctx := s.ctx.(hot := s.ctx.hot.(lastRemote := last))) else s;
      Push(changed, Speak(role, transcript, interrupted, last), true)
  }

  // ---- What runs after an await ----

  predicate Resumable(ctx: Context) {
    (ctx.holder.Committing? || ctx.holder.Saving? || ctx.holder.Finishing? || ctx.holder.Flushing?)
    && ctx.holder.future < |ctx.futures| && !ctx.futures[ctx.holder.future].Waiting?
  }

  /** The holder of the lock wakes up: the commitment enters the hot state only now. */
  function Resume(s: System): System
    requires Resumable(s.ctx)
  {
    var done := s.ctx.futures[s.ctx.holder.future].Done?;
    match s.ctx.holder
    case Committing(c, _) =>
      if done then
        s.(ctx := s.ctx.(hot := s.ctx.hot.(commitments := s.ctx.hot.commitments + [c]), holder := Nobody),
           log := s.log.(answers := s.log.answers + [Answer(c.id, c.allowed, false)]))
      else s.(ctx := s.ctx.(holder := Nobody))
    case Saving(_) => s.(ctx := s.ctx.(holder := Nobody))
    case Finishing(_) =>
      s.(ctx := s.ctx.(holder := Nobody, status := if done then Completing else s.ctx.status))
    case Flushing(_) => s.(ctx := s.ctx.(holder := if done && !s.ctx.failed then Asking else Nobody))
    case Asking => s
    case Nobody => s
  }

  predicate LooseResumable(ctx: Context, future: nat) {
    future in ctx.loose && future < |ctx.futures| && !ctx.futures[future].Waiting?
  }

  function ResumeLoose(s: System, future: nat): System
    requires LooseResumable(s.ctx, future)
  {
    s.(ctx := s.ctx.(loose := s.ctx.loose - {future},
                     status := if s.ctx.futures[future].Done? then Completing else s.ctx.status))
  }

  function BeginClose(s: System): System {
    if s.ctx.closed then s
    else
      var t := PushWaiting(s, Barrier);
      t.(ctx := t.ctx.(closers := t.ctx.closers + {|s.ctx.futures|}))
  }

  predicate CloseResumable(ctx: Context, future: nat) {
    future in ctx.closers && future < |ctx.futures| && !ctx.futures[future].Waiting?
  }

  /** After the flush of `close`, whether it raised or not. */
  function FinishClose(s: System, future: nat): System
    requires CloseResumable(s.ctx, future)
  {
    s.(ctx := s.ctx.(closers := s.ctx.closers - {future}, closed := true, queue := s.ctx.queue + [Stop]))
  }

  // ---- Writes that bypass the queue ----

  /** The result of a direct repository call: a raise leaves the row. */
  function Direct(backend: Backend, row: Row, site: Site, now: int): Row {
    var r := ApplySite(backend, row, site, now);
    if r.Ok? then r.value else row
  }

  /** `request_input`, called under the lock after a flush, or by the answering-machine decision. */
  function Ask(backend: Backend, s: System, request: string, now: int): System {
    var r := ApplySite(backend, s.row, AskInput(s.row.call.state.(pendingInput := Some(request))), now);
    var free := s.(ctx := s.ctx.(holder := if s.ctx.holder.Asking? then Nobody else s.ctx.holder));
    if r.Err? then free
    else free.(row := r.value,
               ctx := free.ctx.(hot := s.ctx.hot.(pendingInput := Some(request)), status := InputRequired))
  }

  /** The worker's own status writes, followed by `apply_call`. */
  predicate WorkerSite(site: Site, hot: CallState) {
    site == Dial(hot) || site.Ring? || site.Connect? || site == Activate(hot)
  }

  function ApplyCall(ctx: Context, call: CallRecord): Context {
    ctx.(status := call.status, phase := call.phase, connectedAt := call.connectedAt,
         hot := ctx.hot.(pendingInput := call.state.pendingInput, roomName := call.state.roomName,
                         dispatchId := call.state.dispatchId, sipIdentity := call.state.sipIdentity,
                         voice := call.state.voice))
  }

  function WorkerWrite(backend: Backend, s: System, site: Site, now: int): System {
    var r := ApplySite(backend, s.row, site, now);
    if r.Err? then s else s.(row := r.value, ctx := ApplyCall(s.ctx, r.value.call))
  }

  /** Writes of the service and of the failure paths: answers to a question, based on the stored
      state, and status writes that end the call. */
  predicate OutsideSite(site: Site, state: CallState) {
    match site
    case InputReceived(st) => st == state.(pendingInput := None)
    case InputTimeout(st) => st == state.(pendingInput := None)
    case Cancel(read) => !read.Terminal()
    case SipFailed(_) => true
    case WorkerFailed(read, _) => !read.Terminal()
    case _ => false
  }

  // ---- `_complete_call` ----

  function HangupOutcome(call: CallRecord): Outcome {
    var confirmed := exists c <- call.state.commitments :: c.allowed && c.confirmed;
    Outcome(call.direction.Inbound? || confirmed, "remote_hangup",
            if call.direction.Inbound? then "Eingehendes Gespräch wurde beendet."
            else if confirmed then "Gespräch beendet; verbindliche Zusage wurde erfasst."
            else "Gespräch wurde ohne verbindliche Zusage beendet.",
            call.state.facts, call.state.commitments, [])
  }

  function ReadForEnding(s: System): System {
    var call := s.row.call;
    if call.status.Terminal() then s.(ending := Over)
    else if call.outcome.Some? then s.(ending := Enriching(call.outcome.value))
    else if call.status.Completing? then s.(ending := Enriching(HangupOutcome(call)))
    else s.(ending := Hangup(HangupOutcome(call)))
  }

  function WriteCompleting(backend: Backend, s: System, now: int): System
    requires s.ending.Hangup?
  {
    var r := ApplySite(backend, s.row, CompleteOnHangup(s.ending.outcome), now);
    if r.Err? then s.(ending := Over) else s.(row := r.value, ending := Enriching(s.ending.outcome))
  }

  /** The supervisor may replace the summary, nothing else. */
  function WriteCompleted(backend: Backend, s: System, summary: Option<string>, now: int): System
    requires s.ending.Enriching?
  {
    var outcome := s.ending.outcome.(summary := summary.GetOr(s.ending.outcome.summary));
    s.(row := Direct(backend, s.row, Finish(outcome), now), ending := Over)
  }

  // ---- The transition system ----

  datatype Action =
    | DoRecordFact(key: string, value: Json)
    | DoPropose(id: string, kind: string, value_: Fields)
    | DoAuthorize(action: string, payload: Fields)
    | DoSave(voice: VoiceSession, name: string, report: Payload, scope: Scope)
    | DoFinishCall(success: bool, reason: string, summary: string, notes: seq<string>)
    | DoFinishUnlocked(success: bool, reason: string, summary: string)
    | DoBeginAsk
    | DoHear(role: Role, text: string, interrupted: bool)
    | DoNote(name: string, note: Payload)
    | DoUsage(usage: Json)
    | DoResume
    | DoResumeLoose(future: nat)
    | DoBeginClose
    | DoFinishClose(future: nat)
    | DoWriter(fate: Fate, now: int)
    | DoAsk(request: string, now: int)
    | DoAnswered
    | DoWorker(site: Site, now: int)
    | DoOutside(site: Site, now: int)
    | DoReadForEnding
    | DoWriteCompleting(now: int)
    | DoWriteCompleted(enriched: Option<string>, now: int)

  predicate Enabled(s: System, a: Action) {
    var free := s.ctx.holder.Nobody?;
    match a
    case DoRecordFact(_, _) => free
    case DoPropose(_, _, _) => free
    case DoAuthorize(_, _) => free
    case DoSave(_, _, _, _) => free
    case DoFinishCall(_, _, _, _) => free
    case DoFinishUnlocked(_, _, _) => !s.ctx.holder.Committing?
    case DoBeginAsk => free
    case DoHear(_, _, _) => true
    case DoNote(_, _) => true
    case DoUsage(_) => true
    case DoResume => Resumable(s.ctx)
    case DoResumeLoose(f) => LooseResumable(s.ctx, f)
    case DoBeginClose => true
    case DoFinishClose(f) => CloseResumable(s.ctx, f)
    case DoWriter(_, _) => s.ctx.queue != [] && !s.ctx.stopped
    case DoAsk(_, _) => s.ending.NotBegun?
    case DoAnswered => free
    case DoWorker(site, _) => WorkerSite(site, s.ctx.hot) && s.ending.NotBegun?
    case DoOutside(site, _) => OutsideSite(site, s.row.call.state)
    case DoReadForEnding => s.ctx.closed && s.ctx.stopped && s.ending.NotBegun?
    case DoWriteCompleting(_) => s.ending.Hangup?
    case DoWriteCompleted(_, _) => s.ending.Enriching?
  }

  function Next(backend: Backend, s: System, a: Action): System
    requires Enabled(s, a)
  {
    match a
    case DoRecordFact(key, value) => RecordFact(s, key, value)
    case DoPropose(id, kind, value) => Propose(s, id, kind, value)
    case DoAuthorize(action, payload) => Authorize(s, action, payload)
    case DoSave(voice, name, payload, scope) => Save(s, voice, name, payload, scope)
    case DoFinishCall(success, reason, summary, notes) => FinishCall(s, success, reason, summary, notes)
    case DoFinishUnlocked(success, reason, summary) => FinishUnlocked(s, success, reason, summary)
    case DoBeginAsk => BeginAsk(s)
    case DoHear(role, text, interrupted) => Hear(s, role, text, interrupted)
    case DoNote(name, payload) => Push(s, Store(Note(name, payload)), false)
    case DoUsage(usage) => s.(ctx := s.ctx.(hot := s.ctx.hot.(voice := s.ctx.hot.voice.(usage := usage))))
    case DoResume => Resume(s)
    case DoResumeLoose(f) => ResumeLoose(s, f)
    case DoBeginClose => BeginClose(s)
    case DoFinishClose(f) => FinishClose(s, f)
    case DoWriter(fate, now) => WriterStep(backend, s, fate, now)
    case DoAsk(request, now) => Ask(backend, s, request, now)
    case DoAnswered => s.(ctx := s.ctx.(hot := s.ctx.hot.(pendingInput := None), status := Active))
    case DoWorker(site, now) => WorkerWrite(backend, s, site, now)
    case DoOutside(site, now) => s.(row := Direct(backend, s.row, site, now))
    case DoReadForEnding => ReadForEnding(s)
    case DoWriteCompleting(now) => WriteCompleting(backend, s, now)
    case DoWriteCompleted(summary, now) => WriteCompleted(backend, s, summary, now)
  }

  /** A worker takes over a call that it has just moved to PREWARMING, or an inbound one that is
      CONNECTED; nothing has been committed yet. */
  predicate Initial(s: System) {
    && s.row.call.status in {Prewarming, Connected}
    && s.row.call.outcome.None?
    && s.row.call.state.commitments == []
    && s.ctx.hot == s.row.call.state.(sipIdentity := s.ctx.hot.sipIdentity)
    && s.ctx == Context(s.ctx.hot, s.row.call.status, s.row.call.phase, s.row.call.connectedAt,
                        [], [], false, false, false, Nobody, {}, {})
    && s.log == Log([], [], [], [], [])
    && s.ending.NotBegun?
  }

  predicate Valid(backend: Backend, s: System, run: seq<Action>)
    decreases |run|
  {
    run == [] || (Enabled(s, run[0]) && Valid(backend, Next(backend, s, run[0]), run[1..]))
  }

  /** The state after a run. */
  function After(backend: Backend, s: System, run: seq<Action>): System
    requires Valid(backend, s, run)
    decreases |run|
  {
    if run == [] then s else After(backend, Next(backend, s, run[0]), run[1..])
  }
}
