/** The question a call waits for, and the worker's snapshots: when does a snapshot written over an
    open question carry it? */
module Questions {
  import opened Base
  import opened Models
  import opened Rows
  import opened CallSites
  import opened WriteBehind
  import opened QueueStates
  import opened CommitSafety
  import opened CommitRuns
  import P = Policy

  // ---- One queue ----

  /** Performing the queue on a row that waits for a question leaves that question in place at every
      point exactly when each queued snapshot carries it. */
  lemma {:induction false} QuestionKeptIff(queue: seq<Entry>, state: CallState, request: string)
    requires state.pendingInput == Some(request)
    ensures (forall k :: 0 <= k <= |queue| ==> Replay(queue[..k], state).pendingInput == Some(request))
            <==> (forall e <- queue :: StateOf(e).Some? ==> StateOf(e).value.pendingInput == Some(request))
    decreases |queue|
  {
    if queue != [] {
      var next := Effect(queue[0], state);
      forall k | 1 <= k <= |queue| ensures Replay(queue[..k], state) == Replay(queue[1..][..k - 1], next) {
        assert queue[..k][1..] == queue[1..][..k - 1];
      }
      assert queue[1..][..0] == [] && Replay([], next) == next;
      assert queue == [queue[0]] + queue[1..];
      if next.pendingInput == Some(request) {
        QuestionKeptIff(queue[1..], next, request);
        assert forall j :: 0 <= j <= |queue[1..]| ==> Replay(queue[1..][..j], next) == Replay(queue[..j + 1], state);
        assert queue[..0] == [] && Replay([], state) == state;
      } else {
        assert Replay(queue[..1], state) == next;
        assert StateOf(queue[0]).Some?;
      }
    }
  }

  // ---- Every run ----

  /** What a question depends on. */
  datatype Desk = Desk(
    queue: seq<Entry>,
    futures: seq<Future>,
    holder: Holder,
    hot: Option<string>,
    status: Status,
    stored: Option<string>)

  function DeskOf(s: System): Desk {
    Desk(s.ctx.queue, s.ctx.futures, s.ctx.holder, s.ctx.hot.pendingInput, s.row.call.status, s.row.call.state.pendingInput)
  }

  predicate IsSnapshot(e: Entry) {
    StateOf(e).Some? && !IsCompletion(e)
  }

  predicate NoSnapshots(queue: seq<Entry>) {
    forall e <- queue :: !IsSnapshot(e)
  }

  predicate Carry(queue: seq<Entry>, pending: Option<string>) {
    forall e <- queue :: IsSnapshot(e) ==> StateOf(e).value.pendingInput == pending
  }

  /** No snapshot is queued behind the barrier of this future. */
  predicate BarrierLast(queue: seq<Entry>, future: nat) {
    queue != [] && if WaitedBy(queue[0], future) then NoSnapshots(queue[1..]) else BarrierLast(queue[1..], future)
  }

  /** A call that waits for a question waits for the one the hot state shows, and so does every
      snapshot on its way; when a question is about to be asked no snapshot is on its way. */
  predicate InOrder(d: Desk) {
    && (d.status.InputRequired? ==> d.stored.Some? && d.hot == d.stored && Carry(d.queue, d.stored))
    && (d.holder.Asking? ==> NoSnapshots(d.queue))
    && (d.holder.Flushing? && d.holder.future < |d.futures| ==>
          if d.futures[d.holder.future].Waiting? then BarrierLast(d.queue, d.holder.future) else NoSnapshots(d.queue))
  }

  /** How the code must be used: a question is asked under the lock, after a flush, and the poll of a
      question does not clear the hot state while the row waits for an answer (to a newer one). */
  predicate Disciplined(s: System, a: Action) {
    && (a.DoAsk? ==> s.ctx.holder.Asking?)
    && (a.DoAnswered? ==> !s.row.call.status.InputRequired?)
  }

  predicate AllDisciplined(backend: Backend, s: System, run: seq<Action>)
    requires Valid(backend, s, run)
    decreases |run|
  {
    run == [] || (Disciplined(s, run[0]) && AllDisciplined(backend, Next(backend, s, run[0]), run[1..]))
  }

  // ---- Steps ----

  /** The queue stays; no call starts to wait; a question that is waited for stays. */
  lemma QuietInOrder(d: Desk, t: Desk)
    requires InOrder(d) && t.queue == d.queue && t.futures == d.futures
    requires t.holder == d.holder || t.holder.Nobody?
    requires t.status.InputRequired? ==> d.status.InputRequired? && t.stored == d.stored && t.hot == d.hot
    ensures InOrder(t)
  {
  }

  lemma {:induction false} BarrierPush(queue: seq<Entry>, future: nat, e: Entry)
    requires BarrierLast(queue, future) && !IsSnapshot(e)
    ensures BarrierLast(queue + [e], future)
    decreases |queue|
  {
    assert (queue + [e])[1..] == queue[1..] + [e];
    if !WaitedBy(queue[0], future) {
      BarrierPush(queue[1..], future, e);
    }
  }

  lemma {:induction false} BarrierNew(queue: seq<Entry>, future: nat, e: Entry)
    requires WaitedBy(e, future) && forall x <- queue :: !WaitedBy(x, future)
    ensures BarrierLast(queue + [e], future)
    decreases |queue|
  {
    assert (queue + [e])[1..] == if queue == [] then [] else queue[1..] + [e];
    if queue != [] {
      assert queue[0] in queue;
      BarrierNew(queue[1..], future, e);
    }
  }

  /** An entry is queued: a snapshot of the hot state while nobody holds the lock, or something else. */
  lemma PushInOrder(d: Desk, t: Desk, e: Entry)
    requires InOrder(d) && t.queue == d.queue + [e] && t.hot == d.hot && t.status == d.status && t.stored == d.stored
    requires t.futures == d.futures || t.futures == d.futures + [Waiting]
    requires IsSnapshot(e) ==> d.holder.Nobody? && StateOf(e).value.pendingInput == d.hot
    requires d.holder.Flushing? ==> d.holder.future < |d.futures|
    requires t.holder == d.holder
             || (d.holder.Nobody? && !t.holder.Asking?
                 && (t.holder.Flushing? ==>
                       t.holder.future == |d.futures| && t.futures == d.futures + [Waiting]
                       && WaitedBy(e, |d.futures|) && forall x <- d.queue :: !WaitedBy(x, |d.futures|)))
    ensures InOrder(t)
  {
    if t.holder == d.holder && d.holder.Flushing? && d.futures[d.holder.future].Waiting? {
      BarrierPush(d.queue, d.holder.future, e);
    }
    if t.holder != d.holder && t.holder.Flushing? {
      BarrierNew(d.queue, |d.futures|, e);
    }
    hide BarrierLast;
  }

  /** The writer takes the head; a snapshot it lands carries what the row waits for. */
  lemma WriterInOrder(backend: Backend, s: System, fate: Fate, now: int)
    requires InOrder(DeskOf(s)) && Safe(ViewOf(s)) && s.ctx.queue != [] && !s.ctx.stopped
    ensures InOrder(DeskOf(WriterStep(backend, s, fate, now)))
  {
    var e := s.ctx.queue[0];
    assert e in s.ctx.queue && s.ctx.queue == [e] + s.ctx.queue[1..];
    if e.Work? {
      WriterRow(backend, s, fate, now);
    }
    WriterFutures(backend, s, fate, now);
    var d, t := DeskOf(s), DeskOf(WriterStep(backend, s, fate, now));
    assert t.queue == d.queue[1..] && t.holder == d.holder && t.hot == d.hot;
    hide WriterStep, Safe;
    assert t.status.InputRequired? ==> d.status.InputRequired? && t.stored == d.stored;
  }

  /** A step of the writer settles at most the future of the head. */
  lemma WriterFutures(backend: Backend, s: System, fate: Fate, now: int)
    requires s.ctx.queue != [] && !s.ctx.stopped
    ensures var futures := WriterStep(backend, s, fate, now).ctx.futures;
            && |futures| == |s.ctx.futures|
            && (forall f :: 0 <= f < |futures| && !WaitedBy(s.ctx.queue[0], f) ==> futures[f] == s.ctx.futures[f])
            && (forall f :: 0 <= f < |futures| && WaitedBy(s.ctx.queue[0], f) ==> !futures[f].Waiting?)
  {
    hide Perform;
  }

  lemma ToolInOrder(backend: Backend, s: System, a: Action)
    requires InOrder(DeskOf(s)) && Safe(ViewOf(s)) && Enabled(s, a)
    requires a.DoRecordFact? || a.DoPropose? || a.DoAuthorize? || a.DoSave? || a.DoFinishCall? || a.DoFinishUnlocked?
    ensures InOrder(DeskOf(Next(backend, s, a)))
  {
    hide InOrder, Safe, P.Decide, FindCommitment;
    var t := Next(backend, s, a);
    SafeFlush(s);
    if t.ctx.queue == s.ctx.queue {
      QuietInOrder(DeskOf(s), DeskOf(t));
    } else {
      PushInOrder(DeskOf(s), DeskOf(t), t.ctx.queue[|s.ctx.queue|]);
    }
  }

  lemma OtherPushInOrder(backend: Backend, s: System, a: Action)
    requires InOrder(DeskOf(s)) && Safe(ViewOf(s)) && Enabled(s, a)
    requires a.DoBeginAsk? || a.DoNote? || a.DoBeginClose? || a.DoFinishClose?
    ensures InOrder(DeskOf(Next(backend, s, a)))
  {
    hide InOrder, Safe, Strip;
    var t := Next(backend, s, a);
    SafeFlush(s);
    if t.ctx.queue == s.ctx.queue {
      QuietInOrder(DeskOf(s), DeskOf(t));
    } else {
      PushInOrder(DeskOf(s), DeskOf(t), t.ctx.queue[|s.ctx.queue|]);
    }
  }

  lemma HearInOrder(s: System, role: Role, text: string, interrupted: bool)
    requires InOrder(DeskOf(s)) && Safe(ViewOf(s))
    ensures InOrder(DeskOf(Hear(s, role, text, interrupted)))
  {
    hide InOrder, Safe, Strip;
    var t := Hear(s, role, text, interrupted);
    SafeFlush(s);
    if t.ctx.queue == s.ctx.queue {
      QuietInOrder(DeskOf(s), DeskOf(t));
    } else {
      PushInOrder(DeskOf(s), DeskOf(t), t.ctx.queue[|s.ctx.queue|]);
    }
  }

  /** Futures and waiters are in range. */
  lemma SafeFlush(s: System)
    requires Safe(ViewOf(s))
    ensures s.ctx.holder.Flushing? ==> s.ctx.holder.future < |s.ctx.futures|
    ensures forall x <- s.ctx.queue :: !WaitedBy(x, |s.ctx.futures|)
  {
  }

  lemma ResumeInOrder(s: System)
    requires InOrder(DeskOf(s)) && Resumable(s.ctx)
    ensures InOrder(DeskOf(Resume(s)))
  {
    if !s.ctx.holder.Flushing? {
      QuietInOrder(DeskOf(s), DeskOf(Resume(s)));
    }
    hide BarrierLast;
  }

  /** Asked under the lock after a flush: nothing on its way can overwrite the question. */
  lemma AskInOrder(backend: Backend, s: System, request: string, now: int)
    requires InOrder(DeskOf(s)) && s.ctx.holder.Asking?
    ensures InOrder(DeskOf(Ask(backend, s, request, now)))
  {
    DirectEffect(backend, s.row, AskInput(s.row.call.state.(pendingInput := Some(request))), now);
    hide ApplySite, BarrierLast;
  }

  /** The writes that bypass the queue take a waiting call on, or leave it alone. */
  lemma DirectQuestion(backend: Backend, row: Row, site: Site, now: int)
    requires UpdateOf(site).status.Some? && !UpdateOf(site).status.value.InputRequired?
    ensures var before, after := row.call, Direct(backend, row, site, now).call;
            after.status.InputRequired? ==> before.status.InputRequired? && after.state == before.state
  {
    DirectEffect(backend, row, site, now);
    hide ApplySite, UpdateOf;
  }

  lemma DirectInOrder(backend: Backend, s: System, a: Action)
    requires InOrder(DeskOf(s)) && Enabled(s, a)
    requires a.DoOutside? || a.DoWriteCompleting? || a.DoWriteCompleted?
    ensures InOrder(DeskOf(Next(backend, s, a)))
  {
    var site :=
      match a
      case DoOutside(site, _) => site
      case DoWriteCompleting(_) => CompleteOnHangup(s.ending.outcome)
      case DoWriteCompleted(summary, _) =>
        Finish(s.ending.outcome.(summary := summary.GetOr(s.ending.outcome.summary)));
    assert UpdateOf(site).status.Some? && !UpdateOf(site).status.value.InputRequired?;
    hide ApplySite, InOrder, UpdateOf;
    DirectQuestion(backend, s.row, site, a.now);
    QuietInOrder(DeskOf(s), DeskOf(Next(backend, s, a)));
  }

  lemma WorkerInOrder(backend: Backend, s: System, site: Site, now: int)
    requires InOrder(DeskOf(s)) && WorkerSite(site, s.ctx.hot)
    ensures InOrder(DeskOf(WorkerWrite(backend, s, site, now)))
  {
    DirectEffect(backend, s.row, site, now);
    hide ApplySite, InOrder;
    QuietInOrder(DeskOf(s), DeskOf(WorkerWrite(backend, s, site, now)));
  }

  lemma NextInOrder(backend: Backend, s: System, a: Action)
    requires InOrder(DeskOf(s)) && Safe(ViewOf(s)) && Enabled(s, a) && Disciplined(s, a)
    ensures InOrder(DeskOf(Next(backend, s, a)))
  {
    hide InOrder, Safe, ApplySite, UpdateOf;
    if a.DoWriter? {
      WriterInOrder(backend, s, a.fate, a.now);
    } else if a.DoResume? {
      ResumeInOrder(s);
    } else if a.DoAsk? {
      AskInOrder(backend, s, a.request, a.now);
    } else if a.DoWorker? {
      WorkerInOrder(backend, s, a.site, a.now);
    } else if a.DoOutside? || a.DoWriteCompleting? || a.DoWriteCompleted? {
      DirectInOrder(backend, s, a);
    } else if a.DoHear? {
      HearInOrder(s, a.role, a.text, a.interrupted);
    } else if a.DoBeginAsk? || a.DoNote? || a.DoBeginClose? || a.DoFinishClose? {
      OtherPushInOrder(backend, s, a);
    } else if a.DoUsage? || a.DoResumeLoose? || a.DoAnswered? || a.DoReadForEnding? {
      QuietInOrder(DeskOf(s), DeskOf(Next(backend, s, a)));
    } else {
      ToolInOrder(backend, s, a);
    }
  }

  lemma {:induction false} RunInOrder(backend: Backend, s: System, run: seq<Action>)
    requires InOrder(DeskOf(s)) && Safe(ViewOf(s)) && Valid(backend, s, run) && AllDisciplined(backend, s, run)
    ensures InOrder(DeskOf(After(backend, s, run))) && Safe(ViewOf(After(backend, s, run)))
    decreases |run|
  {
    hide InOrder, Safe, Disciplined;
    if run != [] {
      NextInOrder(backend, s, run[0]);
      NextKeepsSafe(backend, s, run[0]);
      RunInOrder(backend, Next(backend, s, run[0]), run[1..]);
    }
  }

  /** Over every disciplined run a call that waits for a question names one, the same that the hot
      state shows and that every snapshot on its way carries; and no further step changes it while
      the call still waits. */
  lemma OpenQuestionIsKept(backend: Backend, s: System, run: seq<Action>, a: Action)
    requires Initial(s) && Valid(backend, s, run) && AllDisciplined(backend, s, run)
    requires Enabled(After(backend, s, run), a) && Disciplined(After(backend, s, run), a)
    ensures var m := After(backend, s, run);
            var t := Next(backend, m, a);
            m.row.call.status.InputRequired? ==>
              && m.row.call.state.pendingInput.Some?
              && m.ctx.hot.pendingInput == m.row.call.state.pendingInput
              && Carry(m.ctx.queue, m.row.call.state.pendingInput)
              && (t.row.call.status.InputRequired? ==> t.row.call.state.pendingInput == m.row.call.state.pendingInput)
  {
    assert InOrder(DeskOf(s)) && Safe(ViewOf(s));
    RunInOrder(backend, s, run);
    var m := After(backend, s, run);
    hide After, Valid, AllDisciplined, Initial, Safe, Next, Enabled, Disciplined;
    if m.row.call.status.InputRequired? && Next(backend, m, a).row.call.status.InputRequired? {
      StaysTheSame(backend, m, a);
    }
  }

  /** While a call waits, the row's question does not change. */
  lemma StaysTheSame(backend: Backend, s: System, a: Action)
    requires InOrder(DeskOf(s)) && Safe(ViewOf(s)) && Enabled(s, a) && Disciplined(s, a)
    requires s.row.call.status.InputRequired? && Next(backend, s, a).row.call.status.InputRequired?
    ensures Next(backend, s, a).row.call.state.pendingInput == s.row.call.state.pendingInput
  {
    NextInOrder(backend, s, a);
    HotQuestionStays(backend, s, a);
    hide Next, Safe;
  }

  /** Only asking, a worker's status write and the poll move the question the hot state shows. */
  lemma HotQuestionStays(backend: Backend, s: System, a: Action)
    requires Enabled(s, a) && Disciplined(s, a)
    requires s.row.call.status.InputRequired? && Next(backend, s, a).row.call.status.InputRequired?
    ensures Next(backend, s, a).ctx.hot.pendingInput == s.ctx.hot.pendingInput
  {
    hide P.Decide, FindCommitment, Strip, ApplySite;
    if a.DoAsk? {
      hide WriterStep, Propose, RecordFact, Hear, Authorize, Save;
      DirectEffect(backend, s.row, AskInput(s.row.call.state.(pendingInput := Some(a.request))), a.now);
    } else if a.DoWorker? {
      hide WriterStep, Propose, RecordFact, Hear, Authorize, Save;
      DirectEffect(backend, s.row, a.site, a.now);
    } else {
      hide Ask, WorkerWrite, UpdateOf, Perform, Settle;
    }
  }
}
