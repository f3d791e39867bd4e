/** A run of the write-behind model in which nothing fails: a call that is finished by its agent ends
    COMPLETED, with the outcome the agent gave. */
module CompletionRun {
  import opened Base
  import opened Models
  import opened Rows
  import opened CallSites
  import opened WriteBehind
  import opened CommitRuns

  ghost predicate LeadsTo(backend: Backend, s: System, run: seq<Action>, t: System) {
    Valid(backend, s, run) && After(backend, s, run) == t
  }

  lemma One(backend: Backend, s: System, a: Action)
    requires Enabled(s, a)
    ensures LeadsTo(backend, s, [a], Next(backend, s, a))
  {
    hide Next, Enabled;
    var t := Next(backend, s, a);
    assert [a][1..] == [];
    assert Valid(backend, t, []) && After(backend, t, []) == t;
  }

  lemma {:induction false} Then(backend: Backend, s: System, run: seq<Action>, m: System, rest: seq<Action>, t: System)
    requires LeadsTo(backend, s, run, m) && LeadsTo(backend, m, rest, t)
    ensures LeadsTo(backend, s, run + rest, t)
    decreases |run|
  {
    hide Next, Enabled;
    if run == [] {
      assert run + rest == rest;
    } else {
      assert (run + rest)[1..] == run[1..] + rest;
      Then(backend, Next(backend, s, run[0]), run[1..], m, rest, t);
    }
  }

  /** Three steps in a row. */
  lemma Three(backend: Backend, s: System, x: Action, a: System, y: Action, b: System, z: Action, t: System)
    requires Enabled(s, x) && Next(backend, s, x) == a
    requires Enabled(a, y) && Next(backend, a, y) == b
    requires Enabled(b, z) && Next(backend, b, z) == t
    ensures LeadsTo(backend, s, [x, y, z], t)
  {
    hide LeadsTo, Next, Enabled;
    One(backend, s, x);
    One(backend, a, y);
    One(backend, b, z);
    Then(backend, s, [x], a, [y], b);
    Then(backend, s, [x] + [y], b, [z], t);
    assert [x] + [y] + [z] == [x, y, z];
  }

  /** An open context with nothing to do. */
  predicate Quiet(s: System) {
    s.ctx.queue == [] && !s.ctx.failed && !s.ctx.closed && !s.ctx.stopped && s.ctx.holder.Nobody? && s.ending.NotBegun?
  }

  /** The only queued write lands. */
  lemma WriteLands(backend: Backend, s: System, site: Site, waiter: Option<nat>, now: int)
    requires s.ctx.queue == [Work(Item(Store(site), true, waiter))] && !s.ctx.failed && !s.ctx.stopped
    requires Accepts(s.row.call, UpdateOf(site))
    ensures var t := WriterStep(backend, s, Lands, now);
            var u := UpdateOf(site);
            && t.ctx == s.ctx.(queue := [], futures := Settle(s.ctx.futures, waiter, Done)) && t.ending == s.ending
            && t.row.call.status == u.status.GetOr(s.row.call.status)
            && t.row.call.state == u.state.GetOr(s.row.call.state)
            && t.row.call.outcome == Override(u.outcome, s.row.call.outcome)
  {
    UpdateEffect(backend, s.row, UpdateOf(site), now);
    hide UpdateRow, UpdateOf, Settle;
  }

  /** The worker's `call.active`. */
  lemma Activates(backend: Backend, s: System, now: int)
    requires s.row.call.status.Connected?
    ensures var t := WorkerWrite(backend, s, Activate(s.ctx.hot), now);
            && s.ctx == t.ctx.(hot := s.ctx.hot, status := s.ctx.status, phase := s.ctx.phase,
                               connectedAt := s.ctx.connectedAt)
            && t.ctx.hot == s.ctx.hot && t.log == s.log && t.ending == s.ending
            && t.row.call.status.Active? && t.row.call.outcome == s.row.call.outcome
  {
    DirectEffect(backend, s.row, Activate(s.ctx.hot), now);
    UpdateEffect(backend, s.row, UpdateOf(Activate(s.ctx.hot)), now);
    hide UpdateRow;
  }

  /** The call becomes active, and a fact is recorded and written. */
  lemma Talk(backend: Backend, s: System, key: string, value: Json, now: int) returns (t: System)
    requires Initial(s) && s.row.call.status.Connected?
    ensures LeadsTo(backend, s, [DoWorker(Activate(s.ctx.hot), now), DoRecordFact(key, value), DoWriter(Lands, now)], t)
    ensures Quiet(t) && t.ctx.futures == [] && t.row.call.status.Active? && t.row.call.outcome.None?
    ensures t.ctx.hot.facts == s.ctx.hot.facts[key := value] && t.ctx.hot.commitments == []
  {
    var site := Activate(s.ctx.hot);
    Activates(backend, s, now);
    var a := WorkerWrite(backend, s, site, now);
    hide WorkerWrite, WriterStep;
    var b := RecordFact(a, key, value);
    WriteLands(backend, b, b.ctx.queue[0].item.op.site, None, now);
    t := WriterStep(backend, b, Lands, now);
    Three(backend, s, DoWorker(site, now), a, DoRecordFact(key, value), b, DoWriter(Lands, now), t);
  }

  lemma CompletionLands(backend: Backend, s: System, state: CallState, outcome: Outcome, now: int)
    requires s.ctx.queue == [Work(Item(Store(Complete(state, outcome)), true, Some(0)))] && s.ctx.futures == [Waiting]
    requires !s.ctx.failed && !s.ctx.stopped && s.row.call.status.Active?
    ensures var t := WriterStep(backend, s, Lands, now);
            && t.ctx == s.ctx.(queue := [], futures := [Done]) && t.ending == s.ending
            && t.row.call.status.Completing? && t.row.call.outcome == Some(outcome)
  {
    WriteLands(backend, s, Complete(state, outcome), Some(0), now);
    hide WriterStep;
    assert [Waiting][0 := Done] == [Done];
  }

  lemma Finishes(s: System, outcome: Outcome)
    requires Quiet(s) && s.ctx.futures == []
    requires outcome.facts == s.ctx.hot.facts && outcome.commitments == s.ctx.hot.commitments
    ensures var t := FinishCall(s, outcome.success, outcome.reason, outcome.summary, outcome.notes);
            && t.ctx == s.ctx.(phase := Some(Phase.Closing), holder := Finishing(0), futures := [Waiting],
                               queue := [Work(Item(Store(Complete(s.ctx.hot, outcome)), true, Some(0)))])
            && t.row == s.row && t.ending == s.ending
  {
  }

  lemma ResumesFinished(s: System)
    requires s.ctx.holder == Finishing(0) && s.ctx.futures == [Done]
    ensures Resumable(s.ctx) && Resume(s) == s.(ctx := s.ctx.(holder := Nobody, status := Completing))
  {
  }

  lemma FinishNexts(backend: Backend, s: System, outcome: Outcome, a: System, b: System, now: int)
    requires s.ctx.holder.Nobody? && Resumable(b.ctx) && a.ctx.queue != [] && !a.ctx.stopped
    requires a == FinishCall(s, outcome.success, outcome.reason, outcome.summary, outcome.notes)
    ensures Next(backend, s, DoFinishCall(outcome.success, outcome.reason, outcome.summary, outcome.notes)) == a
    ensures Next(backend, a, DoWriter(Lands, now)) == WriterStep(backend, a, Lands, now)
    ensures Next(backend, b, DoResume) == Resume(b)
    ensures Enabled(s, DoFinishCall(outcome.success, outcome.reason, outcome.summary, outcome.notes))
    ensures Enabled(a, DoWriter(Lands, now)) && Enabled(b, DoResume)
  {
    hide FinishCall, WriterStep, Resume;
  }

  /** `finish_call`, its write, and what follows the await. */
  lemma FinishTalk(backend: Backend, s: System, outcome: Outcome, now: int) returns (t: System)
    requires Quiet(s) && s.ctx.futures == [] && s.row.call.status.Active? && s.row.call.outcome.None?
    requires outcome.facts == s.ctx.hot.facts && outcome.commitments == s.ctx.hot.commitments
    ensures LeadsTo(backend, s,
                    [DoFinishCall(outcome.success, outcome.reason, outcome.summary, outcome.notes),
                     DoWriter(Lands, now), DoResume], t)
    ensures Quiet(t) && t.row.call.status.Completing? && t.row.call.outcome == Some(outcome)
    ensures t.ctx.futures == [Done]
  {
    var finish := DoFinishCall(outcome.success, outcome.reason, outcome.summary, outcome.notes);
    var a := FinishCall(s, outcome.success, outcome.reason, outcome.summary, outcome.notes);
    Finishes(s, outcome);
    hide WriterStep, FinishCall, Resume, Next, Enabled, LeadsTo, UpdateOf;
    CompletionLands(backend, a, s.ctx.hot, outcome, now);
    var b := WriterStep(backend, a, Lands, now);
    assert b.ctx.futures == [Done] && b.ctx.holder == Finishing(0);
    ResumesFinished(b);
    t := Resume(b);
    FinishNexts(backend, s, outcome, a, b, now);
    Three(backend, s, finish, a, DoWriter(Lands, now), b, DoResume, t);
  }

  /** `close` with its flush. */
  lemma CloseDown(backend: Backend, s: System, now: int) returns (t: System)
    requires Quiet(s) && s.ctx.futures == [Done]
    ensures LeadsTo(backend, s, [DoBeginClose, DoWriter(Lands, now), DoFinishClose(1), DoWriter(Lands, now)], t)
    ensures t.ctx.closed && t.ctx.stopped && t.ending.NotBegun? && t.row == s.row
  {
    hide LeadsTo;
    var write := DoWriter(Lands, now);
    var a := Next(backend, s, DoBeginClose);
    assert a.ctx.queue == [Work(Item(Barrier, true, Some(1)))];
    var b := Next(backend, a, write);
    assert b.ctx.queue == [] && b.ctx.futures[1] == Done;
    var c := Next(backend, b, DoFinishClose(1));
    assert c.ctx.queue == [Stop];
    t := Next(backend, c, write);
    One(backend, s, DoBeginClose);
    One(backend, a, write);
    One(backend, b, DoFinishClose(1));
    One(backend, c, write);
    hide Next, Enabled;
    Then(backend, s, [DoBeginClose], a, [write], b);
    Then(backend, s, [DoBeginClose] + [write], b, [DoFinishClose(1)], c);
    Then(backend, s, [DoBeginClose] + [write] + [DoFinishClose(1)], c, [write], t);
    assert [DoBeginClose] + [write] + [DoFinishClose(1)] + [write] == [DoBeginClose, write, DoFinishClose(1), write];
  }

  /** `_complete_call` without a better summary. */
  lemma EndCall(backend: Backend, s: System, outcome: Outcome, now: int) returns (t: System)
    requires s.ctx.closed && s.ctx.stopped && s.ending.NotBegun?
    requires s.row.call.status.Completing? && s.row.call.outcome == Some(outcome)
    ensures LeadsTo(backend, s, [DoReadForEnding, DoWriteCompleted(None, now)], t)
    ensures t.row.call.status.Completed? && t.row.call.outcome == Some(outcome)
  {
    hide LeadsTo;
    var a := Next(backend, s, DoReadForEnding);
    DirectEffect(backend, a.row, Finish(outcome), now);
    t := Next(backend, a, DoWriteCompleted(None, now));
    One(backend, s, DoReadForEnding);
    One(backend, a, DoWriteCompleted(None, now));
    hide Next, Enabled;
    Then(backend, s, [DoReadForEnding], a, [DoWriteCompleted(None, now)], t);
    assert [DoReadForEnding] + [DoWriteCompleted(None, now)] == [DoReadForEnding, DoWriteCompleted(None, now)];
  }

  /** When no write fails, an answered call in which the agent records a fact and finishes ends
      COMPLETED, and its outcome is the agent's, with that fact in it. */
  lemma FinishedCallCompletes(
    backend: Backend, s: System, key: string, value: Json, success: bool, reason: string, summary: string,
    notes: seq<string>, now: int)
    requires Initial(s) && s.row.call.status.Connected?
    ensures exists run ::
              && Valid(backend, s, run)
              && After(backend, s, run).row.call.status.Completed?
              && After(backend, s, run).row.call.outcome ==
                 Some(Outcome(success, reason, summary, s.ctx.hot.facts[key := value], [], notes))
  {
    var outcome := Outcome(success, reason, summary, s.ctx.hot.facts[key := value], [], notes);
    var r1 := [DoWorker(Activate(s.ctx.hot), now), DoRecordFact(key, value), DoWriter(Lands, now)];
    var r2 := [DoFinishCall(success, reason, summary, notes), DoWriter(Lands, now), DoResume];
    var r3 := [DoBeginClose, DoWriter(Lands, now), DoFinishClose(1), DoWriter(Lands, now)];
    var r4 := [DoReadForEnding, DoWriteCompleted(None, now)];
    var a := Talk(backend, s, key, value, now);
    var b := FinishTalk(backend, a, outcome, now);
    var c := CloseDown(backend, b, now);
    var d := EndCall(backend, c, outcome, now);
    Then(backend, s, r1, a, r2, b);
    Then(backend, s, r1 + r2, b, r3, c);
    Then(backend, s, r1 + r2 + r3, c, r4, d);
    hide Valid, After, Next;
    assert LeadsTo(backend, s, r1 + r2 + r3 + r4, d);
  }
}
