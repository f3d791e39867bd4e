/** What happens to an open question without the discipline of Questions. */
module LostQuestions {
  import opened Base
  import opened Models
  import opened Rows
  import opened CallSites
  import opened WriteBehind
  import opened CommitRuns
  import opened CompletionRun
  import P = Policy

  /** A question is asked, and accepted, of a call that is ACTIVE. */
  lemma AskAccepted(backend: Backend, s: System, request: string, now: int)
    requires s.row.call.status.Active?
    ensures var t := Ask(backend, s, request, now);
            && t.row.call.status.InputRequired? && t.row.call.state.pendingInput == Some(request)
            && t.ctx == s.ctx.(hot := s.ctx.hot.(pendingInput := Some(request)), status := InputRequired,
                               holder := if s.ctx.holder.Asking? then Nobody else s.ctx.holder)
            && t.ending == s.ending
  {
    DirectEffect(backend, s.row, AskInput(s.row.call.state.(pendingInput := Some(request))), now);
    hide ApplySite;
  }

  /** A fact is recorded; its snapshot is the only queued write. */
  lemma FactQueued(s: System, key: string, value: Json)
    requires s.ctx.queue == [] && !s.ctx.closed
    ensures var t := RecordFact(s, key, value);
            var hot := s.ctx.hot.(facts := s.ctx.hot.facts[key := value]);
            && t.ctx == s.ctx.(hot := hot,
                 queue := [Work(Item(Store(Snapshot(hot, "call.fact_recorded", NO_PAYLOAD, InCall)), true, None))])
            && t.row == s.row && t.ending == s.ending
  {
  }

  /** That snapshot lands on a call that waits for an answer. */
  lemma FactLands(backend: Backend, s: System, hot: CallState, now: int)
    requires s.ctx.queue == [Work(Item(Store(Snapshot(hot, "call.fact_recorded", NO_PAYLOAD, InCall)), true, None))]
    requires !s.ctx.failed && !s.ctx.stopped && s.row.call.status.InputRequired?
    ensures var t := WriterStep(backend, s, Lands, now);
            t.row.call.status.InputRequired? && t.row.call.state == hot && !t.ctx.failed
  {
    WriteLands(backend, s, Snapshot(hot, "call.fact_recorded", NO_PAYLOAD, InCall), None, now);
    hide WriterStep;
  }

  /** A question that is asked without the lock, as the answering-machine decision does, can be
      overwritten by a snapshot that was queued before: the call then waits for no question, although
      every write has succeeded. */
  lemma UnlockedQuestionIsOverwritten(
    backend: Backend, s: System, key: string, value: Json, request: string, now: int)
    requires Quiet(s) && s.row.call.status.Active? && s.ctx.hot.pendingInput.None?
    ensures var run := [DoRecordFact(key, value), DoAsk(request, now), DoWriter(Lands, now)];
            && Valid(backend, s, run)
            && var t := After(backend, s, run);
               t.row.call.status.InputRequired? && t.row.call.state.pendingInput.None? && !t.ctx.failed
  {
    FactQueued(s, key, value);
    var a := RecordFact(s, key, value);
    hide RecordFact, Ask, WriterStep;
    AskAccepted(backend, a, request, now);
    var b := Ask(backend, a, request, now);
    FactLands(backend, b, a.ctx.hot, now);
    var t := WriterStep(backend, b, Lands, now);
    hide Next, Enabled;
    AskIsNext(backend, a, request, now);
    FactAndWriterAreNext(backend, s, b, key, value, now);
    Three(backend, s, DoRecordFact(key, value), a, DoAsk(request, now), b, DoWriter(Lands, now), t);
    hide Valid, After;
  }

  /** Nor does the lock alone help: when a second question is asked before the poll of the first one
      has noticed its answer, the poll clears the second question from the hot state, and the next
      snapshot wipes it from the row. */
  lemma PollForgetsNewerQuestion(
    backend: Backend, s: System, key: string, value: Json, request: string, now: int)
    requires s.ctx.holder.Asking? && s.ctx.queue == [] && !s.ctx.failed && !s.ctx.closed && !s.ctx.stopped
    requires s.ending.NotBegun? && s.row.call.status.Active?
    ensures var run := [DoAsk(request, now), DoAnswered, DoRecordFact(key, value), DoWriter(Lands, now)];
            && Valid(backend, s, run)
            && var t := After(backend, s, run);
               t.row.call.status.InputRequired? && t.row.call.state.pendingInput.None? && !t.ctx.failed
  {
    AskAccepted(backend, s, request, now);
    hide Next, Enabled, Valid, After;
    AskIsNext(backend, s, request, now);
    One(backend, s, DoAsk(request, now));
    var a := Ask(backend, s, request, now);
    hide Ask;
    var t := AfterThePoll(backend, a, key, value, now);
    var rest := [DoAnswered, DoRecordFact(key, value), DoWriter(Lands, now)];
    Then(backend, s, [DoAsk(request, now)], a, rest, t);
    assert [DoAsk(request, now)] + rest
        == [DoAsk(request, now), DoAnswered, DoRecordFact(key, value), DoWriter(Lands, now)];
  }

  lemma AskIsNext(backend: Backend, s: System, request: string, now: int)
    ensures s.ending.NotBegun? ==>
              Enabled(s, DoAsk(request, now)) && Next(backend, s, DoAsk(request, now)) == Ask(backend, s, request, now)
  {
  }

  lemma FactAndWriterAreNext(backend: Backend, s: System, b: System, key: string, value: Json, now: int)
    requires s.ctx.holder.Nobody? && !b.ctx.stopped && b.ctx.queue != []
    ensures Enabled(s, DoRecordFact(key, value)) && Next(backend, s, DoRecordFact(key, value)) == RecordFact(s, key, value)
    ensures Enabled(b, DoWriter(Lands, now)) && Next(backend, b, DoWriter(Lands, now)) == WriterStep(backend, b, Lands, now)
  {
  }

  /** The poll clears the hot state, and the next snapshot the row. */
  lemma AfterThePoll(backend: Backend, a: System, key: string, value: Json, now: int) returns (t: System)
    requires Quiet(a) && a.row.call.status.InputRequired?
    ensures LeadsTo(backend, a, [DoAnswered, DoRecordFact(key, value), DoWriter(Lands, now)], t)
    ensures t.row.call.status.InputRequired? && t.row.call.state.pendingInput.None? && !t.ctx.failed
  {
    hide LeadsTo;
    var b := a.(ctx := a.ctx.(hot := a.ctx.hot.(pendingInput := None), status := Active));
    hide WriterStep;
    FactQueued(b, key, value);
    var c := RecordFact(b, key, value);
    hide RecordFact;
    FactLands(backend, c, c.ctx.hot, now);
    t := WriterStep(backend, c, Lands, now);
    Three(backend, a, DoAnswered, b, DoRecordFact(key, value), c, DoWriter(Lands, now), t);
  }

  // ---- What may be written while a question is open ----

  lemma OnlyWriteFails(backend: Backend, s: System, site: Site, fate: Fate, now: int)
    requires s.ctx.queue == [Work(Item(Store(site), true, None))] && !s.ctx.failed && !s.ctx.stopped
    ensures WriterStep(backend, s, fate, now).ctx.failed <==> !Accepts(s.row.call, UpdateOf(site)) || !fate.Lands?
  {
    UpdateEffect(backend, s.row, UpdateOf(site), now);
    hide UpdateRow, UpdateOf;
  }

  /** A proposal can be written in ACTIVE only, a fact also while a question is open; the write of the
      one or the other fails exactly outside of these statuses or when its repository call does, and
      from then on every required write fails. */
  lemma ProposalFailsIff(
    backend: Backend, s: System, id: string, kind: string, value: Fields, key: string, fact: Json, fate: Fate, now: int)
    requires s.ctx.queue == [] && !s.ctx.failed && !s.ctx.closed && !s.ctx.stopped
    requires Propose(s, id, kind, value).ctx.queue != []
    ensures WriterStep(backend, Propose(s, id, kind, value), fate, now).ctx.failed <==>
            s.row.call.status != Active || fate != Lands
    ensures RecordFact(s, key, fact).ctx.queue != []
    ensures WriterStep(backend, RecordFact(s, key, fact), fate, now).ctx.failed <==>
            s.row.call.status !in {Active, InputRequired} || fate != Lands
  {
    hide P.Decide, WriterStep;
    var p, r := Propose(s, id, kind, value), RecordFact(s, key, fact);
    OnlyWriteFails(backend, p, p.ctx.queue[0].item.op.site, fate, now);
    OnlyWriteFails(backend, r, r.ctx.queue[0].item.op.site, fate, now);
  }
}
