/** HotState over every run, and what a service write based on a stale read would do to it. */
module HotStateRuns {
  import opened Base
  import opened Models
  import opened Rows
  import opened CallSites
  import opened WriteBehind
  import opened QueueStates
  import opened CommitSafety
  import opened CommitRuns
  import opened HotState
  import P = Policy

  lemma LockedToolTracks(backend: Backend, s: System, a: Action)
    requires Tracks(s) && Safe(ViewOf(s)) && Enabled(s, a)
    requires a.DoRecordFact? || a.DoPropose? || a.DoSave? || a.DoFinishCall? || a.DoFinishUnlocked?
    ensures Tracks(Next(backend, s, a))
  {
    hide P.Decide, Safe, Replay, BarrierTidy;
    var t := Next(backend, s, a);
    if !s.ctx.closed && t.log.accepted != s.log.accepted {
      hide Tracks;
      SnapshotTracks(s, t, t.ctx.queue[|s.ctx.queue|]);
    }
  }

  lemma AuthorizeTracks(s: System, action: string, payload: Fields)
    requires Tracks(s) && s.ctx.holder.Nobody?
    ensures Tracks(Authorize(s, action, payload))
  {
    hide P.Decide, Replay, BarrierTidy;
    var t := Authorize(s, action, payload);
    if t.log.accepted != s.log.accepted {
      hide Tracks;
      var site := t.log.accepted[|s.log.accepted|].op.site;
      CommitTracks(s, site.state, site.commitment);
    }
  }

  lemma PlainPushTracks(backend: Backend, s: System, a: Action)
    requires Tracks(s) && Safe(ViewOf(s)) && Enabled(s, a)
    requires a.DoBeginClose? || a.DoNote? || a.DoFinishClose?
    ensures Tracks(Next(backend, s, a))
  {
    hide Safe, Replay, BarrierTidy;
    var t := Next(backend, s, a);
    if t.ctx.queue != s.ctx.queue {
      hide Tracks;
      PlainTracks(s, t, t.ctx.queue[|s.ctx.queue|]);
    } else if s.ctx.closed {
      ClosedTracks(s, t);
    }
  }

  lemma HearTracks(s: System, role: Role, text: string, interrupted: bool)
    requires Tracks(s) && Safe(ViewOf(s))
    ensures Tracks(Hear(s, role, text, interrupted))
  {
    hide Safe, Replay, BarrierTidy, Tracks, Strip;
    var t := Hear(s, role, text, interrupted);
    if t.ctx.queue != s.ctx.queue {
      PlainTracks(s, t, t.ctx.queue[|s.ctx.queue|]);
    } else if s.ctx.closed {
      ClosedTracks(s, t);
    }
  }

  /** After closing, a final user turn still moves the hot utterance, which no flush looks at. */
  lemma ClosedTracks(s: System, t: System)
    requires Tracks(s) && Safe(ViewOf(s)) && s.ctx.closed && t.ctx.closed
    requires t.ctx.queue == s.ctx.queue && t.ctx.failed == s.ctx.failed && t.ctx.futures == s.ctx.futures
    requires t.row == s.row && t.ctx.holder == s.ctx.holder && Agree3(t.ctx.hot, s.ctx.hot)
    ensures Tracks(t)
  {
    hide Replay, Queueable, Tidy;
    var h := s.ctx.holder;
    if h.Flushing? && !s.ctx.failed && s.ctx.futures[h.future].Waiting? {
      BarrierHot(s.ctx.queue, h.future, s.row.call.state, s.ctx.hot, t.ctx.hot);
    }
  }

  lemma WorkerTracks(backend: Backend, s: System, site: Site, now: int)
    requires Tracks(s) && Safe(ViewOf(s)) && WorkerSite(site, s.ctx.hot)
    ensures Tracks(WorkerWrite(backend, s, site, now))
  {
    hide Safe, Tracks, UpdateOf, ApplySite;
    if ApplySite(backend, s.row, site, now).Ok? {
      WorkerEffect(backend, s.row, site, s.ctx.hot, now);
      StoredWhenPreActive(s);
      DirectTracks(s, WorkerWrite(backend, s, site, now));
    }
  }

  lemma DirectWriteTracks(backend: Backend, s: System, a: Action)
    requires Tracks(s) && Safe(ViewOf(s)) && Enabled(s, a)
    requires a.DoAsk? || a.DoOutside? || a.DoWriteCompleting? || a.DoWriteCompleted?
    ensures Tracks(Next(backend, s, a))
  {
    hide Safe, Tracks, UpdateOf, ApplySite;
    var site :=
      match a
      case DoAsk(request, _) => AskInput(s.row.call.state.(pendingInput := Some(request)))
      case DoOutside(site, _) => site
      case DoWriteCompleting(_) => CompleteOnHangup(s.ending.outcome)
      case DoWriteCompleted(summary, _) =>
        Finish(s.ending.outcome.(summary := summary.GetOr(s.ending.outcome.summary)));
    OutsideEffect(backend, s.row, site, a.now);
    DirectTracks(s, Next(backend, s, a));
  }

  lemma NextKeepsTracks(backend: Backend, s: System, a: Action)
    requires Tracks(s) && Safe(ViewOf(s)) && Enabled(s, a)
    ensures Tracks(Next(backend, s, a))
  {
    hide Safe, Tracks, UpdateOf, ApplySite, P.Decide;
    if a.DoRecordFact? || a.DoPropose? || a.DoSave? || a.DoFinishCall? || a.DoFinishUnlocked? {
      LockedToolTracks(backend, s, a);
    } else if a.DoAuthorize? {
      AuthorizeTracks(s, a.action, a.payload);
    } else if a.DoBeginAsk? {
      BeginAskTracks(s);
    } else if a.DoBeginClose? || a.DoNote? || a.DoFinishClose? {
      PlainPushTracks(backend, s, a);
    } else if a.DoHear? {
      HearTracks(s, a.role, a.text, a.interrupted);
    } else if a.DoWorker? {
      WorkerTracks(backend, s, a.site, a.now);
    } else if a.DoAsk? || a.DoOutside? || a.DoWriteCompleting? || a.DoWriteCompleted? {
      DirectWriteTracks(backend, s, a);
    } else if a.DoResume? {
      ResumeTracks(s);
    } else if a.DoWriter? {
      WriterTracks(backend, s, a.fate, a.now);
    } else {
      DirectTracks(s, Next(backend, s, a));
    }
  }

  lemma WriterTracks(backend: Backend, s: System, fate: Fate, now: int)
    requires Tracks(s) && Safe(ViewOf(s)) && s.ctx.queue != [] && !s.ctx.stopped
    ensures Tracks(WriterStep(backend, s, fate, now))
  {
    WriterSimulates(backend, s, fate, now);
    WriterFlushes(backend, s, fate, now);
    hide Simulates, FlushOk;
  }

  lemma {:induction false} RunKeepsTracks(backend: Backend, s: System, run: seq<Action>)
    requires Tracks(s) && Safe(ViewOf(s)) && Valid(backend, s, run)
    ensures var t := After(backend, s, run); Tracks(t) && Safe(ViewOf(t))
    decreases |run|
  {
    hide Tracks, Safe;
    if run != [] {
      NextKeepsTracks(backend, s, run[0]);
      NextKeepsSafe(backend, s, run[0]);
      RunKeepsTracks(backend, Next(backend, s, run[0]), run[1..]);
    }
  }

  lemma InitialTracks(s: System)
    requires Initial(s)
    ensures Tracks(s) && Safe(ViewOf(s))
  {
  }

  /** The simulation: at every reachable state of an open context in which no required write has
      failed, performing the pending queue on the durable state gives exactly the hot facts,
      candidates and last utterance, and the hot commitments plus at most the one in flight. */
  lemma QueueClosesTheGap(backend: Backend, s: System, run: seq<Action>)
    requires Initial(s) && Valid(backend, s, run)
    ensures var t := After(backend, s, run);
            !t.ctx.failed && !t.ctx.closed ==>
              var r := Replay(t.ctx.queue, t.row.call.state);
              && r.facts == t.ctx.hot.facts && r.candidates == t.ctx.hot.candidates
              && r.lastRemote == t.ctx.hot.lastRemote
              && t.ctx.hot.commitments <= r.commitments && |r.commitments| <= |t.ctx.hot.commitments| + 1
              && (!t.ctx.holder.Committing? ==> r.commitments == t.ctx.hot.commitments)
  {
    InitialTracks(s);
    RunKeepsTracks(backend, s, run);
  }

  /** A flush under the lock that returns normally means durable equals hot on facts, candidates
      and commitments, even while transcripts and events keep flowing behind it; and that is still
      so when the question is asked. */
  lemma FlushMeansDurable(backend: Backend, s: System, run: seq<Action>)
    requires Initial(s) && Valid(backend, s, run)
    ensures var t := After(backend, s, run);
            (t.ctx.holder.Flushing? && t.ctx.holder.future < |t.ctx.futures|
             && t.ctx.futures[t.ctx.holder.future].Done? && !t.ctx.failed) || t.ctx.holder.Asking?
            ==> Agree3(t.row.call.state, t.ctx.hot)
  {
    InitialTracks(s);
    RunKeepsTracks(backend, s, run);
  }

  // ---- Why a service write must not interleave with a worker write ----

  /** What a service writes back of a state it read before: all of it, without the pending question. */
  function WrittenBack(read: CallState): CallState {
    read.(pendingInput := None)
  }

  /** A user turn on its way carries the last utterance. */
  predicate Utters(e: Entry) {
    e.Work? && e.item.op.Speak? && e.item.op.last.Some?
  }

  predicate SomeState(queue: seq<Entry>) {
    exists e <- queue :: StateOf(e).Some?
  }

  predicate SomeUtterance(queue: seq<Entry>) {
    exists e <- queue :: Utters(e)
  }

  /** Where performing a queue leads from two stored states: a queued snapshot makes up for any
      difference; without one facts, candidates and commitments differ in the end as they did at
      first, and the last utterance does so unless a user turn is queued. */
  lemma {:induction false} ReplayMeetsIff(queue: seq<Entry>, a: CallState, b: CallState)
    ensures var x, y := Replay(queue, a), Replay(queue, b);
            && (Agree3(x, y) <==> SomeState(queue) || Agree3(a, b))
            && (x.lastRemote == y.lastRemote <==>
                  SomeState(queue) || SomeUtterance(queue) || a.lastRemote == b.lastRemote)
    decreases |queue|
  {
    if queue != [] {
      var e, rest := queue[0], queue[1..];
      ReplayMeetsIff(rest, Effect(e, a), Effect(e, b));
      assert queue == [e] + rest;
      assert SomeState(queue) <==> StateOf(e).Some? || SomeState(rest);
      assert SomeUtterance(queue) <==> Utters(e) || SomeUtterance(rest);
    }
  }

  /** Whatever is on its way, the simulation survives the write-back exactly when each difference
      between the state that was read and the row is made up for by the queue: facts, candidates and
      commitments by a queued snapshot, the last utterance by a queued snapshot or user turn. */
  lemma WriteBackIff(s: System, read: CallState)
    requires Simulates(s) && !s.ctx.failed && !s.ctx.closed
    ensures var queue, row := s.ctx.queue, s.row.call.state;
            Simulates(s.(row := s.row.(call := s.row.call.(state := WrittenBack(read))))) <==>
              && (SomeState(queue) || Agree3(read, row))
              && (SomeState(queue) || SomeUtterance(queue) || read.lastRemote == row.lastRemote)
  {
    ReplayMeetsIff(s.ctx.queue, s.row.call.state, WrittenBack(read));
    hide Replay, SomeState, SomeUtterance;
  }

  /** The loss is real: an answer based on a state read before a commitment landed wipes that
      commitment from the durable row, and both writes report success. */
  lemma StaleAnswerLosesCommitment(backend: Backend, row: Row, hot: CallState, c: Commitment, now: int)
    requires row.call.status == InputRequired
    requires hot.commitments == row.call.state.commitments + [c] && c !in row.call.state.commitments
    ensures var read := row.call.state;
            var committed := ApplySite(backend, row, Commit(hot, c), now);
            && committed.Ok? && c in committed.value.call.state.commitments
            && var answered := ApplySite(backend, committed.value, InputReceived(read.(pendingInput := None)), now);
               answered.Ok? && c !in answered.value.call.state.commitments
  {
    DirectEffect(backend, row, Commit(hot, c), now);
    var committed := ApplySite(backend, row, Commit(hot, c), now).value;
    assert hot.commitments[|row.call.state.commitments|] == c;
    DirectEffect(backend, committed, InputReceived(row.call.state.(pendingInput := None)), now);
  }
}
