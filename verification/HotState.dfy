/** The simulation between the durable row plus the pending queue and the hot state. */
module HotState {
  import opened Base
  import opened Models
  import opened Rows
  import opened CallSites
  import opened WriteBehind
  import opened QueueStates
  import opened CommitSafety
  import opened CommitRuns
  import P = Policy

  /** The hot commitments plus the one whose write is on its way or has landed. */
  function Ahead(s: System): seq<Commitment> {
    var h := s.ctx.holder;
    if h.Committing? && h.future < |s.ctx.futures| && !s.ctx.futures[h.future].Raised?
    then s.ctx.hot.commitments + [h.commitment] else s.ctx.hot.commitments
  }

  predicate Agree3(a: CallState, b: CallState) {
    a.facts == b.facts && a.candidates == b.candidates && a.commitments == b.commitments
  }

  predicate Matches(a: CallState, hot: CallState, commitments: seq<Commitment>) {
    a.facts == hot.facts && a.candidates == hot.candidates && a.lastRemote == hot.lastRemote
    && a.commitments == commitments
  }

  /** While nothing required has failed, performing the queue on the stored state gives the hot
      facts, candidates and last utterance, and the hot commitments plus at most the one in flight. */
  ghost predicate Simulates(s: System) {
    !s.ctx.failed && !s.ctx.closed ==> Matches(Replay(s.ctx.queue, s.row.call.state), s.ctx.hot, Ahead(s))
  }

  // ---- Replaying from another stored state ----

  /** Field by field, a replay either forgets where it started or keeps what it started with. */
  lemma {:induction false} ReplayFrom(queue: seq<Entry>, a: CallState, b: CallState)
    ensures var x, y := Replay(queue, a), Replay(queue, b);
            && (x.facts == y.facts || (x.facts == a.facts && y.facts == b.facts))
            && (x.candidates == y.candidates || (x.candidates == a.candidates && y.candidates == b.candidates))
            && (x.commitments == y.commitments || (x.commitments == a.commitments && y.commitments == b.commitments))
            && (x.lastRemote == y.lastRemote || (x.lastRemote == a.lastRemote && y.lastRemote == b.lastRemote))
    decreases |queue|
  {
    if queue != [] {
      ReplayFrom(queue[1..], Effect(queue[0], a), Effect(queue[0], b));
    }
  }

  /** A stored state that agrees with the old one, or is the hot one before ACTIVE, keeps the simulation. */
  lemma DirectKeepsMatch(queue: seq<Entry>, a: CallState, b: CallState, hot: CallState, commitments: seq<Commitment>)
    requires Matches(Replay(queue, a), hot, commitments)
    requires Matches(b, a, a.commitments) || (Matches(b, hot, hot.commitments) && a.commitments == hot.commitments)
    ensures Matches(Replay(queue, b), hot, commitments)
  {
    ReplayFrom(queue, a, b);
  }

  // ---- The flush under the lock ----

  predicate AllAgree(queue: seq<Entry>, hot: CallState) {
    forall e <- queue :: StateOf(e).Some? ==> Agree3(StateOf(e).value, hot)
  }

  /** Performing the queue up to the barrier gives the hot state, and what follows keeps it. */
  predicate BarrierTidy(queue: seq<Entry>, future: nat, state: CallState, hot: CallState) {
    queue != [] &&
    if WaitedBy(queue[0], future) then
      queue[0].item.op.Barrier? && Agree3(state, hot) && AllAgree(queue[1..], hot)
    else BarrierTidy(queue[1..], future, Effect(queue[0], state), hot)
  }

  /** The stored state holds the hot facts, candidates and commitments, and so do all queued ones. */
  predicate Flushed(s: System) {
    Agree3(s.row.call.state, s.ctx.hot) && AllAgree(s.ctx.queue, s.ctx.hot)
  }

  ghost predicate FlushOk(s: System) {
    var h := s.ctx.holder;
    && (h.Flushing? && !s.ctx.failed && h.future < |s.ctx.futures| ==>
          match s.ctx.futures[h.future]
          case Waiting => BarrierTidy(s.ctx.queue, h.future, s.row.call.state, s.ctx.hot)
          case Done => Flushed(s)
          case Raised => true)
    && (h.Asking? ==> Flushed(s))
  }

  lemma {:induction false} BarrierPush(queue: seq<Entry>, future: nat, state: CallState, hot: CallState, e: Entry)
    requires BarrierTidy(queue, future, state, hot)
    requires StateOf(e).Some? ==> Agree3(StateOf(e).value, hot)
    ensures BarrierTidy(queue + [e], future, state, hot)
    decreases |queue|
  {
    assert (queue + [e])[1..] == queue[1..] + [e];
    if !WaitedBy(queue[0], future) {
      BarrierPush(queue[1..], future, Effect(queue[0], state), hot, e);
    }
  }

  lemma {:induction false} BarrierStart(queue: seq<Entry>, future: nat, state: CallState, hot: CallState, e: Entry)
    requires Agree3(Replay(queue, state), hot)
    requires forall x <- queue :: !WaitedBy(x, future)
    requires WaitedBy(e, future) && e.item.op.Barrier?
    ensures BarrierTidy(queue + [e], future, state, hot)
    decreases |queue|
  {
    assert (queue + [e])[1..] == if queue == [] then [] else queue[1..] + [e];
    if queue != [] {
      assert queue[0] in queue;
      BarrierStart(queue[1..], future, Effect(queue[0], state), hot, e);
    }
  }

  lemma {:induction false} BarrierFrom(queue: seq<Entry>, future: nat, a: CallState, b: CallState, hot: CallState)
    requires BarrierTidy(queue, future, a, hot)
    requires Agree3(b, a) || Agree3(b, hot)
    ensures BarrierTidy(queue, future, b, hot)
    decreases |queue|
  {
    if !WaitedBy(queue[0], future) {
      BarrierFrom(queue[1..], future, Effect(queue[0], a), Effect(queue[0], b), hot);
    }
  }

  // ---- Every action keeps both ----

  ghost predicate Tracks(s: System) {
    Simulates(s) && FlushOk(s)
  }

  /** A snapshot of the hot state is pushed by a tool that holds the lock, or by one that does not
      need it and changes neither facts nor candidates nor commitments. */
  lemma SnapshotTracks(s: System, t: System, e: Entry)
    requires Tracks(s) && Safe(ViewOf(s))
    requires t.row == s.row && t.ctx.queue == s.ctx.queue + [e] && t.ctx.failed == s.ctx.failed
    requires t.ctx.closed == s.ctx.closed
    requires t.ctx.futures == s.ctx.futures || t.ctx.futures == s.ctx.futures + [Waiting]
    requires StateOf(e) == Some(t.ctx.hot) && !t.ctx.holder.Committing?
    requires Agree3(t.ctx.hot, s.ctx.hot) || s.ctx.holder.Nobody?
    requires t.ctx.holder == s.ctx.holder || t.ctx.holder.Saving? || t.ctx.holder.Finishing?
    ensures Tracks(t)
  {
    hide Replay, Queueable, Tidy;
    ReplayPush(s.ctx.queue, e, s.row.call.state);
    var h := s.ctx.holder;
    if h.Flushing? && t.ctx.holder == h && !s.ctx.failed && s.ctx.futures[h.future].Waiting? {
      BarrierHot(s.ctx.queue, h.future, s.row.call.state, s.ctx.hot, t.ctx.hot);
      BarrierPush(s.ctx.queue, h.future, s.row.call.state, t.ctx.hot, e);
    }
  }

  lemma {:induction false} BarrierHot(queue: seq<Entry>, future: nat, state: CallState, hot: CallState, hot': CallState)
    requires BarrierTidy(queue, future, state, hot) && Agree3(hot', hot)
    ensures BarrierTidy(queue, future, state, hot')
    decreases |queue|
  {
    if !WaitedBy(queue[0], future) {
      BarrierHot(queue[1..], future, Effect(queue[0], state), hot, hot');
    }
  }

  lemma CommitTracks(s: System, state: CallState, c: Commitment)
    requires Tracks(s) && s.ctx.holder.Nobody? && !s.ctx.closed
    requires state == s.ctx.hot.(commitments := s.ctx.hot.commitments + [c])
    ensures var t := PushWaiting(s, Store(Commit(state, c)));
            Tracks(t.(ctx := t.ctx.(holder := Committing(c, |s.ctx.futures|))))
  {
    hide Replay;
    ReplayPush(s.ctx.queue, Work(Item(Store(Commit(state, c)), true, Some(|s.ctx.futures|))), s.row.call.state);
  }

  /** Work without a snapshot is pushed; a final user turn moves the hot utterance along. */
  lemma PlainTracks(s: System, t: System, e: Entry)
    requires Tracks(s) && Safe(ViewOf(s))
    requires t.row == s.row && t.ctx.queue == s.ctx.queue + [e] && t.ctx.failed == s.ctx.failed
    requires t.ctx.closed == s.ctx.closed || e.Stop?
    requires e.Stop? ==> t.ctx.closed
    requires t.ctx.futures == s.ctx.futures || t.ctx.futures == s.ctx.futures + [Waiting]
    requires StateOf(e).None? && t.ctx.hot == s.ctx.hot.(lastRemote := Effect(e, s.ctx.hot).lastRemote)
    requires t.ctx.holder == s.ctx.holder
    ensures Tracks(t)
  {
    hide Replay, Queueable, Tidy;
    ReplayPush(s.ctx.queue, e, s.row.call.state);
    var h := s.ctx.holder;
    if h.Flushing? && !s.ctx.failed && s.ctx.futures[h.future].Waiting? {
      BarrierHot(s.ctx.queue, h.future, s.row.call.state, s.ctx.hot, t.ctx.hot);
      BarrierPush(s.ctx.queue, h.future, s.row.call.state, t.ctx.hot, e);
    }
  }

  lemma BeginAskTracks(s: System)
    requires Tracks(s) && Safe(ViewOf(s)) && s.ctx.holder.Nobody?
    ensures Tracks(BeginAsk(s))
  {
    hide Replay, Queueable, Tidy;
    if !s.ctx.closed {
      var e := Work(Item(Barrier, true, Some(|s.ctx.futures|)));
      ReplayPush(s.ctx.queue, e, s.row.call.state);
      if !s.ctx.failed {
        BarrierStart(s.ctx.queue, |s.ctx.futures|, s.row.call.state, s.ctx.hot, e);
      }
    }
  }

  /** The stored state is replaced by one that agrees with it, or by the hot one before ACTIVE. */
  lemma DirectTracks(s: System, t: System)
    requires Tracks(s) && Safe(ViewOf(s))
    requires t.ctx.queue == s.ctx.queue && t.ctx.failed == s.ctx.failed && t.ctx.closed == s.ctx.closed
    requires t.ctx.futures == s.ctx.futures
    requires Matches(t.ctx.hot, s.ctx.hot, s.ctx.hot.commitments)
    requires var a, b := s.row.call.state, t.row.call.state;
             Matches(b, a, a.commitments)
             || (Matches(b, s.ctx.hot, s.ctx.hot.commitments) && a.commitments == s.ctx.hot.commitments)
    requires t.ctx.holder == s.ctx.holder || (s.ctx.holder.Asking? && t.ctx.holder.Nobody?)
    ensures Tracks(t)
  {
    hide Replay, Queueable, Tidy;
    var a, b := s.row.call.state, t.row.call.state;
    if !s.ctx.failed && !s.ctx.closed {
      DirectKeepsMatch(s.ctx.queue, a, b, s.ctx.hot, Ahead(s));
    }
    var h := s.ctx.holder;
    if h.Flushing? && !s.ctx.failed && s.ctx.futures[h.future].Waiting? {
      BarrierFrom(s.ctx.queue, h.future, a, b, s.ctx.hot);
      BarrierHot(s.ctx.queue, h.future, b, s.ctx.hot, t.ctx.hot);
    }
  }

  lemma WriterSimulates(backend: Backend, s: System, fate: Fate, now: int)
    requires Simulates(s) && Safe(ViewOf(s)) && s.ctx.queue != [] && !s.ctx.stopped
    ensures Simulates(WriterStep(backend, s, fate, now))
  {
    hide Perform, Tidy, OneAheadAtMost;
    var e := s.ctx.queue[0];
    assert e in s.ctx.queue;
    if e.Work? {
      WriterRow(backend, s, fate, now);
    }
  }

  lemma WriterFlushes(backend: Backend, s: System, fate: Fate, now: int)
    requires FlushOk(s) && Safe(ViewOf(s)) && s.ctx.queue != [] && !s.ctx.stopped
    ensures FlushOk(WriterStep(backend, s, fate, now))
  {
    hide Perform, Tidy, OneAheadAtMost, Replay;
    var e := s.ctx.queue[0];
    assert e in s.ctx.queue;
    if e.Work? {
      WriterRow(backend, s, fate, now);
    }
  }

  lemma ResumeTracks(s: System)
    requires Tracks(s) && Safe(ViewOf(s)) && Resumable(s.ctx)
    ensures Tracks(Resume(s))
  {
    hide Replay, Safe;
  }
}
