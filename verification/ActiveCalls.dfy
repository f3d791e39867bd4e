/** realtime/active_calls.py: the hot state of one call, changed in place, and the writer that drains
    its queue. A coroutine that awaits is split into the methods that run before and after. */
module ActiveCalls {
  import opened Base
  import opened Models
  import opened Rows
  import opened CallSites
  import CallStore
  import opened MemoryRepository
  import opened W = WriteBehind
  import A = Accounting

  datatype Performed = Performed(store: CallStore.Store, raised: bool, landed: bool)

  /** A repository call. `Lost` raises before it has an effect, `LandsButRaises` after it; otherwise
      it raises exactly when the repository does. */
  function PerformOn(s: CallStore.Store, id: string, op: Operation, fate: Fate, now: int): Performed
    requires id in s.rows
  {
    var attempt := W.Perform(Memory, s.rows[id], op, now);
    var landed := attempt.Ok? && !fate.Lost?;
    Performed(if landed then s.(rows := s.rows[id := attempt.value]) else s, !(landed && fate.Lands?), landed)
  }

  function AttemptOn(s: CallStore.Store, id: string, item: Item, failed: bool, fate: Fate, now: int): Performed
    requires id in s.rows
  {
    if item.required && failed then Performed(s, true, false) else PerformOn(s, id, item.op, fate, now)
  }

  /** Nothing but the row of this call differs. */
  ghost predicate OthersKept(s: CallStore.Store, t: CallStore.Store, id: string) {
    t.rows.Keys == s.rows.Keys && t.inputs == s.inputs && forall x <- s.rows :: x != id ==> t.rows[x] == s.rows[x]
  }

  lemma PerformIs(s: CallStore.Store, id: string, op: Operation, fate: Fate, now: int)
    requires id in s.rows
    ensures PerformOn(s, id, op, fate, now) ==
            if fate.Lost? then Performed(s, true, false)
            else match op
              case Store(site) =>
                var (t, r) := CallStore.AfterUpdate(Memory, s, id, UpdateOf(site), now);
                Performed(t, r.Err? || fate.LandsButRaises?, r.Ok?)
              case Speak(role, text, interrupted, last) =>
                var (t, r) := CallStore.Append(Memory, s, id, role, text, interrupted, last, now);
                Performed(t, r.Err? || fate.LandsButRaises?, r.Ok?)
              case Barrier => Performed(s, fate.LandsButRaises?, true)
  {
    hide UpdateOf, Strip;
    assert s.rows[id := s.rows[id]] == s.rows;
  }

  class ActiveCallContext {
    const callId: string
    const objective: string
    const constraints: seq<Constraint>
    const permissions: Permissions
    const repository: MemoryCallRepository
    var facts: Fields
    var candidates: seq<Candidate>
    var commitments: seq<Commitment>
    var pendingInput: Option<string>
    var phase: Option<Phase>
    var status: Status
    var connectedAt: Option<int>
    var roomName: Option<string>
    var dispatchId: Option<string>
    var sipIdentity: Option<string>
    var lastRemote: Option<string>
    var voice: VoiceSession
    var queue: seq<Entry>
    var requiredFailure: bool
    var closed: bool
    // what asyncio keeps: the completion futures, the writer task, and who awaits what
    var futures: seq<Future>
    var writerDone: bool
    var holder: Holder
    var loose: set<nat>
    var closers: set<nat>
    ghost var log: Log

    ghost predicate Valid()
      reads this, repository
    {
      repository.Valid() && callId in repository.View().rows
    }

    function Snapshot(): CallState
      reads `facts, `candidates, `commitments, `pendingInput, `roomName, `dispatchId, `sipIdentity, `lastRemote, `voice
    {
      CallState(objective, constraints, permissions, facts, candidates, commitments, pendingInput, roomName,
                dispatchId, sipIdentity, lastRemote, voice)
    }

    ghost function Ctx(): Context
      reads this
    {
      Context(Snapshot(), status, phase, connectedAt, queue, futures, requiredFailure, closed, writerDone, holder,
              loose, closers)
    }

    /** This object and its row as a state of the write-behind model. */
    ghost function View(): System
      requires Valid()
      reads this, repository
    {
      System(Ctx(), repository.View().rows[callId], log, NotBegun)
    }

    constructor FromCall(call: CallRecord, repository: MemoryCallRepository)
      requires repository.Valid() && call.id in repository.View().rows
      ensures Valid() && this.repository == repository && callId == call.id
      ensures View() == System(
                Context(call.state, call.status, call.phase, call.connectedAt, [], [], false, false, false, Nobody, {}, {}),
                repository.View().rows[call.id], Log([], [], [], [], []), NotBegun)
    {
      var s := call.state;
      callId, this.repository := call.id, repository;
      objective, constraints, permissions := s.objective, s.constraints, s.permissions;
      facts, candidates, commitments := s.facts, s.candidates, s.commitments;
      pendingInput, roomName, dispatchId, sipIdentity := s.pendingInput, s.roomName, s.dispatchId, s.sipIdentity;
      lastRemote, voice := s.lastRemote, s.voice;
      phase, status, connectedAt := call.phase, call.status, call.connectedAt;
      queue, requiredFailure, closed := [], false, false;
      futures, writerDone, holder, loose, closers := [], false, Nobody, {}, {};
      log := Log([], [], [], [], []);
    }

    method ApplyCall(call: CallRecord)
      modifies this`status, this`phase, this`connectedAt, this`pendingInput, this`roomName, this`dispatchId,
               this`sipIdentity, this`voice
      ensures Ctx() == W.ApplyCall(old(Ctx()), call)
    {
      ApplyState(call.state);
      status, phase, connectedAt := call.status, call.phase, call.connectedAt;
      hide Snapshot;
    }

    method ApplyState(state: CallState)
      modifies this`pendingInput, this`roomName, this`dispatchId, this`sipIdentity, this`voice
      ensures Snapshot() == old(Snapshot()).(pendingInput := state.pendingInput, roomName := state.roomName,
                                             dispatchId := state.dispatchId, sipIdentity := state.sipIdentity,
                                             voice := state.voice)
    {
      pendingInput, roomName := state.pendingInput, state.roomName;
      dispatchId, sipIdentity, voice := state.dispatchId, state.sipIdentity, state.voice;
    }

    method RecordFact(key: string, value: Json)
      modifies this`facts
      ensures facts == old(facts)[key := value]
    {
      facts := facts[key := value];
    }

    method AddCandidate(candidate: Candidate)
      modifies this`candidates
      ensures candidates == old(candidates) + [candidate]
    {
      candidates := candidates + [candidate];
    }

    method AddCommitment(commitment: Commitment)
      modifies this`commitments
      ensures commitments == old(commitments) + [commitment]
    {
      commitments := commitments + [commitment];
    }

    /** `record_amd_result`, `record_transfer`, `record_model_usage`, `record_session_report` */
    method RecordVoiceSession(voice: VoiceSession)
      modifies this`voice
      ensures this.voice == voice
    {
      this.voice := voice;
    }

    method FindCommitment(id: CommitId) returns (found: Option<Commitment>)
      ensures found == W.FindCommitment(commitments, id)
    {
      for i := 0 to |commitments|
        invariant W.FindCommitment(commitments[i..], id) == W.FindCommitment(commitments, id)
      {
        assert commitments[i..][1..] == commitments[i + 1..];
        if commitments[i].id == id {
          return Some(commitments[i]);
        }
      }
      return None;
    }

    // ---- Submitting ----

    /** `_submit`; the result says whether it did not raise. */
    method Submit(op: Operation, required: bool) returns (accepted: bool)
      requires Valid()
      modifies this`queue, this`log
      ensures Valid() && View() == Push(old(View()), op, required) && accepted == !closed
    {
      if closed {
        return false;
      }
      var item := Item(op, required, None);
      queue := queue + [Work(item)];
      log := log.(accepted := log.accepted + [item]);
      return true;
    }

    /** `_submit_and_wait` up to its await. */
    method SubmitAndWait(op: Operation) returns (future: Option<nat>)
      requires Valid()
      modifies this`queue, this`futures, this`log
      ensures Valid()
      ensures if closed then future == None && View() == old(View())
              else future == Some(old(|futures|)) && View() == PushWaiting(old(View()), op)
    {
      if closed {
        return None;
      }
      var completion := |futures|;
      futures := futures + [Waiting];
      var item := Item(op, true, Some(completion));
      queue := queue + [Work(item)];
      log := log.(accepted := log.accepted + [item]);
      return Some(completion);
    }

    method PersistCommitment(commitment: Commitment) returns (future: Option<nat>)
      requires Valid()
      modifies this`queue, this`futures, this`log
      ensures Valid()
      ensures var s := old(View());
              if closed then future == None && View() == s
              else
                && future == Some(|s.ctx.futures|)
                && View() == PushWaiting(
                     s, Store(Commit(s.ctx.hot.(commitments := s.ctx.hot.commitments + [commitment]), commitment)))
    {
      var state := Snapshot();
      state := state.(commitments := state.commitments + [commitment]);
      future := SubmitAndWait(Store(Commit(state, commitment)));
    }

    method PersistState(name: string, payload: Payload, scope: Scope) returns (accepted: bool)
      requires Valid()
      modifies this`queue, this`log
      ensures Valid() && accepted == !closed
      ensures View() == Push(old(View()), Store(Site.Snapshot(old(Snapshot()), name, payload, scope)), true)
    {
      accepted := Submit(Store(Site.Snapshot(Snapshot(), name, payload, scope)), true);
    }

    method PersistStateDurable(name: string, payload: Payload, scope: Scope) returns (future: Option<nat>)
      requires Valid()
      modifies this`queue, this`futures, this`log
      ensures Valid()
      ensures if closed then future == None && View() == old(View())
              else
                && future == Some(old(|futures|))
                && View() == PushWaiting(old(View()), Store(Site.Snapshot(old(Snapshot()), name, payload, scope)))
    {
      future := SubmitAndWait(Store(Site.Snapshot(Snapshot(), name, payload, scope)));
    }

    method PersistCompletion(outcome: Outcome) returns (future: Option<nat>)
      requires Valid()
      modifies this`phase, this`queue, this`futures, this`log
      ensures Valid() && View() == SubmitCompletion(old(View()), outcome)
      ensures future == if closed then None else Some(old(|futures|))
    {
      phase := Some(Phase.Closing);
      future := SubmitAndWait(Store(Complete(Snapshot(), outcome)));
    }

    method PersistEvent(name: string, payload: Payload) returns (accepted: bool)
      requires Valid()
      modifies this`queue, this`log
      ensures Valid() && accepted == !closed
      ensures View() == Push(old(View()), Store(Note(name, payload)), false)
    {
      accepted := Submit(Store(Note(name, payload)), false);
    }

    method PersistTranscript(role: Role, text: string, interrupted: bool)
      requires Valid()
      modifies this`lastRemote, this`queue, this`log
      ensures Valid() && View() == Hear(old(View()), role, text, interrupted)
    {
      var transcript := Strip(text);
      if transcript == [] {
        return;
      }
      var last := None;
      if role.User? {
        lastRemote := Some(transcript);
        last := Some(transcript);
      }
      var accepted := Submit(Speak(role, transcript, interrupted, last), true);
    }

    // ---- The writer ----

    /** What follows the repository call of an item: the first required failure is remembered, and the
        future is settled unless it is already. */
    method FinishItem(item: Item, raised: bool, ghost landed: bool)
      modifies this`futures, this`requiredFailure, this`log
      ensures requiredFailure == (old(requiredFailure) || (raised && item.required))
      ensures futures == Settle(old(futures), item.waiter, if raised then Raised else Done)
      ensures log == old(log).(
                handled := old(log).handled + [item],
                landed := if landed then old(log).landed + [item] else old(log).landed,
                settled := if item.waiter.Some? then old(log).settled + [item.waiter.value] else old(log).settled)
    {
      log := log.(handled := log.handled + [item], landed := if landed then log.landed + [item] else log.landed);
      if raised && item.required && !requiredFailure {
        requiredFailure := true;
      }
      if item.waiter.Some? {
        if item.waiter.value < |futures| && futures[item.waiter.value].Waiting? {
          futures := futures[item.waiter.value := if raised then Raised else Done];
        }
        log := log.(settled := log.settled + [item.waiter.value]);
      }
    }

    /** The repository call of an item. */
    method Perform(op: Operation, fate: Fate, now: int) returns (raised: bool, ghost landed: bool)
      requires Valid()
      modifies repository
      ensures Valid()
      ensures Performed(repository.View(), raised, landed) == PerformOn(old(repository.View()), callId, op, fate, now)
    {
      PerformIs(repository.View(), callId, op, fate, now);
      hide Strip, W.Perform, PerformOn, UpdateOf, MemoryCallRepository.View;
      if fate.Lost? {
        return true, false;
      }
      match op {
        case Store(site) =>
          var updated := repository.UpdateCall(callId, UpdateOf(site), now);
          raised, landed := updated.Err? || fate.LandsButRaises?, updated.Ok?;
        case Speak(role, text, interrupted, last) =>
          var appended := repository.AppendTranscriptTurn(callId, role, text, interrupted, last, now);
          raised, landed := appended.Err? || fate.LandsButRaises?, appended.Ok?;
        case Barrier =>
          raised, landed := fate.LandsButRaises?, true;
      }
    }

    /** Behind the first required failure a required item is skipped as if it had raised. */
    method Attempt(item: Item, fate: Fate, now: int) returns (raised: bool, ghost landed: bool)
      requires Valid()
      modifies repository
      ensures Valid()
      ensures Performed(repository.View(), raised, landed) ==
              AttemptOn(old(repository.View()), callId, item, requiredFailure, fate, now)
    {
      hide PerformOn;
      if item.required && requiredFailure {
        return true, false;
      }
      raised, landed := Perform(item.op, fate, now);
    }

    /** One item, already taken off the queue. */
    method HandleItem(item: Item, fate: Fate, now: int)
      requires Valid() && !writerDone
      modifies this`futures, this`requiredFailure, this`log, repository
      ensures Valid()
      ensures OthersKept(old(repository.View()), repository.View(), callId)
      ensures View() == Handled(old(View()), item, fate, now)
    {
      hide Snapshot, Handled, AttemptOn, Settle, OthersKept;
      hide MemoryCallRepository.Valid, MemoryCallRepository.View;
      ghost var store, s := repository.View(), View();
      var raised, landed := Attempt(item, fate, now);
      FinishItem(item, raised, landed);
      ItemIs(store, callId, s, item, fate, now);
    }

    /** One turn of the loop of `_run_persistence`. */
    method HandleNext(fate: Fate, now: int)
      requires Valid() && queue != [] && !writerDone
      modifies this`queue, this`futures, this`requiredFailure, this`writerDone, this`log, repository
      ensures Valid()
      ensures OthersKept(old(repository.View()), repository.View(), callId)
      ensures View() == WriterStep(Memory, old(View()), fate, now)
    {
      ghost var s := View();
      var next := queue[0];
      queue := queue[1..];
      assert Unpopped(View(), next) == s;
      hide W.Perform, MemoryCallRepository.Valid;
      if next.Stop? {
        writerDone := true;
      } else {
        hide WriterStep, Unpopped;
        HandleItem(next.item, fate, now);
      }
    }

    /** `_run_persistence` on a closed context. */
    method RunPersistence(fates: nat -> Fate, now: int)
      requires Valid() && closed && A.StopsLast(Ctx())
      modifies this`queue, this`futures, this`requiredFailure, this`writerDone, this`log, repository
      ensures Valid() && View() == A.Drain(Memory, old(View()), fates, now)
    {
      ghost var end := A.Drain(Memory, View(), fates, now);
      while !writerDone
        invariant Valid() && closed && A.StopsLast(Ctx())
        invariant A.Drain(Memory, View(), fates, now) == end
        decreases !writerDone, |queue|
      {
        hide WriterStep;
        ghost var s := View();
        HandleNext(fates(|queue|), now);
        DrainStep(s, fates, now);
      }
    }

    // ---- Awaiting, while nothing but the writer runs ----

    method Await(future: nat, fates: nat -> Fate, now: int)
      requires Valid() && A.Accounted(View()) && future < |futures|
      modifies this`queue, this`futures, this`requiredFailure, this`writerDone, this`log, repository
      ensures Valid() && View() == A.AwaitFuture(Memory, old(View()), future, fates, now)
    {
      ghost var end := A.AwaitFuture(Memory, View(), future, fates, now);
      while futures[future].Waiting?
        invariant Valid() && A.Accounted(View()) && future < |futures|
        invariant A.AwaitFuture(Memory, View(), future, fates, now) == end
        decreases |queue|
      {
        hide WriterStep, A.Accounted;
        ghost var s := View();
        A.WaitingHasWork(s, future);
        HandleNext(fates(|queue|), now);
        AwaitStep(s, future, fates, now);
      }
    }

    /** `flush`. It returns normally exactly from an open context and without a required failure, and
        then every required operation submitted so far has taken effect. */
    method Flush(fates: nat -> Fate, now: int) returns (ok: bool)
      requires Valid() && A.Accounted(View())
      modifies this`queue, this`futures, this`requiredFailure, this`writerDone, this`log, repository
      ensures Valid() && A.Accounted(View()) && closed == old(closed) && Snapshot() == old(Snapshot())
      ensures old(closed) ==> !ok && View() == old(View())
      ensures !old(closed) ==> log.handled == log.accepted && old(log).accepted <= log.accepted
      ensures ok <==> !old(closed) && !requiredFailure
      ensures ok ==> A.Required(log.landed) == A.Required(log.accepted)
    {
      hide A.AwaitFuture, A.Accounted, A.Required, PushWaiting, MemoryCallRepository.Valid, MemoryCallRepository.View;
      ghost var s := View();
      var future := SubmitAndWait(Barrier);
      if future.None? {
        return false;
      }
      FlushAwaits(s, fates, now);
      Await(future.value, fates, now);
      return futures[future.value].Done? && !requiredFailure;
    }

    /** `close`: afterwards every item ever accepted has been handled, every future is settled, and
        the writer has stopped. It raises exactly when a required write failed. */
    method Close(fates: nat -> Fate, now: int) returns (ok: bool)
      requires Valid() && A.Accounted(View())
      modifies this`queue, this`futures, this`requiredFailure, this`closed, this`writerDone, this`log, repository
      ensures Valid() && A.Accounted(View()) && closed && Snapshot() == old(Snapshot())
      ensures old(closed) ==> ok && View() == old(View())
      ensures !old(closed) ==> writerDone && log.handled == log.accepted && old(log).accepted <= log.accepted
      ensures !old(closed) ==> forall f <- futures :: !f.Waiting?
      ensures !old(closed) ==> (ok <==> !requiredFailure)
      ensures ok && !old(closed) ==> A.Required(log.landed) == A.Required(log.accepted)
    {
      if closed {
        return true;
      }
      hide A.Accounted, A.Required, MemoryCallRepository.Valid, MemoryCallRepository.View;
      ok := Flush(fates, now);
      StopWriter(fates, now);
    }

    /** `close` after its flush. */
    method StopWriter(fates: nat -> Fate, now: int)
      requires Valid() && A.Accounted(View()) && !closed && log.handled == log.accepted
      modifies this`queue, this`futures, this`requiredFailure, this`closed, this`writerDone, this`log, repository
      ensures Valid() && A.Accounted(View()) && closed && writerDone && Snapshot() == old(Snapshot())
      ensures log.handled == log.accepted == old(log).accepted && log.landed == old(log).landed
      ensures requiredFailure == old(requiredFailure)
      ensures forall f <- futures :: !f.Waiting?
    {
      CloseDrains(View(), fates, now);
      hide A.Drain, A.StopsLast, A.Accounted, MemoryCallRepository.Valid, MemoryCallRepository.View;
      closed := true;
      queue := queue + [Stop];
      RunPersistence(fates, now);
    }
  }

  /** A drain that handles nothing new lands nothing new. */
  lemma {:induction false} NothingLeftToLand(s: System, fates: nat -> Fate, now: int)
    requires A.Accounted(s) && s.ctx.closed
    ensures var t := A.Drain(Memory, s, fates, now);
            && t.ctx.hot == s.ctx.hot && t.log.accepted == s.log.accepted
            && (s.log.handled == s.log.accepted ==> t.log.landed == s.log.landed && t.ctx.failed == s.ctx.failed)
    decreases !s.ctx.stopped, |s.ctx.queue|
  {
    if !s.ctx.stopped {
      A.WriterKeeps(Memory, s, fates(|s.ctx.queue|), now);
      if s.log.handled == s.log.accepted {
        A.ItemsPop(s.ctx.queue);
      }
      hide W.Perform, A.Accounted;
      NothingLeftToLand(WriterStep(Memory, s, fates(|s.ctx.queue|), now), fates, now);
    }
  }

  /** What `close` does after its flush. */
  lemma CloseDrains(s: System, fates: nat -> Fate, now: int)
    requires A.Accounted(s) && !s.ctx.closed && s.log.handled == s.log.accepted
    ensures var u := s.(ctx := s.ctx.(closed := true, queue := s.ctx.queue + [Stop]));
            && A.StopsLast(u.ctx)
            && var t := A.Drain(Memory, u, fates, now);
               && A.Accounted(t) && t.ctx.stopped && t.ctx.hot == s.ctx.hot
               && t.log.accepted == s.log.accepted == t.log.handled && t.log.landed == s.log.landed
               && t.ctx.failed == s.ctx.failed
               && (forall f <- t.ctx.futures :: !f.Waiting?)
  {
    A.ItemsPush(s.ctx.queue, Stop);
    assert s.log.handled + (A.Items(s.ctx.queue) + []) == s.log.handled + A.Items(s.ctx.queue);
    var u := s.(ctx := s.ctx.(closed := true, queue := s.ctx.queue + [Stop]));
    assert A.Accounted(u);
    A.DrainSettlesEverything(Memory, u, fates, now);
    NothingLeftToLand(u, fates, now);
  }

  /** What `flush` waits for. */
  lemma FlushAwaits(s: System, fates: nat -> Fate, now: int)
    requires A.Accounted(s) && !s.ctx.closed
    ensures var u := PushWaiting(s, Barrier);
            && A.Accounted(u) && |u.ctx.futures| == |s.ctx.futures| + 1
            && var t := A.AwaitFuture(Memory, u, |s.ctx.futures|, fates, now);
               && t.ctx.hot == s.ctx.hot && t.ctx.closed == s.ctx.closed
               && t.log.handled == t.log.accepted && s.log.accepted <= t.log.accepted
               && (!t.ctx.failed ==> t.ctx.futures[|s.ctx.futures|].Done?)
               && (!t.ctx.failed ==> A.Required(t.log.landed) == A.Required(t.log.accepted))
  {
    A.PushWaitingKeeps(s, Barrier);
    hide A.Accounted, A.Required, A.AwaitFuture;
    A.AwaitNewest(Memory, PushWaiting(s, Barrier), fates, now);
  }

  lemma AwaitStep(s: System, future: nat, fates: nat -> Fate, now: int)
    requires A.Accounted(s) && future < |s.ctx.futures| && s.ctx.futures[future].Waiting?
    requires s.ctx.queue != [] && !s.ctx.stopped
    ensures var t := WriterStep(Memory, s, fates(|s.ctx.queue|), now);
            && A.Accounted(t) && future < |t.ctx.futures| && |t.ctx.queue| < |s.ctx.queue|
            && A.AwaitFuture(Memory, t, future, fates, now) == A.AwaitFuture(Memory, s, future, fates, now)
  {
    A.WriterKeeps(Memory, s, fates(|s.ctx.queue|), now);
    hide W.Perform, A.Accounted;
  }

  /** The effect of an item, in the order of the loop body. */
  lemma ItemIs(store: CallStore.Store, id: string, s: System, item: Item, fate: Fate, now: int)
    requires id in store.rows && s.row == store.rows[id] && !s.ctx.stopped
    ensures var p := AttemptOn(store, id, item, s.ctx.failed, fate, now);
            && id in p.store.rows && OthersKept(store, p.store, id)
            && Handled(s, item, fate, now) ==
               System(s.ctx.(failed := s.ctx.failed || (p.raised && item.required),
                             futures := Settle(s.ctx.futures, item.waiter, if p.raised then Raised else Done)),
                      p.store.rows[id],
                      s.log.(handled := s.log.handled + [item],
                             landed := if p.landed then s.log.landed + [item] else s.log.landed,
                             settled := if item.waiter.Some? then s.log.settled + [item.waiter.value] else s.log.settled),
                      s.ending)
  {
    hide W.Perform, Settle;
    assert Unpopped(s, Work(item)).ctx.queue[1..] == s.ctx.queue;
  }

  /** The state before the element was taken off the queue. */
  function Unpopped(s: System, e: Entry): System {
    s.(ctx := s.ctx.(queue := [e] + s.ctx.queue))
  }

  function Handled(s: System, item: Item, fate: Fate, now: int): System
    requires !s.ctx.stopped
  {
    WriterStep(Memory, Unpopped(s, Work(item)), fate, now)
  }

  /** A turn of the writer drains on, with less to do. */
  lemma DrainStep(s: System, fates: nat -> Fate, now: int)
    requires s.ctx.closed && A.StopsLast(s.ctx) && !s.ctx.stopped
    ensures var t := WriterStep(Memory, s, fates(|s.ctx.queue|), now);
            && t.ctx.closed && A.StopsLast(t.ctx) && |t.ctx.queue| < |s.ctx.queue|
            && A.Drain(Memory, t, fates, now) == A.Drain(Memory, s, fates, now)
  {
    hide W.Perform;
    var t := WriterStep(Memory, s, fates(|s.ctx.queue|), now);
    assert s.ctx.queue[0].Work? ==> t.ctx.queue[|t.ctx.queue| - 1] == s.ctx.queue[|s.ctx.queue| - 1];
  }
}
