/** calls/service.py over the in-memory repository. Each method here runs without another request in
    between, except that a call may leave QUEUED while it is being dispatched; all interleavings are
    the subject of Dispatch and InputRequests. What the dispatcher answers is a parameter, and so is
    the clock. */
module Service {
  import opened Base
  import opened Models
  import opened Rows
  import opened CallStatusGraph
  import opened CallSites
  import opened CallStore
  import opened Slots
  import opened MemoryRepository
  import D = Dispatch
  import R = DispatchRuns
  import Sorting
  import I = InputRequests
  import P = Paging
  import C = Cursor

  /** What `dispatcher.dispatch` answers, and the write, if any, that takes the call out of QUEUED
      before its result is recorded: its agent starts, or it is cancelled. */
  datatype Dispatched = Dispatched(result: D.Handover, overtaking: Option<Site>) {
    predicate Overtaken() {
      overtaking == Some(Cancel(Queued))
      || (overtaking == Some(Prewarm) && (result.Accepted? || result.reached))
    }
  }

  type Dispatcher = CallRecord -> Dispatched

  // ---- A dispatch pass as a value ----

  /** The store when the dispatcher returns. */
  function Meanwhile(s: Store, c: CallRecord, d: Dispatched, now: int): Store {
    if d.Overtaken() then AfterUpdate(Memory, s, c.id, UpdateOf(d.overtaking.value), now).0 else s
  }

  /** The loop over the listed calls: the store it leaves, how many calls were dispatched, and whether
      a write raised. */
  function HandOver(s: Store, todo: seq<CallRecord>, dispatcher: Dispatcher, now: int): (Store, nat, bool)
    decreases |todo|
  {
    if todo == [] then (s, 0, false)
    else
      var d := dispatcher(todo[0]);
      var m := Meanwhile(s, todo[0], d, now);
      var r := UpdateCall(Memory, m, todo[0].id, UpdateOf(D.ResultSite(todo[0], d.result)), now);
      if r.Err? then (m, 0, true)
      else
        var (t, n, raised) := HandOver(r.value, todo[1..], dispatcher, now);
        (t, if d.result.Accepted? then n + 1 else n, raised)
  }

  /** How many of the listed calls come before the first overtaken one. */
  function Reach(todo: seq<CallRecord>, dispatcher: Dispatcher): (k: nat)
    ensures k <= |todo|
    ensures forall i :: 0 <= i < k ==> !dispatcher(todo[i]).Overtaken()
    ensures k < |todo| ==> dispatcher(todo[k]).Overtaken()
  {
    if todo == [] || dispatcher(todo[0]).Overtaken() then 0 else 1 + Reach(todo[1..], dispatcher)
  }

  function Capacity(s: Store, maxConcurrent: nat): nat {
    if CountDispatched(s) < maxConcurrent then maxConcurrent - CountDispatched(s) else 0
  }

  function DispatchPass(s: Store, maxConcurrent: nat, dispatcher: Dispatcher, now: int): (Store, nat, bool)
    requires Wellformed(s)
  {
    if Capacity(s, maxConcurrent) == 0 then (s, 0, false)
    else HandOver(s, ListQueued(s, Capacity(s, maxConcurrent)), dispatcher, now)
  }

  /** The calls in the list are still as they were listed. */
  ghost predicate Untouched(s: Store, todo: seq<CallRecord>) {
    && DistinctIds(todo)
    && (forall c <- todo :: c.id in s.rows && s.rows[c.id].call == c && Waiting(c))
  }

  lemma UpdateKeepsWellformed(backend: Backend, s: Store, id: string, u: Update, now: int)
    requires Wellformed(s) && UpdateCall(backend, s, id, u, now).Ok?
    ensures Wellformed(UpdateCall(backend, s, id, u, now).value)
  {
  }

  /** A write to the first listed call leaves the others as they were. */
  lemma FirstMoves(s: Store, todo: seq<CallRecord>, u: Update, now: int)
    requires Wellformed(s) && Untouched(s, todo) && todo != [] && Accepts(todo[0], u)
    ensures var r := UpdateCall(Memory, s, todo[0].id, u, now);
            && r.Ok? && Wellformed(r.value) && Untouched(r.value, todo[1..])
            && r.value.rows.Keys == s.rows.Keys
            && (forall id <- s.rows :: id != todo[0].id ==> r.value.rows[id] == s.rows[id])
            && var after := r.value.rows[todo[0].id].call;
               && after.status == u.status.GetOr(Queued) && after.state == u.state.GetOr(todo[0].state)
               && after.error == Override(u.error, todo[0].error)
  {
    var c := todo[0];
    assert c in todo;
    UpdateEffect(Memory, s.rows[c.id], u, now);
    UpdateKeepsWellformed(Memory, s, c.id, u, now);
    hide UpdateRow, Wellformed;
    forall x <- todo[1..] ensures x in todo && x.id != c.id {
      var i :| 0 <= i < |todo[1..]| && todo[1..][i] == x;
      assert todo[i + 1] == x;
    }
  }

  /** A call that was not overtaken has its result recorded; an overtaken one is PREWARMING or
      CANCELLED, and recording its result raises. */
  lemma RecordFirst(s: Store, todo: seq<CallRecord>, dispatcher: Dispatcher, now: int)
    requires Wellformed(s) && Untouched(s, todo) && todo != []
    ensures var c := todo[0];
            var d := dispatcher(c);
            var m := Meanwhile(s, c, d, now);
            var r := UpdateCall(Memory, m, c.id, UpdateOf(D.ResultSite(c, d.result)), now);
            var t := if r.Ok? then r.value else m;
            && (r.Ok? <==> !d.Overtaken()) && Wellformed(m)
            && Wellformed(t) && Untouched(t, todo[1..]) && t.rows.Keys == s.rows.Keys
            && (forall id <- s.rows :: id != c.id ==> t.rows[id] == s.rows[id])
            && HandedRow(t.rows[c.id].call, d)
  {
    var c := todo[0];
    var d := dispatcher(c);
    hide Wellformed, Untouched, UpdateRow;
    if d.Overtaken() {
      FirstMoves(s, todo, UpdateOf(d.overtaking.value), now);
    } else {
      FirstMoves(s, todo, UpdateOf(D.ResultSite(c, d.result)), now);
    }
  }

  /** A call after its handover: recorded with its dispatch id, failed, or overtaken. */
  predicate HandedRow(call: CallRecord, d: Dispatched) {
    if d.Overtaken() then call.status == if d.overtaking.value.Prewarm? then Prewarming else Cancelled
    else if d.result.Accepted? then
      call.status.Queued? && call.state.dispatchId == Some(d.result.dispatchId)
      && call.state.roomName == Some(d.result.room)
    else call.status == Failed && call.error == Some(CallError("dispatch_failed", d.result.message, true))
  }

  /** `t` is `s` after these calls were handed over: nothing else changed. */
  ghost predicate Handed(s: Store, t: Store, done: seq<CallRecord>, dispatcher: Dispatcher) {
    && t.rows.Keys == s.rows.Keys
    && (forall id <- s.rows :: (forall c <- done :: c.id != id) ==> t.rows[id] == s.rows[id])
    && (forall c <- done :: c.id in t.rows && HandedRow(t.rows[c.id].call, dispatcher(c)))
  }

  lemma HandedFirst(s: Store, m: Store, t: Store, done: seq<CallRecord>, dispatcher: Dispatcher)
    requires done != [] && DistinctIds(done) && done[0].id in s.rows && m.rows.Keys == s.rows.Keys
    requires forall id <- s.rows :: id != done[0].id ==> m.rows[id] == s.rows[id]
    requires HandedRow(m.rows[done[0].id].call, dispatcher(done[0]))
    requires Handed(m, t, done[1..], dispatcher)
    ensures Handed(s, t, done, dispatcher)
  {
    hide HandedRow;
    forall c <- done[1..] ensures c.id != done[0].id && c in done {
      var i :| 0 <= i < |done[1..]| && done[1..][i] == c;
      assert done[i + 1] == c;
    }
    assert t.rows[done[0].id] == m.rows[done[0].id];
    assert done == [done[0]] + done[1..];
    assert done[0] in done;
  }

  /** The calls a pass hands over: those before the first overtaken one, and that one. */
  function Reached(todo: seq<CallRecord>, dispatcher: Dispatcher): seq<CallRecord> {
    var k := Reach(todo, dispatcher);
    if k < |todo| then todo[..k + 1] else todo
  }

  /** How many of these calls the dispatcher accepts. */
  function AcceptedOf(calls: seq<CallRecord>, dispatcher: Dispatcher): (n: nat)
    ensures n <= |calls|
    ensures (forall c <- calls :: dispatcher(c).result.Accepted?) ==> n == |calls|
  {
    if calls == [] then 0
    else (if dispatcher(calls[0]).result.Accepted? then 1 else 0) + AcceptedOf(calls[1..], dispatcher)
  }

  /** The first handover of a pass, and the pass after it. */
  lemma HandOverFirst(s: Store, todo: seq<CallRecord>, dispatcher: Dispatcher, now: int) returns (next: Store)
    requires Wellformed(s) && Untouched(s, todo) && todo != []
    ensures var (t, n, raised) := HandOver(s, todo, dispatcher, now);
            if dispatcher(todo[0]).Overtaken() then n == 0 && raised
            else
              && Wellformed(next) && Untouched(next, todo[1..])
              && (t, n, raised) == var rest := HandOver(next, todo[1..], dispatcher, now);
                 (rest.0, rest.1 + (if dispatcher(todo[0]).result.Accepted? then 1 else 0), rest.2)
  {
    var c := todo[0];
    RecordFirst(s, todo, dispatcher, now);
    var m := Meanwhile(s, c, dispatcher(c), now);
    var r := UpdateCall(Memory, m, c.id, UpdateOf(D.ResultSite(c, dispatcher(c).result)), now);
    next := if r.Ok? then r.value else m;
    hide Wellformed, Untouched, UpdateCall, UpdateOf, Meanwhile, HandedRow, AfterUpdate;
  }

  lemma AcceptedFirst(todo: seq<CallRecord>, k: nat, dispatcher: Dispatcher)
    requires k < |todo|
    ensures AcceptedOf(todo[..k + 1], dispatcher) ==
            (if dispatcher(todo[0]).result.Accepted? then 1 else 0) + AcceptedOf(todo[1..][..k], dispatcher)
  {
    assert todo[..k + 1][1..] == todo[1..][..k];
  }

  /** A pass raises exactly when it does not get to the end of its list, and it counts the calls
      that were accepted and recorded. */
  lemma {:induction false} HandOverCounts(s: Store, todo: seq<CallRecord>, dispatcher: Dispatcher, now: int)
    requires Wellformed(s) && Untouched(s, todo)
    ensures var (t, n, raised) := HandOver(s, todo, dispatcher, now);
            && (raised <==> Reach(todo, dispatcher) < |todo|)
            && n == AcceptedOf(todo[..Reach(todo, dispatcher)], dispatcher)
    decreases |todo|
  {
    assert AcceptedOf([], dispatcher) == 0;
    if todo != [] {
      var next := HandOverFirst(s, todo, dispatcher, now);
      hide Wellformed, Untouched, HandOver, AcceptedOf;
      if !dispatcher(todo[0]).Overtaken() {
        HandOverCounts(next, todo[1..], dispatcher, now);
        AcceptedFirst(todo, Reach(todo[1..], dispatcher), dispatcher);
      }
    }
  }

  /** What a pass leaves behind: the calls up to the first overtaken one have been handed over, and no
      other call has changed. */
  lemma {:induction false} HandOverEffect(s: Store, todo: seq<CallRecord>, dispatcher: Dispatcher, now: int)
    requires Wellformed(s) && Untouched(s, todo)
    ensures var t := HandOver(s, todo, dispatcher, now).0;
            Wellformed(t) && Handed(s, t, Reached(todo, dispatcher), dispatcher)
    decreases |todo|
  {
    if todo == [] {
      NothingHanded(s, dispatcher);
    } else {
      var c := todo[0];
      assert c in todo;
      RecordFirst(s, todo, dispatcher, now);
      var m := Meanwhile(s, c, dispatcher(c), now);
      var r := UpdateCall(Memory, m, c.id, UpdateOf(D.ResultSite(c, dispatcher(c).result)), now);
      ReachedStep(todo, dispatcher);
      var done := Reached(todo, dispatcher);
      hide Wellformed, UpdateCall, UpdateOf, Handed, Meanwhile, HandedRow, Reached, Reach;
      if r.Ok? {
        HandOverEffect(r.value, todo[1..], dispatcher, now);
        HandedFirst(s, r.value, HandOver(r.value, todo[1..], dispatcher, now).0, done, dispatcher);
      } else {
        NothingHanded(m, dispatcher);
        HandedFirst(s, m, m, done, dispatcher);
      }
    }
  }

  lemma ReachedStep(todo: seq<CallRecord>, dispatcher: Dispatcher)
    requires todo != []
    ensures var done := Reached(todo, dispatcher);
            && done != [] && done[0] == todo[0] && (DistinctIds(todo) ==> DistinctIds(done))
            && done[1..] == if dispatcher(todo[0]).Overtaken() then [] else Reached(todo[1..], dispatcher)
  {
  }

  lemma NothingHanded(s: Store, dispatcher: Dispatcher)
    ensures Handed(s, s, [], dispatcher)
  {
  }

  lemma ListedAreUntouched(s: Store, limit: nat)
    requires Wellformed(s)
    ensures Untouched(s, ListQueued(s, limit))
  {
    ListQueuedTakesOldest(s, limit);
  }

  /** Cutting a sorted line of distinct calls: the front is no younger and none of it is behind. */
  lemma CutLine(line: seq<CallRecord>, k: nat)
    requires Sorting.Sorted(line, Older) && DistinctIds(line) && k <= |line|
    ensures forall c, left | c in line[..k] && left in line[k..] :: c.id != left.id && c.createdAt <= left.createdAt
  {
    forall c, left | c in line[..k] && left in line[k..] ensures c.id != left.id && c.createdAt <= left.createdAt {
      var i :| 0 <= i < k && line[..k][i] == c;
      var j :| 0 <= j < |line[k..]| && line[k..][j] == left;
      assert !Older(line[k + j], line[i]);
    }
  }

  lemma LineIsStored(s: Store)
    requires Wellformed(s)
    ensures forall c <- WaitingLine(s) :: c.id in s.rows
  {
    forall c <- WaitingLine(s) ensures c.id in s.rows {
      LineMembers(s, c);
    }
  }

  lemma ReachedAreListed(listed: seq<CallRecord>, dispatcher: Dispatcher)
    ensures var k := Reach(listed, dispatcher);
            && (forall c <- Reached(listed, dispatcher) :: c in listed)
            && (forall c <- listed[..k] :: c in Reached(listed, dispatcher) && !dispatcher(c).Overtaken())
            && (k < |listed| <==> exists c <- listed :: dispatcher(c).Overtaken())
  {
    var k := Reach(listed, dispatcher);
    if k < |listed| {
      assert listed[k] in listed;
    }
  }

  /** The calls a pass takes. */
  function Taken(s: Store, maxConcurrent: nat): seq<CallRecord>
    requires Wellformed(s)
  {
    ListQueued(s, Capacity(s, maxConcurrent))
  }

  lemma PassIsHandOver(s: Store, maxConcurrent: nat, dispatcher: Dispatcher, now: int)
    requires Wellformed(s)
    ensures DispatchPass(s, maxConcurrent, dispatcher, now) == HandOver(s, Taken(s, maxConcurrent), dispatcher, now)
  {
    hide WaitingLine, Wellformed, CallStore.CountDispatched;
  }

  lemma PassCounts(s: Store, maxConcurrent: nat, dispatcher: Dispatcher, now: int)
    requires Wellformed(s) && forall c :: dispatcher(c).result.Accepted?
    ensures var (t, n, raised) := DispatchPass(s, maxConcurrent, dispatcher, now);
            && n == Reach(Taken(s, maxConcurrent), dispatcher)
            && (raised <==> n < |Taken(s, maxConcurrent)|)
  {
    PassIsHandOver(s, maxConcurrent, dispatcher, now);
    ListedAreUntouched(s, Capacity(s, maxConcurrent));
    hide WaitingLine, Wellformed, Capacity, Untouched, DispatchPass, Reach, HandOver, ListQueued;
    HandOverCounts(s, Taken(s, maxConcurrent), dispatcher, now);
  }

  lemma PassRecords(s: Store, maxConcurrent: nat, dispatcher: Dispatcher, now: int)
    requires Wellformed(s) && forall c :: dispatcher(c).result.Accepted?
    ensures var t := DispatchPass(s, maxConcurrent, dispatcher, now).0;
            var taken := Taken(s, maxConcurrent);
            && t.rows.Keys == s.rows.Keys
            && (forall c <- taken[..Reach(taken, dispatcher)] ::
                  c.id in t.rows && t.rows[c.id].call.state.dispatchId == Some(dispatcher(c).result.dispatchId))
            && (forall id <- s.rows :: (forall c <- taken :: c.id != id) ==> t.rows[id] == s.rows[id])
  {
    var taken := Taken(s, maxConcurrent);
    PassIsHandOver(s, maxConcurrent, dispatcher, now);
    ListedAreUntouched(s, Capacity(s, maxConcurrent));
    hide WaitingLine, Wellformed, Capacity, Untouched, DispatchPass, HandOver, ListQueued, Taken;
    HandOverEffect(s, taken, dispatcher, now);
    ReachedAreListed(taken, dispatcher);
    hide Reach, Reached;
  }

  /** With a dispatcher that accepts, a pass takes the min(free slots, waiting calls) oldest waiting
      calls, and dispatches all of them exactly when none is overtaken; otherwise it raises at the
      first that is, and only those before it are dispatched. The calls it does not take stay as
      they are. */
  lemma PassFillsTheSlots(s: Store, maxConcurrent: nat, dispatcher: Dispatcher, now: int)
    requires Wellformed(s) && forall c :: dispatcher(c).result.Accepted?
    ensures var (t, n, raised) := DispatchPass(s, maxConcurrent, dispatcher, now);
            var taken, line := Taken(s, maxConcurrent), WaitingLine(s);
            var free := Capacity(s, maxConcurrent);
            && |taken| == (if free < |line| then free else |line|)
            && (forall c, left | c in taken && left in line && left !in taken :: c.createdAt <= left.createdAt)
            && n <= |taken| && (n == |taken| <==> forall c <- taken :: !dispatcher(c).Overtaken())
            && (raised <==> n < |taken|) && (raised ==> dispatcher(taken[n]).Overtaken())
            && (forall c <- taken[..n] ::
                  c.id in t.rows && t.rows[c.id].call.state.dispatchId == Some(dispatcher(c).result.dispatchId))
            && (forall id <- s.rows :: (forall c <- taken :: c.id != id) ==> id in t.rows && t.rows[id] == s.rows[id])
  {
    ListQueuedTakesOldest(s, Capacity(s, maxConcurrent));
    hide WaitingLine, Wellformed, Capacity, DispatchPass, HandOver, ListQueued;
    PassCounts(s, maxConcurrent, dispatcher, now);
    PassRecords(s, maxConcurrent, dispatcher, now);
    ReachedAreListed(Taken(s, maxConcurrent), dispatcher);
    hide Reach, Reached;
  }

  /** How many calls a pass takes: the free slots, but no more than wait. */
  ghost function Share(s: Store, maxConcurrent: nat): nat {
    var free := if Busy(s) < maxConcurrent then maxConcurrent - Busy(s) else 0;
    if free < InLine(s) then free else InLine(s)
  }

  /** Whatever the dispatcher answers, a pass hands over the oldest min(max_concurrent less the calls
      that are busy, calls in line), and nothing else. */
  lemma PassTakesItsShare(s: Store, maxConcurrent: nat, dispatcher: Dispatcher, now: int)
    requires Wellformed(s)
    ensures var taken := ListQueued(s, Share(s, maxConcurrent));
            && |taken| == Share(s, maxConcurrent)
            && DispatchPass(s, maxConcurrent, dispatcher, now) == HandOver(s, taken, dispatcher, now)
  {
    CountByStatus(s);
    LineLength(s);
    PassIsHandOver(s, maxConcurrent, dispatcher, now);
    hide WaitingLine, Wellformed, Busy, InLine, DispatchPass, HandOver, CallStore.CountDispatched;
    assert Taken(s, maxConcurrent) == ListQueued(s, Share(s, maxConcurrent));
  }

  /** Every call is accepted, and none is overtaken. */
  ghost predicate Unhindered(dispatcher: Dispatcher) {
    forall c :: dispatcher(c).result.Accepted? && !dispatcher(c).Overtaken()
  }

  /** With a dispatcher that accepts and no call overtaken, that many calls are dispatched. */
  lemma PassDispatchesItsShare(s: Store, maxConcurrent: nat, dispatcher: Dispatcher, now: int)
    requires Wellformed(s) && Unhindered(dispatcher)
    ensures var (t, n, raised) := DispatchPass(s, maxConcurrent, dispatcher, now);
            !raised && n == Share(s, maxConcurrent)
  {
    PassTakesItsShare(s, maxConcurrent, dispatcher, now);
    PassCounts(s, maxConcurrent, dispatcher, now);
    PassIsHandOver(s, maxConcurrent, dispatcher, now);
    CountByStatus(s);
    LineLength(s);
    hide WaitingLine, Wellformed, Busy, InLine, DispatchPass, HandOver, CallStore.CountDispatched;
    assert Taken(s, maxConcurrent) == ListQueued(s, Share(s, maxConcurrent));
  }

  lemma PassUnfolds(s: Store, maxConcurrent: nat, dispatcher: Dispatcher, now: int)
    requires Wellformed(s)
    ensures var active := CallStore.CountDispatched(s);
            DispatchPass(s, maxConcurrent, dispatcher, now) ==
            if active < maxConcurrent then HandOver(s, ListQueued(s, maxConcurrent - active), dispatcher, now)
            else (s, 0, false)
  {
    hide HandOver, ListQueued, Wellformed, CallStore.CountDispatched;
  }

  lemma UnhinderedShare(s: Store, maxConcurrent: nat, dispatcher: Dispatcher, now: int)
    requires Wellformed(s)
    ensures Unhindered(dispatcher) ==>
              var (t, n, raised) := DispatchPass(s, maxConcurrent, dispatcher, now);
              !raised && n == Share(s, maxConcurrent)
  {
    if Unhindered(dispatcher) {
      PassDispatchesItsShare(s, maxConcurrent, dispatcher, now);
    }
    hide DispatchPass, Share, Wellformed;
  }

  /** Ended calls, of either direction, hold nothing up: when all calls but the waiting ones have
      ended, min(max_concurrent, waiting calls) are dispatched. */
  lemma EndedCallsHoldNothingUp(s: Store, maxConcurrent: nat, dispatcher: Dispatcher, now: int)
    requires Wellformed(s) && Unhindered(dispatcher)
    requires forall id <- s.rows :: var call := s.rows[id].call;
               call.status in {Completed, Failed, Cancelled} || (call.status == Queued && call.state.dispatchId == None)
    ensures var waiting := |set id | id in s.rows && s.rows[id].call.status == Queued|;
            DispatchPass(s, maxConcurrent, dispatcher, now).1 == if maxConcurrent < waiting then maxConcurrent else waiting
  {
    PassDispatchesItsShare(s, maxConcurrent, dispatcher, now);
    NothingBusy(s);
    assert (set id | id in s.rows && s.rows[id].call.status == Queued) ==
           (set id | id in s.rows && s.rows[id].call.status == Queued && s.rows[id].call.state.dispatchId == None);
    hide DispatchPass;
  }

  // ---- A pass is a run of the dispatch model ----

  function HandSteps(todo: seq<CallRecord>, dispatcher: Dispatcher, now: int): seq<D.Action>
    decreases |todo|
  {
    if todo == [] then [D.EndPass]
    else
      var d := dispatcher(todo[0]);
      var record := [D.RecordResult(now, false)];
      if d.Overtaken() then [D.Hand(d.result)] + ([D.Write(todo[0].id, d.overtaking.value, now)] + record)
      else [D.Hand(d.result)] + (record + HandSteps(todo[1..], dispatcher, now))
  }

  function PassSteps(s: Store, maxConcurrent: nat, dispatcher: Dispatcher, now: int): seq<D.Action>
    requires Wellformed(s)
  {
    if Capacity(s, maxConcurrent) == 0 then [D.BeginPass]
    else [D.BeginPass] + ([D.ListPass] + HandSteps(ListQueued(s, Capacity(s, maxConcurrent)), dispatcher, now))
  }

  /** The steps from `s` end the pass and leave the store `t`. */
  ghost predicate EndsIn(s: D.Server, run: seq<D.Action>, t: Store, maxConcurrent: nat) {
    && R.Valid(Memory, s, run, maxConcurrent)
    && R.After(Memory, s, run, maxConcurrent).store == t
    && R.After(Memory, s, run, maxConcurrent).pass.Idle?
  }

  lemma StepThenEndsIn(s: D.Server, a: D.Action, rest: seq<D.Action>, t: Store, maxConcurrent: nat)
    requires Wellformed(s.store) && D.Enabled(s, a)
    requires EndsIn(D.Next(Memory, s, a, maxConcurrent), rest, t, maxConcurrent)
    ensures EndsIn(s, [a] + rest, t, maxConcurrent)
  {
    hide D.Next, D.Enabled, Wellformed;
    var m := D.Next(Memory, s, a, maxConcurrent);
    R.RunCons(Memory, s, a, m, rest, R.After(Memory, m, rest, maxConcurrent), maxConcurrent);
  }

  lemma NothingLeftEndsIn(s: D.Server, maxConcurrent: nat)
    requires Wellformed(s.store) && s.pass.Idle?
    ensures EndsIn(s, [], s.store, maxConcurrent)
  {
  }

  /** The states after handing an overtaken call over, after the write that overtakes it, and after
      the record that raises. */
  lemma OvertakenSteps(
    s: D.Server, handing: D.Server, moved: D.Server, c: CallRecord, d: Dispatched, todo: seq<CallRecord>, now: int,
    maxConcurrent: nat)
    requires Wellformed(s.store) && s.pass == D.Looping([c] + todo) && d.Overtaken()
    requires handing == D.Next(Memory, s, D.Hand(d.result), maxConcurrent)
    requires moved == handing.(store := Meanwhile(s.store, c, d, now)) && Wellformed(moved.store)
    requires UpdateCall(Memory, s.store, c.id, UpdateOf(d.overtaking.value), now).Ok?
    requires UpdateCall(Memory, moved.store, c.id, UpdateOf(D.ResultSite(c, d.result)), now).Err?
    ensures var write := D.Write(c.id, d.overtaking.value, now);
            && handing.store == s.store && D.Enabled(handing, write)
            && D.Next(Memory, handing, write, maxConcurrent) == moved
            && D.Enabled(moved, D.RecordResult(now, false))
            && D.Next(Memory, moved, D.RecordResult(now, false), maxConcurrent) == moved.(pass := D.Idle)
  {
    hide UpdateCall, UpdateOf, Wellformed;
    assert ([c] + todo)[1..] == todo;
  }

  /** The pass stops at an overtaken call. */
  lemma OvertakenIsARun(s: D.Server, todo: seq<CallRecord>, dispatcher: Dispatcher, now: int, maxConcurrent: nat)
    requires Wellformed(s.store) && Untouched(s.store, todo) && s.pass == D.Looping(todo)
    requires todo != [] && dispatcher(todo[0]).Overtaken()
    ensures EndsIn(s, HandSteps(todo, dispatcher, now), HandOver(s.store, todo, dispatcher, now).0, maxConcurrent)
  {
    var c := todo[0];
    var d := dispatcher(c);
    assert todo == [c] + todo[1..] && c in todo;
    RecordFirst(s.store, todo, dispatcher, now);
    FirstMoves(s.store, todo, UpdateOf(d.overtaking.value), now);
    hide Wellformed, Untouched, UpdateOf, EndsIn, UpdateCall, Meanwhile, HandedRow;
    var end := Meanwhile(s.store, c, d, now);
    assert HandOver(s.store, todo, dispatcher, now).0 == end;
    hide HandOver;
    var write, record := D.Write(c.id, d.overtaking.value, now), D.RecordResult(now, false);
    var handing := D.Next(Memory, s, D.Hand(d.result), maxConcurrent);
    var moved := handing.(store := end);
    OvertakenSteps(s, handing, moved, c, d, todo[1..], now, maxConcurrent);
    hide D.Next;
    NothingLeftEndsIn(moved.(pass := D.Idle), maxConcurrent);
    StepThenEndsIn(moved, record, [], end, maxConcurrent);
    assert [record] + [] == [record];
    StepThenEndsIn(handing, write, [record], end, maxConcurrent);
    StepThenEndsIn(s, D.Hand(d.result), [write] + [record], end, maxConcurrent);
  }

  /** The states after handing a call over that is not overtaken, and after recording the result. */
  lemma RecordedSteps(
    s: D.Server, handing: D.Server, recorded: D.Server, todo: seq<CallRecord>, dispatcher: Dispatcher, now: int,
    maxConcurrent: nat)
    requires Wellformed(s.store) && Untouched(s.store, todo) && s.pass == D.Looping(todo)
    requires todo != [] && !dispatcher(todo[0]).Overtaken()
    requires handing == D.Next(Memory, s, D.Hand(dispatcher(todo[0]).result), maxConcurrent)
    requires Wellformed(handing.store) && D.Enabled(handing, D.RecordResult(now, false))
    requires recorded == D.Next(Memory, handing, D.RecordResult(now, false), maxConcurrent)
    ensures Wellformed(recorded.store) && Untouched(recorded.store, todo[1..]) && recorded.pass == D.Looping(todo[1..])
    ensures HandOver(s.store, todo, dispatcher, now).0 == HandOver(recorded.store, todo[1..], dispatcher, now).0
  {
    RecordFirst(s.store, todo, dispatcher, now);
    hide Wellformed, Untouched, UpdateCall, UpdateOf, HandedRow;
  }

  lemma {:induction false} HandOverIsARun(
    s: D.Server, todo: seq<CallRecord>, dispatcher: Dispatcher, now: int, maxConcurrent: nat)
    requires Wellformed(s.store) && Untouched(s.store, todo) && s.pass == D.Looping(todo)
    ensures EndsIn(s, HandSteps(todo, dispatcher, now), HandOver(s.store, todo, dispatcher, now).0, maxConcurrent)
    decreases |todo|
  {
    if todo == [] {
      var t := D.Next(Memory, s, D.EndPass, maxConcurrent);
      NothingLeftEndsIn(t, maxConcurrent);
      StepThenEndsIn(s, D.EndPass, [], s.store, maxConcurrent);
      assert [D.EndPass] + [] == [D.EndPass];
    } else if dispatcher(todo[0]).Overtaken() {
      OvertakenIsARun(s, todo, dispatcher, now, maxConcurrent);
    } else {
      RecordedIsARun(s, todo, dispatcher, now, maxConcurrent);
    }
  }

  lemma {:induction false} RecordedIsARun(
    s: D.Server, todo: seq<CallRecord>, dispatcher: Dispatcher, now: int, maxConcurrent: nat)
    requires Wellformed(s.store) && Untouched(s.store, todo) && s.pass == D.Looping(todo)
    requires todo != [] && !dispatcher(todo[0]).Overtaken()
    ensures EndsIn(s, HandSteps(todo, dispatcher, now), HandOver(s.store, todo, dispatcher, now).0, maxConcurrent)
    decreases |todo|, 0
  {
    hide Wellformed, Untouched, UpdateCall, UpdateOf, EndsIn, HandOver;
    var hand, record := D.Hand(dispatcher(todo[0]).result), D.RecordResult(now, false);
    var handing := D.Next(Memory, s, hand, maxConcurrent);
    var recorded := D.Next(Memory, handing, record, maxConcurrent);
    RecordedSteps(s, handing, recorded, todo, dispatcher, now, maxConcurrent);
    hide D.Next;
    HandOverIsARun(recorded, todo[1..], dispatcher, now, maxConcurrent);
    var rest := HandSteps(todo[1..], dispatcher, now);
    var end := HandOver(s.store, todo, dispatcher, now).0;
    StepThenEndsIn(handing, record, rest, end, maxConcurrent);
    StepThenEndsIn(s, hand, [record] + rest, end, maxConcurrent);
  }

  /** What `dispatch_queued` computes is reached by a run of the dispatch model, so that what holds
      of every run there holds of a server that executes this code. */
  lemma PassIsARun(s: D.Server, dispatcher: Dispatcher, now: int, maxConcurrent: nat)
    requires Wellformed(s.store) && s.pass.Idle?
    ensures EndsIn(s, PassSteps(s.store, maxConcurrent, dispatcher, now),
                   DispatchPass(s.store, maxConcurrent, dispatcher, now).0, maxConcurrent)
  {
    var free := Capacity(s.store, maxConcurrent);
    var begun := D.Next(Memory, s, D.BeginPass, maxConcurrent);
    if free == 0 {
      assert R.Valid(Memory, begun, [], maxConcurrent);
      StepThenEndsIn(s, D.BeginPass, [], s.store, maxConcurrent);
      assert [D.BeginPass] + [] == [D.BeginPass];
    } else {
      ListedAreUntouched(s.store, free);
      hide Wellformed, Untouched, EndsIn, ListQueued;
      var listed := D.Next(Memory, begun, D.ListPass, maxConcurrent);
      var todo := ListQueued(s.store, free);
      assert listed.pass == D.Looping(todo) && listed.store == s.store;
      HandOverIsARun(listed, todo, dispatcher, now, maxConcurrent);
      var t := HandOver(s.store, todo, dispatcher, now).0;
      hide HandOver;
      StepThenEndsIn(begun, D.ListPass, HandSteps(todo, dispatcher, now), t, maxConcurrent);
      StepThenEndsIn(s, D.BeginPass, [D.ListPass] + HandSteps(todo, dispatcher, now), t, maxConcurrent);
    }
  }

  // ---- The service ----

  /** `get_call` */
  function Owned(s: Store, id: string, principal: Option<string>): Result<CallRecord> {
    if id !in s.rows || (principal.Some? && s.rows[id].call.principal != principal.value) then Err(CallNotFound)
    else Ok(s.rows[id].call)
  }

  /** Whoever names a principal sees the calls of that principal only; without one every call is seen. */
  lemma OnlyTheOwnerSees(s: Store, id: string, principal: Option<string>)
    ensures Owned(s, id, principal) ==
            if id in s.rows && principal in {None, Some(s.rows[id].call.principal)} then Ok(s.rows[id].call)
            else Err(CallNotFound)
  {
  }

  /** `transition`, the one place that consults the status table. */
  function MoveTo(s: Store, id: string, target: Status, phase: Option<Phase>, name: string, now: int):
    (Store, Result<CallRecord>)
  {
    if id !in s.rows then (s, Err(CallNotFound))
    else
      var read := s.rows[id].call.status;
      if !CanTransition(read, target) then (s, Err(InvalidStateTransition))
      else
        var r := UpdateCall(Memory, s, id, UpdateOf(Move(read, target, phase, name)), now);
        (r.value, Ok(r.value.rows[id].call))
  }

  /** A new outbound call, as it stands in the queue. */
  function Enqueued(s: Store, call: CallRecord, now: int): (t: Store)
    requires Wellformed(s) && call.id !in s.rows
    ensures Wellformed(t)
  {
    assert call.id !in s.order;
    var events := [Event(1, Named("call.created"), NO_PAYLOAD, call.createdAt),
                   Event(2, Named("call.validating"), NO_PAYLOAD, now),
                   Event(3, Named("call.queued"), NO_PAYLOAD, now)];
    s.(rows := s.rows[call.id := Row(call.(status := Queued, updatedAt := now), events, [])],
       order := s.order + [call.id])
  }

  /** The call that already answers a request id. */
  function Earlier(s: Store, principal: string, request: Option<string>): Option<CallRecord>
    requires Wellformed(s)
  {
    if request.GetOr("") == "" then None else FindIdempotent(s, principal, request.value)
  }

  /** An earlier call is one of the same principal with the same request id, which is not empty; there
      is none exactly when no stored call is such. */
  lemma EarlierIs(s: Store, principal: string, request: Option<string>)
    requires Wellformed(s)
    ensures var earlier := Earlier(s, principal, request);
            && (earlier.Some? ==>
                  && earlier.value.id in s.rows && s.rows[earlier.value.id].call == earlier.value
                  && earlier.value.principal == principal && earlier.value.clientRequestId == request
                  && request !in {None, Some("")})
            && (earlier.None? <==> request in {None, Some("")} || forall id <- s.rows ::
                  s.rows[id].call.principal != principal || s.rows[id].call.clientRequestId != request)
  {
    hide FindFrom, Listed;
  }

  /** What cancelling a call that has not ended leaves. */
  lemma CancelEnds(s: Store, id: string, now: int)
    requires id in s.rows && s.rows[id].call.status !in {Completed, Failed, Cancelled}
    ensures var (t, r) := AfterUpdate(Memory, s, id, UpdateOf(Cancel(s.rows[id].call.status)), now);
            && r.Ok? && r.value.status == Cancelled && r.value.endedAt == Some(now) && r.value.phase == None
            && r.value.state == s.rows[id].call.state && r.value.error == s.rows[id].call.error
            && id in t.rows && t.rows[id].call == r.value
            && t.rows[id].events == s.rows[id].events
               + [Event(|s.rows[id].events| + 1, Named("call.cancelled"), NO_PAYLOAD, now)]
  {
  }

  /** What an inbound call looks like once it is stored and connected. */
  lemma InboundConnects(s: Store, call: CallRecord, now: int)
    requires Wellformed(s) && call.id !in s.rows && call.status == Created && call.connectedAt.None?
    requires Earlier(s, call.principal, call.clientRequestId).None?
    ensures var (t, r) := AfterUpdate(Memory, CallStore.CreateCall(s, call).0, call.id, UpdateOf(InboundConnect), now);
            && r == Ok(call.(status := Connected, phase := Some(Opening), connectedAt := Some(now), updatedAt := now))
            && t.rows == s.rows[call.id := Row(r.value, [Event(1, Named("call.created"), NO_PAYLOAD, call.createdAt),
                                                         Event(2, Named("call.connected"), NO_PAYLOAD, now)], [])]
  {
    hide FindIdempotent, Wellformed;
    var stored := CallStore.CreateCall(s, call).0;
    assert stored.rows == s.rows[call.id := NewRow(call)];
    var connected := UpdateRow(Memory, NewRow(call), UpdateOf(InboundConnect), now).value;
    assert connected.events == [Event(1, Named("call.created"), NO_PAYLOAD, call.createdAt),
                                Event(2, Named("call.connected"), NO_PAYLOAD, now)];
    assert s.rows[call.id := NewRow(call)][call.id := connected] == s.rows[call.id := connected];
  }

  /** Creating, validating and queueing in turn. */
  lemma EnqueuedInSteps(s: Store, call: CallRecord, now: int)
    requires Wellformed(s) && call.id !in s.rows && call.status.Created? && call.phase.None?
    requires Earlier(s, call.principal, call.clientRequestId).None?
    ensures var created := CallStore.CreateCall(s, call);
            var validating := MoveTo(created.0, call.id, Validating, None, "call.validating", now).0;
            && created.1 == call
            && MoveTo(validating, call.id, Queued, None, "call.queued", now).0 == Enqueued(s, call, now)
  {
    hide FindIdempotent, Wellformed;
    var created := CallStore.CreateCall(s, call).0;
    var v := MoveTo(created, call.id, Validating, None, "call.validating", now).0;
    var q := MoveTo(v, call.id, Queued, None, "call.queued", now).0;
    assert q.rows[call.id] == Enqueued(s, call, now).rows[call.id];
    assert q.rows == Enqueued(s, call, now).rows;
  }

  /** The rest of the loop leads to `t`, to `count` in all, and raises or not. */
  ghost predicate Remaining(
    s: Store, todo: seq<CallRecord>, dispatcher: Dispatcher, now: int, n: nat, t: Store, count: nat, raised: bool)
  {
    var (last, rest, raises) := HandOver(s, todo, dispatcher, now);
    last == t && n + rest == count && raises == raised
  }

  class CallService {
    const repository: MemoryCallRepository
    const maxConcurrent: nat

    constructor (repository: MemoryCallRepository, maxConcurrent: nat)
      ensures this.repository == repository && this.maxConcurrent == maxConcurrent
    {
      this.repository, this.maxConcurrent := repository, maxConcurrent;
    }

    method GetCall(id: string, principal: Option<string>) returns (call: Result<CallRecord>)
      requires repository.Valid()
      ensures call == Owned(repository.View(), id, principal)
    {
      var stored := repository.GetCall(id);
      if stored.None? || (principal.Some? && stored.value.principal != principal.value) {
        return Err(CallNotFound);
      }
      return Ok(stored.value);
    }

    method Transition(id: string, target: Status, phase: Option<Phase>, name: string, now: int)
      returns (moved: Result<CallRecord>)
      requires repository.Valid()
      modifies repository
      ensures repository.Valid()
      ensures (repository.View(), moved) == MoveTo(old(repository.View()), id, target, phase, name, now)
    {
      var call := GetCall(id, None);
      if call.Err? {
        return call;
      }
      if !CanTransition(call.value.status, target) {
        return Err(InvalidStateTransition);
      }
      moved := repository.UpdateCall(id, UpdateOf(Move(call.value.status, target, phase, name)), now);
    }

    /** `dispatch_queued`; the InvalidStateTransitionError of a record is not caught. */
    method DispatchQueued(dispatcher: Dispatcher, now: int) returns (dispatched: Result<nat>)
      requires repository.Valid()
      modifies repository
      ensures repository.Valid()
      ensures var (t, n, raised) := DispatchPass(old(repository.View()), maxConcurrent, dispatcher, now);
              repository.View() == t && dispatched == if raised then Err(InvalidStateTransition) else Ok(n)
      ensures Unhindered(dispatcher) ==>
                dispatched == Ok(Share(old(repository.View()), maxConcurrent))
    {
      hide DispatchPass, Unhindered, Capacity, Share, Busy, InLine, Untouched, HandOver, ListQueued, Wellformed;
      hide CallStore.CountDispatched, MemoryCallRepository.View;
      ghost var s := repository.View();
      var active := repository.CountDispatched();
      var capacity := if active < maxConcurrent then maxConcurrent - active else 0;
      if capacity == 0 {
        PassUnfolds(s, maxConcurrent, dispatcher, now);
        UnhinderedShare(s, maxConcurrent, dispatcher, now);
        return Ok(0);
      }
      var queued := ListQueued(repository.View(), capacity);
      ListedAreUntouched(s, capacity);
      var n, raised := HandOverAll(queued, dispatcher, now);
      PassUnfolds(s, maxConcurrent, dispatcher, now);
      UnhinderedShare(s, maxConcurrent, dispatcher, now);
      return if raised then Err(InvalidStateTransition) else Ok(n);
    }

    /** The loop of `dispatch_queued`. */
    method HandOverAll(queued: seq<CallRecord>, dispatcher: Dispatcher, now: int) returns (n: nat, raised: bool)
      requires repository.Valid() && Untouched(repository.View(), queued)
      modifies repository
      ensures repository.Valid()
      ensures (repository.View(), n, raised) == HandOver(old(repository.View()), queued, dispatcher, now)
    {
      ghost var t, count, raises := StartHandOver(repository.View(), queued, dispatcher, now);
      hide Untouched, HandOver, Wellformed, AfterUpdate, UpdateOf, Remaining, MemoryCallRepository.View;
      n := 0;
      for i := 0 to |queued|
        invariant repository.Valid() && Untouched(repository.View(), queued[i..])
        invariant Remaining(repository.View(), queued[i..], dispatcher, now, n, t, count, raises)
      {
        var d := dispatcher(queued[i]);
        NextHandOver(repository.View(), queued, i, dispatcher, now, n, t, count, raises);
        if d.Overtaken() {
          // the write of another task while this one awaits the dispatcher
          var moved := repository.UpdateCall(queued[i].id, UpdateOf(d.overtaking.value), now);
        }
        var recorded := repository.UpdateCall(queued[i].id, UpdateOf(D.ResultSite(queued[i], d.result)), now);
        if recorded.Err? {
          return n, true;
        }
        if d.result.Accepted? {
          n := n + 1;
        }
      }
      HandOverNothing(repository.View(), queued[|queued|..], dispatcher, now, n, t, count, raises);
      return n, false;
    }

    /** `create_call`. A request id that was used before is answered with the earlier call and changes
        nothing; otherwise the call enters the queue and one dispatch pass runs, whose error, if any,
        is the answer although the call is stored. */
    method CreateCall(
      id: string, principal: string, request: Option<string>, target: Option<string>, state: CallState,
      dispatcher: Dispatcher, now: int)
      returns (created: Result<CallRecord>)
      requires repository.Valid() && id !in repository.View().rows
      modifies repository
      ensures repository.Valid()
      ensures var s := old(repository.View());
              var earlier := Earlier(s, principal, request);
              if earlier.Some? then repository.View() == s && created == Ok(earlier.value)
              else if target.None? then repository.View() == s && created == Err(PolicyDenied)
              else
                var call := CallRecord(id, principal, Outbound, request, Created, None, target.value, state,
                                       None, None, now, now, None, None);
                var (t, n, raised) := DispatchPass(Enqueued(s, call, now), maxConcurrent, dispatcher, now);
                && repository.View() == t
                && created == if raised then Err(InvalidStateTransition) else Owned(t, id, Some(principal))
    {
      ghost var s := repository.View();
      if request.GetOr("") != "" {
        var existing := repository.FindIdempotent(principal, request.value);
        if existing.Some? {
          return Ok(existing.value);
        }
      }
      if target.None? {
        return Err(PolicyDenied);
      }
      var call := CallRecord(id, principal, Outbound, request, Created, None, target.value, state,
                             None, None, now, now, None, None);
      EnqueuedInSteps(s, call, now);
      hide Wellformed, FindIdempotent, Enqueued, MoveTo, CallStore.CreateCall, MemoryCallRepository.View;
      var stored := repository.CreateCall(call);
      assert stored.id == id;
      var validating := Transition(id, Validating, None, "call.validating", now);
      var queued := Transition(id, Queued, None, "call.queued", now);
      var dispatched := DispatchQueued(dispatcher, now);
      if dispatched.Err? {
        return Err(dispatched.error);
      }
      created := GetCall(id, Some(principal));
    }

    /** An inbound call is stored already connected. A SIP call id that was seen before is answered
        with the earlier call, whatever its status. */
    method CreateInboundCall(
      id: string, principal: string, request: Option<string>, number: string, state: CallState, now: int)
      returns (created: Result<CallRecord>)
      requires repository.Valid() && id !in repository.View().rows
      modifies repository
      ensures repository.Valid()
      ensures var s := old(repository.View());
              var earlier := Earlier(s, principal, request);
              if earlier.Some? then repository.View() == s && created == Ok(earlier.value)
              else
                var call := CallRecord(id, principal, Inbound, request, Created, None, number, state,
                                       None, None, now, now, None, None);
                (repository.View(), created) ==
                AfterUpdate(Memory, CallStore.CreateCall(s, call).0, id, UpdateOf(InboundConnect), now)
      ensures created.Ok?
      ensures Earlier(old(repository.View()), principal, request).None? ==>
                created.value.status == Connected && created.value.connectedAt == Some(now)
    {
      if Earlier(repository.View(), principal, request).None? {
        InboundConnects(repository.View(), CallRecord(id, principal, Inbound, request, Created, None, number, state,
                                                      None, None, now, now, None, None), now);
      }
      ghost var s := repository.View();
      if request.GetOr("") != "" {
        var existing := repository.FindIdempotent(principal, request.value);
        if existing.Some? {
          return Ok(existing.value);
        }
      }
      hide FindIdempotent, MemoryCallRepository.View, AfterUpdate, UpdateOf;
      var call := CallRecord(id, principal, Inbound, request, Created, None, number, state,
                             None, None, now, now, None, None);
      var stored := repository.CreateCall(call);
      assert stored == call;
      created := repository.UpdateCall(id, UpdateOf(InboundConnect), now);
    }

    /** `cancel_call`; `released` says whether the dispatcher could release the room. */
    method CancelCall(id: string, principal: string, released: bool, now: int) returns (cancelled: Result<CallRecord>)
      requires repository.Valid()
      modifies repository
      ensures repository.Valid()
      ensures var s := old(repository.View());
              var call := Owned(s, id, Some(principal));
              if call.Err? || call.value.status.Terminal() then repository.View() == s && cancelled == call
              else if !released then repository.View() == s && cancelled == Err(CancelFailed)
              else (repository.View(), cancelled) == AfterUpdate(Memory, s, id, UpdateOf(Cancel(call.value.status)), now)
      ensures var s := old(repository.View());
              id in s.rows && s.rows[id].call.principal == principal && released
              && s.rows[id].call.status !in {Completed, Failed, Cancelled} ==>
                cancelled.Ok? && cancelled.value.status == Cancelled && cancelled.value.endedAt == Some(now)
    {
      if id in repository.View().rows && repository.View().rows[id].call.status !in {Completed, Failed, Cancelled} {
        CancelEnds(repository.View(), id, now);
      }
      hide MemoryCallRepository.View, AfterUpdate, UpdateOf;
      var call := GetCall(id, Some(principal));
      if call.Err? || call.value.status.Terminal() {
        return call;
      }
      if !released {
        return Err(CancelFailed);
      }
      cancelled := repository.UpdateCall(id, UpdateOf(Cancel(call.value.status)), now);
    }

    method RequestInput(id: string, requestId: string, question: string, options: seq<string>, timeout: nat, now: int)
      returns (asked: Result<InputRequest>)
      requires repository.Valid()
      modifies repository
      ensures repository.Valid()
      ensures var request := InputRequest(requestId, id, Pending, question, options, None, now + timeout, None);
              var r := I.RequestInput(Memory, old(repository.View()), request, now);
              && repository.View() == r.0
              && asked == if r.1.Some? then Err(r.1.value) else Ok(request)
    {
      hide MemoryCallRepository.View, UpdateOf, UpdateCall;
      var call := GetCall(id, None);
      if call.Err? {
        return Err(CallNotFound);
      }
      var request := InputRequest(requestId, id, Pending, question, options, None, now + timeout, None);
      repository.CreateInputRequest(request);
      var state := call.value.state.(pendingInput := Some(requestId));
      var updated := repository.UpdateCall(id, UpdateOf(AskInput(state)), now);
      return if updated.Err? then Err(updated.error) else Ok(request);
    }

    method Respond(id: string, requestId: string, response: Fields, principal: string, now: int)
      returns (answered: Result<CallRecord>)
      requires repository.Valid()
      modifies repository
      ensures repository.Valid()
      ensures var s := old(repository.View());
              if Owned(s, id, Some(principal)).Err? then repository.View() == s && answered == Err(CallNotFound)
              else
                var r := I.Respond(Memory, s, id, requestId, response, now);
                && repository.View() == r.0 && id in r.0.rows
                && answered == if r.1.Some? then Err(r.1.value) else Ok(r.0.rows[id].call)
    {
      hide MemoryCallRepository.View, UpdateOf, UpdateCall;
      var call := GetCall(id, Some(principal));
      if call.Err? {
        return call;
      }
      var request := repository.GetInputRequest(requestId);
      if request.None? || request.value.callId != id {
        return Err(InputRequestNotFound);
      }
      if !request.value.status.Pending? {
        return call;
      }
      var resolved := repository.ResolveInputRequest(id, requestId, response, now);
      var state := call.value.state.(pendingInput := None);
      UpdateKeepsCall(repository.View(), id, UpdateOf(InputReceived(state)), now);
      answered := repository.UpdateCall(id, UpdateOf(InputReceived(state)), now);
    }

    method ExpireInput(id: string, requestId: string, now: int) returns (expired: Result<CallRecord>)
      requires repository.Valid()
      modifies repository
      ensures repository.Valid()
      ensures var r := I.ExpireInput(Memory, old(repository.View()), id, requestId, now);
              && repository.View() == r.0
              && (r.1.Some? ==> expired == Err(r.1.value))
              && (r.1.None? ==> id in r.0.rows && expired == Ok(r.0.rows[id].call))
    {
      hide MemoryCallRepository.View, UpdateOf, UpdateCall;
      var call := GetCall(id, None);
      if call.Err? {
        return call;
      }
      var request := repository.ExpireInputRequest(id, requestId, now);
      if request.Err? {
        return Err(request.error);
      }
      if !request.value.status.Expired? || !call.value.status.InputRequired? {
        return call;
      }
      var state := call.value.state.(pendingInput := None);
      UpdateKeepsCall(repository.View(), id, UpdateOf(InputTimeout(state)), now);
      expired := repository.UpdateCall(id, UpdateOf(InputTimeout(state)), now);
    }

    /** `list_calls`: the cursor text goes in and comes out; `json` and `parse` are the JSON layer. */
    method ListCalls(
      keep: CallRecord -> bool, cursor: Option<string>, limit: nat, json: P.Key -> seq<C.Byte>,
      parse: seq<C.Byte> -> Option<P.Key>)
      returns (page: Result<(seq<CallRecord>, Option<string>)>)
      requires repository.Valid() && limit >= 1
      ensures var key := C.DecodeCursor(cursor, parse);
              if key.Err? then page == Err(InvalidCursor)
              else
                var spec := P.ListPage(repository.View(), keep, key.value, limit);
                && page.Ok? && page.value.0 == spec.calls
                && (spec.next.None? <==> page.value.1.None?)
                && (spec.next.Some? && spec.next.value.id != "" && parse(json(spec.next.value)) == spec.next ==>
                      C.DecodeCursor(page.value.1, parse) == Ok(spec.next))
    {
      hide P.ListCalls, C.DecodeCursor;
      var key := C.DecodeCursor(cursor, parse);
      if key.Err? {
        DecodeError(cursor, parse);
        return Err(InvalidCursor);
      }
      var calls := P.ListCalls(repository.View(), keep, key.value, limit + 1);
      var shown := if limit < |calls| then calls[..limit] else calls;
      var next := None;
      if |calls| > limit && shown != [] {
        var last := P.KeyOf(shown[|shown| - 1]);
        next := Some(C.EncodeCursor(last, json));
        if parse(json(last)) == Some(last) && last.id != "" {
          C.CursorRoundTrip(last, json, parse);
        }
      }
      return Ok((shown, next));
    }
  }

  lemma DecodeError(cursor: Option<string>, parse: seq<C.Byte> -> Option<P.Key>)
    ensures C.DecodeCursor(cursor, parse).Err? ==> C.DecodeCursor(cursor, parse) == Err(InvalidCursor)
  {
  }

  lemma UpdateKeepsCall(s: Store, id: string, u: Update, now: int)
    ensures id in s.rows ==> id in AfterUpdate(Memory, s, id, u, now).0.rows
  {
  }

  lemma StartHandOver(s: Store, queued: seq<CallRecord>, dispatcher: Dispatcher, now: int)
    returns (t: Store, count: nat, raised: bool)
    ensures HandOver(s, queued, dispatcher, now) == (t, count, raised)
    ensures Untouched(s, queued) ==> Untouched(s, queued[0..])
    ensures Remaining(s, queued[0..], dispatcher, now, 0, t, count, raised)
  {
    assert queued[0..] == queued;
    var pass := HandOver(s, queued, dispatcher, now);
    t, count, raised := pass.0, pass.1, pass.2;
  }

  lemma NextHandOver(
    s: Store, queued: seq<CallRecord>, i: nat, dispatcher: Dispatcher, now: int, n: nat, t: Store, count: nat, raised: bool)
    requires Wellformed(s) && i < |queued| && Untouched(s, queued[i..])
    requires Remaining(s, queued[i..], dispatcher, now, n, t, count, raised)
    ensures var d := dispatcher(queued[i]);
            var m := Meanwhile(s, queued[i], d, now);
            var (u, r) := AfterUpdate(Memory, m, queued[i].id, UpdateOf(D.ResultSite(queued[i], d.result)), now);
            && (r.Err? <==> d.Overtaken())
            && (r.Err? ==> u == t && n == count && raised)
            && (r.Ok? ==>
                  && Untouched(u, queued[i + 1..])
                  && Remaining(u, queued[i + 1..], dispatcher, now,
                               if d.result.Accepted? then n + 1 else n, t, count, raised))
  {
    RecordFirst(s, queued[i..], dispatcher, now);
    assert queued[i..][1..] == queued[i + 1..];
    hide Untouched, Wellformed, UpdateOf, UpdateCall, Meanwhile;
  }

  lemma HandOverNothing(
    s: Store, todo: seq<CallRecord>, dispatcher: Dispatcher, now: int, n: nat, t: Store, count: nat, raised: bool)
    requires todo == [] && Remaining(s, todo, dispatcher, now, n, t, count, raised)
    ensures s == t && n == count && !raised
  {
  }
}
