/** One dispatch pass among everything else that happens: how far it gets. */
module DispatchPasses {
  import opened Base
  import opened Models
  import opened Rows
  import opened CallSites
  import opened CallStore
  import opened Dispatch
  import opened DispatchRuns

  function Ids(calls: seq<CallRecord>): seq<string> {
    if calls == [] then [] else [calls[0].id] + Ids(calls[1..])
  }

  predicate StillQueued(store: Store, id: string) {
    id in store.rows && store.rows[id].call.status.Queued?
  }

  /** The result of a handover cannot be written although calls remain: the write is lost or raises, or
      the call has left QUEUED since it was listed (its agent was faster, or it was cancelled). */
  predicate Cut(s: Server, a: Action) {
    && s.pass.Handing? && s.pass.todo != []
    && (a.LoseResult? || (a.RecordResult? && (a.raises || !StillQueued(s.store, s.pass.call.id))))
  }

  ghost predicate NeverCut(backend: Backend, s: Server, run: seq<Action>, maxConcurrent: nat)
    requires Valid(backend, s, run, maxConcurrent)
    decreases |run|
  {
    run == [] || (!Cut(s, run[0]) && NeverCut(backend, Next(backend, s, run[0], maxConcurrent), run[1..], maxConcurrent))
  }

  lemma RecordAcceptedIff(backend: Backend, store: Store, call: CallRecord, result: Handover, now: int)
    ensures UpdateCall(backend, store, call.id, UpdateOf(ResultSite(call, result)), now).Ok? <==> StillQueued(store, call.id)
  {
    if call.id in store.rows {
      UpdateEffect(backend, store.rows[call.id], UpdateOf(ResultSite(call, result)), now);
    }
  }

  /** What one step does to the calls handed over and to those still to come. */
  lemma StepOfPass(backend: Backend, s: Server, a: Action, maxConcurrent: nat)
    requires Wellformed(s.store) && Enabled(s, a) && !a.BeginPass? && !s.pass.Counted?
    ensures var t := Next(backend, s, a, maxConcurrent);
            && !t.pass.Counted?
            && (a.Hand? ==>
                  Todo(s.pass) != [] && t.handed == s.handed + [Todo(s.pass)[0].id] && Todo(t.pass) == Todo(s.pass)[1..])
            && (!a.Hand? ==> t.handed == s.handed)
            && (!a.Hand? && !Cut(s, a) ==> Todo(t.pass) == Todo(s.pass))
            && (Cut(s, a) ==> t.pass.Idle? && Todo(s.pass) != [])
  {
    if a.RecordResult? {
      RecordAcceptedIff(backend, s.store, s.pass.call, s.pass.result, a.now);
    }
    hide Wellformed, UpdateCall, UpdateOf, AppendTurn, CreateCall;
  }

  /** From any point of a pass to any later one, the calls handed over are the listed ones in order,
      as far as it got; and a pass that has ended has handed over all of them exactly when it was
      never cut: when each result but the last could be written, its call being still QUEUED. */
  lemma {:induction false} PassHandsOverAllIff(backend: Backend, s: Server, run: seq<Action>, maxConcurrent: nat)
    requires Valid(backend, s, run, maxConcurrent) && !s.pass.Counted? && forall a <- run :: !a.BeginPass?
    ensures var t := After(backend, s, run, maxConcurrent);
            && s.handed <= t.handed && t.handed <= s.handed + Ids(Todo(s.pass))
            && (t.pass.Idle? ==>
                  (t.handed == s.handed + Ids(Todo(s.pass)) <==> NeverCut(backend, s, run, maxConcurrent)))
    decreases |run|
  {
    var todo := Todo(s.pass);
    if run == [] {
      assert s.handed + [] == s.handed;
      assert s.pass.Idle? ==> todo == [];
    } else {
      var a := run[0];
      var m := Next(backend, s, a, maxConcurrent);
      StepOfPass(backend, s, a, maxConcurrent);
      hide Next, Cut;
      PassHandsOverAllIff(backend, m, run[1..], maxConcurrent);
      assert m.handed + Ids(Todo(m.pass)) <= s.handed + Ids(todo) by {
        if a.Hand? {
          assert s.handed + [todo[0].id] + Ids(todo[1..]) == s.handed + ([todo[0].id] + Ids(todo[1..]));
        } else if Cut(s, a) {
          assert Todo(m.pass) == [] && m.handed + [] == m.handed;
        }
      }
      if Cut(s, a) {
        assert Todo(m.pass) == [] && m.handed + [] == m.handed;
        assert |Ids(todo)| > 0;
      } else if a.Hand? {
        assert s.handed + [todo[0].id] + Ids(todo[1..]) == s.handed + ([todo[0].id] + Ids(todo[1..]));
      }
    }
  }

  /** An accepted call that its agent moves on before its result can be recorded. */
  lemma AgentMovesOn(backend: Backend, s: Server, hand: Action, now: int, maxConcurrent: nat)
    requires Wellformed(s.store) && s.pass.Looping? && s.pass.todo != [] && StillQueued(s.store, s.pass.todo[0].id)
    requires hand.Hand? && hand.result.Accepted?
    ensures var c := s.pass.todo[0];
            var a := Next(backend, s, hand, maxConcurrent);
            var b := Next(backend, a, Write(c.id, Prewarm, now), maxConcurrent);
            && Enabled(s, hand) && Enabled(a, Write(c.id, Prewarm, now))
            && b.pass == Handing(c, hand.result, s.pass.todo[1..]) && b.handed == s.handed + [c.id]
            && Wellformed(b.store) && c.id in b.store.rows && b.store.rows[c.id].call.status.Prewarming?
  {
    var c := s.pass.todo[0];
    UpdateEffect(backend, s.store.rows[c.id], UpdateOf(Prewarm), now);
    hide UpdateCall, AppendTurn, CreateCall;
  }

  lemma RecordTooLate(backend: Backend, s: Server, now: int, maxConcurrent: nat)
    requires Wellformed(s.store) && s.pass.Handing? && !StillQueued(s.store, s.pass.call.id)
    ensures Next(backend, s, RecordResult(now, false), maxConcurrent).(pass := s.pass) == s
    ensures Next(backend, s, RecordResult(now, false), maxConcurrent).pass.Idle?
  {
    RecordAcceptedIff(backend, s.store, s.pass.call, s.pass.result, now);
    hide UpdateCall;
  }

  /** The agent can be faster than the record: it moves its call to PREWARMING as soon as it is
      reached, and then the write of the result raises, the pass ends, and the other listed calls are
      not handed over although there is room for them. */
  lemma FastAgentEndsPass(
    backend: Backend, s: Server, room: string, dispatchId: string, now: int, maxConcurrent: nat)
    requires Wellformed(s.store) && s.pass.Looping? && s.pass.todo != [] && StillQueued(s.store, s.pass.todo[0].id)
    ensures var c := s.pass.todo[0];
            var run := [Hand(Accepted(room, dispatchId)), Write(c.id, Prewarm, now), RecordResult(now, false)];
            && Valid(backend, s, run, maxConcurrent)
            && var t := After(backend, s, run, maxConcurrent);
               && t.pass.Idle? && t.handed == s.handed + [c.id]
               && c.id in t.store.rows && t.store.rows[c.id].call.status.Prewarming?
  {
    var c := s.pass.todo[0];
    var hand := Hand(Accepted(room, dispatchId));
    var write, record := Write(c.id, Prewarm, now), RecordResult(now, false);
    AgentMovesOn(backend, s, hand, now, maxConcurrent);
    hide Next, Wellformed;
    var a := Next(backend, s, hand, maxConcurrent);
    var b := Next(backend, a, write, maxConcurrent);
    RecordTooLate(backend, b, now, maxConcurrent);
    var t := Next(backend, b, record, maxConcurrent);
    assert Enabled(b, record);
    hide Enabled;
    RunNil(backend, t, t, [], maxConcurrent);
    RunCons(backend, b, record, t, [], t, maxConcurrent);
    RunCons(backend, a, write, b, [record] + [], t, maxConcurrent);
    RunCons(backend, s, hand, a, [write] + ([record] + []), t, maxConcurrent);
    assert [hand] + ([write] + ([record] + [])) == [hand, write, record];
  }
}
