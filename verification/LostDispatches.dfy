/** What a lost dispatch result leads to: a second dial, and one call too many under way. */
module LostDispatches {
  import opened Base
  import opened Models
  import opened Rows
  import opened CallSites
  import opened CallStore
  import opened Dispatch
  import opened DispatchRuns

  /** When the write that records an accepted handover is lost, the next pass dials the same call again. */
  lemma LostResultDialsTwice(
    backend: Backend, s: Server, c: CallRecord, room: string, dispatchId: string, maxConcurrent: nat)
    requires Wellformed(s.store) && s.pass.Idle? && maxConcurrent >= 1
    requires WaitingLine(s.store) == [c] && Occupants(s.store.rows) == {}
    ensures var run := [BeginPass, ListPass, Hand(Accepted(room, dispatchId)), LoseResult,
                        BeginPass, ListPass, Hand(Accepted(room, dispatchId))];
            && Valid(backend, s, run, maxConcurrent)
            && After(backend, s, run, maxConcurrent).handed == s.handed + [c.id, c.id]
  {
    var hand := Hand(Accepted(room, dispatchId));
    var s3 := Handed(s, c, hand.result, []);
    var s4 := s3.(pass := Idle, losses := s3.losses + [c.id], lost := s3.lost + {c.id});
    hide Valid, After, Occupants, WaitingLine, Wellformed;
    LoseIsNext(backend, s3, s4, maxConcurrent);
    hide Next, Enabled;
    var again := [BeginPass, ListPass, hand];
    var s7 := OnePassDials(backend, s4, c, hand.result, maxConcurrent);
    RunCons(backend, s3, LoseResult, s4, again, s7, maxConcurrent);
    PassDials(backend, s, [c], hand.result, [LoseResult] + again, s7, maxConcurrent);
    assert [BeginPass, ListPass, hand] + ([LoseResult] + again)
        == [BeginPass, ListPass, hand, LoseResult, BeginPass, ListPass, hand];
    assert s.handed + [c.id] + [c.id] == s.handed + [c.id, c.id];
  }

  lemma OnePassDials(backend: Backend, s: Server, c: CallRecord, result: Handover, maxConcurrent: nat) returns (t: Server)
    requires Wellformed(s.store) && s.pass.Idle? && maxConcurrent >= 1 && result.Accepted?
    requires WaitingLine(s.store) == [c] && Occupants(s.store.rows) == {}
    ensures t == Handed(s, c, result, [])
    ensures var run := [BeginPass, ListPass, Hand(result)];
            Valid(backend, s, run, maxConcurrent) && After(backend, s, run, maxConcurrent) == t
  {
    t := Handed(s, c, result, []);
    assert FirstOf([c], maxConcurrent)[1..] == [];
    RunNil(backend, t, t, [], maxConcurrent);
    PassDials(backend, s, [c], result, [], t, maxConcurrent);
    assert [BeginPass, ListPass, Hand(result)] + [] == [BeginPass, ListPass, Hand(result)];
  }

  lemma LoseIsNext(backend: Backend, s: Server, t: Server, maxConcurrent: nat)
    requires Wellformed(s.store) && s.pass.Handing?
    requires t == s.(pass := Idle, losses := s.losses + [s.pass.call.id], lost := s.lost + {s.pass.call.id})
    ensures Enabled(s, LoseResult) && Next(backend, s, LoseResult, maxConcurrent) == t
  {
  }

  /** ... and the bound is exceeded when its agent starts after the next pass has counted: with one
      slot and two waiting calls, both end up under way. */
  lemma LostResultExceedsCapacity(
    backend: Backend, s: Server, c: CallRecord, d: CallRecord, room: string, dispatchId: string, now: int)
    requires Wellformed(s.store) && s.pass.Idle? && WaitingLine(s.store) == [c, d] && Occupants(s.store.rows) == {}
    requires c.direction.Outbound? && d.direction.Outbound?
    ensures var run := [BeginPass, ListPass, Hand(Accepted(room, dispatchId)), LoseResult, BeginPass,
                        Write(c.id, Prewarm, now), ListPass, Hand(Accepted(room, dispatchId)), RecordResult(now, false)];
            && Valid(backend, s, run, 1)
            && |UnderWay(After(backend, s, run, 1).store.rows)| >= 2
  {
    hide UnderWay;
    var t := Overtaking(backend, s, c, d, Accepted(room, dispatchId), now);
    hide Valid, After;
  }

  ghost predicate Leads(backend: Backend, s: Server, run: seq<Action>, t: Server) {
    Valid(backend, s, run, 1) && After(backend, s, run, 1) == t
  }

  lemma LeadsNowhere(backend: Backend, t: Server)
    requires Wellformed(t.store)
    ensures Leads(backend, t, [], t)
  {
    RunNil(backend, t, t, [], 1);
  }

  lemma StepLeads(backend: Backend, s: Server, a: Action, m: Server, rest: seq<Action>, t: Server)
    requires Wellformed(s.store) && Enabled(s, a) && Next(backend, s, a, 1) == m && Leads(backend, m, rest, t)
    ensures Leads(backend, s, [a] + rest, t)
  {
    hide Wellformed, Enabled, Next;
    RunCons(backend, s, a, m, rest, t, 1);
  }

  lemma Overtaking(backend: Backend, s: Server, c: CallRecord, d: CallRecord, result: Handover, now: int) returns (t: Server)
    requires Wellformed(s.store) && s.pass.Idle? && WaitingLine(s.store) == [c, d] && Occupants(s.store.rows) == {}
    requires c.direction.Outbound? && d.direction.Outbound? && result.Accepted?
    ensures Leads(backend, s, [BeginPass, ListPass, Hand(result), LoseResult, BeginPass, Write(c.id, Prewarm, now),
                               ListPass, Hand(result), RecordResult(now, false)], t)
    ensures |UnderWay(t.store.rows)| >= 2
  {
    hide WaitingLine, UpdateCall, UpdateOf, UnderWay, Wellformed, ListQueued, Occupants, Waiting;
    var store := AgentStarts(backend, s.store, c, d, now);
    RecordsSecond(backend, store, c, d, result, now);
    var recorded := UpdateCall(backend, store, d.id, UpdateOf(ResultSite(d, result)), now).value;
    var s3 := Handed(s, c, result, []);
    var s4 := s3.(pass := Idle, losses := s3.losses + [c.id], lost := s3.lost + {c.id});
    var s5 := s4.(pass := Counted(1));
    var s6 := s5.(store := store);
    var s7 := s6.(pass := Looping([d]));
    var s8 := Handed(s7, d, result, []);
    t := s8.(store := recorded, pass := Looping([]));
    assert FirstOf([c, d], 1) == [c] && [c][1..] == [];
    OvertakingSteps(backend, s3, s4, s5, s6, s7, s8, t, c, d, result, now);
    OvertakingRun(backend, s3, s4, s5, s6, s7, s8, t, c, result, now);
    var rest := [LoseResult, BeginPass, Write(c.id, Prewarm, now), ListPass, Hand(result), RecordResult(now, false)];
    PassDials(backend, s, [c, d], result, rest, t, 1);
    assert [BeginPass, ListPass, Hand(result)] + rest
        == [BeginPass, ListPass, Hand(result), LoseResult, BeginPass, Write(c.id, Prewarm, now), ListPass,
            Hand(result), RecordResult(now, false)];
  }

  lemma OvertakingRun(
    backend: Backend, s3: Server, s4: Server, s5: Server, s6: Server, s7: Server, s8: Server, s9: Server,
    c: CallRecord, result: Handover, now: int)
    requires Wellformed(s3.store) && Wellformed(s4.store) && Wellformed(s5.store) && Wellformed(s6.store)
    requires Wellformed(s7.store) && Wellformed(s8.store) && Wellformed(s9.store)
    requires Enabled(s3, LoseResult) && Next(backend, s3, LoseResult, 1) == s4
    requires Enabled(s4, BeginPass) && Next(backend, s4, BeginPass, 1) == s5
    requires Enabled(s5, Write(c.id, Prewarm, now)) && Next(backend, s5, Write(c.id, Prewarm, now), 1) == s6
    requires Enabled(s6, ListPass) && Next(backend, s6, ListPass, 1) == s7
    requires Enabled(s7, Hand(result)) && Next(backend, s7, Hand(result), 1) == s8
    requires Enabled(s8, RecordResult(now, false)) && Next(backend, s8, RecordResult(now, false), 1) == s9
    ensures Leads(backend, s3, [LoseResult, BeginPass, Write(c.id, Prewarm, now), ListPass, Hand(result),
                                RecordResult(now, false)], s9)
  {
    hide Wellformed, Enabled, Next, Leads;
    SecondIsHanded(backend, s6, s7, s8, s9, result, now);
    var r6 := [ListPass, Hand(result), RecordResult(now, false)];
    StepLeads(backend, s5, Write(c.id, Prewarm, now), s6, r6, s9);
    StepLeads(backend, s4, BeginPass, s5, [Write(c.id, Prewarm, now)] + r6, s9);
    StepLeads(backend, s3, LoseResult, s4, [BeginPass] + ([Write(c.id, Prewarm, now)] + r6), s9);
    assert [LoseResult] + ([BeginPass] + ([Write(c.id, Prewarm, now)] + r6))
        == [LoseResult, BeginPass, Write(c.id, Prewarm, now), ListPass, Hand(result), RecordResult(now, false)];
  }

  lemma SecondIsHanded(backend: Backend, s6: Server, s7: Server, s8: Server, s9: Server, result: Handover, now: int)
    requires Wellformed(s6.store) && Wellformed(s7.store) && Wellformed(s8.store) && Wellformed(s9.store)
    requires Enabled(s6, ListPass) && Next(backend, s6, ListPass, 1) == s7
    requires Enabled(s7, Hand(result)) && Next(backend, s7, Hand(result), 1) == s8
    requires Enabled(s8, RecordResult(now, false)) && Next(backend, s8, RecordResult(now, false), 1) == s9
    ensures Leads(backend, s6, [ListPass, Hand(result), RecordResult(now, false)], s9)
  {
    LeadsNowhere(backend, s9);
    hide Wellformed, Enabled, Next, Leads;
    StepLeads(backend, s8, RecordResult(now, false), s9, [], s9);
    StepLeads(backend, s7, Hand(result), s8, [RecordResult(now, false)] + [], s9);
    StepLeads(backend, s6, ListPass, s7, [Hand(result)] + ([RecordResult(now, false)] + []), s9);
    assert [ListPass] + ([Hand(result)] + ([RecordResult(now, false)] + []))
        == [ListPass, Hand(result), RecordResult(now, false)];
  }

  lemma OvertakingSteps(
    backend: Backend, s3: Server, s4: Server, s5: Server, s6: Server, s7: Server, s8: Server, s9: Server,
    c: CallRecord, d: CallRecord, result: Handover, now: int)
    requires Wellformed(s3.store) && Wellformed(s6.store) && Wellformed(s9.store)
    requires s3.pass == Handing(c, result, []) && c.id in s3.reached && Occupants(s3.store.rows) == {}
    requires s4 == s3.(pass := Idle, losses := s3.losses + [c.id], lost := s3.lost + {c.id})
    requires s5 == s4.(pass := Counted(1)) && s6 == s5.(store := s6.store) && s7 == s6.(pass := Looping([d]))
    requires result.Accepted? && s8 == Handed(s7, d, result, [])
    requires s9 == s8.(store := s9.store, pass := Looping([]))
    requires UpdateCall(backend, s5.store, c.id, UpdateOf(Prewarm), now) == Ok(s6.store)
    requires ListQueued(s6.store, 1) == [d]
    requires UpdateCall(backend, s8.store, d.id, UpdateOf(ResultSite(d, result)), now) == Ok(s9.store)
    ensures Enabled(s3, LoseResult) && Next(backend, s3, LoseResult, 1) == s4
    ensures Enabled(s4, BeginPass) && Next(backend, s4, BeginPass, 1) == s5
    ensures Enabled(s5, Write(c.id, Prewarm, now)) && Next(backend, s5, Write(c.id, Prewarm, now), 1) == s6
    ensures Enabled(s6, ListPass) && Next(backend, s6, ListPass, 1) == s7
    ensures Enabled(s7, Hand(result)) && Next(backend, s7, Hand(result), 1) == s8
    ensures Enabled(s8, RecordResult(now, false)) && Next(backend, s8, RecordResult(now, false), 1) == s9
  {
    hide UpdateCall, UpdateOf, Wellformed, ListQueued;
    assert [d][1..] == [];
  }

  lemma PrewarmIs(backend: Backend, s: Store, id: string, now: int)
    requires Wellformed(s) && id in s.rows && s.rows[id].call.status.Queued?
    ensures var r := UpdateCall(backend, s, id, UpdateOf(Prewarm), now);
            && r.Ok? && Wellformed(r.value) && r.value.rows.Keys == s.rows.Keys
            && (forall x <- s.rows :: x != id ==> r.value.rows[x] == s.rows[x])
            && r.value.rows[id].call.status.Prewarming? && r.value.rows[id].call.direction == s.rows[id].call.direction
  {
    UpdateEffect(backend, s.rows[id], UpdateOf(Prewarm), now);
  }

  /** One of two waiting calls waits no longer: the other one waits alone. */
  lemma LineWithout(s: Store, t: Store, c: CallRecord, d: CallRecord)
    requires Wellformed(s) && Wellformed(t) && WaitingLine(s) == [c, d] && t.rows.Keys == s.rows.Keys
    requires c.id in s.rows && !Waiting(t.rows[c.id].call)
    requires forall x <- s.rows :: x != c.id ==> t.rows[x] == s.rows[x]
    ensures WaitingLine(t) == [d]
  {
    LineIsSortedAndDistinct(t);
    hide Wellformed, WaitingLine, Waiting;
    forall x <- WaitingLine(t) ensures x == d {
      WaitsAlone(s, t, c, d, x);
    }
    TheOtherWaits(s, t, c, d);
    OnlyOne(WaitingLine(t), d);
  }

  lemma WaitsAlone(s: Store, t: Store, c: CallRecord, d: CallRecord, x: CallRecord)
    requires Wellformed(s) && Wellformed(t) && WaitingLine(s) == [c, d] && t.rows.Keys == s.rows.Keys
    requires c.id in s.rows && !Waiting(t.rows[c.id].call)
    requires forall y <- s.rows :: y != c.id ==> t.rows[y] == s.rows[y]
    requires x in WaitingLine(t)
    ensures x == d
  {
    hide Wellformed, WaitingLine;
    LineMembers(t, x);
    LineMembers(s, x);
  }

  lemma TheOtherWaits(s: Store, t: Store, c: CallRecord, d: CallRecord)
    requires Wellformed(s) && Wellformed(t) && WaitingLine(s) == [c, d] && t.rows.Keys == s.rows.Keys
    requires forall y <- s.rows :: y != c.id ==> t.rows[y] == s.rows[y]
    ensures d in WaitingLine(t)
  {
    LineIsSortedAndDistinct(s);
    assert [c, d][0] == c && [c, d][1] == d;
    hide Wellformed, WaitingLine, Waiting;
    LineMembers(s, d);
    LineMembers(t, d);
  }

  /** The agent of the first of two waiting calls moves it to PREWARMING. */
  lemma AgentStarts(backend: Backend, s: Store, c: CallRecord, d: CallRecord, now: int) returns (t: Store)
    requires Wellformed(s) && WaitingLine(s) == [c, d]
    ensures UpdateCall(backend, s, c.id, UpdateOf(Prewarm), now) == Ok(t)
    ensures Wellformed(t) && WaitingLine(t) == [d] && ListQueued(t, 1) == [d] && Waiting(d)
    ensures c.id in t.rows && d.id in t.rows && c.id != d.id && t.rows[d.id].call == d
    ensures t.rows[c.id].call.status.Prewarming? && t.rows[c.id].call.direction == c.direction
  {
    LineMembers(s, c);
    LineMembers(s, d);
    LineIsSortedAndDistinct(s);
    assert [c, d][0] == c && [c, d][1] == d;
    hide UpdateCall, UpdateOf, WaitingLine, Wellformed;
    PrewarmIs(backend, s, c.id, now);
    t := UpdateCall(backend, s, c.id, UpdateOf(Prewarm), now).value;
    LineWithout(s, t, c, d);
  }

  lemma OnlyOne(line: seq<CallRecord>, d: CallRecord)
    requires DistinctIds(line) && d in line && forall x <- line :: x == d
    ensures line == [d]
  {
    assert forall i :: 0 <= i < |line| ==> line[i] in line;
    if |line| > 1 {
      TwoDiffer(line);
      assert false;
    }
  }

  lemma TwoDiffer(line: seq<CallRecord>)
    requires DistinctIds(line) && |line| > 1
    ensures line[0].id != line[1].id
  {
  }

  /** Both calls are then under way. */
  lemma RecordsSecond(backend: Backend, s: Store, c: CallRecord, d: CallRecord, result: Handover, now: int)
    requires Wellformed(s) && c.id in s.rows && d.id in s.rows && c.id != d.id && s.rows[d.id].call == d
    requires s.rows[c.id].call.status.Prewarming? && s.rows[c.id].call.direction.Outbound? && d.direction.Outbound?
    requires result.Accepted? && Waiting(d)
    ensures var r := UpdateCall(backend, s, d.id, UpdateOf(ResultSite(d, result)), now);
            && r.Ok? && Wellformed(r.value) && |UnderWay(r.value.rows)| >= 2
  {
    UpdateEffect(backend, s.rows[d.id], UpdateOf(ResultSite(d, result)), now);
    var t := UpdateCall(backend, s, d.id, UpdateOf(ResultSite(d, result)), now).value;
    assert c.id in UnderWay(t.rows) && d.id in UnderWay(t.rows);
    SubsetSize({c.id, d.id}, UnderWay(t.rows));
  }

  /** `c` has just been handed over, its result not yet written. */
  function Handed(s: Server, c: CallRecord, result: Handover, todo: seq<CallRecord>): Server {
    s.(pass := Handing(c, result, todo), handed := s.handed + [c.id], reached := s.reached + {c.id},
       lost := s.lost - {c.id})
  }

  /** The calls that a pass takes when no slot is occupied. */
  function FirstOf(line: seq<CallRecord>, maxConcurrent: nat): seq<CallRecord> {
    if maxConcurrent < |line| then line[..maxConcurrent] else line
  }

  /** A pass over a line of calls begins with handing over the first. */
  lemma PassDials(
    backend: Backend, s: Server, line: seq<CallRecord>, result: Handover, rest: seq<Action>, t: Server, maxConcurrent: nat)
    requires Wellformed(s.store) && s.pass.Idle? && maxConcurrent >= 1 && result.Accepted?
    requires line != [] && WaitingLine(s.store) == line && Occupants(s.store.rows) == {}
    requires var m := Handed(s, line[0], result, FirstOf(line, maxConcurrent)[1..]);
             Valid(backend, m, rest, maxConcurrent) && After(backend, m, rest, maxConcurrent) == t
    ensures var run := [BeginPass, ListPass, Hand(result)] + rest;
            Valid(backend, s, run, maxConcurrent) && After(backend, s, run, maxConcurrent) == t
  {
    hide Valid, After, WaitingLine;
    var s1 := s.(pass := Counted(maxConcurrent));
    var s2 := s.(pass := Looping(FirstOf(line, maxConcurrent)));
    var s3 := Handed(s, line[0], result, FirstOf(line, maxConcurrent)[1..]);
    assert ListQueued(s.store, maxConcurrent) == FirstOf(line, maxConcurrent);
    RunCons(backend, s2, Hand(result), s3, rest, t, maxConcurrent);
    RunCons(backend, s1, ListPass, s2, [Hand(result)] + rest, t, maxConcurrent);
    RunCons(backend, s, BeginPass, s1, [ListPass] + ([Hand(result)] + rest), t, maxConcurrent);
    assert [BeginPass] + ([ListPass] + ([Hand(result)] + rest)) == [BeginPass, ListPass, Hand(result)] + rest;
  }
}
