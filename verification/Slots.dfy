/** The slots of the dispatcher, counted status by status, and the length of the waiting line. */
module Slots {
  import opened Base
  import opened Models
  import opened Rows
  import opened CallStore

  /** The calls, of either direction, whose agent has been started and that have not ended, and those
      in front of that whose dispatch is recorded. */
  ghost function Busy(s: Store): nat {
    |set id | id in s.rows && s.rows[id].call.status in
        {Prewarming, Dialing, Ringing, Connected, Active, InputRequired, Completing}|
    + |set id | id in s.rows && s.rows[id].call.status in {Created, Validating, Queued}
        && s.rows[id].call.state.dispatchId != None|
  }

  /** The calls that are QUEUED without a dispatch id. */
  ghost function InLine(s: Store): nat {
    |set id | id in s.rows && s.rows[id].call.status == Queued && s.rows[id].call.state.dispatchId == None|
  }

  lemma CountByStatus(s: Store)
    ensures CountDispatched(s) == Busy(s)
  {
    var started := set id | id in s.rows && s.rows[id].call.status in
        {Prewarming, Dialing, Ringing, Connected, Active, InputRequired, Completing};
    var recorded := set id | id in s.rows && s.rows[id].call.status in {Created, Validating, Queued}
        && s.rows[id].call.state.dispatchId != None;
    forall id ensures id in Occupants(s.rows) <==> id in started || id in recorded {
      if id in s.rows {
        StartedOrRecorded(s.rows[id].call);
      }
    }
    assert Occupants(s.rows) == started + recorded;
    assert started !! recorded;
  }

  lemma StartedOrRecorded(call: CallRecord)
    ensures Occupying(call) <==>
            || call.status in {Prewarming, Dialing, Ringing, Connected, Active, InputRequired, Completing}
            || (call.status in {Created, Validating, Queued} && call.state.dispatchId != None)
  {
  }

  /** Whatever ends a call, of either direction, takes it out of the count and no other. */
  lemma EndFreesTheSlot(backend: Backend, s: Store, id: string, u: Update, now: int)
    requires UpdateCall(backend, s, id, u, now).Ok?
    requires u.status in {Some(Completed), Some(Failed), Some(Cancelled)}
    ensures var before := s.rows[id].call;
            var counted :=
              || before.status in {Prewarming, Dialing, Ringing, Connected, Active, InputRequired, Completing}
              || (before.status in {Created, Validating, Queued} && before.state.dispatchId != None);
            CountDispatched(UpdateCall(backend, s, id, u, now).value) ==
            CountDispatched(s) - if counted then 1 else 0
  {
    var t := UpdateCall(backend, s, id, u, now).value;
    UpdateEffect(backend, s.rows[id], u, now);
    hide UpdateRow;
    StartedOrRecorded(s.rows[id].call);
    assert Occupants(t.rows) == Occupants(s.rows) - {id};
  }

  /** When every call has ended or waits, every slot is free. */
  lemma NothingBusy(s: Store)
    requires forall id <- s.rows :: var call := s.rows[id].call;
               call.status in {Completed, Failed, Cancelled} || (call.status == Queued && call.state.dispatchId == None)
    ensures Busy(s) == 0
  {
  }

  // ---- The waiting line ----

  lemma {:induction false} DistinctCount(calls: seq<CallRecord>)
    requires DistinctIds(calls)
    ensures |set c | c in calls :: c.id| == |calls|
    decreases |calls|
  {
    if calls != [] {
      var front, last := calls[..|calls| - 1], calls[|calls| - 1];
      DistinctCount(front);
      assert calls == front + [last];
      assert (set c | c in calls :: c.id) == (set c | c in front :: c.id) + {last.id};
    }
  }

  /** As many calls wait as are stored QUEUED without a dispatch id. */
  lemma LineLength(s: Store)
    requires Wellformed(s)
    ensures |WaitingLine(s)| == InLine(s)
  {
    var line := WaitingLine(s);
    LineIsSortedAndDistinct(s);
    DistinctCount(line);
    var waiting := set id | id in s.rows && s.rows[id].call.status == Queued && s.rows[id].call.state.dispatchId == None;
    forall id ensures id in waiting <==> id in set c | c in line :: c.id {
      if id in waiting {
        LineMembers(s, s.rows[id].call);
      }
      if c :| c in line && c.id == id {
        LineMembers(s, c);
      }
    }
    assert waiting == set c | c in line :: c.id;
  }
}
