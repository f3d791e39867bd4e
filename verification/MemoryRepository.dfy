/** storage/memory.py: the dictionaries behind `MemoryCallRepository`, changed in place. */
module MemoryRepository {
  import opened Base
  import opened Models
  import opened Rows
  import opened CallStore
  import opened Slots
  import I = InputRequests

  lemma UpdateKeepsListed(s: Store, id: string, u: Update, now: int)
    requires Wellformed(s) && id in s.rows && Accepts(s.rows[id].call, u)
    ensures Listed(s.order, s.rows[id := UpdateRow(Memory, s.rows[id], u, now).value])
  {
  }

  lemma TurnKeepsListed(
    s: Store, id: string, role: Role, transcript: string, interrupted: bool, last: Option<string>, now: int)
    requires Wellformed(s) && id in s.rows
    ensures Listed(s.order, s.rows[id := WithTurn(Memory, s.rows[id], role, transcript, interrupted, last, now)])
  {
  }

  lemma AddKeepsListed(order: seq<string>, rows: map<string, Row>, row: Row)
    requires Listed(order, rows)
    ensures Listed(if row.call.id in rows then order else order + [row.call.id], rows[row.call.id := row])
  {
    assert row.call.id !in rows ==> row.call.id !in order;
  }

  /** The `updates` dictionary, one key after the other. */
  method Updated(call: CallRecord, u: Update, now: int) returns (next: CallRecord)
    ensures next == MemoryCall(call, u, now)
  {
    next := call.(updatedAt := now);
    if u.status.Some? {
      next := next.(status := u.status.value);
      if u.status.value.Connected? && call.connectedAt.None? {
        next := next.(connectedAt := Some(now));
      }
      if u.status.value.Terminal() {
        next := next.(endedAt := Some(now), phase := None);
      }
    }
    if u.phase.Some? {
      next := next.(phase := u.phase);
    }
    if u.state.Some? {
      next := next.(state := u.state.value);
    }
    if u.outcome.Some? {
      next := next.(outcome := u.outcome);
    }
    if u.error.Some? {
      next := next.(error := u.error);
    }
  }

  class MemoryCallRepository {
    var calls: map<string, CallRecord>
    /** The insertion order of `calls`, which a Python dictionary keeps by itself. */
    var order: seq<string>
    var events: map<string, seq<Event>>
    var transcripts: map<string, seq<Turn>>
    var inputs: map<string, InputRequest>

    ghost predicate Valid()
      reads this
    {
      && calls.Keys == events.Keys == transcripts.Keys
      && Wellformed(View())
    }

    /** The store as one value. */
    function View(): Store
      reads this
    {
      Store(map id | id in calls && id in events && id in transcripts :: Row(calls[id], events[id], transcripts[id]),
            order, inputs)
    }

    constructor ()
      ensures Valid() && View() == Store(map[], [], map[])
    {
      calls, order, events, transcripts, inputs := map[], [], map[], map[], map[];
    }

    /** `_find_idempotent` */
    method FindIdempotent(principal: string, request: string) returns (found: Option<CallRecord>)
      requires Valid()
      ensures found == CallStore.FindIdempotent(View(), principal, request)
    {
      var i := 0;
      while i < |order|
        invariant i <= |order|
        invariant FindFrom(View(), i, principal, request) == CallStore.FindIdempotent(View(), principal, request)
      {
        assert order[i] in order;
        var call := calls[order[i]];
        if SameRequest(call, principal, request) {
          return Some(call);
        }
        i := i + 1;
      }
      return None;
    }

    method CreateCall(call: CallRecord) returns (stored: CallRecord)
      requires Valid()
      modifies this
      ensures Valid() && (View(), stored) == CallStore.CreateCall(old(View()), call)
    {
      if call.clientRequestId.GetOr("") != "" {
        var existing := FindIdempotent(call.principal, call.clientRequestId.value);
        if existing.Some? {
          return existing.value;
        }
      }
      Insert(call);
      return call;
    }

    method Insert(call: CallRecord)
      requires Valid()
      modifies this
      ensures Valid()
      ensures View() == old(View()).(
                rows := old(View()).rows[call.id := NewRow(call)],
                order := if call.id in old(View()).rows then old(order) else old(order) + [call.id])
    {
      hide Listed;
      ghost var before := View();
      if call.id !in calls {
        order := order + [call.id];
      }
      Put(call.id, call, [Event(1, Named("call.created"), NO_PAYLOAD, call.createdAt)], []);
      AddKeepsListed(before.order, before.rows, NewRow(call));
    }

    /** The three dictionary entries of a call. */
    method Put(id: string, call: CallRecord, log: seq<Event>, turns: seq<Turn>)
      requires calls.Keys == events.Keys == transcripts.Keys
      modifies this`calls, this`events, this`transcripts
      ensures calls.Keys == events.Keys == transcripts.Keys
      ensures View() == old(View()).(rows := old(View()).rows[id := Row(call, log, turns)])
    {
      ghost var before := View();
      calls, events, transcripts := calls[id := call], events[id := log], transcripts[id := turns];
      assert View().rows == before.rows[id := Row(call, log, turns)];
    }

    method GetCall(id: string) returns (call: Option<CallRecord>)
      requires Valid()
      ensures call == if id in View().rows then Some(View().rows[id].call) else None
    {
      return if id in calls then Some(calls[id]) else None;
    }

    method UpdateCall(id: string, u: Update, now: int) returns (updated: Result<CallRecord>)
      requires Valid()
      modifies this
      ensures Valid()
      ensures (View(), updated) == AfterUpdate(Memory, old(View()), id, u, now)
    {
      if id !in calls {
        return Err(CallNotFound);
      }
      var call := calls[id];
      if u.expected.Some? && call.status !in u.expected.value {
        return Err(InvalidStateTransition);
      }
      var next := Updated(call, u, now);
      hide MemoryCall, Listed;
      ghost var before := View();
      Put(id, next, events[id] + [Event(|events[id]| + 1, u.kind, u.payload, now)], transcripts[id]);
      UpdateKeepsListed(before, id, u, now);
      return Ok(next);
    }

    method AppendTranscriptTurn(
      id: string, role: Role, text: string, interrupted: bool, last: Option<string>, now: int)
      returns (appended: Result<Turn>)
      requires Valid()
      modifies this
      ensures Valid()
      ensures (View(), appended) == Append(Memory, old(View()), id, role, text, interrupted, last, now)
    {
      hide Strip, Listed;
      var transcript := Strip(text);
      if transcript == [] {
        return Err(EmptyTranscript);
      }
      if id !in calls {
        return Err(CallNotFound);
      }
      var turn := AppendStripped(id, role, transcript, interrupted, last, now);
      return Ok(turn);
    }

    method AppendStripped(
      id: string, role: Role, transcript: string, interrupted: bool, last: Option<string>, now: int)
      returns (turn: Turn)
      requires Valid() && id in calls
      modifies this
      ensures Valid()
      ensures var row := WithTurn(Memory, old(View()).rows[id], role, transcript, interrupted, last, now);
              && View() == old(View()).(rows := old(View()).rows[id := row])
              && turn == row.transcript[|row.transcript| - 1]
    {
      hide Listed, WithTurn;
      ghost var before := View();
      var call := calls[id];
      turn := Turn(|transcripts[id]| + 1, role, transcript, interrupted, now);
      if last.Some? {
        call := call.(state := call.state.(lastRemote := last), updatedAt := now);
      }
      var event := Event(
        |events[id]| + 1, TranscriptFinal(role), Payload(Some(transcript), Some(interrupted), map[]), now);
      Put(id, call, events[id] + [event], transcripts[id] + [turn]);
      WithTurnIs(Memory, before.rows[id], role, transcript, interrupted, last, now);
      TurnKeepsListed(before, id, role, transcript, interrupted, last, now);
    }

    /** `count_dispatched` */
    method CountDispatched() returns (n: nat)
      requires Valid()
      ensures n == CallStore.CountDispatched(View()) == Busy(View())
    {
      CountByStatus(View());
      hide Busy;
      n := 0;
      ghost var counted: set<string> := {};
      for i := 0 to |order|
        invariant counted == set id | id in order[..i] && id in calls && Occupying(calls[id])
        invariant n == |counted|
      {
        assert order[i] in order && order[i] !in order[..i];
        assert order[..i + 1] == order[..i] + [order[i]];
        if Occupying(calls[order[i]]) {
          n := n + 1;
          counted := counted + {order[i]};
        }
      }
      assert order[..|order|] == order;
      assert counted == Occupants(View().rows);
    }

    method CreateInputRequest(request: InputRequest)
      requires Valid()
      modifies this
      ensures Valid() && View() == old(View()).(inputs := old(View()).inputs[request.id := request])
    {
      inputs := inputs[request.id := request];
    }

    method GetInputRequest(id: string) returns (request: Option<InputRequest>)
      ensures request == if id in View().inputs then Some(View().inputs[id]) else None
    {
      return if id in inputs then Some(inputs[id]) else None;
    }

    method ResolveInputRequest(callId: string, id: string, response: Fields, now: int)
      returns (request: Result<InputRequest>)
      requires Valid()
      modifies this
      ensures Valid()
      ensures var r := I.Resolve(old(View()), callId, id, response, now);
              && View() == (if r.Ok? then r.value.0 else old(View()))
              && request == if r.Ok? then Ok(r.value.1) else Err(r.error)
    {
      if id !in inputs || inputs[id].callId != callId {
        return Err(InputRequestNotFound);
      }
      if !inputs[id].status.Pending? {
        return Ok(inputs[id]);
      }
      var resolved := inputs[id].(status := Resolved, response := Some(response), resolvedAt := Some(now));
      inputs := inputs[id := resolved];
      return Ok(resolved);
    }

    method ExpireInputRequest(callId: string, id: string, now: int) returns (request: Result<InputRequest>)
      requires Valid()
      modifies this
      ensures Valid()
      ensures var r := I.Expire(old(View()), callId, id, now);
              && View() == (if r.Ok? then r.value.0 else old(View()))
              && request == if r.Ok? then Ok(r.value.1) else Err(r.error)
    {
      if id !in inputs || inputs[id].callId != callId {
        return Err(InputRequestNotFound);
      }
      if !inputs[id].status.Pending? {
        return Ok(inputs[id]);
      }
      var expired := inputs[id].(status := Expired, resolvedAt := Some(now));
      inputs := inputs[id := expired];
      return Ok(expired);
    }
  }
}
