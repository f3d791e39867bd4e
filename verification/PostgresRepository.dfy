/** storage/postgres.py: the transactions of `PostgresCallRepository` that change a call or an input
    request. A table is a dictionary by key; rows of one call are kept in the order of their sequence
    numbers. */
module PostgresRepository {
  import opened Base
  import opened Models
  import opened Rows
  import opened CallStore
  import I = InputRequests

  /** `COALESCE($n, column)` */
  function Coalesce<T>(given: Option<T>, column: T): T {
    given.GetOr(column)
  }

  method NextCall(current: CallRecord, u: Update, now: int) returns (row: CallRecord)
    ensures row == PostgresCall(current, u, now)
  {
    var nextStatus := u.status.GetOr(current.status);
    var nextPhase := if u.phase.Some? then u.phase else current.phase;
    var connectedAt, endedAt := current.connectedAt, current.endedAt;
    if nextStatus.Connected? && connectedAt.None? {
      connectedAt := Some(now);
    }
    if nextStatus.Terminal() {
      endedAt, nextPhase := Some(now), None;
    }
    row := current.(status := nextStatus, phase := nextPhase, state := Coalesce(u.state, current.state),
                    outcome := if u.outcome.Some? then u.outcome else current.outcome,
                    error := if u.error.Some? then u.error else current.error,
                    updatedAt := now, connectedAt := connectedAt, endedAt := endedAt);
  }

  class PostgresCallRepository {
    var calls: map<string, CallRecord>
    var callEvents: map<string, seq<Event>>
    var callTurns: map<string, seq<Turn>>
    var inputRequests: map<string, InputRequest>

    predicate Valid()
      reads this
    {
      calls.Keys == callEvents.Keys == callTurns.Keys
    }

    /** The tables as one value; a table has no insertion order. */
    function View(): Store
      reads this
    {
      Store(map id | id in calls && id in callEvents && id in callTurns :: Row(calls[id], callEvents[id], callTurns[id]),
            [], inputRequests)
    }

    constructor ()
      ensures Valid() && View() == Store(map[], [], map[])
    {
      calls, callEvents, callTurns, inputRequests := map[], map[], map[], map[];
    }

    method UpdateCall(id: string, u: Update, now: int) returns (updated: Result<CallRecord>)
      requires Valid()
      modifies this
      ensures Valid()
      ensures (View(), updated) == AfterUpdate(Postgres, old(View()), id, u, now)
    {
      if id !in calls {
        return Err(CallNotFound);
      }
      var current := calls[id];
      if u.expected.Some? && current.status !in u.expected.value {
        return Err(InvalidStateTransition);
      }
      var row := NextCall(current, u, now);
      hide PostgresCall;
      ghost var before := View();
      calls := calls[id := row];
      var sequence := MaxEvent(callEvents[id]) + 1;
      callEvents := callEvents[id := callEvents[id] + [Event(sequence, u.kind, u.payload, now)]];
      assert View().rows == before.rows[id := UpdateRow(Postgres, before.rows[id], u, now).value];
      return Ok(row);
    }

    method AppendTranscriptTurn(
      id: string, role: Role, text: string, interrupted: bool, last: Option<string>, now: int)
      returns (appended: Result<Turn>)
      requires Valid()
      modifies this
      ensures Valid()
      ensures (View(), appended) == Append(Postgres, old(View()), id, role, text, interrupted, last, now)
    {
      hide Strip;
      var transcript := Strip(text);
      if transcript == [] {
        return Err(EmptyTranscript);
      }
      if id !in calls {
        return Err(CallNotFound);
      }
      var turn := AppendStripped(id, role, transcript, interrupted, last, now);
      return Ok(turn);
    }

    method AppendStripped(
      id: string, role: Role, transcript: string, interrupted: bool, last: Option<string>, now: int)
      returns (turn: Turn)
      requires Valid() && id in calls
      modifies this
      ensures Valid()
      ensures var row := WithTurn(Postgres, old(View()).rows[id], role, transcript, interrupted, last, now);
              && View() == old(View()).(rows := old(View()).rows[id := row])
              && turn == row.transcript[|row.transcript| - 1]
    {
      hide WithTurn, MaxTurn, MaxEvent;
      ghost var before := View();
      ghost var row := WithTurn(Postgres, before.rows[id], role, transcript, interrupted, last, now);
      turn := Turn(MaxTurn(callTurns[id]) + 1, role, transcript, interrupted, now);
      callTurns := callTurns[id := callTurns[id] + [turn]];
      if last.Some? {
        var state := calls[id].state.(lastRemote := last);
        calls := calls[id := calls[id].(state := state, updatedAt := now)];
      }
      var event := Event(
        MaxEvent(callEvents[id]) + 1, TranscriptFinal(role), Payload(Some(transcript), Some(interrupted), map[]), now);
      callEvents := callEvents[id := callEvents[id] + [event]];
      WithTurnIs(Postgres, before.rows[id], role, transcript, interrupted, last, now);
      assert View().rows == before.rows[id := row];
    }

    /** `UPDATE ... WHERE id = $1 AND call_id = $2 AND status = 'pending' RETURNING *` */
    method SettlePending(callId: string, id: string, settled: InputRequest) returns (row: Option<InputRequest>)
      requires Valid()
      modifies this`inputRequests
      ensures var hit := id in old(inputRequests) && old(inputRequests)[id].callId == callId
                         && old(inputRequests)[id].status.Pending?;
              && inputRequests == (if hit then old(inputRequests)[id := settled] else old(inputRequests))
              && row == if hit then Some(settled) else None
    {
      if id in inputRequests && inputRequests[id].callId == callId && inputRequests[id].status.Pending? {
        inputRequests := inputRequests[id := settled];
        return Some(settled);
      }
      return None;
    }

    method ResolveInputRequest(callId: string, id: string, response: Fields, now: int)
      returns (request: Result<InputRequest>)
      requires Valid()
      modifies this
      ensures Valid()
      ensures var r := I.Resolve(old(View()), callId, id, response, now);
              && View() == (if r.Ok? then r.value.0 else old(View()))
              && request == if r.Ok? then Ok(r.value.1) else Err(r.error)
    {
      if id !in inputRequests {
        return Err(InputRequestNotFound);
      }
      var resolved := inputRequests[id].(status := Resolved, response := Some(response), resolvedAt := Some(now));
      var row := SettlePending(callId, id, resolved);
      if row.Some? {
        return Ok(row.value);
      }
      return if inputRequests[id].callId != callId then Err(InputRequestNotFound) else Ok(inputRequests[id]);
    }

    method ExpireInputRequest(callId: string, id: string, now: int) returns (request: Result<InputRequest>)
      requires Valid()
      modifies this
      ensures Valid()
      ensures var r := I.Expire(old(View()), callId, id, now);
              && View() == (if r.Ok? then r.value.0 else old(View()))
              && request == if r.Ok? then Ok(r.value.1) else Err(r.error)
    {
      if id !in inputRequests {
        return Err(InputRequestNotFound);
      }
      var expired := inputRequests[id].(status := Expired, resolvedAt := Some(now));
      var row := SettlePending(callId, id, expired);
      if row.Some? {
        return Ok(row.value);
      }
      return if inputRequests[id].callId != callId then Err(InputRequestNotFound) else Ok(inputRequests[id]);
    }
  }
}
