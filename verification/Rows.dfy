/** One call as the repository stores it, and the two implementations of `update_call`:
    storage/memory.py and storage/postgres.py. */
module Rows {
  import opened Base
  import opened Models

  /** The call record with its event log and its transcript table. */
  datatype Row = Row(call: CallRecord, events: seq<Event>, transcript: seq<Turn>)

  /** The keyword arguments of `update_call`. */
  datatype Update = Update(
    status: Option<Status>,
    phase: Option<Phase>,
    state: Option<CallState>,
    outcome: Option<Outcome>,
    error: Option<CallError>,
    kind: EventType,
    payload: Payload,
    expected: Option<set<Status>>)

  datatype Backend = Memory | Postgres

  function Override<T>(next: Option<T>, current: Option<T>): Option<T> {
    if next.Some? then next else current
  }

  predicate Accepts(call: CallRecord, u: Update) {
    u.expected.Some? ==> call.status in u.expected.value
  }

  /** memory.py: only a given status moves `connected_at`, `ended_at` and clears the phase, and a
      given phase wins over the clearing. */
  function MemoryCall(call: CallRecord, u: Update, now: int): CallRecord {
    var terminal := u.status.Some? && u.status.value.Terminal();
    call.(
      status := u.status.GetOr(call.status),
      phase := if u.phase.Some? then u.phase else if terminal then None else call.phase,
      state := u.state.GetOr(call.state),
      outcome := Override(u.outcome, call.outcome),
      error := Override(u.error, call.error),
      updatedAt := now,
      connectedAt := if u.status == Some(Connected) && call.connectedAt.None? then Some(now) else call.connectedAt,
      endedAt := if terminal then Some(now) else call.endedAt)
  }

  /** postgres.py: the resulting status decides, whether or not it was given. */
  function PostgresCall(call: CallRecord, u: Update, now: int): CallRecord {
    var next := u.status.GetOr(call.status);
    call.(
      status := next,
      phase := if next.Terminal() then None else Override(u.phase, call.phase),
      state := u.state.GetOr(call.state),
      outcome := Override(u.outcome, call.outcome),
      error := Override(u.error, call.error),
      updatedAt := now,
      connectedAt := if next.Connected? && call.connectedAt.None? then Some(now) else call.connectedAt,
      endedAt := if next.Terminal() then Some(now) else call.endedAt)
  }

  /** `COALESCE(MAX(sequence), 0)` over an event log. */
  function MaxEvent(events: seq<Event>): nat {
    if events == [] then 0
    else
      var rest := MaxEvent(events[..|events| - 1]);
      var last := events[|events| - 1].sequence;
      if last > rest then last else rest
  }

  function MaxTurn(turns: seq<Turn>): nat {
    if turns == [] then 0
    else
      var rest := MaxTurn(turns[..|turns| - 1]);
      var last := turns[|turns| - 1].sequence;
      if last > rest then last else rest
  }

  /** The sequence number the next event or turn receives: the list length in memory, the stored
      maximum in Postgres. */
  function NextEvent(backend: Backend, events: seq<Event>): nat {
    if backend.Memory? then |events| + 1 else MaxEvent(events) + 1
  }

  function NextTurn(backend: Backend, turns: seq<Turn>): nat {
    if backend.Memory? then |turns| + 1 else MaxTurn(turns) + 1
  }

  function UpdateRow(backend: Backend, row: Row, u: Update, now: int): Result<Row> {
    if !Accepts(row.call, u) then Err(InvalidStateTransition)
    else
      var call := if backend.Memory? then MemoryCall(row.call, u, now) else PostgresCall(row.call, u, now);
      Ok(Row(call, row.events + [Event(NextEvent(backend, row.events), u.kind, u.payload, now)], row.transcript))
  }

  /** The table, the last remote utterance and the event log move together. */
  function WithTurn(
    backend: Backend, row: Row, role: Role, transcript: string, interrupted: bool, last: Option<string>, now: int): (r: Row)
    ensures r.transcript != []
  {
    var turn := Turn(NextTurn(backend, row.transcript), role, transcript, interrupted, now);
    var event := Event(
      NextEvent(backend, row.events), TranscriptFinal(role), Payload(Some(transcript), Some(interrupted), map[]), now);
    var call :=
      if last.Some? then row.call.(state := row.call.state.(lastRemote := last), updatedAt := now) else row.call;
    Row(call, row.events + [event], row.transcript + [turn])
  }

  lemma WithTurnIs(
    backend: Backend, row: Row, role: Role, transcript: string, interrupted: bool, last: Option<string>, now: int)
    ensures WithTurn(backend, row, role, transcript, interrupted, last, now) ==
            Row(if last.Some? then row.call.(state := row.call.state.(lastRemote := last), updatedAt := now) else row.call,
                row.events + [Event(NextEvent(backend, row.events), TranscriptFinal(role),
                                    Payload(Some(transcript), Some(interrupted), map[]), now)],
                row.transcript + [Turn(NextTurn(backend, row.transcript), role, transcript, interrupted, now)])
  {
  }

  /** `append_transcript_turn` */
  function AppendTurn(
    backend: Backend, row: Row, role: Role, text: string, interrupted: bool, last: Option<string>, now: int): Result<Row>
  {
    if Strip(text) == [] then Err(EmptyTranscript)
    else Ok(WithTurn(backend, row, role, Strip(text), interrupted, last, now))
  }

  /** What a successful `update_call` means to its callers, in either repository. */
  lemma UpdateEffect(backend: Backend, row: Row, u: Update, now: int)
    ensures UpdateRow(backend, row, u, now).Ok? <==> Accepts(row.call, u)
    ensures UpdateRow(backend, row, u, now).Ok? ==>
              var after := UpdateRow(backend, row, u, now).value.call;
              && after.status == u.status.GetOr(row.call.status)
              && after.state == u.state.GetOr(row.call.state)
              && after.outcome == Override(u.outcome, row.call.outcome)
  {
  }
}
