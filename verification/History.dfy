/** The event log, the transcript table, and migration 003, which derives the second from the first. */
module History {
  import opened Base
  import opened Models
  import opened Rows
  import opened CallSites
  import opened Lifecycle
  import opened Sorting

  /** A freshly created call has one event and no transcript. */
  predicate Fresh(row: Row) {
    row.events == [Event(1, Named("call.created"), NO_PAYLOAD, row.call.createdAt)] && row.transcript == []
  }

  // ---- What the log and the table promise ----

  ghost predicate Gapless(events: seq<Event>) {
    forall i :: 0 <= i < |events| ==> events[i].sequence == i + 1
  }

  /** The events the back-fill selects: transcript events with a non-empty text. */
  predicate Selected(e: Event) {
    e.kind.TranscriptFinal? && e.payload.transcript.Some? && e.payload.transcript.value != []
  }

  function TurnOf(e: Event, number: nat): Turn
    requires Selected(e)
  {
    Turn(number, e.kind.role, e.payload.transcript.value, e.payload.interrupted.GetOr(false), e.createdAt)
  }

  /** The ordered projection of the log onto its transcript events, numbered 1, 2, ... */
  function TurnsOf(events: seq<Event>): (turns: seq<Turn>)
    ensures |turns| <= |events|
    ensures forall i :: 0 <= i < |turns| ==> turns[i].sequence == i + 1
  {
    if events == [] then []
    else
      var before := TurnsOf(events[..|events| - 1]);
      var e := events[|events| - 1];
      if Selected(e) then before + [TurnOf(e, |before| + 1)] else before
  }

  /** One turn for each event of the two transcript types whose text is there and not empty, in order;
      a missing interruption flag counts as false. */
  lemma {:induction false} ProjectionIs(events: seq<Event>, selects: Event -> bool)
    requires forall e :: selects(e) <==>
               e.kind in {TranscriptFinal(User), TranscriptFinal(Assistant)} && e.payload.transcript !in {None, Some("")}
    ensures var turns, selected := TurnsOf(events), Filter(events, selects);
            && |turns| == |selected|
            && forall i :: 0 <= i < |turns| ==>
                 var e := selected[i];
                 && e in selected
                 && turns[i] == Turn(i + 1, e.kind.role, e.payload.transcript.value,
                                     e.payload.interrupted == Some(true), e.createdAt)
    decreases |events|
  {
    if events != [] {
      var e := events[|events| - 1];
      ProjectionIs(events[..|events| - 1], selects);
      assert e.kind.TranscriptFinal? ==> e.kind.role.User? || e.kind.role.Assistant?;
    }
  }

  ghost predicate Consistent(row: Row) {
    Gapless(row.events) && row.transcript == TurnsOf(row.events)
  }

  // ---- Both repositories number the same way on a consistent row ----

  lemma {:induction false} MaxOfGapless(events: seq<Event>)
    requires Gapless(events)
    ensures MaxEvent(events) == |events|
  {
    if events != [] {
      MaxOfGapless(events[..|events| - 1]);
    }
  }

  lemma {:induction false} MaxOfTurns(turns: seq<Turn>)
    requires forall i :: 0 <= i < |turns| ==> turns[i].sequence == i + 1
    ensures MaxTurn(turns) == |turns|
  {
    if turns != [] {
      MaxOfTurns(turns[..|turns| - 1]);
    }
  }

  lemma TurnsOfAppend(events: seq<Event>, e: Event)
    ensures TurnsOf(events + [e]) ==
            if Selected(e) then TurnsOf(events) + [TurnOf(e, |TurnsOf(events)| + 1)] else TurnsOf(events)
  {
    assert (events + [e])[..|events|] == events;
  }

  /** A call of `update_call` logs one event, numbered next, and no transcript turn. */
  lemma SiteAppendsOneEvent(backend: Backend, row: Row, site: Site, now: int)
    requires ApplySite(backend, row, site, now).Ok?
    ensures var next := ApplySite(backend, row, site, now).value;
            && next.transcript == row.transcript
            && |next.events| == |row.events| + 1 && next.events[..|row.events|] == row.events
            && next.events[|row.events|] ==
               Event(NextEvent(backend, row.events), UpdateOf(site).kind, UpdateOf(site).payload, now)
            && UpdateOf(site).kind.Named?
  {
  }

  lemma ActKeepsConsistent(backend: Backend, row: Row, a: RowAction)
    requires Consistent(row)
    ensures Consistent(Act(backend, row, a))
    ensures row.events <= Act(backend, row, a).events
    ensures row.transcript <= Act(backend, row, a).transcript
  {
    MaxOfGapless(row.events);
    MaxOfTurns(row.transcript);
    if a.Write? {
      if ApplySite(backend, row, a.site, a.now).Ok? {
        SiteAppendsOneEvent(backend, row, a.site, a.now);
        var next := Act(backend, row, a).events;
        TurnsOfAppend(row.events, next[|row.events|]);
        assert next == row.events + [next[|row.events|]];
      }
    } else {
      SpeakKeepsConsistent(backend, row, a);
    }
  }

  /** A transcript turn is logged and tabled with the same role, text and interruption flag. */
  lemma SpeechAppendsBoth(
    backend: Backend, row: Row, role: Role, text: string, interrupted: bool, last: Option<string>, now: int)
    requires AppendTurn(backend, row, role, text, interrupted, last, now).Ok?
    ensures var next := AppendTurn(backend, row, role, text, interrupted, last, now).value;
            && next.transcript ==
               row.transcript + [Turn(NextTurn(backend, row.transcript), role, Strip(text), interrupted, now)]
            && next.events ==
               row.events + [Event(NextEvent(backend, row.events), TranscriptFinal(role),
                                   Payload(Some(Strip(text)), Some(interrupted), map[]), now)]
            && Strip(text) != []
  {
  }

  lemma SpeakKeepsConsistent(backend: Backend, row: Row, a: RowAction)
    requires Consistent(row) && a.Speak?
    ensures Consistent(Act(backend, row, a))
    ensures row.events <= Act(backend, row, a).events
    ensures row.transcript <= Act(backend, row, a).transcript
  {
    hide AppendTurn, Strip, TurnsOf, MaxEvent, MaxTurn;
    var r := AppendTurn(backend, row, a.role, a.text, a.interrupted, a.last, a.now);
    if r.Ok? {
      SpeechAppendsBoth(backend, row, a.role, a.text, a.interrupted, a.last, a.now);
      MaxOfGapless(row.events);
      MaxOfTurns(row.transcript);
      var next := r.value.events;
      TurnsOfAppend(row.events, next[|row.events|]);
    }
  }

  /** In every reachable row the events are numbered 1..n without a gap and the transcript table is
      exactly the ordered projection of the transcript events. */
  lemma {:induction false} ReachableIsConsistent(backend: Backend, row: Row, run: seq<RowAction>)
    requires Consistent(row)
    ensures forall r <- Trace(backend, row, run) :: Consistent(r)
    decreases |run|
  {
    if run != [] {
      ActKeepsConsistent(backend, row, run[0]);
      ReachableIsConsistent(backend, Act(backend, row, run[0]), run[1..]);
    }
  }

  // ---- The transcript is what was said ----

  predicate Says(a: RowAction) {
    a.Speak? && Strip(a.text) != []
  }

  /** The turns of a run that have any text, in order. */
  function Spoken(run: seq<RowAction>): seq<RowAction> {
    if run == [] then [] else (if Says(run[0]) then [run[0]] else []) + Spoken(run[1..])
  }

  /** This turn of the table, and its event in the log, record that action. */
  predicate RecordsTurn(turn: Turn, a: RowAction) {
    a.Speak? && turn.role == a.role && turn.text == Strip(a.text) && turn.interrupted == a.interrupted
    && turn.createdAt == a.now
  }

  lemma ActRecordsTurn(backend: Backend, row: Row, a: RowAction)
    ensures var next := Act(backend, row, a).transcript;
            if !Says(a) then next == row.transcript
            else |next| == |row.transcript| + 1 && row.transcript <= next && RecordsTurn(next[|row.transcript|], a)
  {
    hide Strip, MaxTurn, MaxEvent;
    if a.Speak? {
      var r := AppendTurn(backend, row, a.role, a.text, a.interrupted, a.last, a.now);
      if r.Ok? {
        SpeechAppendsBoth(backend, row, a.role, a.text, a.interrupted, a.last, a.now);
      }
      hide WithTurn;
    }
  }

  /** The turns after `before` record these actions, one by one. */
  ghost predicate Grows(before: seq<Turn>, after: seq<Turn>, said: seq<RowAction>) {
    && before <= after && |after| == |before| + |said|
    && forall i :: 0 <= i < |said| ==> RecordsTurn(after[|before| + i], said[i])
  }

  lemma GrowsByOne(before: seq<Turn>, m: seq<Turn>, after: seq<Turn>, a: RowAction, rest: seq<RowAction>)
    requires before <= m && |m| == |before| + 1 && RecordsTurn(m[|before|], a) && Grows(m, after, rest)
    ensures Grows(before, after, [a] + rest)
  {
    hide RecordsTurn;
    var said := [a] + rest;
    forall i | 0 <= i < |said| ensures RecordsTurn(after[|before| + i], said[i]) {
      if i == 0 {
        assert after[|before|] == m[|before|];
      } else {
        assert said[i] == rest[i - 1] && after[|before| + i] == after[|m| + (i - 1)];
      }
    }
  }

  /** Over every run the transcript grows by exactly the turns that were said, in order, each with its
      role, stripped text, interruption flag and time. */
  lemma {:induction false} TranscriptIsWhatWasSaid(backend: Backend, row: Row, run: seq<RowAction>)
    ensures Grows(row.transcript, Trace(backend, row, run)[|run|].transcript, Spoken(run))
    decreases |run|
  {
    hide RecordsTurn, Act, Says;
    if run != [] {
      var a, next := run[0], Act(backend, row, run[0]);
      ActRecordsTurn(backend, row, a);
      TraceUnfolds(backend, row, run);
      hide Trace, Grows;
      TranscriptIsWhatWasSaid(backend, next, run[1..]);
      if Says(a) {
        GrowsByOne(row.transcript, next.transcript, Trace(backend, row, run)[|run|].transcript, a, Spoken(run[1..]));
      } else {
        assert Spoken(run) == [] + Spoken(run[1..]) == Spoken(run[1..]);
      }
    }
  }

  // ---- Migration 003 ----

  /** How many selected events have a smaller sequence number: `ROW_NUMBER() - 1`. */
  function SelectedBelow(events: seq<Event>, sequence: nat): nat {
    if events == [] then 0
    else
      var e := events[|events| - 1];
      SelectedBelow(events[..|events| - 1], sequence) + if Selected(e) && e.sequence < sequence then 1 else 0
  }

  /** The query: each selected event of `source` becomes a row, numbered by its rank in `events`. */
  function HistoricalTurns(source: seq<Event>, events: seq<Event>): seq<Turn> {
    if source == [] then []
    else
      var e := source[|source| - 1];
      HistoricalTurns(source[..|source| - 1], events)
      + if Selected(e) then [TurnOf(e, SelectedBelow(events, e.sequence) + 1)] else []
  }

  /** `INSERT ... ON CONFLICT (call_id, sequence) DO NOTHING`. */
  function InsertMissing(table: seq<Turn>, rows: seq<Turn>): seq<Turn>
    decreases |rows|
  {
    if rows == [] then table
    else
      var present := exists t <- table :: t.sequence == rows[0].sequence;
      InsertMissing(if present then table else table + [rows[0]], rows[1..])
  }

  function Migrate(row: Row): Row {
    row.(transcript := InsertMissing(row.transcript, HistoricalTurns(row.events, row.events)))
  }

  lemma {:induction false} RankIsPosition(prefix: seq<Event>, events: seq<Event>)
    requires Gapless(events) && prefix <= events
    ensures SelectedBelow(events, |prefix| + 1) == |TurnsOf(prefix)|
    decreases |events|
  {
    if events != [] {
      var front := events[..|events| - 1];
      if prefix == events {
        RankIsPosition(front, front);
        BelowAll(front, |events| + 1);
        BelowAll(front, |front| + 1);
      } else {
        assert prefix <= front;
        RankIsPosition(prefix, front);
      }
    }
  }

  lemma {:induction false} BelowAll(events: seq<Event>, sequence: nat)
    requires Gapless(events) && |events| < sequence
    ensures SelectedBelow(events, sequence) == SelectedBelow(events, |events| + 1)
  {
    if events != [] {
      var front := events[..|events| - 1];
      BelowAll(front, sequence);
      BelowAll(front, |events| + 1);
    }
  }

  /** The query's ROW_NUMBER yields exactly the ordered projection. */
  lemma {:induction false} QueryIsProjection(source: seq<Event>, events: seq<Event>)
    requires Gapless(events) && source <= events
    ensures HistoricalTurns(source, events) == TurnsOf(source)
    decreases |source|
  {
    if source != [] {
      var front := source[..|source| - 1];
      QueryIsProjection(front, events);
      RankIsPosition(front, events);
      assert source[|source| - 1] == events[|front|];
    }
  }

  /** Inserting numbered rows 1..n into a table that holds the first k of them adds the others. */
  lemma {:induction false} InsertCompletes(table: seq<Turn>, rows: seq<Turn>, done: nat)
    requires done <= |rows| && done <= |table| <= |rows|
    requires forall i :: 0 <= i < |rows| ==> rows[i].sequence == i + 1
    requires table <= rows
    ensures InsertMissing(table, rows[done..]) == rows
    decreases |rows| - done
  {
    if done < |rows| {
      var next := rows[done..][0];
      assert rows[done..][1..] == rows[done + 1..];
      if done < |table| {
        assert table[done] == next && table[done] in table;
        InsertCompletes(table, rows, done + 1);
      } else {
        assert !exists t <- table :: t.sequence == next.sequence;
        assert table + [next] <= rows;
        InsertCompletes(table + [next], rows, done + 1);
      }
    } else {
      assert table == rows;
    }
  }

  /** From any table that holds the first turns of the log (the empty one before the first
      migration included) the back-fill restores the whole projection. */
  lemma MigrationCompletes(row: Row)
    requires Gapless(row.events) && row.transcript <= TurnsOf(row.events)
    ensures Consistent(Migrate(row))
    ensures row.transcript <= Migrate(row).transcript
    ensures Migrate(Migrate(row)) == Migrate(row)
  {
    QueryIsProjection(row.events, row.events);
    var rows := TurnsOf(row.events);
    assert rows[0..] == rows;
    InsertCompletes(row.transcript, rows, 0);
    InsertCompletes(rows, rows, 0);
  }

  /** Re-running the back-fill on any row the system reaches from a new call inserts nothing. */
  lemma MigrationIsIdleOnReachableRows(backend: Backend, row: Row, run: seq<RowAction>)
    requires Fresh(row)
    ensures forall r <- Trace(backend, row, run) :: Migrate(r) == r && Gapless(r.events)
  {
    assert TurnsOf(row.events) == [] by {
      TurnsOfAppend([], row.events[0]);
    }
    ReachableIsConsistent(backend, row, run);
    forall r <- Trace(backend, row, run) ensures Migrate(r) == r && Gapless(r.events) {
      QueryIsProjection(r.events, r.events);
      assert TurnsOf(r.events)[0..] == TurnsOf(r.events);
      InsertCompletes(r.transcript, TurnsOf(r.events), 0);
    }
  }
}
