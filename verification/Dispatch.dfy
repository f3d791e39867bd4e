/** The dispatcher of calls/service.py among creates, cancels, inbound arrivals and worker steps:
    how many calls are under way, and how often one is dialled. */
module Dispatch {
  import opened Base
  import opened Models
  import opened Rows
  import opened CallSites
  import opened CallStore

  /** What `dispatcher.dispatch` reports. A failing dispatch may still have started an agent. */
  datatype Handover = Accepted(room: string, dispatchId: string) | Refused(message: string, reached: bool)

  /** Where `dispatch_queued` is, from one await to the next; anything but `Idle` holds the lock. */
  datatype Pass =
    | Idle
    | Counted(capacity: nat)
    | Looping(todo: seq<CallRecord>)
    | Handing(call: CallRecord, result: Handover, todo: seq<CallRecord>)

  /** `handed` logs every call passed to the dispatcher; `reached` are those whose agent may run.
      `losses` logs the calls whose dispatch result could not be written for a reason of the database,
      `lost` are those whose latest handover ended so. */
  datatype Server = Server(
    store: Store,
    pass: Pass,
    handed: seq<string>,
    reached: set<string>,
    losses: seq<string>,
    lost: set<string>)

  datatype Action =
    | Create(call: CallRecord)
    | BeginPass
    | ListPass
    | Hand(result: Handover)
    | RecordResult(now: int, raises: bool)
    | LoseResult
    | EndPass
    | Write(id: string, site: Site, now: int)
    | Hear(id: string, role: Role, text: string, interrupted: bool, last: Option<string>, now: int)

  /** A new call: CREATED and not dispatched. */
  predicate NewCall(call: CallRecord) {
    call.status.Created? && call.state.dispatchId.None?
  }

  /** Who may make a write. Outside the dispatch pass: create_call moves an outbound call to
      VALIDATING and QUEUED, an inbound one is connected on creation, and only an agent that was
      reached moves a call to PREWARMING. */
  predicate MayWrite(s: Server, id: string, site: Site) {
    Guarded(site) &&
    match site
    case Move(_, target, _, _) =>
      target in {Validating, Queued} && (id in s.store.rows ==> s.store.rows[id].call.direction.Outbound?)
    case InboundConnect => id in s.store.rows ==> s.store.rows[id].call.direction.Inbound?
    case RecordDispatch(_) => false
    case DispatchFailed(_) => false
    case Prewarm => id in s.reached
    case _ => true
  }

  predicate Enabled(s: Server, a: Action) {
    match a
    case Create(call) => call.id !in s.store.rows && NewCall(call)
    case BeginPass => s.pass.Idle?
    case ListPass => s.pass.Counted?
    case Hand(_) => s.pass.Looping? && s.pass.todo != []
    case RecordResult(_, _) => s.pass.Handing?
    case LoseResult => s.pass.Handing?
    case EndPass => s.pass.Looping? && s.pass.todo == []
    case Write(id, site, _) => MayWrite(s, id, site)
    case Hear(_, _, _, _, _, _) => true
  }

  /** The write that records the result of a handover. */
  function ResultSite(call: CallRecord, result: Handover): Site {
    match result
    case Accepted(room, dispatchId) =>
      RecordDispatch(call.state.(roomName := Some(room), dispatchId := Some(dispatchId)))
    case Refused(message, _) => DispatchFailed(message)
  }

  function Next(backend: Backend, s: Server, a: Action, maxConcurrent: nat): Server
    requires Wellformed(s.store) && Enabled(s, a)
  {
    match a
    case Create(call) => s.(store := CreateCall(s.store, call).0)
    case BeginPass =>
      var active := CountDispatched(s.store);
      s.(pass := if maxConcurrent <= active then Idle else Counted(maxConcurrent - active))
    case ListPass => s.(pass := Looping(ListQueued(s.store, s.pass.capacity)))
    case Hand(result) =>
      var call := s.pass.todo[0];
      s.(pass := Handing(call, result, s.pass.todo[1..]),
         handed := s.handed + [call.id],
         reached := if result.Accepted? || result.reached then s.reached + {call.id} else s.reached,
         lost := s.lost - {call.id})
    case RecordResult(now, raises) =>
      var r := UpdateCall(backend, s.store, s.pass.call.id, UpdateOf(ResultSite(s.pass.call, s.pass.result)), now);
      // a call that left QUEUED meanwhile makes the write raise, and so may the database after it has
      // written; either ends the pass
      if r.Err? then s.(pass := Idle)
      else s.(store := r.value, pass := if raises then Idle else Looping(s.pass.todo))
    case LoseResult =>
      s.(pass := Idle, losses := s.losses + [s.pass.call.id], lost := s.lost + {s.pass.call.id})
    case EndPass => s.(pass := Idle)
    case Write(id, site, now) =>
      var r := UpdateCall(backend, s.store, id, UpdateOf(site), now);
      if r.Err? then s else s.(store := r.value)
    case Hear(id, role, text, interrupted, last, now) =>
      if id !in s.store.rows then s
      else
        var r := AppendTurn(backend, s.store.rows[id], role, text, interrupted, last, now);
        if r.Err? then s else s.(store := s.store.(rows := s.store.rows[id := r.value]))
  }

  predicate Initial(s: Server) {
    s == Server(Store(map[], [], map[]), Idle, [], {}, [], {})
  }

  // ---- What every run keeps ----

  /** Calls that were handed over, have not ended, and whose result is not lost. */
  function Live(s: Server): set<string> {
    set id | id in s.store.rows && id in s.handed && id !in s.lost && !s.store.rows[id].call.status.Terminal()
  }

  function Planned(pass: Pass): nat {
    match pass
    case Idle => 0
    case Counted(capacity) => capacity
    case Looping(todo) => |todo|
    case Handing(_, _, todo) => |todo|
  }

  function Todo(pass: Pass): seq<CallRecord> {
    match pass
    case Looping(todo) => todo
    case Handing(_, _, todo) => todo
    case _ => []
  }

  predicate Early(call: CallRecord) {
    call.status.Created? || call.status.Validating?
  }

  predicate BeingHanded(pass: Pass, id: string) {
    pass.Handing? && pass.call.id == id
  }

  /** How a call relates to the handovers. */
  ghost predicate CallOk(s: Server, id: string)
    requires id in s.store.rows
  {
    var call := s.store.rows[id].call;
    && (call.direction.Outbound? && Occupying(call) ==> id in s.handed)
    && (Early(call) ==> id !in s.handed && call.state.dispatchId.None?)
    && (id in s.handed && id !in s.lost && !call.status.Terminal() ==> Occupying(call) || BeingHanded(s.pass, id))
  }

  ghost predicate PassOk(s: Server) {
    && (forall id <- s.handed :: id in s.store.rows)
    && (forall id <- s.reached :: id in s.handed)
    && (forall id <- s.lost :: id in s.handed)
    && DistinctIds(Todo(s.pass))
    && (forall c <- Todo(s.pass) ::
          c.id in s.store.rows && (c.id in s.handed ==> c.id in s.lost) && !Early(s.store.rows[c.id].call))
    && (s.pass.Handing? ==>
          s.pass.call.id in s.handed && s.pass.call.id !in s.lost && forall c <- s.pass.todo :: c.id != s.pass.call.id)
  }

  ghost predicate Bounded(s: Server, maxConcurrent: nat) {
    |Live(s)| + Planned(s.pass) <= maxConcurrent
  }

  ghost predicate Orderly(s: Server, maxConcurrent: nat) {
    Wellformed(s.store) && PassOk(s) && Bounded(s, maxConcurrent) && forall id <- s.store.rows :: CallOk(s, id)
  }

  // ---- One row ----

  /** What an ordinary write can do to the standing of a call. */
  lemma WriteStanding(backend: Backend, s: Server, id: string, site: Site, now: int)
    requires id in s.store.rows && MayWrite(s, id, site)
    requires UpdateRow(backend, s.store.rows[id], UpdateOf(site), now).Ok?
    ensures var a := s.store.rows[id].call;
            var b := UpdateRow(backend, s.store.rows[id], UpdateOf(site), now).value.call;
            && b.id == a.id && b.direction == a.direction
            && b.principal == a.principal && b.clientRequestId == a.clientRequestId
            && (a.status.Terminal() ==> b.status.Terminal())
            && (Early(b) ==> Early(a) && b.state.dispatchId == a.state.dispatchId)
            && (Occupying(b) && b.direction.Outbound? ==>
                  Occupying(a) || site.Prewarm? || (Early(a) && a.state.dispatchId.Some?))
            && (Occupying(a) ==> Occupying(b) || b.status.Terminal())
  {
    UpdateEffect(backend, s.store.rows[id], UpdateOf(site), now);
  }

  lemma HearStanding(backend: Backend, row: Row, role: Role, text: string, interrupted: bool, last: Option<string>, now: int)
    requires AppendTurn(backend, row, role, text, interrupted, last, now).Ok?
    ensures var a, b := row.call, AppendTurn(backend, row, role, text, interrupted, last, now).value.call;
            && b.id == a.id && b.direction == a.direction && b.status == a.status
            && b.principal == a.principal && b.clientRequestId == a.clientRequestId
            && b.state.dispatchId == a.state.dispatchId
  {
  }

  // ---- The steps ----

  /** Replacing one row by one of the same standing or an ended one. */
  lemma ReplaceKeeps(s: Server, id: string, row: Row, maxConcurrent: nat)
    requires Orderly(s, maxConcurrent) && id in s.store.rows
    requires var a, b := s.store.rows[id].call, row.call;
             && b.id == a.id && b.direction == a.direction
             && (a.status.Terminal() ==> b.status.Terminal())
             && (Early(b) ==> Early(a) && b.state.dispatchId == a.state.dispatchId)
             && (Occupying(b) && b.direction.Outbound? ==>
                   Occupying(a) || id in s.handed || (Early(a) && a.state.dispatchId.Some?))
             && (Occupying(a) ==> Occupying(b) || b.status.Terminal())
    ensures Orderly(s.(store := s.store.(rows := s.store.rows[id := row])), maxConcurrent)
  {
    hide Occupying;
    var t := s.(store := s.store.(rows := s.store.rows[id := row]));
    assert Live(t) <= Live(s);
    SubsetSize(Live(t), Live(s));
    assert CallOk(s, id);
    forall x <- t.store.rows ensures CallOk(t, x) {
      assert x != id ==> CallOk(s, x);
    }
  }

  lemma {:induction false} SubsetSize<T>(a: set<T>, b: set<T>)
    requires a <= b
    ensures |a| <= |b|
    decreases |a|
  {
    if a != {} {
      var x :| x in a;
      SubsetSize(a - {x}, b - {x});
    }
  }

  lemma CreateKeeps(s: Server, call: CallRecord, maxConcurrent: nat)
    requires Orderly(s, maxConcurrent) && call.id !in s.store.rows && NewCall(call)
    ensures Orderly(s.(store := CreateCall(s.store, call).0), maxConcurrent)
  {
    var t := s.(store := CreateCall(s.store, call).0);
    if t.store != s.store {
      assert t.store.order == s.store.order + [call.id];
      assert Live(t) == Live(s);
      forall x <- t.store.rows ensures CallOk(t, x) {
        assert x != call.id ==> CallOk(s, x);
      }
    }
  }

  lemma BeginKeeps(backend: Backend, s: Server, maxConcurrent: nat)
    requires Orderly(s, maxConcurrent) && s.pass.Idle?
    ensures Orderly(Next(backend, s, BeginPass, maxConcurrent), maxConcurrent)
  {
    var t := Next(backend, s, BeginPass, maxConcurrent);
    forall id | id in Live(s) ensures id in Occupants(s.store.rows) {
      assert CallOk(s, id);
    }
    SubsetSize(Live(s), Occupants(s.store.rows));
    assert Live(t) == Live(s);
    forall x <- t.store.rows ensures CallOk(t, x) {
      assert CallOk(s, x);
    }
  }

  lemma TakenAreWaiting(store: Store, limit: nat)
    requires Wellformed(store)
    ensures var taken := ListQueued(store, limit);
            && |taken| <= limit && DistinctIds(taken)
            && (forall c <- taken :: c.id in store.rows && Waiting(store.rows[c.id].call))
  {
    hide WaitingLine;
    ListQueuedTakesOldest(store, limit);
  }

  lemma ListKeeps(backend: Backend, s: Server, maxConcurrent: nat)
    requires Orderly(s, maxConcurrent) && s.pass.Counted?
    ensures Orderly(Next(backend, s, ListPass, maxConcurrent), maxConcurrent)
  {
    hide ListQueued, Wellformed;
    var t := Next(backend, s, ListPass, maxConcurrent);
    TakenAreWaiting(s.store, s.pass.capacity);
    forall c <- t.pass.todo
      ensures c.id in t.store.rows && (c.id in t.handed ==> c.id in t.lost) && !Early(t.store.rows[c.id].call)
    {
      assert CallOk(s, c.id);
    }
    assert Live(t) == Live(s);
    forall x <- t.store.rows ensures CallOk(t, x) {
      assert CallOk(s, x);
    }
  }

  /** One more live call, one less planned. */
  lemma HandBounded(s: Server, t: Server, id: string, maxConcurrent: nat)
    requires Bounded(s, maxConcurrent) && t.handed == s.handed + [id] && t.store == s.store
    requires t.lost == s.lost - {id} && Planned(s.pass) == Planned(t.pass) + 1
    ensures Bounded(t, maxConcurrent)
  {
    assert Live(t) <= Live(s) + {id};
    SubsetSize(Live(t), Live(s) + {id});
  }

  lemma HandPassOk(s: Server, t: Server, result: Handover)
    requires PassOk(s) && s.pass.Looping? && s.pass.todo != []
    requires t.store == s.store && t.handed == s.handed + [s.pass.todo[0].id]
    requires t.pass == Handing(s.pass.todo[0], result, s.pass.todo[1..]) && t.lost == s.lost - {s.pass.todo[0].id}
    requires t.reached == s.reached || t.reached == s.reached + {s.pass.todo[0].id}
    ensures PassOk(t)
  {
    var todo := s.pass.todo;
    assert todo[0] in todo;
    forall c <- todo[1..] ensures c in todo && c.id != todo[0].id {
      var i :| 0 <= i < |todo[1..]| && todo[1..][i] == c;
      assert todo[i + 1] == c;
    }
  }

  lemma HandKeeps(backend: Backend, s: Server, result: Handover, maxConcurrent: nat)
    requires Orderly(s, maxConcurrent) && s.pass.Looping? && s.pass.todo != []
    ensures Orderly(Next(backend, s, Hand(result), maxConcurrent), maxConcurrent)
  {
    hide Wellformed, Occupying;
    var t := Next(backend, s, Hand(result), maxConcurrent);
    assert s.pass.todo[0] in s.pass.todo;
    HandPassOk(s, t, result);
    HandBounded(s, t, s.pass.todo[0].id, maxConcurrent);
    forall x <- t.store.rows ensures CallOk(t, x) {
      assert CallOk(s, x);
    }
    hide PassOk, Bounded;
  }

  /** The pass goes on or ends once the call just handed over is accounted for. */
  lemma LeaveHanding(s: Server, pass: Pass, maxConcurrent: nat)
    requires Orderly(s, maxConcurrent) && s.pass.Handing?
    requires pass.Idle? || pass == Looping(s.pass.todo)
    requires s.pass.call.id in s.store.rows
    requires var call := s.store.rows[s.pass.call.id].call; call.status.Terminal() || Occupying(call)
    ensures Orderly(s.(pass := pass), maxConcurrent)
  {
    hide Wellformed, Occupying;
    assert Live(s.(pass := pass)) == Live(s);
    forall x <- s.store.rows ensures CallOk(s.(pass := pass), x) {
      assert CallOk(s, x);
    }
  }

  lemma RecordKeeps(backend: Backend, s: Server, now: int, raises: bool, maxConcurrent: nat)
    requires Orderly(s, maxConcurrent) && s.pass.Handing?
    ensures Orderly(Next(backend, s, RecordResult(now, raises), maxConcurrent), maxConcurrent)
  {
    hide Wellformed;
    var id := s.pass.call.id;
    var site := ResultSite(s.pass.call, s.pass.result);
    var row := s.store.rows[id];
    UpdateEffect(backend, row, UpdateOf(site), now);
    assert CallOk(s, id);
    if UpdateRow(backend, row, UpdateOf(site), now).Ok? {
      var after := UpdateRow(backend, row, UpdateOf(site), now).value;
      RecordStanding(backend, row, s.pass.call, s.pass.result, now);
      hide UpdateRow, UpdateOf, Orderly;
      OrderlyHanded(s, maxConcurrent);
      ReplaceKeeps(s, id, after, maxConcurrent);
      LeaveHanding(s.(store := s.store.(rows := s.store.rows[id := after])),
                   if raises then Idle else Looping(s.pass.todo), maxConcurrent);
    } else {
      LeaveHanding(s, Idle, maxConcurrent);
    }
  }

  /** The bookkeeping of a lost result: the call counts as live no longer. */
  lemma LoseKeeps(backend: Backend, s: Server, maxConcurrent: nat)
    requires Orderly(s, maxConcurrent) && s.pass.Handing?
    ensures Orderly(Next(backend, s, LoseResult, maxConcurrent), maxConcurrent)
  {
    hide Wellformed, Occupying;
    var t := Next(backend, s, LoseResult, maxConcurrent);
    assert Live(t) <= Live(s);
    SubsetSize(Live(t), Live(s));
    forall x <- t.store.rows ensures CallOk(t, x) {
      assert CallOk(s, x);
    }
  }

  lemma OrderlyHanded(s: Server, maxConcurrent: nat)
    requires Orderly(s, maxConcurrent) && s.pass.Handing?
    ensures s.pass.call.id in s.handed && s.pass.call.id in s.store.rows
  {
  }

  lemma RecordStanding(backend: Backend, row: Row, call: CallRecord, result: Handover, now: int)
    requires UpdateRow(backend, row, UpdateOf(ResultSite(call, result)), now).Ok?
    ensures var a, b := row.call, UpdateRow(backend, row, UpdateOf(ResultSite(call, result)), now).value.call;
            && b.id == a.id && b.direction == a.direction && a.status.Queued?
            && b.principal == a.principal && b.clientRequestId == a.clientRequestId
            && (b.status.Terminal() || Occupying(b)) && !Early(b)
  {
    UpdateEffect(backend, row, UpdateOf(ResultSite(call, result)), now);
  }
}
