/** Dispatch over every run. */
module DispatchRuns {
  import opened Base
  import opened Models
  import opened Rows
  import opened CallSites
  import opened CallStore
  import opened Dispatch

  lemma WriteIs(backend: Backend, s: Server, id: string, site: Site, now: int, maxConcurrent: nat)
    requires Wellformed(s.store) && MayWrite(s, id, site)
    ensures Next(backend, s, Write(id, site, now), maxConcurrent) ==
            if id in s.store.rows && UpdateRow(backend, s.store.rows[id], UpdateOf(site), now).Ok? then
              s.(store := s.store.(rows :=
                   s.store.rows[id := UpdateRow(backend, s.store.rows[id], UpdateOf(site), now).value]))
            else s
  {
    hide UpdateRow, UpdateOf, Wellformed, MayWrite;
  }

  lemma WriteKeeps(backend: Backend, s: Server, id: string, site: Site, now: int, maxConcurrent: nat)
    requires Orderly(s, maxConcurrent) && MayWrite(s, id, site)
    ensures Orderly(Next(backend, s, Write(id, site, now), maxConcurrent), maxConcurrent)
  {
    WriteIs(backend, s, id, site, now, maxConcurrent);
    hide Next;
    if id in s.store.rows && UpdateRow(backend, s.store.rows[id], UpdateOf(site), now).Ok? {
      WriteStanding(backend, s, id, site, now);
      hide UpdateRow, UpdateOf, Occupying, MayWrite, Orderly;
      ReplaceKeeps(s, id, UpdateRow(backend, s.store.rows[id], UpdateOf(site), now).value, maxConcurrent);
    }
  }

  lemma HearKeeps(backend: Backend, s: Server, a: Action, maxConcurrent: nat)
    requires Orderly(s, maxConcurrent) && a.Hear?
    ensures Orderly(Next(backend, s, a, maxConcurrent), maxConcurrent)
  {
    if a.id in s.store.rows {
      var r := AppendTurn(backend, s.store.rows[a.id], a.role, a.text, a.interrupted, a.last, a.now);
      if r.Ok? {
        HearStanding(backend, s.store.rows[a.id], a.role, a.text, a.interrupted, a.last, a.now);
        hide AppendTurn;
        ReplaceKeeps(s, a.id, r.value, maxConcurrent);
      }
    }
  }

  lemma NextKeepsOrderly(backend: Backend, s: Server, a: Action, maxConcurrent: nat)
    requires Orderly(s, maxConcurrent) && Enabled(s, a)
    ensures Orderly(Next(backend, s, a, maxConcurrent), maxConcurrent)
  {
    match a {
      case Create(call) => CreateKeeps(s, call, maxConcurrent);
      case BeginPass => BeginKeeps(backend, s, maxConcurrent);
      case ListPass => ListKeeps(backend, s, maxConcurrent);
      case Hand(result) => HandKeeps(backend, s, result, maxConcurrent);
      case RecordResult(now, raises) => RecordKeeps(backend, s, now, raises, maxConcurrent);
      case Write(id, site, now) => WriteKeeps(backend, s, id, site, now, maxConcurrent);
      case Hear(_, _, _, _, _, _) => HearKeeps(backend, s, a, maxConcurrent);
      case LoseResult => LoseKeeps(backend, s, maxConcurrent);
      case EndPass => EndKeeps(s, maxConcurrent);
    }
  }

  lemma EndKeeps(s: Server, maxConcurrent: nat)
    requires Orderly(s, maxConcurrent) && s.pass.Looping?
    ensures Orderly(s.(pass := Idle), maxConcurrent)
  {
    assert Live(s.(pass := Idle)) == Live(s);
    forall x <- s.store.rows ensures CallOk(s.(pass := Idle), x) {
      assert CallOk(s, x);
    }
  }

  ghost predicate Valid(backend: Backend, s: Server, run: seq<Action>, maxConcurrent: nat)
    decreases |run|
  {
    Wellformed(s.store)
    && (run == []
        || (Enabled(s, run[0]) && Valid(backend, Next(backend, s, run[0], maxConcurrent), run[1..], maxConcurrent)))
  }

  ghost function After(backend: Backend, s: Server, run: seq<Action>, maxConcurrent: nat): Server
    requires Valid(backend, s, run, maxConcurrent)
    decreases |run|
  {
    if run == [] then s else After(backend, Next(backend, s, run[0], maxConcurrent), run[1..], maxConcurrent)
  }

  lemma {:induction false} RunKeepsOrderly(backend: Backend, s: Server, run: seq<Action>, maxConcurrent: nat)
    requires Orderly(s, maxConcurrent) && Valid(backend, s, run, maxConcurrent)
    ensures Orderly(After(backend, s, run, maxConcurrent), maxConcurrent)
    decreases |run|
  {
    if run != [] {
      NextKeepsOrderly(backend, s, run[0], maxConcurrent);
      hide Orderly, Next;
      RunKeepsOrderly(backend, Next(backend, s, run[0], maxConcurrent), run[1..], maxConcurrent);
    }
  }

  /** Outbound calls that are dispatched or past QUEUED and not at an end. */
  ghost function UnderWay(rows: map<string, Row>): set<string> {
    set id | id in rows && rows[id].call.direction.Outbound? && Occupying(rows[id].call)
  }

  lemma AccountedForIsBounded(s: Server, maxConcurrent: nat)
    requires Orderly(s, maxConcurrent)
    ensures |UnderWay(s.store.rows) - s.lost| <= maxConcurrent
    ensures |UnderWay(s.store.rows)| > maxConcurrent ==> UnderWay(s.store.rows) * s.lost != {}
  {
    forall id | id in UnderWay(s.store.rows) - s.lost ensures id in Live(s) {
      assert CallOk(s, id);
    }
    SubsetSize(UnderWay(s.store.rows) - s.lost, Live(s));
    if UnderWay(s.store.rows) * s.lost == {} {
      forall id <- UnderWay(s.store.rows) ensures id !in s.lost {
        assert id !in UnderWay(s.store.rows) * s.lost;
      }
      assert UnderWay(s.store.rows) - s.lost == UnderWay(s.store.rows);
    }
  }

  /** Capacity: whatever is created, cancelled, connected and dispatched in whatever order, whatever
      writes are lost, and even when a worker starts before its dispatch is recorded, the outbound
      calls under way exceed `maxConcurrent` by no more than those whose dispatch result is lost. */
  lemma CapacityRespected(backend: Backend, s: Server, run: seq<Action>, maxConcurrent: nat)
    requires Initial(s) && Valid(backend, s, run, maxConcurrent)
    ensures var t := After(backend, s, run, maxConcurrent);
            && |UnderWay(t.store.rows) - t.lost| <= maxConcurrent
            && (|UnderWay(t.store.rows)| > maxConcurrent ==> UnderWay(t.store.rows) * t.lost != {})
  {
    RunKeepsOrderly(backend, s, run, maxConcurrent);
    hide After, Valid, Orderly;
    AccountedForIsBounded(After(backend, s, run, maxConcurrent), maxConcurrent);
  }

  // ---- One call per request, one dial per call ----

  predicate SameKey(a: CallRecord, b: CallRecord) {
    a.principal == b.principal && a.clientRequestId == b.clientRequestId
  }

  /** Two calls of one principal never have the same request id, but for none and the empty one. */
  ghost predicate OnePerRequest(rows: map<string, Row>) {
    forall a <- rows, b <- rows ::
      rows[a].call.clientRequestId !in {None, Some("")} && SameKey(rows[a].call, rows[b].call) ==> a == b
  }

  lemma SameKeyKeeps(rows: map<string, Row>, id: string, row: Row)
    requires OnePerRequest(rows) && id in rows && SameKey(rows[id].call, row.call)
    ensures OnePerRequest(rows[id := row])
  {
    var next := rows[id := row];
    forall a <- next, b <- next
      | next[a].call.clientRequestId !in {None, Some("")} && SameKey(next[a].call, next[b].call)
      ensures a == b
    {
      assert SameKey(rows[a].call, rows[b].call);
    }
  }

  lemma CreateKeepsOnePerRequest(store: Store, call: CallRecord)
    requires Wellformed(store) && OnePerRequest(store.rows) && call.id !in store.rows
    ensures OnePerRequest(CreateCall(store, call).0.rows)
  {
    var rows, t := store.rows, CreateCall(store, call).0;
    if t != store {
      assert forall id <- rows :: !(HasRequestId(call) && SameKey(call, rows[id].call));
    }
  }

  lemma NextKeepsOnePerRequest(backend: Backend, s: Server, a: Action, maxConcurrent: nat)
    requires Wellformed(s.store) && OnePerRequest(s.store.rows) && Enabled(s, a)
    ensures OnePerRequest(Next(backend, s, a, maxConcurrent).store.rows)
  {
    hide OnePerRequest;
    var rows := s.store.rows;
    if a.Create? {
      CreateKeepsOnePerRequest(s.store, a.call);
    } else if a.RecordResult? && s.pass.call.id in rows {
      var u := UpdateOf(ResultSite(s.pass.call, s.pass.result));
      if UpdateRow(backend, rows[s.pass.call.id], u, a.now).Ok? {
        RecordStanding(backend, rows[s.pass.call.id], s.pass.call, s.pass.result, a.now);
        SameKeyKeeps(rows, s.pass.call.id, UpdateRow(backend, rows[s.pass.call.id], u, a.now).value);
      }
    } else if a.Write? && a.id in rows && UpdateRow(backend, rows[a.id], UpdateOf(a.site), a.now).Ok? {
      WriteStanding(backend, s, a.id, a.site, a.now);
      SameKeyKeeps(rows, a.id, UpdateRow(backend, rows[a.id], UpdateOf(a.site), a.now).value);
    } else if a.Hear? && a.id in rows {
      var r := AppendTurn(backend, rows[a.id], a.role, a.text, a.interrupted, a.last, a.now);
      if r.Ok? {
        HearStanding(backend, rows[a.id], a.role, a.text, a.interrupted, a.last, a.now);
        SameKeyKeeps(rows, a.id, r.value);
      }
    }
  }

  lemma {:induction false} RunKeepsOnePerRequest(backend: Backend, s: Server, run: seq<Action>, maxConcurrent: nat)
    requires OnePerRequest(s.store.rows) && Valid(backend, s, run, maxConcurrent)
    ensures OnePerRequest(After(backend, s, run, maxConcurrent).store.rows)
    decreases |run|
  {
    if run != [] {
      NextKeepsOnePerRequest(backend, s, run[0], maxConcurrent);
      hide Next, OnePerRequest;
      RunKeepsOnePerRequest(backend, Next(backend, s, run[0], maxConcurrent), run[1..], maxConcurrent);
    }
  }

  /** Every handover but the one that lasted was paid for by a lost result. */
  ghost predicate Paid(s: Server) {
    forall id :: multiset(s.handed)[id] == multiset(s.losses)[id] + if id in s.handed && id !in s.lost then 1 else 0
  }

  lemma NextKeepsPaid(backend: Backend, s: Server, a: Action, maxConcurrent: nat)
    requires Orderly(s, maxConcurrent) && Paid(s) && Enabled(s, a)
    ensures Paid(Next(backend, s, a, maxConcurrent))
  {
    hide Wellformed, Bounded, UpdateCall, UpdateOf, AppendTurn;
    var t := Next(backend, s, a, maxConcurrent);
    if a.Hand? {
      var c := s.pass.todo[0];
      assert c in Todo(s.pass);
      assert multiset(t.handed) == multiset(s.handed) + multiset{c.id};
    } else if a.LoseResult? {
      assert multiset(t.losses) == multiset(s.losses) + multiset{s.pass.call.id};
    }
  }

  lemma {:induction false} RunKeepsPaid(backend: Backend, s: Server, run: seq<Action>, maxConcurrent: nat)
    requires Orderly(s, maxConcurrent) && Paid(s) && Valid(backend, s, run, maxConcurrent)
    ensures Paid(After(backend, s, run, maxConcurrent))
    decreases |run|
  {
    if run != [] {
      NextKeepsPaid(backend, s, run[0], maxConcurrent);
      NextKeepsOrderly(backend, s, run[0], maxConcurrent);
      hide Orderly, Paid, Next;
      RunKeepsPaid(backend, Next(backend, s, run[0], maxConcurrent), run[1..], maxConcurrent);
    }
  }

  /** No double dial, call by call and over every run: a call is handed to the dispatcher once more
      than its result was lost (not once more while the latest loss stands), so twice only if its own
      result was lost; a call about to be handed over was handed over before exactly when its result
      is lost; and there is one call at most for a principal and a request id, so that handovers of
      two calls never answer the same request, however often it was retried. */
  lemma NoDoubleDial(backend: Backend, s: Server, run: seq<Action>, maxConcurrent: nat)
    requires Initial(s) && Valid(backend, s, run, maxConcurrent)
    ensures var t := After(backend, s, run, maxConcurrent);
            && OnePerRequest(t.store.rows)
            && (forall id <- t.handed :: id in t.store.rows)
            && (forall id :: multiset(t.handed)[id] ==
                             multiset(t.losses)[id] + if id in t.handed && id !in t.lost then 1 else 0)
            && (t.pass.Looping? && t.pass.todo != [] ==>
                  (t.pass.todo[0].id in t.handed <==> t.pass.todo[0].id in t.lost))
  {
    RunKeepsOrderly(backend, s, run, maxConcurrent);
    RunKeepsPaid(backend, s, run, maxConcurrent);
    RunKeepsOnePerRequest(backend, s, run, maxConcurrent);
    var t := After(backend, s, run, maxConcurrent);
    if t.pass.Looping? && t.pass.todo != [] {
      assert t.pass.todo[0] in Todo(t.pass);
    }
  }

  // ---- Composing runs ----

  lemma RunNil(backend: Backend, s: Server, t: Server, run: seq<Action>, maxConcurrent: nat)
    requires Wellformed(s.store) && run == [] && s == t
    ensures Valid(backend, s, run, maxConcurrent) && After(backend, s, run, maxConcurrent) == t
  {
  }

  /** A run that starts with `a` and goes on from the state `a` leads to. */
  lemma RunCons(
    backend: Backend, s: Server, a: Action, m: Server, rest: seq<Action>, t: Server, maxConcurrent: nat)
    requires Wellformed(s.store) && Enabled(s, a) && Next(backend, s, a, maxConcurrent) == m
    requires Valid(backend, m, rest, maxConcurrent) && After(backend, m, rest, maxConcurrent) == t
    ensures Valid(backend, s, [a] + rest, maxConcurrent) && After(backend, s, [a] + rest, maxConcurrent) == t
  {
    assert ([a] + rest)[1..] == rest;
  }
}
