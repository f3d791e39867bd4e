/** Questions to the human behind a call: the repository operations of storage/memory.py and
    storage/postgres.py, the service operations of calls/service.py, and what they keep. */
module InputRequests {
  import opened Base
  import opened Models
  import opened Rows
  import opened CallSites
  import opened CallStore

  /** `resolve_input_request` and `expire_input_request` with the new value of a pending request. */
  function Settle(s: Store, callId: string, id: string, settled: InputRequest): Result<(Store, InputRequest)> {
    if id !in s.inputs || s.inputs[id].callId != callId then Err(InputRequestNotFound)
    else if !s.inputs[id].status.Pending? then Ok((s, s.inputs[id]))
    else Ok((s.(inputs := s.inputs[id := settled]), settled))
  }

  function Resolve(s: Store, callId: string, id: string, response: Fields, now: int): Result<(Store, InputRequest)> {
    if id !in s.inputs then Err(InputRequestNotFound)
    else Settle(s, callId, id, s.inputs[id].(status := Resolved, response := Some(response), resolvedAt := Some(now)))
  }

  function Expire(s: Store, callId: string, id: string, now: int): Result<(Store, InputRequest)> {
    if id !in s.inputs then Err(InputRequestNotFound)
    else Settle(s, callId, id, s.inputs[id].(status := Expired, resolvedAt := Some(now)))
  }

  /** `request_input`: the request is stored even when the call turns out not to be ACTIVE. */
  function RequestInput(backend: Backend, s: Store, request: InputRequest, now: int): (Store, Option<Error>) {
    if request.callId !in s.rows then (s, Some(CallNotFound))
    else
      var stored := s.(inputs := s.inputs[request.id := request]);
      var state := s.rows[request.callId].call.state.(pendingInput := Some(request.id));
      var r := UpdateCall(backend, stored, request.callId, UpdateOf(AskInput(state)), now);
      if r.Err? then (stored, Some(r.error)) else (r.value, None)
  }

  /** `respond` */
  function Respond(backend: Backend, s: Store, callId: string, id: string, response: Fields, now: int):
    (Store, Option<Error>)
  {
    if callId !in s.rows then (s, Some(CallNotFound))
    else if id !in s.inputs || s.inputs[id].callId != callId then (s, Some(InputRequestNotFound))
    else if !s.inputs[id].status.Pending? then (s, None)
    else
      var resolved := Resolve(s, callId, id, response, now).value.0;
      var state := s.rows[callId].call.state.(pendingInput := None);
      var r := UpdateCall(backend, resolved, callId, UpdateOf(InputReceived(state)), now);
      if r.Err? then (resolved, Some(r.error)) else (r.value, None)
  }

  /** `expire_input` */
  function ExpireInput(backend: Backend, s: Store, callId: string, id: string, now: int): (Store, Option<Error>) {
    if callId !in s.rows then (s, Some(CallNotFound))
    else
      var e := Expire(s, callId, id, now);
      if e.Err? then (s, Some(e.error))
      else
        var (expired, request) := e.value;
        if !request.status.Expired? || !s.rows[callId].call.status.InputRequired? then (expired, None)
        else
          var state := s.rows[callId].call.state.(pendingInput := None);
          var r := UpdateCall(backend, expired, callId, UpdateOf(InputTimeout(state)), now);
          if r.Err? then (expired, Some(r.error)) else (r.value, None)
  }

  // ---- Runs ----

  datatype Action =
    | DoCreate(call: CallRecord)
    | DoRequest(request: InputRequest, now: int)
    | DoRespond(callId: string, id: string, response: Fields, now: int)
    | DoExpire(callId: string, id: string, now: int)
    // repository methods by themselves, as they interleave when a service operation is split at its awaits
    | DoStoreRequest(request: InputRequest)
    | DoResolve(callId: string, id: string, response: Fields, now: int)
    | DoExpireRequest(callId: string, id: string, now: int)
    | DoWrite(callId: string, site: Site, now: int)
    | DoHear(callId: string, role: Role, text: string, interrupted: bool, last: Option<string>, now: int)

  /** New requests are pending and have an id of their own. */
  predicate Enabled(s: Store, a: Action) {
    match a
    case DoCreate(call) => call.id !in s.rows && call.status.Created?
    case DoRequest(request, _) => request.id !in s.inputs && request.status.Pending?
    case DoStoreRequest(request) => request.id !in s.inputs && request.status.Pending?
    case DoWrite(_, site, _) => Guarded(site)
    case _ => true
  }

  function Next(backend: Backend, s: Store, a: Action): Store
    requires Wellformed(s)
  {
    match a
    case DoCreate(call) => CreateCall(s, call).0
    case DoRequest(request, now) => RequestInput(backend, s, request, now).0
    case DoRespond(callId, id, response, now) => Respond(backend, s, callId, id, response, now).0
    case DoExpire(callId, id, now) => ExpireInput(backend, s, callId, id, now).0
    case DoStoreRequest(request) => s.(inputs := s.inputs[request.id := request])
    case DoResolve(callId, id, response, now) =>
      var r := Resolve(s, callId, id, response, now);
      if r.Err? then s else r.value.0
    case DoExpireRequest(callId, id, now) =>
      var r := Expire(s, callId, id, now);
      if r.Err? then s else r.value.0
    case DoWrite(callId, site, now) =>
      var r := UpdateCall(backend, s, callId, UpdateOf(site), now);
      if r.Err? then s else r.value
    case DoHear(callId, role, text, interrupted, last, now) =>
      if callId !in s.rows then s
      else
        var r := AppendTurn(backend, s.rows[callId], role, text, interrupted, last, now);
        if r.Err? then s else s.(rows := s.rows[callId := r.value])
  }

  ghost predicate Valid(backend: Backend, s: Store, run: seq<Action>)
    decreases |run|
  {
    Wellformed(s) && (run == [] || (Enabled(s, run[0]) && Valid(backend, Next(backend, s, run[0]), run[1..])))
  }

  ghost function After(backend: Backend, s: Store, run: seq<Action>): Store
    requires Valid(backend, s, run)
    decreases |run|
  {
    if run == [] then s else After(backend, Next(backend, s, run[0]), run[1..])
  }

  // ---- Requests settle once ----

  /** A request may leave pending, keeping what was asked; a settled one is never touched again. */
  ghost predicate OnlySettles(s: Store, t: Store) {
    forall id <- s.inputs ::
      && id in t.inputs
      && (!s.inputs[id].status.Pending? ==> t.inputs[id] == s.inputs[id])
      && t.inputs[id].callId == s.inputs[id].callId && t.inputs[id].question == s.inputs[id].question
      && (t.inputs[id].status.Resolved? && !s.inputs[id].status.Resolved? ==> t.inputs[id].response.Some?)
  }

  lemma UpdateKeepsInputs(backend: Backend, s: Store, callId: string, u: Update, now: int)
    requires UpdateCall(backend, s, callId, u, now).Ok?
    ensures UpdateCall(backend, s, callId, u, now).value.inputs == s.inputs
  {
  }

  lemma AnswerOnlySettles(backend: Backend, s: Store, a: Action)
    requires Wellformed(s) && (a.DoRespond? || a.DoExpire?)
    ensures OnlySettles(s, Next(backend, s, a))
  {
    hide UpdateCall, UpdateOf, Wellformed;
    if a.callId in s.rows && a.id in s.inputs {
      var state := s.rows[a.callId].call.state.(pendingInput := None);
      if a.DoRespond? && s.inputs[a.id].callId == a.callId && s.inputs[a.id].status.Pending? {
        var stored := Resolve(s, a.callId, a.id, a.response, a.now).value.0;
        if UpdateCall(backend, stored, a.callId, UpdateOf(InputReceived(state)), a.now).Ok? {
          UpdateKeepsInputs(backend, stored, a.callId, UpdateOf(InputReceived(state)), a.now);
        }
      } else if a.DoExpire? && s.inputs[a.id].callId == a.callId {
        var stored := Expire(s, a.callId, a.id, a.now).value.0;
        if UpdateCall(backend, stored, a.callId, UpdateOf(InputTimeout(state)), a.now).Ok? {
          UpdateKeepsInputs(backend, stored, a.callId, UpdateOf(InputTimeout(state)), a.now);
        }
      }
    }
  }

  lemma NextOnlySettles(backend: Backend, s: Store, a: Action)
    requires Wellformed(s) && Enabled(s, a)
    ensures OnlySettles(s, Next(backend, s, a))
  {
    hide UpdateCall, UpdateOf, Wellformed;
    match a {
      case DoRequest(request, now) =>
        if request.callId in s.rows {
          var stored := s.(inputs := s.inputs[request.id := request]);
          var u := UpdateOf(AskInput(s.rows[request.callId].call.state.(pendingInput := Some(request.id))));
          if UpdateCall(backend, stored, request.callId, u, now).Ok? {
            UpdateKeepsInputs(backend, stored, request.callId, u, now);
          }
        }
      case DoWrite(callId, site, now) =>
        if UpdateCall(backend, s, callId, UpdateOf(site), now).Ok? {
          UpdateKeepsInputs(backend, s, callId, UpdateOf(site), now);
        }
      case DoRespond(_, _, _, _) => AnswerOnlySettles(backend, s, a);
      case DoExpire(_, _, _) => AnswerOnlySettles(backend, s, a);
      case _ =>
    }
  }

  /** Whatever responds, expirations, and single repository calls race, a request leaves pending at
      most once, and from then on it keeps its answer: any later state of the run holds it unchanged. */
  lemma {:induction false} SettledForever(backend: Backend, s: Store, run: seq<Action>)
    requires Valid(backend, s, run)
    ensures OnlySettles(s, After(backend, s, run))
    decreases |run|
  {
    if run != [] {
      NextOnlySettles(backend, s, run[0]);
      SettledForever(backend, Next(backend, s, run[0]), run[1..]);
    }
  }

  /** This action answers, or expires, the request of this call. */
  predicate Answers(a: Action, callId: string, id: string) {
    (a.DoRespond? || a.DoResolve?) && a.callId == callId && a.id == id
  }

  predicate Expires(a: Action, callId: string, id: string) {
    (a.DoExpire? || a.DoExpireRequest?) && a.callId == callId && a.id == id
  }

  /** How a pending request looks after one action. */
  ghost predicate SettledBy(before: InputRequest, a: Action, after: InputRequest) {
    || after == before
    || (Answers(a, before.callId, before.id)
        && after == before.(status := Resolved, response := Some(a.response), resolvedAt := Some(a.now)))
    || (Expires(a, before.callId, before.id) && after == before.(status := Expired, resolvedAt := Some(a.now)))
  }

  lemma NextSettles(backend: Backend, s: Store, a: Action, id: string)
    requires Wellformed(s) && Enabled(s, a) && id in s.inputs && s.inputs[id].status.Pending? && s.inputs[id].id == id
    ensures id in Next(backend, s, a).inputs && SettledBy(s.inputs[id], a, Next(backend, s, a).inputs[id])
  {
    hide UpdateCall, UpdateOf, Wellformed;
    match a {
      case DoRequest(request, now) =>
        if request.callId in s.rows {
          var stored := s.(inputs := s.inputs[request.id := request]);
          var u := UpdateOf(AskInput(s.rows[request.callId].call.state.(pendingInput := Some(request.id))));
          if UpdateCall(backend, stored, request.callId, u, now).Ok? {
            UpdateKeepsInputs(backend, stored, request.callId, u, now);
          }
        }
      case DoWrite(callId, site, now) =>
        if UpdateCall(backend, s, callId, UpdateOf(site), now).Ok? {
          UpdateKeepsInputs(backend, s, callId, UpdateOf(site), now);
        }
      case DoRespond(_, _, _, _) => AnswerSettles(backend, s, a, id);
      case DoExpire(_, _, _) => AnswerSettles(backend, s, a, id);
      case _ =>
    }
  }

  lemma AnswerSettles(backend: Backend, s: Store, a: Action, id: string)
    requires Wellformed(s) && (a.DoRespond? || a.DoExpire?)
    requires id in s.inputs && s.inputs[id].status.Pending? && s.inputs[id].id == id
    ensures id in Next(backend, s, a).inputs && SettledBy(s.inputs[id], a, Next(backend, s, a).inputs[id])
  {
    hide UpdateCall, UpdateOf, Wellformed;
    if a.callId in s.rows && a.id in s.inputs && s.inputs[a.id].callId == a.callId {
      var state := s.rows[a.callId].call.state.(pendingInput := None);
      if a.DoRespond? && s.inputs[a.id].status.Pending? {
        var stored := Resolve(s, a.callId, a.id, a.response, a.now).value.0;
        if UpdateCall(backend, stored, a.callId, UpdateOf(InputReceived(state)), a.now).Ok? {
          UpdateKeepsInputs(backend, stored, a.callId, UpdateOf(InputReceived(state)), a.now);
        }
      } else if a.DoExpire? {
        var stored := Expire(s, a.callId, a.id, a.now).value.0;
        if UpdateCall(backend, stored, a.callId, UpdateOf(InputTimeout(state)), a.now).Ok? {
          UpdateKeepsInputs(backend, stored, a.callId, UpdateOf(InputTimeout(state)), a.now);
        }
      }
    }
  }

  /** Over every run: a request that was pending and is settled holds exactly the response, or the
      expiry, of one of the actions that named it and its call, with the time of that action, and what
      was asked is still there. */
  lemma {:induction false} HoldsTheAnswerGiven(backend: Backend, s: Store, run: seq<Action>, id: string)
    requires Valid(backend, s, run)
    requires id in s.inputs && s.inputs[id].status.Pending? && s.inputs[id].id == id
    ensures var before := s.inputs[id];
            && id in After(backend, s, run).inputs
            && var after := After(backend, s, run).inputs[id];
               || after == before
               || (exists k :: 0 <= k < |run| && Answers(run[k], before.callId, id) && after ==
                     before.(status := Resolved, response := Some(run[k].response), resolvedAt := Some(run[k].now)))
               || (exists k :: 0 <= k < |run| && Expires(run[k], before.callId, id) && after ==
                     before.(status := Expired, resolvedAt := Some(run[k].now)))
    decreases |run|
  {
    if run != [] {
      var m := Next(backend, s, run[0]);
      NextSettles(backend, s, run[0], id);
      hide Next, Enabled, Wellformed;
      if m.inputs[id] == s.inputs[id] {
        HoldsTheAnswerGiven(backend, m, run[1..], id);
        assert forall k :: 0 <= k < |run[1..]| ==> run[1..][k] == run[k + 1];
      } else {
        SettledForever(backend, m, run[1..]);
      }
    }
  }

  // ---- An open question is a pending one ----

  /** A pending request of this call. */
  predicate Names(s: Store, callId: string, id: Option<string>) {
    id.Some? && id.value in s.inputs && s.inputs[id.value].callId == callId && s.inputs[id.value].status.Pending?
  }

  ghost predicate OpenQuestion(s: Store, callId: string)
    requires callId in s.rows
  {
    var call := s.rows[callId].call;
    call.status.InputRequired? ==> Names(s, callId, call.state.pendingInput)
  }

  ghost predicate Coherent(s: Store) {
    forall callId <- s.rows :: OpenQuestion(s, callId)
  }

  /** An accepted write leaves the call waiting, with a pointer that names no pending request of it; or
      a repository call settles the very question its call waits for, without waking the call. */
  predicate Breaks(s: Store, a: Action) {
    match a
    case DoWrite(callId, site, _) =>
      var u := UpdateOf(site);
      && callId in s.rows && Accepts(s.rows[callId].call, u)
      && u.status.GetOr(s.rows[callId].call.status).InputRequired?
      && !Names(s, callId, u.state.GetOr(s.rows[callId].call.state).pendingInput)
    case DoResolve(callId, id, _, _) => AwaitedBy(s, callId, id)
    case DoExpireRequest(callId, id, _) => AwaitedBy(s, callId, id)
    case _ => false
  }

  predicate AwaitedBy(s: Store, callId: string, id: string) {
    callId in s.rows && s.rows[callId].call.status.InputRequired? && s.rows[callId].call.state.pendingInput == Some(id)
  }

  /** Status and state after an accepted update. */
  lemma UpdateStanding(backend: Backend, s: Store, callId: string, u: Update, now: int)
    ensures UpdateCall(backend, s, callId, u, now).Ok? <==> callId in s.rows && Accepts(s.rows[callId].call, u)
    ensures UpdateCall(backend, s, callId, u, now).Ok? ==>
              var t := UpdateCall(backend, s, callId, u, now).value;
              && t.inputs == s.inputs && t.rows.Keys == s.rows.Keys
              && (forall x <- s.rows :: x != callId ==> t.rows[x] == s.rows[x])
              && t.rows[callId].call.status == u.status.GetOr(s.rows[callId].call.status)
              && t.rows[callId].call.state == u.state.GetOr(s.rows[callId].call.state)
  {
    if callId in s.rows {
      UpdateEffect(backend, s.rows[callId], u, now);
    }
  }

  lemma RequestCoherent(backend: Backend, s: Store, request: InputRequest, now: int)
    requires Coherent(s) && request.id !in s.inputs && request.status.Pending?
    ensures Coherent(RequestInput(backend, s, request, now).0)
  {
    if request.callId in s.rows {
      var stored := s.(inputs := s.inputs[request.id := request]);
      var state := s.rows[request.callId].call.state.(pendingInput := Some(request.id));
      UpdateStanding(backend, stored, request.callId, UpdateOf(AskInput(state)), now);
      hide UpdateCall;
      var t := RequestInput(backend, s, request, now).0;
      forall x <- t.rows ensures OpenQuestion(t, x) {
        assert OpenQuestion(s, x);
      }
    }
  }

  /** A request that leaves pending takes its call out of INPUT_REQUIRED in the same operation. */
  lemma AnswerCoherent(
    backend: Backend, s: Store, t: Store, callId: string, id: string, settled: InputRequest, site: Site, now: int)
    requires Coherent(s) && callId in s.rows && id in s.inputs && s.inputs[id].callId == callId
    requires site.InputReceived? || site.InputTimeout?
    requires settled.callId == callId
    requires var stored := s.(inputs := s.inputs[id := settled]);
             var r := UpdateCall(backend, stored, callId, UpdateOf(site), now);
             t == if r.Ok? then r.value else stored
    ensures Coherent(t)
  {
    var stored := s.(inputs := s.inputs[id := settled]);
    UpdateStanding(backend, stored, callId, UpdateOf(site), now);
    hide UpdateCall;
    forall x <- t.rows ensures OpenQuestion(t, x) {
      assert OpenQuestion(s, x);
    }
  }

  lemma RespondCoherent(backend: Backend, s: Store, callId: string, id: string, response: Fields, now: int)
    requires Coherent(s)
    ensures Coherent(Respond(backend, s, callId, id, response, now).0)
  {
    hide UpdateOf, UpdateCall, Coherent;
    var t := Respond(backend, s, callId, id, response, now).0;
    if callId in s.rows && id in s.inputs && s.inputs[id].callId == callId && s.inputs[id].status.Pending? {
      var settled := s.inputs[id].(status := Resolved, response := Some(response), resolvedAt := Some(now));
      var state := s.rows[callId].call.state.(pendingInput := None);
      AnswerCoherent(backend, s, t, callId, id, settled, InputReceived(state), now);
    }
  }

  lemma ExpireCoherent(backend: Backend, s: Store, callId: string, id: string, now: int)
    requires Coherent(s)
    ensures Coherent(ExpireInput(backend, s, callId, id, now).0)
  {
    hide UpdateOf, UpdateCall;
    var t := ExpireInput(backend, s, callId, id, now).0;
    if callId in s.rows && id in s.inputs && s.inputs[id].callId == callId {
      if !s.rows[callId].call.status.InputRequired? {
        forall x <- t.rows ensures OpenQuestion(t, x) {
          assert OpenQuestion(s, x);
        }
      } else if !s.inputs[id].status.Resolved? {
        var request := Expire(s, callId, id, now).value.1;
        var state := s.rows[callId].call.state.(pendingInput := None);
        assert Expire(s, callId, id, now).value.0 == s.(inputs := s.inputs[id := request]);
        hide Coherent;
        AnswerCoherent(backend, s, t, callId, id, request, InputTimeout(state), now);
      }
    }
  }

  lemma WriteCoherentIff(backend: Backend, s: Store, callId: string, site: Site, now: int)
    requires Coherent(s) && UpdateCall(backend, s, callId, UpdateOf(site), now).Ok?
    ensures Coherent(UpdateCall(backend, s, callId, UpdateOf(site), now).value) <==> !Breaks(s, DoWrite(callId, site, now))
  {
    UpdateStanding(backend, s, callId, UpdateOf(site), now);
    hide UpdateCall, UpdateOf;
    var t := UpdateCall(backend, s, callId, UpdateOf(site), now).value;
    forall x <- t.rows | x != callId ensures OpenQuestion(t, x) {
      assert OpenQuestion(s, x);
    }
    assert OpenQuestion(t, callId) <==> !Breaks(s, DoWrite(callId, site, now));
  }

  /** Settling a request without touching a call. */
  lemma SettleCoherentIff(s: Store, callId: string, id: string, settled: InputRequest)
    requires Coherent(s) && id in s.inputs && s.inputs[id].callId == callId && s.inputs[id].status.Pending?
    requires settled.callId == callId && !settled.status.Pending?
    ensures Coherent(s.(inputs := s.inputs[id := settled])) <==> !AwaitedBy(s, callId, id)
  {
    var t := s.(inputs := s.inputs[id := settled]);
    forall x <- t.rows | !AwaitedBy(s, x, id) ensures OpenQuestion(t, x) {
      assert OpenQuestion(s, x);
    }
    forall x <- t.rows | AwaitedBy(s, x, id) ensures x == callId && !OpenQuestion(t, x) {
      assert OpenQuestion(s, x);
    }
  }

  /** A bare settling of a request that is missing, foreign or settled leaves the store, and nobody
      waits for it. */
  lemma BareSettleIff(s: Store, a: Action)
    requires Coherent(s) && (a.DoResolve? || a.DoExpireRequest?)
    ensures var r := if a.DoResolve? then Resolve(s, a.callId, a.id, a.response, a.now) else Expire(s, a.callId, a.id, a.now);
            Coherent(if r.Err? then s else r.value.0) <==> !Breaks(s, a)
  {
    if a.callId in s.rows {
      assert OpenQuestion(s, a.callId);
    }
    if a.id in s.inputs && s.inputs[a.id].callId == a.callId && s.inputs[a.id].status.Pending? {
      var settled := if a.DoResolve?
        then s.inputs[a.id].(status := Resolved, response := Some(a.response), resolvedAt := Some(a.now))
        else s.inputs[a.id].(status := Expired, resolvedAt := Some(a.now));
      SettleCoherentIff(s, a.callId, a.id, settled);
      hide Coherent;
    }
  }

  /** A new request concerns no call yet. */
  lemma StoreCoherent(s: Store, request: InputRequest)
    requires Coherent(s) && request.id !in s.inputs
    ensures Coherent(s.(inputs := s.inputs[request.id := request]))
  {
    var t := s.(inputs := s.inputs[request.id := request]);
    forall x <- t.rows ensures OpenQuestion(t, x) {
      assert OpenQuestion(s, x);
    }
  }

  lemma NextCoherentIff(backend: Backend, s: Store, a: Action)
    requires Wellformed(s) && Coherent(s) && Enabled(s, a)
    ensures Coherent(Next(backend, s, a)) <==> !Breaks(s, a)
  {
    hide Coherent;
    match a {
      case DoRequest(request, now) => RequestCoherent(backend, s, request, now);
      case DoRespond(callId, id, response, now) => RespondCoherent(backend, s, callId, id, response, now);
      case DoExpire(callId, id, now) => ExpireCoherent(backend, s, callId, id, now);
      case DoStoreRequest(request) => StoreCoherent(s, request);
      case DoResolve(_, _, _, _) => BareSettleIff(s, a);
      case DoExpireRequest(_, _, _) => BareSettleIff(s, a);
      case DoWrite(callId, site, now) =>
        if UpdateCall(backend, s, callId, UpdateOf(site), now).Ok? {
          WriteCoherentIff(backend, s, callId, site, now);
        } else {
          UpdateStanding(backend, s, callId, UpdateOf(site), now);
        }
      case DoCreate(call) => CreateCoherent(s, call);
      case DoHear(callId, role, text, interrupted, last, now) => HearCoherent(backend, s, a);
    }
  }

  lemma CreateCoherent(s: Store, call: CallRecord)
    requires Wellformed(s) && Coherent(s) && call.id !in s.rows && call.status.Created?
    ensures Coherent(CreateCall(s, call).0)
  {
    hide Wellformed;
    var t := CreateCall(s, call).0;
    forall x <- t.rows ensures OpenQuestion(t, x) {
      assert x in s.rows ==> OpenQuestion(s, x);
    }
  }

  lemma HearCoherent(backend: Backend, s: Store, a: Action)
    requires Wellformed(s) && Coherent(s) && a.DoHear?
    ensures Coherent(Next(backend, s, a))
  {
    hide Wellformed;
    var t := Next(backend, s, a);
    forall x <- t.rows ensures OpenQuestion(t, x) {
      assert OpenQuestion(s, x);
    }
  }

  ghost predicate NeverBreaks(backend: Backend, s: Store, run: seq<Action>)
    requires Valid(backend, s, run)
    decreases |run|
  {
    run == [] || (!Breaks(s, run[0]) && NeverBreaks(backend, Next(backend, s, run[0]), run[1..]))
  }

  ghost predicate CoherentThroughout(backend: Backend, s: Store, run: seq<Action>)
    requires Valid(backend, s, run)
    decreases |run|
  {
    Coherent(s) && (run == [] || CoherentThroughout(backend, Next(backend, s, run[0]), run[1..]))
  }

  /** A call in INPUT_REQUIRED names a request that is still pending and its own, at every point of a
      run, exactly when no snapshot is written over an open question without naming a pending
      request of the call, and no awaited question is settled apart from waking its call. Of the
      service operations, done in one step each, none ever breaks this. */
  lemma {:induction false} OpenQuestionsArePendingIff(backend: Backend, s: Store, run: seq<Action>)
    requires Coherent(s) && Valid(backend, s, run)
    ensures CoherentThroughout(backend, s, run) <==> NeverBreaks(backend, s, run)
    decreases |run|
  {
    if run != [] {
      var t := Next(backend, s, run[0]);
      NextCoherentIff(backend, s, run[0]);
      hide Next, Breaks, Coherent;
      if Coherent(t) {
        OpenQuestionsArePendingIff(backend, t, run[1..]);
      }
    }
  }

  /** Atomicity is needed: in the gap between the two writes of `respond` the call still waits for a
      question that is already settled. */
  lemma SplitAnswerLeavesGap(s: Store, callId: string, response: Fields, now: int)
    requires Coherent(s) && callId in s.rows && s.rows[callId].call.status.InputRequired?
    ensures var id := s.rows[callId].call.state.pendingInput;
            && id.Some? && Resolve(s, callId, id.value, response, now).Ok?
            && !Coherent(Resolve(s, callId, id.value, response, now).value.0)
  {
    assert OpenQuestion(s, callId);
    var id := s.rows[callId].call.state.pendingInput.value;
    assert !OpenQuestion(Resolve(s, callId, id, response, now).value.0, callId);
  }

  // ---- Answers and the question they close ----

  /** An answer to any pending request of a waiting call wakes the call; the question the call waits
      for is settled by it exactly when it is the one that was answered. */
  lemma AnswerClosesItsQuestionIff(backend: Backend, s: Store, callId: string, id: string, response: Fields, now: int)
    requires Coherent(s) && callId in s.rows && s.rows[callId].call.status.InputRequired? && Names(s, callId, Some(id))
    ensures var awaited := s.rows[callId].call.state.pendingInput;
            var (t, e) := Respond(backend, s, callId, id, response, now);
            && e.None? && callId in t.rows && t.rows[callId].call.status == Active
            && t.rows[callId].call.state == s.rows[callId].call.state.(pendingInput := None)
            && (!Names(t, callId, awaited) <==> awaited == Some(id))
            && var events := t.rows[callId].events;
               events != [] && events[|events| - 1].kind == Named("call.input_received")
  {
    assert OpenQuestion(s, callId);
    var state := s.rows[callId].call.state.(pendingInput := None);
    var stored := Resolve(s, callId, id, response, now).value.0;
    UpdateStanding(backend, stored, callId, UpdateOf(InputReceived(state)), now);
    hide UpdateCall;
  }

  /** An expiry wakes a waiting call also when the request had expired before, whatever the call waits
      for now. */
  lemma StaleExpiryWakesCall(backend: Backend, s: Store, callId: string, id: string, now: int)
    requires Coherent(s) && callId in s.rows && s.rows[callId].call.status.InputRequired?
    requires id in s.inputs && s.inputs[id].callId == callId && s.inputs[id].status.Expired?
    ensures var awaited := s.rows[callId].call.state.pendingInput;
            var (t, e) := ExpireInput(backend, s, callId, id, now);
            && e.None? && callId in t.rows && t.rows[callId].call.status == Active && Names(t, callId, awaited)
            && t.rows[callId].call.state == s.rows[callId].call.state.(pendingInput := None)
            && var events := t.rows[callId].events;
               events != [] && events[|events| - 1].kind == Named("call.input_timeout")
  {
    assert OpenQuestion(s, callId);
    var state := s.rows[callId].call.state.(pendingInput := None);
    UpdateStanding(backend, s, callId, UpdateOf(InputTimeout(state)), now);
    hide UpdateCall;
  }

  /** Where the other pending requests come from: a question refused because the call is not ACTIVE
      stays stored as pending, and nobody waits for it. */
  lemma RefusedQuestionIsOrphaned(backend: Backend, s: Store, request: InputRequest, now: int)
    requires Coherent(s) && request.callId in s.rows && !s.rows[request.callId].call.status.Active?
    requires request.id !in s.inputs && request.status.Pending?
    ensures var (t, e) := RequestInput(backend, s, request, now);
            e == Some(InvalidStateTransition) && Names(t, request.callId, Some(request.id))
            && !AwaitedBy(t, request.callId, request.id)
  {
    assert OpenQuestion(s, request.callId);
    var stored := s.(inputs := s.inputs[request.id := request]);
    var state := s.rows[request.callId].call.state.(pendingInput := Some(request.id));
    UpdateStanding(backend, stored, request.callId, UpdateOf(AskInput(state)), now);
    if request.callId in stored.rows {
      assert !Accepts(stored.rows[request.callId].call, UpdateOf(AskInput(state)));
    }
  }
}
