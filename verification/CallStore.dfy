/** storage/memory.py as a value: all calls with their logs, and the input requests. */
module CallStore {
  import opened Base
  import opened Models
  import opened Rows
  import opened Sorting

  /** `order` is the insertion order of the dictionary of calls. */
  datatype Store = Store(rows: map<string, Row>, order: seq<string>, inputs: map<string, InputRequest>)

  ghost predicate Listed(order: seq<string>, rows: map<string, Row>) {
    && (forall i, j :: 0 <= i < j < |order| ==> order[i] != order[j])
    && (forall id :: id in order <==> id in rows)
    && (forall id <- rows :: rows[id].call.id == id)
  }

  ghost predicate Wellformed(s: Store) {
    Listed(s.order, s.rows)
  }

  function NewRow(call: CallRecord): Row {
    Row(call, [Event(1, Named("call.created"), NO_PAYLOAD, call.createdAt)], [])
  }

  predicate SameRequest(call: CallRecord, principal: string, request: string) {
    call.principal == principal && call.clientRequestId == Some(request)
  }

  /** `_find_idempotent`: the first call of the principal with this request id. */
  function FindIdempotent(s: Store, principal: string, request: string): (r: Option<CallRecord>)
    requires Wellformed(s)
    ensures r.Some? ==> r.value.id in s.rows && s.rows[r.value.id].call == r.value
                        && SameRequest(r.value, principal, request)
    ensures r.None? ==> forall id <- s.rows :: !SameRequest(s.rows[id].call, principal, request)
  {
    FindFrom(s, 0, principal, request)
  }

  function FindFrom(s: Store, i: nat, principal: string, request: string): (r: Option<CallRecord>)
    requires Wellformed(s) && i <= |s.order|
    ensures r.Some? ==> r.value.id in s.rows && s.rows[r.value.id].call == r.value
                        && SameRequest(r.value, principal, request)
    ensures r.None? ==> forall k :: i <= k < |s.order| ==> !SameRequest(s.rows[s.order[k]].call, principal, request)
    decreases |s.order| - i
  {
    if i == |s.order| then None
    else
      assert s.order[i] in s.order;
      if SameRequest(s.rows[s.order[i]].call, principal, request) then Some(s.rows[s.order[i]].call)
      else FindFrom(s, i + 1, principal, request)
  }

  /** An empty request id counts as none. */
  predicate HasRequestId(call: CallRecord) {
    call.clientRequestId.Some? && call.clientRequestId.value != ""
  }

  /** `create_call`: returns the store and the call that answers the request. */
  function CreateCall(s: Store, call: CallRecord): (Store, CallRecord)
    requires Wellformed(s)
  {
    var existing := if HasRequestId(call) then FindIdempotent(s, call.principal, call.clientRequestId.value) else None;
    if existing.Some? then (s, existing.value)
    else (s.(rows := s.rows[call.id := NewRow(call)],
             order := if call.id in s.rows then s.order else s.order + [call.id]), call)
  }

  /** A request id other than the empty one is answered once: with the call of that principal that has
      it already, and then nothing changes, or else with the new call, as it is, which joins the store
      with one event. */
  lemma CreateAnswersOnce(s: Store, call: CallRecord)
    requires Wellformed(s) && call.id !in s.rows
    ensures var (t, answer) := CreateCall(s, call);
            var known := call.clientRequestId !in {None, Some("")} &&
              exists id :: id in s.rows && s.rows[id].call.principal == call.principal
                           && s.rows[id].call.clientRequestId == call.clientRequestId;
            if known then
              && t == s && answer.id in s.rows && s.rows[answer.id].call == answer
              && answer.principal == call.principal && answer.clientRequestId == call.clientRequestId
            else
              && answer == call && t.inputs == s.inputs && t.rows == s.rows[call.id := t.rows[call.id]]
              && t.rows[call.id] ==
                 Row(call, [Event(1, Named("call.created"), NO_PAYLOAD, call.createdAt)], [])
  {
    hide FindFrom, Listed;
    if HasRequestId(call) {
      var existing := FindIdempotent(s, call.principal, call.clientRequestId.value);
      hide FindIdempotent;
    }
  }

  function UpdateCall(backend: Backend, s: Store, id: string, u: Update, now: int): Result<Store> {
    if id !in s.rows then Err(CallNotFound)
    else
      var r := UpdateRow(backend, s.rows[id], u, now);
      if r.Err? then Err(r.error) else Ok(s.(rows := s.rows[id := r.value]))
  }

  /** The store after `update_call`, and what it returns or raises. */
  function AfterUpdate(backend: Backend, s: Store, id: string, u: Update, now: int): (Store, Result<CallRecord>) {
    var r := UpdateCall(backend, s, id, u, now);
    if r.Ok? then (r.value, Ok(r.value.rows[id].call)) else (s, Err(r.error))
  }

  /** `append_transcript_turn` on the whole store. */
  function Append(
    backend: Backend, s: Store, id: string, role: Role, text: string, interrupted: bool, last: Option<string>, now: int):
    (Store, Result<Turn>)
  {
    if Strip(text) == [] then (s, Err(EmptyTranscript))
    else if id !in s.rows then (s, Err(CallNotFound))
    else
      var row := WithTurn(backend, s.rows[id], role, Strip(text), interrupted, last, now);
      (s.(rows := s.rows[id := row]), Ok(row.transcript[|row.transcript| - 1]))
  }

  /** The calls that `count_dispatched` counts. */
  predicate Occupying(call: CallRecord) {
    !call.status.Terminal()
    && (call.status !in {Created, Validating, Queued} || call.state.dispatchId.Some?)
  }

  function Occupants(rows: map<string, Row>): set<string> {
    set id | id in rows && Occupying(rows[id].call)
  }

  function CountDispatched(s: Store): nat {
    |Occupants(s.rows)|
  }

  predicate Waiting(call: CallRecord) {
    call.status.Queued? && call.state.dispatchId.None?
  }

  function CallsInOrder(s: Store, n: nat): (r: seq<CallRecord>)
    requires Wellformed(s) && n <= |s.order|
    ensures |r| == n && forall i :: 0 <= i < n ==> s.order[i] in s.rows && r[i] == s.rows[s.order[i]].call
  {
    if n == 0 then [] else
      assert s.order[n - 1] in s.order;
      CallsInOrder(s, n - 1) + [s.rows[s.order[n - 1]].call]
  }

  const Older: (CallRecord, CallRecord) -> bool := (a: CallRecord, b: CallRecord) => a.createdAt < b.createdAt
  const IsWaiting: CallRecord -> bool := (c: CallRecord) => Waiting(c)

  /** All waiting calls, oldest first, ties in insertion order. */
  function WaitingLine(s: Store): seq<CallRecord>
    requires Wellformed(s)
  {
    Sort(Filter(CallsInOrder(s, |s.order|), IsWaiting), Older)
  }

  /** `list_queued` */
  function ListQueued(s: Store, limit: nat): seq<CallRecord>
    requires Wellformed(s)
  {
    var line := WaitingLine(s);
    if limit < |line| then line[..limit] else line
  }

  lemma InOrderMembers(s: Store, c: CallRecord)
    requires Wellformed(s)
    ensures c in CallsInOrder(s, |s.order|) <==> c.id in s.rows && s.rows[c.id].call == c
  {
    var all := CallsInOrder(s, |s.order|);
    if c.id in s.rows && s.rows[c.id].call == c {
      var i :| 0 <= i < |s.order| && s.order[i] == c.id;
      assert all[i] == c;
    }
    if c in all {
      var i :| 0 <= i < |all| && all[i] == c;
      assert s.order[i] in s.order;
    }
  }

  lemma LineMembers(s: Store, c: CallRecord)
    requires Wellformed(s)
    ensures c in WaitingLine(s) <==>
            c.id in s.rows && s.rows[c.id].call == c && c.status == Queued && c.state.dispatchId == None
  {
    InOrderMembers(s, c);
    hide Wellformed;
    var waiting := Filter(CallsInOrder(s, |s.order|), IsWaiting);
    MultisetMembers(Sort(waiting, Older), waiting);
  }

  /** Calls that were created at the same time wait in the order in which they were stored. */
  lemma TiesWaitInOrder(s: Store, at: int, since: CallRecord -> bool, waiting: CallRecord -> bool)
    requires Wellformed(s)
    requires forall c :: since(c) <==> c.createdAt == at
    requires forall c :: waiting(c) <==> c.status == Queued && c.state.dispatchId == None && c.createdAt == at
    ensures Filter(WaitingLine(s), since) == Filter(CallsInOrder(s, |s.order|), waiting)
  {
    hide CallsInOrder, Wellformed;
    var all := CallsInOrder(s, |s.order|);
    SortKeepsTies(Filter(all, IsWaiting), Older, since);
    FilterTwice(all, IsWaiting, since, waiting);
  }

  ghost predicate DistinctIds(calls: seq<CallRecord>) {
    forall i, j :: 0 <= i < j < |calls| ==> calls[i].id != calls[j].id
  }

  lemma {:induction false} FilterKeepsDistinct(calls: seq<CallRecord>, keep: CallRecord -> bool)
    requires DistinctIds(calls)
    ensures DistinctIds(Filter(calls, keep))
  {
    if calls != [] {
      var front, last := calls[..|calls| - 1], calls[|calls| - 1];
      FilterKeepsDistinct(front, keep);
      forall c <- Filter(front, keep) ensures c.id != last.id {
        var i :| 0 <= i < |front| && front[i] == c;
        assert calls[i] == c;
      }
    }
  }

  /** No two positions of an in-order listing hold the same id, hence no two listed calls do. */
  lemma FilterDistinct(s: Store, n: nat, keep: CallRecord -> bool)
    requires Wellformed(s) && n <= |s.order|
    ensures DistinctIds(Filter(CallsInOrder(s, n), keep))
  {
    var all := CallsInOrder(s, n);
    forall i, j | 0 <= i < j < n ensures all[i].id != all[j].id {
      assert s.rows[s.order[i]].call.id == s.order[i] && s.rows[s.order[j]].call.id == s.order[j];
    }
    hide CallsInOrder, Wellformed;
    FilterKeepsDistinct(all, keep);
  }

  /** Distinct ids survive a reordering. */
  lemma DistinctUnderReorder(a: seq<CallRecord>, b: seq<CallRecord>)
    requires multiset(a) == multiset(b) && DistinctIds(a)
    ensures DistinctIds(b)
  {
    forall i, j | 0 <= i < j < |b| ensures b[i].id != b[j].id {
      if b[i].id == b[j].id {
        MultisetMembers(a, b);
        assert b[i] in b && b[j] in b;
        var k :| 0 <= k < |a| && a[k] == b[i];
        var l :| 0 <= l < |a| && a[l] == b[j];
        assert k == l;
        TwiceInMultiset(b, i, j);
        OnceInMultiset(a, k);
      }
    }
  }

  lemma TwiceInMultiset(s: seq<CallRecord>, i: nat, j: nat)
    requires i < j < |s| && s[i] == s[j]
    ensures multiset(s)[s[i]] >= 2
  {
    assert s == s[..i] + [s[i]] + s[i + 1..j] + [s[j]] + s[j + 1..];
  }

  lemma OnceInMultiset(s: seq<CallRecord>, k: nat)
    requires k < |s| && DistinctIds(s)
    ensures multiset(s)[s[k]] == 1
  {
    assert s == s[..k] + [s[k]] + s[k + 1..];
    assert s[k] !in s[..k] && s[k] !in s[k + 1..];
  }

  /** In a sorted line whatever is not in a prefix is no older than what is. */
  lemma LeftBehindIsYounger(line: seq<CallRecord>, n: nat, c: CallRecord, left: CallRecord)
    requires Sorted(line, Older) && n <= |line|
    requires c in line[..n] && left in line && left !in line[..n]
    ensures c.createdAt <= left.createdAt
  {
    var i :| 0 <= i < n && line[i] == c;
    assert line == line[..n] + line[n..];
    var j :| 0 <= j < |line[n..]| && line[n..][j] == left;
    assert !Older(line[n + j], line[i]);
  }

  lemma LineIsSortedAndDistinct(s: Store)
    requires Wellformed(s)
    ensures Sorted(WaitingLine(s), Older) && DistinctIds(WaitingLine(s))
  {
    var waiting := Filter(CallsInOrder(s, |s.order|), IsWaiting);
    SortSorts(waiting, Older);
    FilterDistinct(s, |s.order|, IsWaiting);
    DistinctUnderReorder(waiting, WaitingLine(s));
  }

  /** A pass takes the oldest waiting calls: min(limit, waiting) distinct ones, none of those left
      behind is older than one taken. */
  lemma ListQueuedTakesOldest(s: Store, limit: nat)
    requires Wellformed(s)
    ensures var taken := ListQueued(s, limit);
            && |taken| == (if limit < |WaitingLine(s)| then limit else |WaitingLine(s)|)
            && DistinctIds(taken)
            && (forall c <- taken :: c.id in s.rows && s.rows[c.id].call == c && Waiting(c))
            && (forall c, left | c in taken && left in WaitingLine(s) && left !in taken :: c.createdAt <= left.createdAt)
  {
    LineIsSortedAndDistinct(s);
    var line, taken := WaitingLine(s), ListQueued(s, limit);
    assert taken == line[..|taken|];
    forall c <- taken ensures c.id in s.rows && s.rows[c.id].call == c && Waiting(c) {
      assert c in line;
      LineMembers(s, c);
    }
    hide WaitingLine, ListQueued, Sorted;
    forall c, left | c in taken && left in line && left !in taken ensures c.createdAt <= left.createdAt {
      LeftBehindIsYounger(line, |taken|, c, left);
    }
  }
}
