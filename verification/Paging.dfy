/** Keyset pagination of the call list: `list_calls` in storage/memory.py and calls/service.py. */
module Paging {
  import opened Base
  import opened Models
  import opened Rows
  import opened CallStore
  import opened Sorting

  /** The sort key: start time, then id. */
  datatype Key = Key(startedAt: int, id: string)

  function KeyOf(c: CallRecord): Key {
    Key(c.StartedAt(), c.id)
  }

  predicate KeyLess(a: Key, b: Key) {
    a.startedAt < b.startedAt || (a.startedAt == b.startedAt && LexLess(a.id, b.id))
  }

  const Newer: (CallRecord, CallRecord) -> bool := (a: CallRecord, b: CallRecord) => KeyLess(KeyOf(b), KeyOf(a))

  predicate Behind(c: CallRecord, cursor: Option<Key>) {
    cursor.None? || KeyLess(KeyOf(c), cursor.value)
  }

  /** All calls that pass the filter and lie behind the cursor, newest first. The filter stands for
      the conjunction of principal, direction, status, number, name and time window. */
  function Beyond(s: Store, keep: CallRecord -> bool, cursor: Option<Key>): seq<CallRecord>
    requires Wellformed(s)
  {
    Sort(Filter(CallsInOrder(s, |s.order|), (c: CallRecord) => keep(c) && Behind(c, cursor)), Newer)
  }

  /** The repository's `list_calls`. */
  function ListCalls(s: Store, keep: CallRecord -> bool, cursor: Option<Key>, limit: nat): seq<CallRecord>
    requires Wellformed(s)
  {
    var calls := Beyond(s, keep, cursor);
    if limit < |calls| then calls[..limit] else calls
  }

  datatype Page = Page(calls: seq<CallRecord>, next: Option<Key>)

  /** The service's `list_calls`: one call more is fetched to know whether there is a next page. */
  function ListPage(s: Store, keep: CallRecord -> bool, cursor: Option<Key>, limit: nat): Page
    requires Wellformed(s) && limit >= 1
  {
    var calls := ListCalls(s, keep, cursor, limit + 1);
    var page := if limit < |calls| then calls[..limit] else calls;
    Page(page, if |calls| > limit then Some(KeyOf(page[|page| - 1])) else None)
  }

  // ---- The order ----

  lemma KeyTotal(a: Key, b: Key)
    ensures a == b || KeyLess(a, b) || KeyLess(b, a)
    ensures !(KeyLess(a, b) && KeyLess(b, a))
  {
    LexTotal(a.id, b.id);
  }

  lemma KeyTransitive(a: Key, b: Key, c: Key)
    requires KeyLess(a, b) && KeyLess(b, c)
    ensures KeyLess(a, c)
  {
    if a.startedAt == b.startedAt == c.startedAt {
      LexTransitive(a.id, b.id, c.id);
    }
  }

  lemma NewerIsWeakOrder()
    ensures WeakOrder(Newer)
  {
    forall a, b | Newer(a, b) ensures !Newer(b, a) {
      KeyTotal(KeyOf(a), KeyOf(b));
    }
    forall a, b, c | !Newer(a, b) && !Newer(b, c) ensures !Newer(a, c) {
      KeyTotal(KeyOf(a), KeyOf(b));
      KeyTotal(KeyOf(b), KeyOf(c));
      KeyTotal(KeyOf(a), KeyOf(c));
      if Newer(a, c) {
        if KeyOf(a) != KeyOf(b) && KeyOf(b) != KeyOf(c) {
          KeyTransitive(KeyOf(a), KeyOf(b), KeyOf(c));
        }
      }
    }
  }

  /** Strictly newest first: no two keys are equal. */
  ghost predicate Descending(calls: seq<CallRecord>) {
    forall i, j :: 0 <= i < j < |calls| ==> KeyLess(KeyOf(calls[j]), KeyOf(calls[i]))
  }

  /** Distinct ids and weak order together are strict order. */
  lemma StrictlyDescending(calls: seq<CallRecord>)
    requires DistinctIds(calls) && Sorted(calls, Newer)
    ensures Descending(calls)
  {
    forall i, j | 0 <= i < j < |calls| ensures KeyLess(KeyOf(calls[j]), KeyOf(calls[i])) {
      KeyTotal(KeyOf(calls[i]), KeyOf(calls[j]));
      assert !Newer(calls[j], calls[i]);
    }
  }

  lemma BeyondDescending(s: Store, keep: CallRecord -> bool, cursor: Option<Key>)
    requires Wellformed(s)
    ensures Descending(Beyond(s, keep, cursor))
  {
    hide KeyLess, Wellformed;
    var f := (c: CallRecord) => keep(c) && Behind(c, cursor);
    var listed := Filter(CallsInOrder(s, |s.order|), f);
    FilterDistinct(s, |s.order|, f);
    DistinctUnderReorder(listed, Sort(listed, Newer));
    NewerIsWeakOrder();
    SortSorts(listed, Newer);
    StrictlyDescending(Sort(listed, Newer));
  }

  lemma BeyondMembers(s: Store, keep: CallRecord -> bool, cursor: Option<Key>, c: CallRecord)
    requires Wellformed(s)
    ensures c in Beyond(s, keep, cursor) <==>
            c.id in s.rows && s.rows[c.id].call == c && keep(c) && Behind(c, cursor)
  {
    hide KeyLess, Behind;
    InOrderMembers(s, c);
    hide Wellformed;
    var f := (c: CallRecord) => keep(c) && Behind(c, cursor);
    var listed := Filter(CallsInOrder(s, |s.order|), f);
    MultisetMembers(Sort(listed, Newer), listed);
  }

  /** `Descending` in the terms of the record: whoever was connected later, or else created later, comes
      first; among calls that started at the same time the greater id. */
  ghost predicate NewestFirst(calls: seq<CallRecord>) {
    forall i, j :: 0 <= i < j < |calls| ==>
      var a, b := calls[i], calls[j];
      var x, y := a.connectedAt.GetOr(a.createdAt), b.connectedAt.GetOr(b.createdAt);
      y < x || (y == x && LexLess(b.id, a.id))
  }

  lemma DescendingIsNewestFirst(calls: seq<CallRecord>)
    requires Descending(calls)
    ensures NewestFirst(calls)
  {
    forall i, j | 0 <= i < j < |calls|
      ensures var a, b := calls[i], calls[j];
              var x, y := a.connectedAt.GetOr(a.createdAt), b.connectedAt.GetOr(b.createdAt);
              y < x || (y == x && LexLess(b.id, a.id))
    {
      assert KeyLess(KeyOf(calls[j]), KeyOf(calls[i]));
    }
  }

  /** What the page request answers, in the terms of the record: the newest calls that pass the filter
      and started before the cursor, or at the same time with a smaller id; at most `limit` of them,
      and none that passes is newer than one of them and left out. */
  lemma PageIsNewestFirst(s: Store, keep: CallRecord -> bool, cursor: Option<Key>, limit: nat, c: CallRecord)
    requires Wellformed(s) && limit >= 1
    ensures var calls := ListPage(s, keep, cursor, limit).calls;
            && NewestFirst(calls) && |calls| <= limit
            && var started := c.connectedAt.GetOr(c.createdAt);
               var matches := c.id in s.rows && s.rows[c.id].call == c && keep(c) && (cursor.Some? ==>
                 || started < cursor.value.startedAt
                 || (started == cursor.value.startedAt && LexLess(c.id, cursor.value.id)));
               && (c in calls ==> matches)
               && (matches && c !in calls ==> |calls| == limit && NewestFirst(calls + [c]))
  {
    hide Beyond, Wellformed, KeyOf, KeyLess, NewestFirst, ListPage, LexLess;
    var all := Beyond(s, keep, cursor);
    BeyondDescending(s, keep, cursor);
    BeyondMembers(s, keep, cursor, c);
    BehindMeans(c, cursor);
    PageSpec(s, keep, cursor, limit);
    hide Behind, Descending;
    var calls := ListPage(s, keep, cursor, limit).calls;
    FrontOf(all, limit, c);
    DescendingIsNewestFirst(calls);
    if c in all && c !in calls {
      DescendingIsNewestFirst(calls + [c]);
    }
  }

  lemma BehindMeans(c: CallRecord, cursor: Option<Key>)
    ensures var started := c.connectedAt.GetOr(c.createdAt);
            Behind(c, cursor) <==> (cursor.Some? ==>
              started < cursor.value.startedAt || (started == cursor.value.startedAt && LexLess(c.id, cursor.value.id)))
  {
  }

  lemma FrontOf(all: seq<CallRecord>, limit: nat, c: CallRecord)
    requires Descending(all)
    ensures var calls := if limit < |all| then all[..limit] else all;
            && Descending(calls) && |calls| <= limit
            && (c in calls ==> c in all)
            && (c in all && c !in calls ==> |calls| == limit && Descending(calls + [c]))
  {
    hide KeyLess, KeyOf;
    if limit < |all| {
      forall k | 0 <= k < limit ensures all[k] in all[..limit] {
        assert all[..limit][k] == all[k];
      }
    }
  }

  /** What the sorted list contains, and that it is strictly descending. */
  lemma BeyondSpec(s: Store, keep: CallRecord -> bool, cursor: Option<Key>)
    requires Wellformed(s)
    ensures Descending(Beyond(s, keep, cursor)) && NewestFirst(Beyond(s, keep, cursor))
    ensures forall c :: c in Beyond(s, keep, cursor) <==>
              c.id in s.rows && s.rows[c.id].call == c && keep(c) && Behind(c, cursor)
  {
    hide Beyond, Wellformed;
    BeyondDescending(s, keep, cursor);
    DescendingIsNewestFirst(Beyond(s, keep, cursor));
    hide NewestFirst;
    forall c ensures c in Beyond(s, keep, cursor) <==>
              c.id in s.rows && s.rows[c.id].call == c && keep(c) && Behind(c, cursor) {
      BeyondMembers(s, keep, cursor, c);
    }
  }

  /** A strictly descending list is determined by its members. */
  lemma {:induction false} DescendingUnique(a: seq<CallRecord>, b: seq<CallRecord>)
    requires Descending(a) && Descending(b)
    requires forall c :: c in a <==> c in b
    ensures a == b
    decreases |a|
  {
    if a == [] {
      assert forall i :: 0 <= i < |b| ==> b[i] in b;
    } else {
      assert a[0] in b && b != [] && b[0] in a;
      var j :| 0 <= j < |b| && b[j] == a[0];
      var i :| 0 <= i < |a| && a[i] == b[0];
      KeyTotal(KeyOf(a[0]), KeyOf(b[0]));
      assert a[0] == b[0];
      forall c ensures c in a[1..] <==> c in b[1..] {
        TailMembers(a, c);
        TailMembers(b, c);
      }
      DescendingUnique(a[1..], b[1..]);
      assert a == [a[0]] + a[1..] && b == [b[0]] + b[1..];
    }
  }

  lemma TailMembers(a: seq<CallRecord>, c: CallRecord)
    requires Descending(a) && a != []
    ensures c in a[1..] <==> c in a && c != a[0]
  {
    assert a == [a[0]] + a[1..];
    if c in a[1..] {
      var i :| 0 <= i < |a[1..]| && a[1..][i] == c;
      KeyTotal(KeyOf(a[0]), KeyOf(a[i + 1]));
    }
  }

  // ---- Pages are slices of the whole list ----

  /** Behind the k-th call of the list lies exactly the rest of the list. */
  lemma BeyondIsSuffix(s: Store, keep: CallRecord -> bool, cursor: Option<Key>, k: nat)
    requires Wellformed(s) && 1 <= k <= |Beyond(s, keep, cursor)|
    ensures var all := Beyond(s, keep, cursor);
            Beyond(s, keep, Some(KeyOf(all[k - 1]))) == all[k..]
  {
    hide Beyond, Wellformed;
    var all := Beyond(s, keep, cursor);
    var pivot := all[k - 1];
    BeyondSpec(s, keep, cursor);
    BeyondSpec(s, keep, Some(KeyOf(pivot)));
    var rest := Beyond(s, keep, Some(KeyOf(pivot)));
    forall c ensures c in rest <==> c in all[k..] {
      SuffixMembers(all, k, c);
      assert pivot in all;
      if c in rest && cursor.Some? {
        KeyTransitive(KeyOf(c), KeyOf(pivot), cursor.value);
      }
    }
    DescendingUnique(rest, all[k..]);
  }

  lemma SuffixMembers(all: seq<CallRecord>, k: nat, c: CallRecord)
    requires Descending(all) && 1 <= k <= |all|
    ensures c in all[k..] <==> c in all && KeyLess(KeyOf(c), KeyOf(all[k - 1]))
  {
    assert all == all[..k] + all[k..];
    if c in all[k..] {
      var i :| 0 <= i < |all[k..]| && all[k..][i] == c;
      assert all[k + i] == c;
    }
    if c in all[..k] {
      var i :| 0 <= i < k && all[i] == c;
      KeyTotal(KeyOf(c), KeyOf(all[k - 1]));
    }
  }

  lemma NextIsSmaller(s: Store, keep: CallRecord -> bool, cursor: Option<Key>, limit: nat)
    requires Wellformed(s) && limit >= 1 && ListPage(s, keep, cursor, limit).next.Some?
    ensures |Beyond(s, keep, ListPage(s, keep, cursor, limit).next)| < |Beyond(s, keep, cursor)|
  {
    hide Beyond, Wellformed, KeyOf;
    BeyondIsSuffix(s, keep, cursor, limit);
  }

  /** Following `next` until there is none. */
  function Follow(s: Store, keep: CallRecord -> bool, cursor: Option<Key>, limit: nat): seq<seq<CallRecord>>
    requires Wellformed(s) && limit >= 1
    decreases |Beyond(s, keep, cursor)|
  {
    var page := ListPage(s, keep, cursor, limit);
    if page.next.None? then [page.calls]
    else
      NextIsSmaller(s, keep, cursor, limit);
      [page.calls] + Follow(s, keep, page.next, limit)
  }

  function Flatten(pages: seq<seq<CallRecord>>): seq<CallRecord> {
    if pages == [] then [] else pages[0] + Flatten(pages[1..])
  }

  /** Pages needed for n calls. */
  function PageCount(n: nat, limit: nat): (r: nat)
    requires limit >= 1
    ensures r >= 1
  {
    if n <= limit then 1 else 1 + PageCount(n - limit, limit)
  }

  /** It is max(1, ceil(n / limit)): the last page is needed, and it is the last. */
  lemma {:induction false} PageCountIsCeiling(n: nat, limit: nat)
    requires limit >= 1
    ensures var pages := PageCount(n, limit);
            n <= pages * limit && (pages == 1 || (pages - 1) * limit < n)
    decreases n
  {
    if n > limit {
      PageCountIsCeiling(n - limit, limit);
      var rest := PageCount(n - limit, limit);
      assert (rest + 1) * limit == rest * limit + limit;
      assert rest * limit == (rest - 1) * limit + limit;
    }
  }

  /** One page and where it leads. */
  lemma PageSpec(s: Store, keep: CallRecord -> bool, cursor: Option<Key>, limit: nat)
    requires Wellformed(s) && limit >= 1
    ensures var all := Beyond(s, keep, cursor);
            var page := ListPage(s, keep, cursor, limit);
            if |all| > limit then
              && page.calls == all[..limit] && page.next == Some(KeyOf(all[limit - 1]))
              && Beyond(s, keep, page.next) == all[limit..]
            else page.calls == all && page.next.None?
  {
    hide Beyond, Wellformed, KeyOf;
    if |Beyond(s, keep, cursor)| > limit {
      BeyondIsSuffix(s, keep, cursor, limit);
    }
  }

  lemma {:induction false} FollowSpec(s: Store, keep: CallRecord -> bool, cursor: Option<Key>, limit: nat)
    requires Wellformed(s) && limit >= 1
    ensures var pages := Follow(s, keep, cursor, limit);
            var all := Beyond(s, keep, cursor);
            && Flatten(pages) == all
            && |pages| == PageCount(|all|, limit)
            && (forall i :: 0 <= i < |pages| - 1 ==> |pages[i]| == limit)
    decreases |Beyond(s, keep, cursor)|
  {
    hide Beyond, ListPage, Wellformed;
    var all := Beyond(s, keep, cursor);
    var page := ListPage(s, keep, cursor, limit);
    var pages := Follow(s, keep, cursor, limit);
    PageSpec(s, keep, cursor, limit);
    if |all| > limit {
      FollowSpec(s, keep, page.next, limit);
      var rest := Follow(s, keep, page.next, limit);
      assert pages == [page.calls] + rest && pages[1..] == rest;
      assert all == all[..limit] + all[limit..];
    } else {
      assert pages == [all] && pages[1..] == [];
      assert all + [] == all;
    }
  }

  /** Paging is exact: following the cursor from the start over a fixed store returns every call that
      passes the filter exactly once, strictly newest first, in max(1, ceil(n / limit)) pages (PageCountIsCeiling). */
  lemma PagingIsExact(s: Store, keep: CallRecord -> bool, limit: nat)
    requires Wellformed(s) && limit >= 1
    ensures var pages := Follow(s, keep, None, limit);
            var calls := Flatten(pages);
            && NewestFirst(calls)
            && (forall c :: c in calls <==> c.id in s.rows && s.rows[c.id].call == c && keep(c))
            && |pages| == PageCount(|calls|, limit)
  {
    FollowSpec(s, keep, None, limit);
    BeyondSpec(s, keep, None);
    DescendingIsNewestFirst(Beyond(s, keep, None));
  }

  /** A call that arrives with a key above the cursor changes no later page. */
  lemma InsertionAboveCursor(s: Store, call: CallRecord, keep: CallRecord -> bool, cursor: Key, limit: nat)
    requires Wellformed(s) && call.id !in s.rows && limit >= 1
    requires !KeyLess(KeyOf(call), cursor)
    ensures var t := CreateCall(s, call).0;
            Wellformed(t) && Follow(t, keep, Some(cursor), limit) == Follow(s, keep, Some(cursor), limit)
  {
    hide Beyond, Follow, KeyLess;
    var t := CreateCall(s, call).0;
    if t != s {
      assert t.order == s.order + [call.id];
      BeyondSpec(s, keep, Some(cursor));
      BeyondSpec(t, keep, Some(cursor));
      DescendingUnique(Beyond(t, keep, Some(cursor)), Beyond(s, keep, Some(cursor)));
      SameBeyondSameFollow(s, t, keep, Some(cursor), limit);
    }
  }

  lemma {:induction false} SameBeyondSameFollow(
    s: Store, t: Store, keep: CallRecord -> bool, cursor: Option<Key>, limit: nat)
    requires Wellformed(s) && Wellformed(t) && limit >= 1
    requires Beyond(s, keep, cursor) == Beyond(t, keep, cursor)
    ensures Follow(s, keep, cursor, limit) == Follow(t, keep, cursor, limit)
    decreases |Beyond(s, keep, cursor)|
  {
    hide Beyond, ListPage, Wellformed;
    var page := ListPage(s, keep, cursor, limit);
    PageSpec(s, keep, cursor, limit);
    PageSpec(t, keep, cursor, limit);
    if page.next.Some? {
      SameBeyondSameFollow(s, t, keep, page.next, limit);
    }
  }
}
