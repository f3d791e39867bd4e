/** Python's stable `sorted`, as insertion from the left. */
module Sorting {

  ghost predicate WeakOrder<T(!new)>(before: (T, T) -> bool) {
    && (forall a, b :: before(a, b) ==> !before(b, a))
    && (forall a, b, c :: !before(a, b) && !before(b, c) ==> !before(a, c))
  }

  ghost predicate Sorted<T>(s: seq<T>, before: (T, T) -> bool) {
    forall i, j :: 0 <= i < j < |s| ==> !before(s[j], s[i])
  }

  /** `x` goes behind the elements it does not precede: equal keys keep their order. */
  function Insert<T>(s: seq<T>, x: T, before: (T, T) -> bool): (r: seq<T>)
    ensures multiset(r) == multiset(s) + multiset{x}
  {
    if s == [] then [x]
    else
      var front, last := s[..|s| - 1], s[|s| - 1];
      assert s == front + [last];
      if before(x, last) then Insert(front, x, before) + [last] else s + [x]
  }

  function Sort<T>(s: seq<T>, before: (T, T) -> bool): (r: seq<T>)
    ensures multiset(r) == multiset(s)
    ensures |r| == |s|
  {
    if s == [] then []
    else
      assert s == s[..|s| - 1] + [s[|s| - 1]];
      var r := Insert(Sort(s[..|s| - 1], before), s[|s| - 1], before);
      assert |multiset(r)| == |multiset(s)|;
      r
  }

  lemma MultisetMembers<T>(a: seq<T>, b: seq<T>)
    requires multiset(a) == multiset(b)
    ensures forall x :: x in a <==> x in b
  {
    forall x ensures x in a <==> x in b {
      assert x in a <==> x in multiset(a);
      assert x in b <==> x in multiset(b);
    }
  }

  lemma {:induction false} InsertSorts<T(!new)>(s: seq<T>, x: T, before: (T, T) -> bool)
    requires WeakOrder(before) && Sorted(s, before)
    ensures Sorted(Insert(s, x, before), before)
  {
    if s != [] {
      var front, last := s[..|s| - 1], s[|s| - 1];
      assert s == front + [last];
      if before(x, last) {
        InsertSorts(front, x, before);
        var r := Insert(front, x, before);
        forall y | y in r ensures !before(last, y) {
          assert y in multiset(r);
          if y in front {
            var i :| 0 <= i < |front| && front[i] == y;
          } else {
            assert y in multiset{x};
          }
        }
      } else {
        forall i | 0 <= i < |s| ensures !before(x, s[i]) {
          assert i < |s| - 1 ==> !before(last, s[i]);
        }
      }
    }
  }

  lemma {:induction false} SortSorts<T(!new)>(s: seq<T>, before: (T, T) -> bool)
    requires WeakOrder(before)
    ensures Sorted(Sort(s, before), before)
  {
    if s != [] {
      SortSorts(s[..|s| - 1], before);
      InsertSorts(Sort(s[..|s| - 1], before), s[|s| - 1], before);
    }
  }

  function Filter<T(!new)>(s: seq<T>, keep: T -> bool): (r: seq<T>)
    ensures forall x :: x in r <==> x in s && keep(x)
    ensures |r| <= |s|
  {
    if s == [] then []
    else
      var last := s[|s| - 1];
      assert s == s[..|s| - 1] + [last];
      Filter(s[..|s| - 1], keep) + if keep(last) then [last] else []
  }

  lemma FilterAppend<T(!new)>(s: seq<T>, x: T, keep: T -> bool)
    ensures Filter(s + [x], keep) == Filter(s, keep) + if keep(x) then [x] else []
  {
    assert (s + [x])[..|s|] == s;
  }

  lemma {:induction false} InsertKeepsTies<T(!new)>(s: seq<T>, x: T, before: (T, T) -> bool, tie: T -> bool)
    requires forall a, b :: tie(a) && tie(b) ==> !before(a, b)
    ensures Filter(Insert(s, x, before), tie) == Filter(s, tie) + if tie(x) then [x] else []
  {
    if s != [] {
      var front, last := s[..|s| - 1], s[|s| - 1];
      if before(x, last) {
        InsertKeepsTies(front, x, before, tie);
        FilterAppend(Insert(front, x, before), last, tie);
      } else {
        FilterAppend(s, x, tie);
      }
    }
  }

  /** Elements of which none comes before another keep the order they had. */
  lemma {:induction false} SortKeepsTies<T(!new)>(s: seq<T>, before: (T, T) -> bool, tie: T -> bool)
    requires forall a, b :: tie(a) && tie(b) ==> !before(a, b)
    ensures Filter(Sort(s, before), tie) == Filter(s, tie)
  {
    if s != [] {
      SortKeepsTies(s[..|s| - 1], before, tie);
      InsertKeepsTies(Sort(s[..|s| - 1], before), s[|s| - 1], before, tie);
    }
  }

  lemma {:induction false} FilterTwice<T(!new)>(s: seq<T>, f: T -> bool, g: T -> bool, both: T -> bool)
    requires forall x :: both(x) <==> f(x) && g(x)
    ensures Filter(Filter(s, f), g) == Filter(s, both)
  {
    if s != [] {
      var front, last := s[..|s| - 1], s[|s| - 1];
      FilterTwice(front, f, g, both);
      if f(last) {
        FilterAppend(Filter(front, f), last, g);
      } else {
        assert Filter(front, f) + [] == Filter(front, f) && Filter(front, both) + [] == Filter(front, both);
      }
    }
  }
}
