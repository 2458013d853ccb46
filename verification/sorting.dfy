/** Stable sorting by a total order: the stand-in for the library sort the program calls. */
module Sorting {
  ghost predicate TotalOrder<T(!new)>(leq: (T, T) -> bool) {
    && (forall a, b :: leq(a, b) || leq(b, a))
    && (forall a, b, c :: leq(a, b) && leq(b, c) ==> leq(a, c))
  }

  ghost predicate Sorted<T>(leq: (T, T) -> bool, s: seq<T>) {
    forall i, j :: 0 <= i < j < |s| ==> leq(s[i], s[j])
  }

  function Insert<T>(leq: (T, T) -> bool, x: T, s: seq<T>): seq<T> {
    if s == [] || leq(x, s[0]) then [x] + s else [s[0]] + Insert(leq, x, s[1..])
  }

  function Sort<T>(leq: (T, T) -> bool, s: seq<T>): seq<T> {
    if s == [] then [] else Insert(leq, s[0], Sort(leq, s[1..]))
  }

  lemma {:induction false} InsertCounts<T(!new)>(leq: (T, T) -> bool, x: T, s: seq<T>)
    ensures multiset(Insert(leq, x, s)) == multiset{x} + multiset(s)
  {
    if s == [] || leq(x, s[0]) {
    } else {
      InsertCounts(leq, x, s[1..]);
      assert s == [s[0]] + s[1..];
    }
  }

  lemma InsertMembers<T(!new)>(leq: (T, T) -> bool, x: T, s: seq<T>, y: T)
    requires y in Insert(leq, x, s)
    ensures y == x || y in s
  {
    InsertCounts(leq, x, s);
    assert y in multiset(Insert(leq, x, s));
  }

  lemma {:induction false} InsertKeepsOrder<T(!new)>(leq: (T, T) -> bool, x: T, s: seq<T>)
    requires TotalOrder(leq) && Sorted(leq, s)
    ensures Sorted(leq, Insert(leq, x, s))
  {
    if s == [] {
    } else if leq(x, s[0]) {
      forall j | 0 <= j < |s| ensures leq(x, s[j]) {
        assert leq(s[0], s[j]);
      }
    } else {
      var rest := Insert(leq, x, s[1..]);
      InsertKeepsOrder(leq, x, s[1..]);
      assert leq(s[0], x);
      forall k | 0 <= k < |rest| ensures leq(s[0], rest[k]) {
        InsertMembers(leq, x, s[1..], rest[k]);
      }
    }
  }

  lemma {:induction false} SortSorts<T(!new)>(leq: (T, T) -> bool, s: seq<T>)
    ensures multiset(Sort(leq, s)) == multiset(s)
    ensures TotalOrder(leq) ==> Sorted(leq, Sort(leq, s))
  {
    if s != [] {
      SortSorts(leq, s[1..]);
      InsertCounts(leq, s[0], Sort(leq, s[1..]));
      assert s == [s[0]] + s[1..];
      if TotalOrder(leq) { InsertKeepsOrder(leq, s[0], Sort(leq, s[1..])); }
    }
  }

  lemma SortHasSameElements<T(!new)>(leq: (T, T) -> bool, s: seq<T>)
    ensures |Sort(leq, s)| == |s|
    ensures forall x :: x in Sort(leq, s) <==> x in s
  {
    SortSorts(leq, s);
    assert |multiset(s)| == |s| && |multiset(Sort(leq, s))| == |Sort(leq, s)|;
    forall x ensures x in Sort(leq, s) <==> x in s {
      assert x in multiset(s) <==> x in s;
      assert x in multiset(Sort(leq, s)) <==> x in Sort(leq, s);
    }
  }

  predicate NoRepeats<T(==)>(s: seq<T>) {
    forall i, j :: 0 <= i < j < |s| ==> s[i] != s[j]
  }

  lemma NoRepeatsIsCountOne<T(!new)>(s: seq<T>)
    ensures NoRepeats(s) <==> forall x :: multiset(s)[x] <= 1
  {
    if NoRepeats(s) {
      forall x ensures multiset(s)[x] <= 1 { CountAtMostOne(s, x); }
    } else {
      var i, j :| 0 <= i < j < |s| && s[i] == s[j];
      assert s == s[..j] + [s[j]] + s[j + 1..];
      assert s[i] in s[..j];
      assert multiset(s)[s[j]] >= 2;
    }
  }

  lemma {:induction false} CountAtMostOne<T(!new)>(s: seq<T>, x: T)
    requires NoRepeats(s)
    ensures multiset(s)[x] <= 1
  {
    if s != [] {
      assert s == [s[0]] + s[1..];
      CountAtMostOne(s[1..], x);
      if s[0] == x {
        assert x !in s[1..];
      }
    }
  }

  lemma SortKeepsNoRepeats<T(!new)>(leq: (T, T) -> bool, s: seq<T>)
    requires NoRepeats(s)
    ensures NoRepeats(Sort(leq, s))
  {
    SortSorts(leq, s);
    NoRepeatsIsCountOne(s);
    NoRepeatsIsCountOne(Sort(leq, s));
  }

  function Filter<T>(p: T -> bool, s: seq<T>): seq<T> {
    if s == [] then [] else (if p(s[0]) then [s[0]] else []) + Filter(p, s[1..])
  }

  lemma {:induction false} FilterKeeps<T(!new)>(p: T -> bool, s: seq<T>)
    ensures forall x :: x in Filter(p, s) <==> x in s && p(x)
    ensures |Filter(p, s)| <= |s|
    ensures NoRepeats(s) ==> NoRepeats(Filter(p, s))
  {
    if s != [] {
      assert s == [s[0]] + s[1..];
      FilterKeeps(p, s[1..]);
    }
  }

  lemma {:induction false} FilterKeepsOrder<T(!new)>(leq: (T, T) -> bool, p: T -> bool, s: seq<T>)
    requires Sorted(leq, s)
    ensures Sorted(leq, Filter(p, s))
  {
    if s != [] {
      FilterKeepsOrder(leq, p, s[1..]);
      FilterKeeps(p, s[1..]);
      forall k | 0 <= k < |Filter(p, s[1..])| ensures leq(s[0], Filter(p, s[1..])[k]) {
        assert Filter(p, s[1..])[k] in s[1..];
      }
    }
  }

  lemma SortedFirst<T(!new)>(leq: (T, T) -> bool, a: seq<T>, b: seq<T>)
    requires a != [] && b != [] && Sorted(leq, a) && Sorted(leq, b) && multiset(a) == multiset(b)
    requires forall x, y :: x in a && y in a && leq(x, y) && leq(y, x) ==> x == y
    ensures a[0] == b[0] && multiset(a[1..]) == multiset(b[1..])
  {
    assert a[0] in multiset(a) && b[0] in multiset(b);
    var j :| 0 <= j < |b| && b[j] == a[0];
    var k :| 0 <= k < |a| && a[k] == b[0];
    assert a[0] == b[0];
    TailCounts(a);
    TailCounts(b);
  }

  lemma TailCounts<T(!new)>(a: seq<T>)
    requires a != []
    ensures multiset(a[1..]) == multiset(a) - multiset{a[0]}
  {
    assert a == [a[0]] + a[1..];
  }

  /** Two sorted sequences with the same elements are equal when the order tells their elements apart. */
  lemma {:induction false} SortedIsUnique<T(!new)>(leq: (T, T) -> bool, a: seq<T>, b: seq<T>)
    requires Sorted(leq, a) && Sorted(leq, b) && multiset(a) == multiset(b)
    requires forall x, y :: x in a && y in a && leq(x, y) && leq(y, x) ==> x == y
    ensures a == b
  {
    assert |a| == |multiset(a)| == |multiset(b)| == |b|;
    if a != [] {
      SortedFirst(leq, a, b);
      SortedIsUnique(leq, a[1..], b[1..]);
      assert a == [a[0]] + a[1..] && b == [b[0]] + b[1..];
    }
  }

  lemma {:induction false} FilterCounts<T(!new)>(p: T -> bool, s: seq<T>, x: T)
    ensures multiset(Filter(p, s))[x] == if p(x) then multiset(s)[x] else 0
  {
    if s != [] {
      assert s == [s[0]] + s[1..];
      FilterCounts(p, s[1..], x);
    }
  }

  lemma FilterIgnoresOrder<T(!new)>(p: T -> bool, a: seq<T>, b: seq<T>)
    requires multiset(a) == multiset(b)
    ensures multiset(Filter(p, a)) == multiset(Filter(p, b))
  {
    forall x ensures multiset(Filter(p, a))[x] == multiset(Filter(p, b))[x] {
      FilterCounts(p, a, x);
      FilterCounts(p, b, x);
    }
  }

  lemma {:induction false} FilterConcat<T(!new)>(p: T -> bool, a: seq<T>, b: seq<T>)
    ensures Filter(p, a + b) == Filter(p, a) + Filter(p, b)
  {
    if a == [] {
      assert a + b == b;
    } else {
      var first := if p(a[0]) then [a[0]] else [];
      assert (a + b)[0] == a[0] && (a + b)[1..] == a[1..] + b;
      assert Filter(p, a + b) == first + Filter(p, a[1..] + b);
      FilterConcat(p, a[1..], b);
      assert first + (Filter(p, a[1..]) + Filter(p, b)) == (first + Filter(p, a[1..])) + Filter(p, b);
    }
  }

  lemma {:induction false} FilterAllOrNothing<T(!new)>(p: T -> bool, s: seq<T>)
    ensures (forall x <- s :: p(x)) ==> Filter(p, s) == s
    ensures (forall x <- s :: !p(x)) ==> Filter(p, s) == []
  {
    if s != [] {
      assert s == [s[0]] + s[1..] && s[0] in s;
      FilterAllOrNothing(p, s[1..]);
    }
  }

  // ---------------------------------------------------------------- stability

  /** The predicate picks elements that the order does not tell apart. */
  ghost predicate PicksEquals<T(!new)>(leq: (T, T) -> bool, p: T -> bool) {
    forall a, b :: p(a) && p(b) ==> leq(a, b)
  }

  lemma {:induction false} InsertIsStable<T(!new)>(leq: (T, T) -> bool, p: T -> bool, x: T, s: seq<T>)
    requires PicksEquals(leq, p)
    ensures Filter(p, Insert(leq, x, s)) == Filter(p, [x] + s)
  {
    FilterConcat(p, [x], s);
    if s != [] && !leq(x, s[0]) {
      var rest := Insert(leq, x, s[1..]);
      InsertIsStable(leq, p, x, s[1..]);
      FilterConcat(p, [x], s[1..]);
      FilterConcat(p, [s[0]], rest);
      FilterConcat(p, [s[0]], s[1..]);
      assert s == [s[0]] + s[1..];
      FilterOne(p, x);
      FilterOne(p, s[0]);
    }
  }

  lemma FilterOne<T(!new)>(p: T -> bool, x: T)
    ensures Filter(p, [x]) == if p(x) then [x] else []
  {
    assert [x][1..] == [];
  }

  /** Elements the order does not tell apart keep their places relative to each other. */
  lemma {:induction false} SortIsStable<T(!new)>(leq: (T, T) -> bool, p: T -> bool, s: seq<T>)
    requires PicksEquals(leq, p)
    ensures Filter(p, Sort(leq, s)) == Filter(p, s)
  {
    if s != [] {
      var rest := Sort(leq, s[1..]);
      SortIsStable(leq, p, s[1..]);
      InsertIsStable(leq, p, s[0], rest);
      FilterConcat(p, [s[0]], rest);
      FilterConcat(p, [s[0]], s[1..]);
      assert s == [s[0]] + s[1..];
    }
  }

  /** The elements that the order does not tell apart from one. */
  function Like<T(!new)>(leq: (T, T) -> bool, x: T): T -> bool {
    y => leq(x, y) && leq(y, x)
  }

  /** Two sorted sequences are equal if all their groups of like elements are. */
  lemma {:induction false} SortedByGroups<T(!new)>(leq: (T, T) -> bool, a: seq<T>, b: seq<T>)
    requires TotalOrder(leq) && Sorted(leq, a) && Sorted(leq, b) && |a| == |b|
    requires forall x :: Filter(Like(leq, x), a) == Filter(Like(leq, x), b)
    ensures a == b
  {
    if a != [] {
      SameFirst(leq, a, b);
      var first := a[0];
      forall x ensures Filter(Like(leq, x), a[1..]) == Filter(Like(leq, x), b[1..]) {
        var like := Like(leq, x);
        var head := if like(first) then [first] else [];
        assert Filter(like, a) == head + Filter(like, a[1..]) && Filter(like, b) == head + Filter(like, b[1..]);
        assert Filter(like, a[1..]) == Filter(like, a)[|head|..];
        assert Filter(like, b[1..]) == Filter(like, b)[|head|..];
      }
      SortedByGroups(leq, a[1..], b[1..]);
      assert a == [a[0]] + a[1..] && b == [b[0]] + b[1..];
    }
  }

  lemma SameFirst<T(!new)>(leq: (T, T) -> bool, a: seq<T>, b: seq<T>)
    requires TotalOrder(leq) && Sorted(leq, a) && Sorted(leq, b) && a != [] && b != []
    requires forall x :: Filter(Like(leq, x), a) == Filter(Like(leq, x), b)
    ensures a[0] == b[0]
  {
    var x, y := a[0], b[0];
    assert leq(x, x) && leq(y, y);
    FilterKeeps(Like(leq, x), a);
    FilterKeeps(Like(leq, x), b);
    FilterKeeps(Like(leq, y), a);
    FilterKeeps(Like(leq, y), b);
    assert x in Filter(Like(leq, x), a) && y in Filter(Like(leq, y), b);
    assert x in b && y in a;
    FirstIsLeast(leq, a, y);
    FirstIsLeast(leq, b, x);
    assert Filter(Like(leq, x), a)[0] == x && Filter(Like(leq, x), b)[0] == y;
  }

  lemma FirstIsLeast<T(!new)>(leq: (T, T) -> bool, s: seq<T>, x: T)
    requires TotalOrder(leq) && Sorted(leq, s) && x in s
    ensures leq(s[0], x)
  {
    assert leq(x, x);
  }
}
