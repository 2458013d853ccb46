/** Purged walk-forward splits (ml/split.py). */
module WalkForward {
  /** All durations in days; times in days since some epoch, as the rows' as_of dates are used. */
  datatype Config = Config(train: int, validation: int, test: int, step: int, purge: int, expanding: bool)

  datatype Window = Window(start: real, end: real) {
    predicate Holds(t: real) { start <= t < end }
  }

  datatype Split = Split(fold: nat, train: seq<real>, validation: seq<real>, test: seq<real>)

  predicate Accepted(c: Config) {
    c.train > 0 && c.validation > 0 && c.test > 0 && c.step > 0 && c.purge > 0
  }

  function Days(n: int): real { n as real }

  function Offset(c: Config, fold: nat): real { Days(fold * c.step) }

  function Train(c: Config, first: real, fold: nat): Window {
    Window(if c.expanding then first else first + Offset(c, fold), first + Days(c.train) + Offset(c, fold))
  }

  function Validation(c: Config, first: real, fold: nat): Window {
    var start := Train(c, first, fold).end + Days(c.purge);
    Window(start, start + Days(c.validation))
  }

  function Test(c: Config, first: real, fold: nat): Window {
    var start := Validation(c, first, fold).end + Days(c.purge);
    Window(start, start + Days(c.test))
  }

  function Rows(times: seq<real>, w: Window): (r: seq<real>)
    ensures forall t :: t in r <==> t in times && w.Holds(t)
    decreases |times|
  {
    if times == [] then [] else (if w.Holds(times[0]) then [times[0]] else []) + Rows(times[1..], w)
  }

  function SplitOf(c: Config, times: seq<real>, first: real, fold: nat): Split {
    Split(fold, Rows(times, Train(c, first, fold)), Rows(times, Validation(c, first, fold)), Rows(times, Test(c, first, fold)))
  }

  /** A fold is made while it ends within a day of the last row and none of its parts is empty. */
  predicate Made(c: Config, times: seq<real>, first: real, last: real, fold: nat) {
    var s := SplitOf(c, times, first, fold);
    Test(c, first, fold).end <= last + 1.0 && s.train != [] && s.validation != [] && s.test != []
  }

  ghost predicate Bounds(times: seq<real>, first: real, last: real) {
    first in times && last in times && forall t <- times :: first <= t <= last
  }

  method Extremes(times: seq<real>) returns (first: real, last: real)
    requires times != []
    ensures Bounds(times, first, last)
  {
    first, last := times[0], times[0];
    for n := 1 to |times|
      invariant first in times && last in times && forall k :: 0 <= k < n ==> first <= times[k] <= last
    {
      if times[n] < first { first := times[n]; }
      if times[n] > last { last := times[n]; }
    }
  }

  function DaysBetween(first: real, last: real): int { (last - first).Floor }

  lemma OffsetGrows(c: Config, first: real, last: real, fold: nat)
    requires Accepted(c) && Test(c, first, fold).end <= last + 1.0
    ensures fold <= DaysBetween(first, last) + 1
  {
    assert fold * c.step >= fold;
    assert Offset(c, fold) >= fold as real;
  }

  /** The folds from zero up to the first one that cannot be made; the loop ends because every fold ends later. */
  method SplitAll(c: Config, times: seq<real>) returns (splits: seq<Split>)
    requires Accepted(c)
    ensures times == [] ==> splits == []
    ensures forall first, last :: Bounds(times, first, last) ==>
      && (forall k :: 0 <= k < |splits| ==> splits[k] == SplitOf(c, times, first, k) && Made(c, times, first, last, k))
      && !Made(c, times, first, last, |splits|)
  {
    splits := [];
    if times == [] { return; }
    var first, last := Extremes(times);
    var fold := 0;
    while true
      invariant fold == |splits|
      invariant forall k :: 0 <= k < fold ==> splits[k] == SplitOf(c, times, first, k) && Made(c, times, first, last, k)
      invariant fold > 0 ==> fold - 1 <= DaysBetween(first, last) + 1
      decreases DaysBetween(first, last) + 3 - fold
    {
      hide SplitOf, Test, DaysBetween;
      if Test(c, first, fold).end > last + 1.0 { break; }
      var s := SplitOf(c, times, first, fold);
      if s.train == [] || s.validation == [] || s.test == [] { break; }
      OffsetGrows(c, first, last, fold);
      splits := splits + [s];
      fold := fold + 1;
    }
    forall f, l | Bounds(times, f, l) ensures f == first && l == last {
      assert first <= f && f <= first && l <= last && last <= l;
    }
  }

  /** Within a fold every row of a later part comes more than the purge gap after every row of an earlier part. */
  lemma PartsAreApart(c: Config, times: seq<real>, first: real, fold: nat)
    requires Accepted(c)
    ensures var s := SplitOf(c, times, first, fold);
      && (forall a <- s.train, b <- s.validation :: b - a > Days(c.purge))
      && (forall a <- s.validation, b <- s.test :: b - a > Days(c.purge))
      && (forall a <- s.train, b <- s.test :: b - a > 2.0 * Days(c.purge) + Days(c.validation))
  {
    hide Offset;
  }

  /** Test parts of different folds share no row exactly when a step is at least as long as a test. */
  lemma TestsAreDisjointIffStepIsLong(c: Config, first: real)
    requires Accepted(c)
    ensures c.step >= c.test <==>
      forall m: nat, n: nat, t: real :: m < n ==> !(Test(c, first, m).Holds(t) && Test(c, first, n).Holds(t))
  {
    if c.step >= c.test {
      forall m: nat, n: nat, t: real | m < n && Test(c, first, m).Holds(t) ensures !Test(c, first, n).Holds(t) {
        StepsAdd(c, m, n);
      }
    } else {
      var t := Test(c, first, 1).start;
      StepsAdd(c, 0, 1);
      assert Offset(c, 1) == Offset(c, 0) + Days(c.step);
      assert Test(c, first, 0).Holds(t) && Test(c, first, 1).Holds(t);
    }
  }

  lemma StepsAdd(c: Config, m: nat, n: nat)
    requires Accepted(c) && m < n
    ensures Offset(c, n) >= Offset(c, m) + Days(c.step)
  {
    WholeSteps(m, n, c.step);
    assert (m * c.step + c.step) as real == Offset(c, m) + Days(c.step);
  }

  lemma WholeSteps(m: int, n: int, step: int)
    requires m + 1 <= n && 0 < step
    ensures n * step >= m * step + step
  {
    assert (n - m - 1) * step >= 0;
  }
}
