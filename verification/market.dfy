/** Candles and what is known of them at a time (domain/market.py). */
module Market {
  import opened Wrappers
  import opened Sorting

  datatype Candle = Candle(openTime: int, availableAt: int, open: real, close: real, volume: real)

  /** One common quote asset: a pair is named by its base asset. */
  datatype Bundle = Bundle(assets: seq<string>, candles: map<string, seq<Candle>>)

  ghost predicate Ordered(s: seq<Candle>) {
    forall i, j :: 0 <= i < j < |s| ==> s[i].openTime < s[j].openTime
  }

  ghost predicate Valid(b: Bundle) {
    && b.assets != [] && NoRepeats(b.assets)
    && (forall a <- b.assets :: a in b.candles)
    && (forall a <- b.candles :: Ordered(b.candles[a])
          && forall c <- b.candles[a] :: c.openTime <= c.availableAt && c.open > 0.0 && c.close > 0.0 && c.volume >= 0.0)
  }

  function Known(s: seq<Candle>, asOf: int): seq<Candle> {
    Filter((c: Candle) => c.availableAt <= asOf, s)
  }

  function KnownAt(b: Bundle, asOf: int): Bundle {
    Bundle(b.assets, map a | a in b.candles :: Known(b.candles[a], asOf))
  }

  /** A model that looks at the market only through what was known at the time it is asked about. */
  ghost predicate PointInTime<T(!new)>(f: (Bundle, int) -> T) {
    forall b, t :: f(b, t) == f(KnownAt(b, t), t)
  }

  lemma {:induction false} KnownTwice(s: seq<Candle>, earlier: int, later: int)
    requires earlier <= later
    ensures Known(Known(s, later), earlier) == Known(s, earlier)
  {
    if s != [] {
      KnownTwice(s[1..], earlier, later);
      var rest := Known(s[1..], later);
      if s[0].availableAt <= later {
        assert Known(s, later) == [s[0]] + rest;
        assert Known(s, later)[1..] == rest;
      } else {
        assert Known(s, later) == rest && Known(s, earlier) == Known(s[1..], earlier);
      }
    }
  }

  /** What was known earlier is a function of what is known later. */
  lemma EarlierKnowledge(b: Bundle, earlier: int, later: int)
    requires earlier <= later
    ensures KnownAt(KnownAt(b, later), earlier) == KnownAt(b, earlier)
  {
    forall a | a in b.candles { KnownTwice(b.candles[a], earlier, later); }
  }

  // ---------------------------------------------------------------- opens by time

  function OpenAt(s: seq<Candle>, time: int): Option<real> {
    if s == [] then None else if s[0].openTime == time then Some(s[0].open) else OpenAt(s[1..], time)
  }

  lemma {:induction false} OpenAtIsLookup(s: seq<Candle>, time: int)
    requires Ordered(s)
    ensures forall c <- s :: c.openTime == time ==> OpenAt(s, time) == Some(c.open)
    ensures OpenAt(s, time).Some? ==> exists c <- s :: c.openTime == time && c.open == OpenAt(s, time).value
  {
    if s != [] {
      OpenAtIsLookup(s[1..], time);
      assert s == [s[0]] + s[1..];
    }
  }

  predicate CommonOpen(b: Bundle, time: int)
    requires forall a <- b.assets :: a in b.candles
  {
    forall a <- b.assets :: OpenAt(b.candles[a], time).Some?
  }

  function OpenTimes(s: seq<Candle>): seq<int> {
    if s == [] then [] else [s[0].openTime] + OpenTimes(s[1..])
  }

  /** Open times that every pair has, within the period, ascending. */
  function Timeline(b: Bundle, start: int, end: int): seq<int>
    requires Valid(b)
  {
    Filter((t: int) => start <= t < end && CommonOpen(b, t), OpenTimes(b.candles[b.assets[0]]))
  }

  ghost predicate Ascending(s: seq<int>) {
    forall i, j :: 0 <= i < j < |s| ==> s[i] < s[j]
  }

  lemma {:induction false} OpenTimesAscend(s: seq<Candle>)
    requires Ordered(s)
    ensures Ascending(OpenTimes(s)) && |OpenTimes(s)| == |s|
    ensures forall t :: t in OpenTimes(s) <==> OpenAt(s, t).Some?
    ensures forall k :: 0 <= k < |s| ==> OpenTimes(s)[k] == s[k].openTime
  {
    if s != [] { OpenTimesAscend(s[1..]); }
  }

  lemma {:induction false} FilterAscends(p: int -> bool, s: seq<int>)
    requires Ascending(s)
    ensures Ascending(Filter(p, s))
  {
    if s != [] {
      FilterAscends(p, s[1..]);
      FilterKeeps(p, s[1..]);
      forall k | 0 <= k < |Filter(p, s[1..])| ensures s[0] < Filter(p, s[1..])[k] {
        assert Filter(p, s[1..])[k] in s[1..];
      }
    }
  }

  lemma TimelineIsCommonOpens(b: Bundle, start: int, end: int)
    requires Valid(b)
    ensures Ascending(Timeline(b, start, end))
    ensures forall t :: t in Timeline(b, start, end) <==> start <= t < end && CommonOpen(b, t)
  {
    var first := b.candles[b.assets[0]];
    var p := (t: int) => start <= t < end && CommonOpen(b, t);
    OpenTimesAscend(first);
    FilterAscends(p, OpenTimes(first));
    FilterKeeps(p, OpenTimes(first));
    assert b.assets[0] in b.assets;
  }

  /** Two ascending sequences with the same members up to a bound agree position by position up to it. */
  lemma {:induction false} AscendingAgree(a: seq<int>, b: seq<int>, bound: int, n: nat)
    requires Ascending(a) && Ascending(b) && forall t :: t <= bound ==> (t in a <==> t in b)
    requires n < |a| && a[n] <= bound
    ensures n < |b| && b[n] == a[n]
  {
    forall k | 0 <= k < n ensures k < |b| && b[k] == a[k] {
      AscendingAgree(a, b, bound, k);
    }
    assert a[n] in b;
    var j :| 0 <= j < |b| && b[j] == a[n];
    assert j >= n;
    assert b[n] <= b[j] && b[n] in b;
    assert b[n] in a;
    var m :| 0 <= m < |a| && a[m] == b[n];
    assert m >= n;
  }

  lemma AscendingIsUnique(a: seq<int>, b: seq<int>)
    requires Ascending(a) && Ascending(b) && forall t :: t in a <==> t in b
    ensures a == b
  {
    if |a| > |b| {
      AscendingAgree(a, b, a[|b|], |b|);
    } else if |b| > |a| {
      AscendingAgree(b, a, b[|a|], |a|);
    } else {
      forall n | 0 <= n < |a| ensures b[n] == a[n] { AscendingAgree(a, b, a[n], n); }
    }
  }
}
