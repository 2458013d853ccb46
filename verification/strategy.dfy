/** What a strategy is given and what it answers (ports/strategy.py, domain/signal.py). */
module Strategies {
  import opened Wrappers
  import opened Sorting
  import opened Market

  datatype Regime = RiskOn | Neutral | RiskOff

  datatype Signal = Signal(asset: string, long: bool, strength: real)

  datatype StrategyResult = StrategyResult(regime: Regime, signals: seq<Signal>)

  /** A strategy sees the whole market, the time, the regime and the eligible assets, if they are restricted. */
  type Strategy = (Bundle, int, Regime, Option<seq<string>>) -> StrategyResult

  /** The strategy looks at the market only through what was known at the time it is asked about. */
  ghost predicate SeesOnlyKnown(f: Strategy) {
    forall b, t, regime, eligible :: f(b, t, regime, eligible) == f(KnownAt(b, t), t, regime, eligible)
  }

  /** The assets signalled long, in order. */
  function Longs(signals: seq<Signal>): seq<string> {
    if signals == [] then [] else (if signals[0].long then [signals[0].asset] else []) + Longs(signals[1..])
  }

  lemma {:induction false} AllLong(signals: seq<Signal>)
    requires forall x <- signals :: x.long
    ensures |Longs(signals)| == |signals| && forall k :: 0 <= k < |signals| ==> Longs(signals)[k] == signals[k].asset
  {
    if signals != [] {
      assert signals[0] in signals && forall x <- signals[1..] :: x in signals;
      AllLong(signals[1..]);
    }
  }
}

/** Cross-sectional momentum (strategy/momentum.py). */
module Momentum {
  import opened Wrappers
  import opened Reals
  import opened Sorting
  import opened Market
  import opened Strategies
  import TextOrder

  datatype Parameters = Parameters(lookback: nat, maximumAssets: nat, minimumLiquidity: real)

  datatype Ranked = Ranked(score: real, asset: string)

  function TradedValue(s: seq<Candle>): real {
    if s == [] then 0.0 else s[0].close * s[0].volume + TradedValue(s[1..])
  }

  /** The score of one pair, if it has the history, the liquidity and a rising price. */
  function CandidateScore(p: Parameters, s: seq<Candle>): (r: Option<real>)
    requires forall c <- s :: c.close > 0.0
    ensures r.Some? ==> r.value > 0.0
  {
    if p.lookback == 0 || |s| < p.lookback + 1 then None else
      var window := s[|s| - p.lookback..];
      if TradedValue(window) / |window| as real < p.minimumLiquidity then None else
        var base := s[|s| - p.lookback - 1];
        assert base in s;
        var score := s[|s| - 1].close / base.close - 1.0;
        if score > 0.0 then Some(score) else None
  }

  /** What the ranking needs of a market: every pair has candles, and prices are positive. */
  predicate Usable(b: Bundle) {
    (forall a <- b.assets :: a in b.candles) && forall a <- b.candles :: forall c <- b.candles[a] :: c.close > 0.0
  }

  function CandidateFor(p: Parameters, known: Bundle, eligible: Option<seq<string>>, asset: string): (r: Option<real>)
    requires Usable(known) && asset in known.candles
    ensures r.Some? ==> r.value > 0.0
  {
    if eligible.Some? && asset !in eligible.value then None else CandidateScore(p, known.candles[asset])
  }

  function Candidates(p: Parameters, known: Bundle, eligible: Option<seq<string>>, assets: seq<string>): seq<Ranked>
    requires Usable(known) && forall a <- assets :: a in known.candles
  {
    if assets == [] then [] else
      var last := |assets| - 1;
      var score := CandidateFor(p, known, eligible, assets[last]);
      Candidates(p, known, eligible, assets[..last]) + (if score.Some? then [Ranked(score.value, assets[last])] else [])
  }

  predicate Stronger(a: Ranked, b: Ranked) {
    a.score > b.score || (a.score == b.score && !TextOrder.Before(b.asset, a.asset))
  }

  function Best(ranked: seq<Ranked>): real {
    if ranked == [] then 0.0
    else if |ranked| == 1 then ranked[0].score
    else Max(ranked[|ranked| - 1].score, Best(ranked[..|ranked| - 1]))
  }

  /** The score as a share of the best one. */
  function Strength(score: real, best: real): real {
    if best != 0.0 then Min(score / best, 1.0) else 0.0
  }

  function ToSignals(ranked: seq<Ranked>, best: real): (r: seq<Signal>)
    ensures |r| == |ranked|
    ensures forall k :: 0 <= k < |r| ==> r[k] == Signal(ranked[k].asset, true, Strength(ranked[k].score, best))
  {
    if ranked == [] then [] else
      [Signal(ranked[0].asset, true, Strength(ranked[0].score, best))] + ToSignals(ranked[1..], best)
  }

  /** The strongest candidates in the known part of the market. */
  function Top(p: Parameters, known: Bundle, eligible: Option<seq<string>>): seq<Ranked>
    requires Usable(known)
  {
    var ranked := Sort(Stronger, Candidates(p, known, eligible, known.assets));
    if |ranked| <= p.maximumAssets then ranked else ranked[..p.maximumAssets]
  }

  /** The assets signalled long, strongest first, computed from the known part of the market. */
  function Signals(p: Parameters, known: Bundle, regime: Regime, eligible: Option<seq<string>>): seq<Signal>
    requires Usable(known)
  {
    if regime.RiskOff? then [] else
      var top := Top(p, known, eligible);
      ToSignals(top, Best(top))
  }

  /** The strategy as a function; markets that cannot exist give no signals. */
  function Strategy(p: Parameters): Strategies.Strategy {
    (b: Bundle, t: int, regime: Regime, eligible: Option<seq<string>>) =>
      StrategyResult(regime, if Usable(KnownAt(b, t)) then Signals(p, KnownAt(b, t), regime, eligible) else [])
  }

  method Collect(p: Parameters, known: Bundle, eligible: Option<seq<string>>) returns (candidates: seq<Ranked>)
    requires Usable(known)
    ensures candidates == Candidates(p, known, eligible, known.assets)
  {
    hide CandidateScore;
    candidates := [];
    for i := 0 to |known.assets|
      invariant candidates == Candidates(p, known, eligible, known.assets[..i])
    {
      var asset := known.assets[i];
      assert known.assets[..i + 1][..i] == known.assets[..i];
      if eligible.Some? && asset !in eligible.value {
        continue;
      }
      var score := CandidateScore(p, known.candles[asset]);
      if score.Some? {
        candidates := candidates + [Ranked(score.value, asset)];
      }
    }
    assert known.assets[..|known.assets|] == known.assets;
  }

  method BestOf(ranked: seq<Ranked>) returns (best: real)
    ensures best == Best(ranked)
  {
    if ranked == [] {
      return 0.0;
    }
    best := ranked[0].score;
    assert ranked[..1] == [ranked[0]];
    for i := 1 to |ranked|
      invariant best == Best(ranked[..i])
    {
      assert ranked[..i + 1][..i] == ranked[..i];
      best := Max(ranked[i].score, best);
    }
    assert ranked[..|ranked|] == ranked;
  }

  method Generate(p: Parameters, market: Bundle, asOf: int, regime: Regime, eligible: Option<seq<string>>)
      returns (r: StrategyResult)
    requires Valid(market)
    ensures r == Strategy(p)(market, asOf, regime, eligible)
  {
    KnownIsValid(market, asOf);
    ValidIsUsable(KnownAt(market, asOf));
    hide Candidates, Stronger, Sort, ToSignals, KnownAt, Usable, Best;
    var known := KnownAt(market, asOf);
    if regime.RiskOff? {
      return StrategyResult(regime, []);
    }
    var candidates := Collect(p, known, eligible);
    var ranked := Sort(Stronger, candidates);
    var top := if |ranked| <= p.maximumAssets then ranked else ranked[..p.maximumAssets];
    var best := BestOf(top);
    r := StrategyResult(regime, ToSignals(top, best));
  }

  lemma ValidIsUsable(b: Bundle)
    requires Valid(b)
    ensures Usable(b)
  {
  }

  /** Momentum never looks ahead. */
  lemma SeesOnlyTheKnown(p: Parameters)
    ensures SeesOnlyKnown(Strategy(p))
  {
    hide Signals, Usable, KnownAt;
    forall b, t, regime, eligible
      ensures Strategy(p)(b, t, regime, eligible) == Strategy(p)(KnownAt(b, t), t, regime, eligible)
    {
      EarlierKnowledge(b, t, t);
    }
  }

  lemma KnownIsValid(b: Bundle, t: int)
    requires Valid(b)
    ensures Valid(KnownAt(b, t))
  {
    forall a | a in b.candles
      ensures Ordered(Known(b.candles[a], t)) && forall c <- Known(b.candles[a], t) :: c in b.candles[a]
    {
      FilterKeepsTimes(b.candles[a], t);
      FilterKeeps((c: Candle) => c.availableAt <= t, b.candles[a]);
    }
  }

  lemma {:induction false} FilterKeepsTimes(s: seq<Candle>, t: int)
    requires Ordered(s)
    ensures Ordered(Known(s, t))
  {
    if s != [] {
      FilterKeepsTimes(s[1..], t);
      FilterKeeps((c: Candle) => c.availableAt <= t, s[1..]);
      forall k | 0 <= k < |Known(s[1..], t)| ensures s[0].openTime < Known(s[1..], t)[k].openTime {
        assert Known(s[1..], t)[k] in s[1..];
      }
    }
  }

  lemma {:induction false} CandidateAssets(p: Parameters, known: Bundle, eligible: Option<seq<string>>, assets: seq<string>)
    requires Usable(known) && NoRepeats(assets) && forall a <- assets :: a in known.candles
    ensures var c := Candidates(p, known, eligible, assets);
      DistinctWithin(c, assets)
  {
    hide CandidateFor;
    if assets != [] {
      var last := |assets| - 1;
      CandidateAssets(p, known, eligible, assets[..last]);
      var before := Candidates(p, known, eligible, assets[..last]);
      forall x <- before ensures x.asset != assets[last] && x.asset in assets {
        var k :| 0 <= k < last && assets[k] == x.asset;
      }
    }
  }

  ghost predicate DistinctWithin(s: seq<Ranked>, universe: seq<string>) {
    && (forall i, j :: 0 <= i < j < |s| ==> s[i].asset != s[j].asset)
    && (forall x <- s :: x.asset in universe && x.score > 0.0)
  }

  lemma RankedAssets(all: seq<Ranked>, universe: seq<string>)
    requires DistinctWithin(all, universe)
    ensures var ranked := Sort(Stronger, all);
      DistinctWithin(ranked, universe)
  {
    hide Stronger;
    SortHasSameElements(Stronger, all);
    SortKeepsNoRepeats(Stronger, all);
    var ranked := Sort(Stronger, all);
    forall i, j | 0 <= i < j < |ranked| ensures ranked[i].asset != ranked[j].asset {
      assert ranked[i] in all && ranked[j] in all;
    }
    forall x <- ranked ensures x.asset in universe { assert x in all; }
  }

  lemma StrongerIsTotal()
    ensures TotalOrder(Stronger)
  {
    hide TextOrder.Before;
    forall a, b ensures Stronger(a, b) || Stronger(b, a) {
      TextOrder.NotBeforeIsTotal(a.asset, b.asset);
    }
    forall a, b, c | Stronger(a, b) && Stronger(b, c) ensures Stronger(a, c) {
      if a.score == b.score == c.score { TextOrder.NotBeforeIsTransitive(a.asset, b.asset, c.asset); }
    }
  }

  lemma TopIsRanked(p: Parameters, known: Bundle, eligible: Option<seq<string>>)
    requires Usable(known) && NoRepeats(known.assets)
    ensures var top := Top(p, known, eligible);
      DistinctWithin(top, known.assets) && Sorted(Stronger, top) && |top| <= p.maximumAssets
  {
    hide CandidateFor, Stronger, Candidates, DistinctWithin;
    var all := Candidates(p, known, eligible, known.assets);
    CandidateAssets(p, known, eligible, known.assets);
    RankedAssets(all, known.assets);
    StrongerIsTotal();
    SortSorts(Stronger, all);
    PrefixIsDistinct(Sort(Stronger, all), p.maximumAssets, known.assets);
  }

  lemma PrefixIsDistinct(s: seq<Ranked>, n: nat, universe: seq<string>)
    requires DistinctWithin(s, universe)
    ensures n <= |s| ==> DistinctWithin(s[..n], universe)
  {
  }

  lemma {:induction false} BestIsFirst(s: seq<Ranked>)
    requires s != [] && forall k :: 0 <= k < |s| ==> s[k].score <= s[0].score
    ensures Best(s) == s[0].score
    decreases |s|
  {
    if |s| > 1 { BestIsFirst(s[..|s| - 1]); }
  }

  lemma StrengthOrder(a: real, b: real, best: real)
    requires 0.0 < b <= a <= best
    ensures 0.0 < Strength(b, best) <= Strength(a, best) <= 1.0
    ensures Strength(best, best) == 1.0
  {
    QuotientTimes(a, best);
    QuotientTimes(b, best);
    QuotientTimes(best, best);
    var x, y := a / best, b / best;
    if y <= 0.0 { ProductMonotone(y, 0.0, best); }
    if x < y { ProductStrict(x, y, best); }
    if x > 1.0 { ProductStrict(1.0, x, best); }
  }

  /** Signals are strongest first, the strengths shares of the best one. */
  ghost predicate Graded(s: seq<Signal>) {
    && (s != [] ==> s[0].strength == 1.0)
    && (forall k :: 0 <= k < |s| ==> s[k].long && 0.0 < s[k].strength <= 1.0)
    && forall i, j :: 0 <= i < j < |s| ==> s[i].strength >= s[j].strength
  }

  ghost predicate Descending(top: seq<Ranked>) {
    && (forall k :: 0 <= k < |top| ==> top[k].score > 0.0)
    && forall i, j :: 0 <= i < j < |top| ==> top[i].score >= top[j].score
  }

  lemma TopDescends(top: seq<Ranked>, universe: seq<string>)
    requires DistinctWithin(top, universe) && Sorted(Stronger, top)
    ensures Descending(top)
  {
    forall k | 0 <= k < |top| ensures top[k].score > 0.0 { assert top[k] in top; }
    forall i, j | 0 <= i < j < |top| ensures top[i].score >= top[j].score { assert Stronger(top[i], top[j]); }
  }

  lemma DescendingIsGraded(top: seq<Ranked>)
    requires Descending(top)
    ensures Graded(ToSignals(top, Best(top)))
  {
    hide Strength, Best;
    if top != [] {
      BestIsFirst(top);
      var best := top[0].score;
      StrengthOrder(best, best, best);
      var s := ToSignals(top, best);
      forall k | 0 <= k < |s| ensures s[k].long && 0.0 < s[k].strength <= 1.0 {
        StrengthOrder(top[k].score, top[k].score, best);
      }
      forall i, j | 0 <= i < j < |s| ensures s[i].strength >= s[j].strength {
        StrengthOrder(top[i].score, top[j].score, best);
      }
    }
  }

  /** Signals name distinct assets of the universe, at most the maximum, strongest first. */
  lemma SignalsAreDistinct(p: Parameters, known: Bundle, regime: Regime, eligible: Option<seq<string>>)
    requires Usable(known) && NoRepeats(known.assets)
    ensures var s := Signals(p, known, regime, eligible);
      && NoRepeats(Longs(s)) && |Longs(s)| == |s| <= p.maximumAssets
      && (forall a <- Longs(s) :: a in known.assets) && Graded(s)
  {
    hide Usable, Top, Best, Descending, Stronger, Strength, Graded, Longs, DistinctWithin;
    if !regime.RiskOff? {
      var top := Top(p, known, eligible);
      TopIsRanked(p, known, eligible);
      TopDescends(top, known.assets);
      DescendingIsGraded(top);
      SignalledAssets(top, ToSignals(top, Best(top)), known.assets);
    } else {
      NoSignals();
    }
  }

  lemma NoSignals()
    ensures Longs([]) == [] && Graded([])
  {
  }

  lemma SignalledAssets(top: seq<Ranked>, s: seq<Signal>, universe: seq<string>)
    requires DistinctWithin(top, universe) && |s| == |top|
    requires forall k :: 0 <= k < |s| ==> s[k].asset == top[k].asset && s[k].long
    ensures NoRepeats(Longs(s)) && |Longs(s)| == |s| && forall a <- Longs(s) :: a in universe
  {
    AllLong(s);
    forall a <- Longs(s) ensures a in universe {
      var k :| 0 <= k < |s| && Longs(s)[k] == a;
      assert top[k] in top;
    }
  }
}

/** Equal weights with an explicit cash residual (portfolio/equal_weight.py) and the allocation check (risk/engine.py). */
module Construction {
  import opened Wrappers
  import opened Reals
  import opened Sums
  import opened Sorting
  import opened Strategies

  datatype Constructor = Constructor(
    maximumPositions: nat, maximumAssetWeight: real, riskOnFraction: real, neutralFraction: real)

  predicate Accepted(c: Constructor) {
    c.maximumPositions > 0 && 0.0 <= c.maximumAssetWeight <= 1.0 && 0.0 <= c.riskOnFraction <= 1.0
    && 0.0 <= c.neutralFraction <= 1.0
  }

  function Selected(c: Constructor, signals: seq<string>): seq<string> {
    if |signals| <= c.maximumPositions then signals else signals[..c.maximumPositions]
  }

  function Invested(c: Constructor, regime: Regime, count: nat): real {
    if regime.RiskOff? || count == 0 then 0.0
    else Min(if regime.RiskOn? then c.riskOnFraction else c.neutralFraction, c.maximumAssetWeight * count as real)
  }

  function Share(total: real, n: nat): real
    requires n > 0
  {
    total / n as real
  }

  /** Every selected asset gets the same share of the invested fraction. */
  function Weights(c: Constructor, regime: Regime, signals: seq<string>): map<string, real> {
    var chosen := Selected(c, signals);
    if regime.RiskOff? || chosen == [] then map[] else
      map a | a in chosen :: Share(Invested(c, regime, |chosen|), |chosen|)
  }

  function AssetSet(assets: seq<string>): set<string> { set a | a in assets }

  /** An allocation that names an asset twice is refused. */
  predicate Refused(c: Constructor, r: StrategyResult) {
    var chosen := Selected(c, Longs(r.signals));
    !r.regime.RiskOff? && |AssetSet(chosen)| != |chosen|
  }

  ghost function Lookup(w: map<string, real>): string -> real {
    a => if a in w then w[a] else 0.0
  }

  lemma Shares(total: real, n: nat)
    requires n > 0
    ensures Times(Share(total, n), n as real) == total
  {
  }

  lemma {:induction false} DistinctCount<T(!new)>(s: seq<T>, keys: set<T>)
    requires NoRepeats(s) && forall x :: x in keys <==> x in s
    ensures |keys| == |s|
  {
    if s == [] {
      assert keys == {};
    } else {
      assert s == [s[0]] + s[1..] && s[0] in s;
      DistinctCount(s[1..], keys - {s[0]});
    }
  }

  lemma {:induction false} SetIsNoLarger(s: seq<string>)
    ensures |AssetSet(s)| <= |s|
  {
    if s == [] {
      assert AssetSet(s) == {};
    } else {
      assert s == [s[0]] + s[1..];
      SetIsNoLarger(s[1..]);
      assert AssetSet(s) == AssetSet(s[1..]) + {s[0]};
    }
  }

  /** The set is smaller exactly when an asset is named twice. */
  lemma RepeatsShrink(s: seq<string>)
    ensures |AssetSet(s)| == |s| <==> NoRepeats(s)
  {
    if NoRepeats(s) {
      DistinctCount(s, AssetSet(s));
    } else {
      var i, j :| 0 <= i < j < |s| && s[i] == s[j];
      var rest := s[..j] + s[j + 1..];
      assert rest[i] == s[i];
      forall a ensures a in rest <==> a in s {
        if a in s {
          var k :| 0 <= k < |s| && s[k] == a;
          assert k != j ==> rest[if k < j then k else k - 1] == a;
        }
      }
      assert AssetSet(rest) == AssetSet(s);
      SetIsNoLarger(rest);
    }
  }

  lemma WeightEntries(c: Constructor, regime: Regime, signals: seq<string>)
    requires regime.RiskOff? || NoRepeats(Selected(c, signals))
    ensures var (w, chosen) := (Weights(c, regime, signals), Selected(c, signals));
      if regime.RiskOff? || chosen == [] then w == map[] else
        && |w| == |chosen| > 0
        && (forall a :: a in w <==> a in chosen)
        && (forall a <- w :: w[a] == Share(Invested(c, regime, |chosen|), |chosen|))
  {
    hide Invested, Share;
    var w, chosen := Weights(c, regime, signals), Selected(c, signals);
    if !regime.RiskOff? && chosen != [] {
      DistinctCount(chosen, w.Keys);
      assert |w.Keys| == |w|;
    }
  }

  /** The residual the last position takes is its equal share, so all the invested fraction is allocated. */
  method Construct(c: Constructor, result: StrategyResult) returns (r: Option<(seq<(string, real)>, real)>)
    requires Accepted(c)
    ensures r.None? <==> Refused(c, result)
    ensures r.Some? ==>
      var (chosen, w) := (Selected(c, Longs(result.signals)), Weights(c, result.regime, Longs(result.signals)));
      var (allocations, cashWeight) := r.value;
      && |allocations| == |w|
      && (forall k :: 0 <= k < |allocations| ==>
            k < |chosen| && allocations[k].0 == chosen[k] && chosen[k] in w && allocations[k].1 == w[chosen[k]])
      && cashWeight == 1.0 - Invested(c, result.regime, |w|)
  {
    var signals, regime := Longs(result.signals), result.regime;
    hide Weights, Times, Share, Longs;
    var selected := Selected(c, signals);
    RepeatsShrink(selected);
    if regime.RiskOff? || selected == [] {
      WeightEntries(c, regime, signals);
      return Some(([], 1.0));
    }
    var n := |selected|;
    var invested := Invested(c, regime, n);
    var baseWeight := Share(invested, n);
    Shares(invested, n);
    var allocations := [];
    var spent := 0.0;
    if NoRepeats(selected) { WeightEntries(c, regime, signals); }
    hide Invested;
    LastShare(invested, baseWeight, 0, n);
    for index := 0 to n
      invariant |allocations| == index
      invariant forall k :: 0 <= k < index ==> allocations[k] == (selected[k], baseWeight)
      invariant spent == Times(baseWeight, index as real)
    {
      LastShare(invested, baseWeight, index, n);
      var weight := if index == n - 1 then invested - spent else baseWeight;
      allocations := allocations + [(selected[index], weight)];
      spent := spent + weight;
    }
    if |AssetSet(selected)| != n {
      return None;
    }
    r := Some((allocations, 1.0 - invested));
  }

  lemma LastShare(total: real, share: real, index: nat, n: nat)
    requires Times(share, n as real) == total && index < n
    ensures index == n - 1 ==> total - Times(share, index as real) == share
    ensures Times(share, index as real) + share == Times(share, (index + 1) as real)
    ensures Times(share, 0.0) == 0.0
  {
    assert (index + 1) as real == index as real + 1.0;
    if index == n - 1 { assert n as real == index as real + 1.0; }
  }

  lemma InvestedIsFraction(c: Constructor, regime: Regime, n: nat)
    requires Accepted(c)
    ensures 0.0 <= Invested(c, regime, n) <= 1.0
    ensures n > 0 ==> 0.0 <= Share(Invested(c, regime, n), n) <= c.maximumAssetWeight
  {
    ProductNonNegative(c.maximumAssetWeight, n as real);
    if n > 0 { ShareBound(Invested(c, regime, n), c.maximumAssetWeight, n); }
  }

  /** Weights are a fraction each, and together exactly the invested fraction. */
  lemma WeightsSumToInvested(c: Constructor, regime: Regime, signals: seq<string>)
    requires Accepted(c) && (regime.RiskOff? || NoRepeats(Selected(c, signals)))
    ensures var w := Weights(c, regime, signals);
      && Sum(w.Keys, Lookup(w)) == Invested(c, regime, |w|)
      && 0.0 <= Sum(w.Keys, Lookup(w)) <= 1.0
      && (forall a <- w :: 0.0 <= w[a] <= c.maximumAssetWeight)
  {
    hide Weights, Times, Share;
    var w := Weights(c, regime, signals);
    WeightEntries(c, regime, signals);
    InvestedIsFraction(c, regime, |w|);
    if w == map[] {
      assert w.Keys == {};
    } else {
      var invested := Invested(c, regime, |w|);
      hide Invested;
      var share := Share(invested, |w|);
      assert Times(share, |w| as real) == invested by { Shares(invested, |w|); }
      SumConstant(w.Keys, Lookup(w), share);
      assert |w.Keys| == |w|;
    }
  }

  lemma ShareBound(total: real, cap: real, n: nat)
    requires n > 0 && 0.0 <= total <= cap * n as real
    ensures 0.0 <= Share(total, n) <= cap
  {
  }

  datatype AllocationPolicy = AllocationPolicy(
    killSwitch: bool, maximumPositions: int, maximumInvestedFraction: real, maximumAssetFraction: real)

  predicate Approves(p: AllocationPolicy, w: map<string, real>, cashWeight: real) {
    && !p.killSwitch && |w| <= p.maximumPositions && 1.0 - cashWeight <= p.maximumInvestedFraction
    && forall a <- w :: w[a] <= p.maximumAssetFraction
  }
}
