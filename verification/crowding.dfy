/** Crowding scores of the bitcoin perpetual market (derivatives/crowding.py). */
module Crowding {
  import opened Wrappers
  import opened Reals
  import opened Sums

  datatype State = INSUFFICIENT_DATA | LONG_UNWIND | SHORT_UNWIND | LONG_CROWDED | SHORT_CROWDED | NEUTRAL

  datatype Side = NONE | LONG | SHORT

  /** Changes are missing while there is no history; ratios are longs per short, takers' buys per sell. */
  datatype Snapshot = Snapshot(
    id: string,
    funding: real,
    globalRatio: real,
    topRatio: real,
    takerRatio: real,
    premium: Option<real>)

  datatype Source = Source(
    id: string,
    basis: Option<real>,
    interest1h: Option<real>,
    price1h: Option<real>,
    interest15m: Option<real>,
    price15m: Option<real>)

  /** Liquidated notional of each side; `pressure` is log1p(notional) / log1p(10,000,000). */
  datatype Liquidations = Liquidations(long: Option<real>, short: Option<real>, confirmed: bool, pressure: real -> real)

  datatype Scores = Scores(long: real, short: real, bullish: real, bearish: real)

  datatype Signal = Signal(state: State, side: Side, scores: Option<Scores>)

  const ELEVATED := 0.65
  const TRIGGERED := 0.55

  function Bounded(v: real): (r: real)
    ensures 0.0 <= r <= 1.0
  {
    Max(0.0, Min(1.0, v))
  }

  function Positive(v: real, scale: real): (r: real)
    requires scale > 0.0
    ensures 0.0 <= r <= 1.0 && (v <= 0.0 ==> r == 0.0)
  {
    QuotientSign(v, scale);
    Bounded(v / scale)
  }

  lemma QuotientSign(v: real, scale: real)
    requires scale > 0.0
    ensures v <= 0.0 ==> v / scale <= 0.0
  {
  }

  function OptionalPositive(v: Option<real>, sign: real, scale: real): (r: Option<real>)
    requires scale > 0.0
    ensures r.Some? == v.Some? && (r.Some? ==> 0.0 <= r.value <= 1.0)
  {
    match v case None => None case Some(x) => Some(Positive(sign * x, scale))
  }

  function Mean(a: real, b: real): real {
    (a + b) / 2.0
  }

  /** How one side's score is built from the growth of open interest and four directed pressures. */
  function Fuel(price: real, funding: real, basis: real, positioning: real): real {
    0.30 + 0.20 * price + 0.20 * funding + 0.15 * basis + 0.15 * positioning
  }

  /** The bounded score; growth of open interest is the fuel without which nothing is crowded. */
  function Scored(growth: real, fuel: real): (r: real)
    ensures 0.0 <= r <= 1.0
  {
    Bounded(growth * fuel)
  }

  function LongScore(s: Snapshot, interest: real, price: real, basis: real): (r: real)
    ensures 0.0 <= r <= 1.0
  {
    Scored(Positive(interest, 0.03), Fuel(Positive(price, 0.02), Positive(s.funding, 0.0002), Positive(basis, 0.001),
      Mean(Positive(s.globalRatio - 1.0, 0.50), Positive(s.topRatio - 1.0, 0.50))))
  }

  function ShortScore(s: Snapshot, interest: real, price: real, basis: real): (r: real)
    ensures 0.0 <= r <= 1.0
  {
    Scored(Positive(interest, 0.03), Fuel(Positive(-price, 0.02), Positive(-s.funding, 0.0002), Positive(-basis, 0.001),
      Mean(Positive(1.0 - s.globalRatio, 0.25), Positive(1.0 - s.topRatio, 0.25))))
  }

  // ---------------------------------------------------------------- weighted averages

  datatype Weighted = Weighted(weight: real, value: real)

  function TotalWeight(ws: seq<Weighted>): real {
    if ws == [] then 0.0 else ws[0].weight + TotalWeight(ws[1..])
  }

  function TotalValue(ws: seq<Weighted>): real {
    if ws == [] then 0.0 else Times(ws[0].weight, ws[0].value) + TotalValue(ws[1..])
  }

  lemma OneMore(w: Weighted, weight: real, value: real, low: real, high: real)
    requires w.weight > 0.0 && low <= w.value <= high
    requires Times(low, weight) <= value <= Times(high, weight)
    ensures Times(low, w.weight + weight) <= Times(w.weight, w.value) + value <= Times(high, w.weight + weight)
  {
    ProductMonotone(low, w.value, w.weight);
    ProductMonotone(w.value, high, w.weight);
  }

  /** A weighted total lies between its bounds times the total weight. */
  lemma {:induction false} WeightedTotalIsBetween(ws: seq<Weighted>, low: real, high: real)
    requires forall w <- ws :: w.weight > 0.0 && low <= w.value <= high
    ensures Times(low, TotalWeight(ws)) <= TotalValue(ws) <= Times(high, TotalWeight(ws))
    ensures ws != [] ==> TotalWeight(ws) > 0.0
    decreases |ws|
  {
    assert Times(low, 0.0) == 0.0 && Times(high, 0.0) == 0.0;
    hide Times;
    if ws != [] {
      assert forall w <- ws[1..] :: w in ws;
      WeightedTotalIsBetween(ws[1..], low, high);
      OneMore(ws[0], TotalWeight(ws[1..]), TotalValue(ws[1..]), low, high);
    }
  }

  function Ratio(a: real, b: real): real
    requires b != 0.0
  {
    a / b
  }

  lemma QuotientIsBetween(a: real, b: real, low: real, high: real)
    requires b > 0.0 && Times(low, b) <= a <= Times(high, b)
    ensures low <= Ratio(a, b) <= high
  {
    QuotientTimes(a, b);
    if a / b < low { ProductStrict(a / b, low, b); }
    if a / b > high { ProductStrict(high, a / b, b); }
  }

  lemma MeanIsBetween(ws: seq<Weighted>, low: real, high: real)
    requires ws != [] && forall w <- ws :: w.weight > 0.0 && low <= w.value <= high
    ensures TotalWeight(ws) > 0.0
    ensures low <= Ratio(TotalValue(ws), TotalWeight(ws)) <= high
  {
    WeightedTotalIsBetween(ws, low, high);
    hide TotalWeight, TotalValue, Ratio, Times;
    QuotientIsBetween(TotalValue(ws), TotalWeight(ws), low, high);
  }

  /** The available components of an unwind score with their weights. */
  function Components(price: real, interest: real, taker: real, premium: Option<real>, liquidation: Option<real>)
    : (ws: seq<Weighted>)
    ensures forall w <- ws :: w.weight > 0.0
  {
    [Weighted(0.30, price), Weighted(0.25, interest), Weighted(0.20, taker)]
    + (if premium.Some? then [Weighted(0.10, premium.value)] else [])
    + (if liquidation.Some? then [Weighted(0.15, liquidation.value)] else [])
  }

  lemma TotalWeightIsPositive(ws: seq<Weighted>)
    requires ws != [] && forall w <- ws :: w.weight > 0.0
    ensures TotalWeight(ws) > 0.0
    decreases |ws|
  {
    if |ws| > 1 { TotalWeightIsPositive(ws[1..]); }
  }

  function UnwindScore(price: real, interest: real, taker: real, premium: Option<real>, liquidation: Option<real>): (r: real)
    ensures 0.0 <= r <= 1.0
  {
    var ws := Components(price, interest, taker, premium, liquidation);
    TotalWeightIsPositive(ws);
    Bounded(Ratio(TotalValue(ws), TotalWeight(ws)))
  }

  function LiquidationScore(ls: Liquidations, notional: Option<real>): (r: Option<real>)
    ensures r.Some? ==> ls.confirmed && 0.0 <= r.value <= 1.0
  {
    if !ls.confirmed || notional.None? then None else Some(Bounded(ls.pressure(notional.value)))
  }

  // ---------------------------------------------------------------- the signal

  function DominantSide(long: real, short: real): Side {
    if Max(long, short) < 0.50 || Abs(long - short) < 0.10 then NONE
    else if long > short then LONG else SHORT
  }

  function StateOf(side: Side, s: Scores): State {
    if s.long >= ELEVATED && s.bearish >= TRIGGERED then LONG_UNWIND
    else if s.short >= ELEVATED && s.bullish >= TRIGGERED then SHORT_UNWIND
    else if side == LONG && s.long >= ELEVATED then LONG_CROWDED
    else if side == SHORT && s.short >= ELEVATED then SHORT_CROWDED
    else NEUTRAL
  }

  function ScoresOf(s: Snapshot, basis: real, interest1h: real, price1h: real, interest15m: real, price15m: real,
                    ls: Liquidations): Scores
  {
    Scores(
      LongScore(s, interest1h, price1h, basis),
      ShortScore(s, interest1h, price1h, basis),
      UnwindScore(Positive(price15m, 0.01), Positive(-interest15m, 0.02), Positive(s.takerRatio - 1.0, 0.30),
        OptionalPositive(s.premium, 1.0, 0.001), LiquidationScore(ls, ls.short)),
      UnwindScore(Positive(-price15m, 0.01), Positive(-interest15m, 0.02), Positive(1.0 - s.takerRatio, 0.30),
        OptionalPositive(s.premium, -1.0, 0.001), LiquidationScore(ls, ls.long)))
  }

  function Calculate(s: Snapshot, source: Source, ls: Liquidations): Result<Signal, string> {
    if s.id != source.id then Err("crowding source signal must match its derivatives snapshot")
    else if source.basis.None? || source.interest1h.None? || source.price1h.None?
      || source.interest15m.None? || source.price15m.None? then Ok(Signal(INSUFFICIENT_DATA, NONE, None))
    else
      var scores := ScoresOf(s, source.basis.value, source.interest1h.value, source.price1h.value,
        source.interest15m.value, source.price15m.value, ls);
      var side := DominantSide(scores.long, scores.short);
      Ok(Signal(StateOf(side, scores), side, Some(scores)))
  }

  // ---------------------------------------------------------------- the scores exclude each other

  /** Only one direction of a pressure can be positive, whatever scale each side uses. */
  lemma OppositePressures(v: real, scale: real, opposite: real)
    requires scale > 0.0 && opposite > 0.0
    ensures Positive(v, scale) + Positive(-v, opposite) <= 1.0
  {
  }

  lemma ScoredAtMost(growth: real, fuel: real)
    requires 0.0 <= growth <= 1.0 && 0.0 <= fuel
    ensures Scored(growth, fuel) <= fuel
  {
    var whole := growth * fuel;
    assert 0.0 <= whole <= fuel by {
      hide *;
      ProductMonotone(growth, 1.0, fuel);
      ProductNonNegative(growth, fuel);
    }
    assert Scored(growth, fuel) == Bounded(whole);
    BoundedAtMost(whole);
  }

  lemma BoundedAtMost(x: real)
    requires 0.0 <= x
    ensures Bounded(x) <= x
  {
  }

  lemma FullGrowth(fuel: real)
    requires 0.0 <= fuel <= 1.0
    ensures Scored(1.0, fuel) == fuel
  {
  }

  lemma ScoresExclude(s: Snapshot, interest: real, price: real, basis: real)
    ensures LongScore(s, interest, price, basis) + ShortScore(s, interest, price, basis) <= 1.30
  {
    hide Positive, Scored;
    OppositePressures(price, 0.02, 0.02);
    OppositePressures(s.funding, 0.0002, 0.0002);
    OppositePressures(basis, 0.001, 0.001);
    OppositePressures(s.globalRatio - 1.0, 0.50, 0.25);
    OppositePressures(s.topRatio - 1.0, 0.50, 0.25);
    assert -(s.globalRatio - 1.0) == 1.0 - s.globalRatio && -(s.topRatio - 1.0) == 1.0 - s.topRatio;
    var up := Fuel(Positive(price, 0.02), Positive(s.funding, 0.0002), Positive(basis, 0.001),
        Mean(Positive(s.globalRatio - 1.0, 0.50), Positive(s.topRatio - 1.0, 0.50)));
    var down := Fuel(Positive(-price, 0.02), Positive(-s.funding, 0.0002), Positive(-basis, 0.001),
        Mean(Positive(1.0 - s.globalRatio, 0.25), Positive(1.0 - s.topRatio, 0.25)));
    assert 0.0 <= up && 0.0 <= down && up + down <= 1.30;
    ScoredAtMost(Positive(interest, 0.03), up);
    ScoredAtMost(Positive(interest, 0.03), down);
  }

  /** The other branch order: the short unwind asked before the long one. */
  function StateShortFirst(side: Side, s: Scores): State {
    if s.short >= ELEVATED && s.bullish >= TRIGGERED then SHORT_UNWIND
    else if s.long >= ELEVATED && s.bearish >= TRIGGERED then LONG_UNWIND
    else StateOf(side, s)
  }

  /** The branch order matters exactly when both scores sit on 0.65 and both triggers fire. */
  lemma BranchOrderMattersOnlyAtTheBoundary(s: Snapshot, source: Source, ls: Liquidations)
    ensures var c := Calculate(s, source, ls);
      c.Ok? && c.value.scores.Some? ==>
        var x := c.value.scores.value;
        && x.long + x.short <= 1.30
        && (x.long >= ELEVATED && x.short >= ELEVATED ==> x.long == x.short == ELEVATED)
        && (c.value.state != StateShortFirst(c.value.side, x) <==>
            x.long == x.short == ELEVATED && x.bullish >= TRIGGERED && x.bearish >= TRIGGERED)
  {
    hide LongScore, ShortScore, UnwindScore, Positive;
    if s.id == source.id && source.basis.Some? && source.interest1h.Some? && source.price1h.Some?
    {
      ScoresExclude(s, source.interest1h.value, source.price1h.value, source.basis.value);
    }
  }

  /** A score of at least 0.70 decides the state by itself: its side dominates and the other side cannot unwind. */
  lemma StrongScoreDecides(s: Snapshot, source: Source, ls: Liquidations)
    ensures var c := Calculate(s, source, ls);
      c.Ok? && c.value.scores.Some? ==>
        var x := c.value.scores.value;
        && (x.long >= 0.70 ==>
              c.value.side == LONG && c.value.state == if x.bearish >= TRIGGERED then LONG_UNWIND else LONG_CROWDED)
        && (x.short >= 0.70 ==>
              c.value.side == SHORT && c.value.state == if x.bullish >= TRIGGERED then SHORT_UNWIND else SHORT_CROWDED)
        && (x.long < ELEVATED && x.short < ELEVATED ==> c.value.state == NEUTRAL)
  {
    hide LongScore, ShortScore, UnwindScore, Positive;
    if s.id == source.id && source.basis.Some? && source.interest1h.Some? && source.price1h.Some?
    {
      ScoresExclude(s, source.interest1h.value, source.price1h.value, source.basis.value);
    }
  }

  lemma BoundaryScores(taker: real, premium: Option<real>)
    ensures var s := Snapshot("s", -0.0002, 0.75, 0.75, taker, premium);
      LongScore(s, 0.03, 0.02, 0.001) == ShortScore(s, 0.03, 0.02, 0.001) == ELEVATED
  {
    assert Positive(0.03, 0.03) == 1.0 && Positive(0.02, 0.02) == 1.0 && Positive(0.001, 0.001) == 1.0;
    assert Positive(0.0002, 0.0002) == 1.0 && Positive(0.25, 0.25) == 1.0;
    FullGrowth(ELEVATED);
    hide Positive, Bounded, Scored;
  }

  lemma TotalsOfFour(a: Weighted, b: Weighted, c: Weighted, d: Weighted)
    ensures TotalWeight([a, b, c, d]) == a.weight + b.weight + c.weight + d.weight
    ensures TotalValue([a, b, c, d])
            == Times(a.weight, a.value) + Times(b.weight, b.value) + Times(c.weight, c.value) + Times(d.weight, d.value)
  {
    hide Times;
    assert [a, b, c, d][1..] == [b, c, d] && [b, c, d][1..] == [c, d] && [c, d][1..] == [d] && [d][1..] == [];
    assert TotalWeight([]) == TotalValue([]) == 0.0;
    assert TotalWeight([d]) == d.weight && TotalValue([d]) == Times(d.weight, d.value);
    assert TotalWeight([c, d]) == c.weight + d.weight;
    assert TotalValue([c, d]) == Times(c.weight, c.value) + Times(d.weight, d.value);
  }

  /** Without a premium; a total of 0.495 over a weight of 0.90 triggers. */
  lemma UnwindOfFour(price: real, interest: real, taker: real, liquidation: real)
    requires 0.495 <= 0.30 * price + 0.25 * interest + 0.20 * taker + 0.15 * liquidation <= 0.90
    ensures UnwindScore(price, interest, taker, None, Some(liquidation)) >= TRIGGERED
  {
    var ws := Components(price, interest, taker, None, Some(liquidation));
    var a, b, c, d := Weighted(0.30, price), Weighted(0.25, interest), Weighted(0.20, taker), Weighted(0.15, liquidation);
    assert ws == [a, b, c, d];
    TotalsOfFour(a, b, c, d);
    hide TotalWeight, TotalValue;
    QuotientIsBetween(TotalValue(ws), TotalWeight(ws), TRIGGERED, 1.0);
  }

  lemma BoundaryPressures()
    ensures Positive(0.01, 0.01) == Positive(0.02, 0.02) == Positive(0.30, 0.30) == 1.0
    ensures Positive(-0.01, 0.01) == Positive(-0.30, 0.30) == 0.0
  {
  }

  /** Price up and takers selling, open interest falling, both sides liquidated: both unwinds are triggered. */
  lemma BothTriggersFire(s: Snapshot, ls: Liquidations)
    requires s.takerRatio == 0.70 && s.premium.None?
    requires LiquidationScore(ls, ls.short) == LiquidationScore(ls, ls.long) == Some(1.0)
    ensures var x := ScoresOf(s, 0.001, 0.03, 0.02, -0.02, 0.01, ls); x.bullish >= TRIGGERED && x.bearish >= TRIGGERED
  {
    BoundaryPressures();
    hide Positive, UnwindScore, LongScore, ShortScore, Bounded, LiquidationScore;
    UnwindOfFour(1.0, 1.0, 0.0, 1.0);
    UnwindOfFour(0.0, 1.0, 1.0, 1.0);
  }

  function BoundarySnapshot(): Snapshot { Snapshot("s", -0.0002, 0.75, 0.75, 0.70, None) }

  function BoundarySource(): Source { Source("s", Some(0.001), Some(0.03), Some(0.02), Some(-0.02), Some(0.01)) }

  /** Both sides lose ten million, which the pressure maps to one. */
  function BoundaryLiquidations(): Liquidations {
    Liquidations(Some(10000000.0), Some(10000000.0), true, notional => 1.0)
  }

  lemma BothSidesLiquidated()
    ensures var ls := BoundaryLiquidations(); LiquidationScore(ls, ls.short) == LiquidationScore(ls, ls.long) == Some(1.0)
  {
  }

  lemma DecidedAtBoundary(side: Side, x: Scores)
    requires x.long == x.short == ELEVATED && x.bullish >= TRIGGERED && x.bearish >= TRIGGERED
    ensures StateOf(side, x) == LONG_UNWIND && StateShortFirst(side, x) == SHORT_UNWIND
  {
  }

  /**
   * The boundary is reached: price and basis push long, funding and positioning push short; then the price still rises
   * while takers sell, open interest falls and both sides are liquidated. The other branch order would name the other side.
   */
  lemma BoundaryIsReached()
    ensures var c := Calculate(BoundarySnapshot(), BoundarySource(), BoundaryLiquidations());
      && c.Ok? && c.value.scores.Some? && c.value.state == LONG_UNWIND
      && StateShortFirst(c.value.side, c.value.scores.value) == SHORT_UNWIND
  {
    var s, ls := BoundarySnapshot(), BoundaryLiquidations();
    hide Positive, UnwindScore, LongScore, ShortScore, Bounded, LiquidationScore, BoundaryLiquidations, StateOf, StateShortFirst,
         DominantSide, OptionalPositive, Components;
    BothSidesLiquidated();
    BoundaryScores(0.70, None);
    BothTriggersFire(s, ls);
    var x := ScoresOf(s, 0.001, 0.03, 0.02, -0.02, 0.01, ls);
    assert Calculate(s, BoundarySource(), ls) == Ok(Signal(StateOf(DominantSide(x.long, x.short), x), DominantSide(x.long, x.short), Some(x)));
    DecidedAtBoundary(DominantSide(x.long, x.short), x);
  }

  // ---------------------------------------------------------------- unwind scores are averages

  /** An unwind score lies between the smallest and the largest available component. */
  lemma UnwindIsBetweenComponents(price: real, interest: real, taker: real, premium: Option<real>, liquidation: Option<real>,
                                  low: real, high: real)
    requires 0.0 <= low && high <= 1.0
    requires forall w <- Components(price, interest, taker, premium, liquidation) :: low <= w.value <= high
    ensures low <= UnwindScore(price, interest, taker, premium, liquidation) <= high
  {
    MeanIsBetween(Components(price, interest, taker, premium, liquidation), low, high);
  }
}
