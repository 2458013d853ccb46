/** The next-open backtest loop (backtest/engine.py, run): no look-ahead and the cost bound. */
module Backtest {
  import opened Wrappers
  import opened Reals
  import opened Sums
  import opened Market
  import opened Sorting
  import opened Strategies
  import opened Construction
  import Momentum

  datatype Config = Config(start: int, end: int, capital: real, rebalanceDays: nat, feeRate: real, slippageRate: real)

  predicate AcceptedConfig(c: Config) {
    c.start < c.end && c.capital > 0.0 && c.rebalanceDays > 0 && c.feeRate >= 0.0 && c.slippageRate >= 0.0
  }

  datatype Models = Models(
    regime: (Bundle, int) -> Regime, eligibility: Option<(Bundle, int) -> seq<string>>, strategy: Strategy,
    constructor_: Constructor, policy: AllocationPolicy)

  datatype Error = TooFewTimestamps | DuplicateAsset | UnknownAsset

  /** What one rebalance comes to: an exception, a refusal by the policy, or new weights. */
  datatype Decision = Raised(error: Error) | Rejected | Rebalance(weights: map<string, real>)

  function Eligible(m: Models, b: Bundle, t: int): Option<seq<string>> {
    if m.eligibility.None? then None else Some(m.eligibility.value(b, t))
  }

  function Signalled(m: Models, b: Bundle, t: int): StrategyResult {
    m.strategy(b, t, m.regime(b, t), Eligible(m, b, t))
  }

  /** An approved asset outside the universe has no price: the return of the period cannot be computed. */
  function Judged(m: Models, b: Bundle, r: StrategyResult): Decision {
    if Refused(m.constructor_, r) then Raised(DuplicateAsset) else
      var w := Weights(m.constructor_, r.regime, Longs(r.signals));
      if !Approves(m.policy, w, 1.0 - Invested(m.constructor_, r.regime, |w|)) then Rejected
      else if exists a <- w :: a !in b.assets then Raised(UnknownAsset)
      else Rebalance(w)
  }

  function Decide(m: Models, b: Bundle, t: int): Decision {
    Judged(m, b, Signalled(m, b, t))
  }

  datatype Book = Book(
    equity: real, feeOnly: real, gross: real, weights: map<string, real>,
    turnover: real, feeImpact: real, slippageImpact: real, rebalances: nat, rejected: nat)

  function ShiftOf(before: map<string, real>, after: map<string, real>, asset: string): real {
    Abs((if asset in after then after[asset] else 0.0) - (if asset in before then before[asset] else 0.0))
  }

  ghost function Shift(before: map<string, real>, after: map<string, real>): string -> real {
    a => ShiftOf(before, after, a)
  }

  ghost function Turnover(before: map<string, real>, after: map<string, real>): real {
    Sum(after.Keys + before.Keys, Shift(before, after))
  }

  function Cost(turnover: real, rate: real): real { turnover * rate }

  /** Taking over new weights costs a share of the equity proportional to the turnover. */
  function Charge(k: Book, w: map<string, real>, turnover: real, fee: real, slippage: real): Book {
    k.(equity := k.equity * (1.0 - fee - slippage), feeOnly := k.feeOnly * (1.0 - fee), weights := w,
       turnover := k.turnover + turnover, feeImpact := k.feeImpact + fee,
       slippageImpact := k.slippageImpact + slippage, rebalances := k.rebalances + 1)
  }

  ghost function AfterDecision(k: Book, d: Decision, c: Config): Result<Book, Error> {
    match d
    case Raised(error) => Err(error)
    case Rejected => Ok(k.(rejected := k.rejected + 1))
    case Rebalance(w) =>
      var turnover := Turnover(k.weights, w);
      Ok(Charge(k, w, turnover, Cost(turnover, c.feeRate), Cost(turnover, c.slippageRate)))
  }

  /** Open price of an asset at a time of the timeline. */
  function Price(b: Bundle, asset: string, t: int): real {
    if asset in b.candles then OpenAt(b.candles[asset], t).GetOr(1.0) else 1.0
  }

  function Gain(w: real, now: real, next: real): real
    requires now != 0.0
  {
    w * (next / now - 1.0)
  }

  ghost function Contribution(b: Bundle, w: map<string, real>, now: int, next: int): string -> real {
    a => if a in w && Price(b, a, now) != 0.0 then Gain(w[a], Price(b, a, now), Price(b, a, next)) else 0.0
  }

  ghost function Return(b: Bundle, w: map<string, real>, now: int, next: int): real {
    Sum(w.Keys, Contribution(b, w, now, next))
  }

  function Grow(k: Book, r: real): Book {
    k.(equity := k.equity * (1.0 + r), feeOnly := k.feeOnly * (1.0 + r), gross := k.gross * (1.0 + r))
  }

  datatype Point = Point(timestamp: int, equity: real, gross: real)

  function NewBook(capital: real): Book {
    Book(capital, capital, capital, map[], 0.0, 0.0, 0.0, 0, 0)
  }

  /** The book after so many periods, or the exception that ended the run before. */
  ghost function BookAt(m: Models, b: Bundle, c: Config, timeline: seq<int>, n: nat): Result<Book, Error>
    requires AcceptedConfig(c) && n < |timeline|
  {
    if n == 0 then Ok(NewBook(c.capital)) else
      match BookAt(m, b, c, timeline, n - 1)
      case Err(error) => Err(error)
      case Ok(before) => Period(m, b, c, before, n - 1, timeline[n - 1], timeline[n])
  }

  ghost function Period(m: Models, b: Bundle, c: Config, before: Book, index: nat, now: int, next: int): Result<Book, Error>
    requires AcceptedConfig(c)
  {
    match Opening(m, b, c, before, index, now)
    case Err(error) => Err(error)
    case Ok(held) => Ok(Grow(held, Return(b, held.weights, now, next)))
  }

  /** A rebalance is due at every so many periods. */
  ghost function Opening(m: Models, b: Bundle, c: Config, before: Book, index: nat, now: int): Result<Book, Error>
    requires AcceptedConfig(c)
  {
    if index % c.rebalanceDays == 0 then AfterDecision(before, Decide(m, b, now), c) else Ok(before)
  }

  ghost function PointAt(m: Models, b: Bundle, c: Config, timeline: seq<int>, n: nat): Result<Point, Error>
    requires AcceptedConfig(c) && n < |timeline|
  {
    match BookAt(m, b, c, timeline, n)
    case Err(error) => Err(error)
    case Ok(k) => Ok(Point(timeline[n], k.equity, k.gross))
  }

  method Run(m: Models, b: Bundle, c: Config) returns (r: Result<(seq<Point>, Book), Error>)
    requires Valid(b) && AcceptedConfig(c)
    ensures var timeline := Timeline(b, c.start, c.end);
      if |timeline| < 2 then r == Err(TooFewTimestamps) else
        match BookAt(m, b, c, timeline, |timeline| - 1)
        case Err(error) => r == Err(error)
        case Ok(last) =>
          && r.Ok? && |r.value.0| == |timeline| && r.value.1 == last
          && (forall n :: 0 <= n < |timeline| ==> PointAt(m, b, c, timeline, n) == Ok(r.value.0[n]))
  {
    hide Decide, Return, AfterDecision, Valid;
    var timeline := Timeline(b, c.start, c.end);
    if |timeline| < 2 {
      return Err(TooFewTimestamps);
    }
    var book := NewBook(c.capital);
    var curve := [Point(timeline[0], c.capital, c.capital)];
    for index := 0 to |timeline| - 1
      invariant |curve| == index + 1
      invariant Ok(book) == BookAt(m, b, c, timeline, index)
      invariant forall n :: 0 <= n <= index ==> PointAt(m, b, c, timeline, n) == Ok(curve[n])
    {
      var timestamp := timeline[index];
      if index % c.rebalanceDays == 0 {
        var settled := Settle(book, Decide(m, b, timestamp), c);
        if settled.Err? {
          StaysRaised(m, b, c, timeline, index + 1, |timeline| - 1);
          return Err(settled.error);
        }
        book := settled.value;
      }
      var portfolioReturn := HoldOnce(b, book.weights, timestamp, timeline[index + 1]);
      book := Grow(book, portfolioReturn);
      curve := curve + [Point(timeline[index + 1], book.equity, book.gross)];
    }
    r := Ok((curve, book));
  }

  lemma {:induction false} StaysRaised(m: Models, b: Bundle, c: Config, timeline: seq<int>, k: nat, n: nat)
    requires AcceptedConfig(c) && k <= n < |timeline| && BookAt(m, b, c, timeline, k).Err?
    ensures BookAt(m, b, c, timeline, n) == BookAt(m, b, c, timeline, k)
    decreases n
  {
    hide Period;
    if k < n { StaysRaised(m, b, c, timeline, k, n - 1); }
  }

  method Settle(k: Book, d: Decision, c: Config) returns (r: Result<Book, Error>)
    ensures r == AfterDecision(k, d, c)
  {
    hide Charge, Cost;
    match d
    case Raised(error) => r := Err(error);
    case Rejected => r := Ok(k.(rejected := k.rejected + 1));
    case Rebalance(weights) =>
      var turnover := TotalShift(k.weights, weights);
      r := Ok(Charge(k, weights, turnover, Cost(turnover, c.feeRate), Cost(turnover, c.slippageRate)));
  }

  method TotalShift(before: map<string, real>, after: map<string, real>) returns (r: real)
    ensures r == Turnover(before, after)
  {
    hide Sum, ShiftOf;
    r := 0.0;
    var todo := after.Keys + before.Keys;
    ghost var all := todo;
    assert r + Sum(todo, Shift(before, after)) == Turnover(before, after);
    while todo != {}
      invariant todo <= all && r + Sum(todo, Shift(before, after)) == Turnover(before, after)
      decreases |todo|
    {
      var asset :| asset in todo;
      SumRemove(todo, asset, Shift(before, after));
      r := r + ShiftOf(before, after, asset);
      todo := todo - {asset};
    }
    SumEmpty(Shift(before, after));
  }

  lemma SumEmpty<K(!new)>(f: K -> real)
    ensures Sum({}, f) == 0.0
  {
  }

  method HoldOnce(b: Bundle, w: map<string, real>, now: int, next: int) returns (r: real)
    ensures r == Return(b, w, now, next)
  {
    hide Sum, Gain;
    r := 0.0;
    var todo := w.Keys;
    while todo != {}
      invariant todo <= w.Keys && r + Sum(todo, Contribution(b, w, now, next)) == Return(b, w, now, next)
      decreases |todo|
    {
      var asset :| asset in todo;
      SumRemove(todo, asset, Contribution(b, w, now, next));
      var current, following := Price(b, asset, now), Price(b, asset, next);
      r := r + (if current != 0.0 then Gain(w[asset], current, following) else 0.0);
      todo := todo - {asset};
    }
    SumEmpty(Contribution(b, w, now, next));
  }

  // ---------------------------------------------------------------- no look-ahead

  /** The two markets have the same opens up to a time, and the same candles available by it. */
  ghost predicate AgreeUpTo(b1: Bundle, b2: Bundle, until: int) {
    && b1.assets == b2.assets && b1.candles.Keys == b2.candles.Keys
    && (forall a, t :: a in b1.candles && t <= until ==> OpenAt(b1.candles[a], t) == OpenAt(b2.candles[a], t))
    && KnownAt(b1, until) == KnownAt(b2, until)
  }

  ghost predicate ModelsArePointInTime(m: Models) {
    && PointInTime(m.regime) && (m.eligibility.Some? ==> PointInTime(m.eligibility.value))
    && SeesOnlyKnown(m.strategy)
  }

  lemma SignalsAgree(m: Models, b1: Bundle, b2: Bundle, t: int)
    requires KnownAt(b1, t) == KnownAt(b2, t) && ModelsArePointInTime(m)
    ensures Signalled(m, b1, t) == Signalled(m, b2, t)
  {
    var known := KnownAt(b1, t);
    hide KnownAt;
    assert m.regime(b1, t) == m.regime(known, t) == m.regime(b2, t);
    if m.eligibility.Some? {
      assert m.eligibility.value(b1, t) == m.eligibility.value(known, t) == m.eligibility.value(b2, t);
    }
    var regime, eligible := m.regime(b1, t), Eligible(m, b1, t);
    assert m.strategy(b1, t, regime, eligible) == m.strategy(KnownAt(b1, t), t, regime, eligible);
    assert m.strategy(b2, t, regime, eligible) == m.strategy(KnownAt(b2, t), t, regime, eligible);
  }

  lemma DecisionsAgree(m: Models, b1: Bundle, b2: Bundle, until: int, t: int)
    requires AgreeUpTo(b1, b2, until) && t <= until && ModelsArePointInTime(m)
    ensures Decide(m, b1, t) == Decide(m, b2, t)
  {
    EarlierKnowledge(b1, t, until);
    EarlierKnowledge(b2, t, until);
    hide ModelsArePointInTime;
    SignalsAgree(m, b1, b2, t);
    hide Signalled, Refused, Weights, Approves, Invested;
  }

  lemma TimelinesAgree(b1: Bundle, b2: Bundle, start: int, end: int, until: int, n: nat)
    requires Valid(b1) && Valid(b2) && AgreeUpTo(b1, b2, until)
    requires n < |Timeline(b1, start, end)| && Timeline(b1, start, end)[n] <= until
    ensures n < |Timeline(b2, start, end)| && Timeline(b2, start, end)[n] == Timeline(b1, start, end)[n]
  {
    hide Timeline;
    TimelineIsCommonOpens(b1, start, end);
    TimelineIsCommonOpens(b2, start, end);
    forall t | t <= until ensures t in Timeline(b1, start, end) <==> t in Timeline(b2, start, end) {
      assert CommonOpen(b1, t) <==> CommonOpen(b2, t);
    }
    AscendingAgree(Timeline(b1, start, end), Timeline(b2, start, end), until, n);
  }

  lemma ReturnsAgree(b1: Bundle, b2: Bundle, w: map<string, real>, until: int, now: int, next: int)
    requires AgreeUpTo(b1, b2, until) && now <= until && next <= until
    ensures Return(b1, w, now, next) == Return(b2, w, now, next)
  {
    hide Sum, OpenAt, KnownAt, Gain;
    SumCongruent(w.Keys, Contribution(b1, w, now, next), Contribution(b2, w, now, next));
  }

  lemma PeriodsAgree(m: Models, b1: Bundle, b2: Bundle, c: Config, before: Book, index: nat, until: int, now: int, next: int)
    requires AcceptedConfig(c) && AgreeUpTo(b1, b2, until) && ModelsArePointInTime(m) && now <= until && next <= until
    ensures Period(m, b1, c, before, index, now, next) == Period(m, b2, c, before, index, now, next)
  {
    hide Decide, Return, AfterDecision, AgreeUpTo, ModelsArePointInTime;
    DecisionsAgree(m, b1, b2, until, now);
    var opening := Opening(m, b1, c, before, index, now);
    if opening.Ok? { ReturnsAgree(b1, b2, opening.value.weights, until, now, next); }
  }

  lemma {:induction false} BooksAgree(m: Models, b1: Bundle, b2: Bundle, c: Config, until: int, n: nat)
    requires Valid(b1) && Valid(b2) && AcceptedConfig(c) && AgreeUpTo(b1, b2, until) && ModelsArePointInTime(m)
    requires var t1 := Timeline(b1, c.start, c.end); n < |t1| && t1[n] <= until
    ensures var (t1, t2) := (Timeline(b1, c.start, c.end), Timeline(b2, c.start, c.end));
      n < |t2| && t2[n] == t1[n] && BookAt(m, b1, c, t1, n) == BookAt(m, b2, c, t2, n)
  {
    hide Timeline, Period, Valid, AgreeUpTo, ModelsArePointInTime;
    var t1, t2 := Timeline(b1, c.start, c.end), Timeline(b2, c.start, c.end);
    TimelinesAgree(b1, b2, c.start, c.end, until, n);
    if n > 0 {
      TimelineAscends(b1, c.start, c.end);
      assert t1[n - 1] < t1[n];
      BooksAgree(m, b1, b2, c, until, n - 1);
      var before := BookAt(m, b1, c, t1, n - 1);
      if before.Ok? { PeriodsAgree(m, b1, b2, c, before.value, n - 1, until, t1[n - 1], t1[n]); }
    }
  }

  lemma TimelineAscends(b: Bundle, start: int, end: int)
    requires Valid(b)
    ensures Ascending(Timeline(b, start, end))
  {
    TimelineIsCommonOpens(b, start, end);
  }

  /**
   * No look-ahead: what happens after a time cannot show in the equity curve up to it, for any strategy and any
   * regime and eligibility models that see the market only through what was known.
   */
  lemma NoLookAhead(m: Models, b1: Bundle, b2: Bundle, c: Config, until: int, n: nat)
    requires Valid(b1) && Valid(b2) && AcceptedConfig(c) && AgreeUpTo(b1, b2, until) && ModelsArePointInTime(m)
    requires var t1 := Timeline(b1, c.start, c.end); n < |t1| && t1[n] <= until
    ensures var (t1, t2) := (Timeline(b1, c.start, c.end), Timeline(b2, c.start, c.end));
      n < |t2| && PointAt(m, b1, c, t1, n) == PointAt(m, b2, c, t2, n)
  {
    hide Timeline, BookAt, Valid, AgreeUpTo;
    BooksAgree(m, b1, b2, c, until, n);
  }

  /** The engine with the momentum strategy. */
  function WithMomentum(m: Models, p: Momentum.Parameters): Models {
    m.(strategy := Momentum.Strategy(p))
  }

  /** Momentum meets the condition on strategies, so its backtests do not look ahead. */
  lemma MomentumDoesNotLookAhead(m: Models, p: Momentum.Parameters, b1: Bundle, b2: Bundle, c: Config, until: int, n: nat)
    requires PointInTime(m.regime) && (m.eligibility.Some? ==> PointInTime(m.eligibility.value))
    requires Valid(b1) && Valid(b2) && AcceptedConfig(c) && AgreeUpTo(b1, b2, until)
    requires var t1 := Timeline(b1, c.start, c.end); n < |t1| && t1[n] <= until
    ensures var (t1, t2) := (Timeline(b1, c.start, c.end), Timeline(b2, c.start, c.end));
      n < |t2| && PointAt(WithMomentum(m, p), b1, c, t1, n) == PointAt(WithMomentum(m, p), b2, c, t2, n)
  {
    hide Timeline, PointAt, Valid, AgreeUpTo;
    Momentum.SeesOnlyTheKnown(p);
    NoLookAhead(WithMomentum(m, p), b1, b2, c, until, n);
  }

  // ---------------------------------------------------------------- the cost bound

  ghost predicate Fractions(w: map<string, real>) {
    (forall a <- w :: w[a] >= 0.0) && Sum(w.Keys, Lookup(w)) <= 1.0
  }

  /** Costs only take away, and compounding them takes no more than their sum. */
  ghost predicate Sound(k: Book) {
    && 0.0 <= k.equity <= k.feeOnly <= k.gross && Fractions(k.weights)
    && k.feeImpact >= 0.0 && k.slippageImpact >= 0.0
    && k.equity >= k.gross * (1.0 - k.feeImpact - k.slippageImpact)
  }

  lemma SumOver(w: map<string, real>, keys: set<string>)
    requires w.Keys <= keys
    ensures Sum(keys, Lookup(w)) == Sum(w.Keys, Lookup(w))
  {
    assert w.Keys + (keys - w.Keys) == keys;
    SumUnion(w.Keys, keys - w.Keys, Lookup(w));
    SumNothing(keys - w.Keys, Lookup(w));
  }

  /** Both portfolios are fractions, so at most twice the equity changes hands. */
  lemma TurnoverBound(before: map<string, real>, after: map<string, real>)
    requires Fractions(before) && Fractions(after)
    ensures 0.0 <= Turnover(before, after) <= 2.0
  {
    hide Sum;
    var all := after.Keys + before.Keys;
    SumNonNegative(all, Shift(before, after));
    SumAllowance(all, Shift(before, after), Lookup(after), Lookup(before), {}, Lookup(after));
    SumEmpty(Lookup(after));
    SumOver(after, all);
    SumOver(before, all);
  }

  lemma ChargeArithmetic(e: real, fo: real, g: real, impact: real, fee: real, slippage: real)
    requires 0.0 <= e <= fo <= g && impact >= 0.0 && e >= g * (1.0 - impact)
    requires fee >= 0.0 && slippage >= 0.0 && fee + slippage <= 1.0
    ensures 0.0 <= e * (1.0 - fee - slippage) <= fo * (1.0 - fee) <= g
    ensures e * (1.0 - fee - slippage) >= g * (1.0 - impact - fee - slippage)
  {
    var cost := fee + slippage;
    ProductNonNegative(e, 1.0 - cost);
    ProductMonotone(e, fo, 1.0 - fee);
    ProductNonNegative(e, slippage);
    assert e * (1.0 - fee) - e * (1.0 - fee - slippage) == e * slippage;
    ProductNonNegative(fo, fee);
    assert fo - fo * (1.0 - fee) == fo * fee;
    ProductMonotone(g * (1.0 - impact), e, 1.0 - cost);
    ProductNonNegative(g, impact);
    ProductNonNegative(g * impact, cost);
    assert g * (1.0 - impact) * (1.0 - cost) == g * (1.0 - impact - cost) + g * impact * cost;
  }

  lemma CostShare(turnover: real, c: Config)
    requires 0.0 <= turnover <= 2.0 && c.feeRate >= 0.0 && c.slippageRate >= 0.0 && c.feeRate + c.slippageRate <= 0.5
    ensures Cost(turnover, c.feeRate) >= 0.0 && Cost(turnover, c.slippageRate) >= 0.0
    ensures Cost(turnover, c.feeRate) + Cost(turnover, c.slippageRate) <= 1.0
  {
    var f, s := c.feeRate, c.slippageRate;
    ProductNonNegative(turnover, f);
    ProductNonNegative(turnover, s);
    ProductMonotone(turnover, 2.0, f);
    ProductMonotone(turnover, 2.0, s);
    assert turnover * f <= 2.0 * f && turnover * s <= 2.0 * s;
  }

  lemma ChargeKeepsSound(k: Book, w: map<string, real>, turnover: real, fee: real, slippage: real)
    requires Sound(k) && Fractions(w) && fee >= 0.0 && slippage >= 0.0 && fee + slippage <= 1.0
    ensures Sound(Charge(k, w, turnover, fee, slippage))
  {
    hide Fractions;
    ChargeArithmetic(k.equity, k.feeOnly, k.gross, k.feeImpact + k.slippageImpact, fee, slippage);
  }

  lemma GrowArithmetic(e: real, fo: real, g: real, impact: real, growth: real)
    requires 0.0 <= e <= fo <= g && e >= g * (1.0 - impact) && growth >= 0.0
    ensures 0.0 <= e * growth <= fo * growth <= g * growth
    ensures e * growth >= g * growth * (1.0 - impact)
  {
    ProductNonNegative(e, growth);
    ProductMonotone(e, fo, growth);
    ProductMonotone(fo, g, growth);
    ProductMonotone(g * (1.0 - impact), e, growth);
    assert g * (1.0 - impact) * growth == g * growth * (1.0 - impact);
  }

  lemma GrowKeepsSound(k: Book, r: real)
    requires Sound(k) && r >= -1.0
    ensures Sound(Grow(k, r))
  {
    hide Fractions;
    GrowArithmetic(k.equity, k.feeOnly, k.gross, k.feeImpact + k.slippageImpact, 1.0 + r);
  }

  lemma PricesArePositive(b: Bundle, asset: string, t: int)
    requires Valid(b)
    ensures Price(b, asset, t) > 0.0
  {
    if asset in b.candles { OpenAtIsLookup(b.candles[asset], t); }
  }

  lemma GainBound(w: real, now: real, next: real)
    requires w >= 0.0 && now > 0.0 && next > 0.0
    ensures Gain(w, now, next) + w >= 0.0
  {
    assert next / now >= 0.0;
    ProductNonNegative(w, next / now);
    assert Gain(w, now, next) + w == w * (next / now);
  }

  /** A long-only portfolio cannot lose more than it is worth. */
  lemma ReturnBound(b: Bundle, w: map<string, real>, now: int, next: int)
    requires Valid(b) && Fractions(w)
    ensures Return(b, w, now, next) >= -1.0
  {
    hide Sum, Valid, Price, Gain;
    var zero: string -> real := a => 0.0;
    forall a <- w.Keys
      ensures zero(a) <= Contribution(b, w, now, next)(a) + Lookup(w)(a) + (if a in {} then zero(a) else 0.0)
    {
      PricesArePositive(b, a, now);
      PricesArePositive(b, a, next);
      GainBound(w[a], Price(b, a, now), Price(b, a, next));
    }
    SumAllowance(w.Keys, zero, Contribution(b, w, now, next), Lookup(w), {}, zero);
    SumNothing(w.Keys, zero);
    SumEmpty(zero);
  }

  lemma DecisionsAreFractions(m: Models, b: Bundle, t: int)
    requires Accepted(m.constructor_) && Decide(m, b, t).Rebalance?
    ensures Fractions(Decide(m, b, t).weights)
  {
    hide Signalled, Weights, Invested, Approves, Sum, Longs;
    var r := Signalled(m, b, t);
    RepeatsShrink(Selected(m.constructor_, Longs(r.signals)));
    WeightsSumToInvested(m.constructor_, r.regime, Longs(r.signals));
  }

  lemma NewBookIsSound(capital: real)
    requires capital > 0.0
    ensures Sound(Book(capital, capital, capital, map[], 0.0, 0.0, 0.0, 0, 0))
  {
    var none: map<string, real> := map[];
    assert none.Keys == {};
  }

  lemma SoundWeights(k: Book)
    requires Sound(k)
    ensures Fractions(k.weights)
  {
  }

  lemma RejectionKeepsSound(k: Book)
    requires Sound(k)
    ensures Sound(k.(rejected := k.rejected + 1))
  {
  }

  lemma OpeningKeepsSound(m: Models, b: Bundle, c: Config, before: Book, index: nat, now: int)
    requires AcceptedConfig(c) && Accepted(m.constructor_) && c.feeRate + c.slippageRate <= 0.5 && Sound(before)
    requires Opening(m, b, c, before, index, now).Ok?
    ensures Sound(Opening(m, b, c, before, index, now).value)
  {
    hide Decide, Charge, Sound, Turnover, Cost;
    SoundWeights(before);
    var decision := Decide(m, b, now);
    if index % c.rebalanceDays == 0 && decision.Rebalance? {
      DecisionsAreFractions(m, b, now);
      TurnoverBound(before.weights, decision.weights);
      var turnover := Turnover(before.weights, decision.weights);
      CostShare(turnover, c);
      ChargeKeepsSound(before, decision.weights, turnover, Cost(turnover, c.feeRate), Cost(turnover, c.slippageRate));
    } else {
      RejectionKeepsSound(before);
    }
  }

  lemma PeriodKeepsSound(m: Models, b: Bundle, c: Config, before: Book, index: nat, now: int, next: int)
    requires Valid(b) && AcceptedConfig(c) && Accepted(m.constructor_) && c.feeRate + c.slippageRate <= 0.5 && Sound(before)
    requires Period(m, b, c, before, index, now, next).Ok?
    ensures Sound(Period(m, b, c, before, index, now, next).value)
  {
    hide Opening, Return, Grow, Sound, Valid;
    var held := Opening(m, b, c, before, index, now).value;
    OpeningKeepsSound(m, b, c, before, index, now);
    SoundWeights(held);
    ReturnBound(b, held.weights, now, next);
    GrowKeepsSound(held, Return(b, held.weights, now, next));
  }

  /**
   * The cost bound over every run and every strategy: 0 <= equity <= fee-only equity <= gross equity, and the equity
   * keeps at least the gross equity's share 1 - (all fee impacts) - (all slippage impacts).
   */
  lemma {:induction false} CostsAreBounded(m: Models, b: Bundle, c: Config, timeline: seq<int>, n: nat)
    requires Valid(b) && AcceptedConfig(c) && Accepted(m.constructor_) && n < |timeline|
    requires c.feeRate + c.slippageRate <= 0.5 && BookAt(m, b, c, timeline, n).Ok?
    ensures Sound(BookAt(m, b, c, timeline, n).value)
  {
    hide Period, Sound, Valid;
    if n == 0 {
      NewBookIsSound(c.capital);
    } else {
      CostsAreBounded(m, b, c, timeline, n - 1);
      PeriodKeepsSound(m, b, c, BookAt(m, b, c, timeline, n - 1).value, n - 1, timeline[n - 1], timeline[n]);
    }
  }

  // ---------------------------------------------------------------- runs that end

  /** The strategy signals distinct assets of the universe. */
  ghost predicate SignalsWithin(f: Strategy) {
    forall b, t, regime, eligible | Valid(b) ::
      var longs := Longs(f(b, t, regime, eligible).signals); NoRepeats(longs) && forall a <- longs :: a in b.assets
  }

  lemma DecisionIsMade(m: Models, b: Bundle, t: int)
    requires Valid(b) && SignalsWithin(m.strategy)
    ensures !Decide(m, b, t).Raised?
  {
    hide Longs, Valid, Approves, Invested;
    var r := m.strategy(b, t, m.regime(b, t), Eligible(m, b, t));
    var chosen := Selected(m.constructor_, Longs(r.signals));
    RepeatsShrink(chosen);
    WeightEntries(m.constructor_, r.regime, Longs(r.signals));
    hide Weights, AssetSet;
  }

  /** A strategy that signals distinct assets of the universe never ends a run by an exception. */
  lemma {:induction false} RunsToTheEnd(m: Models, b: Bundle, c: Config, timeline: seq<int>, n: nat)
    requires Valid(b) && AcceptedConfig(c) && n < |timeline| && SignalsWithin(m.strategy)
    ensures BookAt(m, b, c, timeline, n).Ok?
  {
    if n > 0 {
      RunsToTheEnd(m, b, c, timeline, n - 1);
      DecisionIsMade(m, b, timeline[n - 1]);
      hide Decide, Return, Grow, Charge, Turnover, Valid, SignalsWithin;
    }
  }

  /** Momentum is such a strategy. */
  lemma MomentumSignalsWithin(p: Momentum.Parameters)
    ensures SignalsWithin(Momentum.Strategy(p))
  {
    hide Momentum.Signals, Valid, KnownAt;
    forall b, t, regime: Regime, eligible: Option<seq<string>> | Valid(b)
      ensures var longs := Longs(Momentum.Strategy(p)(b, t, regime, eligible).signals);
        NoRepeats(longs) && forall a <- longs :: a in b.assets
    {
      MomentumWithin(p, b, t, regime, eligible);
    }
  }

  lemma MomentumWithin(p: Momentum.Parameters, b: Bundle, t: int, regime: Regime, eligible: Option<seq<string>>)
    requires Valid(b)
    ensures var longs := Longs(Momentum.Strategy(p)(b, t, regime, eligible).signals);
      NoRepeats(longs) && forall a <- longs :: a in b.assets
  {
    Momentum.KnownIsValid(b, t);
    var known := KnownAt(b, t);
    assert known.assets == b.assets;
    Momentum.ValidIsUsable(known);
    assert NoRepeats(known.assets);
    hide Momentum.Signals, Valid, KnownAt, Momentum.Usable;
    Momentum.SignalsAreDistinct(p, known, regime, eligible);
  }

  // ---------------------------------------------------------------- the limit of the rates

  /** Whatever the market and the models, the equity of a run is negative nowhere. */
  ghost predicate StaysSolvent(m: Models, b: Bundle, c: Config)
    requires Valid(b) && AcceptedConfig(c)
  {
    var timeline := Timeline(b, c.start, c.end);
    forall n :: 0 <= n < |timeline| && BookAt(m, b, c, timeline, n).Ok? ==> BookAt(m, b, c, timeline, n).value.equity >= 0.0
  }

  /** Three days on which nothing moves. */
  function FlatMarket(): Bundle {
    var candles := seq(3, t => Candle(t, t, 1.0, 1.0, 0.0));
    Bundle(["A", "B"], map["A" := candles, "B" := candles])
  }

  /** All in the first asset for a share of the equity, then all in the second. */
  function Rotation(share: real): Models {
    Models((b, t) => if t == 0 then Neutral else RiskOn, None,
           (b: Bundle, t: int, regime: Regime, eligible: Option<seq<string>>) =>
             StrategyResult(regime, [Signal(if t == 0 then "A" else "B", true, 1.0)]),
           Constructor(1, 1.0, 1.0, share), AllocationPolicy(false, 1, 1.0, 1.0))
  }

  function ThreeDays(fee: real, slippage: real): Config {
    Config(0, 3, 1.0, 1, fee, slippage)
  }

  lemma FlatMarketIsValid()
    ensures Valid(FlatMarket())
  {
  }

  lemma FlatOpens(asset: string, t: int)
    requires asset in ["A", "B"]
    ensures OpenAt(FlatMarket().candles[asset], t) == if 0 <= t < 3 then Some(1.0) else None
  {
    FlatMarketIsValid();
    var s := FlatMarket().candles[asset];
    OpenAtIsLookup(s, t);
    if 0 <= t < 3 { assert s[t] in s; }
  }

  lemma FlatTimeline()
    ensures Valid(FlatMarket()) && Timeline(FlatMarket(), 0, 3) == [0, 1, 2]
  {
    FlatMarketIsValid();
    var timeline := Timeline(FlatMarket(), 0, 3);
    TimelineIsCommonOpens(FlatMarket(), 0, 3);
    forall t ensures t in timeline <==> t in [0, 1, 2] {
      FlatOpens("A", t);
      FlatOpens("B", t);
    }
    AscendingIsUnique([0, 1, 2], timeline);
  }

  lemma FlatReturn(w: map<string, real>, now: int)
    requires 0 <= now < 2 && w.Keys <= {"A", "B"}
    ensures Return(FlatMarket(), w, now, now + 1) == 0.0
  {
    forall a <- w.Keys ensures Contribution(FlatMarket(), w, now, now + 1)(a) == 0.0 {
      FlatOpens(a, now);
      FlatOpens(a, now + 1);
    }
    SumNothing(w.Keys, Contribution(FlatMarket(), w, now, now + 1));
  }

  lemma RotationDecides(share: real, t: int)
    requires 0.0 <= share <= 1.0
    ensures Decide(Rotation(share), FlatMarket(), t) == Rebalance(if t == 0 then map["A" := share] else map["B" := 1.0])
  {
    var m := Rotation(share);
    var r := Signalled(m, FlatMarket(), t);
    var asset := if t == 0 then "A" else "B";
    assert r.signals[1..] == [] && Longs(r.signals) == [asset] + Longs([]) == [asset];
    RepeatsShrink([asset]);
    assert Weights(m.constructor_, r.regime, [asset]) == map[asset := if t == 0 then share else 1.0];
  }

  lemma TurnoverOfEntry(share: real)
    requires share >= 0.0
    ensures Turnover(map[], map["A" := share]) == share
  {
    var a: map<string, real>, none: map<string, real> := map["A" := share], map[];
    assert a.Keys + none.Keys == {"A"} == {} + {"A"};
    SumAdd({}, "A", Shift(none, a));
    SumEmpty(Shift(none, a));
  }

  lemma TurnoverOfRotation(share: real)
    requires share >= 0.0
    ensures Turnover(map["A" := share], map["B" := 1.0]) == share + 1.0
  {
    var a, b := map["A" := share], map["B" := 1.0];
    assert b.Keys + a.Keys == {"B"} + {"A"};
    SumAdd({}, "B", Shift(a, b));
    SumAdd({"B"}, "A", Shift(a, b));
    SumEmpty(Shift(a, b));
    assert {} + {"B"} == {"B"};
  }

  lemma ChargedEquity(k: Book, w: map<string, real>, turnover: real, c: Config)
    ensures Charge(k, w, turnover, Cost(turnover, c.feeRate), Cost(turnover, c.slippageRate)).equity
            == k.equity * (1.0 - Cost(turnover, c.feeRate + c.slippageRate))
  {
    assert Cost(turnover, c.feeRate) + Cost(turnover, c.slippageRate) == Cost(turnover, c.feeRate + c.slippageRate);
    hide Cost;
  }

  lemma RotationPeriod(share: real, c: Config, before: Book, now: int)
    requires 0.0 <= share <= 1.0 && AcceptedConfig(c) && c.rebalanceDays == 1 && 0 <= now < 2
    ensures var w := if now == 0 then map["A" := share] else map["B" := 1.0];
      var r := Period(Rotation(share), FlatMarket(), c, before, now, now, now + 1);
      && r.Ok? && r.value.weights == w
      && r.value.equity == before.equity * (1.0 - Cost(Turnover(before.weights, w), c.feeRate + c.slippageRate))
  {
    hide Decide, Turnover, Return, Cost, FlatMarket, Rotation;
    var w := if now == 0 then map["A" := share] else map["B" := 1.0];
    RotationDecides(share, now);
    FlatReturn(w, now);
    ChargedEquity(before, w, Turnover(before.weights, w), c);
  }

  /** A share for the first day after which the rotation costs more than everything. */
  lemma CostlyShare(rate: real) returns (share: real)
    requires rate > 0.5
    ensures 0.0 <= share <= 1.0 && Cost(share, rate) < 1.0 < Cost(share + 1.0, rate)
  {
    if rate < 1.0 {
      share := 1.0;
      assert Cost(2.0, rate) == 2.0 * rate;
    } else {
      var inverse := 1.0 / rate;
      QuotientTimes(1.0, rate);
      HalfOfInverse(inverse, rate);
      share := inverse / 2.0;
      assert Cost(share, rate) == 0.5 && Cost(share + 1.0, rate) == 0.5 + rate;
    }
  }

  lemma HalfOfInverse(inverse: real, rate: real)
    requires rate >= 1.0 && inverse * rate == 1.0
    ensures 0.0 <= inverse / 2.0 <= 1.0 && inverse / 2.0 * rate == 0.5 && (inverse / 2.0 + 1.0) * rate == 0.5 + rate
  {
    var half := inverse / 2.0;
    if inverse < 0.0 { ProductStrict(inverse, 0.0, rate); }
    if inverse > 1.0 { ProductStrict(1.0, inverse, rate); }
    assert half * rate + half * rate == inverse * rate;
  }

  lemma NegativeProduct(a: real, b: real)
    requires a > 0.0 && b < 0.0
    ensures a * b < 0.0
  {
  }

  lemma BooksOfTwoPeriods(m: Models, b: Bundle, c: Config, timeline: seq<int>)
    requires AcceptedConfig(c) && |timeline| > 2
    ensures BookAt(m, b, c, timeline, 1) == Period(m, b, c, NewBook(c.capital), 0, timeline[0], timeline[1])
    ensures BookAt(m, b, c, timeline, 1).Ok? ==>
      BookAt(m, b, c, timeline, 2) == Period(m, b, c, BookAt(m, b, c, timeline, 1).value, 1, timeline[1], timeline[2])
  {
    hide Period;
    assert BookAt(m, b, c, timeline, 0) == Ok(NewBook(c.capital));
  }

  /** The run: on the second rebalance everything moves from one asset to the other and the equity turns negative. */
  lemma RotationGoesNegative(fee: real, slippage: real, share: real)
    requires fee >= 0.0 && slippage >= 0.0 && 0.0 <= share <= 1.0
    requires Cost(share, fee + slippage) < 1.0 < Cost(share + 1.0, fee + slippage)
    ensures Valid(FlatMarket()) && !StaysSolvent(Rotation(share), FlatMarket(), ThreeDays(fee, slippage))
  {
    hide Period, BookAt, Turnover, Cost, FlatMarket, Rotation, Valid, Timeline;
    var m, b, c, timeline := Rotation(share), FlatMarket(), ThreeDays(fee, slippage), [0, 1, 2];
    FlatTimeline();
    BooksOfTwoPeriods(m, b, c, timeline);
    RotationPeriod(share, c, NewBook(1.0), 0);
    TurnoverOfEntry(share);
    var k := BookAt(m, b, c, timeline, 1).value;
    RotationPeriod(share, c, k, 1);
    TurnoverOfRotation(share);
    var left, factor := 1.0 - Cost(share, fee + slippage), 1.0 - Cost(share + 1.0, fee + slippage);
    NegativeProduct(left, factor);
    assert k.equity == 1.0 * left && BookAt(m, b, c, timeline, 2).value.equity == k.equity * factor;
    assert BookAt(m, b, c, timeline, 2).value.equity < 0.0;
  }

  /** Rates that sum to at most one half keep the equity of every run from turning negative; greater ones do not. */
  lemma RateLimitIsExact(fee: real, slippage: real)
    requires fee >= 0.0 && slippage >= 0.0
    ensures fee + slippage <= 0.5 <==>
      forall m: Models, b, c: Config :: Valid(b) && AcceptedConfig(c) && Accepted(m.constructor_) && c.feeRate == fee && c.slippageRate == slippage
        ==> StaysSolvent(m, b, c)
  {
    hide Valid, Cost;
    if fee + slippage <= 0.5 {
      forall m: Models, b, c: Config | Valid(b) && AcceptedConfig(c) && Accepted(m.constructor_) && c.feeRate == fee && c.slippageRate == slippage
        ensures StaysSolvent(m, b, c)
      {
        hide BookAt, Timeline, Fractions;
        var timeline := Timeline(b, c.start, c.end);
        forall n | 0 <= n < |timeline| && BookAt(m, b, c, timeline, n).Ok? ensures BookAt(m, b, c, timeline, n).value.equity >= 0.0 {
          CostsAreBounded(m, b, c, timeline, n);
        }
      }
    } else {
      var share := CostlyShare(fee + slippage);
      RotationGoesNegative(fee, slippage, share);
      hide StaysSolvent;
    }
  }
}
