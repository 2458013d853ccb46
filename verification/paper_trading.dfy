/** Deterministic order approval (risk/engine.py). */
module Risk {
  import opened Wrappers
  import opened Orders

  datatype RiskPolicy = RiskPolicy(
    maximumAssetFraction: real, maximumPositions: int,
    maximumSingleOrderNotional: real, minimumOrderNotional: real, killSwitch: bool)

  datatype RiskError =
    | BadPositions | BadAssetFraction | NegativeLimit | MinimumAboveMaximum
    | KillSwitchActive | CoreInvestmentForbidden | BelowMinimum | AboveMaximum

  function MakePolicy(assetFraction: real, positions: int, maximum: real, minimum: real): Result<RiskPolicy, RiskError> {
    if positions <= 0 then Err(BadPositions)
    else if !(0.0 <= assetFraction <= 1.0) then Err(BadAssetFraction)
    else if maximum < 0.0 || minimum < 0.0 then Err(NegativeLimit)
    else if minimum > maximum then Err(MinimumAboveMaximum)
    else Ok(RiskPolicy(assetFraction, positions, maximum, minimum, false))
  }

  function Approve(policy: RiskPolicy, intent: Intent, referencePrice: real): Result<Approved, RiskError> {
    var notional := intent.quantity * referencePrice;
    if policy.killSwitch then Err(KillSwitchActive)
    else if intent.purpose.CoreInvestment? then Err(CoreInvestmentForbidden)
    else if notional < policy.minimumOrderNotional then Err(BelowMinimum)
    else if notional > policy.maximumSingleOrderNotional then Err(AboveMaximum)
    else Ok(Approved(intent, "v1"))
  }
}

/** The full-fill paper gateway (infrastructure/paper_exchange.py). */
module Gateway {
  import opened Wrappers
  import opened Orders
  import opened Reals

  datatype GatewayError = PriceUnavailable | ReportRefused

  datatype Terms = Terms(feeRate: real, slippageRate: real, model: FillModel)

  /** The rates the gateway's constructor accepts. */
  predicate Accepted(t: Terms) {
    t.feeRate >= 0.0 && t.slippageRate >= 0.0 && (t.model.PaperFillV1? ==> t.slippageRate == 0.0)
  }

  function FillPrice(t: Terms, side: Side, reference: real): real {
    match t.model
    case PaperFillV1 => reference
    case PaperFillV2 => reference * (1.0 + (if side.Buy? then 1.0 else -1.0) * t.slippageRate)
  }

  function ReportFor(t: Terms, intent: Intent, reference: real, now: int): Report {
    var price := FillPrice(t, intent.side, reference);
    Report(PaperOrder(intent.intentId), intent.side, intent.quantity, price, price * intent.quantity * t.feeRate, now,
           t.model, t.feeRate, t.slippageRate)
  }

  class PaperExchange {
    const prices: map<string, real>
    const terms: Terms
    var reports: map<Id, Report>

    constructor (prices: map<string, real>, terms: Terms)
      requires Accepted(terms)
      ensures this.prices == prices && this.terms == terms && reports == map[]
    {
      this.prices, this.terms, this.reports := prices, terms, map[];
    }

    /** A second submission of one intent returns the first report; a refused one changes nothing. */
    method Submit(order: Approved, now: int) returns (r: Result<Report, GatewayError>)
      modifies this
      ensures var intent := order.intent; var symbol := intent.pair.Symbol();
        if intent.intentId in old(reports) then r == Ok(old(reports)[intent.intentId]) && reports == old(reports)
        else if symbol !in prices then r == Err(PriceUnavailable) && reports == old(reports)
        else if !ReportFor(terms, intent, prices[symbol], now).Accepted() then r == Err(ReportRefused) && reports == old(reports)
        else r == Ok(ReportFor(terms, intent, prices[symbol], now)) && reports == old(reports)[intent.intentId := r.value]
    {
      if order.intent.intentId in reports {
        return Ok(reports[order.intent.intentId]);
      }
      var symbol := order.intent.pair.Symbol();
      if symbol !in prices {
        return Err(PriceUnavailable);
      }
      var report := ReportFor(terms, order.intent, prices[symbol], now);
      if !report.Accepted() {
        return Err(ReportRefused);
      }
      reports := reports[order.intent.intentId := report];
      r := Ok(report);
    }
  }

  /** A sale at a slippage of everything or more has no positive price; a purchase always has one. */
  predicate Fillable(t: Terms, side: Side) { side.Buy? || t.slippageRate < 1.0 }

  lemma ReportIsAcceptedIff(t: Terms, intent: Intent, reference: real, now: int)
    requires Accepted(t) && intent.quantity > 0.0 && reference > 0.0
    ensures ReportFor(t, intent, reference, now).Accepted() <==> Fillable(t, intent.side)
  {
    var price := FillPrice(t, intent.side, reference);
    FillPriceSign(t, intent.side, reference);
    if price > 0.0 {
      ProductNonNegative(price, intent.quantity);
      ProductNonNegative(price * intent.quantity, t.feeRate);
    }
    hide FillPrice;
  }

  lemma FillPriceSign(t: Terms, side: Side, reference: real)
    requires Accepted(t) && reference > 0.0
    ensures FillPrice(t, side, reference) > 0.0 <==> Fillable(t, side)
  {
    if t.model.PaperFillV2? {
      var factor := 1.0 + (if side.Buy? then 1.0 else -1.0) * t.slippageRate;
      assert FillPrice(t, side, reference) == factor * reference;
      if factor > 0.0 { ProductStrict(0.0, factor, reference); } else { ProductMonotone(factor, 0.0, reference); }
    }
  }
}

/** Turning target weights into orders (dynamic_paper_rebalance.py, _plan). */
module Planning {
  import opened Wrappers
  import opened Orders
  import opened Reals
  import opened Sums
  import TextOrder

  datatype Input = Input(
    portfolioId: string, purpose: Purpose, cashAsset: string, cash: real, holdings: map<string, real>,
    members: map<string, Pair>, prices: map<string, real>, targets: map<string, real>,
    minimumOrderNotional: real, minimumRebalanceFraction: real, blockBuys: bool, blockedBuys: set<string>, asOf: int)

  datatype Row = Row(intent: Intent, symbol: string, side: Side, quantity: real, price: real, notional: real)

  function SymbolOf(i: Input, base: string): string { Pair(base, i.cashAsset).Symbol() }

  /** What the rebalance guarantees before it plans: priced holdings, positive prices and quantities, no negative weight. */
  ghost predicate WellPosed(i: Input) {
    && (forall b <- i.holdings :: i.holdings[b] > 0.0 && SymbolOf(i, b) in i.prices)
    && (forall s <- i.prices :: i.prices[s] > 0.0 && s in i.members && i.members[s].Symbol() == s
                                && i.members[s].quote == i.cashAsset)
    && (forall s <- i.targets :: i.targets[s] >= 0.0)
  }

  function CurrentQuantities(i: Input): map<string, real> {
    CurrentSymbolsAreDistinct(i);
    map b | b in i.holdings :: SymbolOf(i, b) := i.holdings[b]
  }

  lemma CurrentSymbolsAreDistinct(i: Input)
    ensures forall a, b :: a in i.holdings && b in i.holdings && SymbolOf(i, a) == SymbolOf(i, b) ==> a == b
  {
    forall a, b | SymbolOf(i, a) == SymbolOf(i, b) ensures a == b { SymbolIsInjective(a, b, i.cashAsset); }
  }

  function Quantity(i: Input, symbol: string): real {
    if symbol in CurrentQuantities(i) then CurrentQuantities(i)[symbol] else 0.0
  }

  function Current(i: Input, symbol: string): real {
    if symbol in i.prices then Quantity(i, symbol) * i.prices[symbol] else 0.0
  }

  function Target(i: Input, equity: real, symbol: string): real {
    if symbol in i.targets then equity * i.targets[symbol] else 0.0
  }

  function Symbols(i: Input): set<string> {
    CurrentQuantities(i).Keys + i.targets.Keys
  }

  function Threshold(i: Input, equity: real): real {
    Max(i.minimumOrderNotional, equity * i.minimumRebalanceFraction)
  }

  /** The order the plan holds for one symbol, if it holds one. */
  function PlanRow(i: Input, equity: real, symbol: string): (r: Option<Row>)
    requires WellPosed(i)
    ensures r.Some? ==> r.value.symbol == symbol && r.value.side == r.value.intent.side
  {
    if symbol !in i.prices then None else
      var price := i.prices[symbol];
      var difference := Target(i, equity, symbol) - Current(i, symbol);
      if Abs(difference) < Threshold(i, equity) then None else
        var side := if difference > 0.0 then Buy else Sell;
        if side.Buy? && (i.blockBuys || symbol in i.blockedBuys) then None else
          var quantity :=
            if side.Sell? && Target(i, equity, symbol) == 0.0 then Quantity(i, symbol)
            else if side.Sell? then Min(Abs(difference) / price, Quantity(i, symbol))
            else Abs(difference) / price;
          var intent := Intent(i.portfolioId, i.purpose, i.members[symbol], side, quantity, i.asOf,
                               PlanDigest(i.portfolioId, i.asOf, symbol, side));
          Some(Row(intent, symbol, side, quantity, price, Abs(difference)))
  }

  /** Sells come first; within a side rows are ordered by symbol. */
  predicate RowBefore(a: Row, b: Row) {
    (a.side.Sell? && b.side.Buy?) || (a.side == b.side && TextOrder.Before(a.symbol, b.symbol))
  }

  ghost predicate Ordered(rows: seq<Row>) {
    forall i, j :: 0 <= i < j < |rows| ==> RowBefore(rows[i], rows[j])
  }

  /** The rows are exactly the orders of the given symbols, in order. */
  ghost predicate PlansExactly(i: Input, equity: real, symbols: set<string>, rows: seq<Row>)
    requires WellPosed(i)
  {
    && Ordered(rows)
    && (forall r <- rows :: r.symbol in symbols && PlanRow(i, equity, r.symbol) == Some(r))
    && (forall s <- symbols :: PlanRow(i, equity, s).Some? ==> PlanRow(i, equity, s).value in rows)
  }

  ghost predicate IsPlan(i: Input, equity: real, rows: seq<Row>)
    requires WellPosed(i)
  {
    PlansExactly(i, equity, Symbols(i), rows)
  }

  function Insert(r: Row, rows: seq<Row>): seq<Row> {
    if rows == [] || RowBefore(r, rows[0]) then [r] + rows else [rows[0]] + Insert(r, rows[1..])
  }

  lemma {:induction false} InsertKeepsOrder(r: Row, rows: seq<Row>)
    requires Ordered(rows) && forall x <- rows :: x.symbol != r.symbol
    ensures Ordered(Insert(r, rows))
    ensures forall x :: x in Insert(r, rows) <==> x == r || x in rows
  {
    if rows == [] {
    } else if RowBefore(r, rows[0]) {
      forall j | 0 <= j < |rows| ensures RowBefore(r, rows[j]) {
        if j > 0 && r.side == rows[0].side == rows[j].side {
          TextOrder.Transitive(r.symbol, rows[0].symbol, rows[j].symbol);
        }
      }
    } else {
      assert rows == [rows[0]] + rows[1..];
      InsertKeepsOrder(r, rows[1..]);
      TextOrder.Trichotomy(r.symbol, rows[0].symbol);
      assert RowBefore(rows[0], r);
      forall x | x in Insert(r, rows[1..]) ensures RowBefore(rows[0], x) {}
    }
  }

  lemma PlanOneMore(i: Input, equity: real, symbols: set<string>, symbol: string, rows: seq<Row>)
    requires WellPosed(i) && symbol !in symbols && PlansExactly(i, equity, symbols, rows)
    ensures var row := PlanRow(i, equity, symbol);
      PlansExactly(i, equity, symbols + {symbol}, if row.Some? then Insert(row.value, rows) else rows)
  {
    hide PlanRow;
    var row := PlanRow(i, equity, symbol);
    if row.Some? {
      InsertKeepsOrder(row.value, rows);
    }
  }

  /** Visits the symbols in any order; the sorted result is the plan. */
  method Plan(i: Input, equity: real) returns (rows: seq<Row>)
    requires WellPosed(i)
    ensures IsPlan(i, equity, rows)
  {
    hide PlanRow, PlansExactly, WellPosed, Insert, Symbols, CurrentQuantities;
    var todo := Symbols(i);
    ghost var done: set<string> := {};
    rows := [];
    assert PlansExactly(i, equity, {}, []) by { EmptyPlan(i, equity); }
    while todo != {}
      invariant todo !! done && todo + done == Symbols(i)
      invariant PlansExactly(i, equity, done, rows)
      decreases |todo|
    {
      var symbol :| symbol in todo;
      PlanOneMore(i, equity, done, symbol, rows);
      var row := PlanRow(i, equity, symbol);
      if row.Some? {
        rows := Insert(row.value, rows);
      }
      todo := todo - {symbol};
      done := done + {symbol};
    }
    assert done == Symbols(i);
  }

  lemma EmptyPlan(i: Input, equity: real)
    requires WellPosed(i)
    ensures PlansExactly(i, equity, {}, [])
  {
  }

  lemma RowBeforeIsStrict(a: Row, b: Row)
    requires RowBefore(a, b)
    ensures !RowBefore(b, a) && a != b
  {
    TextOrder.Irreflexive(a.symbol);
    if a.side == b.side && RowBefore(b, a) {
      TextOrder.Transitive(a.symbol, b.symbol, a.symbol);
    }
  }

  /** The order in which the symbols are visited does not show in the plan. */
  lemma {:induction false} OrderedRowsAreUnique(a: seq<Row>, b: seq<Row>)
    requires Ordered(a) && Ordered(b) && forall x :: x in a <==> x in b
    ensures a == b
  {
    assert (a != [] ==> a[0] in a) && (b != [] ==> b[0] in b);
    if a != [] {
      var j :| 0 <= j < |b| && b[j] == a[0];
      var k :| 0 <= k < |a| && a[k] == b[0];
      if j > 0 && k > 0 {
        RowBeforeIsStrict(b[0], b[j]);
      }
      assert a[0] == b[0];
      forall x ensures x in a[1..] <==> x in b[1..] {
        if x in a[1..] {
          var m :| 1 <= m < |a| && a[m] == x;
          RowBeforeIsStrict(a[0], a[m]);
          assert a[m] in b;
          var n :| 0 <= n < |b| && b[n] == x;
          assert b[n] == b[1..][n - 1];
        }
        if x in b[1..] {
          var m :| 1 <= m < |b| && b[m] == x;
          RowBeforeIsStrict(b[0], b[m]);
          assert b[m] in a;
          var n :| 0 <= n < |a| && a[n] == x;
          assert a[n] == a[1..][n - 1];
        }
      }
      OrderedRowsAreUnique(a[1..], b[1..]);
      assert a == [a[0]] + a[1..] && b == [b[0]] + b[1..];
    }
  }

  lemma PlanIsDetermined(i: Input, equity: real, a: seq<Row>, b: seq<Row>)
    requires WellPosed(i) && IsPlan(i, equity, a) && IsPlan(i, equity, b)
    ensures a == b
  {
    forall x ensures x in a <==> x in b {}
    OrderedRowsAreUnique(a, b);
  }

  // ---------------------------------------------------------------- amounts

  ghost function Value(i: Input): string -> real {
    b => if b in i.holdings then Current(i, SymbolOf(i, b)) else 0.0
  }

  /** Cash plus every holding at its price. */
  ghost function Equity(i: Input): real {
    i.cash + Sum(i.holdings.Keys, Value(i))
  }

  ghost function Currents(i: Input): string -> real { s => Current(i, s) }

  ghost function Targets(i: Input, equity: real): string -> real { s => Target(i, equity, s) }

  ghost function Weights(i: Input): string -> real { s => if s in i.targets then i.targets[s] else 0.0 }

  lemma CurrentsAreTheHoldings(i: Input)
    ensures Sum(Symbols(i), Currents(i)) == Equity(i) - i.cash
  {
    hide Current, Sum, SymbolOf;
    CurrentSymbolsAreDistinct(i);
    var rename := b => SymbolOf(i, b);
    var held := set b | b in i.holdings.Keys :: rename(b);
    assert held == CurrentQuantities(i).Keys;
    SumReindex(i.holdings.Keys, rename, held, Currents(i), Value(i));
    assert Sum(held, Currents(i)) == Sum(i.holdings.Keys, Value(i));
    var rest := i.targets.Keys - held;
    assert held + rest == Symbols(i);
    SumUnion(held, rest, Currents(i));
    forall s | s in rest ensures Currents(i)(s) == 0.0 { NothingHeld(i, s); }
    SumNothing(rest, Currents(i));
  }

  lemma NothingHeld(i: Input, symbol: string)
    requires symbol !in CurrentQuantities(i)
    ensures Current(i, symbol) == 0.0
  {
  }

  lemma TargetIsScaledWeight(i: Input, equity: real, s: string)
    ensures Target(i, equity, s) == Times(equity, Weights(i)(s))
  {
  }

  lemma TargetsAreScaledWeights(i: Input, equity: real)
    ensures Sum(Symbols(i), Targets(i, equity)) == Times(equity, Sum(i.targets.Keys, Weights(i)))
  {
    hide Times, Target;
    forall s ensures Targets(i, equity)(s) == Times(equity, Weights(i)(s)) { TargetIsScaledWeight(i, equity, s); }
    SumScale(Symbols(i), equity, Weights(i), Targets(i, equity));
    var rest := Symbols(i) - i.targets.Keys;
    assert i.targets.Keys + rest == Symbols(i);
    SumUnion(i.targets.Keys, rest, Weights(i));
    SumNothing(rest, Weights(i));
  }
}
