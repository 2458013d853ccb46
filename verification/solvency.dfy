/**
 * Executing a plan: approve, fill and post each order in turn (dynamic_paper_rebalance.py, _execute),
 * and the condition under which a whole plan goes through.
 */
module Solvency {
  import opened Wrappers
  import opened Orders
  import opened Reals
  import opened Sums
  import opened Risk
  import opened Gateway
  import opened Planning
  import opened Ledger
  import TextOrder

  datatype ExecError =
    | BadTerms | RiskRefused(risk: RiskError) | PriceMissing | GatewayRefused(gateway: GatewayError) | LedgerRefused(cause: Error)

  datatype Executed = Executed(state: State, error: Option<ExecError>)

  function ExecuteRow(s: State, r: Row, prices: map<string, real>, t: Terms, policy: RiskPolicy, clock: Id -> int)
      : Result<State, ExecError>
    requires Valid(s)
  {
    var symbol := r.intent.pair.Symbol();
    if symbol !in prices then Err(PriceMissing) else
      match Approve(policy, r.intent, prices[symbol])
      case Err(e) => Err(RiskRefused(e))
      case Ok(order) =>
        var report := ReportFor(t, r.intent, prices[symbol], clock(r.intent.intentId));
        var (outcome, s') := Post(s, order, report);
        if !report.Accepted() then Err(GatewayRefused(ReportRefused))
        else if outcome.Refused? then Err(LedgerRefused(outcome.error)) else Ok(s')
  }

  /** The orders in turn; the first refusal stops the run and keeps what was posted before it. */
  function Execute(s: State, rows: seq<Row>, prices: map<string, real>, t: Terms, policy: RiskPolicy, clock: Id -> int)
      : (r: Executed)
    requires Valid(s)
    ensures Valid(r.state)
    decreases |rows|
  {
    if rows == [] then Executed(s, None) else
      match ExecuteRow(s, rows[0], prices, t, policy, clock)
      case Err(e) => Executed(s, Some(e))
      case Ok(s') => RowKeepsValid(s, rows[0], prices, t, policy, clock); Execute(s', rows[1..], prices, t, policy, clock)
  }

  lemma RowKeepsValid(s: State, r: Row, prices: map<string, real>, t: Terms, policy: RiskPolicy, clock: Id -> int)
    requires Valid(s)
    ensures match ExecuteRow(s, r, prices, t, policy, clock) case Ok(s') => Valid(s') case Err(_) => true
  {
    hide Post, ReportFor, Approve, Valid;
    var symbol := r.intent.pair.Symbol();
    if symbol in prices && Approve(policy, r.intent, prices[symbol]).Ok? {
      PostKeepsValid(s, Approve(policy, r.intent, prices[symbol]).value,
                     ReportFor(t, r.intent, prices[symbol], clock(r.intent.intentId)));
    }
  }

  method ExecutePlan(ledger: PaperLedger, rows: seq<Row>, prices: map<string, real>, t: Terms, assetFraction: real,
                     maximumPositions: int, minimumOrderNotional: real, equity: real, clock: Id -> int)
      returns (error: Option<ExecError>)
    requires Valid(ledger.Now())
    requires forall i, j :: 0 <= i < j < |rows| ==> rows[i].intent.intentId != rows[j].intent.intentId
    modifies ledger
    ensures Valid(ledger.Now())
    ensures !Accepted(t) ==> error == Some(BadTerms) && ledger.Now() == old(ledger.Now())
    ensures Accepted(t) ==>
      match MakePolicy(assetFraction, maximumPositions, equity, minimumOrderNotional)
      case Err(e) => error == Some(RiskRefused(e)) && ledger.Now() == old(ledger.Now())
      case Ok(policy) => Executed(ledger.Now(), error) == Execute(old(ledger.Now()), rows, prices, t, policy, clock)
  {
    hide Post, ReportFor, Approve, Valid;
    if !Accepted(t) {
      return Some(BadTerms);
    }
    var made := MakePolicy(assetFraction, maximumPositions, equity, minimumOrderNotional);
    if made.Err? {
      return Some(RiskRefused(made.error));
    }
    var policy := made.value;
    var exchange := new PaperExchange(prices, t);
    ghost var start := ledger.Now();
    assert rows[0..] == rows;
    for i := 0 to |rows|
      invariant Valid(ledger.Now()) && ledger.Now().executions == ledger.executions
      invariant fresh(exchange) && exchange.prices == prices && exchange.terms == t
      invariant forall id <- exchange.reports :: exists j :: 0 <= j < i && rows[j].intent.intentId == id
      invariant Execute(start, rows, prices, t, policy, clock) == Execute(ledger.Now(), rows[i..], prices, t, policy, clock)
    {
      var intent := rows[i].intent;
      assert rows[i..][0] == rows[i] && rows[i..][1..] == rows[i + 1..];
      assert intent.intentId !in exchange.reports;
      RowKeepsValid(ledger.Now(), rows[i], prices, t, policy, clock);
      var symbol := intent.pair.Symbol();
      if symbol !in prices {
        return Some(PriceMissing);
      }
      var approved := Approve(policy, intent, prices[symbol]);
      if approved.Err? {
        return Some(RiskRefused(approved.error));
      }
      assert approved.value.intent == intent by { ApprovalKeepsIntent(policy, intent, prices[symbol]); }
      var report := exchange.Submit(approved.value, clock(intent.intentId));
      if report.Err? {
        return Some(GatewayRefused(report.error));
      }
      OnlyAppliedFillsChangeState(ledger.Now(), approved.value, report.value);
      var outcome := ledger.ApplyExecution(approved.value, report.value);
      if outcome.Refused? {
        return Some(LedgerRefused(outcome.error));
      }
    }
    assert rows[|rows|..] == [];
    error := None;
  }

  lemma ApprovalKeepsIntent(policy: RiskPolicy, intent: Intent, price: real)
    ensures Approve(policy, intent, price).Ok? ==> Approve(policy, intent, price).value.intent == intent
  {
  }

  // ---------------------------------------------------------------- cash flow of a plan

  /** Cash one filled order of notional n moves, fee included. */
  function Delta(t: Terms, side: Side, n: real): real {
    match side
    case Sell => n * (1.0 - t.slippageRate) - n * (1.0 - t.slippageRate) * t.feeRate
    case Buy => -(n * (1.0 + t.slippageRate) + n * (1.0 + t.slippageRate) * t.feeRate)
  }

  function Flow(t: Terms, rows: seq<Row>): real {
    if rows == [] then 0.0 else Delta(t, rows[0].side, rows[0].notional) + Flow(t, rows[1..])
  }

  /** The largest share of its notional an order can lose to slippage and fee. */
  function CostRate(t: Terms): real { t.slippageRate + t.feeRate + t.slippageRate * t.feeRate }

  function Signed(side: Side, n: real): real { if side.Sell? then n else -n }

  lemma DeltaBound(t: Terms, side: Side, n: real)
    requires Accepted(t) && n >= 0.0
    ensures Delta(t, side, n) >= Signed(side, n) - Times(CostRate(t), n)
    ensures side.Buy? ==> Delta(t, side, n) <= 0.0
  {
    var (z, f) := (t.slippageRate, t.feeRate);
    ProductNonNegative(z, f);
    ProductNonNegative(z * f, n);
    ProductNonNegative(z, n);
    ProductNonNegative(f, n);
    assert Times(CostRate(t), n) == z * n + f * n + z * f * n;
    match side
    case Sell => assert Delta(t, Sell, n) == n - z * n - f * n + z * f * n;
    case Buy => assert Delta(t, Buy, n) == -(n + z * n + f * n + z * f * n);
  }

  /** What a row must satisfy to be approved and to be filled for exactly its notional. */
  ghost predicate RowFits(i: Input, policy: RiskPolicy, r: Row) {
    && r.symbol in i.prices && r.price == i.prices[r.symbol] > 0.0
    && r.intent.portfolioId == i.portfolioId && r.intent.purpose == i.purpose
    && r.intent.pair.Symbol() == r.symbol && r.intent.pair.quote == i.cashAsset
    && r.intent.side == r.side && r.intent.quantity == r.quantity > 0.0
    && r.intent.intentId == PlanDigest(i.portfolioId, i.asOf, r.symbol, r.side)
    && r.quantity * r.price == r.notional
    && policy.minimumOrderNotional <= r.notional <= policy.maximumSingleOrderNotional
  }

  /** The ledger is where the plan expects it: same identity, the rows' keys unused, every sale covered. */
  ghost predicate Ready(i: Input, s: State, rows: seq<Row>)
  {
    && i.portfolioId in s.portfolios
    && s.portfolios[i.portfolioId].purpose == i.purpose && !i.purpose.CoreInvestment?
    && s.portfolios[i.portfolioId].cashAsset == i.cashAsset
    && (forall r <- rows :: !Recorded(s.executions, PaperOrder(r.intent.intentId), r.intent.intentId))
    && (forall r <- rows :: r.side.Sell? ==>
          Held(s.portfolios[i.portfolioId], r.intent.pair.base).quantity >= r.quantity)
  }

  ghost predicate DistinctSymbols(rows: seq<Row>) {
    forall a, b :: 0 <= a < b < |rows| ==> rows[a].symbol != rows[b].symbol
  }

  function CashOf(i: Input, s: State): real {
    if i.portfolioId in s.portfolios then s.portfolios[i.portfolioId].cash else 0.0
  }

  lemma ReportMovesDelta(t: Terms, r: Row, now: int)
    requires Accepted(t) && r.quantity * r.price == r.notional && r.intent.side == r.side
    requires r.intent.quantity == r.quantity
    ensures var report := ReportFor(t, r.intent, r.price, now);
      (r.side.Buy? ==> report.Notional() + report.fee == -Delta(t, r.side, r.notional))
      && (r.side.Sell? ==> report.Notional() - report.fee == Delta(t, r.side, r.notional))
  {
    var z := t.slippageRate;
    assert r.quantity * (r.price * (1.0 + z)) == r.notional * (1.0 + z);
    assert r.quantity * (r.price * (1.0 - z)) == r.notional * (1.0 - z);
  }

  lemma ReportFields(t: Terms, r: Row, now: int)
    ensures var report := ReportFor(t, r.intent, r.price, now);
      report.side == r.intent.side && report.filledQuantity == r.intent.quantity
      && report.orderId == PaperOrder(r.intent.intentId)
  {
  }

  lemma RowIsApproved(i: Input, policy: RiskPolicy, r: Row)
    requires RowFits(i, policy, r) && !policy.killSwitch && !i.purpose.CoreInvestment?
    ensures Approve(policy, r.intent, r.price) == Ok(Approved(r.intent, "v1"))
  {
  }

  lemma RowFitsParts(i: Input, policy: RiskPolicy, r: Row)
    requires RowFits(i, policy, r)
    ensures r.symbol in i.prices && r.price == i.prices[r.symbol] > 0.0
    ensures r.intent.portfolioId == i.portfolioId && r.intent.purpose == i.purpose
    ensures r.intent.pair.Symbol() == r.symbol && r.intent.pair.quote == i.cashAsset
    ensures r.intent.side == r.side && r.intent.quantity == r.quantity > 0.0
    ensures r.intent.intentId == PlanDigest(i.portfolioId, i.asOf, r.symbol, r.side)
  {
  }

  /** What posting the fill of a fitting row does. */
  lemma RowIsPosted(i: Input, s: State, r: Row, report: Report)
    requires Valid(s) && Ready(i, s, [r])
    requires r.intent.portfolioId == i.portfolioId && r.intent.purpose == i.purpose
    requires r.intent.pair.quote == i.cashAsset && r.intent.side == r.side == report.side
    requires report.filledQuantity == r.intent.quantity == r.quantity > 0.0
    requires report.orderId == PaperOrder(r.intent.intentId)
    ensures var (outcome, s') := Post(s, Approved(r.intent, "v1"), report);
      var cash := CashOf(i, s);
      if r.side.Buy? && report.Notional() + report.fee > cash then outcome == Refused(InsufficientCash)
      else
        && outcome == Applied
        && |s'.executions| == |s.executions| + 1 && s.executions <= s'.executions
        && s'.executions[|s.executions|].orderId == report.orderId
        && s'.executions[|s.executions|].intentId == r.intent.intentId
        && i.portfolioId in s'.portfolios
        && var (p, p') := (s.portfolios[i.portfolioId], s'.portfolios[i.portfolioId]);
          && p'.purpose == p.purpose && p'.cashAsset == p.cashAsset
          && p'.cash == (if r.side.Buy? then cash - (report.Notional() + report.fee)
                         else cash + (report.Notional() - report.fee))
          && (forall b :: b != r.intent.pair.base ==> Held(p', b) == Held(p, b))
  {
    hide Report.Notional, BoughtAt, ProfitOf, Position.Cost, Pair.Symbol;
    assert r in [r];
    var order := Approved(r.intent, "v1");
    var p := s.portfolios[i.portfolioId];
    assert Judge(s, order, report) == FillOf(p.cash, Held(p, r.intent.pair.base), r.side, report);
    assert !Recorded(s.executions, report.orderId, r.intent.intentId);
  }

  lemma OtherKeysStayUnused(log: seq<Execution>, log': seq<Execution>, id: Id, other: Id)
    requires |log'| == |log| + 1 && log <= log' && id != other && !Recorded(log, PaperOrder(other), other)
    requires log'[|log|].orderId == PaperOrder(id) && log'[|log|].intentId == id
    ensures !Recorded(log', PaperOrder(other), other)
  {
    forall e <- log' ensures e.orderId != PaperOrder(other) && e.intentId != other {
      assert e in log || e == log'[|log|];
    }
  }

  /** One posted row neither uses the keys of the others nor touches their positions. */
  lemma RestStaysReady(i: Input, s: State, s': State, rows: seq<Row>, policy: RiskPolicy)
    requires rows != [] && Ready(i, s, rows) && DistinctSymbols(rows)
    requires forall r <- rows :: RowFits(i, policy, r)
    requires |s'.executions| == |s.executions| + 1 && s.executions <= s'.executions
    requires s'.executions[|s.executions|].orderId == PaperOrder(rows[0].intent.intentId)
    requires s'.executions[|s.executions|].intentId == rows[0].intent.intentId
    requires i.portfolioId in s'.portfolios
    requires var (p, p') := (s.portfolios[i.portfolioId], s'.portfolios[i.portfolioId]);
      p'.purpose == p.purpose && p'.cashAsset == p.cashAsset
      && forall b :: b != rows[0].intent.pair.base ==> Held(p', b) == Held(p, b)
    ensures Ready(i, s', rows[1..])
  {
    hide RowFits, Recorded, Held;
    var r := rows[0];
    RowFitsParts(i, policy, r);
    forall q <- rows[1..]
      ensures !Recorded(s'.executions, PaperOrder(q.intent.intentId), q.intent.intentId)
      ensures q.side.Sell? ==> Held(s'.portfolios[i.portfolioId], q.intent.pair.base).quantity >= q.quantity
    {
      assert q in rows && q.symbol != r.symbol;
      RowFitsParts(i, policy, q);
      assert q.intent.pair.base != r.intent.pair.base;
      OtherKeysStayUnused(s.executions, s'.executions, r.intent.intentId, q.intent.intentId);
    }
  }

  /**
   * The first row of a ready plan is refused only for lack of cash, or as a sale without a positive fill price;
   * otherwise the rest of the plan is ready.
   */
  lemma RowOutcome(i: Input, s: State, rows: seq<Row>, t: Terms, policy: RiskPolicy, clock: Id -> int)
    requires Valid(s) && rows != [] && Ready(i, s, rows) && DistinctSymbols(rows) && Accepted(t) && !policy.killSwitch
    requires forall r <- rows :: RowFits(i, policy, r)
    ensures var cash := CashOf(i, s) + Delta(t, rows[0].side, rows[0].notional);
      match ExecuteRow(s, rows[0], i.prices, t, policy, clock)
      case Err(_) => !Fillable(t, rows[0].side) || (rows[0].side.Buy? && cash < 0.0)
      case Ok(s') =>
        Fillable(t, rows[0].side) && Valid(s') && Ready(i, s', rows[1..]) && CashOf(i, s') == cash
        && (rows[0].side.Buy? ==> cash >= 0.0) && |s'.executions| == |s.executions| + 1
  {
    hide Post, ReportFor, Approve, Delta, Report.Notional, Report.Accepted, RowFits, Valid, Pair.Symbol;
    var r := rows[0];
    RowFitsParts(i, policy, r);
    var now := clock(r.intent.intentId);
    var report := ReportFor(t, r.intent, r.price, now);
    RowIsApproved(i, policy, r);
    ReportFields(t, r, now);
    ReportIsAcceptedIff(t, r.intent, r.price, now);
    assert r.quantity * r.price == r.notional by { RowNotional(i, policy, r); }
    ReportMovesDelta(t, r, now);
    RowIsPosted(i, s, r, report);
    RowKeepsValid(s, r, i.prices, t, policy, clock);
    var result := ExecuteRow(s, r, i.prices, t, policy, clock);
    if result.Ok? {
      RestStaysReady(i, s, result.value, rows, policy);
    }
  }

  lemma RowNotional(i: Input, policy: RiskPolicy, r: Row)
    requires RowFits(i, policy, r)
    ensures r.quantity * r.price == r.notional
  {
  }

  predicate AllBuys(rows: seq<Row>) { forall r <- rows :: r.side.Buy? }

  predicate HasBuy(rows: seq<Row>) { exists r <- rows :: r.side.Buy? }

  /** Every sale of the plan has a positive fill price. */
  predicate SalesFill(t: Terms, rows: seq<Row>) { t.slippageRate < 1.0 || AllBuys(rows) }

  lemma SalesFillInTurn(t: Terms, rows: seq<Row>)
    requires rows != []
    ensures SalesFill(t, rows) <==> Fillable(t, rows[0].side) && SalesFill(t, rows[1..])
  {
    assert rows == [rows[0]] + rows[1..];
  }

  lemma {:induction false} BuysOnlyCost(t: Terms, rows: seq<Row>)
    requires Accepted(t) && AllBuys(rows) && forall r <- rows :: r.notional >= 0.0
    ensures Flow(t, rows) <= 0.0
  {
    hide Delta;
    if rows != [] {
      DeltaBound(t, Buy, rows[0].notional);
      BuysOnlyCost(t, rows[1..]);
    }
  }

  /**
   * Exactly when a ready plan goes through: its sales have positive fill prices, and it has no purchase, or the cash
   * it starts with plus the whole plan's cash flow is not negative.
   */
  lemma {:induction false} PlanExecutesIffAffordable(
    i: Input, s: State, rows: seq<Row>, t: Terms, policy: RiskPolicy, clock: Id -> int)
    requires Valid(s) && Ready(i, s, rows) && Ordered(rows) && DistinctSymbols(rows) && Accepted(t)
    requires !policy.killSwitch && policy.minimumOrderNotional >= 0.0
    requires forall r <- rows :: RowFits(i, policy, r)
    ensures var done := Execute(s, rows, i.prices, t, policy, clock);
      && (done.error == None <==> SalesFill(t, rows) && (!HasBuy(rows) || CashOf(i, s) + Flow(t, rows) >= 0.0))
      && (done.error == None ==> |done.state.executions| == |s.executions| + |rows|
                                 && CashOf(i, done.state) == CashOf(i, s) + Flow(t, rows))
    decreases |rows|
  {
    hide ExecuteRow, Delta, Valid, RowFits, Ready;
    assert rows == [] ==> SalesFill(t, rows);
    hide SalesFill, Fillable;
    if rows != [] {
      RowOutcome(i, s, rows, t, policy, clock);
      var r, rest := rows[0], rows[1..];
      assert r in rows && forall q <- rest :: q in rows;
      SalesFillInTurn(t, rows);
      assert rest != [] ==> rest[0] in rest;
      var result := ExecuteRow(s, r, i.prices, t, policy, clock);
      if r.side.Buy? {
        forall q <- rest ensures q.side.Buy? {
          var j :| 0 <= j < |rest| && rest[j] == q;
          assert RowBefore(rows[0], rows[j + 1]);
        }
        forall q <- rest ensures q.notional >= 0.0 { RowNotionalPositive(i, policy, q); }
        BuysOnlyCost(t, rest);
        assert HasBuy(rows);
        if result.Ok? && rest == [] {
          assert Flow(t, rest) == 0.0;
        }
      } else {
        assert HasBuy(rows) <==> HasBuy(rest) by {
          if HasBuy(rows) {
            var b :| b in rows && b.side.Buy?;
            assert b in rest;
          }
        }
      }
      if result.Ok? {
        PlanExecutesIffAffordable(i, result.value, rest, t, policy, clock);
      }
    }
  }

  lemma RowNotionalPositive(i: Input, policy: RiskPolicy, r: Row)
    requires RowFits(i, policy, r) && policy.minimumOrderNotional >= 0.0
    ensures r.notional >= 0.0
  {
  }

  // ---------------------------------------------------------------- from a plan to its rows

  /** The plan was made from this ledger's portfolio, and none of its orders has been recorded yet. */
  ghost predicate MadeFrom(i: Input, s: State) {
    && i.portfolioId in s.portfolios
    && var p := s.portfolios[i.portfolioId];
      && p.purpose == i.purpose && !i.purpose.CoreInvestment?
      && p.cashAsset == i.cashAsset && p.cash == i.cash >= 0.0
      && p.positions.Keys == i.holdings.Keys
      && (forall b <- i.holdings :: p.positions[b].quantity == i.holdings[b])
      && (forall symbol, side ::
            var id := PlanDigest(i.portfolioId, i.asOf, symbol, side); !Recorded(s.executions, PaperOrder(id), id))
  }

  lemma OrderQuantity(difference: real, price: real, held: real)
    requires price > 0.0 && 0.0 < difference
    ensures difference / price > 0.0 && difference / price * price == difference
    ensures difference <= held * price ==> difference / price <= held
  {
    QuotientTimes(difference, price);
  }

  lemma PlannedQuantity(i: Input, equity: real, symbol: string)
    requires WellPosed(i) && i.minimumOrderNotional > 0.0 && equity >= 0.0
    requires PlanRow(i, equity, symbol).Some?
    ensures var r := PlanRow(i, equity, symbol).value;
      r.quantity > 0.0 && r.quantity * r.price == r.notional
      && (r.side.Sell? ==> r.quantity <= Quantity(i, symbol))
  {
    hide Target, Quantity;
    var price := i.prices[symbol];
    var d := Target(i, equity, symbol) - Current(i, symbol);
    assert Abs(d) > 0.0;
    OrderQuantity(Abs(d), price, Quantity(i, symbol));
    TargetNonNegative(i, equity, symbol);
    QuantityNonNegative(i, symbol);
  }

  lemma TargetNonNegative(i: Input, equity: real, symbol: string)
    requires WellPosed(i) && equity >= 0.0
    ensures Target(i, equity, symbol) >= 0.0
  {
    if symbol in i.targets {
      ProductNonNegative(equity, i.targets[symbol]);
    }
  }

  lemma QuantityNonNegative(i: Input, symbol: string)
    requires WellPosed(i)
    ensures Quantity(i, symbol) >= 0.0 && Current(i, symbol) >= 0.0
    ensures symbol in CurrentQuantities(i) ==> symbol in i.prices
  {
    if symbol in i.prices {
      ProductNonNegative(Quantity(i, symbol), i.prices[symbol]);
    }
  }

  lemma PlannedRowFits(i: Input, equity: real, symbol: string, policy: RiskPolicy)
    requires WellPosed(i) && i.minimumOrderNotional > 0.0
    requires PlanRow(i, equity, symbol).Some?
    requires policy.minimumOrderNotional == i.minimumOrderNotional && policy.maximumSingleOrderNotional == equity
    requires equity >= 0.0 && Current(i, symbol) <= equity && Target(i, equity, symbol) <= equity
    ensures RowFits(i, policy, PlanRow(i, equity, symbol).value)
  {
    hide Target, Current;
    PlannedQuantity(i, equity, symbol);
    TargetNonNegative(i, equity, symbol);
    QuantityNonNegative(i, symbol);
  }

  lemma SaleIsCovered(i: Input, s: State, equity: real, symbol: string)
    requires WellPosed(i) && MadeFrom(i, s) && i.minimumOrderNotional > 0.0 && equity >= 0.0
    requires PlanRow(i, equity, symbol).Some? && PlanRow(i, equity, symbol).value.side.Sell?
    ensures var r := PlanRow(i, equity, symbol).value;
      Held(s.portfolios[i.portfolioId], r.intent.pair.base).quantity >= r.quantity
  {
    PlannedQuantity(i, equity, symbol);
    hide Target, Current;
    var base := i.members[symbol].base;
    assert Pair(base, i.cashAsset) == i.members[symbol];
    if symbol in CurrentQuantities(i) {
      var b :| b in i.holdings && SymbolOf(i, b) == symbol;
      SymbolIsInjective(b, base, i.cashAsset);
      assert SymbolOf(i, base) == symbol && base in i.holdings;
      CurrentSymbolsAreDistinct(i);
      assert CurrentQuantities(i)[symbol] == i.holdings[base];
    }
  }

  lemma PlanSymbolsAreDistinct(i: Input, equity: real, rows: seq<Row>)
    requires WellPosed(i) && IsPlan(i, equity, rows)
    ensures DistinctSymbols(rows)
  {
    hide PlanRow;
    forall a, b | 0 <= a < b < |rows| ensures rows[a].symbol != rows[b].symbol {
      RowBeforeIsStrict(rows[a], rows[b]);
      assert rows[a] in rows && rows[b] in rows;
    }
  }

  // ---------------------------------------------------------------- the solvency bound

  ghost function Gains(i: Input, equity: real): string -> real
    requires WellPosed(i)
  {
    s => if PlanRow(i, equity, s).Some? then Current(i, s) - Target(i, equity, s) else 0.0
  }

  ghost function Traded(i: Input, equity: real): string -> real
    requires WellPosed(i)
  {
    s => if PlanRow(i, equity, s).Some? then PlanRow(i, equity, s).value.notional else 0.0
  }

  /** Symbols that should be reduced but are left alone because the reduction is below the threshold. */
  ghost function SuppressedSells(i: Input, equity: real): set<string>
    requires WellPosed(i)
  {
    set s | s in Symbols(i) && PlanRow(i, equity, s).None? && Current(i, s) > Target(i, equity, s)
  }

  ghost function Slack(i: Input, equity: real): string -> real {
    s => Threshold(i, equity)
  }

  lemma RowGain(i: Input, equity: real, symbol: string)
    requires WellPosed(i) && PlanRow(i, equity, symbol).Some?
    ensures var r := PlanRow(i, equity, symbol).value;
      Gains(i, equity)(symbol) == Signed(r.side, r.notional) && Traded(i, equity)(symbol) == r.notional
      && r.notional >= 0.0
  {
    hide Target, Current;
  }

  lemma UnplannedGap(i: Input, equity: real, symbol: string)
    requires WellPosed(i) && equity >= 0.0 && PlanRow(i, equity, symbol).None?
    ensures Current(i, symbol) - Target(i, equity, symbol) <=
      if Current(i, symbol) > Target(i, equity, symbol) then Threshold(i, equity) else 0.0
  {
    TargetNonNegative(i, equity, symbol);
    hide Target;
  }

  ghost function SymbolsIn(rows: seq<Row>): set<string> { set r <- rows :: r.symbol }

  lemma SymbolsSum(rows: seq<Row>, g: string -> real)
    requires rows != [] && DistinctSymbols(rows)
    ensures Sum(SymbolsIn(rows), g) == Sum(SymbolsIn(rows[1..]), g) + g(rows[0].symbol)
  {
    assert SymbolsIn(rows) == SymbolsIn(rows[1..]) + {rows[0].symbol} by { assert rows == [rows[0]] + rows[1..]; }
    SumAdd(SymbolsIn(rows[1..]), rows[0].symbol, g);
  }

  lemma {:induction false} FlowBound(i: Input, equity: real, t: Terms, rows: seq<Row>)
    requires WellPosed(i) && Accepted(t) && DistinctSymbols(rows)
    requires forall r <- rows :: PlanRow(i, equity, r.symbol) == Some(r)
    ensures Flow(t, rows) >=
      Sum(SymbolsIn(rows), Gains(i, equity)) - Times(CostRate(t), Sum(SymbolsIn(rows), Traded(i, equity)))
  {
    hide PlanRow, Delta, Times, WellPosed, Gains, Traded, CostRate, Accepted;
    if rows == [] {
      TimesDistributes(CostRate(t), 0.0, 0.0);
    } else {
      hide Sum, SymbolsIn;
      var r, rest := rows[0], rows[1..];
      assert r in rows;
      SymbolsSum(rows, Gains(i, equity));
      SymbolsSum(rows, Traded(i, equity));
      FlowBound(i, equity, t, rest);
      RowGain(i, equity, r.symbol);
      DeltaBound(t, r.side, r.notional);
      TimesDistributes(CostRate(t), Sum(SymbolsIn(rest), Traded(i, equity)), r.notional);
    }
  }

  lemma PlannedSums(i: Input, equity: real, rows: seq<Row>)
    requires WellPosed(i) && IsPlan(i, equity, rows)
    ensures Sum(SymbolsIn(rows), Gains(i, equity)) == Sum(Symbols(i), Gains(i, equity))
    ensures Sum(SymbolsIn(rows), Traded(i, equity)) == Sum(Symbols(i), Traded(i, equity))
  {
    hide PlanRow, WellPosed;
    var planned, rest := SymbolsIn(rows), Symbols(i) - SymbolsIn(rows);
    assert planned + rest == Symbols(i);
    SumUnion(planned, rest, Gains(i, equity));
    SumUnion(planned, rest, Traded(i, equity));
    forall s <- Symbols(i) | PlanRow(i, equity, s).Some? ensures s in planned {
      var row := PlanRow(i, equity, s).value;
      assert row in rows && row.symbol == s;
    }
    SumNothing(rest, Gains(i, equity));
    SumNothing(rest, Traded(i, equity));
  }

  /** The plan's net gain is at least what holdings exceed targets by, less the suppressed reductions. */
  lemma GainsBound(i: Input, equity: real)
    requires WellPosed(i) && equity >= 0.0
    ensures Sum(Symbols(i), Gains(i, equity)) >=
      Sum(Symbols(i), Currents(i)) - Sum(Symbols(i), Targets(i, equity))
      - Threshold(i, equity) * |SuppressedSells(i, equity)| as real
  {
    hide PlanRow, Current, Target, WellPosed, Threshold, Sum;
    var all, kept := Symbols(i), SuppressedSells(i, equity);
    forall s <- all
      ensures Currents(i)(s) <=
        Gains(i, equity)(s) + Targets(i, equity)(s) + (if s in kept then Slack(i, equity)(s) else 0.0)
    {
      if PlanRow(i, equity, s).None? { UnplannedGap(i, equity, s); }
    }
    SumAllowance(all, Currents(i), Gains(i, equity), Targets(i, equity), kept, Slack(i, equity));
    SumBound(kept, Slack(i, equity), Threshold(i, equity));
  }

  lemma TradedBound(i: Input, equity: real)
    requires WellPosed(i) && equity >= 0.0
    ensures Sum(Symbols(i), Traded(i, equity)) <=
      Sum(Symbols(i), Currents(i)) + Sum(Symbols(i), Targets(i, equity))
  {
    hide PlanRow, Current, Target, WellPosed, Sum;
    forall s <- Symbols(i)
      ensures Traded(i, equity)(s) <= Currents(i)(s) + Targets(i, equity)(s) + (if s in {} then Slack(i, equity)(s) else 0.0)
    {
      TargetNonNegative(i, equity, s);
      QuantityNonNegative(i, s);
      if PlanRow(i, equity, s).Some? { RowGain(i, equity, s); }
    }
    SumAllowance(Symbols(i), Traded(i, equity), Currents(i), Targets(i, equity), {}, Slack(i, equity));
    SumNothing({}, Slack(i, equity));
  }

  lemma BoundArithmetic(e: real, cash: real, flow: real, gain: real, traded: real, target: real, w: real, f: real,
                        k: real, c: real)
    requires 0.0 <= cash && 0.0 <= e && 0.0 <= c && w <= f && target == Times(e, w)
    requires flow >= gain - Times(c, traded)
    requires gain >= (e - cash) - target - k && traded <= (e - cash) + target
    requires e * (1.0 - f) >= k + c * (1.0 + f) * e
    ensures cash + flow >= 0.0
  {
    ProductMonotone(w, f, e);
    assert target <= e * f;
    assert traded <= e + e * f == (1.0 + f) * e;
    ProductMonotone(traded, (1.0 + f) * e, c);
    assert Times(c, traded) <= c * ((1.0 + f) * e) == c * (1.0 + f) * e;
    assert e * (1.0 - f) == e - e * f;
  }

  // ---------------------------------------------------------------- the whole plan

  lemma PlanIsReady(i: Input, s: State, rows: seq<Row>, policy: RiskPolicy)
    requires WellPosed(i) && MadeFrom(i, s) && IsPlan(i, Equity(i), rows)
    requires i.minimumOrderNotional > 0.0 && Equity(i) >= 0.0
    requires policy.minimumOrderNotional == i.minimumOrderNotional && policy.maximumSingleOrderNotional == Equity(i)
    requires Sum(i.targets.Keys, Weights(i)) <= 1.0
    ensures Ready(i, s, rows) && DistinctSymbols(rows)
    ensures forall r <- rows :: RowFits(i, policy, r)
  {
    hide PlanRow, Recorded, Held, RowFits, Current, Target, Equity, Sum;
    var equity := Equity(i);
    PlanSymbolsAreDistinct(i, equity, rows);
    forall r <- rows ensures RowFits(i, policy, r) {
      AmountsFitEquity(i, r.symbol);
      PlannedRowFits(i, equity, r.symbol, policy);
    }
    forall r <- rows
      ensures !Recorded(s.executions, PaperOrder(r.intent.intentId), r.intent.intentId)
      ensures r.side.Sell? ==> Held(s.portfolios[i.portfolioId], r.intent.pair.base).quantity >= r.quantity
    {
      RowFitsParts(i, policy, r);
      if r.side.Sell? { SaleIsCovered(i, s, equity, r.symbol); }
    }
  }

  lemma AmountsFitEquity(i: Input, symbol: string)
    requires WellPosed(i) && i.cash >= 0.0 && Equity(i) >= 0.0 && symbol in Symbols(i)
    requires Sum(i.targets.Keys, Weights(i)) <= 1.0
    ensures Current(i, symbol) <= Equity(i) && Target(i, Equity(i), symbol) <= Equity(i)
  {
    hide Current, Target, Equity, Sum, Times;
    var equity := Equity(i);
    forall s <- Symbols(i) ensures Currents(i)(s) >= 0.0 && Targets(i, equity)(s) >= 0.0 {
      QuantityNonNegative(i, s);
      TargetNonNegative(i, equity, s);
    }
    CurrentsAreTheHoldings(i);
    TargetsAreScaledWeights(i, equity);
    SumNonNegative(Symbols(i), Currents(i));
    SumNonNegative(Symbols(i), Targets(i, equity));
    assert Currents(i)(symbol) <= Sum(Symbols(i), Currents(i));
    assert Targets(i, equity)(symbol) <= Sum(Symbols(i), Targets(i, equity));
    ShareOfEquity(equity, Sum(i.targets.Keys, Weights(i)));
  }

  lemma ShareOfEquity(e: real, w: real)
    requires e >= 0.0 && w <= 1.0
    ensures Times(e, w) <= e
  {
    ProductMonotone(w, 1.0, e);
  }

  /** The equity outside the targets covers the suppressed reductions and the trading costs. */
  ghost predicate CoversCosts(i: Input, t: Terms, f: real)
    requires WellPosed(i)
  {
    Equity(i) * (1.0 - f) >=
      Threshold(i, Equity(i)) * |SuppressedSells(i, Equity(i))| as real + CostRate(t) * (1.0 + f) * Equity(i)
  }

  /**
   * Whole-plan solvency. If the equity outside the target weights covers the suppressed reductions and the
   * trading costs, the risk policy can be built, every planned order is approved, and every sell-then-buy
   * fill is applied, exactly if its sales have positive fill prices; with any target weight they have them.
   * With slippageRate == 0.0 the cost rate is the fee rate alone.
   */
  lemma WholePlanSolvency(
    i: Input, s: State, rows: seq<Row>, t: Terms, assetFraction: real, positions: int, clock: Id -> int, f: real)
    requires Valid(s) && WellPosed(i) && MadeFrom(i, s) && Accepted(t)
    requires IsPlan(i, Equity(i), rows)
    requires Equity(i) >= i.minimumOrderNotional > 0.0 && positions > 0 && 0.0 <= assetFraction <= 1.0
    requires Sum(i.targets.Keys, Weights(i)) <= f <= 1.0
    requires CoversCosts(i, t, f)
    ensures var policy := MakePolicy(assetFraction, positions, Equity(i), i.minimumOrderNotional);
      policy.Ok?
      && var done := Execute(s, rows, i.prices, t, policy.value, clock);
        && (done.error == None <==> SalesFill(t, rows)) && (f > 0.0 ==> SalesFill(t, rows))
        && (done.error == None ==> |done.state.executions| == |s.executions| + |rows|
                                   && CashOf(i, done.state) == i.cash + Flow(t, rows) >= 0.0)
  {
    var equity := Equity(i);
    var policy := MakePolicy(assetFraction, positions, equity, i.minimumOrderNotional).value;
    hide CoversCosts;
    PlanIsReady(i, s, rows, policy);
    PlanExecutesIffAffordable(i, s, rows, t, policy, clock);
    PlanIsAffordable(i, rows, t, f);
    if f > 0.0 { CoveredSlippage(i, t, f); }
  }

  /** Costs that the equity covers leave a sale a positive price, unless nothing at all is to be invested. */
  lemma CoveredSlippage(i: Input, t: Terms, f: real)
    requires WellPosed(i) && Accepted(t) && Equity(i) > 0.0 && f > 0.0 && CoversCosts(i, t, f)
    requires i.minimumOrderNotional >= 0.0
    ensures t.slippageRate < 1.0
  {
    hide Equity, Threshold, SuppressedSells, WellPosed;
    var equity := Equity(i);
    assert Threshold(i, equity) >= 0.0 by { ThresholdIsNotNegative(i, equity); }
    CostsWithinEquity(equity, Threshold(i, equity), |SuppressedSells(i, equity)| as real, CostRate(t), f);
    ProductNonNegative(t.slippageRate, t.feeRate);
  }

  lemma ThresholdIsNotNegative(i: Input, equity: real)
    requires i.minimumOrderNotional >= 0.0
    ensures Threshold(i, equity) >= 0.0
  {
  }

  lemma CostsWithinEquity(e: real, threshold: real, count: real, cost: real, f: real)
    requires e > 0.0 && threshold >= 0.0 && count >= 0.0 && f > 0.0
    requires e * (1.0 - f) >= threshold * count + cost * (1.0 + f) * e
    ensures cost < 1.0
  {
    ProductNonNegative(threshold, count);
    if cost >= 1.0 {
      ProductMonotone(1.0, cost, 1.0 + f);
      ProductMonotone(1.0 + f, cost * (1.0 + f), e);
      ProductStrict(1.0 - f, 1.0 + f, e);
    }
  }

  lemma PlanIsAffordable(i: Input, rows: seq<Row>, t: Terms, f: real)
    requires WellPosed(i) && Accepted(t) && IsPlan(i, Equity(i), rows) && i.cash >= 0.0 && Equity(i) >= 0.0
    requires Sum(i.targets.Keys, Weights(i)) <= f
    requires CoversCosts(i, t, f)
    ensures i.cash + Flow(t, rows) >= 0.0
  {
    hide Sum, Flow, Current, Target, PlanRow, Threshold, Equity, SuppressedSells;
    var equity := Equity(i);
    PlanSymbolsAreDistinct(i, equity, rows);
    FlowBound(i, equity, t, rows);
    PlannedSums(i, equity, rows);
    CurrentsAreTheHoldings(i);
    TargetsAreScaledWeights(i, equity);
    GainsBound(i, equity);
    TradedBound(i, equity);
    CostRateNonNegative(t);
    BoundArithmetic(equity, i.cash, Flow(t, rows), Sum(Symbols(i), Gains(i, equity)), Sum(Symbols(i), Traded(i, equity)),
                    Sum(Symbols(i), Targets(i, equity)), Sum(i.targets.Keys, Weights(i)), f,
                    Threshold(i, equity) * |SuppressedSells(i, equity)| as real, CostRate(t));
  }

  lemma CostRateNonNegative(t: Terms)
    requires Accepted(t)
    ensures CostRate(t) >= 0.0
  {
    ProductNonNegative(t.slippageRate, t.feeRate);
  }

  // ---------------------------------------------------------------- the bound is not idle

  /**
   * The suppressed reductions matter. With one holding whose sale is below the threshold and one purchase of
   * weight w, the plan goes through exactly when the cash beside the holding pays for the purchase and its
   * costs, however small w is; an uninvested share 1 - w alone does not decide it.
   */
  lemma OneSuppressedSale(i: Input, s: State, rows: seq<Row>, t: Terms, policy: RiskPolicy, clock: Id -> int,
                          held: string, bought: string)
    requires Valid(s) && WellPosed(i) && MadeFrom(i, s) && Accepted(t) && IsPlan(i, Equity(i), rows)
    requires Symbols(i) == {held, bought} && held != bought && held !in i.targets && bought in i.targets
    requires bought in i.prices && bought !in CurrentQuantities(i) && !i.blockBuys && bought !in i.blockedBuys
    requires Current(i, held) < Threshold(i, Equity(i)) <= Target(i, Equity(i), bought)
    requires Equity(i) >= i.minimumOrderNotional > 0.0 && Sum(i.targets.Keys, Weights(i)) <= 1.0
    requires policy.minimumOrderNotional == i.minimumOrderNotional && policy.maximumSingleOrderNotional == Equity(i)
    requires !policy.killSwitch
    ensures Execute(s, rows, i.prices, t, policy, clock).error == None <==>
      i.cash + Delta(t, Buy, Target(i, Equity(i), bought)) >= 0.0
  {
    hide PlanRow, Equity, Sum, Execute, Delta, Current, Target, WellPosed, Ready, Symbols, PlansExactly, MadeFrom;
    var equity := Equity(i);
    NothingToSell(i, equity, held);
    BuyIsPlanned(i, equity, bought);
    PlanIsReady(i, s, rows, policy);
    var row := PlanRow(i, equity, bought).value;
    TheOnlyRow(i, equity, rows, held, bought);
    assert rows[0] in rows && HasBuy(rows);
    assert Ordered(rows);
    PlanExecutesIffAffordable(i, s, rows, t, policy, clock);
    assert Flow(t, rows) == Delta(t, row.side, row.notional) + Flow(t, []) by { assert rows[1..] == []; }
    assert CashOf(i, s) == i.cash by { CashIsTheLedgers(i, s); }
  }

  lemma CashIsTheLedgers(i: Input, s: State)
    requires MadeFrom(i, s)
    ensures CashOf(i, s) == i.cash
  {
  }

  lemma TheOnlyRow(i: Input, equity: real, rows: seq<Row>, held: string, bought: string)
    requires WellPosed(i) && IsPlan(i, equity, rows) && Symbols(i) == {held, bought}
    requires PlanRow(i, equity, held).None? && PlanRow(i, equity, bought).Some?
    ensures rows == [PlanRow(i, equity, bought).value]
  {
    hide PlanRow, WellPosed;
    var row := PlanRow(i, equity, bought).value;
    PlanSymbolsAreDistinct(i, equity, rows);
    assert row in rows;
    forall k | 0 <= k < |rows| ensures rows[k] == row {
      assert rows[k] in rows;
    }
    assert |rows| > 1 ==> rows[0].symbol != rows[1].symbol;
  }

  lemma NothingToSell(i: Input, equity: real, held: string)
    requires WellPosed(i) && held !in i.targets && Current(i, held) < Threshold(i, equity)
    ensures PlanRow(i, equity, held) == None
  {
    QuantityNonNegative(i, held);
    hide Current, Threshold;
  }

  lemma BuyIsPlanned(i: Input, equity: real, bought: string)
    requires WellPosed(i) && bought in i.prices && bought !in CurrentQuantities(i)
    requires !i.blockBuys && bought !in i.blockedBuys
    requires 0.0 < i.minimumOrderNotional && Threshold(i, equity) <= Target(i, equity, bought)
    ensures var r := PlanRow(i, equity, bought);
      r.Some? && r.value.side.Buy? && r.value.notional == Target(i, equity, bought)
  {
    NothingHeld(i, bought);
    hide Target;
  }

  // ---------------------------------------------------------------- the conditions can be met

  /** One small holding that is no longer a target and one purchase for half the equity. */
  function ExampleInput(): Input {
    var h, b := Pair("H", "C"), Pair("B", "C");
    Input("p", PaperTrading, "C", 99000.0, map["H" := 1.0], map[h.Symbol() := h, b.Symbol() := b],
          map[h.Symbol() := 1000.0, b.Symbol() := 1.0], map[b.Symbol() := 0.5], 5000.0, 0.0, false, {}, 0)
  }

  function ExampleState(): State {
    State(map["p" := Portfolio(PaperTrading, "C", 99000.0, map["H" := Position(1.0, 1000.0)])], [])
  }

  const HELD := Pair("H", "C").Symbol()
  const BOUGHT := Pair("B", "C").Symbol()

  lemma ExampleIsWellPosed()
    ensures WellPosed(ExampleInput())
  {
    assert SymbolOf(ExampleInput(), "H") == HELD;
  }

  lemma ExampleSymbolsDiffer()
    ensures HELD != BOUGHT
  {
    if HELD == BOUGHT { SymbolIsInjective("H", "B", "C"); }
  }

  lemma ExampleQuantities()
    ensures CurrentQuantities(ExampleInput()) == map[HELD := 1.0]
  {
    hide Pair.Symbol;
    var i := ExampleInput();
    assert SymbolOf(i, "H") == HELD;
    assert i.holdings.Keys == {"H"};
    assert CurrentQuantities(i).Keys == {HELD};
  }

  lemma ExampleSymbols()
    ensures HELD != BOUGHT && Symbols(ExampleInput()) == {HELD, BOUGHT} && CurrentQuantities(ExampleInput()) == map[HELD := 1.0]
    ensures WellPosed(ExampleInput())
  {
    hide WellPosed, Pair.Symbol, CurrentQuantities;
    ExampleIsWellPosed();
    ExampleSymbolsDiffer();
    ExampleQuantities();
  }

  lemma ExampleAmounts()
    ensures var i := ExampleInput();
      && Equity(i) == 100000.0 && Threshold(i, Equity(i)) == 5000.0 && Current(i, HELD) == 1000.0
      && Target(i, Equity(i), BOUGHT) == 50000.0 && Sum(i.targets.Keys, Weights(i)) == 0.5
  {
    var i := ExampleInput();
    ExampleSymbols();
    assert SymbolOf(i, "H") == HELD;
    assert {} + {"H"} == {"H"} == i.holdings.Keys && {} + {BOUGHT} == {BOUGHT} == i.targets.Keys;
    SumAdd({}, "H", Value(i));
    SumAdd({}, BOUGHT, Weights(i));
  }

  lemma ExampleIsMadeFromLedger()
    ensures Valid(ExampleState()) && MadeFrom(ExampleInput(), ExampleState())
  {
  }

  lemma ExamplePlan() returns (rows: seq<Row>)
    ensures WellPosed(ExampleInput()) && IsPlan(ExampleInput(), Equity(ExampleInput()), rows)
  {
    var i := ExampleInput();
    ExampleSymbols();
    ExampleAmounts();
    hide Equity, Threshold, Current, Target, Symbols, PlanRow, WellPosed;
    var equity := Equity(i);
    NothingToSell(i, equity, HELD);
    BuyIsPlanned(i, equity, BOUGHT);
    rows := [PlanRow(i, equity, BOUGHT).value];
  }

  lemma ExampleCoversCosts(t: Terms)
    requires t == Terms(0.001, 0.0, PaperFillV1)
    ensures WellPosed(ExampleInput()) && CoversCosts(ExampleInput(), t, 0.5)
  {
    var i := ExampleInput();
    ExampleSymbols();
    ExampleAmounts();
    hide Equity, Threshold, Current, Target, Symbols, PlanRow, WellPosed, ExampleInput;
    AtMostTwo(SuppressedSells(i, Equity(i)), HELD, BOUGHT);
    assert CostRate(t) == 0.001;
  }

  lemma AtMostTwo(s: set<string>, a: string, b: string)
    requires s <= {a, b}
    ensures |s| <= 2
  {
    assert s == {} || s == {a} || s == {b} || s == {a, b};
  }

  /** The conditions of both theorems hold together for one decision, ledger, plan and gateway. */
  lemma SolvencyExample() returns (i: Input, s: State, rows: seq<Row>, t: Terms)
    ensures Valid(s) && WellPosed(i) && MadeFrom(i, s) && Accepted(t) && IsPlan(i, Equity(i), rows)
    ensures Equity(i) >= i.minimumOrderNotional > 0.0 && Sum(i.targets.Keys, Weights(i)) <= 0.5 && CoversCosts(i, t, 0.5)
    ensures Symbols(i) == {HELD, BOUGHT} && HELD != BOUGHT && HELD !in i.targets && BOUGHT in i.targets && BOUGHT in i.prices
    ensures BOUGHT !in CurrentQuantities(i) && !i.blockBuys && i.blockedBuys == {}
    ensures Current(i, HELD) < Threshold(i, Equity(i)) <= Target(i, Equity(i), BOUGHT)
  {
    i, s, t := ExampleInput(), ExampleState(), Terms(0.001, 0.0, PaperFillV1);
    ExampleSymbols();
    ExampleAmounts();
    ExampleIsMadeFromLedger();
    rows := ExamplePlan();
    ExampleCoversCosts(t);
    hide Equity, Threshold, Current, Target, Symbols, WellPosed, CurrentQuantities, IsPlan, CoversCosts, MadeFrom, Sum, Valid, ExampleState;
  }
}
