/** The transactional, idempotent paper ledger (infrastructure/sqlite_accounting.py). */
module Ledger {
  import opened Wrappers
  import opened Orders
  import opened Sums
  import opened Reals

  /** Positions smaller than this are deleted instead of stored. */
  const DUST := 0.000000000000000001

  datatype Position = Position(quantity: real, averageCost: real) {
    function Cost(): real { quantity * averageCost }
  }

  datatype Portfolio = Portfolio(purpose: Purpose, cashAsset: string, cash: real, positions: map<string, Position>)

  datatype Execution = Execution(
    orderId: Id, intentId: Id, portfolioId: string, pair: string, base: string, side: Side, quantity: real,
    price: real, fee: real, realizedPnl: real, executedAt: int)

  datatype State = State(portfolios: map<string, Portfolio>, executions: seq<Execution>)

  datatype Error =
    | PositionsNotEmpty | IdentityMismatch
    | SideMismatch | InvalidFill | UnknownPortfolio | PurposeMismatch | QuoteMismatch
    | InsufficientCash | InsufficientPosition

  datatype Outcome = Applied | Duplicate | Refused(error: Error)

  ghost predicate Valid(s: State) {
    forall p <- s.portfolios :: forall a <- s.portfolios[p].positions ::
      s.portfolios[p].positions[a].quantity >= DUST
  }

  // ---------------------------------------------------------------- operations as functions

  function Open(s: State, id: string, purpose: Purpose, cashAsset: string, cash: real): Result<State, Error> {
    if id !in s.portfolios then
      Ok(s.(portfolios := s.portfolios[id := Portfolio(purpose, cashAsset, cash, map[])]))
    else if s.portfolios[id].purpose != purpose || s.portfolios[id].cashAsset != cashAsset then
      Err(IdentityMismatch)
    else
      Ok(s)
  }

  predicate Recorded(log: seq<Execution>, orderId: Id, intentId: Id) {
    exists e <- log :: e.orderId == orderId || e.intentId == intentId
  }

  function Held(p: Portfolio, asset: string): (r: Position)
    ensures asset !in p.positions ==> r.quantity == r.Cost() == 0.0
  {
    if asset in p.positions then p.positions[asset] else Position(0.0, 0.0)
  }

  datatype Fill = Fill(cash: real, position: Position, realizedPnl: real)

  /** A purchase averages its fee into the cost of the position. */
  function BoughtAt(held: Position, notional: real, fee: real, quantity: real): real
    requires quantity != 0.0
  {
    (held.Cost() + notional + fee) / quantity
  }

  function ProfitOf(held: Position, report: Report): real {
    (report.averagePrice - held.averageCost) * report.filledQuantity - report.fee
  }

  /** What one fill does to the cash and to the position of its base asset. */
  function FillOf(cash: real, held: Position, side: Side, report: Report): Result<Fill, Error>
    requires held.quantity >= 0.0 && report.filledQuantity > 0.0
  {
    match side
    case Buy => BuyFill(cash, held, report)
    case Sell => SellFill(cash, held, report)
  }

  function BuyFill(cash: real, held: Position, report: Report): Result<Fill, Error>
    requires held.quantity >= 0.0 && report.filledQuantity > 0.0
  {
    var required := report.Notional() + report.fee;
    var quantity := held.quantity + report.filledQuantity;
    if required > cash then Err(InsufficientCash)
    else Ok(Fill(cash - required, Position(quantity, BoughtAt(held, report.Notional(), report.fee, quantity)), 0.0))
  }

  function SellFill(cash: real, held: Position, report: Report): Result<Fill, Error> {
    var quantity := held.quantity - report.filledQuantity;
    if quantity < 0.0 then Err(InsufficientPosition)
    else Ok(Fill(cash + report.Notional() - report.fee,
                 Position(quantity, if quantity != 0.0 then held.averageCost else 0.0), ProfitOf(held, report)))
  }

  function Upsert(positions: map<string, Position>, asset: string, position: Position): map<string, Position> {
    if Abs(position.quantity) < DUST then positions - {asset} else positions[asset := position]
  }

  function Record(order: Approved, report: Report, realized: real): Execution {
    Execution(report.orderId, order.intent.intentId, order.intent.portfolioId, order.intent.pair.Symbol(),
              order.intent.pair.base, order.intent.side, report.filledQuantity, report.averagePrice,
              report.fee, realized, report.executedAt)
  }

  /** The reason the fill is refused, or the fill. */
  function Judge(s: State, order: Approved, report: Report): Result<Fill, Error>
    requires Valid(s)
  {
    var intent := order.intent;
    if report.side != intent.side then Err(SideMismatch)
    else if report.filledQuantity <= 0.0 || report.filledQuantity > intent.quantity then Err(InvalidFill)
    else if intent.portfolioId !in s.portfolios then Err(UnknownPortfolio)
    else
      var p := s.portfolios[intent.portfolioId];
      if p.purpose != intent.purpose then Err(PurposeMismatch)
      else if p.cashAsset != intent.pair.quote then Err(QuoteMismatch)
      else FillOf(p.cash, Held(p, intent.pair.base), intent.side, report)
  }

  function Post(s: State, order: Approved, report: Report): (Outcome, State)
    requires Valid(s)
  {
    var intent := order.intent;
    if report.side != intent.side then (Refused(SideMismatch), s)
    else if report.filledQuantity <= 0.0 || report.filledQuantity > intent.quantity then (Refused(InvalidFill), s)
    else if Recorded(s.executions, report.orderId, intent.intentId) then (Duplicate, s)
    else match Judge(s, order, report)
      case Err(e) => (Refused(e), s)
      case Ok(fill) =>
        var p := s.portfolios[intent.portfolioId];
        var p' := p.(cash := fill.cash, positions := Upsert(p.positions, intent.pair.base, fill.position));
        (Applied, State(s.portfolios[intent.portfolioId := p'],
                        s.executions + [Record(order, report, fill.realizedPnl)]))
  }

  // ---------------------------------------------------------------- the repository object

  class PaperLedger {
    var portfolios: map<string, Portfolio>
    var executions: seq<Execution>

    ghost function Now(): State
      reads this
    {
      State(portfolios, executions)
    }

    constructor ()
      ensures Now() == State(map[], []) && Valid(Now())
    {
      portfolios, executions := map[], [];
    }

    method Create(id: string, purpose: Purpose, cashAsset: string, cash: real, initialPositions: nat)
        returns (r: Result<Portfolio, Error>)
      requires Valid(Now())
      modifies this
      ensures Valid(Now())
      ensures initialPositions != 0 ==> r == Err(PositionsNotEmpty) && Now() == old(Now())
      ensures initialPositions == 0 ==>
        match Open(old(Now()), id, purpose, cashAsset, cash)
        case Err(e) => r == Err(e) && Now() == old(Now())
        case Ok(s) => Now() == s && id in s.portfolios && r == Ok(s.portfolios[id])
    {
      if initialPositions != 0 {
        return Err(PositionsNotEmpty);
      }
      if id !in portfolios {
        portfolios := portfolios[id := Portfolio(purpose, cashAsset, cash, map[])];
      } else if portfolios[id].purpose != purpose || portfolios[id].cashAsset != cashAsset {
        return Err(IdentityMismatch);
      }
      r := Ok(portfolios[id]);
    }

    method ApplyExecution(order: Approved, report: Report) returns (outcome: Outcome)
      requires Valid(Now())
      modifies this
      ensures (outcome, Now()) == Post(old(Now()), order, report)
      ensures Valid(Now())
    {
      hide Report.Notional, BoughtAt, ProfitOf, Position.Cost;
      PostKeepsValid(Now(), order, report);
      var intent := order.intent;
      if report.side != intent.side {
        return Refused(SideMismatch);
      }
      if report.filledQuantity <= 0.0 || report.filledQuantity > intent.quantity {
        return Refused(InvalidFill);
      }
      if Recorded(executions, report.orderId, intent.intentId) {
        return Duplicate;
      }
      if intent.portfolioId !in portfolios {
        return Refused(UnknownPortfolio);
      }
      var portfolio := portfolios[intent.portfolioId];
      if portfolio.purpose != intent.purpose {
        return Refused(PurposeMismatch);
      }
      if portfolio.cashAsset != intent.pair.quote {
        return Refused(QuoteMismatch);
      }
      var cash := portfolio.cash;
      var held := Held(portfolio, intent.pair.base);
      var notional := report.Notional();
      var realized := 0.0;
      var quantity, average;
      if intent.side.Buy? {
        var required := notional + report.fee;
        if required > cash {
          return Refused(InsufficientCash);
        }
        quantity := held.quantity + report.filledQuantity;
        average := BoughtAt(held, notional, report.fee, quantity);
        cash := cash - required;
      } else {
        if report.filledQuantity > held.quantity {
          return Refused(InsufficientPosition);
        }
        quantity := held.quantity - report.filledQuantity;
        average := if quantity != 0.0 then held.averageCost else 0.0;
        cash := cash + notional - report.fee;
        realized := ProfitOf(held, report);
      }
      var positions := UpsertPosition(portfolio.positions, intent.pair.base, quantity, average);
      portfolios := portfolios[intent.portfolioId := portfolio.(cash := cash, positions := positions)];
      executions := executions + [Record(order, report, realized)];
      outcome := Applied;
    }

    static method UpsertPosition(positions: map<string, Position>, asset: string, quantity: real, average: real)
        returns (r: map<string, Position>)
      ensures r == Upsert(positions, asset, Position(quantity, average))
    {
      if Abs(quantity) < DUST {
        r := positions - {asset};
      } else {
        r := positions[asset := Position(quantity, average)];
      }
    }
  }

  lemma PostKeepsValid(s: State, order: Approved, report: Report)
    requires Valid(s)
    ensures Valid(Post(s, order, report).1)
  {
    hide Report.Notional, BoughtAt, ProfitOf, Position.Cost;
  }

  /**
   * Transactions: an applied fill appends its one execution and touches its own portfolio's cash and its own asset's
   * position, anything else leaves the tables as they were.
   */
  lemma OnlyAppliedFillsChangeState(s: State, order: Approved, report: Report)
    requires Valid(s)
    ensures var (outcome, t) := Post(s, order, report); var id := order.intent.portfolioId;
      if outcome != Applied then t == s
      else
        && |t.executions| == |s.executions| + 1 && t.executions[..|s.executions|] == s.executions
        && (var x := t.executions[|s.executions|];
            x.orderId == report.orderId && x.intentId == order.intent.intentId && x.portfolioId == id
            && x.side == order.intent.side && x.quantity == report.filledQuantity && x.fee == report.fee)
        && id in s.portfolios && t.portfolios.Keys == s.portfolios.Keys
        && (forall q <- s.portfolios :: q != id ==> t.portfolios[q] == s.portfolios[q])
        && OnlyChanges(s.portfolios[id], t.portfolios[id], order.intent.pair.base)
  {
    RefusedPost(s, order, report);
    if Post(s, order, report).0 == Applied {
      AppliedPost(s, order, report);
      hide Judge, Post, Upsert;
      UpsertElsewhere(s.portfolios[order.intent.portfolioId], Judge(s, order, report).value, order.intent.pair.base);
    }
    hide Post;
  }

  lemma RefusedPost(s: State, order: Approved, report: Report)
    requires Valid(s)
    ensures Post(s, order, report).0 != Applied ==> Post(s, order, report).1 == s
  {
    hide FillOf, Upsert, Recorded;
  }

  lemma AppliedPost(s: State, order: Approved, report: Report)
    requires Valid(s) && Post(s, order, report).0 == Applied
    ensures Judge(s, order, report).Ok? && order.intent.portfolioId in s.portfolios
    ensures var id := order.intent.portfolioId; var p := s.portfolios[id]; var fill := Judge(s, order, report).value;
      Post(s, order, report).1 == State(
        s.portfolios[id := p.(cash := fill.cash, positions := Upsert(p.positions, order.intent.pair.base, fill.position))],
        s.executions + [Record(order, report, fill.realizedPnl)])
  {
    hide FillOf, Upsert, Recorded, Record;
  }

  /** The portfolio keeps its identity and every position but that of one asset. */
  predicate OnlyChanges(p: Portfolio, q: Portfolio, asset: string) {
    && q.purpose == p.purpose && q.cashAsset == p.cashAsset
    && q.positions.Keys - {asset} == p.positions.Keys - {asset}
    && forall a <- p.positions :: a != asset ==> a in q.positions && q.positions[a] == p.positions[a]
  }

  lemma UpsertElsewhere(p: Portfolio, fill: Fill, asset: string)
    ensures OnlyChanges(p, p.(cash := fill.cash, positions := Upsert(p.positions, asset, fill.position)), asset)
  {
  }

  // ---------------------------------------------------------------- runs

  datatype Event =
    | Opened(id: string, purpose: Purpose, cashAsset: string, cash: real)
    | Delivered(order: Approved, report: Report)

  function Step(s: State, e: Event): (s': State)
    requires Valid(s)
    ensures Valid(s')
  {
    match e
    case Opened(id, purpose, cashAsset, cash) =>
      (match Open(s, id, purpose, cashAsset, cash) case Ok(s') => s' case Err(_) => s)
    case Delivered(order, report) => PostKeepsValid(s, order, report); Post(s, order, report).1
  }

  function Run(s: State, es: seq<Event>): (s': State)
    requires Valid(s)
    ensures Valid(s')
    decreases |es|
  {
    if es == [] then s else Run(Step(s, es[0]), es[1..])
  }

  lemma {:induction false} RunConcat(s: State, a: seq<Event>, b: seq<Event>)
    requires Valid(s)
    ensures Run(s, a + b) == Run(Run(s, a), b)
    decreases |a|
  {
    if a == [] {
      assert a + b == b;
    } else {
      assert (a + b)[0] == a[0] && (a + b)[1..] == a[1..] + b;
      RunConcat(Step(s, a[0]), a[1..], b);
    }
  }

  // ---------------------------------------------------------------- conservation of book value

  ghost function CostOf(positions: map<string, Position>): string -> real {
    a => if a in positions then positions[a].Cost() else 0.0
  }

  /** Cash plus every position at its average cost. */
  ghost function BookValue(p: Portfolio): real {
    p.cash + Sum(p.positions.Keys, CostOf(p.positions))
  }

  function Realized(log: seq<Execution>, id: string): real {
    if log == [] then 0.0 else
      (if log[0].portfolioId == id then log[0].realizedPnl else 0.0) + Realized(log[1..], id)
  }

  lemma {:induction false} RealizedAppend(log: seq<Execution>, e: Execution, id: string)
    ensures Realized(log + [e], id) == Realized(log, id) + (if e.portfolioId == id then e.realizedPnl else 0.0)
  {
    if log == [] {
      assert log + [e] == [e];
    } else {
      assert (log + [e])[0] == log[0] && (log + [e])[1..] == log[1..] + [e];
      RealizedAppend(log[1..], e, id);
    }
  }

  /** The book value one event writes off by deleting a sub-dust position of the portfolio. */
  function WrittenOff(s: State, e: Event, id: string): real
    requires Valid(s)
  {
    if e.Delivered? && e.order.intent.portfolioId == id && Post(s, e.order, e.report).0 == Applied then
      var position := Judge(s, e.order, e.report).value.position;
      if Abs(position.quantity) < DUST then position.Cost() else 0.0
    else 0.0
  }

  function TotalWrittenOff(s: State, es: seq<Event>, id: string): real
    requires Valid(s)
    decreases |es|
  {
    if es == [] then 0.0 else WrittenOff(s, es[0], id) + TotalWrittenOff(Step(s, es[0]), es[1..], id)
  }

  lemma UpsertCost(positions: map<string, Position>, asset: string, position: Position)
    ensures var after := Upsert(positions, asset, position);
      Sum(after.Keys, CostOf(after)) ==
      Sum(positions.Keys, CostOf(positions)) - (if asset in positions then positions[asset].Cost() else 0.0)
      + (if Abs(position.quantity) < DUST then 0.0 else position.Cost())
  {
    var after := Upsert(positions, asset, position);
    var rest := positions.Keys - {asset};
    SumCongruent(rest, CostOf(positions), CostOf(after));
    if asset in positions {
      SumRemove(positions.Keys, asset, CostOf(positions));
    } else {
      assert rest == positions.Keys;
    }
    if Abs(position.quantity) < DUST {
      assert after.Keys == rest;
    } else {
      assert after.Keys == rest + {asset};
      SumAdd(rest, asset, CostOf(after));
    }
  }

  lemma BuyBalances(cash: real, q: real, c: real, f: real, notional: real, fee: real, q': real, c': real)
    requires q' == q + f != 0.0 && c' == (q * c + notional + fee) / q'
    ensures cash - (notional + fee) + q' * c' == cash + q * c
  {
    QuotientTimes(q * c + notional + fee, q');
  }

  lemma SellBalances(cash: real, q: real, c: real, f: real, p: real, fee: real, q': real, c': real)
    requires q' == q - f && (c' == c || q' == 0.0)
    ensures cash + f * p - fee + q' * c' == cash + q * c + ((p - c) * f - fee)
  {
    assert q' * c' == (q - f) * c;
  }

  lemma BuyFillBalances(cash: real, held: Position, report: Report)
    requires held.quantity >= 0.0 && report.filledQuantity > 0.0 && BuyFill(cash, held, report).Ok?
    ensures var fill := BuyFill(cash, held, report).value;
      fill.cash + fill.position.Cost() == cash + held.Cost() + fill.realizedPnl
  {
    var position := BuyFill(cash, held, report).value.position;
    BuyBalances(cash, held.quantity, held.averageCost, report.filledQuantity, report.Notional(), report.fee,
                position.quantity, position.averageCost);
  }

  lemma SellFillBalances(cash: real, held: Position, report: Report)
    requires SellFill(cash, held, report).Ok?
    ensures var fill := SellFill(cash, held, report).value;
      fill.cash + fill.position.Cost() == cash + held.Cost() + fill.realizedPnl
  {
    var position := SellFill(cash, held, report).value.position;
    SellBalances(cash, held.quantity, held.averageCost, report.filledQuantity, report.averagePrice, report.fee,
                 position.quantity, position.averageCost);
  }

  lemma FillBalances(cash: real, held: Position, side: Side, report: Report)
    requires held.quantity >= 0.0 && report.filledQuantity > 0.0
    requires FillOf(cash, held, side, report).Ok?
    ensures var fill := FillOf(cash, held, side, report).value;
      fill.cash + fill.position.Cost() == cash + held.Cost() + fill.realizedPnl
  {
    hide BuyFill, SellFill, Position.Cost;
    match side
    case Buy => BuyFillBalances(cash, held, report);
    case Sell => SellFillBalances(cash, held, report);
  }

  lemma {:induction false} StepBalances(s: State, e: Event, id: string)
    requires Valid(s) && id in s.portfolios
    ensures var s' := Step(s, e);
      id in s'.portfolios
      && BookValue(s'.portfolios[id]) - Realized(s'.executions, id) ==
         BookValue(s.portfolios[id]) - Realized(s.executions, id) - WrittenOff(s, e, id)
  {
    hide Report.Notional, BoughtAt, ProfitOf, Position.Cost;
    if e.Delivered? && Post(s, e.order, e.report).0 == Applied {
      var fill := Judge(s, e.order, e.report).value;
      RealizedAppend(s.executions, Record(e.order, e.report, fill.realizedPnl), id);
      if e.order.intent.portfolioId == id {
        var p := s.portfolios[id];
        var base := e.order.intent.pair.base;
        FillBalances(p.cash, Held(p, base), e.order.intent.side, e.report);
        UpsertCost(p.positions, base, fill.position);
      }
    }
  }

  /** Over every run: book value = earlier book value + realized profit - written-off dust. */
  lemma {:induction false} BookValueIsConserved(s: State, es: seq<Event>, id: string)
    requires Valid(s) && id in s.portfolios
    ensures var s' := Run(s, es);
      id in s'.portfolios
      && BookValue(s'.portfolios[id]) - Realized(s'.executions, id) ==
         BookValue(s.portfolios[id]) - Realized(s.executions, id) - TotalWrittenOff(s, es, id)
    decreases |es|
  {
    if es != [] {
      StepBalances(s, es[0], id);
      BookValueIsConserved(Step(s, es[0]), es[1..], id);
    }
  }

  /** The same from the moment a portfolio is opened on a ledger that does not know it. */
  lemma ConservationSinceOpening(s: State, id: string, purpose: Purpose, cashAsset: string, cash: real, es: seq<Event>)
    requires Valid(s) && id !in s.portfolios && Realized(s.executions, id) == 0.0
    ensures var start := Open(s, id, purpose, cashAsset, cash).value;
      var s' := Run(start, es);
      id in s'.portfolios
      && BookValue(s'.portfolios[id]) == cash + Realized(s'.executions, id) - TotalWrittenOff(start, es, id)
  {
    var start := Open(s, id, purpose, cashAsset, cash).value;
    BookValueIsConserved(start, es, id);
    assert start.portfolios[id].positions.Keys == {};
  }

  /** Only a remainder below the dust limit is ever written off. */
  lemma WriteOffIsDust(s: State, e: Event, id: string)
    requires Valid(s) && WrittenOff(s, e, id) != 0.0
    ensures e.Delivered? && Judge(s, e.order, e.report).Ok?
    ensures Abs(Judge(s, e.order, e.report).value.position.quantity) < DUST
    ensures e.order.intent.pair.base !in Step(s, e).portfolios[id].positions
  {
  }

  // ---------------------------------------------------------------- exactly once

  ghost predicate KeysAreUnique(log: seq<Execution>) {
    forall i, j :: 0 <= i < j < |log| ==> log[i].orderId != log[j].orderId && log[i].intentId != log[j].intentId
  }

  /** A step either leaves the log alone or appends one entry whose keys are new. */
  lemma StepExtendsLog(s: State, e: Event)
    requires Valid(s)
    ensures var log' := Step(s, e).executions;
      log' == s.executions
      || (e.Delivered? && |log'| == |s.executions| + 1 && s.executions <= log'
          && !Recorded(s.executions, e.report.orderId, e.order.intent.intentId)
          && log'[|s.executions|].orderId == e.report.orderId
          && log'[|s.executions|].intentId == e.order.intent.intentId)
  {
    hide Report.Notional, BoughtAt, ProfitOf, Position.Cost;
  }

  lemma NewKeysStayUnique(log: seq<Execution>, log': seq<Execution>)
    requires KeysAreUnique(log) && log <= log' && |log'| == |log| + 1
    requires !Recorded(log, log'[|log|].orderId, log'[|log|].intentId)
    ensures KeysAreUnique(log')
  {
    forall i | 0 <= i < |log| ensures log'[i] in log {}
  }

  lemma {:induction false} RunKeepsKeysUnique(s: State, es: seq<Event>)
    requires Valid(s) && KeysAreUnique(s.executions)
    ensures KeysAreUnique(Run(s, es).executions)
    ensures s.executions <= Run(s, es).executions
    decreases |es|
  {
    hide Post;
    if es != [] {
      var s' := Step(s, es[0]);
      StepExtendsLog(s, es[0]);
      if s'.executions != s.executions {
        NewKeysStayUnique(s.executions, s'.executions);
      }
      RunKeepsKeysUnique(s', es[1..]);
    }
  }

  predicate Applies(s: State, e: Event)
    requires Valid(s)
  {
    e.Delivered? && Post(s, e.order, e.report).0 == Applied
  }

  predicate SharesKey(a: Event, b: Event)
    requires a.Delivered? && b.Delivered?
  {
    a.report.orderId == b.report.orderId || a.order.intent.intentId == b.order.intent.intentId
  }

  predicate KeySeen(log: seq<Execution>, e: Event)
    requires e.Delivered?
  {
    Recorded(log, e.report.orderId, e.order.intent.intentId)
  }

  lemma RecordedGrows(log: seq<Execution>, log': seq<Execution>, orderId: Id, intentId: Id)
    requires log <= log' && Recorded(log, orderId, intentId)
    ensures Recorded(log', orderId, intentId)
  {
    var e :| e in log && (e.orderId == orderId || e.intentId == intentId);
    assert e in log';
  }

  /** A retry of an applied delivery changes nothing, wherever in the rest of the run it arrives. */
  lemma RetryIsInert(s: State, before: seq<Event>, first: Event, between: seq<Event>, retry: Event, after: seq<Event>)
    requires Valid(s) && KeysAreUnique(s.executions)
    requires Applies(Run(s, before), first) && retry.Delivered? && SharesKey(first, retry)
    ensures Run(s, before + [first] + between + [retry] + after) == Run(s, before + [first] + between + after)
  {
    hide Report.Notional, BoughtAt, ProfitOf, Position.Cost;
    var upTo := before + [first] + between;
    var s0 := Run(s, before);
    RunKeepsKeysUnique(s, before);
    var s1 := Step(s0, first);
    var s2 := Run(s1, between);
    var entry := s1.executions[|s1.executions| - 1];
    assert entry in s1.executions && entry.orderId == first.report.orderId
      && entry.intentId == first.order.intent.intentId;
    assert Recorded(s1.executions, retry.report.orderId, retry.order.intent.intentId);
    RunKeepsKeysUnique(s0, [first]);
    assert Run(s0, [first]) == s1;
    RunKeepsKeysUnique(s1, between);
    RecordedGrows(s1.executions, s2.executions, retry.report.orderId, retry.order.intent.intentId);
    assert Step(s2, retry) == s2;
    RunConcat(s, before, [first]);
    RunConcat(s, before + [first], between);
    RunConcat(s, upTo, [retry]);
    RunConcat(s, upTo + [retry], after);
    RunConcat(s, upTo, after);
    assert Run(s2, [retry]) == s2;
  }

  // ---------------------------------------------------------------- cash stays non-negative

  ghost predicate Solvent(s: State) {
    forall p <- s.portfolios :: s.portfolios[p].cash >= 0.0
  }

  predicate FeeIsCovered(e: Event) {
    match e
    case Opened(_, _, _, cash) => cash >= 0.0
    case Delivered(order, report) => report.side.Sell? ==> report.fee <= report.Notional()
  }

  lemma {:induction false} CashStaysNonNegative(s: State, es: seq<Event>)
    requires Valid(s) && Solvent(s)
    requires forall e <- es :: FeeIsCovered(e)
    ensures Solvent(Run(s, es))
    decreases |es|
  {
    hide Report.Notional, BoughtAt, ProfitOf, Position.Cost;
    if es != [] {
      assert FeeIsCovered(es[0]);
      CashStaysNonNegative(Step(s, es[0]), es[1..]);
    }
  }

  /** Cash plus every position at a market price. */
  ghost function MarketEquity(p: Portfolio, price: string -> real): real {
    p.cash + Sum(p.positions.Keys, MarketValue(p.positions, price))
  }

  ghost function MarketValue(positions: map<string, Position>, price: string -> real): string -> real {
    a => if a in positions then Times(positions[a].quantity, price(a)) else 0.0
  }

  /** So at prices that are not negative the equity is never negative either. */
  lemma EquityStaysNonNegative(s: State, es: seq<Event>, id: string, price: string -> real)
    requires Valid(s) && Solvent(s) && (forall e <- es :: FeeIsCovered(e)) && forall a :: price(a) >= 0.0
    ensures id in Run(s, es).portfolios ==> MarketEquity(Run(s, es).portfolios[id], price) >= 0.0
  {
    CashStaysNonNegative(s, es);
    var t := Run(s, es);
    if id in t.portfolios {
      hide Run, Position.Cost;
      var positions := t.portfolios[id].positions;
      forall a <- positions.Keys ensures MarketValue(positions, price)(a) >= 0.0 {
        StoredIsPositive(t, id, a);
        ProductNonNegative(positions[a].quantity, price(a));
      }
      hide Times, Valid, Solvent;
      SumNonNegative(positions.Keys, MarketValue(positions, price));
    }
  }

  lemma StoredIsPositive(s: State, id: string, asset: string)
    requires Valid(s) && id in s.portfolios && asset in s.portfolios[id].positions
    ensures s.portfolios[id].positions[asset].quantity > 0.0
  {
    hide Position.Cost;
  }

  /** The fee bound is exact: it fails for a SELL report iff some solvent ledger goes negative on it. */
  lemma CashIsSafeIffFeeIsCovered(order: Approved, report: Report)
    requires order.intent.side == Sell == report.side
    requires 0.0 < report.filledQuantity <= order.intent.quantity
    ensures report.fee <= report.Notional() <==>
      forall s: State :: Valid(s) && Solvent(s) ==> Solvent(Post(s, order, report).1)
  {
    hide Report.Notional, BoughtAt, ProfitOf, Position.Cost;
    if report.fee <= report.Notional() {
      forall s: State | Valid(s) && Solvent(s) ensures Solvent(Post(s, order, report).1) {}
    } else {
      var i := order.intent;
      var p := Portfolio(i.purpose, i.pair.quote, 0.0, map[i.pair.base := Position(Max(report.filledQuantity, DUST), 0.0)]);
      var s := State(map[i.portfolioId := p], []);
      assert Valid(s) && Solvent(s);
      assert Post(s, order, report).0 == Applied;
      assert Post(s, order, report).1.portfolios[i.portfolioId].cash == report.Notional() - report.fee < 0.0;
      assert !Solvent(Post(s, order, report).1);
    }
  }
}
