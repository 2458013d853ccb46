/** Which deliveries may be repeated without effect (infrastructure/sqlite_accounting.py, apply_execution). */
module Redelivery {
  import opened Wrappers
  import opened Orders
  import opened Reals
  import opened Ledger

  // ---------------------------------------------------------------- what callers can send

  /** The records of the domain validate themselves: positive quantities and prices, no negative fee or opening cash. */
  predicate WellFormed(e: Event) {
    match e
    case Opened(_, purpose, _, cash) => !purpose.CoreInvestment? && cash >= 0.0
    case Delivered(order, report) =>
      && order.intent.quantity > 0.0 && order.intent.intentId != Text("") && !order.intent.purpose.CoreInvestment? && order.intent.pair.base != order.intent.pair.quote
      && report.Accepted()
  }

  ghost predicate AllWellFormed(es: seq<Event>) {
    forall e <- es :: WellFormed(e)
  }

  /** No portfolio holds its own cash as a position, and every position has a positive average cost. */
  ghost predicate Sensible(s: State) {
    forall id <- s.portfolios ::
      && s.portfolios[id].cashAsset !in s.portfolios[id].positions
      && forall a <- s.portfolios[id].positions :: s.portfolios[id].positions[a].averageCost > 0.0
  }

  lemma QuotientIsPositive(a: real, b: real)
    requires a > 0.0 && b > 0.0
    ensures a / b > 0.0
  {
    QuotientTimes(a, b);
  }

  lemma ProductIsPositive(a: real, b: real)
    requires a > 0.0 && b > 0.0
    ensures a * b > 0.0
  {
  }

  lemma BoughtAtIsPositive(held: Position, notional: real, fee: real, quantity: real)
    requires held.quantity >= 0.0 && held.averageCost >= 0.0 && notional > 0.0 && fee >= 0.0 && quantity > 0.0
    ensures BoughtAt(held, notional, fee, quantity) > 0.0
  {
    ProductNonNegative(held.quantity, held.averageCost);
    QuotientIsPositive(held.Cost() + notional + fee, quantity);
  }

  lemma NotionalIsPositive(r: Report)
    requires r.filledQuantity > 0.0 && r.averagePrice > 0.0
    ensures r.Notional() > 0.0
  {
    ProductIsPositive(r.filledQuantity, r.averagePrice);
  }

  /** Well-formed traffic keeps a ledger sensible: costs stay positive. */
  lemma StepKeepsSensible(s: State, e: Event)
    requires Valid(s) && Sensible(s) && WellFormed(e)
    ensures Sensible(Step(s, e))
  {
    hide Report.Notional, BoughtAt, ProfitOf, Position.Cost;
    if e.Delivered? && Post(s, e.order, e.report).0 == Applied {
      AppliedPost(s, e.order, e.report);
      var p := s.portfolios[e.order.intent.portfolioId];
      var held := Held(p, e.order.intent.pair.base);
      NotionalIsPositive(e.report);
      if e.order.intent.side.Buy? {
        BoughtAtIsPositive(held, e.report.Notional(), e.report.fee, held.quantity + e.report.filledQuantity);
      }
    }
  }

  lemma {:induction false} RunKeepsSensible(s: State, es: seq<Event>)
    requires Valid(s) && Sensible(s) && AllWellFormed(es)
    ensures Sensible(Run(s, es))
    decreases |es|
  {
    if es != [] {
      hide Sensible, Step;
      StepKeepsSensible(s, es[0]);
      RunKeepsSensible(Step(s, es[0]), es[1..]);
    }
  }

  // ---------------------------------------------------------------- quiet deliveries

  /** Whatever else arrives first, delivering this changes nothing. */
  ghost predicate Quiet(s: State, e: Event)
    requires Valid(s)
  {
    forall es: seq<Event> :: AllWellFormed(es) ==> Step(Run(s, es), e) == Run(s, es)
  }

  /** Portfolios whose cash is used up and that hold nothing can never trade again. */
  predicate Drained(p: Portfolio) {
    p.cash <= 0.0 && p.positions == map[]
  }

  /**
   * The guards after which a refused delivery may still be applied later: it is in order and unrecorded, and its
   * portfolio is not open yet, or lacks the cash or the position but can still trade.
   */
  predicate CanSucceedLater(s: State, e: Event)
    requires e.Delivered?
  {
    var intent := e.order.intent;
    && e.report.side == intent.side && 0.0 < e.report.filledQuantity <= intent.quantity
    && !Recorded(s.executions, e.report.orderId, intent.intentId)
    && (intent.portfolioId in s.portfolios ==>
          var p := s.portfolios[intent.portfolioId];
          && p.purpose == intent.purpose && p.cashAsset == intent.pair.quote && !Drained(p)
          && (if intent.side.Buy? then e.report.Notional() + e.report.fee > p.cash
              else e.report.filledQuantity > Held(p, intent.pair.base).quantity))
  }

  // ---------------------------------------------------------------- what never changes

  predicate SameIdentity(s: State, t: State, id: string) {
    id in s.portfolios && id in t.portfolios
    && t.portfolios[id].purpose == s.portfolios[id].purpose && t.portfolios[id].cashAsset == s.portfolios[id].cashAsset
  }

  lemma StepKeepsIdentity(s: State, e: Event, id: string)
    requires Valid(s) && id in s.portfolios
    ensures SameIdentity(s, Step(s, e), id)
    ensures WellFormed(e) && Drained(s.portfolios[id]) ==> Step(s, e).portfolios[id] == s.portfolios[id]
    ensures s.executions <= Step(s, e).executions
  {
    hide Report.Notional, BoughtAt, ProfitOf, Position.Cost;
    if e.Delivered? {
      RefusedPost(s, e.order, e.report);
      if WellFormed(e) { NotionalIsPositive(e.report); }
      if Post(s, e.order, e.report).0 == Applied { AppliedPost(s, e.order, e.report); }
    }
  }

  lemma {:induction false} RunKeepsIdentity(s: State, es: seq<Event>, id: string)
    requires Valid(s) && AllWellFormed(es) && id in s.portfolios
    ensures SameIdentity(s, Run(s, es), id)
    ensures Drained(s.portfolios[id]) ==> Run(s, es).portfolios[id] == s.portfolios[id]
    decreases |es|
  {
    if es != [] {
      hide Drained, WellFormed, Step;
      assert WellFormed(es[0]) && forall x <- es[1..] :: x in es;
      StepKeepsIdentity(s, es[0], id);
      RunKeepsIdentity(Step(s, es[0]), es[1..], id);
    }
  }

  lemma {:induction false} RunExtendsLog(s: State, es: seq<Event>)
    requires Valid(s)
    ensures s.executions <= Run(s, es).executions
    decreases |es|
  {
    if es != [] {
      StepExtendsLog(s, es[0]);
      hide Step;
      RunExtendsLog(Step(s, es[0]), es[1..]);
    }
  }

  lemma RecordedIsQuiet(s: State, e: Event)
    requires Valid(s) && e.Delivered? && KeySeen(s.executions, e)
    ensures Quiet(s, e)
  {
    forall es: seq<Event> | AllWellFormed(es) ensures Step(Run(s, es), e) == Run(s, es) {
      RunExtendsLog(s, es);
      RecordedGrows(s.executions, Run(s, es).executions, e.report.orderId, e.order.intent.intentId);
    }
  }

  lemma DrainedRefuses(s: State, e: Event)
    requires Valid(s) && e.Delivered? && WellFormed(e)
    requires e.order.intent.portfolioId in s.portfolios && Drained(s.portfolios[e.order.intent.portfolioId])
    ensures Step(s, e) == s
  {
    hide Report.Notional, BoughtAt, ProfitOf, Position.Cost;
    NotionalIsPositive(e.report);
  }

  lemma OtherIdentityRefuses(s: State, e: Event)
    requires Valid(s) && e.Delivered? && e.order.intent.portfolioId in s.portfolios
    requires var p := s.portfolios[e.order.intent.portfolioId];
      p.purpose != e.order.intent.purpose || p.cashAsset != e.order.intent.pair.quote
    ensures Step(s, e) == s
  {
    hide FillOf, Upsert, Record;
  }

  /** A delivery that cannot succeed later is settled: the first delivery was its last effect. */
  lemma SettledIsQuiet(s: State, e: Event)
    requires Valid(s) && e.Delivered? && WellFormed(e) && !CanSucceedLater(s, e)
    ensures Quiet(Step(s, e), e)
  {
    var intent := e.order.intent;
    var t := Step(s, e);
    if Applies(s, e) {
      AppliedPost(s, e.order, e.report);
      var x := t.executions[|s.executions|];
      assert x in t.executions && x.orderId == e.report.orderId && x.intentId == intent.intentId;
      hide Post;
      RecordedIsQuiet(t, e);
    } else {
      RefusedPost(s, e.order, e.report);
      assert t == s;
      if e.report.side != intent.side || e.report.filledQuantity > intent.quantity {
        hide Judge;
      } else if KeySeen(s.executions, e) {
        RecordedIsQuiet(s, e);
      } else {
        RefusedForGood(s, e);
      }
    }
  }

  lemma RefusedForGood(s: State, e: Event)
    requires Valid(s) && e.Delivered? && WellFormed(e) && !Applies(s, e) && !CanSucceedLater(s, e)
    requires e.report.side == e.order.intent.side && e.report.filledQuantity <= e.order.intent.quantity
    requires !KeySeen(s.executions, e)
    ensures Quiet(s, e)
  {
    hide Report.Notional, BoughtAt, ProfitOf, Position.Cost;
    var id := e.order.intent.portfolioId;
    assert id in s.portfolios;
    var p := s.portfolios[id];
    assert p.purpose != e.order.intent.purpose || p.cashAsset != e.order.intent.pair.quote || Drained(p);
    hide Post, Judge, CanSucceedLater;
    forall es: seq<Event> | AllWellFormed(es) ensures Step(Run(s, es), e) == Run(s, es) {
      RunKeepsIdentity(s, es, id);
      if Drained(p) { DrainedRefuses(Run(s, es), e); } else { OtherIdentityRefuses(Run(s, es), e); }
    }
  }

  // ---------------------------------------------------------------- how a refused delivery can succeed later

  function Trade(id: string, purpose: Purpose, pair: Pair, side: Side, quantity: real, price: real, orderKey: Id, intentKey: Id): Event {
    Delivered(Approved(Intent(id, purpose, pair, side, quantity, 0, intentKey), ""),
              Report(orderKey, side, quantity, price, 0.0, 0, PaperFillV1, 0.0, 0.0))
  }

  /** Longer than every text among some identifiers. */
  lemma {:induction false} LongText(ids: set<Id>) returns (n: nat)
    ensures forall i <- ids :: i.Text? ==> |i.text| < n
    decreases |ids|
  {
    n := 0;
    if ids != {} {
      var i :| i in ids;
      var m := LongText(ids - {i});
      n := if i.Text? && |i.text| >= m then |i.text| + 1 else m;
    }
  }

  lemma FreshId(ids: set<Id>) returns (k: Id)
    ensures k !in ids && k.Text? && k != Text("")
  {
    var n := LongText(ids);
    k := Text(seq(n + 1, _ => 'x'));
  }

  /** The identifiers a log uses. */
  function Used(log: seq<Execution>): set<Id> {
    (set x <- log :: x.orderId) + (set x <- log :: x.intentId)
  }

  lemma UnusedIsUnrecorded(log: seq<Execution>, orderKey: Id, intentKey: Id)
    requires orderKey !in Used(log) && intentKey !in Used(log)
    ensures !Recorded(log, orderKey, intentKey)
  {
  }

  /** What one trade of a known portfolio does: the cash moves by the amount, the asset by the quantity. */
  ghost predicate Traded(s: State, t: State, id: string, asset: string, cash: real, quantity: real, orderKey: Id, intentKey: Id)
    requires id in s.portfolios
  {
    && SameIdentity(s, t, id) && t.portfolios[id].cash == cash && Held(t.portfolios[id], asset).quantity == quantity
    && |t.executions| == |s.executions| + 1 && t.executions[..|s.executions|] == s.executions
    && t.executions[|s.executions|].orderId == orderKey && t.executions[|s.executions|].intentId == intentKey
  }

  lemma BuyTrades(s: State, id: string, asset: string, quantity: real, price: real, total: real, orderKey: Id, intentKey: Id)
    requires Valid(s) && id in s.portfolios && quantity >= 1.0 && price > 0.0
    requires quantity * price == total <= s.portfolios[id].cash
    requires !Recorded(s.executions, orderKey, intentKey)
    ensures var p := s.portfolios[id];
      var e := Trade(id, p.purpose, Pair(asset, p.cashAsset), Buy, quantity, price, orderKey, intentKey);
      Traded(s, Step(s, e), id, asset, p.cash - total, Held(p, asset).quantity + quantity, orderKey, intentKey)
  {
    hide BoughtAt, Position.Cost, Recorded;
    var p := s.portfolios[id];
    var e := Trade(id, p.purpose, Pair(asset, p.cashAsset), Buy, quantity, price, orderKey, intentKey);
    assert e.report.Notional() == total;
    assert Post(s, e.order, e.report).0 == Applied;
    AppliedPost(s, e.order, e.report);
    hide Post, Report.Notional;
  }

  lemma SellTrades(s: State, id: string, asset: string, price: real, total: real, orderKey: Id, intentKey: Id)
    requires Valid(s) && id in s.portfolios && asset in s.portfolios[id].positions && price > 0.0
    requires s.portfolios[id].positions[asset].quantity * price == total
    requires !Recorded(s.executions, orderKey, intentKey)
    ensures var p := s.portfolios[id]; var quantity := p.positions[asset].quantity;
      var e := Trade(id, p.purpose, Pair(asset, p.cashAsset), Sell, quantity, price, orderKey, intentKey);
      Traded(s, Step(s, e), id, asset, p.cash + total, 0.0, orderKey, intentKey)
  {
    hide BoughtAt, ProfitOf, Position.Cost, Recorded;
    var p := s.portfolios[id];
    var e := Trade(id, p.purpose, Pair(asset, p.cashAsset), Sell, p.positions[asset].quantity, price, orderKey, intentKey);
    assert e.report.Notional() == total;
    assert Post(s, e.order, e.report).0 == Applied;
    AppliedPost(s, e.order, e.report);
    hide Post, Report.Notional;
  }

  lemma TradedKeepsUnrecorded(s: State, t: State, id: string, asset: string, cash: real, quantity: real,
                              orderKey: Id, intentKey: Id, e: Event)
    requires id in s.portfolios && Traded(s, t, id, asset, cash, quantity, orderKey, intentKey) && e.Delivered?
    requires !KeySeen(s.executions, e) && orderKey != e.report.orderId && intentKey != e.order.intent.intentId
    ensures !KeySeen(t.executions, e)
  {
    forall x <- t.executions ensures x.orderId != e.report.orderId && x.intentId != e.order.intent.intentId {
      var k :| 0 <= k < |t.executions| && t.executions[k] == x;
      if k < |s.executions| { assert t.executions[..|s.executions|][k] == x; assert x in s.executions; }
    }
  }

  lemma RunOne(s: State, e: Event)
    requires Valid(s)
    ensures Run(s, [e]) == Step(s, e)
  {
    assert [e][1..] == [];
  }

  lemma RunTwo(s: State, a: Event, b: Event)
    requires Valid(s)
    ensures Run(s, [a, b]) == Step(Step(s, a), b)
  {
    hide Step;
    assert [a, b][1..] == [b] && [b][1..] == [];
    assert Run(Step(s, a), [b]) == Step(Step(s, a), b);
  }

  /** The price at which a quantity is worth a total. */
  lemma PriceFor(quantity: real, total: real) returns (price: real)
    requires quantity > 0.0 && total > 0.0
    ensures price > 0.0 && quantity * price == total
  {
    price := total / quantity;
    QuotientIsPositive(total, quantity);
    QuotientTimes(total, quantity);
  }

  /** The delivery is unrecorded and its portfolio is open under its own identity. */
  ghost predicate Awaits(s: State, e: Event): (awaits: bool)
    ensures awaits ==> Valid(s) && e.Delivered? && e.order.intent.portfolioId in s.portfolios
  {
    && Valid(s) && e.Delivered? && WellFormed(e) && !KeySeen(s.executions, e)
    && e.order.intent.portfolioId in s.portfolios
    && s.portfolios[e.order.intent.portfolioId].purpose == e.order.intent.purpose
    && s.portfolios[e.order.intent.portfolioId].cashAsset == e.order.intent.pair.quote
  }

  function Own(s: State, e: Event): Portfolio
    requires e.Delivered? && e.order.intent.portfolioId in s.portfolios
  {
    s.portfolios[e.order.intent.portfolioId]
  }

  lemma TradeLeadsOn(s: State, t: State, e: Event, asset: string, cash: real, quantity: real, key: Id)
    requires Awaits(s, e) && Valid(t) && Traded(s, t, e.order.intent.portfolioId, asset, cash, quantity, key, key)
    requires key !in Used(s.executions) && key != e.report.orderId && key != e.order.intent.intentId
    ensures Awaits(t, e) && Own(t, e).cash == cash && Held(Own(t, e), asset).quantity == quantity
  {
    TradedKeepsUnrecorded(s, t, e.order.intent.portfolioId, asset, cash, quantity, key, key, e);
    hide Valid, Recorded, WellFormed, Held;
  }

  lemma KeyFor(s: State, e: Event) returns (key: Id)
    requires e.Delivered?
    ensures key !in Used(s.executions) && key != e.report.orderId && key != e.order.intent.intentId && key != Text("")
    ensures !Recorded(s.executions, key, key)
  {
    key := FreshId(Used(s.executions) + {e.report.orderId, e.order.intent.intentId});
    UnusedIsUnrecorded(s.executions, key, key);
  }

  /** Buys the delivery's asset at a price that spends exactly the given cash. */
  lemma BuyFor(s: State, e: Event, quantity: real, total: real) returns (buy: Event, t: State)
    requires Awaits(s, e) && quantity >= 1.0 && 0.0 < total <= Own(s, e).cash
    ensures WellFormed(buy) && t == Step(s, buy) && Awaits(t, e) && Own(t, e).cash == Own(s, e).cash - total
    ensures Held(Own(t, e), e.order.intent.pair.base).quantity == Held(Own(s, e), e.order.intent.pair.base).quantity + quantity
  {
    var id, asset, p := e.order.intent.portfolioId, e.order.intent.pair.base, Own(s, e);
    var key := KeyFor(s, e);
    var price := PriceFor(quantity, total);
    buy := Trade(id, p.purpose, Pair(asset, p.cashAsset), Buy, quantity, price, key, key);
    t := Step(s, buy);
    BuyTrades(s, id, asset, quantity, price, total, key, key);
    hide Step, Used, Recorded, Held, Valid, SameIdentity, Awaits;
    TradeLeadsOn(s, t, e, asset, p.cash - total, Held(p, asset).quantity + quantity, key);
  }

  /** Sells a whole position at a price that brings in exactly the given cash. */
  lemma SellFor(s: State, e: Event, asset: string, total: real) returns (sell: Event, t: State)
    requires Awaits(s, e) && asset in Own(s, e).positions && asset != e.order.intent.pair.quote && total > 0.0
    ensures WellFormed(sell) && t == Step(s, sell) && Awaits(t, e) && Own(t, e).cash == Own(s, e).cash + total
  {
    hide Step, Used, Recorded, Held, Valid, SameIdentity;
    var id, p := e.order.intent.portfolioId, Own(s, e);
    var quantity := p.positions[asset].quantity;
    StoredIsPositive(s, id, asset);
    var key := KeyFor(s, e);
    var price := PriceFor(quantity, total);
    sell := Trade(id, p.purpose, Pair(asset, p.cashAsset), Sell, quantity, price, key, key);
    t := Step(s, sell);
    SellTrades(s, id, asset, price, total, key, key);
    hide Awaits;
    TradeLeadsOn(s, t, e, asset, p.cash + total, 0.0, key);
  }

  /** The events lead from one state to another with the delivery still waiting and the given cash. */
  ghost predicate LeadsTo(s: State, es: seq<Event>, t: State, e: Event, cash: real) {
    Valid(s) && AllWellFormed(es) && t == Run(s, es) && Awaits(t, e) && Own(t, e).cash == cash
  }

  lemma EnrichByTrading(s: State, e: Event, target: real) returns (es: seq<Event>, t: State)
    requires Awaits(s, e) && Own(s, e).cash > 0.0 && target > 0.0
    ensures LeadsTo(s, es, t, e, target)
  {
    hide *;
    var asset := e.order.intent.pair.base;
    AwaitsTells(s, e);
    var buy, u := BuyFor(s, e, 1.0, Own(s, e).cash);
    HeldTells(Own(u, e), asset);
    var sell;
    sell, t := SellFor(u, e, asset, target);
    es := [buy, sell];
    RunTwo(s, buy, sell);
    LeadsThere(s, es, t, e, target);
  }

  lemma LeadsThere(s: State, es: seq<Event>, t: State, e: Event, cash: real)
    requires Valid(s) && (forall x <- es :: WellFormed(x)) && t == Run(s, es) && Awaits(t, e) && Own(t, e).cash == cash
    ensures LeadsTo(s, es, t, e, cash)
  {
  }

  lemma EnrichBySelling(s: State, e: Event, target: real) returns (es: seq<Event>, t: State)
    requires Awaits(s, e) && Sensible(s) && Own(s, e).cash <= 0.0 && Own(s, e).positions != map[] && target > 0.0
    ensures LeadsTo(s, es, t, e, target)
  {
    hide *;
    AwaitsTells(s, e);
    var a :| a in Own(s, e).positions;
    var sell;
    sell, t := SellFor(s, e, a, target - Own(s, e).cash);
    es := [sell];
    RunOne(s, sell);
    LeadsThere(s, es, t, e, target);
  }

  /** A portfolio that is not drained can reach any amount of cash. */
  lemma Enrich(s: State, e: Event, target: real) returns (es: seq<Event>, t: State)
    requires Awaits(s, e) && Sensible(s) && !Drained(Own(s, e)) && target > 0.0
    ensures LeadsTo(s, es, t, e, target)
  {
    if Own(s, e).cash > 0.0 {
      es, t := EnrichByTrading(s, e, target);
    } else {
      es, t := EnrichBySelling(s, e, target);
    }
    hide LeadsTo;
  }

  lemma AwaitsTells(s: State, e: Event)
    requires Awaits(s, e)
    ensures e.order.intent.pair.base != e.order.intent.pair.quote && e.report.filledQuantity > 0.0 && Valid(s)
    ensures Held(Own(s, e), e.order.intent.pair.base).quantity >= 0.0
    ensures Sensible(s) ==> e.order.intent.pair.quote !in Own(s, e).positions
  {
  }

  lemma HeldTells(p: Portfolio, asset: string)
    ensures Held(p, asset).quantity != 0.0 ==> asset in p.positions
  {
  }

  lemma EnoughApplies(s: State, e: Event)
    requires Awaits(s, e) && e.report.side == e.order.intent.side && e.report.filledQuantity <= e.order.intent.quantity
    requires if e.order.intent.side.Buy? then e.report.Notional() + e.report.fee <= Own(s, e).cash
             else e.report.filledQuantity <= Held(Own(s, e), e.order.intent.pair.base).quantity
    ensures Applies(s, e) && Step(s, e) != s
  {
    hide Report.Notional, BoughtAt, ProfitOf, Position.Cost;
    assert Post(s, e.order, e.report).0 == Applied;
    AppliedPost(s, e.order, e.report);
  }

  lemma OneWellFormed(e: Event)
    requires WellFormed(e)
    ensures AllWellFormed([e])
  {
  }

  /** A sale first buys what it sells. */
  lemma PrepareSale(s: State, e: Event) returns (es: seq<Event>)
    requires Awaits(s, e) && e.report.side == e.order.intent.side && e.report.filledQuantity <= e.order.intent.quantity
    requires e.order.intent.side.Sell? && Own(s, e).cash == 1.0
    ensures AllWellFormed(es) && Step(Run(s, es), e) != Run(s, es)
  {
    hide *;
    AwaitsTells(s, e);
    var buy, t := BuyFor(s, e, e.report.filledQuantity + 1.0, 1.0);
    EnoughApplies(t, e);
    es := [buy];
    RunOne(s, buy);
    OneWellFormed(buy);
  }

  lemma PreparePurchase(s: State, e: Event) returns (es: seq<Event>)
    requires Awaits(s, e) && e.report.side == e.order.intent.side && e.report.filledQuantity <= e.order.intent.quantity
    requires e.order.intent.side.Buy? && Own(s, e).cash == e.report.Notional() + e.report.fee
    ensures AllWellFormed(es) && Step(Run(s, es), e) != Run(s, es)
  {
    es := [];
    EnoughApplies(s, e);
    hide Step, Awaits, Own;
  }

  lemma OpeningLeadsOn(s: State, e: Event, cash: real) returns (t: State)
    requires Valid(s) && e.Delivered? && WellFormed(e) && !KeySeen(s.executions, e) && cash > 0.0
    requires e.order.intent.portfolioId !in s.portfolios
    ensures var opening := Opened(e.order.intent.portfolioId, e.order.intent.purpose, e.order.intent.pair.quote, cash);
      WellFormed(opening) && t == Step(s, opening) && Awaits(t, e) && Own(t, e).cash == cash
  {
    hide Recorded;
    t := Step(s, Opened(e.order.intent.portfolioId, e.order.intent.purpose, e.order.intent.pair.quote, cash));
  }

  /** After a refusal that is not for good, some later traffic lets the same delivery through. */
  lemma SucceedsLater(s: State, e: Event) returns (es: seq<Event>)
    requires Valid(s) && Sensible(s) && e.Delivered? && WellFormed(e) && CanSucceedLater(s, e)
    ensures AllWellFormed(es) && Step(s, e) == s && Step(Run(s, es), e) != Run(s, es)
  {
    var i := e.order.intent;
    RefusedNow(s, e);
    NotionalIsPositive(e.report);
    var need := if i.side.Buy? then e.report.Notional() + e.report.fee else 1.0;
    assert e.report.side == i.side && e.report.filledQuantity <= i.quantity;
    var first, t := ReachCash(s, e, need);
    hide Step, CanSucceedLater, Report.Notional, Awaits, Own;
    var second;
    if i.side.Buy? { second := PreparePurchase(t, e); } else { second := PrepareSale(t, e); }
    es := first + second;
    RunConcat(s, first, second);
  }

  lemma ReachCash(s: State, e: Event, need: real) returns (first: seq<Event>, t: State)
    requires Valid(s) && Sensible(s) && e.Delivered? && WellFormed(e) && CanSucceedLater(s, e) && need > 0.0
    ensures LeadsTo(s, first, t, e, need)
  {
    var i := e.order.intent;
    if i.portfolioId !in s.portfolios {
      t := OpeningLeadsOn(s, e, need);
      first := [Opened(i.portfolioId, i.purpose, i.pair.quote, need)];
      RunOne(s, first[0]);
      hide Step, Awaits, Own, CanSucceedLater;
    } else {
      first, t := Enrich(s, e, need);
    }
  }

  lemma RefusedNow(s: State, e: Event)
    requires Valid(s) && e.Delivered? && CanSucceedLater(s, e)
    ensures Step(s, e) == s
  {
    hide Report.Notional, BoughtAt, ProfitOf, Position.Cost, Upsert, Record, Recorded;
  }

  /**
   * Exactly-once, exactly: after a delivery every repetition of it is without effect, whatever else arrives in between,
   * if and only if it was not refused for an unopened portfolio or for lack of cash or position in one that can still trade.
   */
  lemma RedeliveryIsInertIff(s: State, e: Event)
    requires Valid(s) && Sensible(s) && e.Delivered? && WellFormed(e)
    ensures Quiet(Step(s, e), e) <==> !CanSucceedLater(s, e)
  {
    if CanSucceedLater(s, e) {
      var es := SucceedsLater(s, e);
    } else {
      SettledIsQuiet(s, e);
    }
  }

  // ---------------------------------------------------------------- retries that share one key

  predicate OrderSeen(log: seq<Execution>, id: Id) { exists x <- log :: x.orderId == id }

  predicate IntentSeen(log: seq<Execution>, id: Id) { exists x <- log :: x.intentId == id }

  /** No delivery that shares the order or the intent key has any effect any more. */
  ghost predicate KeysQuiet(s: State, e: Event)
    requires Valid(s) && e.Delivered?
  {
    forall r: Event :: r.Delivered? && WellFormed(r) && SharesKey(e, r) ==> Quiet(s, r)
  }

  predicate KeysSettled(s: State, e: Event)
    requires Valid(s) && e.Delivered?
  {
    Applies(s, e) || (OrderSeen(s.executions, e.report.orderId) && IntentSeen(s.executions, e.order.intent.intentId))
  }

  lemma AppliedIsSeen(s: State, e: Event)
    requires Valid(s) && Applies(s, e)
    ensures OrderSeen(Step(s, e).executions, e.report.orderId) && IntentSeen(Step(s, e).executions, e.order.intent.intentId)
  {
    AppliedPost(s, e.order, e.report);
    hide Post;
    var x := Step(s, e).executions[|s.executions|];
    assert x in Step(s, e).executions && x.orderId == e.report.orderId && x.intentId == e.order.intent.intentId;
  }

  lemma FreshPortfolio(s: State) returns (id: string)
    ensures id !in s.portfolios
  {
    var ids := set p <- s.portfolios :: Text(p);
    var k := FreshId(ids);
    id := k.text;
    assert forall p <- s.portfolios :: Text(p) in ids;
  }

  /** A purchase of one unit at one. */
  function SmallTrade(id: string, p: Portfolio, orderKey: Id, intentKey: Id): (r: Event)
    ensures r.Delivered? && r.report.orderId == orderKey && r.order.intent.intentId == intentKey
  {
    Trade(id, p.purpose, Pair("base", p.cashAsset), Buy, 1.0, 1.0, orderKey, intentKey)
  }

  lemma SmallTradeIsWellFormed(id: string, p: Portfolio, orderKey: Id, intentKey: Id)
    requires !p.purpose.CoreInvestment? && p.cashAsset == "cash" && intentKey != Text("")
    ensures WellFormed(SmallTrade(id, p, orderKey, intentKey))
  {
    assert "base" != "cash";
  }

  lemma SmallTradeApplies(s: State, id: string, p: Portfolio, orderKey: Id, intentKey: Id)
    requires Valid(s) && id in s.portfolios && s.portfolios[id] == p && p.cash == 1.0
    requires !Recorded(s.executions, orderKey, intentKey)
    ensures Step(s, SmallTrade(id, p, orderKey, intentKey)) != s
  {
    hide Step, Recorded, Valid, Held, SameIdentity, Report.Notional, Trade;
    BuyTrades(s, id, "base", 1.0, 1.0, 1.0, orderKey, intentKey);
    assert |Step(s, SmallTrade(id, p, orderKey, intentKey)).executions| == |s.executions| + 1;
  }

  /** With unrecorded keys a delivery to a newly funded portfolio goes through. */
  lemma FreshTradeApplies(s: State, orderKey: Id, intentKey: Id) returns (opening: Event, r: Event)
    requires Valid(s) && !OrderSeen(s.executions, orderKey) && !IntentSeen(s.executions, intentKey) && intentKey != Text("")
    ensures WellFormed(opening) && WellFormed(r) && r.Delivered?
    ensures r.report.orderId == orderKey && r.order.intent.intentId == intentKey
    ensures Step(Step(s, opening), r) != Step(s, opening)
  {
    var id := FreshPortfolio(s);
    var p := Portfolio(PaperTrading, "cash", 1.0, map[]);
    opening := Opened(id, p.purpose, p.cashAsset, p.cash);
    r := SmallTrade(id, p, orderKey, intentKey);
    SmallTradeIsWellFormed(id, p, orderKey, intentKey);
    OpensFresh(s, id, p);
    assert !Recorded(s.executions, orderKey, intentKey);
    hide Step, Recorded, SmallTrade;
    SmallTradeApplies(Step(s, opening), id, p, orderKey, intentKey);
  }

  lemma OpensFresh(s: State, id: string, p: Portfolio)
    requires Valid(s) && id !in s.portfolios && p.positions == map[]
    ensures Step(s, Opened(id, p.purpose, p.cashAsset, p.cash)) == s.(portfolios := s.portfolios[id := p])
  {
    assert p == Portfolio(p.purpose, p.cashAsset, p.cash, map[]);
  }

  /**
   * Every retry that shares a key is without effect from now on, if and only if the delivery was applied or both its
   * keys were already recorded.
   */
  lemma RetriesAreInertIff(s: State, e: Event)
    requires Valid(s) && e.Delivered? && WellFormed(e)
    ensures KeysQuiet(Step(s, e), e) <==> KeysSettled(s, e)
  {
    var t := Step(s, e);
    if KeysSettled(s, e) {
      if Applies(s, e) { AppliedIsSeen(s, e); } else { RefusedPost(s, e.order, e.report); }
      hide Post;
      forall r: Event | r.Delivered? && WellFormed(r) && SharesKey(e, r) ensures Quiet(t, r) {
        RecordedIsQuiet(t, r);
      }
    } else {
      RefusedPost(s, e.order, e.report);
      assert t == s && e.order.intent.intentId != Text("");
      hide Step, Quiet, WellFormed;
      var key := FreshId(Used(s.executions));
      var orderKey := if OrderSeen(s.executions, e.report.orderId) then key else e.report.orderId;
      var intentKey := if OrderSeen(s.executions, e.report.orderId) then e.order.intent.intentId else key;
      var opening, r := FreshTradeApplies(s, orderKey, intentKey);
      LoudAfterOne(s, opening, r);
      assert SharesKey(e, r);
    }
  }

  lemma LoudAfterOne(s: State, opening: Event, r: Event)
    requires Valid(s) && WellFormed(opening) && Step(Step(s, opening), r) != Step(s, opening)
    ensures !Quiet(s, r)
  {
    RunOne(s, opening);
    hide Step;
    assert AllWellFormed([opening]);
  }

  // ---------------------------------------------------------------- whole sequences with retries

  lemma QuietStays(s: State, x: Event, e: Event)
    requires Valid(s) && Quiet(s, e) && WellFormed(x)
    ensures Quiet(Step(s, x), e)
  {
    forall es: seq<Event> | AllWellFormed(es) ensures Step(Run(Step(s, x), es), e) == Run(Step(s, x), es) {
      assert ([x] + es)[1..] == es && AllWellFormed([x] + es);
      assert Run(s, [x] + es) == Run(Step(s, x), es);
    }
  }

  lemma QuietNow(s: State, e: Event)
    requires Valid(s) && Quiet(s, e)
    ensures Step(s, e) == s
  {
    assert AllWellFormed([]) && Run(s, []) == s;
  }

  /** Each delivery only the first time; openings are all kept. */
  function Once(seen: set<Event>, es: seq<Event>): seq<Event>
    decreases |es|
  {
    if es == [] then []
    else if es[0] in seen then Once(seen, es[1..])
    else [es[0]] + Once(if es[0].Delivered? then seen + {es[0]} else seen, es[1..])
  }

  /** At the moment of its first delivery none of the deliveries is left to succeed later. */
  predicate AllSettle(s: State, seen: set<Event>, es: seq<Event>)
    requires Valid(s)
    decreases |es|
  {
    es == []
    || ((es[0].Delivered? && es[0] !in seen ==> !CanSucceedLater(s, es[0]))
        && AllSettle(Step(s, es[0]), if es[0].Delivered? then seen + {es[0]} else seen, es[1..]))
  }

  /** Repeated deliveries collapse to the first ones when each was settled the first time. */
  lemma {:induction false} RedeliveriesCollapse(s: State, seen: set<Event>, es: seq<Event>)
    requires Valid(s) && AllWellFormed(es) && AllSettle(s, seen, es)
    requires forall x <- seen :: x.Delivered? && Quiet(s, x)
    ensures Run(s, es) == Run(s, Once(seen, es))
    decreases |es|
  {
    hide CanSucceedLater, Step, WellFormed, Quiet;
    if es != [] {
      var e, rest := es[0], es[1..];
      assert WellFormed(e) && forall x <- rest :: x in es;
      forall x <- seen ensures Quiet(Step(s, e), x) { QuietStays(s, e, x); }
      if e in seen {
        QuietNow(s, e);
        assert seen + {e} == seen;
        RedeliveriesCollapse(s, seen, rest);
      } else {
        if e.Delivered? { SettledIsQuiet(s, e); }
        var next := if e.Delivered? then seen + {e} else seen;
        RedeliveriesCollapse(Step(s, e), next, rest);
        assert Once(seen, es)[0] == e && Once(seen, es)[1..] == Once(next, rest);
      }
    }
  }

  /** The deliveries neither of whose keys an earlier kept delivery carries; openings are all kept. */
  function Firsts(orders: set<Id>, intents: set<Id>, es: seq<Event>): seq<Event>
    decreases |es|
  {
    if es == [] then []
    else if es[0].Opened? then [es[0]] + Firsts(orders, intents, es[1..])
    else if es[0].report.orderId in orders || es[0].order.intent.intentId in intents then
      Firsts(orders, intents, es[1..])
    else
      [es[0]] + Firsts(orders + {es[0].report.orderId}, intents + {es[0].order.intent.intentId}, es[1..])
  }

  /** At the moment of each first delivery it is applied, or both its keys are recorded. */
  predicate AllKeysSettle(s: State, orders: set<Id>, intents: set<Id>, es: seq<Event>)
    requires Valid(s)
    decreases |es|
  {
    es == []
    || (if es[0].Opened? then AllKeysSettle(Step(s, es[0]), orders, intents, es[1..])
        else if es[0].report.orderId in orders || es[0].order.intent.intentId in intents
        then AllKeysSettle(s, orders, intents, es[1..])
        else
          && KeysSettled(s, es[0])
          && AllKeysSettle(Step(s, es[0]), orders + {es[0].report.orderId}, intents + {es[0].order.intent.intentId}, es[1..]))
  }

  lemma SettledKeysAreSeen(s: State, e: Event)
    requires Valid(s) && e.Delivered? && KeysSettled(s, e)
    ensures OrderSeen(Step(s, e).executions, e.report.orderId) && IntentSeen(Step(s, e).executions, e.order.intent.intentId)
  {
    if Applies(s, e) { AppliedIsSeen(s, e); } else { RefusedPost(s, e.order, e.report); }
    hide Post;
  }

  lemma SeenStays(s: State, e: Event)
    requires Valid(s)
    ensures forall o :: OrderSeen(s.executions, o) ==> OrderSeen(Step(s, e).executions, o)
    ensures forall i :: IntentSeen(s.executions, i) ==> IntentSeen(Step(s, e).executions, i)
  {
    StepExtendsLog(s, e);
    hide Step;
    assert forall x <- s.executions :: x in Step(s, e).executions;
  }

  /** Retries sharing an order or intent key collapse to the first deliveries when each of those settled its keys. */
  lemma {:induction false} RetriesCollapse(s: State, orders: set<Id>, intents: set<Id>, es: seq<Event>)
    requires Valid(s) && AllKeysSettle(s, orders, intents, es)
    requires (forall o <- orders :: OrderSeen(s.executions, o)) && forall i <- intents :: IntentSeen(s.executions, i)
    ensures Run(s, es) == Run(s, Firsts(orders, intents, es))
    decreases |es|
  {
    if es != [] {
      var e, rest := es[0], es[1..];
      SeenStays(s, e);
      if e.Opened? {
        assert Firsts(orders, intents, es)[1..] == Firsts(orders, intents, rest);
        hide Step, OrderSeen, IntentSeen;
        RetriesCollapse(Step(s, e), orders, intents, rest);
      } else if e.report.orderId in orders || e.order.intent.intentId in intents {
        KeySeenRefuses(s, e);
        hide Step, OrderSeen, IntentSeen;
        RetriesCollapse(s, orders, intents, rest);
      } else {
        SettledKeysAreSeen(s, e);
        hide Step, OrderSeen, IntentSeen, KeysSettled;
        var orders', intents' := orders + {e.report.orderId}, intents + {e.order.intent.intentId};
        RetriesCollapse(Step(s, e), orders', intents', rest);
        assert Firsts(orders, intents, es)[0] == e && Firsts(orders, intents, es)[1..] == Firsts(orders', intents', rest);
      }
    }
  }

  lemma KeySeenRefuses(s: State, e: Event)
    requires Valid(s) && e.Delivered?
    requires OrderSeen(s.executions, e.report.orderId) || IntentSeen(s.executions, e.order.intent.intentId)
    ensures Step(s, e) == s
  {
    hide Judge;
    assert KeySeen(s.executions, e);
  }
}
