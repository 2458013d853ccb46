/** Replaying the execution log to find how long each pair has been held (dynamic_paper_rebalance.py, _expired_holdings). */
module HoldingAge {
  import opened Wrappers
  import opened Orders
  import opened Sorting
  import opened Reals
  import L = Ledger

  type Log = seq<L.Execution>

  datatype Replay = Replay(quantities: map<string, real>, openedAt: map<string, int>) {
    function Quantity(pair: string): real { if pair in quantities then quantities[pair] else 0.0 }
  }

  function ReplayOne(r: Replay, e: L.Execution): Replay {
    var current := r.Quantity(e.pair);
    match e.side
    case Buy =>
      Replay(r.quantities[e.pair := current + e.quantity],
             if current <= 0.0 then r.openedAt[e.pair := e.executedAt] else r.openedAt)
    case Sell =>
      var remaining := Max(0.0, current - e.quantity);
      Replay(r.quantities[e.pair := remaining], if remaining == 0.0 then r.openedAt - {e.pair} else r.openedAt)
  }

  function ReplayAll(log: Log): Replay {
    if log == [] then Replay(map[], map[]) else ReplayOne(ReplayAll(log[..|log| - 1]), log[|log| - 1])
  }

  predicate NewestFirst(a: L.Execution, b: L.Execution) { a.executedAt >= b.executedAt }

  predicate OldestFirst(a: L.Execution, b: L.Execution) { a.executedAt <= b.executedAt }

  function LogOf(log: Log, id: string): Log {
    Filter((e: L.Execution) => e.portfolioId == id, log)
  }

  /** The newest executions of one portfolio, at most so many (sqlite_accounting.py, list_executions). */
  function ListExecutions(log: Log, id: string, limit: nat): Log {
    var newest := Sort(NewestFirst, LogOf(log, id));
    if |newest| <= limit then newest else newest[..limit]
  }

  const LIMIT := 10000

  /** One answer of the query: the newest executions, those of one time in any order. */
  ghost predicate IsListing(rows: Log, log: Log, id: string, limit: nat) {
    exists all: Log :: Sorted(NewestFirst, all) && multiset(all) == multiset(LogOf(log, id))
                       && rows == if |all| <= limit then all else all[..limit]
  }

  method ExpiredHoldings(listed: Log, held: set<string>, maximumHoldingPeriod: Option<int>, asOf: int)
      returns (expired: set<string>)
    ensures maximumHoldingPeriod.None? ==> expired == {}
    ensures maximumHoldingPeriod.Some? ==>
      var openedAt := ReplayAll(Sort(OldestFirst, listed)).openedAt;
      expired == set p | p in held && p in openedAt && asOf - openedAt[p] >= maximumHoldingPeriod.value
  {
    if maximumHoldingPeriod.None? || held == {} {
      return {};
    }
    var executions := Sort(OldestFirst, listed);
    var quantities: map<string, real> := map[];
    var openedAt: map<string, int> := map[];
    for i := 0 to |executions|
      invariant Replay(quantities, openedAt) == ReplayAll(executions[..i])
    {
      assert executions[..i + 1][..i] == executions[..i];
      var item := executions[i];
      var current := if item.pair in quantities then quantities[item.pair] else 0.0;
      if item.side.Buy? {
        if current <= 0.0 {
          openedAt := openedAt[item.pair := item.executedAt];
        }
        quantities := quantities[item.pair := current + item.quantity];
      } else {
        var remaining := Max(0.0, current - item.quantity);
        quantities := quantities[item.pair := remaining];
        if remaining == 0.0 {
          openedAt := openedAt - {item.pair};
        }
      }
    }
    assert executions[..|executions|] == executions;
    expired := set p | p in held && p in openedAt && asOf - openedAt[p] >= maximumHoldingPeriod.value;
  }

  // ---------------------------------------------------------------- the replayed log is the recorded log

  ghost predicate TimesIncrease(log: Log) {
    forall i, j :: 0 <= i < j < |log| ==> log[i].executedAt < log[j].executedAt
  }

  /** Sorting the listed executions by time gives the recorded log. */
  predicate Faithful(rows: Log, log: Log, id: string) {
    Sort(OldestFirst, rows) == LogOf(log, id)
  }

  lemma StableListing(log: Log, id: string, limit: nat)
    ensures IsListing(ListExecutions(log, id, limit), log, id, limit)
  {
    SortSorts(NewestFirst, LogOf(log, id));
    assert TotalOrder(NewestFirst);
  }

  /** Sorting twice, by stable sorts, gives a log back whose times never decrease. */
  lemma SortingTwice(own: Log)
    requires Sorted(OldestFirst, own)
    ensures Sort(OldestFirst, Sort(NewestFirst, own)) == own
  {
    var newest := Sort(NewestFirst, own);
    var sorted := Sort(OldestFirst, newest);
    assert TotalOrder(OldestFirst);
    SortSorts(OldestFirst, newest);
    SortHasSameElements(OldestFirst, newest);
    SortHasSameElements(NewestFirst, own);
    forall x ensures Filter(Like(OldestFirst, x), sorted) == Filter(Like(OldestFirst, x), own) {
      SortIsStable(NewestFirst, Like(OldestFirst, x), own);
      SortIsStable(OldestFirst, Like(OldestFirst, x), newest);
    }
    SortedByGroups(OldestFirst, sorted, own);
  }

  lemma ListingLength(rows: Log, log: Log, id: string, limit: nat)
    requires IsListing(rows, log, id, limit)
    ensures |Sort(OldestFirst, rows)| == |rows| <= limit
    ensures |rows| == |LogOf(log, id)| || |rows| == limit < |LogOf(log, id)|
    ensures |rows| == |LogOf(log, id)| ==> multiset(rows) == multiset(LogOf(log, id))
  {
    var all: Log :| Sorted(NewestFirst, all) && multiset(all) == multiset(LogOf(log, id))
                    && rows == if |all| <= limit then all else all[..limit];
    assert |all| == |multiset(all)| == |multiset(LogOf(log, id))| == |LogOf(log, id)|;
    SortHasSameElements(OldestFirst, rows);
  }

  lemma FaithfulMeans(rows: Log, log: Log, id: string, limit: nat)
    requires IsListing(rows, log, id, limit) && Faithful(rows, log, id)
    ensures Sorted(OldestFirst, LogOf(log, id)) && |LogOf(log, id)| <= limit
  {
    hide LogOf, IsListing;
    ListingLength(rows, log, id, limit);
    assert TotalOrder(OldestFirst);
    SortSorts(OldestFirst, rows);
  }

  /** Listing in log order within a time: the log comes back iff it fits the limit and its times never decrease. */
  lemma StableListingIsFaithfulIff(log: Log, id: string, limit: nat)
    ensures Faithful(ListExecutions(log, id, limit), log, id)
      <==> Sorted(OldestFirst, LogOf(log, id)) && |LogOf(log, id)| <= limit
  {
    var own := LogOf(log, id);
    if Sorted(OldestFirst, own) && |own| <= limit {
      SortingTwice(own);
      SortHasSameElements(NewestFirst, own);
    }
    if Faithful(ListExecutions(log, id, limit), log, id) {
      StableListing(log, id, limit);
      FaithfulMeans(ListExecutions(log, id, limit), log, id, limit);
    }
  }

  lemma IncreasingIsFaithful(rows: Log, log: Log, id: string, limit: nat)
    requires IsListing(rows, log, id, limit) && TimesIncrease(LogOf(log, id)) && |LogOf(log, id)| <= limit
    ensures Faithful(rows, log, id)
  {
    hide LogOf, IsListing;
    var own := LogOf(log, id);
    ListingLength(rows, log, id, limit);
    assert TotalOrder(OldestFirst);
    SortSorts(OldestFirst, rows);
    var sorted := Sort(OldestFirst, rows);
    assert multiset(sorted) == multiset(own);
    forall x, y | x in own && y in own && x.executedAt == y.executedAt ensures x == y {
      var i :| 0 <= i < |own| && own[i] == x;
      var j :| 0 <= j < |own| && own[j] == y;
    }
    SortedIsUnique(OldestFirst, own, sorted);
  }

  lemma TieIsAdjacent(own: Log) returns (i: nat)
    requires Sorted(OldestFirst, own) && !TimesIncrease(own)
    ensures i + 1 < |own| && own[i].executedAt == own[i + 1].executedAt
  {
    var a, b :| 0 <= a < b < |own| && own[a].executedAt >= own[b].executedAt;
    assert OldestFirst(own[a], own[a + 1]) && (a + 1 < b ==> OldestFirst(own[a + 1], own[b]));
    i := a;
  }

  function Exchanged(own: Log, i: nat): Log
    requires i + 1 < |own|
  {
    own[i := own[i + 1]][i + 1 := own[i]]
  }

  lemma ExchangedTie(own: Log, i: nat)
    requires Sorted(OldestFirst, own) && i + 1 < |own| && own[i].executedAt == own[i + 1].executedAt
    ensures Sorted(OldestFirst, Exchanged(own, i)) && multiset(Exchanged(own, i)) == multiset(own)
  {
    var other := Exchanged(own, i);
    forall a, b | 0 <= a < b < |own| ensures OldestFirst(other[a], other[b]) {
      assert other[a].executedAt == own[a].executedAt && other[b].executedAt == own[b].executedAt;
      assert OldestFirst(own[a], own[b]);
    }
  }

  /** Two executions of one time may be listed, and then replayed, in the wrong order. */
  lemma TieCanBeListedWrongly(log: Log, id: string, limit: nat) returns (rows: Log)
    requires Sorted(OldestFirst, LogOf(log, id)) && !TimesIncrease(LogOf(log, id)) && NoRepeats(LogOf(log, id))
    requires |LogOf(log, id)| <= limit
    ensures IsListing(rows, log, id, limit) && !Faithful(rows, log, id)
  {
    var own := LogOf(log, id);
    hide LogOf;
    var i := TieIsAdjacent(own);
    var other := Exchanged(own, i);
    ExchangedTie(own, i);
    rows := Sort(NewestFirst, other);
    assert TotalOrder(NewestFirst);
    SortSorts(NewestFirst, other);
    SortHasSameElements(NewestFirst, other);
    SortingTwice(other);
    assert other[i] != own[i];
  }

  /** However the query orders executions of one time: the log always comes back iff it fits and its times increase. */
  lemma EveryListingIsFaithfulIff(log: Log, id: string, limit: nat)
    requires L.KeysAreUnique(log)
    ensures (forall rows :: IsListing(rows, log, id, limit) ==> Faithful(rows, log, id))
      <==> TimesIncrease(LogOf(log, id)) && |LogOf(log, id)| <= limit
  {
    var own := LogOf(log, id);
    var stable := ListExecutions(log, id, limit);
    StableListing(log, id, limit);
    if TimesIncrease(own) && |own| <= limit {
      forall rows | IsListing(rows, log, id, limit) ensures Faithful(rows, log, id) {
        IncreasingIsFaithful(rows, log, id, limit);
      }
    } else if Faithful(stable, log, id) {
      FaithfulMeans(stable, log, id, limit);
      assert NoRepeats(log);
      FilterKeeps((e: L.Execution) => e.portfolioId == id, log);
      hide Faithful, IsListing;
      var rows := TieCanBeListedWrongly(log, id, limit);
    }
  }

  // ---------------------------------------------------------------- opened at the first purchase since flat

  function QuantityAfter(log: Log, k: nat, pair: string): real
    requires k <= |log|
  {
    ReplayAll(log[..k]).Quantity(pair)
  }

  /** Entry j opened the position: a purchase from flat, and never flat again since. */
  ghost predicate OpensAt(log: Log, pair: string, j: nat)
    requires j < |log|
  {
    && log[j].pair == pair && log[j].side.Buy? && QuantityAfter(log, j, pair) <= 0.0
    && forall k :: j < k <= |log| ==> QuantityAfter(log, k, pair) > 0.0
  }

  lemma OpeningIsUnique(log: Log, pair: string, i: nat, j: nat)
    requires i < |log| && j < |log| && OpensAt(log, pair, i) && OpensAt(log, pair, j)
    ensures i == j
  {
    hide QuantityAfter;
  }

  lemma EarlierQuantities(before: Log, last: L.Execution, k: nat, pair: string)
    requires k <= |before|
    ensures QuantityAfter(before + [last], k, pair) == QuantityAfter(before, k, pair)
  {
    assert (before + [last])[..k] == before[..k];
  }

  lemma LastQuantity(log: Log, pair: string)
    ensures QuantityAfter(log, |log|, pair) == ReplayAll(log).Quantity(pair)
  {
    assert log[..|log|] == log;
  }

  lemma StillOpenAt(before: Log, last: L.Execution, pair: string, j: nat)
    requires j < |before| && OpensAt(before, pair, j) && ReplayAll(before + [last]).Quantity(pair) > 0.0
    ensures OpensAt(before + [last], pair, j)
  {
    hide ReplayAll, QuantityAfter;
    EarlierQuantities(before, last, j, pair);
    LastQuantity(before + [last], pair);
    forall k | j < k <= |before| + 1 ensures QuantityAfter(before + [last], k, pair) > 0.0 {
      if k <= |before| { EarlierQuantities(before, last, k, pair); }
    }
  }

  lemma OpensNow(log: Log, pair: string)
    requires log != [] && var last := log[|log| - 1];
      last.pair == pair && last.side.Buy? && last.quantity > 0.0 && ReplayAll(log[..|log| - 1]).Quantity(pair) <= 0.0
    requires ReplayAll(log).Quantity(pair) > 0.0
    ensures OpensAt(log, pair, |log| - 1)
  {
    LastQuantity(log, pair);
  }

  /** The replay tells when each pair was opened. */
  ghost predicate TellsOpening(log: Log, pair: string) {
    var r := ReplayAll(log);
    && r.Quantity(pair) >= 0.0
    && (pair in r.openedAt <==> r.Quantity(pair) > 0.0)
    && (pair in r.openedAt ==>
          exists j :: 0 <= j < |log| && OpensAt(log, pair, j) && r.openedAt[pair] == log[j].executedAt)
  }

  lemma OpeningAfterOne(before: Log, last: L.Execution, pair: string)
    requires TellsOpening(before, pair) && last.quantity > 0.0
    ensures TellsOpening(before + [last], pair)
  {
    var log := before + [last];
    assert log[..|before|] == before;
    hide OpensAt;
    var r, r' := ReplayAll(before), ReplayAll(log);
    if last.pair == pair && last.side.Buy? && r.Quantity(pair) <= 0.0 {
      OpensNow(log, pair);
    } else if pair in r'.openedAt {
      assert pair in r.openedAt && r'.openedAt[pair] == r.openedAt[pair] && r'.Quantity(pair) > 0.0;
      hide ReplayAll, Replay.Quantity;
      var j :| 0 <= j < |before| && OpensAt(before, pair, j) && r.openedAt[pair] == before[j].executedAt;
      StillOpenAt(before, last, pair, j);
      assert log[j] == before[j];
    }
  }

  lemma {:induction false} OpenedAtIsFirstPurchaseSinceFlat(log: Log, pair: string)
    requires forall e <- log :: e.quantity > 0.0
    ensures TellsOpening(log, pair)
    decreases |log|
  {
    if log != [] {
      hide TellsOpening;
      var n := |log| - 1;
      assert log[n] in log && forall e <- log[..n] :: e in log;
      OpenedAtIsFirstPurchaseSinceFlat(log[..n], pair);
      OpeningAfterOne(log[..n], log[n], pair);
      assert log == log[..n] + [log[n]];
    }
  }

  // ---------------------------------------------------------------- replay and ledger agree over every run

  /** The replayed quantity of every pair is the stored position; an unknown portfolio has no executions. */
  ghost predicate Agree(s: L.State, id: string) {
    if id !in s.portfolios then LogOf(s.executions, id) == [] else
      forall base :: ReplayAll(LogOf(s.executions, id)).Quantity(Pair(base, s.portfolios[id].cashAsset).Symbol())
                     == L.Held(s.portfolios[id], base).quantity
  }

  predicate NoDust(position: L.Position) {
    position.quantity == 0.0 || position.quantity >= L.DUST
  }

  /** No fill of the portfolio leaves a remainder that the ledger would delete as dust. */
  predicate LeavesNoDust(s: L.State, e: L.Event, id: string)
    requires L.Valid(s)
  {
    L.Applies(s, e) && e.order.intent.portfolioId == id ==>
      NoDust(L.Judge(s, e.order, e.report).value.position)
  }

  predicate RunLeavesNoDust(s: L.State, es: seq<L.Event>, id: string)
    requires L.Valid(s)
    decreases |es|
  {
    es == [] || (LeavesNoDust(s, es[0], id) && RunLeavesNoDust(L.Step(s, es[0]), es[1..], id))
  }

  lemma {:induction false} LogOfAppend(log: Log, e: L.Execution, id: string)
    ensures LogOf(log + [e], id) == LogOf(log, id) + (if e.portfolioId == id then [e] else [])
  {
    if log == [] {
      assert log + [e] == [e] && [e][1..] == [];
    } else {
      assert (log + [e])[0] == log[0] && (log + [e])[1..] == log[1..] + [e];
      LogOfAppend(log[1..], e, id);
    }
  }

  lemma QuantityAfterOne(own: Log, entry: L.Execution, symbol: string)
    ensures var before := ReplayAll(own).Quantity(symbol);
      ReplayAll(own + [entry]).Quantity(symbol) ==
        if entry.pair != symbol then before
        else if entry.side.Buy? then before + entry.quantity else Max(0.0, before - entry.quantity)
  {
    assert (own + [entry])[..|own|] == own;
  }

  lemma HeldAfterUpsert(p: L.Portfolio, cash: real, asset: string, position: L.Position, base: string)
    requires NoDust(position)
    ensures var q := p.(cash := cash, positions := L.Upsert(p.positions, asset, position));
      L.Held(q, base).quantity == if base == asset then position.quantity else L.Held(p, base).quantity
  {
    hide L.Position.Cost;
    if Abs(position.quantity) < L.DUST { assert position.quantity == 0.0; }
    hide NoDust, Abs;
  }

  lemma FilledQuantity(cash: real, held: L.Position, side: Side, report: Report)
    requires held.quantity >= 0.0 && report.filledQuantity > 0.0 && L.FillOf(cash, held, side, report).Ok?
    ensures L.FillOf(cash, held, side, report).value.position.quantity ==
      if side.Buy? then held.quantity + report.filledQuantity else Max(0.0, held.quantity - report.filledQuantity)
  {
    hide Report.Notional, L.BoughtAt, L.ProfitOf;
  }

  lemma HeldIsNotNegative(s: L.State, id: string, base: string)
    requires L.Valid(s) && id in s.portfolios
    ensures L.Held(s.portfolios[id], base).quantity >= 0.0
  {
    hide L.Position.Cost;
  }

  lemma JudgedFill(s: L.State, e: L.Event)
    requires L.Valid(s) && L.Applies(s, e)
    ensures var i := e.order.intent;
      && i.portfolioId in s.portfolios && s.portfolios[i.portfolioId].cashAsset == i.pair.quote
      && e.report.filledQuantity > 0.0 && L.Held(s.portfolios[i.portfolioId], i.pair.base).quantity >= 0.0
      && L.Judge(s, e.order, e.report) ==
           L.FillOf(s.portfolios[i.portfolioId].cash, L.Held(s.portfolios[i.portfolioId], i.pair.base), i.side, e.report)
  {
    hide L.Post, L.FillOf, L.Upsert, L.Recorded, L.Record, L.Valid, L.Held;
    L.AppliedPost(s, e.order, e.report);
    HeldIsNotNegative(s, e.order.intent.portfolioId, e.order.intent.pair.base);
  }

  /** One more fill moves the replayed and the stored quantity of every asset alike. */
  lemma FillAgrees(s: L.State, e: L.Event, base: string)
    requires L.Valid(s) && L.Applies(s, e) && LeavesNoDust(s, e, e.order.intent.portfolioId)
    requires var id := e.order.intent.portfolioId; id in s.portfolios && Agree(s, id)
    ensures var id := e.order.intent.portfolioId; var t := L.Step(s, e);
      && id in t.portfolios && t.portfolios[id].cashAsset == s.portfolios[id].cashAsset
      && ReplayAll(LogOf(t.executions, id)).Quantity(Pair(base, s.portfolios[id].cashAsset).Symbol())
         == L.Held(t.portfolios[id], base).quantity
  {
    var intent := e.order.intent;
    var id, p := intent.portfolioId, s.portfolios[intent.portfolioId];
    var symbol := Pair(base, p.cashAsset).Symbol();
    assert ReplayAll(LogOf(s.executions, id)).Quantity(symbol) == L.Held(p, base).quantity;
    JudgedFill(s, e);
    L.AppliedPost(s, e.order, e.report);
    var fill := L.Judge(s, e.order, e.report).value;
    var entry := L.Record(e.order, e.report, fill.realizedPnl);
    assert NoDust(fill.position);
    hide NoDust, L.Post, L.Judge, L.Applies, LeavesNoDust, Agree, ReplayAll, LogOf, Pair.Symbol, Replay.Quantity, L.Upsert, L.Held;
    LogOfAppend(s.executions, entry, id);
    QuantityAfterOne(LogOf(s.executions, id), entry, symbol);
    FilledQuantity(p.cash, L.Held(p, intent.pair.base), intent.side, e.report);
    HeldAfterUpsert(p, fill.cash, intent.pair.base, fill.position, base);
    hide L.FillOf;
    if base != intent.pair.base && symbol == entry.pair { SymbolIsInjective(base, intent.pair.base, p.cashAsset); }
  }

  lemma ElsewhereAgrees(s: L.State, e: L.Event, id: string)
    requires L.Valid(s) && Agree(s, id) && !(L.Applies(s, e) && e.order.intent.portfolioId == id)
    ensures Agree(L.Step(s, e), id)
  {
    hide ReplayAll, Replay.Quantity, Pair.Symbol, L.Held;
    if L.Applies(s, e) {
      L.AppliedPost(s, e.order, e.report);
      hide L.Post, L.Judge, L.Upsert, LogOf;
      var entry := L.Step(s, e).executions[|s.executions|];
      LogOfAppend(s.executions, entry, id);
      assert L.Step(s, e).executions == s.executions + [entry];
      assert LogOf(L.Step(s, e).executions, id) == LogOf(s.executions, id);
    } else if e.Delivered? {
      L.RefusedPost(s, e.order, e.report);
      hide L.Post;
    } else {
      var p := L.Portfolio(e.purpose, e.cashAsset, e.cash, map[]);
      NothingHeld(p);
    }
  }

  lemma NothingHeld(p: L.Portfolio)
    requires p.positions == map[]
    ensures forall symbol :: ReplayAll([]).Quantity(symbol) == 0.0
    ensures forall base :: L.Held(p, base).quantity == 0.0
  {
  }

  lemma StepAgrees(s: L.State, e: L.Event, id: string)
    requires L.Valid(s) && Agree(s, id) && LeavesNoDust(s, e, id)
    ensures Agree(L.Step(s, e), id)
  {
    if L.Applies(s, e) && e.order.intent.portfolioId == id {
      JudgedFill(s, e);
      hide L.Applies, L.Step, LeavesNoDust, LogOf, L.Held, ReplayAll;
      var t, quote := L.Step(s, e), s.portfolios[id].cashAsset;
      forall base
        ensures id in t.portfolios && t.portfolios[id].cashAsset == quote
        ensures ReplayAll(LogOf(t.executions, id)).Quantity(Pair(base, quote).Symbol()) == L.Held(t.portfolios[id], base).quantity
      {
        FillAgrees(s, e, base);
      }
      assert id in t.portfolios && t.portfolios[id].cashAsset == quote by { FillAgrees(s, e, ""); }
    } else {
      ElsewhereAgrees(s, e, id);
    }
  }

  lemma {:induction false} RunAgrees(s: L.State, es: seq<L.Event>, id: string)
    requires L.Valid(s) && Agree(s, id) && RunLeavesNoDust(s, es, id)
    ensures Agree(L.Run(s, es), id)
    decreases |es|
  {
    hide Agree, LeavesNoDust, L.Step;
    if es != [] {
      StepAgrees(s, es[0], id);
      RunAgrees(L.Step(s, es[0]), es[1..], id);
    }
  }

  lemma {:induction false} LoggedQuantitiesArePositive(s: L.State, es: seq<L.Event>)
    requires L.Valid(s) && forall x <- s.executions :: x.quantity > 0.0
    ensures forall x <- L.Run(s, es).executions :: x.quantity > 0.0
    decreases |es|
  {
    hide L.FillOf;
    if es != [] {
      LoggedQuantitiesArePositive(L.Step(s, es[0]), es[1..]);
    }
  }

  /** The replay of the listed executions tells the stored position and when it was opened. */
  ghost predicate ReplayTells(s: L.State, rows: Log, id: string, base: string)
    requires id in s.portfolios
  {
    var log := LogOf(s.executions, id);
    var r := ReplayAll(Sort(OldestFirst, rows));
    var symbol := Pair(base, s.portfolios[id].cashAsset).Symbol();
    && r.Quantity(symbol) == L.Held(s.portfolios[id], base).quantity
    && (base in s.portfolios[id].positions <==> symbol in r.openedAt)
    && (base in s.portfolios[id].positions ==>
          exists j :: 0 <= j < |log| && OpensAt(log, symbol, j) && r.openedAt[symbol] == log[j].executedAt)
  }

  lemma AgreementTells(s: L.State, rows: Log, id: string, base: string)
    requires L.Valid(s) && id in s.portfolios && Agree(s, id) && forall x <- s.executions :: x.quantity > 0.0
    requires Faithful(rows, s.executions, id)
    ensures ReplayTells(s, rows, id, base)
  {
    hide ReplayAll, OpensAt, Sort, Filter;
    var log := LogOf(s.executions, id);
    FilterKeeps((e: L.Execution) => e.portfolioId == id, s.executions);
    OpenedAtIsFirstPurchaseSinceFlat(log, Pair(base, s.portfolios[id].cashAsset).Symbol());
  }

  /**
   * From an empty ledger, any dust-free run whose log of the portfolio fits the listing limit: replayed quantities are
   * the stored positions, and each held pair opened at its first purchase since flat. Increasing times are enough for
   * every listing, times that never decrease for the one in log order.
   */
  lemma HoldingAgeAgreesWithLedger(s: L.State, es: seq<L.Event>, rows: Log, id: string, base: string)
    requires L.Valid(s) && s.portfolios == map[] && s.executions == [] && RunLeavesNoDust(s, es, id)
    requires var log := L.Run(s, es).executions;
      && id in L.Run(s, es).portfolios && |LogOf(log, id)| <= LIMIT
      && (if TimesIncrease(LogOf(log, id)) then IsListing(rows, log, id, LIMIT)
          else Sorted(OldestFirst, LogOf(log, id)) && rows == ListExecutions(log, id, LIMIT))
    ensures ReplayTells(L.Run(s, es), rows, id, base)
  {
    hide L.Step, L.Run, ReplayTells, RunLeavesNoDust, TimesIncrease, IsListing;
    var log := L.Run(s, es).executions;
    assert Agree(s, id) by { NothingLogged(id); }
    RunAgrees(s, es, id);
    LoggedQuantitiesArePositive(s, es);
    if TimesIncrease(LogOf(log, id)) {
      IncreasingIsFaithful(rows, log, id, LIMIT);
    } else {
      StableListingIsFaithfulIff(log, id, LIMIT);
    }
    AgreementTells(L.Run(s, es), rows, id, base);
  }

  lemma NothingLogged(id: string)
    ensures LogOf([], id) == []
  {
  }

  /** A clock that steps back reorders the replay: a position bought and sold again is then still reported as held. */
  lemma ReplayNeedsTimesInOrder(buy: L.Execution, sell: L.Execution)
    requires buy.side.Buy? && sell.side.Sell? && buy.pair == sell.pair && buy.quantity == sell.quantity > 0.0
    requires sell.executedAt < buy.executedAt && buy.portfolioId == sell.portfolioId
    ensures var log := [buy, sell];
      && ReplayAll(log).Quantity(buy.pair) == 0.0
      && ReplayAll(Sort(OldestFirst, ListExecutions(log, buy.portfolioId, LIMIT))).Quantity(buy.pair) == buy.quantity
  {
    var id := buy.portfolioId;
    var log := [buy, sell];
    assert log[..1] == [buy] && [buy][..0] == [] && log[1..] == [sell] && [sell][1..] == [];
    assert LogOf(log, id) == [buy] + LogOf([sell], id) == [buy] + ([sell] + LogOf([], id)) == log;
    assert Sort(NewestFirst, log) == Insert(NewestFirst, buy, Sort(NewestFirst, [sell]));
    assert Sort(NewestFirst, [sell]) == Insert(NewestFirst, sell, Sort(NewestFirst, [])) == [sell];
    assert ListExecutions(log, id, LIMIT) == log;
    assert Sort(OldestFirst, [sell]) == Insert(OldestFirst, sell, Sort(OldestFirst, [])) == [sell];
    assert Sort(OldestFirst, log) == Insert(OldestFirst, buy, [sell]) == [sell] + Insert(OldestFirst, buy, []);
    assert Sort(OldestFirst, log) == [sell, buy];
    assert [sell, buy][..1] == [sell] && [sell][..0] == [];
    assert ReplayAll([sell]) == ReplayOne(ReplayAll([]), sell);
    assert ReplayAll([buy]) == ReplayOne(ReplayAll([]), buy);
  }
}
