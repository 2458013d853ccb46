/** From the selected pairs to a plan that goes through (dynamic_paper_rebalance.py, rebalance from selection to execution). */
module Rebalance {
  import opened Wrappers
  import opened Sums
  import opened Ledger
  import opened Orders
  import opened Risk
  import opened Gateway
  import opened Solvency
  import Planning
  import Selection

  /** What the selection returns. */
  function SelectionOf(p: Selection.Policy, x: Selection.Context, all: seq<Selection.Candidate>): seq<Selection.Selected>
    requires p.maximumPositions > 0
  {
    var chosen := Selection.Chosen(p, x, all);
    if chosen == [] then [] else Selection.Weighted(Selection.Weight(p, |chosen|), chosen)
  }

  /** The target weights of the plan, by pair. */
  function TargetsOf(s: seq<Selection.Selected>): map<string, real>
    decreases |s|
  {
    if s == [] then map[] else TargetsOf(s[1..])[s[0].pair := s[0].weight]
  }

  ghost predicate DistinctSelected(s: seq<Selection.Selected>) {
    forall i, j :: 0 <= i < j < |s| ==> s[i].pair != s[j].pair
  }

  lemma {:induction false} TargetsHold(s: seq<Selection.Selected>)
    requires DistinctSelected(s)
    ensures TargetsOf(s).Keys == set x <- s :: x.pair
    ensures forall x <- s :: TargetsOf(s)[x.pair] == x.weight
    decreases |s|
  {
    if s != [] {
      TargetsHold(s[1..]);
      assert s == [s[0]] + s[1..];
    }
  }

  /** The targets carry exactly the selected weight. */
  lemma {:induction false} TargetsSum(s: seq<Selection.Selected>, f: string -> real)
    requires DistinctSelected(s) && forall x <- s :: f(x.pair) == x.weight
    ensures Sum(TargetsOf(s).Keys, f) == Selection.TotalWeight(s)
    decreases |s|
  {
    if s != [] {
      assert s[0] in s && forall x <- s[1..] :: x in s && x.pair != s[0].pair;
      assert DistinctSelected(s[1..]);
      TargetsHold(s[1..]);
      var others := TargetsOf(s[1..]).Keys;
      assert s[0].pair !in others && TargetsOf(s).Keys == others + {s[0].pair};
      hide DistinctSelected, TargetsOf, Sum;
      TargetsSum(s[1..], f);
      SumAdd(others, s[0].pair, f);
    }
  }

  lemma SelectionIsDistinct(p: Selection.Policy, x: Selection.Context, all: seq<Selection.Candidate>)
    requires p.maximumPositions > 0 && Selection.DistinctPairs(all)
    ensures DistinctSelected(SelectionOf(p, x, all))
  {
    Selection.SelectionRespectsGates(p, x, all);
    hide Selection.Chosen;
  }

  /** The targets of a selection never ask for more than the invested fraction. */
  lemma SelectedTargetsFit(p: Selection.Policy, x: Selection.Context, all: seq<Selection.Candidate>, i: Planning.Input)
    requires p.maximumPositions > 0 && Selection.DistinctPairs(all) && p.investedFraction >= 0.0
    requires i.targets == TargetsOf(SelectionOf(p, x, all))
    ensures Sum(i.targets.Keys, Planning.Weights(i)) <= p.investedFraction
  {
    var s := SelectionOf(p, x, all);
    SelectionIsDistinct(p, x, all);
    TargetsHold(s);
    if Selection.Chosen(p, x, all) != [] { Selection.WeightsFitBothLimits(p, x, all); }
    hide Selection.Chosen, Selection.Weighted, Selection.Weight;
    TargetsSum(s, Planning.Weights(i));
    assert s == [] ==> Selection.TotalWeight(s) == 0.0;
  }

  /**
   * From selection to ledger: a rebalance whose targets come from the selection goes through completely when the
   * uninvested share of the equity covers the suppressed reductions and the trading costs and anything is invested.
   */
  lemma SelectedPlanGoesThrough(
    p: Selection.Policy, x: Selection.Context, all: seq<Selection.Candidate>,
    i: Planning.Input, s: State, rows: seq<Planning.Row>, t: Terms, assetFraction: real, positions: int, clock: Id -> int)
    requires p.maximumPositions > 0 && Selection.DistinctPairs(all) && 0.0 <= p.investedFraction <= 1.0
    requires i.targets == TargetsOf(SelectionOf(p, x, all))
    requires Valid(s) && Planning.WellPosed(i) && MadeFrom(i, s) && Accepted(t)
    requires Planning.IsPlan(i, Planning.Equity(i), rows)
    requires Planning.Equity(i) >= i.minimumOrderNotional > 0.0 && positions > 0 && 0.0 <= assetFraction <= 1.0
    requires CoversCosts(i, t, p.investedFraction)
    ensures var policy := MakePolicy(assetFraction, positions, Planning.Equity(i), i.minimumOrderNotional);
      policy.Ok?
      && var done := Execute(s, rows, i.prices, t, policy.value, clock);
        && (done.error == None <==> SalesFill(t, rows)) && (p.investedFraction > 0.0 ==> SalesFill(t, rows))
        && (done.error == None ==> |done.state.executions| == |s.executions| + |rows| && CashOf(i, done.state) >= 0.0)
  {
    SelectedTargetsFit(p, x, all, i);
    hide SelectionOf, TargetsOf, Planning.Equity, Planning.Threshold, Planning.IsPlan, SuppressedSells, CoversCosts, Execute, MakePolicy,
         Planning.WellPosed, MadeFrom, Accepted, Valid, Sum;
    WholePlanSolvency(i, s, rows, t, assetFraction, positions, clock, p.investedFraction);
  }
}
