/** Choosing the target assets: gates, hysteresis and replacement (dynamic_paper_rebalance.py, _select_detailed). */
module Selection {
  import opened Wrappers
  import opened Reals
  import opened Sorting
  import TextOrder

  datatype Candidate = Candidate(
    pair: string, eligible: bool, score: Option<real>, volume: Option<real>,
    momentum1h: Option<real>, momentum4h: Option<real>, momentum24h: Option<real>, volatility: Option<real>,
    expected1h: Option<real>, expected4h: Option<real>, feeAdjusted: Option<real>)
  {
    function Score(): real { score.GetOr(0.0) }

    function Volume(): real { volume.GetOr(0.0) }

    function Expected(): Option<real> {
      if expected1h.None? || expected4h.None? then None else Some(Min(expected1h.value, expected4h.value))
    }
  }

  datatype Band = Band(minimum: Option<real>, maximum: Option<real>) {
    predicate Admits(x: Option<real>) {
      x.Some? ==> (minimum.Some? ==> x.value >= minimum.value) && (maximum.Some? ==> x.value <= maximum.value)
    }
  }

  datatype Policy = Policy(
    maximumCandidates: nat, maximumPositions: nat, investedFraction: real, maximumAssetWeight: real,
    entryHurdle: real, exitHurdle: real, maximumHoldRank: int, requiredConfirmations: int, replacementAdvantage: real,
    calibrated: bool, minimumEntryReturn: real, minimumHoldReturn: real, minimumReplacementReturn: real,
    roundTripCost: real, entry1h: Band, entry4h: Band, entry24h: Band,
    maximumEntryVolatility: Option<real>, volatilityQuantile: Option<real>,
    hold1h: Band, hold24h: Band, holdVolatility: Band)

  datatype Context = Context(
    held: set<string>, expired: set<string>, recentExits: set<string>, concentrated: set<string>, losing: set<string>,
    entriesBlocked: bool, confirmations: Option<map<string, int>>, previousScores: map<string, real>)

  datatype Selected = Selected(pair: string, score: real, weight: real)

  // ---------------------------------------------------------------- orderings

  predicate ByLiquidity(a: Candidate, b: Candidate) {
    a.Volume() > b.Volume() || (a.Volume() == b.Volume() && !TextOrder.Before(b.pair, a.pair))
  }

  predicate ByScore(a: Candidate, b: Candidate) {
    a.Score() > b.Score() || (a.Score() == b.Score() && !TextOrder.Before(b.pair, a.pair))
  }

  lemma OrdersAreTotal()
    ensures TotalOrder(ByScore) && TotalOrder(ByLiquidity)
  {
    hide TextOrder.Before;
    forall a: Candidate, b: Candidate ensures ByScore(a, b) || ByScore(b, a)
      ensures ByLiquidity(a, b) || ByLiquidity(b, a)
    {
      TextOrder.NotBeforeIsTotal(a.pair, b.pair);
    }
    forall a: Candidate, b: Candidate, c: Candidate | ByScore(a, b) && ByScore(b, c) ensures ByScore(a, c) {
      if a.Score() == b.Score() == c.Score() { TextOrder.NotBeforeIsTransitive(a.pair, b.pair, c.pair); }
    }
    forall a: Candidate, b: Candidate, c: Candidate | ByLiquidity(a, b) && ByLiquidity(b, c) ensures ByLiquidity(a, c) {
      if a.Volume() == b.Volume() == c.Volume() { TextOrder.NotBeforeIsTransitive(a.pair, b.pair, c.pair); }
    }
  }

  // ---------------------------------------------------------------- gates

  function Scored(p: Policy, all: seq<Candidate>): seq<Candidate> {
    var liquid := Sort(ByLiquidity, Filter((c: Candidate) => c.eligible, all));
    Sort(ByScore, if |liquid| <= p.maximumCandidates then liquid else liquid[..p.maximumCandidates])
  }

  function Volatilities(s: seq<Candidate>): seq<real> {
    if s == [] then [] else
      (if s[0].volatility.Some? then [s[0].volatility.value] else []) + Volatilities(s[1..])
  }

  function VolatilityCap(p: Policy, scored: seq<Candidate>): Option<real> {
    var values := Sort((a: real, b: real) => a <= b, Volatilities(scored));
    if p.volatilityQuantile.None? || values == [] then p.maximumEntryVolatility else
      var raw := ((|values| - 1) as real * p.volatilityQuantile.value).Floor;
      var index := if raw < 0 then 0 else if raw > |values| - 1 then |values| - 1 else raw;
      var relative := values[index];
      Some(match p.maximumEntryVolatility case None => relative case Some(absolute) => Min(absolute, relative))
  }

  predicate EntryGuardPasses(p: Policy, c: Candidate, cap: Option<real>) {
    p.entry1h.Admits(c.momentum1h) && p.entry4h.Admits(c.momentum4h) && p.entry24h.Admits(c.momentum24h)
    && Band(None, cap).Admits(c.volatility)
  }

  predicate HoldGuardPasses(p: Policy, c: Candidate) {
    p.hold1h.Admits(c.momentum1h) && p.hold24h.Admits(c.momentum24h) && p.holdVolatility.Admits(c.volatility)
  }

  predicate EntryReturnPasses(p: Policy, c: Candidate) {
    p.calibrated ==> c.feeAdjusted.Some? && c.feeAdjusted.value >= p.minimumEntryReturn
  }

  /** Missing model evidence never forces a holding out. */
  predicate HoldReturnPasses(p: Policy, c: Candidate) {
    p.calibrated && c.Expected().Some? ==> c.Expected().value >= p.minimumHoldReturn
  }

  predicate ReplacementReturnPasses(p: Policy, entrant: Candidate, incumbent: Candidate) {
    p.calibrated ==>
      entrant.Expected().Some? && incumbent.Expected().Some?
      && entrant.Expected().value - incumbent.Expected().value - p.roundTripCost >= p.minimumReplacementReturn
  }

  function PriorConfirmations(p: Policy, x: Context, pair: string): int {
    match x.confirmations
    case Some(counts) => if pair in counts then counts[pair] else 0
    case None => if pair in x.previousScores && x.previousScores[pair] > p.entryHurdle then 1 else 0
  }

  function Rank(scored: seq<Candidate>, pair: string): nat {
    if scored == [] || scored[0].pair == pair then 1 else 1 + Rank(scored[1..], pair)
  }

  predicate MayStay(p: Policy, x: Context, scored: seq<Candidate>, c: Candidate) {
    c.pair in x.held && c.pair !in x.expired && c.score.Some? && c.score.value > p.exitHurdle
    && Rank(scored, c.pair) <= p.maximumHoldRank && HoldGuardPasses(p, c) && HoldReturnPasses(p, c)
  }

  predicate MayEnter(p: Policy, x: Context, cap: Option<real>, c: Candidate) {
    c.pair !in x.held && c.pair !in x.recentExits && c.pair !in x.concentrated && c.pair !in x.losing
    && !x.entriesBlocked && c.score.Some? && c.score.value > p.entryHurdle && EntryGuardPasses(p, c, cap)
    && EntryReturnPasses(p, c)
    && (p.requiredConfirmations <= 1 || PriorConfirmations(p, x, c.pair) >= p.requiredConfirmations - 1)
  }

  function Retained(p: Policy, x: Context, scored: seq<Candidate>): seq<Candidate> {
    Filter((c: Candidate) => MayStay(p, x, scored, c), scored)
  }

  function Entrants(p: Policy, x: Context, scored: seq<Candidate>): seq<Candidate> {
    Filter((c: Candidate) => MayEnter(p, x, VolatilityCap(p, scored), c), scored)
  }

  function Incumbents(p: Policy, x: Context, scored: seq<Candidate>): seq<Candidate> {
    var ranked := Sort(ByScore, Retained(p, x, scored));
    if |ranked| <= p.maximumPositions then ranked else ranked[..p.maximumPositions]
  }

  // ---------------------------------------------------------------- the replacement loop

  predicate WeakerOrSame(a: Candidate, b: Candidate) {
    a.Score() < b.Score() || (a.Score() == b.Score() && !TextOrder.Before(b.pair, a.pair))
  }

  /** Position of the first candidate that is least by score, then by pair. */
  function Weakest(s: seq<Candidate>): (w: nat)
    requires s != []
    ensures w < |s| && forall k :: 0 <= k < |s| ==> s[w].Score() <= s[k].Score()
  {
    if |s| == 1 then 0 else
      var w := 1 + Weakest(s[1..]);
      assert forall k :: 1 <= k < |s| ==> s[k] == s[1..][k - 1];
      if WeakerOrSame(s[0], s[w]) then 0 else w
  }

  predicate Displaces(p: Policy, entrant: Candidate, incumbent: Candidate) {
    entrant.Score() >= incumbent.Score() + p.replacementAdvantage && ReplacementReturnPasses(p, entrant, incumbent)
  }

  function AdmitOne(p: Policy, ranked: seq<Candidate>, entrant: Candidate): seq<Candidate>
    requires p.maximumPositions > 0
  {
    if |ranked| < p.maximumPositions then ranked + [entrant] else
      var w := Weakest(ranked);
      if Displaces(p, entrant, ranked[w]) then ranked[..w] + ranked[w + 1..] + [entrant] else ranked
  }

  function Admit(p: Policy, ranked: seq<Candidate>, entrants: seq<Candidate>): seq<Candidate>
    requires p.maximumPositions > 0
    decreases |entrants|
  {
    if entrants == [] then ranked else Admit(p, AdmitOne(p, ranked, entrants[0]), entrants[1..])
  }

  predicate Replaces(p: Policy, ranked: seq<Candidate>, entrant: Candidate)
    requires p.maximumPositions > 0
  {
    |ranked| >= p.maximumPositions && Displaces(p, entrant, ranked[Weakest(ranked)])
  }

  /** How many times the loop displaced someone. */
  function Replacements(p: Policy, ranked: seq<Candidate>, entrants: seq<Candidate>): nat
    requires p.maximumPositions > 0
    decreases |entrants|
  {
    if entrants == [] then 0 else
      (if Replaces(p, ranked, entrants[0]) then 1 else 0)
      + Replacements(p, AdmitOne(p, ranked, entrants[0]), entrants[1..])
  }

  function Chosen(p: Policy, x: Context, all: seq<Candidate>): seq<Candidate>
    requires p.maximumPositions > 0
  {
    var scored := Scored(p, all);
    Sort(ByScore, Admit(p, Incumbents(p, x, scored), Entrants(p, x, scored)))
  }

  function Weight(p: Policy, count: nat): real
    requires count > 0
  {
    Min(p.investedFraction, p.maximumAssetWeight * count as real) / count as real
  }

  function Weighted(w: real, s: seq<Candidate>): (r: seq<Selected>)
    ensures |r| == |s| && forall k :: 0 <= k < |s| ==> r[k] == Selected(s[k].pair, s[k].Score(), w)
  {
    if s == [] then [] else [Selected(s[0].pair, s[0].Score(), w)] + Weighted(w, s[1..])
  }

  method Select(p: Policy, x: Context, all: seq<Candidate>)
      returns (selected: seq<Selected>, replaced: seq<(string, string)>)
    requires p.maximumPositions > 0
    ensures var chosen := Chosen(p, x, all);
      selected == if chosen == [] then [] else Weighted(Weight(p, |chosen|), chosen)
    ensures var scored := Scored(p, all);
      |replaced| == Replacements(p, Incumbents(p, x, scored), Entrants(p, x, scored))
  {
    var scored := Scored(p, all);
    var entrants := Entrants(p, x, scored);
    var ranked := Incumbents(p, x, scored);
    ghost var start := ranked;
    replaced := [];
    assert entrants[0..] == entrants;
    for k := 0 to |entrants|
      invariant Admit(p, start, entrants) == Admit(p, ranked, entrants[k..])
      invariant Replacements(p, start, entrants) == |replaced| + Replacements(p, ranked, entrants[k..])
    {
      var entrant := entrants[k];
      assert entrants[k..][0] == entrant && entrants[k..][1..] == entrants[k + 1..];
      if |ranked| < p.maximumPositions {
        ranked := ranked + [entrant];
      } else {
        var w := Weakest(ranked);
        var weakest := ranked[w];
        if Displaces(p, entrant, weakest) {
          replaced := replaced + [(entrant.pair, weakest.pair)];
          ranked := ranked[..w] + ranked[w + 1..] + [entrant];
        }
      }
    }
    assert entrants[|entrants|..] == [];
    ranked := Sort(ByScore, ranked);
    if ranked == [] {
      return [], replaced;
    }
    selected := Weighted(Weight(p, |ranked|), ranked);
  }

  // ---------------------------------------------------------------- what the gates hand to the loop

  ghost predicate DistinctPairs(s: seq<Candidate>) {
    forall i, j :: 0 <= i < j < |s| ==> s[i].pair != s[j].pair
  }

  ghost predicate PairsIdentify(s: seq<Candidate>) {
    forall a, b :: a in s && b in s && a.pair == b.pair ==> a == b
  }

  lemma DistinctPairsSplit(s: seq<Candidate>)
    ensures DistinctPairs(s) <==> NoRepeats(s) && PairsIdentify(s)
  {
  }

  lemma SortKeepsPairs(leq: (Candidate, Candidate) -> bool, s: seq<Candidate>)
    requires DistinctPairs(s)
    ensures DistinctPairs(Sort(leq, s))
  {
    DistinctPairsSplit(s);
    SortHasSameElements(leq, s);
    SortKeepsNoRepeats(leq, s);
    DistinctPairsSplit(Sort(leq, s));
  }

  lemma FilterKeepsPairs(f: Candidate -> bool, s: seq<Candidate>)
    requires DistinctPairs(s)
    ensures DistinctPairs(Filter(f, s))
  {
    DistinctPairsSplit(s);
    FilterKeeps(f, s);
    DistinctPairsSplit(Filter(f, s));
  }

  lemma ScoredFacts(p: Policy, all: seq<Candidate>)
    requires DistinctPairs(all)
    ensures var scored := Scored(p, all);
      DistinctPairs(scored) && Sorted(ByScore, scored) && |scored| <= p.maximumCandidates
      && forall c <- scored :: c in all && c.eligible
  {
    hide ByScore, ByLiquidity;
    OrdersAreTotal();
    var eligible := (c: Candidate) => c.eligible;
    var liquid := Sort(ByLiquidity, Filter(eligible, all));
    FilterKeeps(eligible, all);
    FilterKeepsPairs(eligible, all);
    SortKeepsPairs(ByLiquidity, Filter(eligible, all));
    SortHasSameElements(ByLiquidity, Filter(eligible, all));
    var top := if |liquid| <= p.maximumCandidates then liquid else liquid[..p.maximumCandidates];
    SortKeepsPairs(ByScore, top);
    SortHasSameElements(ByScore, top);
    SortSorts(ByScore, top);
    forall c <- Scored(p, all) ensures c in all && c.eligible {
      assert c in top && c in liquid;
    }
  }

  /** Scores do not increase along the entrants, and no pair appears twice in what the loop sees. */
  ghost predicate LoopInput(p: Policy, ranked: seq<Candidate>, entrants: seq<Candidate>) {
    && |ranked| <= p.maximumPositions && p.maximumPositions > 0
    && DistinctPairs(ranked + entrants)
    && forall i, j :: 0 <= i < j < |entrants| ==> entrants[i].Score() >= entrants[j].Score()
  }

  lemma LoopSeesLoopInput(p: Policy, x: Context, all: seq<Candidate>)
    requires DistinctPairs(all) && p.maximumPositions > 0
    ensures var scored := Scored(p, all);
      && LoopInput(p, Incumbents(p, x, scored), Entrants(p, x, scored))
      && (forall c <- Incumbents(p, x, scored) :: c in scored && MayStay(p, x, scored, c))
      && (forall c <- Entrants(p, x, scored) :: c in scored && MayEnter(p, x, VolatilityCap(p, scored), c))
  {
    hide TextOrder.Before, HoldGuardPasses, HoldReturnPasses, EntryGuardPasses, EntryReturnPasses, VolatilityCap,
         PriorConfirmations, Rank;
    ScoredFacts(p, all);
    OrdersAreTotal();
    var scored := Scored(p, all);
    var stays := (c: Candidate) => MayStay(p, x, scored, c);
    var enters := (c: Candidate) => MayEnter(p, x, VolatilityCap(p, scored), c);
    hide Scored;
    FilterKeeps(stays, scored);
    FilterKeeps(enters, scored);
    FilterKeepsPairs(stays, scored);
    FilterKeepsPairs(enters, scored);
    FilterKeepsOrder(ByScore, enters, scored);
    SortKeepsPairs(ByScore, Retained(p, x, scored));
    SortHasSameElements(ByScore, Retained(p, x, scored));
    var incumbents, entrants := Incumbents(p, x, scored), Entrants(p, x, scored);
    forall i, j | 0 <= i < |incumbents| && 0 <= j < |entrants| ensures incumbents[i].pair != entrants[j].pair {
      assert incumbents[i] in incumbents && entrants[j] in entrants;
    }
    assert DistinctPairs(incumbents + entrants);
    forall i, j | 0 <= i < j < |entrants| ensures entrants[i].Score() >= entrants[j].Score() {
      assert ByScore(entrants[i], entrants[j]);
    }
  }

  // ---------------------------------------------------------------- what the loop keeps

  lemma DropKeepsPairs(s: seq<Candidate>, k: nat)
    requires k < |s| && DistinctPairs(s)
    ensures DistinctPairs(s[..k] + s[k + 1..])
  {
    var t := s[..k] + s[k + 1..];
    forall i, j | 0 <= i < j < |t| ensures t[i].pair != t[j].pair {
      assert t[i] == s[if i < k then i else i + 1] && t[j] == s[if j < k then j else j + 1];
    }
  }

  /** Whatever the loop does with one entrant, it drops at most one of the candidates it has or still expects. */
  lemma AdmitOneDrops(p: Policy, ranked: seq<Candidate>, entrants: seq<Candidate>)
    requires LoopInput(p, ranked, entrants) && entrants != []
    ensures DistinctPairs(AdmitOne(p, ranked, entrants[0]) + entrants[1..])
  {
    hide DistinctPairs, Displaces, Weakest;
    var both := ranked + entrants;
    var next, rest := AdmitOne(p, ranked, entrants[0]), entrants[1..];
    if |ranked| < p.maximumPositions {
      assert next + rest == both;
    } else {
      var w := Weakest(ranked);
      if Displaces(p, entrants[0], ranked[w]) {
        DropKeepsPairs(both, w);
        assert next + rest == both[..w] + both[w + 1..];
      } else {
        DropKeepsPairs(both, |ranked|);
        assert next + rest == both[..|ranked|] + both[|ranked| + 1..];
      }
    }
  }

  lemma AdmitOneKeeps(p: Policy, ranked: seq<Candidate>, entrants: seq<Candidate>)
    requires LoopInput(p, ranked, entrants) && entrants != []
    ensures var next := AdmitOne(p, ranked, entrants[0]);
      LoopInput(p, next, entrants[1..]) && |next| >= |ranked|
      && (|ranked| < p.maximumPositions ==> |next| == |ranked| + 1)
      && (forall c <- next :: c in ranked || c == entrants[0])
  {
    AdmitOneDrops(p, ranked, entrants);
    hide DistinctPairs, Displaces, Weakest;
  }

  lemma {:induction false} AdmitKeeps(p: Policy, ranked: seq<Candidate>, entrants: seq<Candidate>)
    requires LoopInput(p, ranked, entrants)
    ensures var final := Admit(p, ranked, entrants);
      && DistinctPairs(final) && |final| <= p.maximumPositions
      && |final| == (if |ranked| + |entrants| <= p.maximumPositions then |ranked| + |entrants| else p.maximumPositions)
      && forall c <- final :: c in ranked || c in entrants
    decreases |entrants|
  {
    hide AdmitOne;
    if entrants == [] {
      assert ranked + entrants == ranked;
    } else {
      AdmitOneKeeps(p, ranked, entrants);
      AdmitKeeps(p, AdmitOne(p, ranked, entrants[0]), entrants[1..]);
      assert entrants[0] in entrants && forall c <- entrants[1..] :: c in entrants;
    }
  }

  /** With a non-negative advantage a full selection never gets weaker. */
  lemma {:induction false} FloorIsKept(p: Policy, ranked: seq<Candidate>, entrants: seq<Candidate>, floor: real)
    requires LoopInput(p, ranked, entrants) && |ranked| == p.maximumPositions && p.replacementAdvantage >= 0.0
    requires forall c <- ranked :: c.Score() >= floor
    ensures |Admit(p, ranked, entrants)| == p.maximumPositions
    ensures forall c <- Admit(p, ranked, entrants) :: c.Score() >= floor
    decreases |entrants|
  {
    hide ReplacementReturnPasses;
    if entrants != [] {
      AdmitOneKeeps(p, ranked, entrants);
      assert ranked[Weakest(ranked)] in ranked;
      FloorIsKept(p, AdmitOne(p, ranked, entrants[0]), entrants[1..], floor);
    }
  }

  /** Left out although it passed its gates: then the selection is full and no member is much weaker. */
  ghost predicate JustlyLeftOut(p: Policy, final: seq<Candidate>, c: Candidate) {
    |final| == p.maximumPositions && forall s <- final :: c.Score() <= s.Score() + p.replacementAdvantage
  }

  /** Who is left out when an entrant meets a full selection. */
  function Loser(p: Policy, ranked: seq<Candidate>, entrant: Candidate): Candidate
    requires ranked != []
  {
    var w := Weakest(ranked);
    if Displaces(p, entrant, ranked[w]) then ranked[w] else entrant
  }

  lemma OthersStay(p: Policy, ranked: seq<Candidate>, entrant: Candidate, c: Candidate)
    requires p.maximumPositions > 0 && |ranked| == p.maximumPositions && (c in ranked || c == entrant)
    ensures c == Loser(p, ranked, entrant) || c in AdmitOne(p, ranked, entrant)
  {
    hide Displaces, Weakest;
    var w := Weakest(ranked);
    if c in ranked {
      var k :| 0 <= k < |ranked| && ranked[k] == c;
      if k < w { assert c in ranked[..w]; } else if k > w { assert c in ranked[w + 1..]; }
    }
  }

  lemma LoserIsJust(p: Policy, ranked: seq<Candidate>, entrants: seq<Candidate>)
    requires LoopInput(p, ranked, entrants) && entrants != [] && |ranked| == p.maximumPositions
    requires !p.calibrated && p.replacementAdvantage >= 0.0
    ensures JustlyLeftOut(p, Admit(p, ranked, entrants), Loser(p, ranked, entrants[0]))
  {
    var e, rest, w := entrants[0], entrants[1..], Weakest(ranked);
    AdmitOneKeeps(p, ranked, entrants);
    assert ranked[w] in ranked;
    FloorIsKept(p, AdmitOne(p, ranked, e), rest, ranked[w].Score());
    hide DistinctPairs;
  }

  lemma {:induction false} LoopIsNearOptimal(p: Policy, ranked: seq<Candidate>, entrants: seq<Candidate>)
    requires LoopInput(p, ranked, entrants) && !p.calibrated && p.replacementAdvantage >= 0.0
    ensures var final := Admit(p, ranked, entrants);
      forall c | c in ranked || c in entrants :: c in final || JustlyLeftOut(p, final, c)
    decreases |entrants|
  {
    if entrants != [] {
      var e, rest := entrants[0], entrants[1..];
      AdmitOneKeeps(p, ranked, entrants);
      if |ranked| == p.maximumPositions { LoserIsJust(p, ranked, entrants); }
      var next := AdmitOne(p, ranked, e);
      LoopIsNearOptimal(p, next, rest);
      hide JustlyLeftOut, Loser, Displaces, Weakest, LoopInput;
      forall c | c in ranked || c in entrants
        ensures c in next || c in rest || (|ranked| == p.maximumPositions && c == Loser(p, ranked, e))
      {
        if |ranked| == p.maximumPositions && (c in ranked || c == e) { OthersStay(p, ranked, e, c); }
      }
    }
  }

  function Stand(k: nat): Candidate {
    Candidate(seq(k + 1, _ => 'a'), true, Some(0.0), None, None, None, None, None, None, None, None)
  }

  ghost predicate NearOptimal(p: Policy, ranked: seq<Candidate>, entrants: seq<Candidate>)
    requires p.maximumPositions > 0
  {
    var final := Admit(p, ranked, entrants);
    forall c | c in ranked || c in entrants :: c in final || JustlyLeftOut(p, final, c)
  }

  function Stands(n: nat): (r: seq<Candidate>)
    ensures |r| == n && forall k :: 0 <= k < n ==> r[k] == Stand(k)
  {
    seq(n, k requires 0 <= k => Stand(k))
  }

  function Challenger(p: Policy): Candidate {
    Stand(0).(pair := "b", score := Some(p.replacementAdvantage))
  }

  lemma StandsAreLoopInput(p: Policy)
    requires p.maximumPositions > 0
    ensures LoopInput(p, Stands(p.maximumPositions), [Challenger(p)])
  {
    var ranked, e := Stands(p.maximumPositions), Challenger(p);
    forall i, j | 0 <= i < j < |ranked| ensures ranked[i].pair != ranked[j].pair {
      assert |ranked[i].pair| == i + 1 && |ranked[j].pair| == j + 1;
    }
    forall k | 0 <= k < |ranked| ensures ranked[k].pair != e.pair {
      assert ranked[k].pair[0] == 'a';
    }
  }

  /** With a negative advantage a weaker challenger displaces an equal holding and leaves it unjustly out. */
  lemma NegativeAdvantageFails(p: Policy)
    requires p.maximumPositions > 0 && !p.calibrated && p.replacementAdvantage < 0.0
    ensures LoopInput(p, Stands(p.maximumPositions), [Challenger(p)])
    ensures !NearOptimal(p, Stands(p.maximumPositions), [Challenger(p)])
  {
    var ranked, e := Stands(p.maximumPositions), Challenger(p);
    StandsAreLoopInput(p);
    var w := Weakest(ranked);
    assert Displaces(p, e, ranked[w]) && ranked[w].Score() == 0.0 && e.Score() == p.replacementAdvantage;
    var final := AdmitOne(p, ranked, e);
    DisplacedIsOut(p, ranked, e);
    hide Stands, Stand, Challenger, LoopInput, Displaces, AdmitOne, Weakest;
    assert [e][0] == e && [e][1..] == [];
    assert Admit(p, ranked, [e]) == Admit(p, final, []) == final;
    assert !JustlyLeftOut(p, final, ranked[w]);
  }

  lemma DisplacedIsOut(p: Policy, ranked: seq<Candidate>, e: Candidate)
    requires LoopInput(p, ranked, [e]) && |ranked| == p.maximumPositions && Displaces(p, e, ranked[Weakest(ranked)])
    ensures var w := Weakest(ranked); var final := AdmitOne(p, ranked, e);
      e in final && ranked[w] in ranked && ranked[w] !in final
  {
    hide Displaces;
    var w := Weakest(ranked);
    assert (ranked + [e])[|ranked|] == e;
    assert forall k :: 0 <= k < |ranked| ==> (ranked + [e])[k] == ranked[k];
    assert forall k :: 0 <= k < |ranked| && k != w ==> ranked[k].pair != ranked[w].pair;
    assert AdmitOne(p, ranked, e) == ranked[..w] + ranked[w + 1..] + [e];
  }

  /** The bound needs the advantage to be non-negative, and nothing else. */
  lemma NearOptimalIffAdvantageNotNegative(p: Policy)
    requires p.maximumPositions > 0 && !p.calibrated
    ensures p.replacementAdvantage >= 0.0 <==>
      forall ranked, entrants :: LoopInput(p, ranked, entrants) ==> NearOptimal(p, ranked, entrants)
  {
    hide Admit, LoopInput;
    if p.replacementAdvantage >= 0.0 {
      forall ranked, entrants | LoopInput(p, ranked, entrants) ensures NearOptimal(p, ranked, entrants) {
        LoopIsNearOptimal(p, ranked, entrants);
      }
    } else {
      NegativeAdvantageFails(p);
    }
  }

  // ---------------------------------------------------------------- no churn among entrants

  ghost function Initials(s: seq<Candidate>, initial: set<string>): nat {
    if s == [] then 0 else (if s[0].pair in initial then 1 else 0) + Initials(s[1..], initial)
  }

  lemma {:induction false} InitialsConcat(a: seq<Candidate>, b: seq<Candidate>, initial: set<string>)
    ensures Initials(a + b, initial) == Initials(a, initial) + Initials(b, initial)
  {
    if a == [] {
      assert a + b == b;
    } else {
      assert (a + b)[1..] == a[1..] + b;
      InitialsConcat(a[1..], b, initial);
    }
  }

  lemma InitialsAfterDisplacement(ranked: seq<Candidate>, w: nat, e: Candidate, initial: set<string>)
    requires w < |ranked| && ranked[w].pair in initial && e.pair !in initial
    ensures Initials(ranked, initial) == Initials(ranked[..w] + ranked[w + 1..] + [e], initial) + 1
  {
    assert ranked == ranked[..w] + [ranked[w]] + ranked[w + 1..];
    InitialsConcat(ranked[..w], [ranked[w]], initial);
    InitialsConcat(ranked[..w] + [ranked[w]], ranked[w + 1..], initial);
    InitialsConcat(ranked[..w], ranked[w + 1..], initial);
    InitialsConcat(ranked[..w] + ranked[w + 1..], [e], initial);
  }

  /** Whoever did not start in the selection is at least as strong as every entrant still to come. */
  ghost predicate NewcomersLead(ranked: seq<Candidate>, entrants: seq<Candidate>, initial: set<string>) {
    forall c <- ranked :: c.pair in initial || forall e <- entrants :: c.Score() >= e.Score()
  }

  lemma NewcomersStillLead(p: Policy, ranked: seq<Candidate>, entrants: seq<Candidate>, initial: set<string>)
    requires LoopInput(p, ranked, entrants) && entrants != [] && NewcomersLead(ranked, entrants, initial)
    ensures NewcomersLead(AdmitOne(p, ranked, entrants[0]), entrants[1..], initial)
  {
    AdmitOneKeeps(p, ranked, entrants);
    hide AdmitOne;
    forall c <- AdmitOne(p, ranked, entrants[0]) | c.pair !in initial
      ensures forall r <- entrants[1..] :: c.Score() >= r.Score()
    {
      forall r <- entrants[1..] ensures c.Score() >= r.Score() {
        assert r in entrants;
        var k :| 1 <= k < |entrants| && entrants[k] == r;
      }
    }
  }

  lemma OneTurnKeepsNewcomers(p: Policy, ranked: seq<Candidate>, e: Candidate, initial: set<string>)
    requires 0 < p.maximumPositions && |ranked| <= p.maximumPositions
    requires p.replacementAdvantage > 0.0 && e.pair !in initial && NewcomersLead(ranked, [e], initial)
    ensures var next := AdmitOne(p, ranked, e);
      && Initials(next, initial) + (if Replaces(p, ranked, e) then 1 else 0) == Initials(ranked, initial)
      && forall c <- ranked :: c.pair !in initial ==> c in next
  {
    hide ReplacementReturnPasses, WeakerOrSame;
    if |ranked| < p.maximumPositions {
      InitialsConcat(ranked, [e], initial);
    } else if Replaces(p, ranked, e) {
      var w := Weakest(ranked);
      assert ranked[w] in ranked && e in [e];
      assert ranked[w].pair in initial;
      InitialsAfterDisplacement(ranked, w, e, initial);
      forall c <- ranked | c.pair !in initial ensures c in AdmitOne(p, ranked, e) {
        var k :| 0 <= k < |ranked| && ranked[k] == c;
        if k < w { assert c in ranked[..w]; } else { assert c in ranked[w + 1..]; }
      }
    }
  }

  /**
   * With a positive advantage whoever entered through the loop stays: the entrants come strongest first, so only
   * initial members can be displaced, each once.
   */
  lemma {:induction false} EntrantsAreNeverDisplaced(
    p: Policy, ranked: seq<Candidate>, entrants: seq<Candidate>, initial: set<string>)
    requires LoopInput(p, ranked, entrants) && p.replacementAdvantage > 0.0
    requires forall c <- entrants :: c.pair !in initial
    requires NewcomersLead(ranked, entrants, initial)
    ensures forall c <- ranked :: c.pair !in initial ==> c in Admit(p, ranked, entrants)
    ensures Replacements(p, ranked, entrants) <= Initials(ranked, initial)
    decreases |entrants|
  {
    hide AdmitOne, Displaces, Initials, LoopInput;
    if entrants != [] {
      var e, rest := entrants[0], entrants[1..];
      assert e in entrants && forall r <- rest :: r in entrants;
      AdmitOneKeeps(p, ranked, entrants);
      NewcomersStillLead(p, ranked, entrants, initial);
      assert NewcomersLead(ranked, [e], initial);
      LoopInputBounds(p, ranked, entrants);
      OneTurnKeepsNewcomers(p, ranked, e, initial);
      EntrantsAreNeverDisplaced(p, AdmitOne(p, ranked, e), rest, initial);
    }
  }

  lemma LoopInputBounds(p: Policy, ranked: seq<Candidate>, entrants: seq<Candidate>)
    requires LoopInput(p, ranked, entrants)
    ensures 0 < p.maximumPositions && |ranked| <= p.maximumPositions
  {
  }

  // ---------------------------------------------------------------- the selection as a whole

  lemma ChosenHasLoopMembers(p: Policy, x: Context, all: seq<Candidate>)
    requires DistinctPairs(all) && p.maximumPositions > 0
    ensures var scored := Scored(p, all);
      var final := Admit(p, Incumbents(p, x, scored), Entrants(p, x, scored));
      DistinctPairs(Chosen(p, x, all)) && |Chosen(p, x, all)| == |final|
      && forall c :: c in Chosen(p, x, all) <==> c in final
  {
    hide Scored, Incumbents, Entrants, ByScore;
    var scored := Scored(p, all);
    LoopSeesLoopInput(p, x, all);
    AdmitKeeps(p, Incumbents(p, x, scored), Entrants(p, x, scored));
    var final := Admit(p, Incumbents(p, x, scored), Entrants(p, x, scored));
    SortKeepsPairs(ByScore, final);
    SortHasSameElements(ByScore, final);
  }

  /** Every chosen asset passed its gate; pairs are distinct; the count is the largest the positions allow. */
  lemma SelectionRespectsGates(p: Policy, x: Context, all: seq<Candidate>)
    requires DistinctPairs(all) && p.maximumPositions > 0
    ensures var (scored, chosen) := (Scored(p, all), Chosen(p, x, all));
      && DistinctPairs(chosen) && |chosen| <= p.maximumPositions
      && (forall c <- chosen :: c in all && c.eligible && c in scored
            && (MayStay(p, x, scored, c) || MayEnter(p, x, VolatilityCap(p, scored), c)))
      && (|chosen| < p.maximumPositions ==>
            |chosen| == |Retained(p, x, scored)| + |Entrants(p, x, scored)|)
  {
    hide Scored, Entrants, ByScore, MayStay, MayEnter, VolatilityCap, Chosen, Admit;
    var scored := Scored(p, all);
    ScoredFacts(p, all);
    LoopSeesLoopInput(p, x, all);
    AdmitKeeps(p, Incumbents(p, x, scored), Entrants(p, x, scored));
    ChosenHasLoopMembers(p, x, all);
    SortHasSameElements(ByScore, Retained(p, x, scored));
  }

  /** Without calibration, a candidate that passed its gate and is not chosen was justly left out. */
  lemma SelectionIsNearOptimal(p: Policy, x: Context, all: seq<Candidate>, c: Candidate)
    requires DistinctPairs(all) && p.maximumPositions > 0 && !p.calibrated && p.replacementAdvantage >= 0.0
    requires var scored := Scored(p, all);
      c in scored && (MayStay(p, x, scored, c) || MayEnter(p, x, VolatilityCap(p, scored), c))
    ensures c in Chosen(p, x, all) || JustlyLeftOut(p, Chosen(p, x, all), c)
  {
    hide Scored, ByScore, MayStay, MayEnter, VolatilityCap, Chosen, Admit;
    var scored := Scored(p, all);
    var incumbents, entrants := Incumbents(p, x, scored), Entrants(p, x, scored);
    LoopSeesLoopInput(p, x, all);
    ChosenHasLoopMembers(p, x, all);
    LoopIsNearOptimal(p, incumbents, entrants);
    FilterKeeps((d: Candidate) => MayEnter(p, x, VolatilityCap(p, scored), d), scored);
    FilterKeeps((d: Candidate) => MayStay(p, x, scored, d), scored);
    if c !in incumbents && c !in entrants {
      TruncatedHoldings(p, x, scored, c);
      FloorIsKept(p, incumbents, entrants, c.Score());
    }
  }

  /** A holding cut off by the position limit is no stronger than the ones that were kept. */
  lemma TruncatedHoldings(p: Policy, x: Context, scored: seq<Candidate>, c: Candidate)
    requires c in Retained(p, x, scored) && c !in Incumbents(p, x, scored)
    ensures |Incumbents(p, x, scored)| == p.maximumPositions
    ensures forall s <- Incumbents(p, x, scored) :: s.Score() >= c.Score()
  {
    hide TextOrder.Before, Retained;
    OrdersAreTotal();
    var ranked := Sort(ByScore, Retained(p, x, scored));
    SortHasSameElements(ByScore, Retained(p, x, scored));
    SortSorts(ByScore, Retained(p, x, scored));
    var k :| 0 <= k < |ranked| && ranked[k] == c;
    var kept := Incumbents(p, x, scored);
    assert forall m :: 0 <= m < |kept| ==> kept[m] == ranked[m] && kept[m] in kept;
    forall s <- kept ensures s.Score() >= c.Score() {
      var j :| 0 <= j < |kept| && kept[j] == s;
      assert ByScore(ranked[j], ranked[k]);
    }
  }

  /** The loop replaces at most as many members as there were retained holdings. */
  lemma ReplacementsAreBounded(p: Policy, x: Context, all: seq<Candidate>)
    requires DistinctPairs(all) && p.maximumPositions > 0 && p.replacementAdvantage > 0.0
    ensures var scored := Scored(p, all);
      var (incumbents, entrants) := (Incumbents(p, x, scored), Entrants(p, x, scored));
      Replacements(p, incumbents, entrants) <= |incumbents| <= |Retained(p, x, scored)|
  {
    hide Scored, Entrants, Replacements;
    var scored := Scored(p, all);
    var incumbents, entrants := Incumbents(p, x, scored), Entrants(p, x, scored);
    LoopSeesLoopInput(p, x, all);
    SortHasSameElements(ByScore, Retained(p, x, scored));
    EntrantsAreNeverDisplaced(p, incumbents, entrants, x.held);
    InitialsAtMostLength(incumbents, x.held);
  }

  lemma {:induction false} InitialsAtMostLength(s: seq<Candidate>, initial: set<string>)
    ensures Initials(s, initial) <= |s|
  {
    if s != [] { InitialsAtMostLength(s[1..], initial); }
  }

  // ---------------------------------------------------------------- weights

  function TotalWeight(s: seq<Selected>): real {
    if s == [] then 0.0 else s[0].weight + TotalWeight(s[1..])
  }

  lemma WeightShare(total: real, cap: real, count: nat)
    requires count > 0 && total <= cap * count as real
    ensures total / count as real <= cap && total / count as real * count as real == total
  {
    QuotientTimes(total, count as real);
  }

  lemma {:induction false} WeightedTotal(w: real, s: seq<Candidate>)
    ensures TotalWeight(Weighted(w, s)) == w * |s| as real
  {
    if s == [] {
      assert w * 0.0 == 0.0;
    } else {
      WeightedTotal(w, s[1..]);
      assert Weighted(w, s)[1..] == Weighted(w, s[1..]);
      assert w * |s| as real == w * |s[1..]| as real + w;
    }
  }

  /** Equal weights, each within the asset limit, together exactly the smaller of the two budgets. */
  lemma WeightsFitBothLimits(p: Policy, x: Context, all: seq<Candidate>)
    requires p.maximumPositions > 0 && Chosen(p, x, all) != []
    ensures var chosen := Chosen(p, x, all);
      var w := Weight(p, |chosen|);
      && w <= p.maximumAssetWeight
      && TotalWeight(Weighted(w, chosen)) == Min(p.investedFraction, p.maximumAssetWeight * |chosen| as real)
      && TotalWeight(Weighted(w, chosen)) <= p.investedFraction
  {
    hide Chosen;
    var chosen := Chosen(p, x, all);
    WeightShare(Min(p.investedFraction, p.maximumAssetWeight * |chosen| as real), p.maximumAssetWeight, |chosen|);
    WeightedTotal(Weight(p, |chosen|), chosen);
  }
}
