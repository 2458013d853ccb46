/** Cross-sectional percentile ranks and calm-pullback scores (dynamic_paper_rebalance.py, _percentile_ranks, _score_assessments). */
module Ranking {
  import opened Wrappers
  import opened Sorting
  import opened Reals
  import TextOrder

  datatype Item = Item(pair: string, value: real)

  predicate ByValue(a: Item, b: Item) {
    a.value < b.value || (a.value == b.value && !TextOrder.Before(b.pair, a.pair))
  }

  /** One for a smaller value, one half for an equal one. */
  function Beats(v: real, w: real): real {
    if w < v then 1.0 else if w == v then 0.5 else 0.0
  }

  function Standing(v: real, s: seq<Item>): real {
    if s == [] then 0.0 else Beats(v, s[0].value) + Standing(v, s[1..])
  }

  function Below(v: real, s: seq<Item>): nat {
    if s == [] then 0 else (if s[0].value < v then 1 else 0) + Below(v, s[1..])
  }

  function Equal(v: real, s: seq<Item>): nat {
    if s == [] then 0 else (if s[0].value == v then 1 else 0) + Equal(v, s[1..])
  }

  /** The definition by counting: smaller values, plus half of the other equal ones, over n - 1. */
  function Rank(v: real, s: seq<Item>): real {
    if |s| <= 1 then 0.5 else (Below(v, s) as real + (Equal(v, s) as real - 1.0) / 2.0) / (|s| - 1) as real
  }

  ghost predicate DistinctPairs(s: seq<Item>) {
    forall i, j :: 0 <= i < j < |s| ==> s[i].pair != s[j].pair
  }

  // ---------------------------------------------------------------- counting facts

  function Without(s: seq<Item>, k: nat): seq<Item>
    requires k < |s|
  {
    s[..k] + s[k + 1..]
  }

  lemma WithoutOne(v: real, s: seq<Item>, k: nat)
    requires k < |s|
    ensures Below(v, s) == Below(v, [s[k]]) + Below(v, Without(s, k))
    ensures Equal(v, s) == Equal(v, [s[k]]) + Equal(v, Without(s, k))
    ensures multiset(Without(s, k)) == multiset(s) - multiset{s[k]} && |Without(s, k)| == |s| - 1
  {
    assert s == s[..k] + [s[k]] + s[k + 1..];
    CountsConcat(v, s[..k], s[k + 1..]);
    CountsConcat(v, s[..k], [s[k]]);
    CountsConcat(v, s[..k] + [s[k]], s[k + 1..]);
  }

  lemma {:induction false} CountsIgnoreOrder(v: real, a: seq<Item>, b: seq<Item>)
    requires multiset(a) == multiset(b)
    ensures Below(v, a) == Below(v, b) && Equal(v, a) == Equal(v, b)
    decreases |a|
  {
    hide Below, Equal, Without;
    assert |a| == |multiset(a)| == |multiset(b)| == |b|;
    if |a| == 0 {
      assert a == b;
    } else {
      assert a[0] in multiset(a) && a[0] in b;
      var k :| 0 <= k < |b| && b[k] == a[0];
      WithoutOne(v, a, 0);
      WithoutOne(v, b, k);
      CountsIgnoreOrder(v, Without(a, 0), Without(b, k));
    }
  }

  lemma {:induction false} CountsConcat(v: real, a: seq<Item>, b: seq<Item>)
    ensures Below(v, a + b) == Below(v, a) + Below(v, b)
    ensures Equal(v, a + b) == Equal(v, a) + Equal(v, b)
  {
    if a == [] {
      assert a + b == b;
    } else {
      assert (a + b)[1..] == a[1..] + b;
      CountsConcat(v, a[1..], b);
    }
  }

  lemma {:induction false} AllBelow(v: real, s: seq<Item>)
    requires forall x <- s :: x.value < v
    ensures Below(v, s) == |s| && Equal(v, s) == 0
  {
    if s != [] { AllBelow(v, s[1..]); }
  }

  lemma {:induction false} AllEqual(v: real, s: seq<Item>)
    requires forall x <- s :: x.value == v
    ensures Below(v, s) == 0 && Equal(v, s) == |s|
  {
    if s != [] { AllEqual(v, s[1..]); }
  }

  lemma {:induction false} AllAbove(v: real, s: seq<Item>)
    requires forall x <- s :: x.value > v
    ensures Below(v, s) == 0 && Equal(v, s) == 0
  {
    if s != [] { AllAbove(v, s[1..]); }
  }

  lemma {:induction false} StandingCounts(v: real, s: seq<Item>)
    ensures Standing(v, s) == Below(v, s) as real + Equal(v, s) as real / 2.0
    ensures 0.0 <= Standing(v, s) <= |s| as real
    ensures Below(v, s) + Equal(v, s) <= |s|
    ensures (exists x <- s :: x.value == v) ==> Equal(v, s) >= 1
  {
    if s != [] { StandingCounts(v, s[1..]); }
  }

  // ---------------------------------------------------------------- the tie-grouping loop

  lemma ByValueIsTotal()
    ensures TotalOrder(ByValue)
  {
    hide TextOrder.Before;
    forall a: Item, b: Item ensures ByValue(a, b) || ByValue(b, a) {
      TextOrder.NotBeforeIsTotal(a.pair, b.pair);
    }
    forall a: Item, b: Item, c: Item | ByValue(a, b) && ByValue(b, c) ensures ByValue(a, c) {
      if a.value == b.value == c.value { TextOrder.NotBeforeIsTransitive(a.pair, b.pair, c.pair); }
    }
  }

  /** The group of equal values found between two positions of the sorted sequence has exactly the counted rank. */
  lemma GroupRank(ordered: seq<Item>, start: nat, end: nat, v: real)
    requires start < end <= |ordered| && |ordered| > 1
    requires forall k :: 0 <= k < start ==> ordered[k].value < v
    requires forall k :: start <= k < end ==> ordered[k].value == v
    requires forall k :: end <= k < |ordered| ==> ordered[k].value > v
    ensures Rank(v, ordered) == (start + end - 1) as real / 2.0 / (|ordered| - 1) as real
  {
    assert ordered == ordered[..start] + ordered[start..end] + ordered[end..];
    AllBelow(v, ordered[..start]);
    AllEqual(v, ordered[start..end]);
    AllAbove(v, ordered[end..]);
    CountsConcat(v, ordered[..start], ordered[start..end]);
    CountsConcat(v, ordered[..start] + ordered[start..end], ordered[end..]);
    assert (start + end - 1) as real / 2.0 == start as real + ((end - start) as real - 1.0) / 2.0;
  }

  /** The first positions of the sorted items carry their counted ranks, and nothing else is in the table. */
  ghost predicate RankedUpTo(ordered: seq<Item>, n: nat, ranks: map<string, real>)
    requires n <= |ordered|
  {
    && (forall k :: 0 <= k < n ==> ordered[k].pair in ranks && ranks[ordered[k].pair] == Rank(ordered[k].value, ordered))
    && (forall pair <- ranks :: exists k :: 0 <= k < n && ordered[k].pair == pair)
  }

  lemma RankOneMore(ordered: seq<Item>, n: nat, ranks: map<string, real>)
    requires n < |ordered| && DistinctPairs(ordered) && RankedUpTo(ordered, n, ranks)
    ensures RankedUpTo(ordered, n + 1, ranks[ordered[n].pair := Rank(ordered[n].value, ordered)])
  {
    hide Rank;
  }

  /** A maximal run of equal values in the sorted items is the whole group of that value. */
  lemma MaximalRun(ordered: seq<Item>, start: nat, end: nat)
    requires start < end <= |ordered| && |ordered| > 1 && Sorted(ByValue, ordered)
    requires 0 < start ==> ordered[start - 1].value < ordered[start].value
    requires forall k :: start <= k < end ==> ordered[k].value == ordered[start].value
    requires end < |ordered| ==> ordered[end].value != ordered[start].value
    ensures Rank(ordered[start].value, ordered) == (start + end - 1) as real / 2.0 / (|ordered| - 1) as real
    ensures end < |ordered| ==> ordered[end - 1].value < ordered[end].value
  {
    hide TextOrder.Before, Rank;
    var value := ordered[start].value;
    forall k | 0 <= k < start ensures ordered[k].value < value {
      assert ByValue(ordered[k], ordered[start - 1]) || k == start - 1;
    }
    forall k | end <= k < |ordered| ensures ordered[k].value > value {
      assert ByValue(ordered[start], ordered[end]);
      assert ByValue(ordered[end], ordered[k]) || k == end;
    }
    GroupRank(ordered, start, end, value);
  }

  /** Walks over the sorted items one group of equal values at a time. */
  method RankGroups(ordered: seq<Item>) returns (ranks: map<string, real>)
    requires |ordered| > 1 && Sorted(ByValue, ordered) && DistinctPairs(ordered)
    ensures RankedUpTo(ordered, |ordered|, ranks)
  {
    hide ByValue, Rank, DistinctPairs, Sorted, RankedUpTo;
    ranks := map[];
    var start := 0;
    NoRanks(ordered);
    while start < |ordered|
      invariant start <= |ordered|
      invariant 0 < start < |ordered| ==> ordered[start - 1].value < ordered[start].value
      invariant RankedUpTo(ordered, start, ranks)
    {
      var end := GroupEnd(ordered, start);
      MaximalRun(ordered, start, end);
      var averageIndex := (start + end - 1) as real / 2.0;
      for index := start to end
        invariant RankedUpTo(ordered, index, ranks)
      {
        RankOneMore(ordered, index, ranks);
        ranks := ranks[ordered[index].pair := averageIndex / (|ordered| - 1) as real];
      }
      start := end;
    }
  }

  method GroupEnd(ordered: seq<Item>, start: nat) returns (end: nat)
    requires start < |ordered|
    ensures start < end <= |ordered|
    ensures forall k :: start <= k < end ==> ordered[k].value == ordered[start].value
    ensures end < |ordered| ==> ordered[end].value != ordered[start].value
  {
    end := start + 1;
    while end < |ordered| && ordered[end].value == ordered[start].value
      invariant start < end <= |ordered|
      invariant forall k :: start <= k < end ==> ordered[k].value == ordered[start].value
    {
      end := end + 1;
    }
  }

  method PercentileRanks(values: seq<Item>) returns (ranks: map<string, real>)
    requires values != [] && DistinctPairs(values)
    ensures ranks.Keys == set x <- values :: x.pair
    ensures forall x <- values :: ranks[x.pair] == Rank(x.value, values)
  {
    hide ByValue, Rank, DistinctPairs, Sorted, RankedUpTo;
    var ordered := Sort(ByValue, values);
    ByValueIsTotal();
    SortSorts(ByValue, values);
    SortHasSameElements(ByValue, values);
    SortedPairsStayDistinct(values);
    if |ordered| == 1 {
      ranks := map[ordered[0].pair := 0.5];
      SingleRank(ordered);
      OneRank(ordered, ranks);
    } else {
      ranks := RankGroups(ordered);
    }
    RankedIsRanked(values, ranks);
  }

  lemma NoRanks(ordered: seq<Item>)
    ensures RankedUpTo(ordered, 0, map[])
  {
  }

  lemma OneRank(ordered: seq<Item>, ranks: map<string, real>)
    requires |ordered| == 1 && ranks == map[ordered[0].pair := Rank(ordered[0].value, ordered)]
    ensures RankedUpTo(ordered, 1, ranks)
  {
    hide Rank;
  }

  lemma RankedIsRanked(values: seq<Item>, ranks: map<string, real>)
    requires var ordered := Sort(ByValue, values); RankedUpTo(ordered, |ordered|, ranks)
    ensures ranks.Keys == set x <- values :: x.pair
    ensures forall x <- values :: ranks[x.pair] == Rank(x.value, values)
  {
    hide Rank, ByValue;
    var ordered := Sort(ByValue, values);
    SortSorts(ByValue, values);
    SortHasSameElements(ByValue, values);
    RanksIgnoreOrder(values, ordered);
    forall x <- values ensures x.pair in ranks && ranks[x.pair] == Rank(x.value, values) {
      assert x in ordered;
    }
    assert forall k :: 0 <= k < |ordered| ==> ordered[k] in values;
  }

  lemma SingleRank(values: seq<Item>)
    requires |values| == 1
    ensures Rank(values[0].value, values) == 0.5
  {
  }

  lemma SortedPairsStayDistinct(values: seq<Item>)
    requires DistinctPairs(values)
    ensures DistinctPairs(Sort(ByValue, values))
  {
    hide ByValue;
    SortHasSameElements(ByValue, values);
    SortKeepsNoRepeats(ByValue, values);
    var ordered := Sort(ByValue, values);
    forall i, j | 0 <= i < j < |ordered| ensures ordered[i].pair != ordered[j].pair {
      assert ordered[i] in values && ordered[j] in values;
    }
  }

  // ---------------------------------------------------------------- what the ranks mean

  lemma RanksIgnoreOrder(a: seq<Item>, b: seq<Item>)
    requires multiset(a) == multiset(b)
    ensures forall v :: Rank(v, a) == Rank(v, b)
  {
    assert |a| == |multiset(a)| == |multiset(b)| == |b|;
    forall v ensures Rank(v, a) == Rank(v, b) { CountsIgnoreOrder(v, a, b); }
  }

  /** Ranks of members lie in the unit interval. */
  lemma RankIsUnit(s: seq<Item>, x: Item)
    requires x in s
    ensures 0.0 <= Rank(x.value, s) <= 1.0
  {
    if |s| > 1 {
      StandingCounts(x.value, s);
      var top := Below(x.value, s) as real + (Equal(x.value, s) as real - 1.0) / 2.0;
      UnitQuotient(top, (|s| - 1) as real);
    }
  }

  lemma UnitQuotient(a: real, b: real)
    requires 0.0 <= a <= b && 0.0 < b
    ensures 0.0 <= a / b <= 1.0
  {
  }

  lemma {:induction false} StandingGrows(v: real, w: real, s: seq<Item>)
    requires v < w
    ensures Below(v, s) + Equal(v, s) <= Below(w, s)
  {
    if s != [] { StandingGrows(v, w, s[1..]); }
  }

  /** A member with a larger value has a strictly larger rank; equal values share a rank. */
  lemma RankPreservesOrder(s: seq<Item>, x: Item, y: Item)
    requires x in s && y in s
    ensures x.value < y.value <==> Rank(x.value, s) < Rank(y.value, s)
  {
    if x.value < y.value {
      RankIsStrict(s, x, y);
    } else if y.value < x.value {
      RankIsStrict(s, y, x);
    }
  }

  lemma RankIsStrict(s: seq<Item>, x: Item, y: Item)
    requires x in s && y in s && x.value < y.value
    ensures Rank(x.value, s) < Rank(y.value, s)
  {
    StandingGrows(x.value, y.value, s);
    StandingCounts(x.value, s);
    StandingCounts(y.value, s);
    assert |s| > 1;
    var a := Below(x.value, s) as real + (Equal(x.value, s) as real - 1.0) / 2.0;
    var b := Below(y.value, s) as real + (Equal(y.value, s) as real - 1.0) / 2.0;
    StrictQuotient(a, b, (|s| - 1) as real);
  }

  lemma StrictQuotient(a: real, b: real, n: real)
    requires a < b && 0.0 < n
    ensures a / n < b / n
  {
    assert b / n - a / n == (b - a) / n;
  }

  // ---------------------------------------------------------------- the ranks of a cohort average one half

  function TotalStanding(members: seq<Item>, s: seq<Item>): real {
    if members == [] then 0.0 else Standing(members[0].value, s) + TotalStanding(members[1..], s)
  }

  /** Adding one opponent gives every member what that opponent does not take. */
  lemma {:induction false} OpponentSplits(members: seq<Item>, x: Item, s: seq<Item>)
    ensures TotalStanding(members, [x] + s) + Standing(x.value, members) ==
            TotalStanding(members, s) + |members| as real
  {
    if members != [] {
      OpponentSplits(members[1..], x, s);
      assert ([x] + s)[1..] == s;
    }
  }

  lemma {:induction false} StandingsSumToHalfTheSquare(s: seq<Item>)
    ensures TotalStanding(s, s) == |s| as real * |s| as real / 2.0
  {
    if s != [] {
      var x, rest := s[0], s[1..];
      StandingsSumToHalfTheSquare(rest);
      OpponentSplits(rest, x, rest);
      assert s == [x] + rest;
      var m := |rest| as real;
      assert |s| as real == m + 1.0;
      assert TotalStanding(s, s) == Standing(x.value, s) + TotalStanding(rest, s);
      assert Standing(x.value, s) == 0.5 + Standing(x.value, rest);
      assert (m + 1.0) * (m + 1.0) / 2.0 == m * m / 2.0 + m + 0.5;
    }
  }

  function TotalRank(members: seq<Item>, s: seq<Item>): real {
    if members == [] then 0.0 else Rank(members[0].value, s) + TotalRank(members[1..], s)
  }

  lemma {:induction false} RanksAreStandings(members: seq<Item>, s: seq<Item>)
    requires |s| > 1
    ensures TotalRank(members, s) == (TotalStanding(members, s) - |members| as real / 2.0) / (|s| - 1) as real
  {
    var n := (|s| - 1) as real;
    if members == [] {
      assert (0.0 - 0.0 / 2.0) / n == 0.0;
    } else {
      RanksAreStandings(members[1..], s);
      var v := members[0].value;
      StandingCounts(v, s);
      assert Rank(v, s) == (Standing(v, s) - 0.5) / n;
      QuotientsAdd(Standing(v, s) - 0.5, TotalStanding(members[1..], s) - |members[1..]| as real / 2.0, n);
    }
  }

  lemma QuotientsAdd(a: real, b: real, n: real)
    requires n != 0.0
    ensures a / n + b / n == (a + b) / n
  {
  }

  /** The ranks of any cohort sum to half its size. */
  lemma RanksSumToHalf(s: seq<Item>)
    ensures TotalRank(s, s) == |s| as real / 2.0
  {
    if |s| == 1 {
      assert s[1..] == [];
    } else if |s| > 1 {
      RanksAreStandings(s, s);
      StandingsSumToHalfTheSquare(s);
      var n := |s| as real;
      HalfSquare(n);
    }
  }

  lemma HalfSquare(n: real)
    requires n > 1.0
    ensures (n * n / 2.0 - n / 2.0) / (n - 1.0) == n / 2.0
  {
    ExactQuotient(n * n / 2.0 - n / 2.0, n / 2.0, n - 1.0);
  }

  lemma ExactQuotient(x: real, y: real, d: real)
    requires d != 0.0 && x == y * d
    ensures x / d == y
  {
  }

  // ---------------------------------------------------------------- calm-pullback scores

  datatype Weights = Weights(momentum1h: real, momentum4h: real, momentum24h: real, volatility: real) {
    function Total(): real { momentum1h + momentum4h + momentum24h + volatility }
  }

  datatype Member = Member(pair: string, momentum1h: real, momentum4h: real, momentum24h: real, volatility: real)

  datatype Field = OneHour | FourHours | OneDay | Calmness

  function Read(m: Member, field: Field): real {
    match field
    case OneHour => m.momentum1h
    case FourHours => m.momentum4h
    case OneDay => m.momentum24h
    case Calmness => m.volatility
  }

  function Column(s: seq<Member>, field: Field): (r: seq<Item>)
    ensures |r| == |s|
  {
    if s == [] then [] else [Item(s[0].pair, Read(s[0], field))] + Column(s[1..], field)
  }

  function Blend(w: Weights, a: real, b: real, c: real, d: real): real {
    w.momentum1h * a + w.momentum4h * b + w.momentum24h * c + w.volatility * d
  }

  function RawScore(w: Weights, m: Member, cohort: seq<Member>): real {
    Blend(w, 1.0 - Rank(m.momentum1h, Column(cohort, OneHour)), 1.0 - Rank(m.momentum4h, Column(cohort, FourHours)),
          1.0 - Rank(m.momentum24h, Column(cohort, OneDay)), 1.0 - Rank(m.volatility, Column(cohort, Calmness)))
  }

  function TotalScore(w: Weights, members: seq<Member>, cohort: seq<Member>): real {
    if members == [] then 0.0 else RawScore(w, members[0], cohort) + TotalScore(w, members[1..], cohort)
  }

  lemma BlendAdds(w: Weights, a: real, b: real, c: real, d: real, a': real, b': real, c': real, d': real)
    ensures Blend(w, a, b, c, d) + Blend(w, a', b', c', d') == Blend(w, a + a', b + b', c + c', d + d')
    ensures Blend(w, 0.0, 0.0, 0.0, 0.0) == 0.0
  {
  }

  function Missing(members: seq<Member>, cohort: seq<Member>, field: Field): real {
    |members| as real - TotalRank(Column(members, field), Column(cohort, field))
  }

  lemma MissingStep(members: seq<Member>, cohort: seq<Member>, field: Field)
    requires members != []
    ensures Missing(members, cohort, field) ==
      1.0 - Rank(Read(members[0], field), Column(cohort, field)) + Missing(members[1..], cohort, field)
  {
    TotalRankStep(members, cohort, field);
    assert |members| as real == |members[1..]| as real + 1.0;
  }

  lemma {:induction false} ScoresByColumn(w: Weights, members: seq<Member>, cohort: seq<Member>)
    ensures TotalScore(w, members, cohort) == Blend(w, Missing(members, cohort, OneHour), Missing(members, cohort, FourHours),
      Missing(members, cohort, OneDay), Missing(members, cohort, Calmness))
    decreases |members|
  {
    BlendAdds(w, 0.0, 0.0, 0.0, 0.0, 0.0, 0.0, 0.0, 0.0);
    if members == [] {
      hide Rank, Blend;
    } else {
      var m, rest := members[0], members[1..];
      MissingStep(members, cohort, OneHour);
      MissingStep(members, cohort, FourHours);
      MissingStep(members, cohort, OneDay);
      MissingStep(members, cohort, Calmness);
      ScoresByColumn(w, rest, cohort);
      hide Rank, Blend, Missing, Column;
      BlendAdds(w, 1.0 - Rank(m.momentum1h, Column(cohort, OneHour)), 1.0 - Rank(m.momentum4h, Column(cohort, FourHours)),
        1.0 - Rank(m.momentum24h, Column(cohort, OneDay)), 1.0 - Rank(m.volatility, Column(cohort, Calmness)),
        Missing(rest, cohort, OneHour), Missing(rest, cohort, FourHours), Missing(rest, cohort, OneDay),
        Missing(rest, cohort, Calmness));
    }
  }

  lemma TotalRankStep(members: seq<Member>, cohort: seq<Member>, field: Field)
    requires members != []
    ensures TotalRank(Column(members, field), Column(cohort, field)) ==
      Rank(Read(members[0], field), Column(cohort, field)) + TotalRank(Column(members[1..], field), Column(cohort, field))
  {
    hide Rank;
    assert Column(members, field)[1..] == Column(members[1..], field);
  }

  /** Whatever the market looks like, the raw scores of the scored cohort sum to half the weight sum per member. */
  lemma ScoresAverageHalfTheWeights(w: Weights, cohort: seq<Member>)
    ensures TotalScore(w, cohort, cohort) == w.Total() * |cohort| as real / 2.0
  {
    hide Rank, TotalRank;
    ScoresByColumn(w, cohort, cohort);
    RanksSumToHalf(Column(cohort, OneHour));
    RanksSumToHalf(Column(cohort, FourHours));
    RanksSumToHalf(Column(cohort, OneDay));
    RanksSumToHalf(Column(cohort, Calmness));
    hide Blend, Column;
    HalfOfEach(w, |cohort| as real);
  }

  lemma HalfOfEach(w: Weights, n: real)
    ensures Blend(w, n - n / 2.0, n - n / 2.0, n - n / 2.0, n - n / 2.0) == w.Total() * n / 2.0
  {
  }
}
