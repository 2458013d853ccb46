/** Score penalty and prior confirmations of a candidate (dynamic_paper_rebalance.py, _with_score_evidence, _prior_confirmation_counts). */
module Evidence {
  import opened Wrappers
  import opened Reals

  // ---------------------------------------------------------------- the penalty of extreme scores

  /** The configuration keeps the threshold below one and the penalty non-negative. */
  datatype Penalty = Penalty(threshold: real, maximum: real)

  function Square(x: real): real { x * x }

  function Excess(p: Penalty, raw: real): real
    requires p.threshold < 1.0
  {
    Min(1.0, (raw - p.threshold) / (1.0 - p.threshold))
  }

  function PenaltyOf(p: Option<Penalty>, raw: real): real
    requires p.Some? ==> p.value.threshold < 1.0
  {
    if p.Some? && raw > p.value.threshold then p.value.maximum * Square(Excess(p.value, raw)) else 0.0
  }

  function Score(p: Option<Penalty>, raw: real): real
    requires p.Some? ==> p.value.threshold < 1.0
  {
    if p.Some? && raw > p.value.threshold then Max(0.0, raw - PenaltyOf(p, raw)) else raw
  }

  /** The score with the excess written as a share of the distance to one. */
  function Curve(width: real, maximum: real, e: real): real {
    width * e - maximum * Square(e)
  }

  function Slope(width: real, maximum: real, a: real, b: real): real {
    width - maximum * (a + b)
  }

  /** Between two points the curve rises or falls with the slope of their chord. */
  lemma CurveFollowsSlope(width: real, maximum: real, a: real, b: real)
    requires a < b
    ensures if Slope(width, maximum, a, b) >= 0.0 then Curve(width, maximum, b) >= Curve(width, maximum, a)
            else Curve(width, maximum, b) <= Curve(width, maximum, a)
  {
    var slope := Slope(width, maximum, a, b);
    assert Curve(width, maximum, b) - Curve(width, maximum, a) == (b - a) * slope;
    if slope >= 0.0 { ProductNonNegative(b - a, slope); } else { ProductNonNegative(b - a, -slope); }
  }

  lemma SlopeFalls(width: real, maximum: real, a: real, b: real, c: real)
    requires maximum >= 0.0 && a < b < c
    ensures Slope(width, maximum, a, b) >= Slope(width, maximum, b, c)
  {
    ProductMonotone(a + b, b + c, maximum);
  }

  /** A parabola open below has no valley. */
  lemma CurveHasNoValley(width: real, maximum: real, a: real, b: real, c: real)
    requires maximum >= 0.0 && a < b < c
    ensures Curve(width, maximum, b) >= Min(Curve(width, maximum, a), Curve(width, maximum, c))
  {
    hide Curve, Slope;
    SlopeFalls(width, maximum, a, b, c);
    CurveFollowsSlope(width, maximum, a, b);
    CurveFollowsSlope(width, maximum, b, c);
  }

  lemma ExcessIsShare(p: Penalty, raw: real)
    requires p.threshold < 1.0 && p.threshold < raw <= 1.0
    ensures 0.0 < Excess(p, raw) <= 1.0 && raw == p.threshold + (1.0 - p.threshold) * Excess(p, raw)
  {
    var width := 1.0 - p.threshold;
    QuotientTimes(raw - p.threshold, width);
    var e := (raw - p.threshold) / width;
    if e > 1.0 { ProductStrict(1.0, e, width); }
    assert e > 0.0;
  }

  lemma ScoreOnCurve(p: Penalty, raw: real)
    requires p.threshold < 1.0 && p.threshold < raw <= 1.0
    ensures Score(Some(p), raw) == Max(0.0, p.threshold + Curve(1.0 - p.threshold, p.maximum, Excess(p, raw)))
  {
    ExcessIsShare(p, raw);
    hide Excess, Square;
  }

  lemma SharesAreOrdered(threshold: real, width: real, a: real, b: real, x: real, y: real)
    requires width > 0.0 && x == threshold + width * a && y == threshold + width * b && x < y
    ensures a < b
  {
    if a >= b { ProductMonotone(b, a, width); }
  }

  lemma ExcessGrows(p: Penalty, x: real, y: real)
    requires p.threshold < 1.0 && p.threshold < x < y <= 1.0
    ensures Excess(p, x) < Excess(p, y)
  {
    ExcessIsShare(p, x);
    ExcessIsShare(p, y);
    hide Excess;
    SharesAreOrdered(p.threshold, 1.0 - p.threshold, Excess(p, x), Excess(p, y), x, y);
  }

  lemma NoValleyAbove(p: Penalty, floor: real, x: real, y: real, z: real, e: real)
    requires 0.0 <= p.threshold < 1.0 && p.maximum >= 0.0 && p.threshold < y < z <= 1.0
    requires 0.0 <= e < Excess(p, y) && floor == Max(0.0, p.threshold + Curve(1.0 - p.threshold, p.maximum, e)) && x <= floor
    ensures Score(Some(p), y) >= Min(x, Score(Some(p), z))
  {
    ScoreOnCurve(p, y);
    ScoreOnCurve(p, z);
    ExcessGrows(p, y, z);
    CurveHasNoValley(1.0 - p.threshold, p.maximum, e, Excess(p, y), Excess(p, z));
    hide Score, Excess, Curve;
  }

  /** On the unit interval the penalized score rises to one peak and falls after it. */
  lemma ScoreHasOnePeak(p: Penalty, x: real, y: real, z: real)
    requires 0.0 <= p.threshold < 1.0 && p.maximum >= 0.0 && 0.0 <= x < y < z <= 1.0
    ensures Score(Some(p), y) >= Min(Score(Some(p), x), Score(Some(p), z))
  {
    if y > p.threshold {
      ExcessIsShare(p, y);
      assert Curve(1.0 - p.threshold, p.maximum, 0.0) == 0.0;
      if x > p.threshold {
        ExcessIsShare(p, x);
        ExcessGrows(p, x, y);
        ScoreOnCurve(p, x);
        hide Score, Excess, Curve;
        NoValleyAbove(p, Score(Some(p), x), Score(Some(p), x), y, z, Excess(p, x));
      } else {
        hide Excess, Curve;
        NoValleyAbove(p, p.threshold, x, y, z, 0.0);
      }
    }
  }

  /** The penalty never lifts a score, never exceeds its maximum and never makes a score negative. */
  lemma PenaltyIsBounded(p: Penalty, raw: real)
    requires 0.0 <= p.threshold < 1.0 && p.maximum >= 0.0 && 0.0 <= raw <= 1.0
    ensures 0.0 <= PenaltyOf(Some(p), raw) <= p.maximum
    ensures 0.0 <= Score(Some(p), raw) <= raw
  {
    if raw > p.threshold {
      ExcessIsShare(p, raw);
      var e := Excess(p, raw);
      SquareIsShare(e);
      ProductNonNegative(p.maximum, Square(e));
      ProductMonotone(Square(e), 1.0, p.maximum);
      hide Excess, Square;
    }
  }

  lemma SquareIsShare(e: real)
    requires 0.0 <= e <= 1.0
    ensures 0.0 <= Square(e) <= 1.0
  {
    ProductMonotone(e, 1.0, e);
    ProductNonNegative(e, e);
    assert e * e <= 1.0 * e;
  }

  // ---------------------------------------------------------------- scores beyond one

  /** Between two raw scores the penalized score is nowhere below both ends. */
  ghost predicate NoValley(p: Penalty, top: real)
    requires p.threshold < 1.0
  {
    forall x, y, z :: 0.0 <= x < y < z <= top ==> Score(Some(p), y) >= Min(Score(Some(p), x), Score(Some(p), z))
  }

  lemma QuotientIs(a: real, b: real, q: real)
    requires b > 0.0 && a == q * b
    ensures a / b == q
  {
    QuotientTimes(a, b);
    var r := a / b;
    if r < q { ProductStrict(r, q, b); } else if r > q { ProductStrict(q, r, b); }
  }

  lemma QuotientAtLeastOne(a: real, b: real)
    requires a >= b > 0.0
    ensures a / b >= 1.0
  {
    QuotientTimes(a, b);
    var r := a / b;
    if r < 1.0 { ProductStrict(r, 1.0, b); }
  }

  lemma BeyondOne(p: Penalty, raw: real)
    requires 0.0 <= p.threshold < 1.0 && 0.0 <= p.maximum <= 1.0 && raw >= 1.0
    ensures Score(Some(p), raw) == raw - p.maximum
  {
    QuotientAtLeastOne(raw - p.threshold, 1.0 - p.threshold);
    assert Excess(p, raw) == 1.0;
    hide Excess;
  }

  lemma GentleSlope(width: real, maximum: real, a: real, b: real)
    requires 0.0 <= 2.0 * maximum <= width && 0.0 <= a < b <= 1.0
    ensures Curve(width, maximum, a) <= Curve(width, maximum, b)
  {
    ProductMonotone(a + b, 2.0, maximum);
    CurveFollowsSlope(width, maximum, a, b);
    hide Curve;
  }

  lemma GentleUpToOne(p: Penalty, x: real, y: real)
    requires 0.0 <= p.threshold < 1.0 && 0.0 <= 2.0 * p.maximum <= 1.0 - p.threshold && 0.0 <= x < y <= 1.0
    ensures Score(Some(p), x) <= Score(Some(p), y)
  {
    if y > p.threshold {
      var width := 1.0 - p.threshold;
      ExcessIsShare(p, y);
      ScoreOnCurve(p, y);
      if x > p.threshold {
        ExcessIsShare(p, x);
        ScoreOnCurve(p, x);
        ExcessGrows(p, x, y);
        GentleSlope(width, p.maximum, Excess(p, x), Excess(p, y));
        hide Score, Excess, Curve;
      } else {
        assert Curve(width, p.maximum, 0.0) == 0.0;
        GentleSlope(width, p.maximum, 0.0, Excess(p, y));
        hide Excess, Curve;
      }
    }
  }

  /** A penalty of at most half the distance from its threshold to one never reverses the order of two scores. */
  lemma GentlePenaltyKeepsOrder(p: Penalty, x: real, y: real)
    requires 0.0 <= p.threshold < 1.0 && 0.0 <= 2.0 * p.maximum <= 1.0 - p.threshold && 0.0 <= x < y
    ensures Score(Some(p), x) <= Score(Some(p), y)
  {
    hide Score;
    if y <= 1.0 {
      GentleUpToOne(p, x, y);
    } else {
      BeyondOne(p, y);
      if x < 1.0 {
        GentleUpToOne(p, x, 1.0);
        BeyondOne(p, 1.0);
      } else {
        BeyondOne(p, x);
      }
    }
  }

  /** A share at which a steep penalty has not yet brought the curve down to where it ends. */
  lemma HigherShare(width: real, maximum: real) returns (e: real)
    requires 0.0 < width < 2.0 * maximum
    ensures 0.0 < e < 1.0 && Curve(width, maximum, e) > Curve(width, maximum, 1.0)
  {
    var ratio := width / maximum;
    QuotientTimes(width, maximum);
    if ratio >= 2.0 { ProductMonotone(2.0, ratio, maximum); }
    if ratio <= 0.0 { ProductMonotone(ratio, 0.0, maximum); }
    e := (1.0 + Max(0.0, ratio - 1.0)) / 2.0;
    ProductStrict(ratio, 1.0 + e, maximum);
    assert maximum * (1.0 + e) - width > 0.0;
    assert Curve(width, maximum, e) - Curve(width, maximum, 1.0) == (1.0 - e) * (maximum * (1.0 + e) - width);
    ProductStrict(0.0, maximum * (1.0 + e) - width, 1.0 - e);
  }

  lemma ShareIsExcess(p: Penalty, x: real, e: real)
    requires 0.0 <= p.threshold < 1.0 && 0.0 < e < 1.0 && x == p.threshold + e * (1.0 - p.threshold)
    ensures p.threshold < x < 1.0 && Excess(p, x) == e
  {
    var width := 1.0 - p.threshold;
    ProductStrict(0.0, e, width);
    ProductStrict(e, 1.0, width);
    assert x < p.threshold + 1.0 * width == 1.0;
    QuotientIs(x - p.threshold, width, e);
  }

  /** At a share above the end of the curve the score is above the score at one. */
  lemma HigherThanAtOne(p: Penalty, x: real)
    requires 0.0 <= p.threshold < 1.0 && p.threshold < x < 1.0
    requires Curve(1.0 - p.threshold, p.maximum, Excess(p, x)) > Curve(1.0 - p.threshold, p.maximum, 1.0)
    ensures Score(Some(p), x) > 1.0 - p.maximum
  {
    ScoreOnCurve(p, x);
    hide Score, Excess;
  }

  lemma IsValley(p: Penalty, x: real, y: real, z: real)
    requires p.threshold < 1.0 && 0.0 <= x < y < z
    requires Score(Some(p), y) < Score(Some(p), x) && Score(Some(p), y) < Score(Some(p), z)
    ensures !NoValley(p, z)
  {
    hide Score;
  }

  lemma SteepPenaltyHasValley(p: Penalty, top: real)
    requires 0.0 <= p.threshold < 1.0 && 1.0 - p.threshold < 2.0 * p.maximum <= 2.0 && top > 1.0
    ensures !NoValley(p, top)
  {
    var width := 1.0 - p.threshold;
    hide Score, Excess, Curve, NoValley;
    var e := HigherShare(width, p.maximum);
    var x := p.threshold + e * width;
    ShareIsExcess(p, x, e);
    HigherThanAtOne(p, x);
    BeyondOne(p, 1.0);
    BeyondOne(p, top);
    IsValley(p, x, 1.0, top);
  }

  /** Up to a highest raw score there is a single peak iff that score is at most one or the penalty is gentle. */
  lemma SinglePeakIff(p: Penalty, top: real)
    requires 0.0 <= p.threshold < 1.0 && 0.0 <= p.maximum <= 1.0
    ensures NoValley(p, top) <==> top <= 1.0 || 2.0 * p.maximum <= 1.0 - p.threshold
  {
    if top <= 1.0 {
      forall x, y, z | 0.0 <= x < y < z <= top ensures Score(Some(p), y) >= Min(Score(Some(p), x), Score(Some(p), z)) {
        ScoreHasOnePeak(p, x, y, z);
      }
    } else if 2.0 * p.maximum <= 1.0 - p.threshold {
      forall x, y, z | 0.0 <= x < y < z <= top ensures Score(Some(p), y) >= Min(Score(Some(p), x), Score(Some(p), z)) {
        GentlePenaltyKeepsOrder(p, x, y);
      }
    } else {
      SteepPenaltyHasValley(p, top);
    }
  }

  // ---------------------------------------------------------------- prior confirmations

  /** How many of the newest cohorts a pair passed without a break. */
  function LeadingRun(records: seq<set<string>>, pair: string): (n: nat)
    ensures n <= |records|
    ensures forall k :: 0 <= k < n ==> pair in records[k]
    ensures n < |records| ==> pair !in records[n]
    decreases |records|
  {
    if records == [] || pair !in records[0] then 0 else 1 + LeadingRun(records[1..], pair)
  }

  lemma {:induction false} LeadingRunOneMore(records: seq<set<string>>, pair: string, last: set<string>)
    ensures LeadingRun(records + [last], pair) ==
      LeadingRun(records, pair) + if LeadingRun(records, pair) == |records| && pair in last then 1 else 0
    decreases |records|
  {
    if records != [] {
      assert (records + [last])[1..] == records[1..] + [last];
      LeadingRunOneMore(records[1..], pair, last);
    } else {
      assert records + [last] == [last];
    }
  }

  /** The table holds the leading run of every pair that has one. */
  ghost predicate CountsRuns(records: seq<set<string>>, counts: map<string, nat>) {
    forall pair ::
      && (pair in counts <==> LeadingRun(records, pair) > 0)
      && (pair in counts ==> counts[pair] == LeadingRun(records, pair))
  }

  ghost predicate StillConfirmed(records: seq<set<string>>, confirmed: set<string>) {
    forall pair :: pair in confirmed <==> LeadingRun(records, pair) == |records|
  }

  function Increased(counts: map<string, nat>, confirmed: set<string>): map<string, nat> {
    map pair | pair in counts.Keys + confirmed ::
      (if pair in counts then counts[pair] else 0) + (if pair in confirmed then 1 else 0)
  }

  lemma OneMoreRecord(records: seq<set<string>>, last: set<string>, counts: map<string, nat>, confirmed: set<string>)
    requires CountsRuns(records, counts)
    requires forall pair :: pair in confirmed <==> LeadingRun(records, pair) == |records| && pair in last
    ensures CountsRuns(records + [last], Increased(counts, confirmed)) && StillConfirmed(records + [last], confirmed)
  {
    hide LeadingRun;
    var after := Increased(counts, confirmed);
    forall pair
      ensures pair in after <==> LeadingRun(records + [last], pair) > 0
      ensures pair in after ==> after[pair] == LeadingRun(records + [last], pair)
      ensures pair in confirmed <==> LeadingRun(records + [last], pair) == |records + [last]|
    {
      LeadingRunOneMore(records, pair, last);
    }
  }

  /**
   * Walks over the newest cohorts with the pairs confirmed in all of them so far. `records` are the passing pairs
   * of the decisions of this strategy version, newest first.
   */
  method PriorConfirmationCounts(records: seq<set<string>>, required: int) returns (counts: map<string, nat>)
    ensures CountsRuns(Seen(records, required), counts)
  {
    counts := map[];
    var seen := Seen(records, required);
    assert CountsRuns([], counts);
    if seen == [] { return; }
    var confirmed := seen[0];
    counts := Increased(counts, confirmed);
    OneMoreRecord([], seen[0], map[], confirmed);
    assert [] + [seen[0]] == seen[..1];
    for n := 1 to |seen|
      invariant CountsRuns(seen[..n], counts) && StillConfirmed(seen[..n], confirmed)
    {
      confirmed := confirmed * seen[n];
      OneMoreRecord(seen[..n], seen[n], counts, confirmed);
      hide CountsRuns, StillConfirmed, LeadingRun;
      assert seen[..n + 1] == seen[..n] + [seen[n]];
      counts := Increased(counts, confirmed);
    }
    assert seen[..|seen|] == seen;
  }

  /** The cohorts that can confirm an entry: one fewer than required, as far as there are that many. */
  function Seen(records: seq<set<string>>, required: int): seq<set<string>> {
    var prior := if required <= 1 then 0 else required - 1;
    records[..if prior < |records| then prior else |records|]
  }

  /** A pair has all the prior confirmations exactly when it passed each of that many newest cohorts. */
  lemma ConfirmedIffPassedEveryTime(records: seq<set<string>>, required: int, pair: string)
    requires required > 1
    ensures LeadingRun(Seen(records, required), pair) >= required - 1 <==>
        |records| >= required - 1 && forall k :: 0 <= k < required - 1 ==> pair in records[k]
  {
    var seen := Seen(records, required);
    var n := LeadingRun(seen, pair);
    assert forall k :: 0 <= k < |seen| ==> seen[k] == records[k];
    if n < |seen| { assert pair !in records[n]; }
  }
}
