/** The running-peak drawdown (observation/service.py, _max_drawdown; core/labels/forward.py, _forward_max_drawdown). */
module Drawdown {
  import opened Reals

  function Fall(value: real, peak: real): real
    requires peak != 0.0
  {
    value / peak - 1.0
  }

  /** The fall from an earlier (or the same) positive value to a later one. */
  ghost predicate IsFall(values: seq<real>, d: real) {
    exists i, j :: 0 <= i <= j < |values| && values[i] > 0.0 && d == Fall(values[j], values[i])
  }

  /** The least fall over all ordered pairs, or zero when no value is positive. */
  ghost predicate IsMaxDrawdown(values: seq<real>, d: real) {
    && d <= 0.0
    && (d == 0.0 || IsFall(values, d))
    && forall i, j :: 0 <= i <= j < |values| && values[i] > 0.0 ==> d <= Fall(values[j], values[i])
  }

  lemma HigherPeakFallsFurther(value: real, peak: real, higher: real)
    requires value >= 0.0 && 0.0 < peak <= higher
    ensures Fall(value, higher) <= Fall(value, peak)
  {
    var a, b := value / higher, value / peak;
    QuotientTimes(value, higher);
    QuotientTimes(value, peak);
    if a > b {
      ProductMonotone(peak, higher, a);
      ProductStrict(b, a, peak);
    }
  }

  ghost predicate IsPeak(values: seq<real>, peak: real) {
    && (peak == 0.0 || peak in values)
    && peak >= 0.0 && forall v <- values :: v <= peak
  }

  lemma PeakOfOneMore(values: seq<real>, value: real, peak: real)
    requires IsPeak(values, peak)
    ensures IsPeak(values + [value], Max(peak, value))
  {
    assert value in values + [value] && forall v <- values :: v in values + [value];
  }

  /** The new drawdown is below every fall of the longer sequence. */
  lemma BelowEveryFall(values: seq<real>, value: real, d: real, newPeak: real, newD: real, i: nat, j: nat)
    requires value >= 0.0 && IsPeak(values + [value], newPeak) && IsMaxDrawdown(values, d)
    requires newPeak != 0.0 && newD == Min(d, Fall(value, newPeak))
    requires i <= j <= |values| && (values + [value])[i] > 0.0
    ensures newD <= Fall((values + [value])[j], (values + [value])[i])
  {
    var all := values + [value];
    hide Fall;
    if j == |values| {
      assert all[i] in all;
      HigherPeakFallsFurther(value, all[i], newPeak);
    } else {
      assert all[i] == values[i] && all[j] == values[j];
    }
  }

  /** The new drawdown is one of the falls, if it is not zero. */
  lemma OneOfTheFalls(values: seq<real>, value: real, d: real, newPeak: real, newD: real)
    requires IsPeak(values + [value], newPeak) && IsMaxDrawdown(values, d)
    requires newPeak != 0.0 && newD == Min(d, Fall(value, newPeak)) && newD != 0.0
    ensures IsFall(values + [value], newD)
  {
    var all := values + [value];
    hide Fall;
    if newD == d {
      var i, j :| 0 <= i <= j < |values| && values[i] > 0.0 && d == Fall(values[j], values[i]);
      assert all[i] == values[i] && all[j] == values[j];
    } else {
      var k :| 0 <= k < |all| && all[k] == newPeak;
      assert all[|values|] == value;
    }
  }

  lemma OneMoreValue(values: seq<real>, value: real, peak: real, d: real, newPeak: real, newD: real)
    requires value >= 0.0 && IsPeak(values, peak) && IsMaxDrawdown(values, d)
    requires newPeak == Max(peak, value)
    requires newD == if newPeak != 0.0 then Min(d, Fall(value, newPeak)) else d
    ensures IsPeak(values + [value], newPeak) && IsMaxDrawdown(values + [value], newD)
  {
    var all := values + [value];
    PeakOfOneMore(values, value, peak);
    if newPeak != 0.0 {
      forall i, j | 0 <= i <= j < |all| && all[i] > 0.0 ensures newD <= Fall(all[j], all[i]) {
        BelowEveryFall(values, value, d, newPeak, newD, i, j);
      }
      if newD != 0.0 { OneOfTheFalls(values, value, d, newPeak, newD); }
      hide Fall, IsFall;
    } else {
      assert forall i :: 0 <= i < |all| ==> all[i] in all && all[i] <= 0.0;
      assert forall i :: 0 <= i < |values| ==> values[i] == all[i];
      assert d == 0.0;
    }
  }

  /** The highest value so far, or zero. */
  function Peak(values: seq<real>): real
    decreases |values|
  {
    if values == [] then 0.0 else Max(Peak(values[..|values| - 1]), values[|values| - 1])
  }

  /** The least fall from the peak of its time. */
  function RunningDrawdown(values: seq<real>): real
    decreases |values|
  {
    if values == [] then 0.0 else
      var before := RunningDrawdown(values[..|values| - 1]);
      if Peak(values) != 0.0 then Min(before, Fall(values[|values| - 1], Peak(values))) else before
  }

  method MaxDrawdown(values: seq<real>) returns (drawdown: real)
    ensures drawdown == RunningDrawdown(values)
  {
    var peak := 0.0;
    drawdown := 0.0;
    for n := 0 to |values|
      invariant peak == Peak(values[..n]) && drawdown == RunningDrawdown(values[..n])
    {
      assert values[..n + 1][..n] == values[..n];
      peak := Max(peak, values[n]);
      if peak != 0.0 { drawdown := Min(drawdown, Fall(values[n], peak)); }
    }
    assert values[..|values|] == values;
  }

  /** For values that are not negative the running peak finds the least fall over all ordered pairs. */
  lemma {:induction false} RunningIsMaxDrawdown(values: seq<real>)
    requires forall v <- values :: v >= 0.0
    ensures IsPeak(values, Peak(values)) && IsMaxDrawdown(values, RunningDrawdown(values))
    decreases |values|
  {
    if values != [] {
      var n := |values| - 1;
      SliceMembers(values, 0, n);
      assert values[n] in values && values[..n] == values[0..n];
      RunningIsMaxDrawdown(values[..n]);
      assert values == values[..n] + [values[n]];
      hide IsPeak, IsMaxDrawdown, Fall;
      OneMoreValue(values[..n], values[n], Peak(values[..n]), RunningDrawdown(values[..n]), Peak(values), RunningDrawdown(values));
    }
  }

  /** A negative value falls further from a lower peak, which the running peak has forgotten. */
  lemma NegativeValueIsMissed(value: real)
    requires value < 0.0
    ensures !IsMaxDrawdown([1.0, 2.0, value], RunningDrawdown([1.0, 2.0, value]))
  {
    var values, two, one := [1.0, 2.0, value], [1.0, 2.0], [1.0];
    assert values[..2] == two && two[..1] == one && one[..0] == [];
    assert Peak(one) == 1.0 && RunningDrawdown(one) == 0.0;
    assert Peak(two) == 2.0 && RunningDrawdown(two) == 0.0;
    assert RunningDrawdown(values) == value / 2.0 - 1.0;
    assert Fall(values[2], values[0]) == value - 1.0;
  }

  /** The running peak is right on all values from a floor up if and only if the floor is not negative. */
  lemma RunningPeakIsExactIff(floor: real)
    ensures floor >= 0.0 <==>
      forall values: seq<real> :: (forall v <- values :: v >= floor) ==> IsMaxDrawdown(values, RunningDrawdown(values))
  {
    hide IsMaxDrawdown;
    if floor >= 0.0 {
      forall values: seq<real> | forall v <- values :: v >= floor ensures IsMaxDrawdown(values, RunningDrawdown(values)) {
        RunningIsMaxDrawdown(values);
      }
    } else {
      NegativeValueIsMissed(floor);
      assert forall v <- [1.0, 2.0, floor] :: v >= floor;
    }
  }

  lemma SliceMembers(values: seq<real>, a: nat, b: nat)
    requires a <= b <= |values|
    ensures forall v <- values[a..b] :: v in values
  {
    forall v | v in values[a..b] ensures v in values {
      var m :| 0 <= m < b - a && values[a..b][m] == v;
      assert values[a + m] == v;
    }
  }

  /** The label of every index whose whole horizon lies inside the series. */
  method ForwardMaxDrawdown(values: seq<real>, horizon: nat) returns (labels: seq<real>)
    requires forall v <- values :: v > 0.0
    ensures |labels| == if |values| <= horizon then 0 else |values| - horizon
    ensures forall k :: 0 <= k < |labels| ==> IsMaxDrawdown(values[k..k + horizon + 1], labels[k])
  {
    labels := [];
    if |values| <= horizon { return; }
    for k := 0 to |values| - horizon
      invariant |labels| == k
      invariant forall m :: 0 <= m < k ==> IsMaxDrawdown(values[m..m + horizon + 1], labels[m])
    {
      hide IsMaxDrawdown;
      SliceMembers(values, k, k + horizon + 1);
      RunningIsMaxDrawdown(values[k..k + horizon + 1]);
      var d := MaxDrawdown(values[k..k + horizon + 1]);
      labels := labels + [d];
    }
  }

  lemma NoneIsLess(values: seq<real>, a: real, b: real)
    requires IsMaxDrawdown(values, a) && IsMaxDrawdown(values, b)
    ensures b <= a
  {
    if a != 0.0 {
      var i, j :| 0 <= i <= j < |values| && values[i] > 0.0 && a == Fall(values[j], values[i]);
      assert b <= Fall(values[j], values[i]);
    }
  }

  /** One number is the least fall: the running drawdown. */
  lemma RunningIsTheOnlyMaxDrawdown(values: seq<real>, d: real)
    requires forall v <- values :: v >= 0.0
    ensures IsMaxDrawdown(values, d) <==> d == RunningDrawdown(values)
  {
    RunningIsMaxDrawdown(values);
    hide IsMaxDrawdown;
    if IsMaxDrawdown(values, d) {
      NoneIsLess(values, d, RunningDrawdown(values));
      NoneIsLess(values, RunningDrawdown(values), d);
    }
  }
}
