/** Counting non-overlapping time blocks (research/signal_evaluator.py, _non_overlapping_blocks). */
module Blocks {
  ghost predicate Ascending(s: seq<int>) {
    forall i, j :: 0 <= i < j < |s| ==> s[i] < s[j]
  }

  datatype Greedy = Greedy(count: nat, end: int)

  /** The greedy rule on a prefix: a time starts a block when the last block has ended. */
  function Scan(times: seq<int>, width: int): Greedy {
    if times == [] then Greedy(0, 0) else
      var before := Scan(times[..|times| - 1], width);
      var current := times[|times| - 1];
      if before.count == 0 || current >= before.end then Greedy(before.count + 1, current + width) else before
  }

  method NonOverlappingBlocks(times: seq<int>, horizonMinutes: int) returns (count: nat)
    ensures count == Scan(times, horizonMinutes).count
  {
    count := 0;
    var blockEnd := 0;
    for i := 0 to |times|
      invariant Greedy(count, blockEnd) == Scan(times[..i], horizonMinutes)
    {
      assert times[..i + 1][..i] == times[..i];
      var current := times[i];
      if count == 0 || current >= blockEnd {
        count := count + 1;
        blockEnd := current + horizonMinutes;
      }
    }
    assert times[..|times|] == times;
  }

  /** A choice of times that are pairwise at least one horizon apart. */
  ghost predicate Separated(chosen: set<int>, width: int) {
    forall a, b :: a in chosen && b in chosen && a < b ==> b - a >= width
  }

  ghost predicate ChosenFrom(chosen: set<int>, times: seq<int>) {
    forall t <- chosen :: t in times
  }

  /**
   * No separated choice beats the greedy count, and one that reaches it does not finish before the last greedy
   * block starts.
   */
  lemma {:induction false} GreedyStaysAhead(times: seq<int>, width: int, chosen: set<int>)
    requires Ascending(times) && ChosenFrom(chosen, times) && Separated(chosen, width)
    ensures var g := Scan(times, width);
      && |chosen| <= g.count
      && (g.count > 0 && |chosen| == g.count ==> exists t <- chosen :: t >= g.end - width)
    decreases |times|
  {
    if times == [] {
      assert forall t :: t !in chosen;
      assert chosen == {};
    } else {
      var n := |times| - 1;
      var before, current := times[..n], times[n];
      var earlier := chosen - {current};
      forall t <- earlier ensures t in before {
        var k :| 0 <= k < |times| && times[k] == t;
      }
      GreedyStaysAhead(before, width, earlier);
      if current in chosen {
        assert |chosen| == |earlier| + 1;
        var b := Scan(before, width);
        if b.count > 0 && |earlier| == b.count {
          var t :| t in earlier && t >= b.end - width;
          var k :| 0 <= k < |before| && before[k] == t;
          assert t < current;
        }
        LastStartIsKnown(before, width);
      } else {
        assert chosen == earlier;
      }
    }
  }

  /** The last greedy block starts at one of the times. */
  lemma {:induction false} LastStartIsKnown(times: seq<int>, width: int)
    requires Ascending(times)
    ensures var g := Scan(times, width); g.count > 0 ==> g.end - width in times
    ensures times != [] ==> Scan(times, width).count > 0
  {
    if times != [] {
      LastStartIsKnown(times[..|times| - 1], width);
      assert times[|times| - 1] in times;
      forall t | t in times[..|times| - 1] ensures t in times {}
    }
  }

  /** The blocks the greedy rule starts. */
  ghost function Starts(times: seq<int>, width: int): set<int> {
    if times == [] then {} else
      var before := Scan(times[..|times| - 1], width);
      var current := times[|times| - 1];
      Starts(times[..|times| - 1], width) + (if before.count == 0 || current >= before.end then {current} else {})
  }

  /** The greedy blocks themselves are a separated choice of that size. */
  lemma {:induction false} GreedyIsAttained(times: seq<int>, width: int)
    requires Ascending(times)
    ensures var (s, g) := (Starts(times, width), Scan(times, width));
      && ChosenFrom(s, times) && Separated(s, width) && |s| == g.count
      && forall t <- s :: t + width <= g.end
  {
    if times != [] {
      var n := |times| - 1;
      var before, current := times[..n], times[n];
      GreedyIsAttained(before, width);
      var s, b := Starts(before, width), Scan(before, width);
      EarlierTimes(times, s);
      assert current in times;
      hide ChosenFrom;
      if b.count == 0 || current >= b.end {
        OneMoreStart(s, current, width, b.end);
        assert Starts(times, width) == s + {current};
        OneMoreChosen(s, current, times);
      } else {
        assert Starts(times, width) == s;
      }
    }
  }

  lemma EarlierTimes(times: seq<int>, s: set<int>)
    requires Ascending(times) && times != [] && ChosenFrom(s, times[..|times| - 1])
    ensures ChosenFrom(s, times) && forall t <- s :: t < times[|times| - 1]
  {
    forall t <- s ensures t in times && t < times[|times| - 1] {
      var k :| 0 <= k < |times| - 1 && times[k] == t;
    }
  }

  lemma OneMoreChosen(s: set<int>, current: int, times: seq<int>)
    requires ChosenFrom(s, times) && current in times
    ensures ChosenFrom(s + {current}, times)
  {
  }

  lemma OneMoreStart(s: set<int>, current: int, width: int, end: int)
    requires Separated(s, width) && forall t <- s :: t < current && t + width <= end
    requires s != {} ==> current >= end
    ensures Separated(s + {current}, width) && |s + {current}| == |s| + 1
    ensures forall t <- s + {current} :: t + width <= current + width
  {
  }

  /** Greedy block counting is optimal: the count is the largest size of any separated choice. */
  lemma BlockCountIsMaximum(times: seq<int>, width: int)
    requires Ascending(times)
    ensures var n := Scan(times, width).count;
      && (exists s: set<int> :: ChosenFrom(s, times) && Separated(s, width) && |s| == n)
      && forall s: set<int> :: ChosenFrom(s, times) && Separated(s, width) ==> |s| <= n
  {
    GreedyIsAttained(times, width);
    assert ChosenFrom(Starts(times, width), times);
    forall s: set<int> | ChosenFrom(s, times) && Separated(s, width) ensures |s| <= Scan(times, width).count {
      GreedyStaysAhead(times, width, s);
    }
  }
}
