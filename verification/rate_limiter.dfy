/** The shared request limiter (infrastructure/upbit.py, UpbitRateLimiter). */
module RateLimiter {
  import opened Reals

  function NextSlot(next: real, now: real, interval: real): real {
    Max(now, next) + interval
  }

  class UpbitRateLimiter {
    const interval: real
    var next: real

    constructor (requestsPerSecond: real)
      requires requestsPerSecond > 0.0
      ensures interval == 1.0 / requestsPerSecond && next == 0.0
    {
      interval, next := 1.0 / requestsPerSecond, 0.0;
    }

    /** `woke` is the clock after the sleep; the request starts at the returned time. */
    method Wait(now: real, woke: real) returns (granted: real)
      modifies this
      ensures granted == if old(next) > now then woke else now
      ensures next == NextSlot(old(next), granted, interval)
    {
      var delay := Max(0.0, next - now);
      granted := now;
      if delay != 0.0 { granted := woke; }
      next := Max(granted, next) + interval;
    }

    method Defer(now: real, seconds: real)
      modifies this
      ensures next == Max(old(next), now + seconds)
    {
      next := Max(next, now + seconds);
    }
  }

  datatype Event = Granted(now: real, woke: real) | Deferred(now: real, seconds: real)

  function Grant(next: real, e: Event): real
    requires e.Granted?
  {
    if next > e.now then e.woke else e.now
  }

  function After(next: real, e: Event, interval: real): real {
    match e
    case Granted(_, _) => NextSlot(next, Grant(next, e), interval)
    case Deferred(now, seconds) => Max(next, now + seconds)
  }

  /** When each request of a history starts. */
  function Grants(next: real, events: seq<Event>, interval: real): seq<real>
    decreases |events|
  {
    if events == [] then []
    else (if events[0].Granted? then [Grant(next, events[0])] else []) + Grants(After(next, events[0], interval), events[1..], interval)
  }

  /** A sleep that was needed ends no earlier than so long before its slot. */
  ghost predicate WakesEarlyAtMost(d: real, next: real, events: seq<Event>, interval: real)
    decreases |events|
  {
    events != [] ==>
      && (events[0].Granted? && next > events[0].now ==> events[0].woke >= next - d)
      && WakesEarlyAtMost(d, After(next, events[0], interval), events[1..], interval)
  }

  function Intervals(n: nat, interval: real): real {
    if n == 0 then 0.0 else Intervals(n - 1, interval) + interval
  }

  /** The n-th request of a history starts n intervals after the slot it began with, but for one early waking. */
  lemma {:induction false} GrantsStartLate(d: real, next: real, events: seq<Event>, interval: real, n: nat)
    requires interval > 0.0 && d >= 0.0 && WakesEarlyAtMost(d, next, events, interval) && n < |Grants(next, events, interval)|
    ensures Grants(next, events, interval)[n] >= next + Intervals(n, interval) - d
    decreases |events|
  {
    var after := After(next, events[0], interval);
    if events[0].Granted? {
      if n > 0 { GrantsStartLate(d, after, events[1..], interval, n - 1); }
    } else {
      GrantsStartLate(d, after, events[1..], interval, n);
    }
  }

  /**
   * In every history of waits and deferrals, whatever the clock reads, requests that are n grants apart start at
   * least n intervals apart, less what one sleep may have ended early: the wakings do not add up.
   */
  lemma {:induction false} GrantsAreApart(d: real, next: real, events: seq<Event>, interval: real, m: nat, n: nat)
    requires interval > 0.0 && d >= 0.0 && WakesEarlyAtMost(d, next, events, interval)
    requires n > 0 && m + n < |Grants(next, events, interval)|
    ensures Grants(next, events, interval)[m + n] >= Grants(next, events, interval)[m] + Intervals(n, interval) - d
    decreases |events|
  {
    var after := After(next, events[0], interval);
    if !events[0].Granted? {
      GrantsAreApart(d, after, events[1..], interval, m, n);
    } else if m > 0 {
      GrantsAreApart(d, after, events[1..], interval, m - 1, n);
    } else {
      GrantsStartLate(d, after, events[1..], interval, n - 1);
    }
  }

  /** Requests that are n grants apart start at least n intervals apart, less a slack. */
  ghost predicate Spaced(grants: seq<real>, interval: real, slack: real) {
    forall m, n :: 0 <= m < m + n < |grants| ==> grants[m + n] >= grants[m] + Intervals(n, interval) - slack
  }

  lemma {:induction false} LessEarlyStill(d: real, e: real, next: real, events: seq<Event>, interval: real)
    requires d <= e && WakesEarlyAtMost(d, next, events, interval)
    ensures WakesEarlyAtMost(e, next, events, interval)
    decreases |events|
  {
    if events != [] { LessEarlyStill(d, e, After(next, events[0], interval), events[1..], interval); }
  }

  /** A second request that wakes so long before its slot. */
  function EarlySecond(d: real, interval: real): seq<Event> {
    [Granted(0.0, 0.0), Granted(0.0, interval - d)]
  }

  lemma EarlySecondGrants(d: real, interval: real)
    requires interval > 0.0 && d > 0.0
    ensures WakesEarlyAtMost(d, 0.0, EarlySecond(d, interval), interval)
    ensures Grants(0.0, EarlySecond(d, interval), interval) == [0.0, interval - d]
  {
    var events, second := EarlySecond(d, interval), [Granted(0.0, interval - d)];
    assert events[1..] == second && second[1..] == [];
    assert After(0.0, events[0], interval) == interval;
    assert WakesEarlyAtMost(d, interval, second, interval);
    assert Grants(interval, second, interval) == [interval - d];
  }

  /**
   * The spacing is kept, up to a slack, by every history whose sleeps end at most so early if and only if the slack is
   * at least that; kept in full, only if no sleep ends early. Below one interval the failing clock never runs back.
   */
  lemma SpacingIffSlackCoversEarlyWaking(d: real, slack: real, interval: real)
    requires interval > 0.0 && slack >= 0.0
    ensures d <= slack <==>
      forall next, events :: WakesEarlyAtMost(d, next, events, interval) ==> Spaced(Grants(next, events, interval), interval, slack)
  {
    if d <= slack {
      forall next, events | WakesEarlyAtMost(d, next, events, interval) ensures Spaced(Grants(next, events, interval), interval, slack) {
        LessEarlyStill(d, slack, next, events, interval);
        var grants := Grants(next, events, interval);
        forall m, n | 0 <= m < m + n < |grants| ensures grants[m + n] >= grants[m] + Intervals(n, interval) - slack {
          GrantsAreApart(slack, next, events, interval, m, n);
        }
      }
    } else {
      var early := if slack < interval then Min(d, interval) else d;
      EarlySecondGrants(early, interval);
      LessEarlyStill(early, d, 0.0, EarlySecond(early, interval), interval);
      var grants := [0.0, interval - early];
      assert Intervals(1, interval) == interval;
      assert grants[0 + 1] < grants[0] + Intervals(1, interval) - slack;
      assert !Spaced(grants, interval, slack);
    }
  }
}
