/** Backward pagination over the candle endpoint (infrastructure/upbit.py, fetch_daily_candles, fetch_minute_candles). */
module Pagination {
  import opened Wrappers
  import opened Sorting

  datatype Record = Record(time: int, body: string)

  const PAGE := 200

  ghost predicate Ascending(s: seq<Record>) {
    forall i, j :: 0 <= i < j < |s| ==> s[i].time < s[j].time
  }

  /** How many of the server's records are older than a time. */
  function Older(all: seq<Record>, time: int): (n: nat)
    ensures n <= |all|
  {
    if all == [] || all[0].time >= time then 0 else 1 + Older(all[1..], time)
  }

  lemma {:induction false} OlderSplits(all: seq<Record>, time: int)
    requires Ascending(all)
    ensures forall k :: 0 <= k < |all| ==> (k < Older(all, time) <==> all[k].time < time)
  {
    if all != [] { OlderSplits(all[1..], time); }
  }

  function Reverse(s: seq<Record>): seq<Record> {
    if s == [] then [] else Reverse(s[1..]) + [s[0]]
  }

  lemma {:induction false} ReverseKeeps(s: seq<Record>)
    ensures multiset(Reverse(s)) == multiset(s) && |Reverse(s)| == |s|
  {
    if s != [] {
      ReverseKeeps(s[1..]);
      assert s == [s[0]] + s[1..];
    }
  }

  /** The server: the newest records before a time, newest first, at most one page. */
  function Page(all: seq<Record>, to: int): seq<Record> {
    var n := Older(all, to);
    Reverse(all[PageStart(n)..n])
  }

  function Earliest(s: seq<Record>): (t: int)
    requires s != []
    ensures (exists r <- s :: r.time == t) && forall r <- s :: t <= r.time
  {
    if |s| == 1 then s[0].time else
      var rest := Earliest(s[1..]);
      assert s == [s[0]] + s[1..] && s[0] in s;
      if s[0].time <= rest then s[0].time else rest
  }

  predicate ByTime(a: Record, b: Record) { a.time <= b.time }

  datatype Error = StartNotBeforeEnd | DidNotAdvance

  /** Everything the server has in a period; all is ascending, so this is too, without duplicates. */
  function Range(all: seq<Record>, start: int, end: int): seq<Record> {
    Filter(InPeriod(start, end), all)
  }

  function InPeriod(start: int, end: int): Record -> bool {
    (x: Record) => start <= x.time < end
  }

  method FetchCandles(all: seq<Record>, start: int, end: int) returns (r: Result<seq<Record>, Error>)
    requires Ascending(all)
    ensures start >= end ==> r == Err(StartNotBeforeEnd)
    ensures start < end ==> r == Ok(Range(all, start, end)) && Ascending(r.value)
  {
    if start >= end {
      return Err(StartNotBeforeEnd);
    }
    hide Page, Older, Ascending, Earliest, Range, Sort, Collected, ByTime, PageStart;
    ghost var last := Older(all, end);
    ghost var oldest := last;
    var cursor := end;
    var records: seq<Record> := [];
    NothingCollected(all, last);
    while cursor > start
      invariant start <= cursor <= end && oldest == Older(all, cursor)
      invariant Collected(all, records, oldest, last)
      decreases cursor - start
    {
      var payload := Page(all, cursor);
      ghost var next := PageStart(oldest);
      PageIsSlice(all, cursor);
      PageStartBound(oldest);
      if payload == [] {
        break;
      }
      CollectPage(all, records, payload, next, oldest, last);
      records := records + payload;
      var earliest := Earliest(payload);
      EarliestOfPage(all, cursor, payload);
      if |payload| < PAGE || earliest <= start {
        oldest := next;
        NothingOlderIsWanted(all, next, start);
        FetchedRange(all, records, oldest, last, start, end);
        return Ok(Sort(ByTime, Range(records, start, end)));
      }
      if earliest >= cursor {
        return Err(DidNotAdvance);
      }
      OlderAt(all, next);
      oldest := next;
      cursor := earliest;
    }
    NothingOlderAt(all, cursor, start);
    FetchedRange(all, records, oldest, last, start, end);
    r := Ok(Sort(ByTime, Range(records, start, end)));
  }

  /** The records fetched so far are the server's slice between two positions, in some order. */
  ghost predicate Collected(all: seq<Record>, records: seq<Record>, from: nat, last: nat) {
    from <= last <= |all| && multiset(records) == multiset(all[from..last])
  }

  lemma NothingCollected(all: seq<Record>, last: nat)
    requires last <= |all|
    ensures Collected(all, [], last, last)
  {
    assert all[last..last] == [];
  }

  lemma CollectPage(all: seq<Record>, records: seq<Record>, page: seq<Record>, next: nat, from: nat, last: nat)
    requires Collected(all, records, from, last) && next <= from && multiset(page) == multiset(all[next..from])
    ensures Collected(all, records + page, next, last)
  {
    assert all[next..last] == all[next..from] + all[from..last];
  }

  lemma PageStartBound(n: nat)
    ensures PageStart(n) <= n
    ensures n - PageStart(n) < PAGE ==> PageStart(n) == 0
    ensures PageStart(n) == n ==> n == 0
  {
  }

  function PageStart(n: nat): nat { if n <= PAGE then 0 else n - PAGE }

  lemma PageIsSlice(all: seq<Record>, to: int)
    ensures var n := Older(all, to);
      multiset(Page(all, to)) == multiset(all[PageStart(n)..n]) && |Page(all, to)| == n - PageStart(n)
  {
    var n := Older(all, to);
    ReverseKeeps(all[PageStart(n)..n]);
  }

  lemma EarliestOfPage(all: seq<Record>, to: int, page: seq<Record>)
    requires Ascending(all) && page == Page(all, to) && page != []
    ensures var n := Older(all, to); PageStart(n) < n && Earliest(page) == all[PageStart(n)].time < to
  {
    hide Page, Older;
    var n := Older(all, to);
    PageIsSlice(all, to);
    OlderSplits(all, to);
    SliceMinimum(all, PageStart(n), n, page);
  }

  lemma SliceMinimum(all: seq<Record>, first: nat, n: nat, page: seq<Record>)
    requires Ascending(all) && first < n <= |all| && page != [] && multiset(page) == multiset(all[first..n])
    ensures Earliest(page) == all[first].time
  {
    hide Earliest;
    var slice := all[first..n];
    assert slice[0] in multiset(slice) && slice[0] in page;
    var r :| r in page && r.time == Earliest(page);
    assert r in multiset(page) && r in slice;
    var k :| 0 <= k < |slice| && slice[k] == r;
    assert k > 0 ==> all[first].time < all[first + k].time;
  }

  lemma OlderAt(all: seq<Record>, k: nat)
    requires Ascending(all) && k < |all|
    ensures Older(all, all[k].time) == k
  {
    OlderSplits(all, all[k].time);
    var n := Older(all, all[k].time);
    assert n < |all| ==> all[n].time >= all[k].time;
    assert n > 0 ==> all[n - 1].time < all[k].time;
  }

  lemma NothingOlderIsWanted(all: seq<Record>, k: nat, start: int)
    requires Ascending(all) && k <= |all| && (k == 0 || (k < |all| && all[k].time <= start))
    ensures forall i :: 0 <= i < k ==> all[i].time < start
  {
  }

  lemma NothingOlderAt(all: seq<Record>, cursor: int, start: int)
    requires Ascending(all) && (cursor <= start || Older(all, cursor) == 0)
    ensures forall i :: 0 <= i < Older(all, cursor) ==> all[i].time < start
  {
    OlderSplits(all, cursor);
  }

  /** Once nothing older is wanted, dropping what lies outside the period and sorting gives the server's range. */
  lemma FetchedRange(all: seq<Record>, records: seq<Record>, from: nat, last: nat, start: int, end: int)
    requires Ascending(all) && last == Older(all, end) && Collected(all, records, from, last)
    requires forall i :: 0 <= i < from ==> all[i].time < start
    ensures Sort(ByTime, Range(records, start, end)) == Range(all, start, end)
    ensures Ascending(Range(all, start, end))
  {
    var p := InPeriod(start, end);
    OlderSplits(all, end);
    FilterIgnoresOrder(p, records, all[from..last]);
    OutsideVanishes(p, all, from, last);
    RangeAscends(p, all);
    SortedRange(Range(records, start, end), Range(all, start, end));
  }

  lemma OutsideVanishes(p: Record -> bool, all: seq<Record>, from: nat, last: nat)
    requires from <= last <= |all|
    requires forall i :: 0 <= i < from || last <= i < |all| ==> !p(all[i])
    ensures Filter(p, all[from..last]) == Filter(p, all)
  {
    hide Filter;
    var before, middle, after := all[..from], all[from..last], all[last..];
    assert all == before + middle + after;
    FilterConcat(p, before, middle);
    FilterConcat(p, before + middle, after);
    FilterAllOrNothing(p, before);
    FilterAllOrNothing(p, after);
    assert [] + Filter(p, middle) + [] == Filter(p, middle);
  }

  lemma SortedRange(s: seq<Record>, range: seq<Record>)
    requires multiset(s) == multiset(range) && Ascending(range)
    ensures Sort(ByTime, s) == range
  {
    SortSorts(ByTime, s);
    assert TotalOrder(ByTime);
    forall x, y | x in range && y in range && x.time == y.time ensures x == y {
      var i :| 0 <= i < |range| && range[i] == x;
      var j :| 0 <= j < |range| && range[j] == y;
    }
    SortedIsUnique(ByTime, range, Sort(ByTime, s));
  }

  lemma {:induction false} RangeAscends(p: Record -> bool, all: seq<Record>)
    requires Ascending(all)
    ensures Ascending(Filter(p, all))
  {
    if all != [] {
      RangeAscends(p, all[1..]);
      FilterKeeps(p, all[1..]);
      forall k | 0 <= k < |Filter(p, all[1..])| ensures all[0].time < Filter(p, all[1..])[k].time {
        assert Filter(p, all[1..])[k] in all[1..];
      }
    }
  }
}
