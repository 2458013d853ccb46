/** The ownership directory of a stream collector and its stale takeover (derivatives/streams.py). */
module StreamOwnership {
  import opened Wrappers

  type Token = nat

  /** The directory on disk: the token in its owner file and its modification time. */
  datatype Entry = Entry(token: Token, mtime: real)

  /** Lost and Missing are the two exceptions: another owner's token, no owner file. */
  datatype Outcome = Done | Refused | Lost | Missing

  /** What one call reads and writes: the shared directory and the instance's own flag. */
  datatype Local = Local(disk: Option<Entry>, holds: bool)

  predicate Matches(disk: Option<Entry>, token: Token) {
    disk.Some? && disk.value.token == token
  }

  function Refreshed(l: Local, token: Token, now: real): (Local, Outcome) {
    if !l.holds then (l, Done)
    else if l.disk.None? then (l, Missing)
    else if l.disk.value.token != token then (l.(holds := false), Lost)
    else (l.(disk := Some(Entry(token, now))), Done)
  }

  function Acquired(l: Local, token: Token, staleAfter: real, now: real): (Local, Outcome) {
    if l.holds then Refreshed(l, token, now)
    else if l.disk.None? || now - l.disk.value.mtime >= staleAfter then (Local(Some(Entry(token, now)), true), Done)
    else (l, Refused)
  }

  function Released(l: Local, token: Token): Local {
    Local(if l.holds && Matches(l.disk, token) then None else l.disk, false)
  }

  class Directory {
    var entry: Option<Entry>

    constructor ()
      ensures entry == None
    {
      entry := None;
    }
  }

  class OwnershipLock {
    const path: Directory
    const token: Token
    const staleAfter: real
    var holds: bool

    constructor (path: Directory, token: Token, staleAfter: real)
      requires staleAfter > 0.0
      ensures this.path == path && this.token == token && this.staleAfter == staleAfter && !holds
    {
      this.path, this.token, this.staleAfter, holds := path, token, staleAfter, false;
    }

    function View(): Local
      reads this, path
    {
      Local(path.entry, holds)
    }

    method TryCreate(now: real) returns (ok: bool)
      modifies this, path
      ensures ok == old(path.entry).None?
      ensures View() == if ok then Local(Some(Entry(token, now)), true) else old(View())
    {
      if path.entry.Some? { return false; }
      path.entry := Some(Entry(token, now));
      holds := true;
      return true;
    }

    method RefreshHeld(now: real) returns (r: Outcome)
      requires holds
      modifies this, path
      ensures (View(), r) == Refreshed(old(View()), token, now)
    {
      if path.entry.None? { return Missing; }
      if path.entry.value.token != token {
        holds := false;
        return Lost;
      }
      path.entry := Some(path.entry.value.(mtime := now));
      return Done;
    }

    method Acquire(now: real) returns (r: Outcome)
      modifies this, path
      ensures (View(), r) == Acquired(old(View()), token, staleAfter, now)
    {
      if holds {
        r := RefreshHeld(now);
        return;
      }
      var created := TryCreate(now);
      if created { return Done; }
      if now - path.entry.value.mtime < staleAfter { return Refused; }
      path.entry := None; // the stale directory is renamed away, then deleted
      created := TryCreate(now);
      return if created then Done else Refused;
    }

    method Refresh(now: real) returns (r: Outcome)
      modifies this, path
      ensures (View(), r) == Refreshed(old(View()), token, now)
    {
      if !holds { return Done; }
      r := RefreshHeld(now);
    }

    method Release()
      modifies this, path
      ensures View() == Released(old(View()), token)
    {
      if !holds { return; }
      holds := false;
      if path.entry.None? || path.entry.value.token != token { return; }
      path.entry := None;
    }
  }

  // ---------------------------------------------------------------- many instances over one directory

  /** `holders` think they own the directory; `last` and `taken` only record what happened. */
  datatype System = System(
    disk: Option<Entry>,
    holders: set<Token>,
    last: map<Token, real>,
    taken: map<Token, Takeover>)

  datatype Takeover = Takeover(taker: Token, at: real)

  datatype Step = Acquire(who: Token, now: real) | Refresh(who: Token, now: real) | Release(who: Token)

  const EMPTY := System(None, {}, map[], map[])

  function LocalView(s: System, who: Token): Local {
    Local(s.disk, who in s.holders)
  }

  /** The step's own effect on the directory and on the instance's flag, and its outcome. */
  function Effect(s: System, step: Step, staleAfter: Token -> real): (Local, Outcome) {
    match step
    case Acquire(who, now) => Acquired(LocalView(s, who), who, staleAfter(who), now)
    case Refresh(who, now) => Refreshed(LocalView(s, who), who, now)
    case Release(who) => (Released(LocalView(s, who), who), Done)
  }

  function Next(s: System, step: Step, staleAfter: Token -> real): System {
    var l := Effect(s, step, staleAfter).0;
    var displaced := l.disk.Some? && s.disk.Some? && l.disk.value.token != s.disk.value.token;
    System(
      l.disk,
      if l.holds then s.holders + {step.who} else s.holders - {step.who},
      if Matches(l.disk, step.who) then s.last[step.who := l.disk.value.mtime] else s.last,
      if displaced then s.taken[s.disk.value.token := Takeover(l.disk.value.token, l.disk.value.mtime)] else s.taken)
  }

  function Run(s: System, steps: seq<Step>, staleAfter: Token -> real): System
    decreases |steps|
  {
    if steps == [] then s else Run(Next(s, steps[0], staleAfter), steps[1..], staleAfter)
  }

  /** Every holder is on disk as it last refreshed, or was displaced a whole stale interval after its last refresh. */
  ghost predicate Safe(s: System, staleAfter: Token -> real) {
    && (s.disk.Some? ==> s.disk.value.token in s.holders)
    && (forall t <- s.holders ::
          && t in s.last
          && (s.disk == Some(Entry(t, s.last[t]))
              || (!Matches(s.disk, t) && t in s.taken && s.taken[t].taker != t
                  && s.taken[t].at - s.last[t] >= staleAfter(s.taken[t].taker))))
  }

  lemma StepIsSafe(s: System, step: Step, staleAfter: Token -> real)
    requires Safe(s, staleAfter)
    ensures Safe(Next(s, step, staleAfter), staleAfter)
  {
  }

  /**
   * Two instances may both think they own the directory only when all but the one on disk stopped refreshing for
   * at least the stale interval of the instance that displaced it. The clock is free to jump.
   */
  lemma {:induction false} RunsAreSafe(s: System, steps: seq<Step>, staleAfter: Token -> real)
    requires Safe(s, staleAfter)
    ensures Safe(Run(s, steps, staleAfter), staleAfter)
    decreases |steps|
  {
    if steps != [] {
      StepIsSafe(s, steps[0], staleAfter);
      RunsAreSafe(Next(s, steps[0], staleAfter), steps[1..], staleAfter);
    }
  }

  /**
   * From an empty directory, whatever the instances do: of two that think they own it at most one is on disk, and any
   * other was displaced at least a stale interval after its last refresh.
   */
  lemma OwnersAreFresh(steps: seq<Step>, staleAfter: Token -> real)
    ensures var s := Run(EMPTY, steps, staleAfter);
      && Safe(s, staleAfter)
      && (forall t <- s.holders, u <- s.holders :: Matches(s.disk, t) && Matches(s.disk, u) ==> t == u)
      && (forall t <- s.holders :: !Matches(s.disk, t) ==>
            && t in s.last && t in s.taken && s.taken[t].taker != t
            && s.taken[t].at - s.last[t] >= staleAfter(s.taken[t].taker))
  {
    RunsAreSafe(EMPTY, steps, staleAfter);
    hide Run;
  }

  /** A displaced instance stays displaced whatever the others do, and then its next call on its own behalf fails or cleans up. */
  lemma {:induction false} DisplacedInstanceFails(s: System, steps: seq<Step>, t: Token, now: real, staleAfter: Token -> real)
    requires t in s.holders && !Matches(s.disk, t)
    requires forall x <- steps :: x.who != t
    ensures var end := Run(s, steps, staleAfter);
      && t in end.holders && !Matches(end.disk, t)
      && Effect(end, Refresh(t, now), staleAfter).1 in {Lost, Missing}
      && Effect(end, Acquire(t, now), staleAfter).1 in {Lost, Missing}
      && (Next(end, Refresh(t, now), staleAfter).holders == if end.disk.Some? then end.holders - {t} else end.holders)
      && Next(end, Refresh(t, now), staleAfter).disk == Next(end, Release(t), staleAfter).disk == end.disk
      && t !in Next(end, Release(t), staleAfter).holders
    decreases |steps|
  {
    if steps != [] {
      assert steps[0] in steps && steps[0].who != t;
      assert forall x <- steps[1..] :: x in steps;
      DisplacedInstanceFails(Next(s, steps[0], staleAfter), steps[1..], t, now, staleAfter);
    }
  }

  /** The owner on disk stays the owner while every other call comes before its stale interval is over. */
  lemma {:induction false} FreshOwnerIsNeverDisplaced(s: System, steps: seq<Step>, t: Token, staleAfter: Token -> real)
    requires Safe(s, staleAfter) && Matches(s.disk, t)
    requires forall x <- steps :: x.who != t && (x.Acquire? ==> x.now - s.disk.value.mtime < staleAfter(x.who))
    ensures var end := Run(s, steps, staleAfter);
      && end.disk == s.disk && t in end.holders
      && forall now :: Effect(end, Refresh(t, now), staleAfter).1 == Done
    decreases |steps|
  {
    if steps != [] {
      assert steps[0] in steps;
      assert forall x <- steps[1..] :: x in steps;
      StepIsSafe(s, steps[0], staleAfter);
      FreshOwnerIsNeverDisplaced(Next(s, steps[0], staleAfter), steps[1..], t, staleAfter);
    }
  }

  /** With a clock that never runs back, every holder not on disk has by now been silent for a stale interval. */
  lemma {:induction false} SilentForAStaleInterval(s: System, steps: seq<Step>, t: Token, clock: real, staleAfter: Token -> real)
    requires Safe(s, staleAfter) && forall u <- s.taken :: s.taken[u].at <= clock
    requires forall x <- steps :: !x.Release? ==> x.now <= clock
    ensures Safe(Run(s, steps, staleAfter), staleAfter)
    ensures var end := Run(s, steps, staleAfter);
      t in end.holders && !Matches(end.disk, t) ==> clock - end.last[t] >= staleAfter(end.taken[t].taker)
    decreases |steps|
  {
    if steps != [] {
      assert steps[0] in steps;
      assert forall x <- steps[1..] :: x in steps;
      StepIsSafe(s, steps[0], staleAfter);
      SilentForAStaleInterval(Next(s, steps[0], staleAfter), steps[1..], t, clock, staleAfter);
    }
  }

  // ---------------------------------------------------------------- acquire is not one step

  /** Acquire as the file system sees it: the age is read first, the directory renamed and made anew later. */
  datatype Fine = Fine(system: System, sawStale: set<Token>)

  datatype FineStep = ReadAge(who: Token, now: real) | TakeOver(who: Token, now: real)

  function FineNext(f: Fine, step: FineStep, staleAfter: Token -> real): Fine {
    var s := f.system;
    match step
    case ReadAge(who, now) =>
      if who !in s.holders && s.disk.Some? && now - s.disk.value.mtime >= staleAfter(who)
      then f.(sawStale := f.sawStale + {who}) else f
    case TakeOver(who, now) =>
      if who !in f.sawStale || s.disk.None? then f
      else Fine(System(Some(Entry(who, now)), s.holders + {who}, s.last[who := now],
                       s.taken[s.disk.value.token := Takeover(who, now)]), f.sawStale - {who})
  }

  function FineRun(f: Fine, steps: seq<FineStep>, staleAfter: Token -> real): Fine
    decreases |steps|
  {
    if steps == [] then f else FineRun(FineNext(f, steps[0], staleAfter), steps[1..], staleAfter)
  }

  /** Taking over keeps the system safe exactly when the directory is still stale at the rename. */
  lemma TakeOverIsSafeIffStillStale(f: Fine, who: Token, now: real, staleAfter: Token -> real)
    requires Safe(f.system, staleAfter) && who in f.sawStale && who !in f.system.holders && f.system.disk.Some?
    ensures Safe(FineNext(f, TakeOver(who, now), staleAfter).system, staleAfter) <==>
      now - f.system.disk.value.mtime >= staleAfter(who)
  {
    var owner := f.system.disk.value.token;
    var s := FineNext(f, TakeOver(who, now), staleAfter).system;
    assert owner in s.holders && s.taken[owner] == Takeover(who, now) && s.last[owner] == f.system.disk.value.mtime;
  }

  /**
   * Safety needs the atomic call: after two instances read the same stale age, the second rename displaces the owner
   * the first one has just become.
   */
  lemma RenameCanDisplaceAFreshOwner(a: Token, b: Token, c: Token, mtime: real, now: real, staleAfter: Token -> real)
    requires a != b && b != c && c != a
    requires staleAfter(b) > 0.0 && staleAfter(c) > 0.0
    requires now - mtime >= staleAfter(b) && now - mtime >= staleAfter(c)
    ensures var s := System(Some(Entry(a, mtime)), {a}, map[a := mtime], map[]);
      var end := FineRun(Fine(s, {}), [ReadAge(b, now), ReadAge(c, now), TakeOver(b, now), TakeOver(c, now)], staleAfter).system;
      && Safe(s, staleAfter) && !Safe(end, staleAfter)
      && end.holders == {a, b, c} && end.disk == Some(Entry(c, now))
      && b in end.last && b in end.taken && end.last[b] == now && end.taken[b] == Takeover(c, now)
  {
    var s := System(Some(Entry(a, mtime)), {a}, map[a := mtime], map[]);
    var f0 := Fine(s, {});
    var f1 := FineNext(f0, ReadAge(b, now), staleAfter);
    var f2 := FineNext(f1, ReadAge(c, now), staleAfter);
    var f3 := FineNext(f2, TakeOver(b, now), staleAfter);
    var f4 := FineNext(f3, TakeOver(c, now), staleAfter);
    assert f2.sawStale == {b, c} && c in f3.sawStale;
    calc {
      FineRun(f0, [ReadAge(b, now), ReadAge(c, now), TakeOver(b, now), TakeOver(c, now)], staleAfter);
      FineRun(f1, [ReadAge(c, now), TakeOver(b, now), TakeOver(c, now)], staleAfter);
      FineRun(f2, [TakeOver(b, now), TakeOver(c, now)], staleAfter);
      FineRun(f3, [TakeOver(c, now)], staleAfter);
      FineRun(f4, [], staleAfter);
      f4;
    }
  }
}
