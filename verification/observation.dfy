/** Frozen forward observation: experiments, decision snapshots and their outcomes (observation/service.py, repository.py). */
module Observation {
  import opened Wrappers
  import opened Reals

  datatype Status = RUNNING | COMPLETED | INTERRUPTED | INVALIDATED

  datatype Policy = Policy(version: string, config: string)

  datatype Experiment = Experiment(
    portfolio: string,
    policy: Policy,
    startedAt: int,
    plannedEnd: int,
    status: Status,
    startingEquity: real,
    completedAt: Option<int>,
    reason: Option<string>)

  /** The hash of experiment, decision time and pair, which never collides here. */
  datatype SnapshotId = SnapshotId(experiment: string, time: int, pair: string)

  /** `detail` stands for the remaining columns of the decision. */
  datatype Snapshot = Snapshot(policy: Policy, price: Option<real>, detail: string) {
    predicate Priced() { price.Some? && price.value > 0.0 }
  }

  datatype OutcomeStatus = MEASURED | MISSING_DATA

  datatype Missing = NO_POST_DECISION_CANDLE | MARKET_DATA_FILE_NOT_FOUND | MARKET_DATA_INVALID | TARGET_CANDLE_STALE

  datatype Returns = Returns(forward: real, mfe: real, mae: real)

  datatype Outcome = Outcome(target: int, evaluatedAt: int, result: Result<Returns, Missing>)

  datatype Key = Key(snapshot: SnapshotId, horizon: int)

  datatype Store = Store(
    experiments: map<string, Experiment>,
    snapshots: map<SnapshotId, Snapshot>,
    outcomes: map<Key, Outcome>)

  datatype Candle = Candle(availableAt: int, close: real, high: real, low: real)

  datatype FeedError = FileNotFound | Invalid

  /** The market data a call reads: pair, start and end of the range. */
  type Feed = (string, int, int) -> Result<seq<Candle>, FeedError>

  datatype Error =
    | UNKNOWN_EXPERIMENT
    | UNKNOWN_PORTFOLIO
    | IDENTITY_DOES_NOT_MATCH
    | PORTFOLIO_DOES_NOT_MATCH
    | CONFIGURATION_CHANGED

  /** Times are in microseconds. */
  const MINUTE := 60000000

  /** In minutes. */
  function Horizons(): seq<int> { [15, 30, 60, 120, 240, 720, 1440] }

  const GRACE := 30 * MINUTE

  const LENGTH := 168 * 60 * MINUTE

  const EMPTY := Store(map[], map[], map[])

  // ---------------------------------------------------------------- tables

  /** The upsert: an existing row only takes the new status, completion time and reason. */
  function Upserted(s: Store, id: string, e: Experiment): Store {
    s.(experiments := s.experiments[id :=
      if id in s.experiments
      then s.experiments[id].(status := e.status, completedAt := e.completedAt, reason := e.reason) else e])
  }

  // ---------------------------------------------------------------- outcomes of one snapshot

  function Target(key: Key): int {
    key.snapshot.time + key.horizon * MINUTE
  }

  function Between(cs: seq<Candle>, after: int, upTo: int): (r: seq<Candle>)
    ensures forall c :: c in r <==> c in cs && after < c.availableAt <= upTo
    decreases |cs|
  {
    if cs == [] then [] else
      (if after < cs[0].availableAt <= upTo then [cs[0]] else []) + Between(cs[1..], after, upTo)
  }

  function Highest(cs: seq<Candle>): (r: real)
    requires cs != []
    ensures forall c <- cs :: c.high <= r
    ensures exists c <- cs :: c.high == r
    decreases |cs|
  {
    if |cs| == 1 then cs[0].high else Max(cs[0].high, Highest(cs[1..]))
  }

  function Lowest(cs: seq<Candle>): (r: real)
    requires cs != []
    ensures forall c <- cs :: r <= c.low
    ensures exists c <- cs :: c.low == r
    decreases |cs|
  {
    if |cs| == 1 then cs[0].low else Min(cs[0].low, Lowest(cs[1..]))
  }

  function Change(price: real, reference: real): real
    requires reference > 0.0
  {
    price / reference - 1.0
  }

  function Measured(cs: seq<Candle>, target: int, reference: real): Result<Returns, Missing>
    requires reference > 0.0
  {
    if cs == [] then Err(NO_POST_DECISION_CANDLE)
    else if target - cs[|cs| - 1].availableAt > 30 * MINUTE then Err(TARGET_CANDLE_STALE)
    else Ok(Returns(Change(cs[|cs| - 1].close, reference), Change(Highest(cs), reference), Change(Lowest(cs), reference)))
  }

  function OutcomeOf(key: Key, snapshot: Snapshot, feed: Feed, now: int): Outcome
    requires snapshot.Priced()
  {
    Outcome(Target(key), now,
      match feed(key.snapshot.pair, key.snapshot.time - 15 * MINUTE, Target(key))
      case Err(FileNotFound) => Err(MARKET_DATA_FILE_NOT_FOUND)
      case Err(Invalid) => Err(MARKET_DATA_INVALID)
      case Ok(cs) => Measured(Between(cs, key.snapshot.time, Target(key)), Target(key), snapshot.price.value))
  }

  // ---------------------------------------------------------------- what each service call does

  predicate Matches(e: Experiment, portfolio: string, policy: Policy) {
    e.portfolio == portfolio && e.policy == policy
  }

  /** `equity` is None for an unknown paper portfolio. */
  function StartedResult(s: Store, id: string, portfolio: string, policy: Policy, now: int, equity: Option<real>)
    : Result<Experiment, Error>
  {
    if id in s.experiments then
      if Matches(s.experiments[id], portfolio, policy) then Ok(s.experiments[id]) else Err(IDENTITY_DOES_NOT_MATCH)
    else if equity.None? then Err(UNKNOWN_PORTFOLIO)
    else Ok(Experiment(portfolio, policy, now, now + LENGTH, RUNNING, equity.value, None, None))
  }

  function Started(s: Store, id: string, portfolio: string, policy: Policy, now: int, equity: Option<real>): Store {
    if id in s.experiments || equity.None? then s
    else Upserted(s, id, Experiment(portfolio, policy, now, now + LENGTH, RUNNING, equity.value, None, None))
  }

  function PermitResult(s: Store, id: string, portfolio: string, policy: Policy, now: int): Result<bool, Error> {
    if id !in s.experiments then Err(UNKNOWN_EXPERIMENT)
    else
      var e := s.experiments[id];
      if e.status != RUNNING then Ok(false)
      else if !Matches(e, portfolio, policy) then Err(IDENTITY_DOES_NOT_MATCH)
      else Ok(e.startedAt <= now < e.plannedEnd)
  }

  function Permitted(s: Store, id: string, portfolio: string, policy: Policy, now: int): Store {
    if id !in s.experiments || s.experiments[id].status != RUNNING then s
    else
      var e := s.experiments[id];
      if !Matches(e, portfolio, policy) then
        Upserted(s, id, e.(status := INVALIDATED, completedAt := Some(now), reason := Some("identity")))
      else if now >= e.plannedEnd then Upserted(s, id, e.(status := COMPLETED, completedAt := Some(e.plannedEnd)))
      else s
  }

  datatype Assessment = Assessment(pair: string, price: Option<real>, detail: string)

  datatype Decision = Decision(portfolio: string, asOf: int, assessments: seq<Assessment>)

  function IdOf(id: string, d: Decision, a: Assessment): SnapshotId {
    SnapshotId(id, d.asOf, a.pair)
  }

  /** Insert or ignore, in the order of the assessments: the first row of an id stays. */
  function WithSnapshots(rows: map<SnapshotId, Snapshot>, id: string, d: Decision, policy: Policy, n: nat): map<SnapshotId, Snapshot>
    requires n <= |d.assessments|
  {
    if n == 0 then rows else
      var before := WithSnapshots(rows, id, d, policy, n - 1);
      var a := d.assessments[n - 1];
      if IdOf(id, d, a) in before then before else before[IdOf(id, d, a) := Snapshot(policy, a.price, a.detail)]
  }

  function CaptureError(s: Store, id: string, d: Decision, policy: Policy): Option<Error> {
    if id !in s.experiments then Some(UNKNOWN_EXPERIMENT)
    else
      var e := s.experiments[id];
      if e.status != RUNNING || !(e.startedAt <= d.asOf <= e.plannedEnd) then None
      else if d.portfolio != e.portfolio then Some(PORTFOLIO_DOES_NOT_MATCH)
      else if policy != e.policy then Some(CONFIGURATION_CHANGED)
      else None
  }

  predicate Captures(s: Store, id: string, d: Decision, policy: Policy) {
    && id in s.experiments && s.experiments[id].status == RUNNING
    && s.experiments[id].startedAt <= d.asOf <= s.experiments[id].plannedEnd
    && Matches(s.experiments[id], d.portfolio, policy)
  }

  function Captured(s: Store, id: string, d: Decision, policy: Policy): Store {
    if CaptureError(s, id, d, policy) == Some(CONFIGURATION_CHANGED) then
      Upserted(s, id, s.experiments[id].(status := INVALIDATED, completedAt := Some(d.asOf), reason := Some("configuration")))
    else if !Captures(s, id, d, policy) then s
    else
      var e := s.experiments[id];
      var t := if d.asOf >= e.plannedEnd then Upserted(s, id, e.(status := COMPLETED, completedAt := Some(d.asOf))) else s;
      t.(snapshots := WithSnapshots(s.snapshots, id, d, policy, |d.assessments|))
  }

  function Interrupted(s: Store, id: string, reason: string, now: int): Store {
    if id !in s.experiments || s.experiments[id].status != RUNNING then s
    else Upserted(s, id, s.experiments[id].(status := INTERRUPTED, completedAt := Some(now), reason := Some(reason)))
  }

  /** Whether evaluating at `now` stores this outcome. */
  predicate Due(s: Store, id: string, key: Key, feed: Feed, now: int) {
    && key.snapshot in s.snapshots && key.snapshot.experiment == id && key.horizon in Horizons()
    && s.snapshots[key.snapshot].Priced() && key !in s.outcomes && now >= Target(key)
    && (OutcomeOf(key, s.snapshots[key.snapshot], feed, now).result.Ok? || now >= Target(key) + GRACE)
  }

  function Keys(s: Store): set<Key> {
    set i <- s.snapshots, h <- Horizons() :: Key(i, h)
  }

  /** An experiment past its planned end is completed as of that end. */
  function Closed(s: Store, id: string, now: int): Store
    requires id in s.experiments
  {
    var e := s.experiments[id];
    if e.status == RUNNING && now >= e.plannedEnd
    then Upserted(s, id, e.(status := COMPLETED, completedAt := Some(e.plannedEnd))) else s
  }

  function Evaluated(s: Store, id: string, feed: Feed, now: int): Store {
    if id !in s.experiments then s
    else
      Closed(s, id, now).(outcomes := s.outcomes +
         map key | key in Keys(s) && Due(s, id, key, feed, now) :: OutcomeOf(key, s.snapshots[key.snapshot], feed, now))
  }

  // ---------------------------------------------------------------- the service

  class FrozenObservationService {
    var experiments: map<string, Experiment>
    var snapshots: map<SnapshotId, Snapshot>
    var outcomes: map<Key, Outcome>

    constructor ()
      ensures Contents() == EMPTY
    {
      experiments, snapshots, outcomes := map[], map[], map[];
    }

    function Contents(): Store
      reads this
    {
      Store(experiments, snapshots, outcomes)
    }

    method SaveExperiment(id: string, e: Experiment)
      modifies this`experiments
      ensures Contents() == Upserted(old(Contents()), id, e)
    {
      if id in experiments {
        experiments := experiments[id := experiments[id].(status := e.status, completedAt := e.completedAt, reason := e.reason)];
      } else {
        experiments := experiments[id := e];
      }
    }

    method Start(id: string, portfolio: string, policy: Policy, now: int, equity: Option<real>) returns (r: Result<Experiment, Error>)
      modifies this`experiments
      ensures r == StartedResult(old(Contents()), id, portfolio, policy, now, equity)
      ensures Contents() == Started(old(Contents()), id, portfolio, policy, now, equity)
    {
      if id in experiments {
        var existing := experiments[id];
        if existing.portfolio != portfolio || existing.policy != policy { return Err(IDENTITY_DOES_NOT_MATCH); }
        return Ok(existing);
      }
      if equity.None? { return Err(UNKNOWN_PORTFOLIO); }
      var e := Experiment(portfolio, policy, now, now + LENGTH, RUNNING, equity.value, None, None);
      SaveExperiment(id, e);
      return Ok(e);
    }

    method PermitsExecution(id: string, portfolio: string, policy: Policy, now: int) returns (r: Result<bool, Error>)
      modifies this`experiments
      ensures r == PermitResult(old(Contents()), id, portfolio, policy, now)
      ensures Contents() == Permitted(old(Contents()), id, portfolio, policy, now)
    {
      if id !in experiments { return Err(UNKNOWN_EXPERIMENT); }
      var e := experiments[id];
      if e.status != RUNNING { return Ok(false); }
      if e.portfolio != portfolio || e.policy != policy {
        SaveExperiment(id, e.(status := INVALIDATED, completedAt := Some(now), reason := Some("identity")));
        return Err(IDENTITY_DOES_NOT_MATCH);
      }
      if now >= e.plannedEnd {
        SaveExperiment(id, e.(status := COMPLETED, completedAt := Some(e.plannedEnd)));
        return Ok(false);
      }
      return Ok(now >= e.startedAt);
    }

    method Capture(id: string, d: Decision, policy: Policy) returns (r: Result<nat, Error>)
      modifies this`experiments, this`snapshots
      ensures r.Err? <==> CaptureError(old(Contents()), id, d, policy).Some?
      ensures r.Err? ==> CaptureError(old(Contents()), id, d, policy) == Some(r.error)
      ensures r.Ok? ==> r.value == |snapshots| - old(|snapshots|)
      ensures Contents() == Captured(old(Contents()), id, d, policy)
    {
      if id !in experiments { return Err(UNKNOWN_EXPERIMENT); }
      var e := experiments[id];
      if e.status != RUNNING { return Ok(0); }
      if !(e.startedAt <= d.asOf <= e.plannedEnd) { return Ok(0); }
      if d.portfolio != e.portfolio { return Err(PORTFOLIO_DOES_NOT_MATCH); }
      if policy != e.policy {
        SaveExperiment(id, e.(status := INVALIDATED, completedAt := Some(d.asOf), reason := Some("configuration")));
        return Err(CONFIGURATION_CHANGED);
      }
      if d.asOf >= e.plannedEnd {
        SaveExperiment(id, e.(status := COMPLETED, completedAt := Some(d.asOf)));
      }
      var inserted := 0;
      ghost var rows := snapshots;
      for n := 0 to |d.assessments|
        invariant experiments == Captured(old(Contents()), id, d, policy).experiments
        invariant snapshots == WithSnapshots(rows, id, d, policy, n)
        invariant inserted == |snapshots| - |rows|
      {
        var a := d.assessments[n];
        var key := SnapshotId(id, d.asOf, a.pair);
        if key !in snapshots {
          snapshots := snapshots[key := Snapshot(e.policy, a.price, a.detail)];
          inserted := inserted + 1;
        }
      }
      return Ok(inserted);
    }

    method Interrupt(id: string, reason: string, now: int) returns (r: Result<Experiment, Error>)
      modifies this`experiments
      ensures r.Err? <==> id !in old(experiments)
      ensures r.Ok? ==> id in experiments && r.value == experiments[id]
      ensures Contents() == Interrupted(old(Contents()), id, reason, now)
    {
      if id !in experiments { return Err(UNKNOWN_EXPERIMENT); }
      var e := experiments[id];
      if e.status != RUNNING { return Ok(e); }
      var stopped := e.(status := INTERRUPTED, completedAt := Some(now), reason := Some(reason));
      SaveExperiment(id, stopped);
      return Ok(stopped);
    }

    /** The rows of one experiment; the order of the query does not matter to any caller. */
    method SnapshotsOf(id: string) returns (ids: seq<SnapshotId>)
      ensures forall i :: i in ids <==> i in snapshots && i.experiment == id
      ensures forall m, n :: 0 <= m < n < |ids| ==> ids[m] != ids[n]
    {
      ids := [];
      var left := snapshots.Keys;
      while left != {}
        invariant left <= snapshots.Keys
        invariant forall i :: i in ids <==> i in snapshots && i !in left && i.experiment == id
        invariant forall m, n :: 0 <= m < n < |ids| ==> ids[m] != ids[n]
        decreases |left|
      {
        var i :| i in left;
        left := left - {i};
        if i.experiment == id { ids := ids + [i]; }
      }
    }

    method SaveOutcome(key: Key, o: Outcome) returns (inserted: nat)
      modifies this`outcomes
      ensures outcomes == if key in old(outcomes) then old(outcomes) else old(outcomes)[key := o]
      ensures inserted == |outcomes| - old(|outcomes|)
    {
      if key in outcomes { return 0; }
      outcomes := outcomes[key := o];
      return 1;
    }

    /** One horizon of one priced snapshot; `s` is the store before the evaluation. */
    method EvaluateOne(id: string, key: Key, existing: set<Key>, feed: Feed, now: int, ghost s: Store, ghost done: set<Key>)
      returns (inserted: nat)
      requires snapshots == s.snapshots && IsExisting(existing, s, id)
      requires EvaluatedSoFar(s, id, feed, now, done, outcomes)
      requires key.snapshot in snapshots && key.snapshot.experiment == id && key.horizon in Horizons()
      requires s.snapshots[key.snapshot].Priced()
      modifies this`outcomes
      ensures EvaluatedSoFar(s, id, feed, now, done + {key}, outcomes)
      ensures inserted == |outcomes| - old(|outcomes|)
    {
      hide OutcomeOf;
      if key in existing || now < Target(key) { return 0; }
      var outcome := OutcomeOf(key, snapshots[key.snapshot], feed, now);
      if outcome.result.Err? && now < Target(key) + GRACE { return 0; }
      inserted := SaveOutcome(key, outcome);
    }

    method EvaluateSnapshot(id: string, i: SnapshotId, existing: set<Key>, feed: Feed, now: int, ghost s: Store, ghost done: set<Key>)
      returns (inserted: nat)
      requires snapshots == s.snapshots && IsExisting(existing, s, id)
      requires EvaluatedSoFar(s, id, feed, now, done, outcomes)
      requires i in snapshots && i.experiment == id
      modifies this`outcomes
      ensures EvaluatedSoFar(s, id, feed, now, AllVisited(done, i), outcomes)
      ensures inserted == |outcomes| - old(|outcomes|)
    {
      hide EvaluatedSoFar, OutcomeOf, Due, Horizons, IsExisting;
      inserted := 0;
      if snapshots[i].price.None? || snapshots[i].price.value <= 0.0 {
        NothingDue(s, id, i, feed, now, done, outcomes);
        return;
      }
      for m := 0 to |Horizons()|
        invariant EvaluatedSoFar(s, id, feed, now, Visited(done, i, m), outcomes)
        invariant inserted == |outcomes| - old(|outcomes|)
      {
        var one := EvaluateOne(id, Key(i, Horizons()[m]), existing, feed, now, s, Visited(done, i, m));
        inserted := inserted + one;
      }
    }

    method EvaluatePending(id: string, feed: Feed, now: int) returns (r: Result<nat, Error>)
      modifies this`experiments, this`outcomes
      ensures r.Err? <==> id !in old(experiments)
      ensures r.Ok? ==> r.value == |outcomes| - old(|outcomes|)
      ensures Contents() == Evaluated(old(Contents()), id, feed, now)
    {
      hide EvaluatedSoFar, OutcomeOf, Due, Horizons;
      if id !in experiments { return Err(UNKNOWN_EXPERIMENT); }
      ghost var s := Contents();
      var e := experiments[id];
      if e.status == RUNNING && now >= e.plannedEnd {
        SaveExperiment(id, e.(status := COMPLETED, completedAt := Some(e.plannedEnd)));
      }
      assert Contents() == Closed(s, id, now);
      hide Closed;
      var existing := set key <- outcomes | key.snapshot.experiment == id;
      var inserted := 0;
      var ids := SnapshotsOf(id);
      ghost var done: set<Key> := {};
      NoneVisited(s, id, feed, now);
      for n := 0 to |ids|
        invariant experiments == Closed(s, id, now).experiments
        invariant EvaluatedSoFar(s, id, feed, now, done, outcomes)
        invariant inserted == |outcomes| - |s.outcomes|
        invariant forall i, h :: i in ids[..n] && h in Horizons() ==> Key(i, h) in done
      {
        var one := EvaluateSnapshot(id, ids[n], existing, feed, now, s, done);
        done := AllVisited(done, ids[n]);
        inserted := inserted + one;
      }
      assert ids[..|ids|] == ids;
      forall key | Due(s, id, key, feed, now) ensures key in done {
        DueIsVisited(s, id, key, feed, now);
      }
      AllEvaluated(s, id, feed, now, done, outcomes);
      return Ok(inserted);
    }
  }

  /** The keys in `done` and the first m horizons of a snapshot. */
  ghost function Visited(done: set<Key>, i: SnapshotId, m: nat): (r: set<Key>)
    requires m <= |Horizons()|
    ensures forall key :: key in r <==> key in done || (key.snapshot == i && key.horizon in Horizons()[..m])
  {
    if m == 0 then done else
      assert Horizons()[..m] == Horizons()[..m - 1] + [Horizons()[m - 1]];
      assert forall key: Key :: key == Key(key.snapshot, key.horizon);
      Visited(done, i, m - 1) + {Key(i, Horizons()[m - 1])}
  }

  ghost function AllVisited(done: set<Key>, i: SnapshotId): (r: set<Key>)
    ensures forall key :: key in r <==> key in done || (key.snapshot == i && key.horizon in Horizons())
  {
    assert Horizons()[..|Horizons()|] == Horizons();
    Visited(done, i, |Horizons()|)
  }

  ghost predicate IsExisting(existing: set<Key>, s: Store, id: string) {
    forall k :: k in existing <==> k in s.outcomes && k.snapshot.experiment == id
  }

  lemma NoneVisited(s: Store, id: string, feed: Feed, now: int)
    ensures EvaluatedSoFar(s, id, feed, now, {}, s.outcomes)
  {
    hide OutcomeOf;
  }

  lemma DueIsVisited(s: Store, id: string, key: Key, feed: Feed, now: int)
    requires Due(s, id, key, feed, now)
    ensures key.snapshot in s.snapshots && key.snapshot.experiment == id && key.horizon in Horizons()
    ensures key == Key(key.snapshot, key.horizon)
  {
    hide OutcomeOf;
  }

  lemma NothingDue(s: Store, id: string, i: SnapshotId, feed: Feed, now: int, done: set<Key>, outcomes: map<Key, Outcome>)
    requires i in s.snapshots && !s.snapshots[i].Priced() && EvaluatedSoFar(s, id, feed, now, done, outcomes)
    ensures EvaluatedSoFar(s, id, feed, now, AllVisited(done, i), outcomes)
  {
    hide OutcomeOf;
  }

  /** The outcomes once the keys in `done` were visited. */
  ghost predicate EvaluatedSoFar(s: Store, id: string, feed: Feed, now: int, done: set<Key>, outcomes: map<Key, Outcome>) {
    && (forall key :: key in outcomes <==> key in s.outcomes || (key in done && Due(s, id, key, feed, now)))
    && (forall key <- outcomes ::
          outcomes[key] == if key in s.outcomes then s.outcomes[key] else OutcomeOf(key, s.snapshots[key.snapshot], feed, now))
  }

  lemma AllEvaluated(s: Store, id: string, feed: Feed, now: int, done: set<Key>, outcomes: map<Key, Outcome>)
    requires id in s.experiments && EvaluatedSoFar(s, id, feed, now, done, outcomes)
    requires forall key :: Due(s, id, key, feed, now) ==> key in done
    ensures Evaluated(s, id, feed, now) == Closed(s, id, now).(outcomes := outcomes)
  {
    hide OutcomeOf;
    var due := map key | key in Keys(s) && Due(s, id, key, feed, now) :: OutcomeOf(key, s.snapshots[key.snapshot], feed, now);
    forall key ensures key in due <==> Due(s, id, key, feed, now) {
      if Due(s, id, key, feed, now) { assert key == Key(key.snapshot, key.horizon) && key in Keys(s); }
    }
    assert outcomes == s.outcomes + due;
  }

  // ---------------------------------------------------------------- runs of service calls

  datatype Step =
    | Start(id: string, portfolio: string, policy: Policy, now: int, equity: Option<real>)
    | Permit(id: string, portfolio: string, policy: Policy, now: int)
    | Capture(id: string, decision: Decision, policy: Policy)
    | Interrupt(id: string, why: string, now: int)
    | Evaluate(id: string, feed: Feed, now: int)

  function Next(s: Store, step: Step): Store {
    match step
    case Start(id, portfolio, policy, now, equity) => Started(s, id, portfolio, policy, now, equity)
    case Permit(id, portfolio, policy, now) => Permitted(s, id, portfolio, policy, now)
    case Capture(id, decision, policy) => Captured(s, id, decision, policy)
    case Interrupt(id, why, now) => Interrupted(s, id, why, now)
    case Evaluate(id, feed, now) => Evaluated(s, id, feed, now)
  }

  function Run(s: Store, steps: seq<Step>): Store
    decreases |steps|
  {
    if steps == [] then s else Run(Next(s, steps[0]), steps[1..])
  }

  /** Identity never changes, a closed experiment never changes, evidence is only added. */
  ghost predicate Extends(s: Store, t: Store) {
    && (forall id <- s.experiments ::
          && id in t.experiments
          && var a, b := s.experiments[id], t.experiments[id];
             && b == a.(status := b.status, completedAt := b.completedAt, reason := b.reason)
             && (a.status != RUNNING ==> b == a))
    && (forall i <- s.snapshots :: i in t.snapshots && t.snapshots[i] == s.snapshots[i])
    && (forall k <- s.outcomes :: k in t.outcomes && t.outcomes[k] == s.outcomes[k])
  }

  lemma {:induction false} WithSnapshotsKeepsRows(rows: map<SnapshotId, Snapshot>, id: string, d: Decision, policy: Policy, n: nat)
    requires n <= |d.assessments|
    ensures var after := WithSnapshots(rows, id, d, policy, n);
      && (forall i <- rows :: i in after && after[i] == rows[i])
      && (forall i <- after :: i in rows || (i.experiment == id && i.time == d.asOf && after[i].policy == policy))
      && (forall m :: 0 <= m < n ==> IdOf(id, d, d.assessments[m]) in after)
  {
    if n > 0 { WithSnapshotsKeepsRows(rows, id, d, policy, n - 1); }
  }

  lemma UpsertExtends(s: Store, id: string, e: Experiment)
    requires id in s.experiments ==> s.experiments[id].status == RUNNING
    ensures Extends(s, Upserted(s, id, e))
  {
  }

  lemma CaptureExtends(s: Store, id: string, d: Decision, policy: Policy)
    ensures Extends(s, Captured(s, id, d, policy))
  {
    hide Extends, Upserted;
    if CaptureError(s, id, d, policy) == Some(CONFIGURATION_CHANGED) {
      UpsertExtends(s, id, s.experiments[id].(status := INVALIDATED, completedAt := Some(d.asOf), reason := Some("configuration")));
    } else if Captures(s, id, d, policy) {
      var e := s.experiments[id];
      UpsertExtends(s, id, e.(status := COMPLETED, completedAt := Some(d.asOf)));
      UnchangedExtends(s);
      var t := if d.asOf >= e.plannedEnd then Upserted(s, id, e.(status := COMPLETED, completedAt := Some(d.asOf))) else s;
      CaptureAddsRows(s, t, id, d, policy);
    } else {
      UnchangedExtends(s);
    }
  }

  lemma UnchangedExtends(s: Store)
    ensures Extends(s, s)
  {
  }

  lemma CaptureAddsRows(s: Store, t: Store, id: string, d: Decision, policy: Policy)
    requires Extends(s, t)
    ensures Extends(s, t.(snapshots := WithSnapshots(s.snapshots, id, d, policy, |d.assessments|)))
  {
    WithSnapshotsKeepsRows(s.snapshots, id, d, policy, |d.assessments|);
    hide WithSnapshots;
  }

  lemma StepExtends(s: Store, step: Step)
    ensures Extends(s, Next(s, step))
  {
    hide Extends, OutcomeOf, Due, Keys, Horizons, Evaluated, Captured, Upserted;
    UnchangedExtends(s);
    match step {
      case Start(id, portfolio, policy, now, equity) =>
        if id !in s.experiments && equity.Some? {
          UpsertExtends(s, id, Experiment(portfolio, policy, now, now + LENGTH, RUNNING, equity.value, None, None));
        }
      case Permit(id, portfolio, policy, now) =>
        if id in s.experiments && s.experiments[id].status == RUNNING {
          var e := s.experiments[id];
          UpsertExtends(s, id, e.(status := INVALIDATED, completedAt := Some(now), reason := Some("identity")));
          UpsertExtends(s, id, e.(status := COMPLETED, completedAt := Some(e.plannedEnd)));
        }
      case Capture(id, decision, policy) => CaptureExtends(s, id, decision, policy);
      case Interrupt(id, why, now) =>
        if id in s.experiments && s.experiments[id].status == RUNNING {
          UpsertExtends(s, id, s.experiments[id].(status := INTERRUPTED, completedAt := Some(now), reason := Some(why)));
        }
      case Evaluate(id, feed, now) => EvaluateExtends(s, id, feed, now);
    }
  }

  lemma EvaluateExtends(s: Store, id: string, feed: Feed, now: int)
    ensures Extends(s, Evaluated(s, id, feed, now))
  {
    EvaluateOnlyAdds(s, id, feed, now);
    hide Evaluated, OutcomeOf, Due;
  }

  lemma EvaluateOnlyAdds(s: Store, id: string, feed: Feed, now: int)
    ensures var t := Evaluated(s, id, feed, now);
      && t.snapshots == s.snapshots
      && t.experiments == (if id in s.experiments then Closed(s, id, now) else s).experiments
      && (forall k <- s.outcomes :: k in t.outcomes && t.outcomes[k] == s.outcomes[k])
      && (forall k :: k in t.outcomes <==> k in s.outcomes || (id in s.experiments && Due(s, id, k, feed, now)))
      && (forall k <- t.outcomes :: k !in s.outcomes ==> t.outcomes[k] == OutcomeOf(k, s.snapshots[k.snapshot], feed, now))
  {
    hide OutcomeOf;
    forall key | Due(s, id, key, feed, now) ensures key in Keys(s) {
      assert key == Key(key.snapshot, key.horizon);
    }
  }

  /** Over every run of service calls: a status that left RUNNING is final, identity and stored evidence never change. */
  lemma {:induction false} RunExtends(s: Store, steps: seq<Step>)
    ensures Extends(s, Run(s, steps))
    decreases |steps|
  {
    if steps != [] {
      StepExtends(s, steps[0]);
      RunExtends(Next(s, steps[0]), steps[1..]);
      ExtendsChain(s, Next(s, steps[0]), Run(s, steps));
    }
  }

  lemma ExtendsChain(s: Store, t: Store, u: Store)
    requires Extends(s, t) && Extends(t, u)
    ensures Extends(s, u)
  {
  }

  // ---------------------------------------------------------------- what the store always says

  ghost predicate SoundExperiments(s: Store) {
    forall id <- s.experiments ::
      var e := s.experiments[id];
      && e.plannedEnd == e.startedAt + LENGTH
      && (e.status == RUNNING ==> e.completedAt.None? && e.reason.None?)
      && (e.status == COMPLETED ==> e.completedAt == Some(e.plannedEnd) && e.reason.None?)
      && (e.status in {INTERRUPTED, INVALIDATED} ==> e.completedAt.Some? && e.reason.Some?)
  }

  /** Snapshots are taken while the experiment lasts, under its own frozen policy. */
  ghost predicate SoundSnapshots(s: Store) {
    forall i <- s.snapshots ::
      && i.experiment in s.experiments
      && s.experiments[i.experiment].startedAt <= i.time <= s.experiments[i.experiment].plannedEnd
      && s.snapshots[i].policy == s.experiments[i.experiment].policy
  }

  ghost predicate SoundOutcome(s: Store, k: Key) {
    && k in s.outcomes && k.snapshot in s.snapshots && s.snapshots[k.snapshot].Priced() && k.horizon in Horizons()
    && var o := s.outcomes[k];
       && o.target == Target(k) && o.evaluatedAt >= o.target
       && (o.result.Err? ==> o.evaluatedAt >= o.target + GRACE)
       && (o.result.Ok? ==> -1.0 < o.result.value.mae <= o.result.value.forward <= o.result.value.mfe)
  }

  ghost predicate Sound(s: Store) {
    SoundExperiments(s) && SoundSnapshots(s) && forall k <- s.outcomes :: SoundOutcome(s, k)
  }

  ghost predicate ValidFeed(feed: Feed) {
    forall pair, start, end ::
      var r := feed(pair, start, end);
      r.Ok? ==> forall c <- r.value :: 0.0 < c.low <= c.close <= c.high
  }

  lemma ChangeIsMonotone(a: real, b: real, reference: real)
    requires reference > 0.0 && 0.0 < a <= b
    ensures -1.0 < Change(a, reference) <= Change(b, reference)
  {
    var x, y := a / reference, b / reference;
    assert a == x * reference && b == y * reference;
    if x > y { ProductMonotone(y, x, reference); }
    assert x > 0.0;
  }

  /** A measured outcome orders its returns: worst, final, best. */
  lemma MeasuredIsOrdered(cs: seq<Candle>, target: int, reference: real)
    requires reference > 0.0 && forall c <- cs :: 0.0 < c.low <= c.close <= c.high
    ensures var r := Measured(cs, target, reference);
      r.Ok? ==> -1.0 < r.value.mae <= r.value.forward <= r.value.mfe
  {
    if cs != [] {
      var last := cs[|cs| - 1];
      assert last in cs;
      ChangeIsMonotone(Lowest(cs), last.close, reference);
      ChangeIsMonotone(last.close, Highest(cs), reference);
    }
  }

  lemma DueIsSound(s: Store, id: string, key: Key, feed: Feed, now: int, t: Store)
    requires Due(s, id, key, feed, now) && ValidFeed(feed)
    requires t.snapshots == s.snapshots && key in t.outcomes && t.outcomes[key] == OutcomeOf(key, s.snapshots[key.snapshot], feed, now)
    ensures SoundOutcome(t, key)
  {
    var start := key.snapshot.time - 15 * MINUTE;
    var fetched := feed(key.snapshot.pair, start, Target(key));
    if fetched.Ok? {
      var cs := Between(fetched.value, key.snapshot.time, Target(key));
      MeasuredIsOrdered(cs, Target(key), s.snapshots[key.snapshot].price.value);
      hide Measured, Between, Highest, Lowest;
    }
  }

  /** Closing a running experiment with a sound row keeps the store sound. */
  lemma UpsertKeepsSound(s: Store, id: string, e: Experiment)
    requires Sound(s) && SoundExperiments(Store(map[id := e], map[], map[]))
    requires id in s.experiments ==> s.experiments[id].startedAt == e.startedAt
    ensures Sound(Upserted(s, id, e))
  {
    var t := Upserted(s, id, e);
    assert e == map[id := e][id];
    assert t.experiments[id].plannedEnd == e.plannedEnd;
    forall k | k in t.outcomes ensures SoundOutcome(t, k) {
      assert SoundOutcome(s, k);
    }
  }

  lemma CaptureKeepsSound(s: Store, id: string, d: Decision, policy: Policy)
    requires Sound(s) && Captures(s, id, d, policy)
    ensures Sound(Captured(s, id, d, policy))
  {
    var e := s.experiments[id];
    var t := if d.asOf >= e.plannedEnd then Upserted(s, id, e.(status := COMPLETED, completedAt := Some(d.asOf))) else s;
    UpsertKeepsSound(s, id, e.(status := COMPLETED, completedAt := Some(e.plannedEnd)));
    assert Sound(t) && t.experiments[id].policy == policy && t.snapshots == s.snapshots;
    assert t.experiments[id].startedAt <= d.asOf <= t.experiments[id].plannedEnd;
    hide Upserted, Captures;
    RowsKeepSound(t, id, d, policy);
  }

  lemma RowsKeepSound(t: Store, id: string, d: Decision, policy: Policy)
    requires Sound(t) && id in t.experiments && t.experiments[id].policy == policy
    requires t.experiments[id].startedAt <= d.asOf <= t.experiments[id].plannedEnd
    ensures Sound(t.(snapshots := WithSnapshots(t.snapshots, id, d, policy, |d.assessments|)))
  {
    WithSnapshotsKeepsRows(t.snapshots, id, d, policy, |d.assessments|);
    hide WithSnapshots, Horizons;
    var u := t.(snapshots := WithSnapshots(t.snapshots, id, d, policy, |d.assessments|));
    forall k | k in u.outcomes ensures SoundOutcome(u, k) {
      assert SoundOutcome(t, k);
    }
  }

  lemma StepKeepsSound(s: Store, step: Step)
    requires Sound(s) && (step.Evaluate? ==> ValidFeed(step.feed))
    ensures Sound(Next(s, step))
  {
    assert step.id in s.experiments ==> SoundExperiments(Store(map[step.id := s.experiments[step.id]], map[], map[]));
    hide Sound, Upserted, Captured, Evaluated, ValidFeed;
    match step {
      case Start(id, portfolio, policy, now, equity) =>
        if id !in s.experiments && equity.Some? {
          UpsertKeepsSound(s, id, Experiment(portfolio, policy, now, now + LENGTH, RUNNING, equity.value, None, None));
        }
      case Permit(id, portfolio, policy, now) =>
        if id in s.experiments && s.experiments[id].status == RUNNING {
          var e := s.experiments[id];
          UpsertKeepsSound(s, id, e.(status := INVALIDATED, completedAt := Some(now), reason := Some("identity")));
          UpsertKeepsSound(s, id, e.(status := COMPLETED, completedAt := Some(e.plannedEnd)));
        }
      case Capture(id, d, policy) => CaptureStepKeepsSound(s, id, d, policy);
      case Interrupt(id, why, now) =>
        if id in s.experiments && s.experiments[id].status == RUNNING {
          UpsertKeepsSound(s, id, s.experiments[id].(status := INTERRUPTED, completedAt := Some(now), reason := Some(why)));
        }
      case Evaluate(id, feed, now) => EvaluateKeepsSound(s, id, feed, now);
    }
  }

  lemma CaptureStepKeepsSound(s: Store, id: string, d: Decision, policy: Policy)
    requires Sound(s)
    ensures Sound(Captured(s, id, d, policy))
  {
    assert id in s.experiments ==> SoundExperiments(Store(map[id := s.experiments[id]], map[], map[]));
    if Captures(s, id, d, policy) {
      hide Sound;
      CaptureKeepsSound(s, id, d, policy);
    } else if CaptureError(s, id, d, policy) == Some(CONFIGURATION_CHANGED) {
      hide Sound;
      UpsertKeepsSound(s, id, s.experiments[id].(status := INVALIDATED, completedAt := Some(d.asOf), reason := Some("configuration")));
    }
  }

  lemma EvaluateKeepsSound(s: Store, id: string, feed: Feed, now: int)
    requires Sound(s) && ValidFeed(feed)
    ensures Sound(Evaluated(s, id, feed, now))
  {
    hide OutcomeOf, Due, Horizons, ValidFeed;
    var t := Evaluated(s, id, feed, now);
    EvaluateOnlyAdds(s, id, feed, now);
    hide Evaluated;
    forall k | k in t.outcomes ensures SoundOutcome(t, k) {
      if k !in s.outcomes { DueIsSound(s, id, k, feed, now, t); }
    }
  }

  /**
   * In every reachable store no outcome precedes its target, a missing one waited out the grace, measured returns are
   * ordered, snapshots lie within their experiment under its policy, and a completed experiment ended when planned.
   */
  lemma {:induction false} EveryRunIsSound(s: Store, steps: seq<Step>)
    requires Sound(s) && forall x <- steps :: x.Evaluate? ==> ValidFeed(x.feed)
    ensures Sound(Run(s, steps))
    decreases |steps|
  {
    if steps != [] {
      hide Sound, Next, ValidFeed;
      assert steps[0] in steps;
      assert forall x <- steps[1..] :: x in steps;
      StepKeepsSound(s, steps[0]);
      EveryRunIsSound(Next(s, steps[0]), steps[1..]);
    }
  }

  // ---------------------------------------------------------------- evaluation

  /** Evaluating again with the same data at the same time changes nothing. */
  lemma EvaluationIsIdempotent(s: Store, id: string, feed: Feed, now: int)
    ensures var t := Evaluated(s, id, feed, now); Evaluated(t, id, feed, now) == t
  {
    hide OutcomeOf, Horizons, Keys;
    var t := Evaluated(s, id, feed, now);
    EvaluateOnlyAdds(s, id, feed, now);
    EvaluateOnlyAdds(t, id, feed, now);
    var u := Evaluated(t, id, feed, now);
    hide Evaluated;
    assert forall k :: Due(t, id, k, feed, now) ==> Due(s, id, k, feed, now);
    assert u.outcomes == t.outcomes;
  }

  /** A later evaluation never revises an earlier one, even on different data. */
  lemma EvaluationNeverRevises(s: Store, id: string, feed: Feed, now: int, later: Feed, at: int, key: Key)
    requires key in Evaluated(s, id, feed, now).outcomes
    ensures var t := Evaluated(s, id, feed, now);
      key in Evaluated(t, id, later, at).outcomes && Evaluated(t, id, later, at).outcomes[key] == t.outcomes[key]
  {
    EvaluateOnlyAdds(Evaluated(s, id, feed, now), id, later, at);
  }

  /** Once the grace of the last horizon has passed, one evaluation leaves one row for every horizon of every priced snapshot. */
  lemma EvaluationIsComplete(s: Store, id: string, feed: Feed, now: int)
    requires id in s.experiments && Sound(s)
    requires forall i <- s.snapshots :: i.experiment == id ==> now >= i.time + 1440 * MINUTE + GRACE
    ensures var t := Evaluated(s, id, feed, now);
      forall i <- s.snapshots, h :: i.experiment == id ==>
        (Key(i, h) in t.outcomes <==> s.snapshots[i].Priced() && h in Horizons())
  {
    hide OutcomeOf, Keys;
    EvaluateOnlyAdds(s, id, feed, now);
    var t := Evaluated(s, id, feed, now);
    hide Evaluated;
    assert forall h <- Horizons() :: h <= 1440;
    forall i <- s.snapshots, h | i.experiment == id
      ensures Key(i, h) in t.outcomes <==> s.snapshots[i].Priced() && h in Horizons()
    {
      if s.snapshots[i].Priced() && h in Horizons() && Key(i, h) !in s.outcomes {
        assert Target(Key(i, h)) + GRACE <= now;
        assert Due(s, id, Key(i, h), feed, now);
      }
      if Key(i, h) in s.outcomes { assert SoundOutcome(s, Key(i, h)); }
    }
  }

  // ---------------------------------------------------------------- execution permits

  /** After a refusal for the deadline or for a wrong identity no later call is ever permitted again. */
  lemma RefusalIsFinal(s: Store, id: string, portfolio: string, policy: Policy, now: int, steps: seq<Step>,
                       otherPortfolio: string, otherPolicy: Policy, later: int)
    requires id in s.experiments
    requires PermitResult(s, id, portfolio, policy, now).Err? || now >= s.experiments[id].plannedEnd
    ensures var t := Run(Permitted(s, id, portfolio, policy, now), steps);
      PermitResult(t, id, otherPortfolio, otherPolicy, later) == Ok(false)
  {
    var u := Permitted(s, id, portfolio, policy, now);
    assert id in u.experiments && u.experiments[id].status != RUNNING;
    RunExtends(u, steps);
  }

  /** A permit means the frozen identity and a time inside the experiment, and leaves the store alone. */
  lemma PermitMeans(s: Store, id: string, portfolio: string, policy: Policy, now: int)
    ensures PermitResult(s, id, portfolio, policy, now) == Ok(true) <==>
      && id in s.experiments && s.experiments[id].status == RUNNING && Matches(s.experiments[id], portfolio, policy)
      && s.experiments[id].startedAt <= now < s.experiments[id].plannedEnd
    ensures PermitResult(s, id, portfolio, policy, now) == Ok(true) ==> Permitted(s, id, portfolio, policy, now) == s
  {
  }
}
