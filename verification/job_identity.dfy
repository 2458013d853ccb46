/** At most one execution of an identity, over runs of the job protocol (runtime/service.py, run_job). */
module JobIdentity {
  import opened Wrappers
  import opened RuntimeState
  import opened JobProtocol

  /** The call may still begin on its lease, or has begun and did not fail. */
  predicate Bids(j: Job, clock: real) {
    j.spec.identity.Some? && ((j.place == Checked && clock < j.expires) || j.status in {RUNNING, COMPLETED})
  }

  predicate SameIdentity(a: Job, b: Job) { a.spec.identity.Some? && a.spec.identity == b.spec.identity }

  /** At most one call of an identity is past its lookup on a live lease, running or completed. */
  ghost predicate UniqueIdentities(s: System) {
    forall i <- s.jobs, j <- s.jobs ::
      Bids(s.jobs[i], s.clock) && Bids(s.jobs[j], s.clock) && SameIdentity(s.jobs[i], s.jobs[j]) ==> i == j
  }

  /** At most one record of an identity is running or completed. */
  ghost predicate ExecutesOnce(s: System) {
    forall i <- s.jobs, j <- s.jobs ::
      (s.jobs[i].status in {RUNNING, COMPLETED} && s.jobs[j].status in {RUNNING, COMPLETED}
       && SameIdentity(s.jobs[i], s.jobs[j])) ==> i == j
  }

  /** The scheduler derives identity and lock key from one configured job, so an identity has one lock key. */
  predicate KeyedSpec(spec: Spec, keyOf: string -> string) {
    spec.identity.Some? ==> spec.lockKey == Some(keyOf(spec.identity.value))
  }

  ghost predicate Keyed(s: System, keyOf: string -> string) {
    forall i <- s.jobs :: KeyedSpec(s.jobs[i].spec, keyOf)
  }

  /** No call of an identity begins after its lease has expired, and the lookup still reads every record. */
  predicate Timely(s: System, step: Step, keyOf: string -> string) {
    match step
    case Schedule(_, _, spec) => KeyedSpec(spec, keyOf)
    case LookUp(_) => |s.jobs| <= LOOKUP_LIMIT
    case Begin(id) => Live(s, id, Checked) && s.jobs[id].spec.identity.Some? ==> s.clock < s.jobs[id].expires
    case _ => true
  }

  predicate TimelyRun(s: System, steps: seq<Step>, keyOf: string -> string)
    decreases |steps|
  {
    steps == [] || (Timely(s, steps[0], keyOf) && TimelyRun(Next(s, steps[0]), steps[1..], keyOf))
  }

  // ---------------------------------------------------------------- what a step does to the calls

  lemma KeyedStays(s: System, step: Step, keyOf: string -> string)
    requires Keyed(s, keyOf) && Timely(s, step, keyOf)
    ensures Keyed(Next(s, step), keyOf)
  {
    hide Next, KeyedSpec;
    SpecsStay(s, step);
  }

  // ---------------------------------------------------------------- bids stay unique

  lemma UniqueKept(s: System, t: System)
    requires UniqueIdentities(s)
    requires forall i <- t.jobs :: Bids(t.jobs[i], t.clock) ==> i in s.jobs && Bids(s.jobs[i], s.clock) && s.jobs[i].spec == t.jobs[i].spec
    ensures UniqueIdentities(t)
  {
    hide Bids;
    forall i <- t.jobs, j <- t.jobs | Bids(t.jobs[i], t.clock) && Bids(t.jobs[j], t.clock) && SameIdentity(t.jobs[i], t.jobs[j])
      ensures i == j
    {
      assert SameIdentity(s.jobs[i], s.jobs[j]);
    }
  }

  lemma AllRecordsAreRead(s: System, i: Id, identity: string)
    requires i in s.jobs && |s.jobs| <= LOOKUP_LIMIT && Claims(s.jobs[i], identity)
    ensures Found(s, identity)
  {
    Subset(Newer(s, i), s.jobs.Keys - {i});
    assert |Newer(s, i)| < LOOKUP_LIMIT;
  }

  lemma {:induction false} Subset(a: set<Id>, b: set<Id>)
    requires a <= b
    ensures |a| <= |b|
    decreases |a|
  {
    if a != {} {
      var x :| x in a;
      Subset(a - {x}, b - {x});
    }
  }

  lemma UniqueAfterLookUp(s: System, id: Id, keyOf: string -> string)
    requires Inv(s) && UniqueIdentities(s) && Keyed(s, keyOf) && |s.jobs| <= LOOKUP_LIMIT
    requires id in s.jobs && s.jobs[id].place == Leased
    ensures UniqueIdentities(LookUpStep(s, id, s.jobs[id]))
  {
    hide Found, ScopesHeld, HandlersPlaced, ActiveIdsExact, Newer, Spec.Scope;
    var j, t := s.jobs[id], LookUpStep(s, id, s.jobs[id]);
    forall a <- t.jobs, b <- t.jobs | Bids(t.jobs[a], t.clock) && Bids(t.jobs[b], t.clock) && SameIdentity(t.jobs[a], t.jobs[b])
      ensures a == b
    {
      if a != id && b != id {
        assert SameIdentity(s.jobs[a], s.jobs[b]);
      } else if a != b {
        OtherBidIsSeen(s, id, if a == id then b else a, keyOf);
      }
    }
  }

  /** While holding the unexpired lease, another bid for the same identity can only be a record the lookup finds. */
  lemma OtherBidIsSeen(s: System, id: Id, other: Id, keyOf: string -> string)
    requires LeasesHeld(s) && RecordsMatch(s) && Keyed(s, keyOf) && |s.jobs| <= LOOKUP_LIMIT
    requires id in s.jobs && s.jobs[id].place == Leased && s.clock < s.jobs[id].expires && other in s.jobs && other != id
    requires Bids(s.jobs[other], s.clock) && SameIdentity(s.jobs[id], s.jobs[other])
    ensures Found(s, s.jobs[id].spec.identity.value)
  {
    assert KeyedSpec(s.jobs[id].spec, keyOf) && KeyedSpec(s.jobs[other].spec, keyOf);
    assert s.jobs[id].Holding() && Owns(s, id);
    assert s.jobs[other].status in {RUNNING, COMPLETED} by {
      if s.jobs[other].place == Checked { assert s.jobs[other].Holding(); }
    }
    AllRecordsAreRead(s, other, s.jobs[id].spec.identity.value);
  }

  /** Only the lookup makes a call bid for its identity, unless it begins too late. */
  lemma OnlyLookUpBids(s: System, step: Step, id: Id, keyOf: string -> string)
    requires id in s.jobs && RecordFits(s.jobs[id]) && s.jobs[id].pid in s.processes && !(step.LookUp? && s.jobs[id].place == Leased)
    requires !step.OfProcess() && step.id == id && Timely(s, step, keyOf)
    ensures var t := JobStep(s, step, id); id in t.jobs && (Bids(t.jobs[id], s.clock) ==> Bids(s.jobs[id], s.clock))
  {
    hide SameEngine, SameScopes, Spec.Scope, Leave, Found, Without, EnterStep, AcquireStep, LookUpStep, ReleaseStep, DiscardStep;
    if step.Enter? { EnterIsLocal(s, id); }
    else if step.Acquire? { AcquireIsLocal(s, id); }
    else if step.Discard? { DiscardIsLocal(s, id); }
    else if step.Release? { ReleaseIsLocal(s, id); }
    else { RunningIsLocal(s, step, id); }
  }

  lemma UniqueAfterOneJob(s: System, t: System, id: Id)
    requires UniqueIdentities(s) && OneJob(s, t, id) && (Bids(t.jobs[id], t.clock) ==> Bids(s.jobs[id], s.clock))
    ensures UniqueIdentities(t)
  {
    hide Bids, UniqueIdentities;
    UniqueKept(s, t);
  }

  lemma RecordOf(s: System, id: Id)
    requires RecordsMatch(s) && id in s.jobs
    ensures RecordFits(s.jobs[id])
  {
  }

  lemma ClockOfOneJob(s: System, t: System, id: Id)
    requires OneJob(s, t, id)
    ensures t.clock == s.clock && t.jobs.Keys == s.jobs.Keys
  {
  }

  lemma UniqueAfterJobStep(s: System, step: Step, keyOf: string -> string)
    requires Inv(s) && UniqueIdentities(s) && Keyed(s, keyOf) && Timely(s, step, keyOf)
    requires !step.OfProcess() && step.id in s.jobs && s.jobs[step.id].pid in s.processes
    ensures UniqueIdentities(JobStep(s, step, step.id))
  {
    hide UniqueIdentities, ScopesHeld, HandlersPlaced, LeasesHeld, RecordsMatch, ActiveIdsExact, Keyed, OneJob, Bids, Live,
         EnterStep, AcquireStep, LookUpStep, BeginStep, EndStep, ReleaseStep, DiscardStep;
    var id := step.id;
    if step.LookUp? && s.jobs[id].place == Leased {
      UniqueAfterLookUp(s, id, keyOf);
    } else {
      RecordOf(s, id);
      JobStepIsLocal(s, step, id);
      OnlyLookUpBids(s, step, id, keyOf);
      ClockOfOneJob(s, JobStep(s, step, id), id);
      UniqueAfterOneJob(s, JobStep(s, step, id), id);
    }
  }

  lemma UniqueAfterStep(s: System, step: Step, keyOf: string -> string)
    requires Inv(s) && UniqueIdentities(s) && Keyed(s, keyOf) && Timely(s, step, keyOf)
    ensures UniqueIdentities(Next(s, step))
  {
    hide Inv, UniqueIdentities, Keyed, Timely, JobStep, Spec.Scope;
    if !step.OfProcess() {
      if step.id in s.jobs && s.jobs[step.id].pid in s.processes { UniqueAfterJobStep(s, step, keyOf); }
    } else {
      UniqueKept(s, ProcessStep(s, step));
    }
  }

  lemma {:induction false} UniqueOverRuns(s: System, steps: seq<Step>, keyOf: string -> string)
    requires Inv(s) && UniqueIdentities(s) && Keyed(s, keyOf) && TimelyRun(s, steps, keyOf)
    ensures UniqueIdentities(Run(s, steps))
    decreases |steps|
  {
    if steps != [] {
      hide Inv, UniqueIdentities, Keyed, Timely, Next;
      UniqueAfterStep(s, steps[0], keyOf);
      KeyedStays(s, steps[0], keyOf);
      StepKeepsInv(s, steps[0]);
      UniqueOverRuns(Next(s, steps[0]), steps[1..], keyOf);
    }
  }

  /**
   * Over every run in which no call of an identity begins on an expired lease, at most one record of an identity is ever
   * running or completed. A handler that overruns its lease later does no harm, and neither does a call that stalls past
   * its lease and never begins, or a crash.
   */
  lemma OneExecutionPerIdentity(steps: seq<Step>, keyOf: string -> string)
    requires TimelyRun(EMPTY, steps, keyOf)
    ensures ExecutesOnce(Run(EMPTY, steps))
  {
    assert Inv(EMPTY);
    hide Next, Run, TimelyRun, Inv;
    UniqueOverRuns(EMPTY, steps, keyOf);
  }

  // ---------------------------------------------------------------- a bound on the delay before the begin

  /** Every identity has one key and one lease time, and a call begins within a delay of taking its lease. */
  predicate Delayed(s: System, step: Step, keyOf: string -> string, ttl: real, delay: real) {
    match step
    case Schedule(_, _, spec) => KeyedSpec(spec, keyOf) && (spec.identity.Some? ==> spec.ttl == Some(ttl))
    case LookUp(_) => |s.jobs| <= LOOKUP_LIMIT
    case Begin(id) => Live(s, id, Checked) && s.jobs[id].spec.identity.Some? ==> s.clock - s.jobs[id].acquired <= delay
    case _ => true
  }

  predicate DelayedRun(s: System, steps: seq<Step>, keyOf: string -> string, ttl: real, delay: real)
    decreases |steps|
  {
    steps == []
    || (Delayed(s, steps[0], keyOf, ttl, delay) && DelayedRun(Next(s, steps[0]), steps[1..], keyOf, ttl, delay))
  }

  predicate TermsOf(j: Job, keyOf: string -> string, ttl: real) {
    j.spec.identity.Some? ==>
      && KeyedSpec(j.spec, keyOf) && j.spec.ttl == Some(ttl)
      && (j.place in {Leased, Checked} ==> j.expires == j.acquired + ttl)
  }

  ghost predicate Terms(s: System, keyOf: string -> string, ttl: real) {
    forall i <- s.jobs :: TermsOf(s.jobs[i], keyOf, ttl)
  }

  lemma TermsAfterJobStep(s: System, step: Step, id: Id, keyOf: string -> string, ttl: real)
    requires id in s.jobs && s.jobs[id].pid in s.processes && TermsOf(s.jobs[id], keyOf, ttl)
    ensures TermsOf(JobStep(s, step, id).jobs[id], keyOf, ttl)
  {
    var j, t := s.jobs[id], JobStep(s, step, id);
    hide Spec.Scope, Leave, Found, EnterStep, LookUpStep, BeginStep, EndStep, ReleaseStep, DiscardStep, KeyedSpec;
    if step.Enter? { EnterIsLocal(s, id); }
    else if step.Acquire? { AcquireIsLocal(s, id); }
    else if step.Discard? { DiscardIsLocal(s, id); }
    else if step.Release? { ReleaseIsLocal(s, id); }
    else { RunningIsLocal(s, step, id); }
  }

  lemma TermsStay(s: System, step: Step, keyOf: string -> string, ttl: real, delay: real)
    requires Terms(s, keyOf, ttl) && Delayed(s, step, keyOf, ttl, delay)
    ensures Terms(Next(s, step), keyOf, ttl)
  {
    hide Spec.Scope, KeyedSpec, JobStep;
    if !step.OfProcess() && step.id in s.jobs && s.jobs[step.id].pid in s.processes {
      TermsAfterJobStep(s, step, step.id, keyOf, ttl);
      JobStepIsLocal(s, step, step.id);
      hide TermsOf;
    }
  }

  lemma {:induction false} ShortDelayIsTimely(s: System, steps: seq<Step>, keyOf: string -> string, ttl: real, delay: real)
    requires Terms(s, keyOf, ttl) && delay < ttl && DelayedRun(s, steps, keyOf, ttl, delay)
    ensures TimelyRun(s, steps, keyOf)
    decreases |steps|
  {
    if steps != [] {
      assert Timely(s, steps[0], keyOf);
      TermsStay(s, steps[0], keyOf, ttl, delay);
      hide Terms, Delayed, Timely, Next;
      ShortDelayIsTimely(Next(s, steps[0]), steps[1..], keyOf, ttl, delay);
    }
  }

  // ---------------------------------------------------------------- the expiry before the begin

  /**
   * A lease that expires between lookup and begin: another process passes its own lookup, and both executions of the
   * identity run.
   */
  lemma ExpiryBeforeBeginDuplicates(s: System, i: Id, j: Id, p: nat, q: nat, spec: Spec)
    requires i != j && p != q && i !in s.jobs && j !in s.jobs && spec.lockKey.Some? && spec.identity.Some?
    requires Admits(s, p, spec) && Admits(s, q, spec)
    requires forall x <- s.jobs :: !Claims(s.jobs[x], spec.identity.value)
    ensures var t := Next(Run(s, ToLookUp(i, p, spec)), Tick(spec.ttl.value));
      var v := Run(t, ToLookUp(j, q, spec));
      var u := Next(Next(v, Begin(i)), Begin(j));
      && i in u.jobs && j in u.jobs && u.jobs[i].status == u.jobs[j].status == RUNNING && SameIdentity(u.jobs[i], u.jobs[j])
      && i in v.jobs && j in v.jobs && v.clock - v.jobs[i].acquired == spec.ttl.value && v.clock == v.jobs[j].acquired
      && j in Next(v, Begin(i)).jobs && Next(v, Begin(i)).clock == Next(v, Begin(i)).jobs[j].acquired
  {
    var s1 := Run(s, ToLookUp(i, p, spec));
    var t := Next(s1, Tick(spec.ttl.value));
    assert t == s1.(clock := s1.clock + spec.ttl.value);
    hide Next, ToLookUp, Run;
    GetsPastLookUp(s, i, p, spec);
    GetsPastLookUp(t, j, q, spec);
    var u := Run(t, ToLookUp(j, q, spec));
    Beginning(u, i);
    Beginning(Next(u, Begin(i)), j);
  }

  lemma {:induction false} DelayedConcat(s: System, a: seq<Step>, b: seq<Step>, keyOf: string -> string, ttl: real, delay: real)
    requires DelayedRun(s, a, keyOf, ttl, delay) && DelayedRun(Run(s, a), b, keyOf, ttl, delay)
    ensures DelayedRun(s, a + b, keyOf, ttl, delay)
    decreases |a|
  {
    hide Next, Delayed;
    if a == [] {
      assert a + b == b;
    } else {
      assert (a + b)[0] == a[0] && (a + b)[1..] == a[1..] + b;
      DelayedConcat(Next(s, a[0]), a[1..], b, keyOf, ttl, delay);
    }
  }

  /** A delayed run followed by another one. */
  lemma DelayedThen(s: System, a: seq<Step>, b: seq<Step>, keyOf: string -> string, ttl: real, delay: real)
    requires DelayedRun(s, a, keyOf, ttl, delay) && DelayedRun(Run(s, a), b, keyOf, ttl, delay)
    ensures DelayedRun(s, a + b, keyOf, ttl, delay) && Run(s, a + b) == Run(Run(s, a), b)
  {
    DelayedConcat(s, a, b, keyOf, ttl, delay);
    RunConcat(s, a, b);
  }

  lemma OnlyScheduleAdds(s: System, step: Step)
    ensures Next(s, step).jobs.Keys == s.jobs.Keys + if step.Schedule? && step.pid in s.processes then {step.id} else {}
  {
    hide JobStep, Spec.Scope;
    if !step.OfProcess() && step.id in s.jobs && s.jobs[step.id].pid in s.processes { JobStepIsLocal(s, step, step.id); }
  }

  lemma ToLookUpIsDelayed(s: System, id: Id, pid: nat, spec: Spec, keyOf: string -> string, ttl: real, delay: real)
    requires |s.jobs| < LOOKUP_LIMIT && KeyedSpec(spec, keyOf) && spec.ttl == Some(ttl)
    ensures DelayedRun(s, ToLookUp(id, pid, spec), keyOf, ttl, delay)
  {
    hide Next, KeyedSpec;
    var a, b, c, d := Schedule(id, pid, spec), Enter(id), Acquire(id), LookUp(id);
    var s1 := Next(s, a);
    var s2 := Next(s1, b);
    var s3 := Next(s2, c);
    OnlyScheduleAdds(s, a);
    OnlyScheduleAdds(s1, b);
    OnlyScheduleAdds(s2, c);
    assert |s3.jobs| == |s3.jobs.Keys| <= |s.jobs.Keys| + 1;
    assert ToLookUp(id, pid, spec)[1..] == [b, c, d] && [b, c, d][1..] == [c, d] && [c, d][1..] == [d] && [d][1..] == [];
    assert DelayedRun(s3, [d], keyOf, ttl, delay);
    assert DelayedRun(s2, [c, d], keyOf, ttl, delay);
    assert DelayedRun(s1, [b, c, d], keyOf, ttl, delay);
  }

  function SharedSpec(ttl: real): Spec { Spec("job", Some("key"), Some(ttl), Some("identity"), false) }

  /** Two processes run one identity: the first call begins a whole lease after it took the lease. */
  function LateBegin(ttl: real): seq<Step> {
    [Boot(0), Boot(1)] + (ToLookUp(0, 0, SharedSpec(ttl)) + ([Tick(ttl)] + (ToLookUp(1, 1, SharedSpec(ttl)) + [Begin(0), Begin(1)])))
  }

  lemma TwoProcesses()
    ensures Run(EMPTY, [Boot(0), Boot(1)]) == EMPTY.(processes := map[0 := FRESH, 1 := FRESH])
  {
    var one := EMPTY.(processes := map[0 := FRESH]);
    assert Next(EMPTY, Boot(0)) == one;
    assert Next(one, Boot(1)) == EMPTY.(processes := map[0 := FRESH, 1 := FRESH]);
    assert [Boot(0), Boot(1)][1..] == [Boot(1)] && [Boot(1)][1..] == [];
    hide Next;
    assert Run(one, [Boot(1)]) == Next(one, Boot(1));
  }

  lemma TwoBegins(s: System, i: Id, j: Id, keyOf: string -> string, ttl: real, delay: real)
    requires Delayed(s, Begin(i), keyOf, ttl, delay) && Delayed(Next(s, Begin(i)), Begin(j), keyOf, ttl, delay)
    ensures DelayedRun(s, [Begin(i), Begin(j)], keyOf, ttl, delay)
    ensures Run(s, [Begin(i), Begin(j)]) == Next(Next(s, Begin(i)), Begin(j))
  {
    hide Next, Delayed;
    assert [Begin(i), Begin(j)][1..] == [Begin(j)] && [Begin(j)][1..] == [];
    assert Run(Next(s, Begin(i)), [Begin(j)]) == Next(Next(s, Begin(i)), Begin(j));
    assert DelayedRun(Next(s, Begin(i)), [Begin(j)], keyOf, ttl, delay);
  }

  lemma OneTick(s: System, keyOf: string -> string, ttl: real, delay: real)
    ensures DelayedRun(s, [Tick(ttl)], keyOf, ttl, delay) && Run(s, [Tick(ttl)]) == Next(s, Tick(ttl))
  {
    hide Next;
    assert [Tick(ttl)][1..] == [];
  }

  /** Two idle processes that admit the call, and no record yet. */
  ghost predicate Idle(s: System, spec: Spec, keyOf: string -> string, ttl: real) {
    && s.jobs == map[] && Admits(s, 0, spec) && Admits(s, 1, spec)
    && spec.identity.Some? && spec.lockKey.Some? && KeyedSpec(spec, keyOf) && spec.ttl == Some(ttl)
  }

  lemma LookUpsAreDelayed(s: System, spec: Spec, keyOf: string -> string, ttl: real, delay: real)
    requires Idle(s, spec, keyOf, ttl)
    ensures DelayedRun(s, ToLookUp(0, 0, spec), keyOf, ttl, delay)
    ensures DelayedRun(Next(Run(s, ToLookUp(0, 0, spec)), Tick(ttl)), ToLookUp(1, 1, spec), keyOf, ttl, delay)
  {
    hide Next, ToLookUp, Run, DelayedRun, Admits, KeyedSpec;
    var s1 := Run(s, ToLookUp(0, 0, spec));
    GetsPastLookUp(s, 0, 0, spec);
    OnlyScheduleAdds(s1, Tick(ttl));
    assert |Next(s1, Tick(ttl)).jobs| == |Next(s1, Tick(ttl)).jobs.Keys| == |{0}|;
    ToLookUpIsDelayed(s, 0, 0, spec, keyOf, ttl, delay);
    ToLookUpIsDelayed(Next(s1, Tick(ttl)), 1, 1, spec, keyOf, ttl, delay);
  }

  /** From there the late begin reaches two running records, and no call exceeds the delay. */
  lemma BeginsDuplicate(s: System, spec: Spec, keyOf: string -> string, ttl: real, delay: real)
    requires Idle(s, spec, keyOf, ttl) && 0.0 < ttl <= delay
    ensures var v := Run(Next(Run(s, ToLookUp(0, 0, spec)), Tick(ttl)), ToLookUp(1, 1, spec));
      DelayedRun(v, [Begin(0), Begin(1)], keyOf, ttl, delay) && !ExecutesOnce(Run(v, [Begin(0), Begin(1)]))
  {
    hide Next, ToLookUp, Run, DelayedRun, Admits, KeyedSpec, SameIdentity;
    ExpiryBeforeBeginDuplicates(s, 0, 1, 0, 1, spec);
    var v := Run(Next(Run(s, ToLookUp(0, 0, spec)), Tick(ttl)), ToLookUp(1, 1, spec));
    assert Delayed(v, Begin(0), keyOf, ttl, delay);
    assert Delayed(Next(v, Begin(0)), Begin(1), keyOf, ttl, delay);
    TwoBegins(v, 0, 1, keyOf, ttl, delay);
  }

  lemma FreshIsIdle(ttl: real)
    requires ttl > 0.0
    ensures Idle(EMPTY.(processes := map[0 := FRESH, 1 := FRESH]), SharedSpec(ttl), _ => "key", ttl)
  {
  }

  lemma LateBeginDuplicates(ttl: real, delay: real)
    requires 0.0 < ttl <= delay
    ensures DelayedRun(EMPTY, LateBegin(ttl), _ => "key", ttl, delay) && !ExecutesOnce(Run(EMPTY, LateBegin(ttl)))
  {
    var spec, keyOf := SharedSpec(ttl), (identity: string) => "key";
    var boots, begins := [Boot(0), Boot(1)], [Begin(0), Begin(1)];
    var s := Run(EMPTY, boots);
    TwoProcesses();
    FreshIsIdle(ttl);
    BootsAreDelayed(keyOf, ttl, delay);
    hide Next, Run, ToLookUp, DelayedRun, ExecutesOnce, Delayed, Idle, SharedSpec;
    LookUpsAreDelayed(s, spec, keyOf, ttl, delay);
    BeginsDuplicate(s, spec, keyOf, ttl, delay);
    var s1 := Run(s, ToLookUp(0, 0, spec));
    var t := Next(s1, Tick(ttl));
    OneTick(s1, keyOf, ttl, delay);
    DelayedThen(t, ToLookUp(1, 1, spec), begins, keyOf, ttl, delay);
    DelayedThen(s1, [Tick(ttl)], ToLookUp(1, 1, spec) + begins, keyOf, ttl, delay);
    DelayedThen(s, ToLookUp(0, 0, spec), [Tick(ttl)] + (ToLookUp(1, 1, spec) + begins), keyOf, ttl, delay);
    DelayedThen(EMPTY, boots, ToLookUp(0, 0, spec) + ([Tick(ttl)] + (ToLookUp(1, 1, spec) + begins)), keyOf, ttl, delay);
  }

  lemma BootsAreDelayed(keyOf: string -> string, ttl: real, delay: real)
    ensures DelayedRun(EMPTY, [Boot(0), Boot(1)], keyOf, ttl, delay)
  {
    hide Next;
    assert [Boot(0), Boot(1)][1..] == [Boot(1)] && [Boot(1)][1..] == [];
    assert DelayedRun(Next(EMPTY, Boot(0)), [Boot(1)], keyOf, ttl, delay);
  }

  /**
   * The exact bound: with one lease time, every run whose calls begin within a delay of taking their lease executes each
   * identity at most once, if and only if the delay is shorter than the lease.
   */
  lemma OneExecutionIffDelayIsShort(ttl: real, delay: real)
    requires ttl > 0.0
    ensures delay < ttl <==>
      forall steps, keyOf :: DelayedRun(EMPTY, steps, keyOf, ttl, delay) ==> ExecutesOnce(Run(EMPTY, steps))
  {
    hide ExecutesOnce, Run, DelayedRun, LateBegin;
    if delay < ttl {
      forall steps, keyOf | DelayedRun(EMPTY, steps, keyOf, ttl, delay) ensures ExecutesOnce(Run(EMPTY, steps)) {
        ShortDelayIsTimely(EMPTY, steps, keyOf, ttl, delay);
        OneExecutionPerIdentity(steps, keyOf);
      }
    } else {
      LateBeginDuplicates(ttl, delay);
    }
  }

  // ---------------------------------------------------------------- the limit of the lookup

  /** The lookup finds an identity if and only if some record claims it. */
  predicate LookUpExact(s: System, identity: string) {
    Found(s, identity) <==> exists i <- s.jobs :: Claims(s.jobs[i], identity)
  }

  lemma ExactWithinLimit(s: System, identity: string)
    requires |s.jobs| <= LOOKUP_LIMIT
    ensures LookUpExact(s, identity)
  {
    if exists i <- s.jobs :: Claims(s.jobs[i], identity) {
      var i :| i in s.jobs && Claims(s.jobs[i], identity);
      AllRecordsAreRead(s, i, identity);
    }
  }

  /** So many calls scheduled one after the other. */
  function Schedules(first: Id, count: nat, spec: Spec): seq<Step>
    decreases count
  {
    if count == 0 then [] else [Schedule(first, 0, spec)] + Schedules(first + 1, count - 1, spec)
  }

  /** The ids from the first one up. */
  function Ids(first: Id, count: nat): (ids: set<Id>)
    ensures forall i :: i in ids <==> first <= i < first + count
    ensures |ids| == count
    decreases count
  {
    if count == 0 then {} else {first} + Ids(first + 1, count - 1)
  }

  /** So many scheduled calls were added, from an id on, and nothing else. */
  ghost predicate Added(s: System, t: System, first: Id, count: nat) {
    && (forall i :: i in t.jobs <==> i in s.jobs || first <= i < first + count)
    && (forall i <- s.jobs :: i in t.jobs && t.jobs[i] == s.jobs[i])
    && forall i <- t.jobs :: i in s.jobs || t.jobs[i].status == SCHEDULED
  }

  lemma AddedOneMore(s: System, first: Id, job: Job, u: System, count: nat)
    requires count > 0 && (forall i <- s.jobs :: i < first) && job.status == SCHEDULED
    requires Added(WithJob(s, first, job), u, first + 1, count - 1)
    ensures Added(s, u, first, count)
  {
    var t := WithJob(s, first, job);
    assert forall i :: i in t.jobs <==> i in s.jobs || i == first;
    assert forall i <- s.jobs :: t.jobs[i] == s.jobs[i];
    assert u.jobs[first] == t.jobs[first] == job;
  }

  lemma AddedNone(s: System, first: Id)
    ensures Added(s, s, first, 0)
  {
  }

  lemma SchedulingOne(s: System, id: Id, spec: Spec)
    requires 0 in s.processes && id !in s.jobs
    ensures Next(s, Schedule(id, 0, spec)) == WithJob(s, id, Job(0, spec, Scheduled, SCHEDULED, 0.0, 0.0, false))
  {
  }

  lemma {:induction false} SchedulesAdd(s: System, first: Id, count: nat, spec: Spec)
    requires 0 in s.processes && forall i <- s.jobs :: i < first
    ensures Added(s, Run(s, Schedules(first, count, spec)), first, count)
    decreases count
  {
    if count == 0 {
      AddedNone(s, first);
    } else {
      hide Next, Added;
      var job := Job(0, spec, Scheduled, SCHEDULED, 0.0, 0.0, false);
      SchedulingOne(s, first, spec);
      var t := WithJob(s, first, job);
      SchedulesAdd(t, first + 1, count - 1, spec);
      assert Schedules(first, count, spec)[1..] == Schedules(first + 1, count - 1, spec);
      AddedOneMore(s, first, job, Run(t, Schedules(first + 1, count - 1, spec)), count);
    }
  }

  /** One call of the identity begins, and then so many others are scheduled. */
  function BuriedRun(identity: string, others: nat): seq<Step> {
    var spec := Spec("job", None, None, Some(identity), false);
    ([Boot(0)] + (ToLookUp(0, 0, spec) + [Begin(0)])) + Schedules(1, others, Spec("other", None, None, None, false))
  }

  lemma BuriedCall(identity: string)
    ensures var spec := Spec("job", None, None, Some(identity), false);
      var t := Run(EMPTY, [Boot(0)] + (ToLookUp(0, 0, spec) + [Begin(0)]));
      t.jobs.Keys == {0} && Claims(t.jobs[0], identity) && 0 in t.processes
  {
    var spec := Spec("job", None, None, Some(identity), false);
    var s := Next(EMPTY, Boot(0));
    assert s == EMPTY.(processes := map[0 := FRESH]);
    hide Next, Run, ToLookUp;
    var t := Run(s, ToLookUp(0, 0, spec));
    GetsPastLookUp(s, 0, 0, spec);
    Beginning(t, 0);
    RunOne(EMPTY, Boot(0));
    RunOne(t, Begin(0));
    RunConcat(s, ToLookUp(0, 0, spec), [Begin(0)]);
    RunConcat(EMPTY, [Boot(0)], ToLookUp(0, 0, spec) + [Begin(0)]);
  }

  /** The record is still RUNNING, every other record is newer, and the lookup no longer finds it. */
  lemma BuriedRecordIsForgotten(identity: string, others: nat)
    requires others == LOOKUP_LIMIT
    ensures var s := Run(EMPTY, BuriedRun(identity, others)); |s.jobs| == others + 1 && !LookUpExact(s, identity)
  {
    var spec := Spec("job", None, None, Some(identity), false);
    var calls := [Boot(0)] + (ToLookUp(0, 0, spec) + [Begin(0)]);
    var more := Schedules(1, others, Spec("other", None, None, None, false));
    hide Run, Next, Schedules, ToLookUp;
    BuriedCall(identity);
    RunConcat(EMPTY, calls, more);
    SchedulesAdd(Run(EMPTY, calls), 1, others, Spec("other", None, None, None, false));
    ForgottenBehind(Run(EMPTY, BuriedRun(identity, others)), identity, others);
  }

  lemma ForgottenBehind(s: System, identity: string, others: nat)
    requires others == LOOKUP_LIMIT && (forall i :: i in s.jobs <==> i == 0 || 1 <= i < 1 + others)
    requires Claims(s.jobs[0], identity) && forall i <- s.jobs :: i != 0 ==> s.jobs[i].status == SCHEDULED
    ensures |s.jobs| == others + 1 && !LookUpExact(s, identity)
  {
    hide Ids;
    assert s.jobs.Keys == {0} + Ids(1, others);
    assert |s.jobs| == |s.jobs.Keys| == |{0} + Ids(1, others)| == others + 1;
    assert Newer(s, 0) == Ids(1, others);
    assert forall i <- s.jobs :: Claims(s.jobs[i], identity) ==> i == 0;
  }

  /**
   * The limit is exact: on all stores of at most so many records, and on all reachable ones, the lookup finds exactly the
   * claimed identities if and only if the number is at most 10,000.
   */
  lemma LookUpIsExactIffWithinLimit(n: nat)
    ensures n <= LOOKUP_LIMIT <==> forall s: System, identity :: |s.jobs| <= n ==> LookUpExact(s, identity)
    ensures n <= LOOKUP_LIMIT <==>
      forall steps, identity :: |Run(EMPTY, steps).jobs| <= n ==> LookUpExact(Run(EMPTY, steps), identity)
  {
    hide LookUpExact, Run, BuriedRun;
    if n <= LOOKUP_LIMIT {
      forall s: System, identity | |s.jobs| <= n ensures LookUpExact(s, identity) { ExactWithinLimit(s, identity); }
    } else {
      BuriedRecordIsForgotten("identity", LOOKUP_LIMIT);
    }
  }
}
