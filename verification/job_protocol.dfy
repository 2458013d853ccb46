/**
 * The steps of many run_job calls in many processes over one lease table and one clock (runtime/service.py).
 * Each step is one locked block, one database transaction or one file operation of the original.
 */
module JobProtocol {
  import opened Wrappers
  import opened RuntimeState
  import Sorting

  /** An empty lock key or identity of the original is None here. */
  datatype Spec = Spec(name: string, lockKey: Option<string>, ttl: Option<real>, identity: Option<string>, timed: bool) {
    function Scope(): string { lockKey.GetOr(name) }
  }

  /** Where a call stands; Leaked is an exception between entering the scope and the guarded block. */
  datatype Place = Scheduled | Entered | Leased | Checked | Running | Finished | Freed | Over | Leaked | Crashed

  /** A call with its stored record; `handling` is true while its handler runs. */
  datatype Job = Job(pid: nat, spec: Spec, place: Place, status: JobStatus, acquired: real, expires: real, handling: bool) {
    predicate Inside() { place in {Entered, Leased, Checked, Running, Finished, Freed, Leaked} }

    predicate Holding() { place in {Leased, Checked, Running, Finished} && spec.lockKey.Some? }
  }

  datatype System = System(clock: real, leases: map<string, Lease>, processes: map<nat, Process>, jobs: map<Id, Job>)

  datatype Step =
    | Tick(elapsed: real)
    | Boot(pid: nat)
    | Crash(pid: nat)
    | Start(pid: nat)
    | Stop(pid: nat)
    | Publish(pid: nat, delivered: bool)
    | Schedule(id: Id, pid: nat, spec: Spec)
    | Enter(id: Id)
    | Acquire(id: Id)
    | AcquireRaises(id: Id)
    | LookUp(id: Id)
    | LookUpRaises(id: Id)
    | Begin(id: Id)
    | HandlerEnds(id: Id, ok: bool)
    | TimeOut(id: Id)
    | OrphanEnds(id: Id)
    | Release(id: Id)
    | Discard(id: Id)
  {
    predicate OfProcess() { Tick? || Boot? || Crash? || Start? || Stop? || Publish? || Schedule? }
  }

  const EMPTY := System(0.0, map[], map[], map[])

  const LOOKUP_LIMIT := 10000

  /** Records with a greater id are newer; the lookup reads the newest 10,000. */
  function Newer(s: System, id: Id): set<Id> {
    set j <- s.jobs | j > id
  }

  predicate Claims(j: Job, identity: string) {
    j.spec.identity == Some(identity) && j.status in {RUNNING, COMPLETED}
  }

  predicate Found(s: System, identity: string) {
    exists i <- s.jobs :: Claims(s.jobs[i], identity) && |Newer(s, i)| < LOOKUP_LIMIT
  }

  function WithJob(s: System, id: Id, j: Job): System {
    s.(jobs := s.jobs[id := j])
  }

  function WithEngine(s: System, pid: nat, e: Engine): System
    requires pid in s.processes
  {
    s.(processes := s.processes[pid := s.processes[pid].(engine := e)])
  }

  function WithScopes(s: System, pid: nat, scopes: set<string>): System
    requires pid in s.processes
  {
    s.(processes := s.processes[pid := s.processes[pid].(scopes := scopes)])
  }

  function Leave(s: System, id: Id, j: Job): System
    requires j.pid in s.processes
  {
    WithJob(WithScopes(s, j.pid, s.processes[j.pid].scopes - {j.spec.Scope()}), id, j.(place := Over))
  }

  function Died(j: Job): Job {
    if j.place == Over && !j.handling then j else j.(place := if j.place == Over then Over else Crashed, handling := false)
  }

  function EnterStep(s: System, id: Id, j: Job): System
    requires j.pid in s.processes
  {
    var p := s.processes[j.pid];
    if !p.accepting || j.spec.Scope() in p.scopes
    then WithJob(s, id, j.(place := Over, status := if j.spec.lockKey.Some? then SKIPPED_LOCKED else SKIPPED))
    else WithJob(WithScopes(s, j.pid, p.scopes + {j.spec.Scope()}), id, j.(place := Entered))
  }

  function AcquireStep(s: System, id: Id, j: Job): System
    requires j.pid in s.processes
  {
    if j.spec.lockKey.None? then WithJob(s, id, j.(place := Leased))
    else if j.spec.ttl.None? then Leave(s, id, j)
    else if j.spec.ttl.value <= 0.0 then WithJob(s, id, j.(place := Leaked))
    else if !Acquirable(s.leases, j.spec.lockKey.value, s.clock) then Leave(s, id, j.(status := SKIPPED_LOCKED))
    else
      var taken := s.(leases := RuntimeState.Acquired(s.leases, j.spec.lockKey.value, id, j.spec.ttl.value, s.clock));
      WithJob(taken, id, j.(place := Leased, acquired := s.clock, expires := s.clock + j.spec.ttl.value))
  }

  function LookUpStep(s: System, id: Id, j: Job): System {
    WithJob(s, id, j.(place := if j.spec.identity.Some? && Found(s, j.spec.identity.value) then Finished else Checked))
  }

  function BeginStep(s: System, id: Id, j: Job): System
    requires j.pid in s.processes
  {
    WithJob(WithEngine(s, j.pid, Began(s.processes[j.pid].engine, id)), id,
            j.(place := Running, status := RUNNING, handling := true))
  }

  function EndStep(s: System, id: Id, j: Job, status: JobStatus, handling: bool): System
    requires j.pid in s.processes
  {
    WithJob(WithEngine(s, j.pid, Completed(s.processes[j.pid].engine, id, status)), id,
            j.(place := Finished, status := status, handling := handling))
  }

  function ReleaseStep(s: System, id: Id, j: Job): System {
    var freed := if j.spec.lockKey.Some? then s.(leases := Released(s.leases, j.spec.lockKey.value, id)) else s;
    WithJob(freed, id, j.(place := Freed))
  }

  function DiscardStep(s: System, id: Id, j: Job): System
    requires j.pid in s.processes
  {
    Leave(s, id, if j.status == SCHEDULED then j.(status := SKIPPED_DUPLICATE) else j)
  }

  /** A job's own step; steps that are not enabled change nothing. */
  function JobStep(s: System, step: Step, id: Id): System
    requires id in s.jobs && s.jobs[id].pid in s.processes
  {
    var j := s.jobs[id];
    match step
    case Enter(_) => if j.place == Scheduled then EnterStep(s, id, j) else s
    case Acquire(_) => if j.place == Entered then AcquireStep(s, id, j) else s
    case AcquireRaises(_) =>
      if j.place == Entered && j.spec.lockKey.Some? && j.spec.ttl.Some? then WithJob(s, id, j.(place := Leaked)) else s
    case LookUp(_) => if j.place == Leased then LookUpStep(s, id, j) else s
    case LookUpRaises(_) =>
      if j.place == Leased && j.spec.identity.Some? then WithJob(s, id, j.(place := Leaked)) else s
    case Begin(_) => if j.place == Checked then BeginStep(s, id, j) else s
    case HandlerEnds(_, ok) =>
      if j.place == Running then EndStep(s, id, j, if ok then COMPLETED else FAILED, false) else s
    case TimeOut(_) =>
      if j.place == Running && j.spec.timed && j.spec.lockKey.None? then EndStep(s, id, j, FAILED, true) else s
    case OrphanEnds(_) => if j.place != Running && j.handling then WithJob(s, id, j.(handling := false)) else s
    case Release(_) => if j.place == Finished then ReleaseStep(s, id, j) else s
    case Discard(_) => if j.place == Freed then DiscardStep(s, id, j) else s
    case _ => s
  }

  function ProcessStep(s: System, step: Step): System {
    match step
    case Tick(elapsed) => if elapsed > 0.0 then s.(clock := s.clock + elapsed) else s
    case Boot(pid) => if pid in s.processes then s else s.(processes := s.processes[pid := FRESH])
    case Crash(pid) =>
      if pid !in s.processes then s
      else s.(processes := s.processes - {pid},
              jobs := map i <- s.jobs :: if s.jobs[i].pid == pid then Died(s.jobs[i]) else s.jobs[i])
    case Start(pid) => if pid in s.processes then WithEngine(s, pid, Started(s.processes[pid].engine)) else s
    case Stop(pid) =>
      if pid !in s.processes then s
      else s.(processes := s.processes[pid := s.processes[pid].(engine := Stopped(s.processes[pid].engine), accepting := false)])
    case Publish(pid, delivered) =>
      if pid in s.processes then WithEngine(s, pid, Published(s.processes[pid].engine, delivered)) else s
    case Schedule(id, pid, spec) =>
      if pid in s.processes && id !in s.jobs
      then WithJob(s, id, Job(pid, spec, Scheduled, SCHEDULED, 0.0, 0.0, false)) else s
    case _ => s
  }

  function Next(s: System, step: Step): System {
    if step.OfProcess() then ProcessStep(s, step)
    else if step.id in s.jobs && s.jobs[step.id].pid in s.processes then JobStep(s, step, step.id)
    else s
  }

  function Run(s: System, steps: seq<Step>): System
    decreases |steps|
  {
    if steps == [] then s else Run(Next(s, steps[0]), steps[1..])
  }

  // ---------------------------------------------------------------- invariants

  predicate SameScope(a: Job, b: Job) {
    a.pid == b.pid && a.spec.Scope() == b.spec.Scope()
  }

  /** Every call inside a scope holds its process's entry for it, and no two calls share one. */
  ghost predicate ScopesHeld(s: System) {
    && (forall i <- s.jobs :: s.jobs[i].Inside() ==>
          s.jobs[i].pid in s.processes && s.jobs[i].spec.Scope() in s.processes[s.jobs[i].pid].scopes)
    && (forall i <- s.jobs, j <- s.jobs ::
          s.jobs[i].Inside() && s.jobs[j].Inside() && SameScope(s.jobs[i], s.jobs[j]) ==> i == j)
  }

  /** A handler runs in its own call, or is the leftover of a timed call without a lock. */
  ghost predicate HandlersPlaced(s: System) {
    forall i <- s.jobs :: s.jobs[i].handling ==>
      s.jobs[i].place == Running
      || (s.jobs[i].place in {Finished, Freed, Over} && s.jobs[i].spec.timed && s.jobs[i].spec.lockKey.None?)
  }

  predicate Owns(s: System, i: Id)
    requires i in s.jobs && s.jobs[i].spec.lockKey.Some?
  {
    var k := s.jobs[i].spec.lockKey.value;
    k in s.leases && s.leases[k] == Lease(i, s.jobs[i].acquired, s.jobs[i].expires)
  }

  /** A holder owns its lease row or has outlived it; of two holders of one key one outlived its lease first. */
  ghost predicate LeasesHeld(s: System) {
    && (forall i <- s.jobs :: s.jobs[i].Holding() ==>
          s.jobs[i].acquired <= s.clock && (Owns(s, i) || s.jobs[i].expires <= s.clock))
    && (forall i <- s.jobs, j <- s.jobs ::
          i != j && s.jobs[i].Holding() && s.jobs[j].Holding() && s.jobs[i].spec.lockKey == s.jobs[j].spec.lockKey ==>
            s.jobs[i].expires <= s.jobs[j].acquired || s.jobs[j].expires <= s.jobs[i].acquired)
    && (forall k <- s.leases :: s.leases[k].owner in s.jobs)
  }

  /** The published active ids are exactly the running calls of the process. */
  ghost predicate ActiveIdsExact(s: System) {
    forall p <- s.processes ::
      && Sorting.NoRepeats(s.processes[p].engine.active)
      && forall i :: i in s.processes[p].engine.active <==> i in s.jobs && s.jobs[i].pid == p && s.jobs[i].place == Running
  }

  /** Records match the place of their call. */
  ghost predicate RecordsMatch(s: System) {
    forall i <- s.jobs :: RecordFits(s.jobs[i])
  }

  predicate RecordFits(j: Job) {
    && (j.place in {Scheduled, Entered, Leased, Checked, Leaked} ==> j.status == SCHEDULED)
    && (j.place == Running <==> j.status == RUNNING && j.place != Crashed)
  }

  // ---------------------------------------------------------------- what one call's step may touch

  /** Only this call's record and its own process change; the process keeps its engine unless the call begins or ends. */
  predicate OneJob(s: System, t: System, id: Id) {
    && id in s.jobs && t.jobs.Keys == s.jobs.Keys && t.processes.Keys == s.processes.Keys && t.clock == s.clock
    && (forall i <- s.jobs :: i != id ==> t.jobs[i] == s.jobs[i])
    && (forall p <- s.processes :: p != s.jobs[id].pid ==> t.processes[p] == s.processes[p])
    && t.jobs[id].pid == s.jobs[id].pid && t.jobs[id].spec == s.jobs[id].spec
  }

  predicate SameEngine(s: System, t: System, pid: nat) {
    pid in s.processes && pid in t.processes && t.processes[pid].engine == s.processes[pid].engine
  }

  predicate SameScopes(s: System, t: System, pid: nat) {
    pid in s.processes && pid in t.processes && t.processes[pid].scopes == s.processes[pid].scopes
  }

  lemma LeaveIsLocal(s: System, id: Id, j: Job)
    requires id in s.jobs && j.pid == s.jobs[id].pid && j.spec == s.jobs[id].spec && j.pid in s.processes
    ensures OneJob(s, Leave(s, id, j), id) && SameEngine(s, Leave(s, id, j), j.pid)
    ensures Leave(s, id, j).leases == s.leases && Leave(s, id, j).jobs[id] == j.(place := Over)
  {
    hide Spec.Scope;
  }

  lemma EnterIsLocal(s: System, id: Id)
    requires id in s.jobs && s.jobs[id].pid in s.processes
    ensures var t := EnterStep(s, id, s.jobs[id]);
      && OneJob(s, t, id) && SameEngine(s, t, s.jobs[id].pid) && t.leases == s.leases
      && t.jobs[id].place in {Over, Entered}
      && (t.jobs[id].place == Over ==> SameScopes(s, t, s.jobs[id].pid) && t.jobs[id].status in {SKIPPED, SKIPPED_LOCKED})
      && (t.jobs[id].place == Entered ==> t.jobs[id].status == s.jobs[id].status)
      && t.jobs[id].handling == s.jobs[id].handling
  {
    hide Spec.Scope;
  }

  lemma WithJobIsLocal(s: System, t: System, id: Id, j: Job)
    requires id in s.jobs && s.jobs[id].pid in s.processes
    requires t.jobs == s.jobs && t.processes == s.processes && t.clock == s.clock
    requires j.pid == s.jobs[id].pid && j.spec == s.jobs[id].spec
    ensures OneJob(s, WithJob(t, id, j), id)
    ensures SameEngine(s, WithJob(t, id, j), j.pid) && SameScopes(s, WithJob(t, id, j), j.pid)
  {
  }

  lemma AcquireIsLocal(s: System, id: Id)
    requires id in s.jobs && s.jobs[id].pid in s.processes
    ensures var j := s.jobs[id]; var t := AcquireStep(s, id, j);
      && OneJob(s, t, id) && SameEngine(s, t, j.pid)
      && t.jobs[id].place in {Over, Leaked, Leased}
      && (t.jobs[id].place == Over ==>
            t.leases == s.leases && t.jobs[id].status in {j.status, SKIPPED_LOCKED} && t == Leave(s, id, j.(status := t.jobs[id].status)))
      && (t.jobs[id].place != Over ==> SameScopes(s, t, j.pid) && t.jobs[id].status == j.status)
      && (t.jobs[id].place == Leaked || j.spec.lockKey.None? ==> t.leases == s.leases)
      && t.jobs[id].handling == j.handling
  {
    hide RuntimeState.Acquired, Acquirable, Leave, Spec.Scope, OneJob, SameEngine, SameScopes;
    var j := s.jobs[id];
    LeaveIsLocal(s, id, j);
    LeaveIsLocal(s, id, j.(status := SKIPPED_LOCKED));
    WithJobIsLocal(s, s, id, j.(place := Leased));
    WithJobIsLocal(s, s, id, j.(place := Leaked));
    if j.spec.lockKey.Some? && j.spec.ttl.Some? {
      var taken := s.(leases := RuntimeState.Acquired(s.leases, j.spec.lockKey.value, id, j.spec.ttl.value, s.clock));
      WithJobIsLocal(s, taken, id, j.(place := Leased, acquired := s.clock, expires := s.clock + j.spec.ttl.value));
    }
  }

  /** What the steps of a running call have in common: the scopes stay, and so do the leases until the release. */
  predicate InPlace(s: System, t: System, id: Id) {
    && OneJob(s, t, id) && s.jobs[id].pid in s.processes
    && SameScopes(s, t, s.jobs[id].pid) && SameTerms(s.jobs[id], t.jobs[id])
  }

  predicate SameTerms(a: Job, b: Job) {
    a.spec == b.spec && a.acquired == b.acquired && a.expires == b.expires
  }

  lemma RunningIsLocal(s: System, step: Step, id: Id)
    requires id in s.jobs && s.jobs[id].pid in s.processes
    requires !step.Enter? && !step.Acquire? && !step.Discard? && !step.Release?
    ensures var j := s.jobs[id]; var t := JobStep(s, step, id);
      && InPlace(s, t, id) && t.leases == s.leases
      && (!BeginsOrEnds(j, step) ==> SameEngine(s, t, j.pid) && t.jobs[id].status == j.status)
      && (t.jobs[id].Holding() ==> j.Holding())
      && (t.jobs[id].Inside() ==> j.Inside())
      && (t.jobs[id].place == j.place || (j.place, t.jobs[id].place) in {
            (Entered, Leaked), (Leased, Leaked), (Leased, Checked), (Leased, Finished), (Checked, Running), (Running, Finished)})
  {
    hide Spec.Scope, Found, Without;
  }

  lemma ReleaseIsLocal(s: System, id: Id)
    requires id in s.jobs && s.jobs[id].pid in s.processes
    ensures var j := s.jobs[id]; var t := ReleaseStep(s, id, j);
      && InPlace(s, t, id) && SameEngine(s, t, j.pid) && t.jobs[id] == j.(place := Freed)
      && (forall k <- s.leases :: s.leases[k].owner != id ==> k in t.leases && t.leases[k] == s.leases[k])
      && (forall k <- t.leases :: k in s.leases && t.leases[k] == s.leases[k])
  {
  }

  lemma DiscardIsLocal(s: System, id: Id)
    requires id in s.jobs && s.jobs[id].pid in s.processes
    ensures var j := s.jobs[id]; var t := DiscardStep(s, id, j);
      && OneJob(s, t, id) && SameEngine(s, t, j.pid) && t.leases == s.leases
      && t.jobs[id].place == Over && t.jobs[id].handling == j.handling
      && t.jobs[id].status == (if j.status == SCHEDULED then SKIPPED_DUPLICATE else j.status)
      && t == Leave(s, id, j.(status := t.jobs[id].status))
  {
    LeaveIsLocal(s, id, s.jobs[id]);
    LeaveIsLocal(s, id, s.jobs[id].(status := SKIPPED_DUPLICATE));
    hide Leave, Spec.Scope;
  }

  lemma NothingIsLocal(s: System, id: Id)
    requires id in s.jobs
    ensures OneJob(s, s, id)
  {
  }

  lemma InPlaceIsLocal(s: System, t: System, id: Id)
    requires InPlace(s, t, id)
    ensures OneJob(s, t, id)
  {
  }

  /** A step of a call changes that call alone. */
  lemma JobStepIsLocal(s: System, step: Step, id: Id)
    requires id in s.jobs && s.jobs[id].pid in s.processes
    ensures OneJob(s, JobStep(s, step, id), id)
  {
    var j, t := s.jobs[id], JobStep(s, step, id);
    NothingIsLocal(s, id);
    hide OneJob, InPlace, Spec.Scope, EnterStep, AcquireStep, LookUpStep, BeginStep, EndStep, ReleaseStep, DiscardStep;
    if step.Enter? { EnterIsLocal(s, id); }
    else if step.Acquire? { AcquireIsLocal(s, id); }
    else if step.Discard? { DiscardIsLocal(s, id); }
    else if step.Release? { ReleaseIsLocal(s, id); InPlaceIsLocal(s, ReleaseStep(s, id, j), id); }
    else { RunningIsLocal(s, step, id); InPlaceIsLocal(s, t, id); }
  }

  /** Calls keep their process and terms of the job; only scheduling adds one. */
  lemma SpecsStay(s: System, step: Step)
    ensures var t := Next(s, step);
      forall i <- t.jobs ::
        if i in s.jobs then t.jobs[i].spec == s.jobs[i].spec else step.Schedule? && t.jobs[i].spec == step.spec
  {
    hide Spec.Scope;
    if !step.OfProcess() && step.id in s.jobs && s.jobs[step.id].pid in s.processes { JobStepIsLocal(s, step, step.id); }
    hide JobStep;
  }

  predicate BeginsOrEnds(j: Job, step: Step) {
    match step
    case Begin(_) => j.place == Checked
    case HandlerEnds(_, _) => j.place == Running
    case TimeOut(_) => j.place == Running && j.spec.timed && j.spec.lockKey.None?
    case _ => false
  }

  // ---------------------------------------------------------------- scopes

  lemma ScopesKept(s: System, t: System)
    requires ScopesHeld(s)
    requires forall p <- s.processes :: p in t.processes && t.processes[p].scopes == s.processes[p].scopes
    requires forall i <- t.jobs :: t.jobs[i].Inside() ==>
      i in s.jobs && s.jobs[i].Inside() && s.jobs[i].pid == t.jobs[i].pid && s.jobs[i].spec == t.jobs[i].spec
    ensures ScopesHeld(t)
  {
    hide Job.Inside, Spec.Scope;
    forall i <- t.jobs, j <- t.jobs | t.jobs[i].Inside() && t.jobs[j].Inside() && SameScope(t.jobs[i], t.jobs[j]) ensures i == j {
      assert SameScope(s.jobs[i], s.jobs[j]);
    }
  }

  lemma ScopesAfterEnter(s: System, id: Id)
    requires ScopesHeld(s) && id in s.jobs && s.jobs[id].pid in s.processes && s.jobs[id].place == Scheduled
    ensures ScopesHeld(EnterStep(s, id, s.jobs[id]))
  {
    hide Spec.Scope;
    var t := EnterStep(s, id, s.jobs[id]);
    assert forall i <- s.jobs :: i != id ==> t.jobs[i] == s.jobs[i];
    forall i <- t.jobs, j <- t.jobs | t.jobs[i].Inside() && t.jobs[j].Inside() && SameScope(t.jobs[i], t.jobs[j]) ensures i == j {
      if i != id && j != id { assert SameScope(s.jobs[i], s.jobs[j]); }
    }
  }

  lemma ScopesAfterLeave(s: System, id: Id, j: Job)
    requires ScopesHeld(s) && id in s.jobs && s.jobs[id].Inside() && j.pid == s.jobs[id].pid && j.spec == s.jobs[id].spec
    ensures j.pid in s.processes && ScopesHeld(Leave(s, id, j))
  {
    hide Spec.Scope;
    var t := Leave(s, id, j);
    forall a <- t.jobs, b <- t.jobs | t.jobs[a].Inside() && t.jobs[b].Inside() && SameScope(t.jobs[a], t.jobs[b]) ensures a == b {
      assert SameScope(s.jobs[a], s.jobs[b]);
    }
    forall a <- t.jobs | t.jobs[a].Inside()
      ensures t.jobs[a].pid in t.processes && t.jobs[a].spec.Scope() in t.processes[t.jobs[a].pid].scopes
    {
      assert a != id && !SameScope(s.jobs[a], s.jobs[id]);
    }
  }

  lemma ScopesAfterCrash(s: System, pid: nat)
    requires ScopesHeld(s) && pid in s.processes
    ensures ScopesHeld(Next(s, Crash(pid)))
  {
    hide Spec.Scope;
    var t := Next(s, Crash(pid));
    assert forall i <- t.jobs :: t.jobs[i].Inside() ==> t.jobs[i] == s.jobs[i] && s.jobs[i].pid != pid;
    forall a <- t.jobs, b <- t.jobs | t.jobs[a].Inside() && t.jobs[b].Inside() && SameScope(t.jobs[a], t.jobs[b]) ensures a == b {
      assert SameScope(s.jobs[a], s.jobs[b]);
    }
  }

  lemma ScopesAfterProcessStep(s: System, step: Step)
    requires ScopesHeld(s)
    ensures ScopesHeld(ProcessStep(s, step))
  {
    hide ScopesHeld, Spec.Scope;
    if step.Crash? && step.pid in s.processes {
      ScopesAfterCrash(s, step.pid);
    } else {
      ScopesKept(s, ProcessStep(s, step));
    }
  }

  lemma ScopesAfterJobStep(s: System, step: Step, id: Id)
    requires ScopesHeld(s) && id in s.jobs && s.jobs[id].pid in s.processes
    ensures ScopesHeld(JobStep(s, step, id))
  {
    hide ScopesHeld, Spec.Scope, EnterStep, AcquireStep, LookUpStep, BeginStep, EndStep, ReleaseStep, DiscardStep, Leave;
    var j, t := s.jobs[id], JobStep(s, step, id);
    if step.Enter? {
      if j.place == Scheduled { ScopesAfterEnter(s, id); }
    } else if step.Acquire? {
      AcquireIsLocal(s, id);
      if j.place == Entered {
        if t.jobs[id].place == Over { ScopesAfterLeave(s, id, j.(status := t.jobs[id].status)); }
        else { ScopesKept(s, t); }
      }
    } else if step.Discard? {
      DiscardIsLocal(s, id);
      if j.place == Freed { ScopesAfterLeave(s, id, j.(status := t.jobs[id].status)); }
    } else {
      if step.Release? { ReleaseIsLocal(s, id); } else { RunningIsLocal(s, step, id); }
      ScopesKept(s, t);
    }
  }

  lemma ScopesStayHeld(s: System, step: Step)
    requires ScopesHeld(s)
    ensures ScopesHeld(Next(s, step))
  {
    hide ScopesHeld, ProcessStep, JobStep;
    ScopesAfterProcessStep(s, step);
    if !step.OfProcess() && step.id in s.jobs && s.jobs[step.id].pid in s.processes {
      ScopesAfterJobStep(s, step, step.id);
    }
  }

  // ---------------------------------------------------------------- leases

  lemma LeasesKept(s: System, t: System)
    requires LeasesHeld(s)
    requires s.clock <= t.clock && t.leases == s.leases && s.jobs.Keys <= t.jobs.Keys
    requires forall i <- t.jobs :: t.jobs[i].Holding() ==>
      i in s.jobs && s.jobs[i].Holding() && SameTerms(s.jobs[i], t.jobs[i])
    ensures LeasesHeld(t)
  {
  }

  /** A call that takes over the row of a key finds every other holder of the key past its expiry. */
  lemma LeasesAfterTakeover(s: System, id: Id, t: System, k: string, ttl: real)
    requires LeasesHeld(s) && id in s.jobs && !s.jobs[id].Holding() && ttl > 0.0
    requires Acquirable(s.leases, k, s.clock) && t.clock == s.clock && t.leases == s.leases[k := Lease(id, s.clock, s.clock + ttl)]
    requires t.jobs.Keys == s.jobs.Keys && forall i <- t.jobs :: i != id ==> t.jobs[i] == s.jobs[i]
    requires t.jobs[id].spec.lockKey == Some(k) && t.jobs[id].acquired == s.clock && t.jobs[id].expires == s.clock + ttl
    ensures LeasesHeld(t)
  {
    forall i <- t.jobs | i != id && t.jobs[i].Holding()
      ensures t.jobs[i].acquired <= t.clock && (Owns(t, i) || t.jobs[i].expires <= t.clock)
      ensures t.jobs[i].spec.lockKey == Some(k) ==> t.jobs[i].expires <= t.clock
    {
      assert s.jobs[i].Holding();
    }
  }

  lemma LeasesAfterAcquire(s: System, id: Id)
    requires LeasesHeld(s) && id in s.jobs && s.jobs[id].pid in s.processes && s.jobs[id].place == Entered
    ensures LeasesHeld(AcquireStep(s, id, s.jobs[id]))
  {
    hide Spec.Scope, LeasesHeld;
    var j := s.jobs[id];
    var t := AcquireStep(s, id, j);
    if t.jobs[id].Holding() {
      LeasesAfterTakeover(s, id, t, j.spec.lockKey.value, j.spec.ttl.value);
    } else {
      LeasesKept(s, t);
    }
  }

  lemma LeasesAfterRelease(s: System, id: Id)
    requires LeasesHeld(s) && id in s.jobs && s.jobs[id].place == Finished
    ensures LeasesHeld(ReleaseStep(s, id, s.jobs[id]))
  {
    var t := ReleaseStep(s, id, s.jobs[id]);
    ReleaseKeepsRows(s, id);
    hide ReleaseStep, Released;
    forall i <- t.jobs | t.jobs[i].Holding()
      ensures i != id && t.jobs[i] == s.jobs[i] && t.jobs[i].acquired <= t.clock && (Owns(t, i) || t.jobs[i].expires <= t.clock)
    {
      assert s.jobs[i].Holding() && (Owns(s, i) ==> Owns(t, i));
    }
  }

  lemma ReleaseKeepsRows(s: System, id: Id)
    requires id in s.jobs && s.jobs[id].place == Finished
    ensures var t := ReleaseStep(s, id, s.jobs[id]);
      && t.jobs == s.jobs[id := s.jobs[id].(place := Freed)] && t.clock == s.clock
      && (forall k <- s.leases :: s.leases[k].owner != id ==> k in t.leases && t.leases[k] == s.leases[k])
      && (forall k <- t.leases :: k in s.leases && t.leases[k] == s.leases[k])
  {
  }

  lemma LeasesAfterProcessStep(s: System, step: Step)
    requires LeasesHeld(s)
    ensures LeasesHeld(ProcessStep(s, step))
  {
    hide LeasesHeld, Spec.Scope;
    LeasesKept(s, ProcessStep(s, step));
  }

  lemma LeasesAfterJobStep(s: System, step: Step, id: Id)
    requires LeasesHeld(s) && id in s.jobs && s.jobs[id].pid in s.processes
    ensures LeasesHeld(JobStep(s, step, id))
  {
    hide LeasesHeld, Spec.Scope, EnterStep, AcquireStep, LookUpStep, BeginStep, EndStep, ReleaseStep, DiscardStep, Leave;
    var j, t := s.jobs[id], JobStep(s, step, id);
    if step.Acquire? && j.place == Entered {
      LeasesAfterAcquire(s, id);
    } else if step.Release? && j.place == Finished {
      LeasesAfterRelease(s, id);
    } else {
      if step.Enter? { EnterIsLocal(s, id); }
      else if step.Discard? { DiscardIsLocal(s, id); }
      else if !step.Release? && !step.Acquire? { RunningIsLocal(s, step, id); }
      LeasesKept(s, t);
    }
  }

  lemma LeasesStayHeld(s: System, step: Step)
    requires LeasesHeld(s)
    ensures LeasesHeld(Next(s, step))
  {
    hide LeasesHeld, ProcessStep, JobStep;
    LeasesAfterProcessStep(s, step);
    if !step.OfProcess() && step.id in s.jobs && s.jobs[step.id].pid in s.processes {
      LeasesAfterJobStep(s, step, step.id);
    }
  }

  // ---------------------------------------------------------------- handlers and records

  lemma HandlersStayPlaced(s: System, step: Step)
    requires HandlersPlaced(s)
    ensures HandlersPlaced(Next(s, step))
  {
    hide Found, Newer, Spec.Scope, RuntimeState.Acquired, Released, Without;
  }

  lemma RecordsAfterJobStep(s: System, step: Step, id: Id)
    requires RecordsMatch(s) && id in s.jobs && s.jobs[id].pid in s.processes
    ensures RecordsMatch(JobStep(s, step, id))
  {
    assert RecordFits(s.jobs[id]);
    JobStepIsLocal(s, step, id);
    hide RecordsMatch, RecordFits, JobStep, Spec.Scope;
    RecordFitsAfterStep(s, step, id);
    RecordsOfOneJob(s, JobStep(s, step, id), id);
  }

  lemma RecordsOfOneJob(s: System, t: System, id: Id)
    requires RecordsMatch(s) && OneJob(s, t, id) && RecordFits(t.jobs[id])
    ensures RecordsMatch(t)
  {
    hide RecordFits;
  }

  lemma RecordFitsAfterStep(s: System, step: Step, id: Id)
    requires id in s.jobs && s.jobs[id].pid in s.processes && RecordFits(s.jobs[id])
    ensures id in JobStep(s, step, id).jobs && RecordFits(JobStep(s, step, id).jobs[id])
  {
    hide Spec.Scope, EnterStep, AcquireStep, LookUpStep, ReleaseStep, DiscardStep, Leave, Without, Found, SameEngine, SameScopes;
    if step.Enter? { EnterIsLocal(s, id); }
    else if step.Acquire? { AcquireIsLocal(s, id); }
    else if step.Discard? { DiscardIsLocal(s, id); }
    else if step.Release? { ReleaseIsLocal(s, id); }
    else { RunningIsLocal(s, step, id); }
  }

  lemma RecordsStayMatched(s: System, step: Step)
    requires RecordsMatch(s)
    ensures RecordsMatch(Next(s, step))
  {
    hide JobStep;
    if !step.OfProcess() && step.id in s.jobs && s.jobs[step.id].pid in s.processes {
      RecordsAfterJobStep(s, step, step.id);
    }
  }

  // ---------------------------------------------------------------- active ids

  lemma ActiveKept(s: System, t: System)
    requires ActiveIdsExact(s)
    requires forall p <- t.processes ::
      if p in s.processes then t.processes[p].engine.active == s.processes[p].engine.active
      else t.processes[p].engine.active == [] && forall i <- t.jobs :: t.jobs[i].pid == p ==> t.jobs[i].place != Running
    requires forall i <- t.jobs :: t.jobs[i].place == Running ==>
      i in s.jobs && s.jobs[i].place == Running && s.jobs[i].pid == t.jobs[i].pid
    requires forall i <- s.jobs :: s.jobs[i].place == Running && s.jobs[i].pid in t.processes ==>
      i in t.jobs && t.jobs[i].place == Running && s.jobs[i].pid == t.jobs[i].pid
    ensures ActiveIdsExact(t)
  {
  }

  lemma ActiveAfterBegin(s: System, id: Id)
    requires ActiveIdsExact(s) && id in s.jobs && s.jobs[id].pid in s.processes && s.jobs[id].place == Checked
    ensures ActiveIdsExact(BeginStep(s, id, s.jobs[id]))
  {
    var j := s.jobs[id];
    var t := BeginStep(s, id, j);
    assert id !in s.processes[j.pid].engine.active;
    assert forall i <- t.jobs :: i != id ==> t.jobs[i] == s.jobs[i];
  }

  lemma {:induction false} WithoutIsDistinct(ids: seq<Id>, id: Id)
    requires Sorting.NoRepeats(ids)
    ensures Sorting.NoRepeats(Without(ids, id))
  {
    if ids != [] {
      var rest := Without(ids[1..], id);
      assert forall k :: 0 < k < |ids| ==> ids[k] != ids[0];
      assert ids[0] !in ids[1..];
      assert Sorting.NoRepeats(ids[1..]);
      WithoutIsDistinct(ids[1..], id);
      assert ids[0] !in rest;
      assert Without(ids, id) == if ids[0] == id then rest else [ids[0]] + rest;
    }
  }

  lemma ActiveAfterEnd(s: System, id: Id, status: JobStatus, handling: bool)
    requires ActiveIdsExact(s) && id in s.jobs && s.jobs[id].pid in s.processes && s.jobs[id].place == Running
    ensures ActiveIdsExact(EndStep(s, id, s.jobs[id], status, handling))
  {
    hide Without;
    var j := s.jobs[id];
    var t := EndStep(s, id, j, status, handling);
    WithoutIsDistinct(s.processes[j.pid].engine.active, id);
    assert forall i <- t.jobs :: i != id ==> t.jobs[i] == s.jobs[i];
  }

  lemma ActiveAfterProcessStep(s: System, step: Step)
    requires ActiveIdsExact(s) && forall i <- s.jobs :: s.jobs[i].place == Running ==> s.jobs[i].pid in s.processes
    ensures ActiveIdsExact(ProcessStep(s, step))
  {
    hide Spec.Scope, ActiveIdsExact;
    ActiveKept(s, ProcessStep(s, step));
  }

  lemma ActiveAfterQuietStep(s: System, t: System, id: Id)
    requires ActiveIdsExact(s) && OneJob(s, t, id) && SameEngine(s, t, s.jobs[id].pid)
    requires t.jobs[id].place == Running <==> s.jobs[id].place == Running
    ensures ActiveIdsExact(t)
  {
    hide Spec.Scope;
  }

  lemma ActiveAfterJobStep(s: System, step: Step, id: Id)
    requires ActiveIdsExact(s) && id in s.jobs && s.jobs[id].pid in s.processes
    ensures ActiveIdsExact(JobStep(s, step, id))
  {
    hide Spec.Scope, ActiveIdsExact, Found, Without, EnterStep, AcquireStep, LookUpStep, BeginStep, EndStep, ReleaseStep, DiscardStep;
    var j, t := s.jobs[id], JobStep(s, step, id);
    if BeginsOrEnds(j, step) {
      if step.Begin? { ActiveAfterBegin(s, id); }
      else if step.HandlerEnds? { ActiveAfterEnd(s, id, if step.ok then COMPLETED else FAILED, false); }
      else { ActiveAfterEnd(s, id, FAILED, true); }
    } else {
      if step.Enter? { EnterIsLocal(s, id); }
      else if step.Acquire? { AcquireIsLocal(s, id); }
      else if step.Discard? { DiscardIsLocal(s, id); }
      else if step.Release? { ReleaseIsLocal(s, id); }
      else { RunningIsLocal(s, step, id); }
      ActiveAfterQuietStep(s, t, id);
    }
  }

  lemma ActiveIdsStayExact(s: System, step: Step)
    requires ActiveIdsExact(s) && ScopesHeld(s)
    ensures ActiveIdsExact(Next(s, step))
  {
    assert forall i <- s.jobs :: s.jobs[i].place == Running ==> s.jobs[i].Inside() && s.jobs[i].pid in s.processes;
    hide ActiveIdsExact, ScopesHeld, ProcessStep, JobStep;
    ActiveAfterProcessStep(s, step);
    if !step.OfProcess() && step.id in s.jobs && s.jobs[step.id].pid in s.processes {
      ActiveAfterJobStep(s, step, step.id);
    }
  }

  // ---------------------------------------------------------------- whole runs

  ghost predicate Inv(s: System) {
    ScopesHeld(s) && HandlersPlaced(s) && LeasesHeld(s) && RecordsMatch(s) && ActiveIdsExact(s)
  }

  lemma StepKeepsInv(s: System, step: Step)
    requires Inv(s)
    ensures Inv(Next(s, step))
  {
    hide ScopesHeld, HandlersPlaced, LeasesHeld, RecordsMatch, ActiveIdsExact, Next;
    ScopesStayHeld(s, step);
    HandlersStayPlaced(s, step);
    LeasesStayHeld(s, step);
    RecordsStayMatched(s, step);
    ActiveIdsStayExact(s, step);
  }

  lemma {:induction false} RunKeepsInv(s: System, steps: seq<Step>)
    requires Inv(s)
    ensures Inv(Run(s, steps))
    decreases |steps|
  {
    hide Inv, Next;
    if steps != [] {
      StepKeepsInv(s, steps[0]);
      RunKeepsInv(Next(s, steps[0]), steps[1..]);
    }
  }

  /**
   * Under every interleaving, two handlers of one scope of one process run at once only if one of them was left
   * behind by the timeout of a call without a lock key.
   */
  lemma OneHandlerPerScope(steps: seq<Step>, i: Id, j: Id)
    ensures var s := Run(EMPTY, steps);
      i in s.jobs && j in s.jobs && i != j && s.jobs[i].handling && s.jobs[j].handling && SameScope(s.jobs[i], s.jobs[j]) ==>
        (s.jobs[i].place != Running && s.jobs[i].spec.timed && s.jobs[i].spec.lockKey.None?)
        || (s.jobs[j].place != Running && s.jobs[j].spec.timed && s.jobs[j].spec.lockKey.None?)
  {
    hide Next, Spec.Scope, Run;
    RunKeepsInv(EMPTY, steps);
  }

  /** Two handlers of one lock key, in any processes, overlap only after the earlier lease has expired. */
  lemma OverlapOnlyAfterExpiry(steps: seq<Step>, i: Id, j: Id)
    ensures var s := Run(EMPTY, steps);
      i in s.jobs && j in s.jobs && i != j && s.jobs[i].handling && s.jobs[j].handling
      && s.jobs[i].spec.lockKey.Some? && s.jobs[i].spec.lockKey == s.jobs[j].spec.lockKey ==>
        s.jobs[i].expires <= s.jobs[j].acquired <= s.clock || s.jobs[j].expires <= s.jobs[i].acquired <= s.clock
  {
    hide Next, Spec.Scope, Run;
    RunKeepsInv(EMPTY, steps);
    var s := Run(EMPTY, steps);
    if i in s.jobs && j in s.jobs && s.jobs[i].handling && s.jobs[j].handling && s.jobs[i].spec.lockKey.Some?
      && s.jobs[i].spec.lockKey == s.jobs[j].spec.lockKey {
      assert s.jobs[i].Holding() && s.jobs[j].Holding();
    }
  }

  /** No step of another call removes or changes a lease before it expires; in particular no overrun owner's release does. */
  lemma LeaseIsSafeFromOthers(s: System, step: Step, key: string)
    requires key in s.leases && (step.OfProcess() || s.leases[key].owner != step.id)
    ensures var t := Next(s, step);
      (key in t.leases && t.leases[key] == s.leases[key]) || (step.Acquire? && s.leases[key].expires <= s.clock)
  {
    hide Spec.Scope, LookUpStep, BeginStep, EndStep, EnterStep, DiscardStep;
    if !step.OfProcess() && step.id in s.jobs && s.jobs[step.id].pid in s.processes {
      var id := step.id;
      if step.Enter? { EnterIsLocal(s, id); }
      else if step.Discard? { DiscardIsLocal(s, id); }
      else if step.Release? { ReleaseIsLocal(s, id); }
      else if !step.Acquire? { RunningIsLocal(s, step, id); }
    }
  }

  // ---------------------------------------------------------------- who shuts a scope

  /** Every scope a process has entered belongs to a call inside it: the converse of ScopesHeld. */
  ghost predicate ScopesOwned(s: System) {
    forall p <- s.processes :: forall c <- s.processes[p].scopes :: Occupied(s, p, c)
  }

  predicate Occupied(s: System, pid: nat, scope: string) {
    exists i <- s.jobs :: s.jobs[i].Inside() && s.jobs[i].pid == pid && s.jobs[i].spec.Scope() == scope
  }

  lemma OwnedKept(s: System, t: System)
    requires ScopesOwned(s)
    requires forall p <- t.processes :: forall c <- t.processes[p].scopes :: p in s.processes && c in s.processes[p].scopes
    requires forall i <- s.jobs :: (s.jobs[i].Inside() && s.jobs[i].pid in t.processes
        && s.jobs[i].spec.Scope() in t.processes[s.jobs[i].pid].scopes) ==>
      i in t.jobs && t.jobs[i].Inside() && t.jobs[i].pid == s.jobs[i].pid && t.jobs[i].spec == s.jobs[i].spec
    ensures ScopesOwned(t)
  {
    hide Job.Inside, Spec.Scope;
    forall p <- t.processes, c <- t.processes[p].scopes ensures Occupied(t, p, c) {
      assert Occupied(s, p, c);
      var i :| i in s.jobs && s.jobs[i].Inside() && s.jobs[i].pid == p && s.jobs[i].spec.Scope() == c;
      assert i in t.jobs;
    }
  }

  lemma OwnedAfterEnter(s: System, id: Id)
    requires ScopesOwned(s) && id in s.jobs && s.jobs[id].pid in s.processes && s.jobs[id].place == Scheduled
    ensures ScopesOwned(EnterStep(s, id, s.jobs[id]))
  {
    hide Spec.Scope;
    var j, t := s.jobs[id], EnterStep(s, id, s.jobs[id]);
    forall p <- t.processes, c <- t.processes[p].scopes ensures Occupied(t, p, c) {
      if p in s.processes && c in s.processes[p].scopes {
        assert Occupied(s, p, c);
        var i :| i in s.jobs && s.jobs[i].Inside() && s.jobs[i].pid == p && s.jobs[i].spec.Scope() == c;
        assert t.jobs[i] == s.jobs[i];
      } else {
        assert t.jobs[id].Inside() && t.jobs[id].pid == p && t.jobs[id].spec.Scope() == c;
      }
    }
  }

  lemma OwnedAfterLeave(s: System, id: Id, j: Job)
    requires ScopesOwned(s) && id in s.jobs && j.pid == s.jobs[id].pid && j.spec == s.jobs[id].spec && j.pid in s.processes
    ensures ScopesOwned(Leave(s, id, j))
  {
    hide ScopesOwned, Spec.Scope;
    OwnedKept(s, Leave(s, id, j));
  }

  lemma OwnedAfterProcessStep(s: System, step: Step)
    requires ScopesOwned(s)
    ensures ScopesOwned(ProcessStep(s, step))
  {
    hide ScopesOwned, Spec.Scope;
    OwnedKept(s, ProcessStep(s, step));
  }

  lemma OwnedAfterJobStep(s: System, step: Step, id: Id)
    requires ScopesOwned(s) && id in s.jobs && s.jobs[id].pid in s.processes
    ensures ScopesOwned(JobStep(s, step, id))
  {
    hide ScopesOwned, Spec.Scope, EnterStep, AcquireStep, LookUpStep, BeginStep, EndStep, ReleaseStep, DiscardStep, Leave;
    var j, t := s.jobs[id], JobStep(s, step, id);
    if step.Enter? {
      if j.place == Scheduled { OwnedAfterEnter(s, id); }
    } else if step.Acquire? {
      AcquireIsLocal(s, id);
      if j.place == Entered {
        if t.jobs[id].place == Over { OwnedAfterLeave(s, id, j.(status := t.jobs[id].status)); }
        else { OwnedKept(s, t); }
      }
    } else if step.Discard? {
      DiscardIsLocal(s, id);
      if j.place == Freed { OwnedAfterLeave(s, id, j.(status := t.jobs[id].status)); }
    } else {
      if step.Release? { ReleaseIsLocal(s, id); } else { RunningIsLocal(s, step, id); }
      OwnedKept(s, t);
    }
  }

  lemma ScopesStayOwned(s: System, step: Step)
    requires ScopesOwned(s)
    ensures ScopesOwned(Next(s, step))
  {
    hide ScopesOwned, ProcessStep, JobStep;
    OwnedAfterProcessStep(s, step);
    if !step.OfProcess() && step.id in s.jobs && s.jobs[step.id].pid in s.processes {
      OwnedAfterJobStep(s, step, step.id);
    }
  }

  lemma {:induction false} RunKeepsScopesOwned(s: System, steps: seq<Step>)
    requires ScopesOwned(s)
    ensures ScopesOwned(Run(s, steps))
    decreases |steps|
  {
    hide ScopesOwned, Next;
    if steps != [] {
      ScopesStayOwned(s, steps[0]);
      RunKeepsScopesOwned(Next(s, steps[0]), steps[1..]);
    }
  }

  lemma ScopeIsOccupied(steps: seq<Step>, p: nat, c: string)
    ensures var s := Run(EMPTY, steps); p in s.processes ==> (c in s.processes[p].scopes <==> Occupied(s, p, c))
  {
    assert Inv(EMPTY);
    hide Next, Run, Spec.Scope, Job.Inside, HandlersPlaced, LeasesHeld, RecordsMatch, ActiveIdsExact;
    RunKeepsInv(EMPTY, steps);
    RunKeepsScopesOwned(EMPTY, steps);
  }

  /** In every reachable state a waiting call enters exactly when its process accepts calls and no call is inside its scope. */
  lemma EntersIffScopeIsEmpty(steps: seq<Step>, i: Id)
    ensures var s := Run(EMPTY, steps);
      Live(s, i, Scheduled) ==>
        (Next(s, Enter(i)).jobs[i].place == Entered <==>
         s.processes[s.jobs[i].pid].accepting && !Occupied(s, s.jobs[i].pid, s.jobs[i].spec.Scope()))
  {
    var s := Run(EMPTY, steps);
    hide Run, Spec.Scope, Occupied;
    if Live(s, i, Scheduled) { ScopeIsOccupied(steps, s.jobs[i].pid, s.jobs[i].spec.Scope()); }
  }

  /** A call of the scope is on its way through run_job. */
  predicate Busy(s: System, pid: nat, scope: string) {
    exists i <- s.jobs ::
      s.jobs[i].pid == pid && s.jobs[i].spec.Scope() == scope && s.jobs[i].place in {Entered, Leased, Checked, Running, Finished, Freed}
  }

  predicate HasLeaked(s: System, pid: nat, scope: string) {
    exists i <- s.jobs :: s.jobs[i].pid == pid && s.jobs[i].spec.Scope() == scope && s.jobs[i].place == Leaked
  }

  /** While no call of its scope is on its way, an accepting process lets a waiting call in iff none has leaked. */
  lemma IdleScopeIsOpenIffNotLeaked(steps: seq<Step>, i: Id)
    ensures var s := Run(EMPTY, steps);
      Live(s, i, Scheduled) && s.processes[s.jobs[i].pid].accepting && !Busy(s, s.jobs[i].pid, s.jobs[i].spec.Scope()) ==>
        (Next(s, Enter(i)).jobs[i].place == Entered <==> !HasLeaked(s, s.jobs[i].pid, s.jobs[i].spec.Scope()))
  {
    hide Run, Spec.Scope, Next;
    EntersIffScopeIsEmpty(steps, i);
  }

  /** After an exception between entering the scope and the guarded block, the process never lets the scope in again. */
  lemma {:induction false} LeakedScopeStaysShut(s: System, steps: seq<Step>, i: Id)
    requires Inv(s) && i in s.jobs && s.jobs[i].place == Leaked && Crash(s.jobs[i].pid) !in steps
    ensures var t := Run(s, steps);
      && i in t.jobs && t.jobs[i] == s.jobs[i]
      && forall j <- t.jobs :: j != i && SameScope(t.jobs[i], t.jobs[j]) ==> !t.jobs[j].Inside()
    decreases |steps|
  {
    if steps == [] {
      assert s.jobs[i].Inside();
    } else {
      hide Spec.Scope;
      LeakedStays(s, steps[0], i);
      StepKeepsInv(s, steps[0]);
      hide Inv, Next;
      LeakedScopeStaysShut(Next(s, steps[0]), steps[1..], i);
    }
  }

  lemma LeakedStays(s: System, step: Step, i: Id)
    requires i in s.jobs && s.jobs[i].place == Leaked && step != Crash(s.jobs[i].pid) && HandlersPlaced(s)
    ensures var t := Next(s, step); i in t.jobs && t.jobs[i] == s.jobs[i]
  {
    hide Spec.Scope, Found, Without;
  }

  // ---------------------------------------------------------------- the published status

  /** The engine is started only while no call of the process runs. */
  ghost predicate StartsIdle(s: System, steps: seq<Step>)
    decreases |steps|
  {
    steps != [] ==>
      && (steps[0].Start? && steps[0].pid in s.processes ==> s.processes[steps[0].pid].engine.active == [])
      && StartsIdle(Next(s, steps[0]), steps[1..])
  }

  ghost predicate AllTruthful(s: System) {
    forall p <- s.processes :: Truthful(s.processes[p].engine)
  }

  lemma TruthfulAfterOneJob(s: System, t: System, id: Id)
    requires AllTruthful(s) && OneJob(s, t, id) && SameEngine(s, t, s.jobs[id].pid)
    ensures AllTruthful(t)
  {
    hide Truthful, Spec.Scope;
  }

  lemma TruthfulAfterBeginOrEnd(s: System, step: Step, id: Id)
    requires AllTruthful(s) && id in s.jobs && s.jobs[id].pid in s.processes && BeginsOrEnds(s.jobs[id], step)
    ensures AllTruthful(JobStep(s, step, id))
  {
    hide Spec.Scope, Without, Found;
  }

  lemma TruthfulAfterJobStep(s: System, step: Step, id: Id)
    requires AllTruthful(s) && id in s.jobs && s.jobs[id].pid in s.processes
    ensures AllTruthful(JobStep(s, step, id))
  {
    var t := JobStep(s, step, id);
    NothingIsLocal(s, id);
    hide AllTruthful, OneJob, InPlace, Spec.Scope, EnterStep, AcquireStep, LookUpStep, BeginStep, EndStep, ReleaseStep, DiscardStep;
    if BeginsOrEnds(s.jobs[id], step) {
      TruthfulAfterBeginOrEnd(s, step, id);
    } else {
      if step.Enter? { EnterIsLocal(s, id); }
      else if step.Acquire? { AcquireIsLocal(s, id); }
      else if step.Discard? { DiscardIsLocal(s, id); }
      else if step.Release? { ReleaseIsLocal(s, id); InPlaceIsLocal(s, ReleaseStep(s, id, s.jobs[id]), id); }
      else { RunningIsLocal(s, step, id); InPlaceIsLocal(s, t, id); }
      TruthfulAfterOneJob(s, t, id);
    }
  }

  lemma TruthfulAfterProcessStep(s: System, step: Step)
    requires AllTruthful(s) && (step.Start? && step.pid in s.processes ==> s.processes[step.pid].engine.active == [])
    ensures AllTruthful(ProcessStep(s, step))
  {
    hide Spec.Scope;
  }

  lemma TruthfulAfterStep(s: System, step: Step)
    requires AllTruthful(s) && StartsIdle(s, [step])
    ensures AllTruthful(Next(s, step))
  {
    hide AllTruthful, JobStep, ProcessStep;
    TruthfulAfterProcessStep(s, step);
    if !step.OfProcess() && step.id in s.jobs && s.jobs[step.id].pid in s.processes {
      TruthfulAfterJobStep(s, step, step.id);
    }
  }

  lemma {:induction false} TruthfulOverRuns(s: System, steps: seq<Step>)
    requires AllTruthful(s) && StartsIdle(s, steps)
    ensures AllTruthful(Run(s, steps))
    decreases |steps|
  {
    if steps != [] {
      assert StartsIdle(s, [steps[0]]);
      hide AllTruthful, Next;
      TruthfulAfterStep(s, steps[0]);
      TruthfulOverRuns(Next(s, steps[0]), steps[1..]);
    }
  }

  /** A process that was not stopped reports RUNNING exactly while one of its calls runs. */
  lemma StatusTellsWhetherACallRuns(steps: seq<Step>, p: nat)
    requires StartsIdle(EMPTY, steps)
    ensures var s := Run(EMPTY, steps);
      p in s.processes && s.processes[p].engine.status != ENGINE_STOPPED ==>
        (s.processes[p].engine.status == ENGINE_RUNNING <==>
         exists i <- s.jobs :: s.jobs[i].pid == p && s.jobs[i].place == Running)
  {
    assert Inv(EMPTY);
    hide Next, Run, StartsIdle, ScopesHeld, LeasesHeld;
    TruthfulOverRuns(EMPTY, steps);
    RunKeepsInv(EMPTY, steps);
    var s := Run(EMPTY, steps);
    if p in s.processes {
      var active := s.processes[p].engine.active;
      if active != [] { assert active[0] in active; }
    }
  }

  // ---------------------------------------------------------------- where the limits are reached

  function ToLookUp(id: Id, pid: nat, spec: Spec): seq<Step> {
    [Schedule(id, pid, spec), Enter(id), Acquire(id), LookUp(id)]
  }

  predicate Admits(s: System, pid: nat, spec: Spec) {
    && pid in s.processes && s.processes[pid].accepting && spec.Scope() !in s.processes[pid].scopes
    && (spec.lockKey.Some? ==> spec.ttl.Some? && spec.ttl.value > 0.0 && Acquirable(s.leases, spec.lockKey.value, s.clock))
  }

  predicate Live(s: System, id: Id, place: Place) {
    id in s.jobs && s.jobs[id].pid in s.processes && s.jobs[id].place == place
  }

  lemma Entering(s: System, id: Id, pid: nat, spec: Spec)
    requires id !in s.jobs && Admits(s, pid, spec)
    ensures var t := Next(Next(s, Schedule(id, pid, spec)), Enter(id));
      t == s.(jobs := s.jobs[id := Job(pid, spec, Entered, SCHEDULED, 0.0, 0.0, false)],
              processes := s.processes[pid := s.processes[pid].(scopes := s.processes[pid].scopes + {spec.Scope()})])
  {
    hide Spec.Scope, Acquirable;
    var j := Job(pid, spec, Scheduled, SCHEDULED, 0.0, 0.0, false);
    var s1 := Next(s, Schedule(id, pid, spec));
    assert s1 == WithJob(s, id, j) && s1.jobs[id] == j;
    assert s1.jobs[id := j.(place := Entered)] == s.jobs[id := j.(place := Entered)];
  }

  lemma Acquiring(s: System, id: Id)
    requires Live(s, id, Entered)
    requires var spec := s.jobs[id].spec;
      spec.lockKey.Some? ==> spec.ttl.Some? && spec.ttl.value > 0.0 && Acquirable(s.leases, spec.lockKey.value, s.clock)
    ensures var t := Next(s, Acquire(id)); var spec := s.jobs[id].spec;
      && Live(t, id, Leased) && t.jobs == s.jobs[id := t.jobs[id]] && t.jobs[id].spec == spec && t.jobs[id].pid == s.jobs[id].pid
      && t.jobs[id].status == s.jobs[id].status && t.processes == s.processes && t.clock == s.clock
      && (spec.lockKey.Some? ==> t.jobs[id].acquired == s.clock)
      && t.leases == if spec.lockKey.None? then s.leases
                     else s.leases[spec.lockKey.value := Lease(id, s.clock, s.clock + spec.ttl.value)]
  {
    hide Spec.Scope, Leave;
  }

  lemma LookingUp(s: System, id: Id)
    requires Live(s, id, Leased) && (s.jobs[id].spec.identity.Some? ==> !Found(s, s.jobs[id].spec.identity.value))
    ensures Next(s, LookUp(id)) == WithJob(s, id, s.jobs[id].(place := Checked))
  {
    hide Spec.Scope, Found;
  }

  lemma Beginning(s: System, id: Id)
    requires Live(s, id, Checked)
    ensures var t := Next(s, Begin(id));
      && t.jobs == s.jobs[id := s.jobs[id].(place := Running, status := RUNNING, handling := true)]
      && t.processes.Keys == s.processes.Keys && t.leases == s.leases && t.clock == s.clock
      && forall p <- s.processes :: t.processes[p].scopes == s.processes[p].scopes && t.processes[p].accepting == s.processes[p].accepting
  {
    hide Spec.Scope;
  }

  /** A call that is admitted, whose lock key is free and whose identity nobody has run gets past its lookup. */
  lemma GetsPastLookUp(s: System, id: Id, pid: nat, spec: Spec)
    requires id !in s.jobs && Admits(s, pid, spec)
    requires forall i <- s.jobs :: spec.identity.Some? ==> !Claims(s.jobs[i], spec.identity.value)
    ensures var t := Run(s, ToLookUp(id, pid, spec));
      && Live(t, id, Checked) && t.jobs == s.jobs[id := t.jobs[id]]
      && t.jobs[id].pid == pid && t.jobs[id].spec == spec && t.jobs[id].status == SCHEDULED
      && t.clock == s.clock && (spec.lockKey.Some? ==> t.jobs[id].acquired == s.clock)
      && t.leases == (if spec.lockKey.None? then s.leases
                      else s.leases[spec.lockKey.value := Lease(id, s.clock, s.clock + spec.ttl.value)])
      && t.processes == s.processes[pid := s.processes[pid].(scopes := s.processes[pid].scopes + {spec.Scope()})]
  {
    hide Next, Spec.Scope, Acquirable;
    var s1 := Next(s, Schedule(id, pid, spec));
    var s2 := Next(s1, Enter(id));
    var s3 := Next(s2, Acquire(id));
    Entering(s, id, pid, spec);
    Acquiring(s2, id);
    assert spec.identity.Some? ==> !Found(s3, spec.identity.value);
    LookingUp(s3, id);
    FourSteps(s, Schedule(id, pid, spec), Enter(id), Acquire(id), LookUp(id));
  }

  lemma FourSteps(s: System, a: Step, b: Step, c: Step, d: Step)
    ensures Run(s, [a, b, c, d]) == Next(Next(Next(Next(s, a), b), c), d)
  {
    hide Next;
    assert [a, b, c, d][1..] == [b, c, d] && [b, c, d][1..] == [c, d] && [c, d][1..] == [d] && [d][1..] == [];
    assert Run(Next(s, a), [b, c, d]) == Run(Next(Next(s, a), b), [c, d]);
    assert Run(Next(Next(s, a), b), [c, d]) == Run(Next(Next(Next(s, a), b), c), [d]);
  }

  /** The end of a call whose handler timed out: everything of the call is over except the handler. */
  lemma TimingOut(s: System, id: Id)
    requires Live(s, id, Running) && s.jobs[id].spec.timed && s.jobs[id].spec.lockKey.None?
    ensures var t := Next(Next(Next(s, TimeOut(id)), Release(id)), Discard(id)); var pid := s.jobs[id].pid;
      && t.jobs == s.jobs[id := s.jobs[id].(place := Over, status := FAILED, handling := true)]
      && pid in t.processes && t.processes[pid].accepting == s.processes[pid].accepting
      && t.processes[pid].scopes == s.processes[pid].scopes - {s.jobs[id].spec.Scope()}
  {
    hide Spec.Scope, Without;
    var j := s.jobs[id];
    var s1 := Next(s, TimeOut(id));
    assert s1 == EndStep(s, id, j, FAILED, true);
    var s2 := Next(s1, Release(id));
    assert s2 == WithJob(s1, id, s1.jobs[id].(place := Freed));
    assert Next(s2, Discard(id)) == Leave(s2, id, s2.jobs[id]);
  }

  /** The call begins, times out and is over. */
  function ToTimeOut(id: Id): seq<Step> {
    [Begin(id), TimeOut(id), Release(id), Discard(id)]
  }

  /**
   * A timed call without a lock key leaves its handler running when it times out; the next call of the job overlaps it,
   * of the same identity too, since the record of the first one is FAILED.
   */
  lemma TimeoutLeavesAnOverlappingHandler(s: System, i: Id, j: Id, pid: nat, spec: Spec)
    requires i != j && i !in s.jobs && j !in s.jobs && Admits(s, pid, spec) && spec.timed && spec.lockKey.None?
    requires forall x <- s.jobs :: spec.identity.Some? ==> !Claims(s.jobs[x], spec.identity.value)
    ensures var t := Run(Run(s, ToLookUp(i, pid, spec)), ToTimeOut(i));
      var u := Next(Run(t, ToLookUp(j, pid, spec)), Begin(j));
      && i in u.jobs && j in u.jobs && u.jobs[i].handling && u.jobs[j].handling && SameScope(u.jobs[i], u.jobs[j])
      && u.jobs[i].status == FAILED && u.jobs[j].status == RUNNING
  {
    hide Next, ToLookUp, Run;
    var s1 := Run(s, ToLookUp(i, pid, spec));
    GetsPastLookUp(s, i, pid, spec);
    Beginning(s1, i);
    TimingOut(Next(s1, Begin(i)), i);
    FourSteps(s1, Begin(i), TimeOut(i), Release(i), Discard(i));
    var t := Run(s1, ToTimeOut(i));
    assert Admits(t, pid, spec);
    GetsPastLookUp(t, j, pid, spec);
    Beginning(Run(t, ToLookUp(j, pid, spec)), j);
  }

  /** A lock service that raises after the scope was entered leaves the scope shut with its call recorded as scheduled. */
  lemma LeakIsReached(s: System, id: Id, pid: nat, spec: Spec)
    requires id !in s.jobs && Admits(s, pid, spec) && spec.lockKey.Some?
    ensures var t := Run(s, [Schedule(id, pid, spec), Enter(id), AcquireRaises(id)]);
      Live(t, id, Leaked) && t.jobs[id].status == SCHEDULED && HasLeaked(t, pid, spec.Scope())
      && pid in t.processes && spec.Scope() in t.processes[pid].scopes
  {
    hide Spec.Scope, Acquirable;
    var s1 := Next(s, Schedule(id, pid, spec));
    var s2 := Next(s1, Enter(id));
    Entering(s, id, pid, spec);
    var t := Next(s2, AcquireRaises(id));
    assert t == WithJob(s2, id, s2.jobs[id].(place := Leaked));
    hide Next;
    ThreeSteps(s, Schedule(id, pid, spec), Enter(id), AcquireRaises(id));
  }

  lemma ThreeSteps(s: System, a: Step, b: Step, c: Step)
    ensures Run(s, [a, b, c]) == Next(Next(Next(s, a), b), c)
  {
    hide Next;
    assert [a, b, c][1..] == [b, c] && [b, c][1..] == [c] && [c][1..] == [];
    assert Run(Next(s, a), [b, c]) == Run(Next(Next(s, a), b), [c]);
  }

  // ---------------------------------------------------------------- which jobs may be configured

  /** No two handlers of one scope of one process run at once. */
  ghost predicate HandlersApart(s: System) {
    forall i <- s.jobs, j <- s.jobs ::
      s.jobs[i].handling && s.jobs[j].handling && SameScope(s.jobs[i], s.jobs[j]) ==> i == j
  }

  ghost predicate SchedulesOnly(steps: seq<Step>, allowed: Spec -> bool) {
    forall x <- steps :: x.Schedule? ==> allowed(x.spec)
  }

  /** Timed calls run their handler in a thread that nobody waits for after the timeout, unless they have a lock key. */
  predicate LeavesHandlers(spec: Spec) { spec.timed && spec.lockKey.None? }

  lemma {:induction false} OnlyAllowedSpecs(s: System, steps: seq<Step>, allowed: Spec -> bool)
    requires SchedulesOnly(steps, allowed) && forall i <- s.jobs :: allowed(s.jobs[i].spec)
    ensures forall i <- Run(s, steps).jobs :: allowed(Run(s, steps).jobs[i].spec)
    decreases |steps|
  {
    hide Next;
    if steps != [] {
      assert steps[0] in steps && forall x <- steps[1..] :: x in steps;
      SpecsStay(s, steps[0]);
      OnlyAllowedSpecs(Next(s, steps[0]), steps[1..], allowed);
    }
  }

  lemma AllowedRunsKeepApart(steps: seq<Step>, allowed: Spec -> bool)
    requires SchedulesOnly(steps, allowed) && forall spec :: allowed(spec) ==> !LeavesHandlers(spec)
    ensures HandlersApart(Run(EMPTY, steps))
  {
    hide Next, Run, SchedulesOnly, SameScope;
    OnlyAllowedSpecs(EMPTY, steps, allowed);
    var s := Run(EMPTY, steps);
    forall i <- s.jobs, j <- s.jobs | s.jobs[i].handling && s.jobs[j].handling && SameScope(s.jobs[i], s.jobs[j]) ensures i == j {
      OneHandlerPerScope(steps, i, j);
    }
  }

  lemma {:induction false} RunConcat(s: System, a: seq<Step>, b: seq<Step>)
    ensures Run(s, a + b) == Run(Run(s, a), b)
    decreases |a|
  {
    hide Next;
    if a == [] {
      assert a + b == b;
    } else {
      assert (a + b)[0] == a[0] && (a + b)[1..] == a[1..] + b;
      RunConcat(Next(s, a[0]), a[1..], b);
    }
  }

  lemma RunOne(s: System, step: Step)
    ensures Run(s, [step]) == Next(s, step)
  {
    hide Next;
    assert [step][1..] == [];
  }

  /** One process runs the job twice; the first call times out. */
  function TimeoutTwice(spec: Spec): seq<Step> {
    [Boot(0)] + (ToLookUp(0, 0, spec) + (ToTimeOut(0) + (ToLookUp(1, 0, spec) + [Begin(1)])))
  }

  lemma TimeoutTwiceOverlaps(spec: Spec)
    requires LeavesHandlers(spec)
    ensures !HandlersApart(Run(EMPTY, TimeoutTwice(spec)))
  {
    var s := Next(EMPTY, Boot(0));
    assert s == EMPTY.(processes := map[0 := FRESH]);
    hide Next, Run, ToLookUp, ToTimeOut, SameScope;
    var s1 := Run(s, ToLookUp(0, 0, spec));
    var t := Run(s1, ToTimeOut(0));
    var u := Run(t, ToLookUp(1, 0, spec));
    TimeoutLeavesAnOverlappingHandler(s, 0, 1, 0, spec);
    RunOne(u, Begin(1));
    RunConcat(t, ToLookUp(1, 0, spec), [Begin(1)]);
    RunConcat(s1, ToTimeOut(0), ToLookUp(1, 0, spec) + [Begin(1)]);
    RunConcat(s, ToLookUp(0, 0, spec), ToTimeOut(0) + (ToLookUp(1, 0, spec) + [Begin(1)]));
    RunOne(EMPTY, Boot(0));
    RunConcat(EMPTY, [Boot(0)], ToLookUp(0, 0, spec) + (ToTimeOut(0) + (ToLookUp(1, 0, spec) + [Begin(1)])));
  }

  lemma TimeoutTwiceSchedules(spec: Spec, allowed: Spec -> bool)
    requires allowed(spec)
    ensures SchedulesOnly(TimeoutTwice(spec), allowed)
  {
  }

  /**
   * Whatever the interleaving, every scope of a process has at most one handler in all runs of the allowed jobs, if and
   * only if no allowed job is timed without a lock key.
   */
  lemma OneHandlerIffNoTimeoutWithoutLock(allowed: Spec -> bool)
    ensures (forall steps :: SchedulesOnly(steps, allowed) ==> HandlersApart(Run(EMPTY, steps)))
      <==> forall spec :: allowed(spec) ==> !LeavesHandlers(spec)
  {
    hide SchedulesOnly, HandlersApart, LeavesHandlers, Run, TimeoutTwice;
    if forall spec :: allowed(spec) ==> !LeavesHandlers(spec) {
      forall steps | SchedulesOnly(steps, allowed) ensures HandlersApart(Run(EMPTY, steps)) {
        AllowedRunsKeepApart(steps, allowed);
      }
    } else {
      var spec :| allowed(spec) && LeavesHandlers(spec);
      TimeoutTwiceOverlaps(spec);
      TimeoutTwiceSchedules(spec, allowed);
    }
  }
}
