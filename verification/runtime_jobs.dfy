/** Job leases and the runtime state of one engine process (runtime/infrastructure.py, runtime/service.py). */
module RuntimeState {
  import opened Wrappers

  type Id = nat

  datatype Lease = Lease(owner: Id, acquired: real, expires: real)

  datatype JobStatus = SCHEDULED | RUNNING | COMPLETED | FAILED | SKIPPED | SKIPPED_LOCKED | SKIPPED_DUPLICATE

  datatype EngineStatus = ENGINE_STARTING | ENGINE_IDLE | ENGINE_RUNNING | ENGINE_DEGRADED | ENGINE_STOPPED

  datatype Engine = Engine(
    status: EngineStatus,
    active: seq<Id>,
    lastSuccessful: Option<Id>,
    lastFailed: Option<Id>,
    degraded: bool)

  // ---------------------------------------------------------------- leases

  predicate Acquirable(leases: map<string, Lease>, key: string, now: real) {
    key !in leases || leases[key].expires <= now
  }

  function Acquired(leases: map<string, Lease>, key: string, owner: Id, ttl: real, now: real): map<string, Lease> {
    if Acquirable(leases, key, now) then leases[key := Lease(owner, now, now + ttl)] else leases
  }

  function Released(leases: map<string, Lease>, key: string, owner: Id): map<string, Lease> {
    if key in leases && leases[key].owner == owner then leases - {key} else leases
  }

  class SqliteJobLock {
    var leases: map<string, Lease>

    constructor ()
      ensures leases == map[]
    {
      leases := map[];
    }

    method Acquire(key: string, owner: Id, ttl: real, now: real) returns (r: Result<bool, string>)
      modifies this
      ensures r.Err? <==> key == "" || ttl <= 0.0
      ensures r.Err? ==> leases == old(leases)
      ensures r.Ok? ==> leases == Acquired(old(leases), key, owner, ttl, now) && r.value == Acquirable(old(leases), key, now)
      ensures r == Ok(true) ==> key in leases && leases[key] == Lease(owner, now, now + ttl) && !Acquirable(leases, key, now)
    {
      if key == "" || ttl <= 0.0 { return Err("lease requires key, owner, and positive TTL"); }
      if key in leases && leases[key].expires > now { return Ok(false); }
      leases := leases[key := Lease(owner, now, now + ttl)];
      return Ok(true);
    }

    method Release(key: string, owner: Id) returns (removed: bool)
      modifies this
      ensures leases == Released(old(leases), key, owner)
      ensures removed <==> key in old(leases) && key !in leases
      ensures forall k <- old(leases) :: old(leases[k].owner) != owner ==> k in leases && leases[k] == old(leases[k])
    {
      removed := key in leases && leases[key].owner == owner;
      if removed { leases := leases - {key}; }
    }
  }

  // ---------------------------------------------------------------- the engine's published state

  function Without(ids: seq<Id>, id: Id): (r: seq<Id>)
    ensures forall i :: i in r <==> i in ids && i != id
  {
    if ids == [] then [] else (if ids[0] == id then [] else [ids[0]]) + Without(ids[1..], id)
  }

  function Started(e: Engine): Engine { e.(status := ENGINE_IDLE) }

  function Stopped(e: Engine): Engine { e.(status := ENGINE_STOPPED) }

  function Began(e: Engine, id: Id): Engine {
    e.(status := ENGINE_RUNNING, active := e.active + [id])
  }

  function Completed(e: Engine, id: Id, status: JobStatus): Engine {
    var left := Without(e.active, id);
    e.(status := if left == [] then ENGINE_IDLE else ENGINE_RUNNING,
       active := left,
       lastSuccessful := if status == COMPLETED then Some(id) else e.lastSuccessful,
       lastFailed := if status == FAILED then Some(id) else e.lastFailed)
  }

  /** The state after an event was delivered, or after its delivery failed. */
  function Published(e: Engine, delivered: bool): Engine {
    if delivered then
      if e.degraded then e.(status := if e.active == [] then ENGINE_IDLE else ENGINE_RUNNING, degraded := false) else e
    else
      e.(status := if e.status in {ENGINE_RUNNING, ENGINE_STOPPED} then e.status else ENGINE_DEGRADED, degraded := true)
  }

  datatype Process = Process(engine: Engine, scopes: set<string>, accepting: bool)

  const FRESH := Process(Engine(ENGINE_STARTING, [], None, None, false), {}, true)

  /** Running exactly when something is active, unless the engine was stopped. */
  predicate Truthful(e: Engine) {
    e.status == ENGINE_STOPPED || (e.status == ENGINE_RUNNING <==> e.active != [])
  }

  class RuntimeStateService {
    var engine: Engine
    var scopes: set<string>
    var accepting: bool

    constructor ()
      ensures View() == FRESH
    {
      engine, scopes, accepting := Engine(ENGINE_STARTING, [], None, None, false), {}, true;
    }

    function View(): Process
      reads this
    {
      Process(engine, scopes, accepting)
    }

    method Start()
      modifies this
      ensures View() == old(View()).(engine := Started(old(engine)))
    {
      engine := engine.(status := ENGINE_IDLE);
    }

    method Stop()
      modifies this
      ensures View() == old(View()).(engine := Stopped(old(engine)), accepting := false)
    {
      accepting := false;
      engine := engine.(status := ENGINE_STOPPED);
    }

    method Enter(scope: string) returns (entered: bool)
      modifies this
      ensures entered == old(accepting && scope !in scopes)
      ensures View() == old(View()).(scopes := if entered then old(scopes) + {scope} else old(scopes))
    {
      if !accepting || scope in scopes { return false; }
      scopes := scopes + {scope};
      return true;
    }

    method Begin(id: Id)
      modifies this
      ensures View() == old(View()).(engine := Began(old(engine), id))
    {
      engine := engine.(status := ENGINE_RUNNING, active := engine.active + [id]);
    }

    method Complete(id: Id, status: JobStatus)
      modifies this
      ensures View() == old(View()).(engine := Completed(old(engine), id, status))
    {
      var left := Without(engine.active, id);
      engine := Engine(
        if left != [] then ENGINE_RUNNING else ENGINE_IDLE,
        left,
        if status == COMPLETED then Some(id) else engine.lastSuccessful,
        if status == FAILED then Some(id) else engine.lastFailed,
        engine.degraded);
    }

    method Publish(delivered: bool)
      modifies this
      ensures View() == old(View()).(engine := Published(old(engine), delivered))
    {
      if delivered {
        if engine.degraded {
          engine := engine.(status := if engine.active != [] then ENGINE_RUNNING else ENGINE_IDLE, degraded := false);
        }
      } else {
        var status := if engine.status == ENGINE_RUNNING || engine.status == ENGINE_STOPPED
        then engine.status else ENGINE_DEGRADED;
        engine := engine.(status := status, degraded := true);
      }
    }

    method Discard(scope: string)
      modifies this
      ensures View() == old(View()).(scopes := old(scopes) - {scope})
    {
      scopes := scopes - {scope};
    }
  }

  datatype EngineStep = StartIt | StopIt | BeginIt(id: Id) | CompleteIt(id: Id, status: JobStatus) | PublishIt(delivered: bool)

  function EngineNext(e: Engine, step: EngineStep): Engine {
    match step
    case StartIt => Started(e)
    case StopIt => Stopped(e)
    case BeginIt(id) => Began(e, id)
    case CompleteIt(id, status) => Completed(e, id, status)
    case PublishIt(delivered) => Published(e, delivered)
  }

  /** Every change of the state keeps it truthful, except starting the engine over jobs that are already active. */
  lemma TruthfulIffNotStartedOverActiveJobs(e: Engine, step: EngineStep)
    requires Truthful(e)
    ensures Truthful(EngineNext(e, step)) <==> !(step.StartIt? && e.active != [])
  {
  }

  /** A stop survives exactly the steps that are neither a start nor a job's begin or end nor a recovered delivery. */
  lemma StopIsKeptExactlyBy(e: Engine, step: EngineStep)
    requires e.status == ENGINE_STOPPED
    ensures EngineNext(e, step).status == ENGINE_STOPPED <==>
      step.StopIt? || (step.PublishIt? && (e.degraded ==> !step.delivered))
  {
  }
}
