/** Strategy experiments, their candidates and the champion (application/research_lifecycle_service.py, domain/research.py). */
module ResearchLifecycle {
  import opened Wrappers

  datatype VersionId = VersionId(name: string, number: nat)

  datatype VersionStatus = CHALLENGER | CANDIDATE_VERSION | ACTIVE | REJECTED_VERSION | RETIRED

  datatype ExperimentStatus = DRAFT | READY | RUNNING | COMPLETED | FAILED | REJECTED | CANDIDATE | PROMOTED

  /** The hash of an experiment's base version and every other parameter. */
  datatype ExperimentId = ExperimentId(base: VersionId, parameters: string)

  datatype Experiment = Experiment(
    base: VersionId,
    candidate: VersionId,
    status: ExperimentStatus,
    evaluation: Option<bool>,
    approvedBy: Option<string>)

  datatype Store = Store(strategies: map<VersionId, VersionStatus>, experiments: map<ExperimentId, Experiment>)

  const EMPTY := Store(map[], map[])

  // ---------------------------------------------------------------- the status graph

  function Allowed(status: ExperimentStatus): set<ExperimentStatus> {
    match status
    case DRAFT => {READY, REJECTED}
    case READY => {RUNNING, REJECTED}
    case RUNNING => {COMPLETED, FAILED}
    case COMPLETED => {CANDIDATE, REJECTED}
    case CANDIDATE => {PROMOTED, REJECTED}
    case _ => {}
  }

  function Transition(e: Experiment, target: ExperimentStatus): Option<Experiment> {
    if target in Allowed(e.status) then Some(e.(status := target)) else None
  }

  // ---------------------------------------------------------------- use cases

  function Champions(s: Store, name: string): set<VersionId> {
    set v <- s.strategies | v.name == name && s.strategies[v] == ACTIVE
  }

  function Numbers(s: Store, name: string): set<nat> {
    set v <- s.strategies | v.name == name :: v.number
  }

  ghost function Highest(ns: set<nat>): (r: nat)
    ensures forall n <- ns :: n <= r
    ensures ns != {} ==> r in ns
  {
    if ns == {} then 0 else
      var n :| n in ns;
      var rest := Highest(ns - {n});
      assert forall m <- ns :: m == n || m in ns - {n};
      if rest >= n && ns != {n} then (assert ns - {n} != {}; rest) else n
  }

  /** The number of the next candidate. */
  ghost function NextNumber(s: Store, name: string): nat {
    Highest(Numbers(s, name)) + 1
  }

  function Initialized(s: Store, name: string): Option<Store> {
    if s.strategies != map[] then None else Some(s.(strategies := s.strategies[VersionId(name, 1) := ACTIVE]))
  }

  /** The new store and whether the call succeeded; a repeated experiment fails after its candidate was saved. */
  ghost function Created(s: Store, name: string, parameters: string): (Store, bool) {
    if |Champions(s, name)| != 1 then (s, false)
    else
      var champion :| champion in Champions(s, name);
      var candidate := VersionId(name, NextNumber(s, name));
      var id := ExperimentId(champion, parameters);
      var t := s.(strategies := s.strategies[candidate := CHALLENGER]);
      if id in s.experiments then (t, false)
      else (t.(experiments := s.experiments[id := Experiment(champion, candidate, DRAFT, None, None)]), true)
  }

  function WithExperiment(s: Store, id: ExperimentId, e: Experiment): Store {
    s.(experiments := s.experiments[id := e])
  }

  function WithStrategy(s: Store, v: VersionId, status: VersionStatus): Store {
    s.(strategies := s.strategies[v := status])
  }

  function MarkedReady(s: Store, id: ExperimentId): Option<Store> {
    if id !in s.experiments then None
    else match Transition(s.experiments[id], READY) case None => None case Some(e) => Some(WithExperiment(s, id, e))
  }

  /** None is an exception of the data, the backtests or the validation; otherwise the evaluation's verdict. */
  function Ran(s: Store, id: ExperimentId, verdict: Option<bool>): Option<Store> {
    if id !in s.experiments then None
    else match Transition(s.experiments[id], RUNNING)
      case None => None
      case Some(running) =>
        if verdict.None? || running.base !in s.strategies || running.candidate !in s.strategies
        then Some(WithExperiment(s, id, running.(status := FAILED)))
        else
          var passed := verdict.value;
          var final := running.(status := if passed then CANDIDATE else REJECTED, evaluation := verdict);
          Some(WithExperiment(WithStrategy(s, final.candidate, if passed then CANDIDATE_VERSION else REJECTED_VERSION), id, final))
  }

  function Promoted(s: Store, id: ExperimentId, approvedBy: string): Option<Store> {
    if approvedBy == "" || id !in s.experiments || s.experiments[id].status != CANDIDATE
       || s.experiments[id].base !in s.strategies || s.experiments[id].candidate !in s.strategies then None
    else
      var e := s.experiments[id];
      Some(WithExperiment(WithStrategy(WithStrategy(s, e.base, RETIRED), e.candidate, ACTIVE), id,
                          e.(status := PROMOTED, approvedBy := Some(approvedBy))))
  }

  function Rejected(s: Store, id: ExperimentId): Option<Store> {
    if id !in s.experiments then None
    else match Transition(s.experiments[id], REJECTED)
      case None => None
      case Some(e) =>
        if e.candidate !in s.strategies then None
        else Some(WithExperiment(WithStrategy(s, e.candidate, REJECTED_VERSION), id, e))
  }

  class CryptoResearchLifecycleService {
    var strategies: map<VersionId, VersionStatus>
    var experiments: map<ExperimentId, Experiment>

    constructor ()
      ensures Contents() == EMPTY
    {
      strategies, experiments := map[], map[];
    }

    function Contents(): Store
      reads this
    {
      Store(strategies, experiments)
    }

    method InitializeStrategy(name: string) returns (ok: bool)
      modifies this`strategies
      ensures ok == Initialized(old(Contents()), name).Some?
      ensures Contents() == Initialized(old(Contents()), name).GetOr(old(Contents()))
    {
      if strategies != map[] { return false; }
      strategies := strategies[VersionId(name, 1) := ACTIVE];
      return true;
    }

    /** One past the highest number among the versions of a name, which has at least one. */
    method CandidateNumber(name: string) returns (number: nat)
      requires Numbers(Contents(), name) != {}
      ensures number == NextNumber(Contents(), name)
    {
      number := 0;
      var left := strategies.Keys;
      while left != {}
        invariant left <= strategies.Keys
        invariant forall v <- strategies :: v !in left && v.name == name ==> v.number <= number
        invariant number == 0 || number in Numbers(Contents(), name)
        decreases |left|
      {
        var v :| v in left;
        left := left - {v};
        if v.name == name && v.number > number { number := v.number; }
      }
      assert number in Numbers(Contents(), name) || forall n <- Numbers(Contents(), name) :: n == 0;
      number := number + 1;
    }

    method CreateExperiment(name: string, parameters: string) returns (ok: bool)
      modifies this`strategies, this`experiments
      ensures (Contents(), ok) == Created(old(Contents()), name, parameters)
    {
      var active := set v <- strategies | v.name == name && strategies[v] == ACTIVE;
      if |active| != 1 { return false; }
      var champion :| champion in active;
      OnlyOne(active, champion);
      assert champion.number in Numbers(Contents(), name);
      var number := CandidateNumber(name);
      var candidate := VersionId(name, number);
      var id := ExperimentId(champion, parameters);
      strategies := strategies[candidate := CHALLENGER];
      if id in experiments { return false; }
      experiments := experiments[id := Experiment(champion, candidate, DRAFT, None, None)];
      return true;
    }

    method MarkReady(id: ExperimentId) returns (ok: bool)
      modifies this`experiments
      ensures ok == MarkedReady(old(Contents()), id).Some?
      ensures Contents() == MarkedReady(old(Contents()), id).GetOr(old(Contents()))
    {
      if id !in experiments { return false; }
      var ready := Transition(experiments[id], READY);
      if ready.None? { return false; }
      experiments := experiments[id := ready.value];
      return true;
    }

    method Run(id: ExperimentId, verdict: Option<bool>) returns (ok: bool)
      modifies this`strategies, this`experiments
      ensures Contents() == Ran(old(Contents()), id, verdict).GetOr(old(Contents()))
      ensures ok <==> Ran(old(Contents()), id, verdict).Some? && Contents().experiments[id].status != FAILED
    {
      if id !in experiments { return false; }
      var running := Transition(experiments[id], RUNNING);
      if running.None? { return false; }
      experiments := experiments[id := running.value];
      if verdict.None? || running.value.base !in strategies || running.value.candidate !in strategies {
        var failed := Transition(running.value, FAILED);
        experiments := experiments[id := failed.value];
        return false;
      }
      var completed := Transition(running.value, COMPLETED).value.(evaluation := verdict);
      var final := Transition(completed, if verdict.value then CANDIDATE else REJECTED);
      strategies := strategies[final.value.candidate := if verdict.value then CANDIDATE_VERSION else REJECTED_VERSION];
      experiments := experiments[id := final.value];
      return true;
    }

    method Promote(id: ExperimentId, approvedBy: string) returns (ok: bool)
      modifies this`strategies, this`experiments
      ensures ok == Promoted(old(Contents()), id, approvedBy).Some?
      ensures Contents() == Promoted(old(Contents()), id, approvedBy).GetOr(old(Contents()))
    {
      if approvedBy == "" || id !in experiments { return false; }
      var e := experiments[id];
      if e.status != CANDIDATE { return false; }
      if e.base !in strategies || e.candidate !in strategies { return false; }
      strategies := strategies[e.base := RETIRED];
      strategies := strategies[e.candidate := ACTIVE];
      var promoted := Transition(e, PROMOTED);
      experiments := experiments[id := promoted.value.(approvedBy := Some(approvedBy))];
      return true;
    }

    method Reject(id: ExperimentId) returns (ok: bool)
      modifies this`strategies, this`experiments
      ensures ok == Rejected(old(Contents()), id).Some?
      ensures Contents() == Rejected(old(Contents()), id).GetOr(old(Contents()))
    {
      if id !in experiments { return false; }
      var e := Transition(experiments[id], REJECTED);
      if e.None? || e.value.candidate !in strategies { return false; }
      strategies := strategies[e.value.candidate := REJECTED_VERSION];
      experiments := experiments[id := e.value];
      return true;
    }
  }

  lemma OnlyOne<T>(s: set<T>, x: T)
    requires |s| == 1 && x in s
    ensures s == {x}
  {
    assert |s - {x}| == 0;
  }

  // ---------------------------------------------------------------- runs

  datatype Step =
    | Initialize(name: string)
    | Create(name: string, parameters: string)
    | MarkReady(id: ExperimentId)
    | Execute(id: ExperimentId, verdict: Option<bool>)
    | Promote(id: ExperimentId, approvedBy: string)
    | Reject(id: ExperimentId)

  ghost function Next(s: Store, step: Step): Store {
    match step
    case Initialize(name) => Initialized(s, name).GetOr(s)
    case Create(name, parameters) => Created(s, name, parameters).0
    case MarkReady(id) => MarkedReady(s, id).GetOr(s)
    case Execute(id, verdict) => Ran(s, id, verdict).GetOr(s)
    case Promote(id, approvedBy) => Promoted(s, id, approvedBy).GetOr(s)
    case Reject(id) => Rejected(s, id).GetOr(s)
  }

  ghost function Run(s: Store, steps: seq<Step>): Store
    decreases |steps|
  {
    if steps == [] then s else Run(Next(s, steps[0]), steps[1..])
  }

  function AllChampions(s: Store): set<VersionId> {
    set v <- s.strategies | s.strategies[v] == ACTIVE
  }

  /** A promotion that goes through although its base is no longer the champion. */
  predicate Stale(s: Store, step: Step) {
    step.Promote? && Promoted(s, step.id, step.approvedBy).Some? && s.strategies[s.experiments[step.id].base] != ACTIVE
  }

  ghost function StalePromotions(s: Store, steps: seq<Step>): nat
    decreases |steps|
  {
    if steps == [] then 0
    else (if Stale(s, steps[0]) then 1 else 0) + StalePromotions(Next(s, steps[0]), steps[1..])
  }

  function VersionStatusOf(status: ExperimentStatus): set<VersionStatus> {
    match status
    case CANDIDATE => {CANDIDATE_VERSION}
    case REJECTED => {REJECTED_VERSION}
    case PROMOTED => {ACTIVE, RETIRED}
    case _ => {CHALLENGER}
  }

  /** Experiments and versions agree: who is whose candidate, in which status, judged how. */
  ghost predicate Sound(s: Store) {
    && (forall i <- s.experiments ::
          var e := s.experiments[i];
          && e.base in s.strategies && e.candidate in s.strategies && e.base.name == e.candidate.name
          && s.strategies[e.base] in {ACTIVE, RETIRED} && s.strategies[e.candidate] in VersionStatusOf(e.status)
          && (e.status in {CANDIDATE, PROMOTED} ==> e.evaluation == Some(true))
          && (e.status == PROMOTED <==> e.approvedBy.Some?) && e.status != COMPLETED && e.status != RUNNING)
    && (forall i <- s.experiments, j <- s.experiments :: s.experiments[i].candidate == s.experiments[j].candidate ==> i == j)
  }

  lemma NextIsNew(s: Store, name: string)
    ensures VersionId(name, NextNumber(s, name)) !in s.strategies
  {
    assert forall v <- s.strategies :: v.name == name ==> v.number in Numbers(s, name);
  }

  lemma CreateKeepsSound(s: Store, name: string, parameters: string)
    requires Sound(s)
    ensures Sound(Created(s, name, parameters).0)
    ensures AllChampions(Created(s, name, parameters).0) == AllChampions(s)
  {
    hide NextNumber, Numbers, Sound, AllChampions;
    if |Champions(s, name)| == 1 {
      var candidate := VersionId(name, NextNumber(s, name));
      NextIsNew(s, name);
      var t := WithStrategy(s, candidate, CHALLENGER);
      NewStrategyKeepsSound(s, candidate);
      forall champion, id | champion in Champions(s, name) && id !in s.experiments
        ensures Sound(WithExperiment(t, id, Experiment(champion, candidate, DRAFT, None, None)))
        ensures AllChampions(WithExperiment(t, id, Experiment(champion, candidate, DRAFT, None, None))) == AllChampions(s)
      {
        NewExperimentKeepsSound(s, candidate, id, champion);
      }
    }
  }

  lemma NewStrategyKeepsSound(s: Store, candidate: VersionId)
    requires Sound(s) && candidate !in s.strategies
    ensures var t := WithStrategy(s, candidate, CHALLENGER); Sound(t) && AllChampions(t) == AllChampions(s)
  {
  }

  lemma NewExperimentKeepsSound(s: Store, candidate: VersionId, id: ExperimentId, champion: VersionId)
    requires Sound(s) && candidate !in s.strategies && id !in s.experiments
    requires champion in s.strategies && s.strategies[champion] == ACTIVE && champion.name == candidate.name
    ensures var t := WithExperiment(WithStrategy(s, candidate, CHALLENGER), id, Experiment(champion, candidate, DRAFT, None, None));
      Sound(t) && AllChampions(t) == AllChampions(s)
  {
  }

  /** One experiment moves on, its candidate with it; everything else stays. */
  lemma MoveKeepsSound(s: Store, id: ExperimentId, e: Experiment, status: VersionStatus)
    requires Sound(s) && id in s.experiments && e.base == s.experiments[id].base && e.candidate == s.experiments[id].candidate
    requires status in VersionStatusOf(e.status) && s.strategies[e.candidate] !in {ACTIVE, RETIRED} && status != ACTIVE
    requires e.status in {CANDIDATE, PROMOTED} ==> e.evaluation == Some(true)
    requires (e.status == PROMOTED <==> e.approvedBy.Some?) && e.status != COMPLETED && e.status != RUNNING
    ensures Sound(WithExperiment(WithStrategy(s, e.candidate, status), id, e))
    ensures AllChampions(WithExperiment(WithStrategy(s, e.candidate, status), id, e)) == AllChampions(s)
  {
  }

  lemma PromoteKeepsSound(s: Store, id: ExperimentId, approvedBy: string)
    requires Sound(s) && Promoted(s, id, approvedBy).Some?
    ensures var t := Promoted(s, id, approvedBy).value; var e := s.experiments[id];
      && Sound(t) && e.candidate !in AllChampions(s) && AllChampions(t) == AllChampions(s) - {e.base} + {e.candidate}
  {
  }

  lemma UnchangedStrategy(s: Store, id: ExperimentId, e: Experiment)
    requires id in s.experiments && e.candidate in s.strategies
    ensures WithExperiment(WithStrategy(s, e.candidate, s.strategies[e.candidate]), id, e) == WithExperiment(s, id, e)
  {
    assert s.strategies[e.candidate := s.strategies[e.candidate]] == s.strategies;
  }

  lemma QuietExecute(s: Store, step: Step)
    requires Sound(s) && step.Execute? && step.id in s.experiments && s.experiments[step.id].status == READY
    ensures Sound(Next(s, step)) && AllChampions(Next(s, step)) == AllChampions(s)
  {
    var e := s.experiments[step.id];
    var v := s.strategies[e.candidate];
    assert v in VersionStatusOf(e.status) && e.base in s.strategies && e.candidate in s.strategies;
    assert v !in {ACTIVE, RETIRED} && e.approvedBy.None?;
    hide Sound, AllChampions;
    if step.verdict.None? {
      MoveKeepsSound(s, step.id, e.(status := FAILED), v);
      UnchangedStrategy(s, step.id, e.(status := FAILED));
    } else if step.verdict.value {
      MoveKeepsSound(s, step.id, e.(status := CANDIDATE, evaluation := step.verdict), CANDIDATE_VERSION);
    } else {
      MoveKeepsSound(s, step.id, e.(status := REJECTED, evaluation := step.verdict), REJECTED_VERSION);
    }
  }

  /** Only initialization and promotion touch the champions. */
  lemma QuietStep(s: Store, step: Step)
    requires Sound(s) && !step.Initialize? && !step.Promote?
    ensures Sound(Next(s, step)) && AllChampions(Next(s, step)) == AllChampions(s)
  {
    if step.Create? {
      CreateKeepsSound(s, step.name, step.parameters);
      hide Created, Sound;
    } else if step.id in s.experiments {
      var e := s.experiments[step.id];
      if step.Execute? && e.status == READY {
        QuietExecute(s, step);
      } else {
        var v := s.strategies[e.candidate];
        assert v in VersionStatusOf(e.status) && e.base in s.strategies && e.candidate in s.strategies;
        assert e.status in {DRAFT, READY, CANDIDATE} ==> v !in {ACTIVE, RETIRED} && e.approvedBy.None?;
        hide Sound, AllChampions;
        if step.MarkReady? && e.status == DRAFT {
          MoveKeepsSound(s, step.id, e.(status := READY), v);
          UnchangedStrategy(s, step.id, e.(status := READY));
        } else if step.Reject? && e.status in {DRAFT, READY, CANDIDATE} {
          MoveKeepsSound(s, step.id, e.(status := REJECTED), REJECTED_VERSION);
        }
      }
    }
  }

  lemma StepKeepsSound(s: Store, step: Step)
    requires Sound(s)
    ensures Sound(Next(s, step))
  {
    if step.Promote? {
      if Promoted(s, step.id, step.approvedBy).Some? { PromoteKeepsSound(s, step.id, step.approvedBy); }
      hide Promoted;
    } else if step.Initialize? {
    } else {
      QuietStep(s, step);
      hide Next;
    }
  }

  // ---------------------------------------------------------------- the champion

  ghost predicate OneName(s: Store) {
    forall u <- s.strategies, v <- s.strategies :: u.name == v.name
  }

  /** A promotion keeps the number of champions if its base is still the champion, and adds one if it is not. */
  lemma PromotionCounts(s: Store, id: ExperimentId, approvedBy: string)
    requires Sound(s) && Promoted(s, id, approvedBy).Some?
    ensures |AllChampions(Promoted(s, id, approvedBy).value)|
      == |AllChampions(s)| + (if s.strategies[s.experiments[id].base] == ACTIVE then 0 else 1)
  {
    PromoteKeepsSound(s, id, approvedBy);
    var e := s.experiments[id];
    if s.strategies[e.base] == ACTIVE {
      assert e.base in AllChampions(s);
    } else {
      assert AllChampions(s) - {e.base} == AllChampions(s);
    }
  }

  lemma NextKeepsOneName(s: Store, step: Step)
    requires Sound(s) && OneName(s)
    ensures OneName(Next(s, step)) && (Next(s, step).strategies == map[] ==> s.strategies == map[])
  {
    if step.Create? {
      var name := step.name;
      if |Champions(s, name)| == 1 {
        var v :| v in Champions(s, name);
        assert v in s.strategies && v.name == name;
      }
      hide Highest;
    }
  }

  /** The number of champions is one plus the stale promotions of the run. */
  lemma {:induction false} ChampionsAreCounted(s: Store, steps: seq<Step>)
    requires Sound(s) && OneName(s) && s.strategies != map[]
    ensures var t := Run(s, steps);
      && Sound(t) && OneName(t) && t.strategies != map[]
      && |AllChampions(t)| == |AllChampions(s)| + StalePromotions(s, steps)
    decreases |steps|
  {
    if steps != [] {
      var step := steps[0];
      var t := Next(s, step);
      StepKeepsSound(s, step);
      NextKeepsOneName(s, step);
      if step.Promote? {
        if Promoted(s, step.id, step.approvedBy).Some? { PromotionCounts(s, step.id, step.approvedBy); }
        hide Promoted;
        assert |AllChampions(t)| == |AllChampions(s)| + if Stale(s, step) then 1 else 0;
      } else if !step.Initialize? {
        QuietStep(s, step);
      }
      hide Next, AllChampions, Sound, OneName, Stale;
      ChampionsAreCounted(t, steps[1..]);
    }
  }

  /**
   * Over every run from an initialized registry there is exactly one champion if and only if no promotion went
   * through for a base that was no longer the champion.
   */
  lemma OneChampionIffNoStalePromotion(name: string, steps: seq<Step>)
    ensures var start := Initialized(EMPTY, name).value; var t := Run(start, steps);
      && |AllChampions(t)| >= 1
      && (|AllChampions(t)| == 1 <==> StalePromotions(start, steps) == 0)
      && forall v <- t.strategies :: Champions(t, v.name) == AllChampions(t)
  {
    var start := Initialized(EMPTY, name).value;
    assert AllChampions(start) == {VersionId(name, 1)};
    ChampionsAreCounted(start, steps);
    hide Run, StalePromotions, Sound;
    var t := Run(start, steps);
    forall v <- t.strategies ensures Champions(t, v.name) == AllChampions(t) {
    }
  }

  /** Two candidates of one champion can both be promoted; then no experiment can be created any more. */
  lemma TwoCandidatesOfOneBase(s: Store, i: ExperimentId, j: ExperimentId, approvedBy: string, name: string, parameters: string)
    requires Sound(s) && i in s.experiments && j in s.experiments && i != j && approvedBy != ""
    requires s.experiments[i].status == s.experiments[j].status == CANDIDATE && s.experiments[i].base == s.experiments[j].base
    requires AllChampions(s) == {s.experiments[i].base} && s.experiments[i].base.name == name
    ensures Promoted(s, i, approvedBy).Some? && Promoted(Promoted(s, i, approvedBy).value, j, approvedBy).Some?
    ensures var t := Promoted(Promoted(s, i, approvedBy).value, j, approvedBy).value;
      && Champions(t, name) == {s.experiments[i].candidate, s.experiments[j].candidate} && |Champions(t, name)| == 2
      && Created(t, name, parameters) == (t, false)
  {
    PromoteKeepsSound(s, i, approvedBy);
    var u := Promoted(s, i, approvedBy).value;
    PromoteKeepsSound(u, j, approvedBy);
    var t := Promoted(u, j, approvedBy).value;
    var a, b := s.experiments[i].candidate, s.experiments[j].candidate;
    assert a != b && a.name == name && b.name == name;
    assert AllChampions(t) == {a, b};
    assert Champions(t, name) == {a, b};
  }

  // ---------------------------------------------------------------- a run with two champions

  /** A challenger of the champion, run and found good. */
  function ToCandidate(id: ExperimentId): seq<Step> {
    [MarkReady(id), Execute(id, Some(true))]
  }

  lemma OneMoreStep(s: Store, step: Step, rest: seq<Step>)
    ensures Run(s, [step] + rest) == Run(Next(s, step), rest)
    ensures StalePromotions(s, [step] + rest) == (if Stale(s, step) then 1 else 0) + StalePromotions(Next(s, step), rest)
  {
    hide Next, Stale;
    assert ([step] + rest)[1..] == rest;
  }

  lemma Creating(s: Store, base: VersionId, parameters: string)
    requires Sound(s) && AllChampions(s) == {base} && ExperimentId(base, parameters) !in s.experiments
    ensures var t := Next(s, Create(base.name, parameters)); var id := ExperimentId(base, parameters);
      && Sound(t) && AllChampions(t) == {base} && id in t.experiments
      && t.experiments == s.experiments[id := t.experiments[id]]
      && t.experiments[id].base == base && t.experiments[id].status == DRAFT
  {
    CreateKeepsSound(s, base.name, parameters);
    hide NextNumber, Sound;
    assert Champions(s, base.name) == {base} by { assert base in AllChampions(s); }
  }

  lemma GettingReady(s: Store, id: ExperimentId)
    requires Sound(s) && id in s.experiments && s.experiments[id].status == DRAFT
    ensures var t := Next(s, MarkReady(id));
      && Sound(t) && AllChampions(t) == AllChampions(s)
      && t.experiments == s.experiments[id := s.experiments[id].(status := READY)]
  {
    QuietStep(s, MarkReady(id));
    hide Sound, AllChampions;
  }

  lemma Passing(s: Store, id: ExperimentId)
    requires Sound(s) && id in s.experiments && s.experiments[id].status == READY
    ensures var t := Next(s, Execute(id, Some(true)));
      && Sound(t) && AllChampions(t) == AllChampions(s)
      && t.experiments == s.experiments[id := s.experiments[id].(status := CANDIDATE, evaluation := Some(true))]
  {
    QuietStep(s, Execute(id, Some(true)));
    assert s.experiments[id].base in s.strategies && s.experiments[id].candidate in s.strategies;
    hide Sound, AllChampions;
  }

  lemma BecomingCandidate(s: Store, id: ExperimentId, rest: seq<Step>)
    requires Sound(s) && id in s.experiments && s.experiments[id].status == DRAFT
    ensures var t := Run(s, ToCandidate(id));
      && Sound(t) && AllChampions(t) == AllChampions(s) && id in t.experiments
      && t.experiments == s.experiments[id := s.experiments[id].(status := CANDIDATE, evaluation := Some(true))]
      && Run(s, ToCandidate(id) + rest) == Run(t, rest) && StalePromotions(s, ToCandidate(id) + rest) == StalePromotions(t, rest)
  {
    hide Next, Sound, AllChampions;
    var first, second := MarkReady(id), Execute(id, Some(true));
    var u := Next(s, first);
    GettingReady(s, id);
    Passing(u, id);
    assert ToCandidate(id) == [first] + ([second] + []) && ToCandidate(id) + rest == [first] + ([second] + rest);
    OneMoreStep(s, first, [second] + []);
    OneMoreStep(u, second, []);
    OneMoreStep(s, first, [second] + rest);
    OneMoreStep(u, second, rest);
  }

  /** Two candidates of the first champion, both promoted. */
  function TwoPromotions(name: string, a: string, b: string, approvedBy: string): seq<Step> {
    var i, j := ExperimentId(VersionId(name, 1), a), ExperimentId(VersionId(name, 1), b);
    [Create(name, a)] + ([Create(name, b)] + (ToCandidate(i) + (ToCandidate(j) + ([Promote(i, approvedBy)] + ([Promote(j, approvedBy)] + [])))))
  }

  lemma Promoting(s: Store, id: ExperimentId, approvedBy: string, other: ExperimentId)
    requires Sound(s) && Promoted(s, id, approvedBy).Some? && other in s.experiments && other != id
    ensures var t := Next(s, Promote(id, approvedBy));
      && t == Promoted(s, id, approvedBy).value && other in t.experiments && t.experiments[other] == s.experiments[other]
      && s.experiments[id].base in t.strategies && t.strategies[s.experiments[id].base] == RETIRED
      && (Stale(s, Promote(id, approvedBy)) <==> s.strategies[s.experiments[id].base] != ACTIVE)
  {
    assert s.experiments[id].candidate != s.experiments[id].base;
  }

  lemma PromotingTwice(s: Store, i: ExperimentId, j: ExperimentId, approvedBy: string, name: string)
    requires Sound(s) && i in s.experiments && j in s.experiments && i != j && approvedBy != ""
    requires s.experiments[i].status == s.experiments[j].status == CANDIDATE && s.experiments[i].base == s.experiments[j].base
    requires AllChampions(s) == {s.experiments[i].base} && s.experiments[i].base.name == name
    ensures var steps := [Promote(i, approvedBy)] + ([Promote(j, approvedBy)] + []); var t := Run(s, steps);
      && StalePromotions(s, steps) == 1 && |Champions(t, name)| == 2
      && forall parameters :: Created(t, name, parameters) == (t, false)
  {
    assert s.strategies[s.experiments[i].base] == ACTIVE by { assert s.experiments[i].base in AllChampions(s); }
    hide Next, Sound, Promoted, Stale, AllChampions, Champions;
    var first, second := Promote(i, approvedBy), Promote(j, approvedBy);
    TwoCandidatesOfOneBase(s, i, j, approvedBy, name, "");
    Promoting(s, i, approvedBy, j);
    var u := Next(s, first);
    PromoteKeepsSound(s, i, approvedBy);
    Promoting(u, j, approvedBy, i);
    OneMoreStep(s, first, [second] + []);
    OneMoreStep(u, second, []);
  }

  /**
   * The run that reaches it, from an initialized registry: two experiments on the first champion are created, run and
   * promoted; one promotion is stale, there are two champions, and no experiment of the strategy can be created any more.
   */
  lemma TwoChampionsAreReached(name: string, a: string, b: string, approvedBy: string)
    requires a != b && approvedBy != ""
    ensures var start := Initialized(EMPTY, name).value; var steps := TwoPromotions(name, a, b, approvedBy); var t := Run(start, steps);
      && StalePromotions(start, steps) == 1 && |Champions(t, name)| == 2
      && forall parameters :: Created(t, name, parameters) == (t, false)
  {
    var start := Initialized(EMPTY, name).value;
    var base := VersionId(name, 1);
    var i, j := ExperimentId(base, a), ExperimentId(base, b);
    assert AllChampions(start) == {base} && Sound(start) && start.experiments == map[];
    hide Next, Sound, AllChampions, ToCandidate, Champions, Created, Initialized;
    var promotions := [Promote(i, approvedBy)] + ([Promote(j, approvedBy)] + []);
    Creating(start, base, a);
    var s1 := Next(start, Create(name, a));
    Creating(s1, base, b);
    var s2 := Next(s1, Create(name, b));
    BecomingCandidate(s2, i, ToCandidate(j) + promotions);
    var s3 := Run(s2, ToCandidate(i));
    BecomingCandidate(s3, j, promotions);
    var s4 := Run(s3, ToCandidate(j));
    PromotingTwice(s4, i, j, approvedBy, name);
    OneMoreStep(start, Create(name, a), [Create(name, b)] + (ToCandidate(i) + (ToCandidate(j) + promotions)));
    OneMoreStep(s1, Create(name, b), ToCandidate(i) + (ToCandidate(j) + promotions));
  }

  // ---------------------------------------------------------------- closed experiments

  /** A failed, rejected or promoted experiment never changes again, and a promoted one passed its evaluation. */
  lemma {:induction false} ClosedExperimentsAreFinal(s: Store, steps: seq<Step>, id: ExperimentId)
    requires id in s.experiments && s.experiments[id].status in {FAILED, REJECTED, PROMOTED}
    ensures id in Run(s, steps).experiments && Run(s, steps).experiments[id] == s.experiments[id]
    decreases |steps|
  {
    if steps != [] {
      ClosedExperimentStays(s, steps[0], id);
      hide Next;
      ClosedExperimentsAreFinal(Next(s, steps[0]), steps[1..], id);
    }
  }

  lemma ClosedExperimentStays(s: Store, step: Step, id: ExperimentId)
    requires id in s.experiments && s.experiments[id].status in {FAILED, REJECTED, PROMOTED}
    ensures id in Next(s, step).experiments && Next(s, step).experiments[id] == s.experiments[id]
  {
    hide Highest, NextNumber;
  }
}
