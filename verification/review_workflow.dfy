/** Candidate, validation and promotion artifacts of the strategy review (crypto/strategy_review_workflow.py). */
module ReviewWorkflow {
  import opened Wrappers

  // ---------------------------------------------------------------- documents

  datatype Value = Null | Number(number: real) | Seconds(seconds: int) | Text(text: string) | Texts(items: seq<string>)

  datatype Policy = Policy(version: string, values: map<string, Value>)

  datatype Root = ANALYSES | CANDIDATES | PROPOSALS | VALIDATIONS | PROMOTIONS | REGISTRY | ELSEWHERE

  /** A file directly below a root, by stem and suffix. */
  datatype Path = Path(root: Root, stem: string, suffix: string)

  /** SHA-256 of a policy's configuration or of a file's bytes, without collisions; Unknown is any other text. */
  datatype Digest = OfPolicy(policy: Policy) | OfFile(file: File) | Unknown(text: string)

  datatype Experiment = Experiment(id: string, portfolio: string, version: string, configHash: Digest)

  datatype Decision = COLLECTING | REJECTED | PROMOTION_READY | SHADOW_READY_FOR_PAPER

  datatype Stage = PAPER_STAGE | SHADOW_TO_PAPER

  datatype Gate = Gate(passed: Option<bool>, required: bool, detail: string)

  datatype Analysis = Analysis(
    schema: int,
    id: string,
    decision: Decision,
    cutoff: Option<string>,
    hasCutoffDecision: bool,
    gatePolicy: string,
    experiment: Experiment,
    gates: map<string, Gate>,
    promotionEligible: Option<bool>,
    activationEligible: Option<bool>,
    stage: Option<Stage>)

  /** Old and new value of every changed field. */
  type Patch = map<string, (Value, Value)>

  /** Where a candidate comes from; a validation repeats its proposal's origin. */
  datatype Origin = Origin(
    proposalId: string,
    candidateVersion: string,
    candidatePath: Path,
    candidateConfigHash: Digest,
    candidateArtifactHash: Digest,
    parentVersion: string,
    parentPath: Path,
    parentConfigHash: Digest,
    parentArtifactHash: Digest,
    experimentId: string,
    experimentConfigHash: Digest,
    portfolioId: string,
    analysisId: string,
    analysisPath: Path,
    analysisHash: Digest,
    cutoff: Option<string>,
    gatePolicy: string,
    patch: Patch)

  datatype Hashes = Hashes(proposal: Digest, parentConfig: Digest, parentArtifact: Digest,
                           candidateConfig: Digest, candidateArtifact: Digest, analysis: Digest)

  datatype Manifest = Manifest(
    id: string,
    candidateVersion: string,
    candidatePath: Path,
    candidateConfigHash: Digest,
    parentVersion: string,
    parentConfigHash: Digest,
    experiment: Experiment,
    analysisId: string,
    analysisPath: Path,
    analysisHash: Digest,
    cutoff: Option<string>,
    gatePolicy: string,
    gates: map<string, Gate>,
    validatedAt: string,
    newPortfolio: string,
    newExperiment: string,
    initialCash: real,
    execute: bool,
    drains: seq<string>,
    validationId: string,
    validationPath: Path,
    validationHash: Digest)

  /** Malformed stands for every file that is not one of the documents, field by field. */
  datatype Document =
    | PolicyDoc(policy: Policy)
    | AnalysisDoc(analysis: Analysis)
    | ProposalDoc(schema: int, state: string, origin: Origin)
    | ValidationDoc(schema: int, state: string, validationId: string, proposalPath: Path, proposalHash: Digest,
                    origin: Origin, hashes: Hashes)
    | PromotionDoc(manifest: Manifest)
    | Malformed(content: string)

  /**
   * A document with its creation or validation time, if it has one. Layout 0 is how the workflow itself writes it;
   * another layout is other bytes with the same content.
   */
  datatype File = File(document: Document, at: string, layout: nat)

  datatype World = World(files: map<Path, File>, observations: map<string, Experiment>, portfolios: set<string>)

  /** The parts of the system the workflow asks without knowing them. */
  datatype Rules = Rules(
    idOk: string -> bool,
    versionOk: string -> bool,
    utcOk: string -> bool,
    policyOk: Policy -> bool,
    patchable: set<string>)

  // ---------------------------------------------------------------- reading

  /** What the registry below a root loads for a version. */
  function LoadPolicy(ru: Rules, w: World, root: Root, version: string): Option<Policy> {
    var path := Path(root, version, "toml");
    if ru.versionOk(version) && path in w.files && w.files[path].document.PolicyDoc?
       && w.files[path].document.policy.version == version && ru.policyOk(w.files[path].document.policy)
    then Some(w.files[path].document.policy) else None
  }

  /** Listing the versions fails on a snapshot whose file name is no version. */
  predicate ListsVersions(ru: Rules, w: World) {
    forall p <- w.files :: p.root == REGISTRY && p.suffix == "toml" ==> ru.versionOk(p.stem)
  }

  predicate IsPublished(w: World, version: string) {
    Path(REGISTRY, version, "toml") in w.files
  }

  predicate ValidAnalysis(ru: Rules, a: Analysis) {
    && 1 <= a.schema <= 5 && ru.idOk(a.id)
    && ((a.decision == COLLECTING && a.cutoff.None? && !a.hasCutoffDecision)
        || (a.cutoff.Some? && ru.utcOk(a.cutoff.value) && a.hasCutoffDecision))
    && a.gatePolicy != "" && a.experiment.id != "" && a.experiment.portfolio != "" && a.experiment.version != ""
    && (forall g <- a.gates :: ru.idOk(g))
    && (a.promotionEligible.Some? ==> a.promotionEligible.value == (a.decision == PROMOTION_READY))
    && (a.activationEligible.Some? ==>
          a.activationEligible.value == (a.decision in {PROMOTION_READY, SHADOW_READY_FOR_PAPER}))
    && (a.decision == SHADOW_READY_FOR_PAPER ==> a.stage == Some(SHADOW_TO_PAPER))
  }

  function LoadAnalysis(ru: Rules, w: World, path: Path): Option<Analysis> {
    if path.root == ANALYSES && path in w.files && w.files[path].document.AnalysisDoc?
       && ValidAnalysis(ru, w.files[path].document.analysis) && path == Path(ANALYSES, w.files[path].document.analysis.id, "json")
    then Some(w.files[path].document.analysis) else None
  }

  predicate Observed(w: World, e: Experiment) {
    e.id in w.observations && w.observations[e.id] == e
  }

  function Changed(parent: Policy, candidate: Policy): set<string> {
    set n <- parent.values | n !in candidate.values || parent.values[n] != candidate.values[n]
  }

  function Audit(parent: Policy, candidate: Policy): Patch {
    map n | n in Changed(parent, candidate) && n in candidate.values :: (parent.values[n], candidate.values[n])
  }

  predicate AtMost(p: Policy, name: string, limit: real) {
    name in p.values && p.values[name].Number? && p.values[name].number <= limit
  }

  /** The hard envelope of automatically proposed paper strategies. */
  predicate Safe(p: Policy) {
    && AtMost(p, "maximum_positions", 3.0) && AtMost(p, "invested_fraction", 0.90) && AtMost(p, "maximum_asset_weight", 0.40)
    && AtMost(p, "maximum_daily_turnover_fraction", 6.0) && AtMost(p, "maximum_daily_fee_fraction", 0.005)
    && AtMost(p, "maximum_daily_realized_loss_fraction", 0.02)
    && "bullish_daily_turnover_fraction" in p.values
    && (p.values["bullish_daily_turnover_fraction"].Null? || AtMost(p, "bullish_daily_turnover_fraction", 8.0))
    && "turnover_sell_weight" in p.values && p.values["turnover_sell_weight"].Number?
    && p.values["turnover_sell_weight"].number >= 0.5
  }

  // ---------------------------------------------------------------- publishing

  predicate HasTime(d: Document) { d.ProposalDoc? || d.ValidationDoc? || d.PromotionDoc? }

  /** An existing artifact is accepted only as the same document; its own time stamp stays. */
  predicate Agrees(ru: Rules, existing: File, d: Document) {
    existing.document == d && !d.PolicyDoc? && !d.Malformed? && (HasTime(d) ==> ru.utcOk(existing.at))
  }

  function Published(ru: Rules, w: World, path: Path, d: Document, at: string): Option<World> {
    if path in w.files then if Agrees(ru, w.files[path], d) then Some(w) else None
    else Some(w.(files := w.files[path := File(d, at, 0)]))
  }

  function AnalysisPublished(ru: Rules, w: World, a: Analysis): Option<World> {
    if !ValidAnalysis(ru, a) then None else Published(ru, w, Path(ANALYSES, a.id, "json"), AnalysisDoc(a), "")
  }

  // ---------------------------------------------------------------- propose

  datatype ProposeRequest = ProposeRequest(
    proposalId: string, analysisPath: Path, parentVersion: string, candidateVersion: string,
    patch: map<string, Value>, at: string)

  function Candidate(parent: Policy, q: ProposeRequest): Policy {
    Policy(q.candidateVersion, parent.values + q.patch)
  }

  function CandidatePath(version: string): Path { Path(CANDIDATES, version, "toml") }

  function ProposalPath(id: string): Path { Path(PROPOSALS, id, "json") }

  function OriginOf(w: World, q: ProposeRequest, a: Analysis, parent: Policy): Origin
    requires q.analysisPath in w.files && Path(REGISTRY, q.parentVersion, "toml") in w.files
  {
    var candidate := Candidate(parent, q);
    Origin(
      q.proposalId, q.candidateVersion, CandidatePath(q.candidateVersion), OfPolicy(candidate),
      OfFile(File(PolicyDoc(candidate), "", 0)), q.parentVersion, Path(REGISTRY, q.parentVersion, "toml"), OfPolicy(parent),
      OfFile(w.files[Path(REGISTRY, q.parentVersion, "toml")]), a.experiment.id, a.experiment.configHash, a.experiment.portfolio,
      a.id, q.analysisPath, OfFile(w.files[q.analysisPath]), a.cutoff, a.gatePolicy, Audit(parent, candidate))
  }

  /** Every check before anything is written. */
  predicate MayPropose(ru: Rules, w: World, q: ProposeRequest) {
    && ru.idOk(q.proposalId) && ru.idOk(q.candidateVersion)
    && LoadAnalysis(ru, w, q.analysisPath).Some? && LoadPolicy(ru, w, REGISTRY, q.parentVersion).Some?
    && var a := LoadAnalysis(ru, w, q.analysisPath).value;
       var parent := LoadPolicy(ru, w, REGISTRY, q.parentVersion).value;
       var candidate := Candidate(parent, q);
       && a.decision == REJECTED
       && a.experiment.version == q.parentVersion && a.experiment.configHash == OfPolicy(parent) && Observed(w, a.experiment)
       && ListsVersions(ru, w) && !IsPublished(w, q.candidateVersion)
       && (CandidatePath(q.candidateVersion) in w.files ==> ProposalPath(q.proposalId) in w.files)
       && q.patch.Keys != {} && q.patch.Keys <= ru.patchable && q.patch.Keys <= parent.values.Keys
       && Changed(parent, candidate) == q.patch.Keys && Safe(candidate)
       && ru.versionOk(q.candidateVersion) && ru.policyOk(candidate)
  }

  /** The candidate snapshot and its proposal; when the proposal is refused the new candidate is taken back. */
  function Proposed(ru: Rules, w: World, q: ProposeRequest): Option<World> {
    if !MayPropose(ru, w, q) then None
    else
      var a := LoadAnalysis(ru, w, q.analysisPath).value;
      var parent := LoadPolicy(ru, w, REGISTRY, q.parentVersion).value;
      var file := File(PolicyDoc(Candidate(parent, q)), "", 0);
      var path := CandidatePath(q.candidateVersion);
      if path in w.files && w.files[path] != file then None
      else Published(ru, w.(files := w.files[path := file]), ProposalPath(q.proposalId),
                     ProposalDoc(1, "PROPOSED", OriginOf(w, q, a, parent)), q.at)
  }

  // ---------------------------------------------------------------- verify a proposal

  function LoadCandidate(ru: Rules, w: World, path: Path): Option<Policy> {
    if path.root == CANDIDATES then LoadPolicy(ru, w, CANDIDATES, path.stem) else None
  }

  /** The policies and the analysis a proposal names are still what it says. */
  predicate OriginHolds(ru: Rules, w: World, o: Origin) {
    && o.parentPath.root == REGISTRY && o.parentPath in w.files && o.candidatePath in w.files
    && LoadPolicy(ru, w, REGISTRY, o.parentVersion).Some? && LoadCandidate(ru, w, o.candidatePath).Some?
    && LoadAnalysis(ru, w, o.analysisPath).Some?
    && var parent := LoadPolicy(ru, w, REGISTRY, o.parentVersion).value;
       var candidate := LoadCandidate(ru, w, o.candidatePath).value;
       var a := LoadAnalysis(ru, w, o.analysisPath).value;
       && candidate.version == o.candidateVersion && ListsVersions(ru, w) && !IsPublished(w, candidate.version)
       && o.parentConfigHash == OfPolicy(parent) && o.parentArtifactHash == OfFile(w.files[o.parentPath])
       && o.candidateConfigHash == OfPolicy(candidate) && o.candidateArtifactHash == OfFile(w.files[o.candidatePath])
       && Changed(parent, candidate) != {} && Changed(parent, candidate) <= ru.patchable && Safe(candidate)
       && o.patch == Audit(parent, candidate)
       && o.analysisHash == OfFile(w.files[o.analysisPath]) && a.decision == REJECTED
       && a.experiment == Experiment(o.experimentId, o.portfolioId, o.parentVersion, o.experimentConfigHash)
       && a.id == o.analysisId && a.cutoff == o.cutoff && a.gatePolicy == o.gatePolicy
       && Observed(w, a.experiment)
  }

  function VerifyProposal(ru: Rules, w: World, source: Path): Option<Hashes> {
    if source in w.files && w.files[source].document.ProposalDoc?
       && w.files[source].document.schema == 1 && w.files[source].document.state == "PROPOSED"
       && ru.idOk(w.files[source].document.origin.proposalId)
       && source == ProposalPath(w.files[source].document.origin.proposalId)
       && OriginHolds(ru, w, w.files[source].document.origin) && ru.utcOk(w.files[source].at)
    then
      var o := w.files[source].document.origin;
      Some(Hashes(OfFile(w.files[source]), o.parentConfigHash, o.parentArtifactHash, o.candidateConfigHash,
                  o.candidateArtifactHash, o.analysisHash))
    else None
  }

  // ---------------------------------------------------------------- validate

  datatype ValidateRequest = ValidateRequest(validationId: string, proposalPath: Path, at: string)

  function ValidationPath(id: string): Path { Path(VALIDATIONS, id, "json") }

  function Validated(ru: Rules, w: World, q: ValidateRequest): Option<World> {
    if !ru.idOk(q.validationId) || q.proposalPath.root != PROPOSALS || VerifyProposal(ru, w, q.proposalPath).None? then None
    else
      var hashes := VerifyProposal(ru, w, q.proposalPath).value;
      Published(ru, w, ValidationPath(q.validationId),
        ValidationDoc(1, "VALIDATED", q.validationId, q.proposalPath, hashes.proposal, w.files[q.proposalPath].document.origin, hashes),
        q.at)
  }

  predicate VerifyValidation(ru: Rules, w: World, source: Path) {
    && source in w.files && w.files[source].document.ValidationDoc?
    && var v := w.files[source].document;
       && v.schema == 1 && v.state == "VALIDATED" && ru.idOk(v.validationId) && source == ValidationPath(v.validationId)
       && v.proposalPath.root == PROPOSALS && v.proposalPath in w.files && v.proposalHash == OfFile(w.files[v.proposalPath])
       && VerifyProposal(ru, w, v.proposalPath) == Some(v.hashes)
       && v.origin == w.files[v.proposalPath].document.origin
       && ru.utcOk(w.files[source].at)
  }

  // ---------------------------------------------------------------- prepare a promotion

  datatype PrepareRequest = PrepareRequest(
    promotionId: string, validationPath: Path, analysisPath: Path, newPortfolio: string, newExperiment: string,
    initialCash: real, execute: bool, drains: seq<string>, at: string)

  function PromotionPath(id: string): Path { Path(PROMOTIONS, id, "json") }

  /** The drained experiments in order of first mention. */
  function Drained(done: seq<string>, ids: seq<string>): seq<string>
    decreases |ids|
  {
    if ids == [] then done else Drained(if ids[0] in done then done else done + [ids[0]], ids[1..])
  }

  predicate GatesPass(gates: map<string, Gate>) {
    && (exists g <- gates :: gates[g].required)
    && (forall g <- gates :: gates[g].required ==> gates[g].passed == Some(true))
  }

  predicate MayPrepare(ru: Rules, w: World, q: PrepareRequest) {
    && ru.idOk(q.promotionId) && ru.idOk(q.newPortfolio) && ru.idOk(q.newExperiment) && q.initialCash > 0.0
    && q.validationPath.root == VALIDATIONS && VerifyValidation(ru, w, q.validationPath)
    && LoadAnalysis(ru, w, q.analysisPath).Some?
    && var o := w.files[q.validationPath].document.origin;
       var a := LoadAnalysis(ru, w, q.analysisPath).value;
       && a.decision in {PROMOTION_READY, SHADOW_READY_FOR_PAPER} && GatesPass(a.gates)
       && LoadCandidate(ru, w, o.candidatePath).Some?
       && var candidate := LoadCandidate(ru, w, o.candidatePath).value;
          && candidate.version == o.candidateVersion && OfPolicy(candidate) == o.candidateConfigHash
          && a.experiment.version == o.candidateVersion && a.experiment.configHash == OfPolicy(candidate)
          && Observed(w, a.experiment)
          && (forall id <- q.drains + [a.experiment.id] :: ru.idOk(id))
          && q.newExperiment !in q.drains + [a.experiment.id]
  }

  function ManifestOf(w: World, q: PrepareRequest, a: Analysis): Manifest
    requires q.validationPath in w.files && w.files[q.validationPath].document.ValidationDoc? && q.analysisPath in w.files
  {
    var v := w.files[q.validationPath].document;
    Manifest(q.promotionId, v.origin.candidateVersion, v.origin.candidatePath, v.origin.candidateConfigHash,
      v.origin.parentVersion, v.origin.parentConfigHash, a.experiment, a.id, q.analysisPath, OfFile(w.files[q.analysisPath]),
      a.cutoff, a.gatePolicy, a.gates, w.files[q.validationPath].at, q.newPortfolio, q.newExperiment, q.initialCash, q.execute,
      Drained([], q.drains + [a.experiment.id]), v.validationId, q.validationPath, OfFile(w.files[q.validationPath]))
  }

  /** A retry of a published promotion skips the checks that a later activation would make fail. */
  predicate MayActivate(w: World, m: Manifest) {
    && (forall id <- m.drains :: id in w.observations)
    && m.newPortfolio !in w.portfolios && m.newExperiment !in w.observations
  }

  function Prepared(ru: Rules, w: World, q: PrepareRequest): Option<World> {
    if !MayPrepare(ru, w, q) then None
    else
      var m := ManifestOf(w, q, LoadAnalysis(ru, w, q.analysisPath).value);
      if PromotionPath(q.promotionId) !in w.files && !MayActivate(w, m) then None
      else Published(ru, w, PromotionPath(q.promotionId), PromotionDoc(m), q.at)
  }

  // ---------------------------------------------------------------- the workflow

  class StrategyReviewWorkflow {
    const rules: Rules
    const observations: map<string, Experiment>
    const portfolios: set<string>
    var files: map<Path, File>

    /** The two databases are only read, so one workflow call sees one state of them. */
    constructor (rules: Rules, w: World)
      ensures this.rules == rules && Contents() == w
    {
      this.rules, observations, portfolios, files := rules, w.observations, w.portfolios, w.files;
    }

    function Contents(): World
      reads this
    {
      World(files, observations, portfolios)
    }

    method PublishJson(path: Path, d: Document, at: string) returns (ok: bool)
      modifies this`files
      ensures ok == Published(rules, old(Contents()), path, d, at).Some?
      ensures Contents() == if ok then Published(rules, old(Contents()), path, d, at).value else old(Contents())
    {
      if path in files { return Agrees(rules, files[path], d); }
      files := files[path := File(d, at, 0)];
      return true;
    }

    method PublishAnalysis(a: Analysis) returns (ok: bool)
      modifies this`files
      ensures ok == AnalysisPublished(rules, old(Contents()), a).Some?
      ensures Contents() == if ok then AnalysisPublished(rules, old(Contents()), a).value else old(Contents())
    {
      if !ValidAnalysis(rules, a) { return false; }
      ok := PublishJson(Path(ANALYSES, a.id, "json"), AnalysisDoc(a), "");
    }

    method WritePolicy(path: Path, p: Policy) returns (ok: bool)
      modifies this`files
      ensures ok == (path in old(files) ==> old(files)[path] == File(PolicyDoc(p), "", 0))
      ensures files == if ok then old(files)[path := File(PolicyDoc(p), "", 0)] else old(files)
    {
      if path in files { return files[path] == File(PolicyDoc(p), "", 0); }
      files := files[path := File(PolicyDoc(p), "", 0)];
      return true;
    }

    method ProposeCandidate(q: ProposeRequest) returns (ok: bool)
      modifies this`files
      ensures ok == Proposed(rules, old(Contents()), q).Some?
      ensures Contents() == if ok then Proposed(rules, old(Contents()), q).value else old(Contents())
    {
      if !MayPropose(rules, Contents(), q) { return false; }
      var a := LoadAnalysis(rules, Contents(), q.analysisPath).value;
      var parent := LoadPolicy(rules, Contents(), REGISTRY, q.parentVersion).value;
      var origin := OriginOf(Contents(), q, a, parent);
      var path := CandidatePath(q.candidateVersion);
      var existed := path in files;
      var written := WritePolicy(path, Candidate(parent, q));
      if !written { return false; }
      ok := PublishJson(ProposalPath(q.proposalId), ProposalDoc(1, "PROPOSED", origin), q.at);
      if !ok && !existed { files := files - {path}; }
    }

    method ValidateCandidate(q: ValidateRequest) returns (ok: bool)
      modifies this`files
      ensures ok == Validated(rules, old(Contents()), q).Some?
      ensures Contents() == if ok then Validated(rules, old(Contents()), q).value else old(Contents())
    {
      if !rules.idOk(q.validationId) || q.proposalPath.root != PROPOSALS { return false; }
      var verified := VerifyProposal(rules, Contents(), q.proposalPath);
      if verified.None? { return false; }
      var origin := files[q.proposalPath].document.origin;
      var d := ValidationDoc(1, "VALIDATED", q.validationId, q.proposalPath, verified.value.proposal, origin, verified.value);
      ok := PublishJson(ValidationPath(q.validationId), d, q.at);
    }

    method Drain(ids: seq<string>) returns (drains: seq<string>)
      ensures drains == Drained([], ids)
    {
      drains := [];
      for n := 0 to |ids|
        invariant Drained(drains, ids[n..]) == Drained([], ids)
      {
        assert ids[n..][1..] == ids[n + 1..];
        if ids[n] !in drains { drains := drains + [ids[n]]; }
      }
    }

    method PreparePaperPromotion(q: PrepareRequest) returns (ok: bool)
      modifies this`files
      ensures ok == Prepared(rules, old(Contents()), q).Some?
      ensures Contents() == if ok then Prepared(rules, old(Contents()), q).value else old(Contents())
    {
      hide ValidAnalysis, GatesPass, OriginHolds, Safe, Changed, Audit, VerifyProposal;
      if !MayPrepare(rules, Contents(), q) { return false; }
      var a := LoadAnalysis(rules, Contents(), q.analysisPath).value;
      var drains := Drain(q.drains + [a.experiment.id]);
      var m := ManifestOf(Contents(), q, a).(drains := drains);
      if PromotionPath(q.promotionId) !in files {
        if exists id <- drains :: id !in observations { return false; }
        if q.newPortfolio in portfolios || q.newExperiment in observations { return false; }
      }
      ok := PublishJson(PromotionPath(q.promotionId), PromotionDoc(m), q.at);
    }
  }

  // ---------------------------------------------------------------- published artifacts never change

  datatype Request =
    | PublishIt(analysis: Analysis)
    | ProposeIt(propose: ProposeRequest)
    | ValidateIt(validate: ValidateRequest)
    | PrepareIt(prepare: PrepareRequest)

  function Outcome(ru: Rules, w: World, r: Request): Option<World> {
    match r
    case PublishIt(a) => AnalysisPublished(ru, w, a)
    case ProposeIt(q) => Proposed(ru, w, q)
    case ValidateIt(q) => Validated(ru, w, q)
    case PrepareIt(q) => Prepared(ru, w, q)
  }

  /** What a request may write. */
  function Targets(r: Request): set<Path> {
    match r
    case PublishIt(a) => {Path(ANALYSES, a.id, "json")}
    case ProposeIt(q) => {CandidatePath(q.candidateVersion), ProposalPath(q.proposalId)}
    case ValidateIt(q) => {ValidationPath(q.validationId)}
    case PrepareIt(q) => {PromotionPath(q.promotionId)}
  }

  /** A successful call keeps every existing artifact byte for byte and adds no file but its own artifacts. */
  lemma PublishingIsImmutable(ru: Rules, w: World, r: Request)
    ensures Outcome(ru, w, r).Some? ==>
      var t := Outcome(ru, w, r).value;
      && t.observations == w.observations && t.portfolios == w.portfolios
      && (forall p <- w.files :: p in t.files && t.files[p] == w.files[p])
      && (forall p <- t.files :: p in w.files || p in Targets(r))
      && (forall p <- Targets(r) :: p in t.files)
  {
    hide MayPropose, MayPrepare, OriginOf, ManifestOf, VerifyProposal, VerifyValidation, ValidAnalysis, MayActivate;
  }

  // ---------------------------------------------------------------- a published promotion has its whole chain

  /** The manifest's chain, read off the files of one moment. */
  ghost predicate Provenance(ru: Rules, w: World, m: Manifest) {
    && m.validationPath in w.files && w.files[m.validationPath].document.ValidationDoc?
    && m.validationHash == OfFile(w.files[m.validationPath])
    && var v := w.files[m.validationPath].document;
       && v.state == "VALIDATED" && v.validationId == m.validationId
       && v.proposalPath in w.files && v.proposalHash == OfFile(w.files[v.proposalPath])
       && w.files[v.proposalPath].document == ProposalDoc(1, "PROPOSED", v.origin)
       && SourceHolds(ru, w, v.origin) && CandidateHolds(ru, w, v.origin, m)
  }

  /** The candidate came from a rejected analysis of its registered parent. */
  ghost predicate SourceHolds(ru: Rules, w: World, o: Origin) {
    && o.analysisPath in w.files && o.analysisHash == OfFile(w.files[o.analysisPath])
    && w.files[o.analysisPath].document.AnalysisDoc?
    && w.files[o.analysisPath].document.analysis.decision == REJECTED
    && w.files[o.analysisPath].document.analysis.experiment.version == o.parentVersion
    && w.files[o.analysisPath].document.analysis.experiment.id in w.observations
    && w.observations[w.files[o.analysisPath].document.analysis.experiment.id].version == o.parentVersion
    && LoadPolicy(ru, w, REGISTRY, o.parentVersion).Some?
    && o.parentConfigHash == OfPolicy(LoadPolicy(ru, w, REGISTRY, o.parentVersion).value)
  }

  /** The candidate is the proposed one, changes only patchable fields, is safe, and passed its own required gates. */
  ghost predicate CandidateHolds(ru: Rules, w: World, o: Origin, m: Manifest) {
    && m.candidateVersion == o.candidateVersion && m.candidatePath == o.candidatePath
    && m.candidateConfigHash == o.candidateConfigHash
    && m.parentVersion == o.parentVersion && m.parentConfigHash == o.parentConfigHash
    && o.candidatePath in w.files && o.candidateArtifactHash == OfFile(w.files[o.candidatePath])
    && LoadPolicy(ru, w, CANDIDATES, m.candidateVersion).Some? && LoadPolicy(ru, w, REGISTRY, m.parentVersion).Some?
    && var candidate := LoadPolicy(ru, w, CANDIDATES, m.candidateVersion).value;
       var parent := LoadPolicy(ru, w, REGISTRY, m.parentVersion).value;
       && m.candidateConfigHash == OfPolicy(candidate) && !IsPublished(w, m.candidateVersion)
       && Changed(parent, candidate) != {} && Changed(parent, candidate) <= ru.patchable && Safe(candidate)
       && m.analysisPath in w.files && m.analysisHash == OfFile(w.files[m.analysisPath])
       && w.files[m.analysisPath].document.AnalysisDoc?
       && var a := w.files[m.analysisPath].document.analysis;
          && a.decision in {PROMOTION_READY, SHADOW_READY_FOR_PAPER} && GatesPass(a.gates) && m.gates == a.gates
          && a.experiment == m.experiment && m.experiment.version == m.candidateVersion
          && m.experiment.configHash == OfPolicy(candidate) && Observed(w, m.experiment)
  }

  /**
   * Whatever happened to the files before, a newly published manifest has its whole chain at that moment, names
   * existing experiments to drain and unused identifiers, and none of the drained experiments is the new one.
   */
  lemma PromotionHasProvenance(ru: Rules, w: World, q: PrepareRequest)
    requires Prepared(ru, w, q).Some? && PromotionPath(q.promotionId) !in w.files
    ensures var m := ManifestOf(w, q, LoadAnalysis(ru, w, q.analysisPath).value);
      && PromotionPath(q.promotionId) in Prepared(ru, w, q).value.files
      && Prepared(ru, w, q).value.files[PromotionPath(q.promotionId)].document == PromotionDoc(m)
      && Provenance(ru, w, m)
      && m.newPortfolio !in w.portfolios && m.newExperiment !in w.observations && m.initialCash > 0.0
      && (forall id <- m.drains :: id in w.observations && id != m.newExperiment) && m.experiment.id in m.drains
  {
    var a := LoadAnalysis(ru, w, q.analysisPath).value;
    var m := ManifestOf(w, q, a);
    var o := w.files[q.validationPath].document.origin;
    DrainedMembers([], q.drains + [a.experiment.id]);
    OriginSource(ru, w, o);
    OriginCandidate(ru, w, o);
    hide OriginHolds, Safe, Changed, Audit, ValidAnalysis, Drained;
  }

  lemma OriginSource(ru: Rules, w: World, o: Origin)
    requires OriginHolds(ru, w, o)
    ensures SourceHolds(ru, w, o)
  {
    hide Safe, Changed, Audit, ValidAnalysis;
  }

  lemma OriginCandidate(ru: Rules, w: World, o: Origin)
    requires OriginHolds(ru, w, o)
    ensures LoadPolicy(ru, w, CANDIDATES, o.candidateVersion).Some? && LoadPolicy(ru, w, REGISTRY, o.parentVersion).Some?
    ensures var candidate := LoadPolicy(ru, w, CANDIDATES, o.candidateVersion).value;
      var parent := LoadPolicy(ru, w, REGISTRY, o.parentVersion).value;
      && LoadCandidate(ru, w, o.candidatePath) == Some(candidate) && o.candidateConfigHash == OfPolicy(candidate)
      && !IsPublished(w, o.candidateVersion)
      && Changed(parent, candidate) != {} && Changed(parent, candidate) <= ru.patchable && Safe(candidate)
      && o.candidatePath in w.files && o.candidateArtifactHash == OfFile(w.files[o.candidatePath])
  {
    hide Safe, Changed, Audit, ValidAnalysis;
  }

  lemma {:induction false} DrainedMembers(done: seq<string>, ids: seq<string>)
    ensures forall id :: id in Drained(done, ids) <==> id in done || id in ids
    decreases |ids|
  {
    if ids != [] { DrainedMembers(if ids[0] in done then done else done + [ids[0]], ids[1..]); }
  }

  /** The envelope in numbers: a promoted candidate stays inside every limit. */
  lemma PromotedCandidateIsSafe(ru: Rules, w: World, m: Manifest)
    requires Provenance(ru, w, m)
    ensures LoadPolicy(ru, w, CANDIDATES, m.candidateVersion).Some?
    ensures var p := LoadPolicy(ru, w, CANDIDATES, m.candidateVersion).value;
      && AtMost(p, "maximum_positions", 3.0) && AtMost(p, "invested_fraction", 0.90) && AtMost(p, "maximum_asset_weight", 0.40)
      && AtMost(p, "maximum_daily_turnover_fraction", 6.0) && AtMost(p, "maximum_daily_fee_fraction", 0.005)
      && AtMost(p, "maximum_daily_realized_loss_fraction", 0.02)
      && "bullish_daily_turnover_fraction" in p.values
      && (p.values["bullish_daily_turnover_fraction"].Null? || AtMost(p, "bullish_daily_turnover_fraction", 8.0))
      && "turnover_sell_weight" in p.values && p.values["turnover_sell_weight"].Number?
      && p.values["turnover_sell_weight"].number >= 0.5
      && (forall n <- LoadPolicy(ru, w, REGISTRY, m.parentVersion).value.values ::
            n !in ru.patchable ==> n in p.values && p.values[n] == LoadPolicy(ru, w, REGISTRY, m.parentVersion).value.values[n])
  {
  }

  // ---------------------------------------------------------------- verified means unchanged

  /** A validation that verifies at two moments was verified against the same bytes of every file of its chain. */
  lemma VerifiedChainIsFrozen(ru: Rules, w: World, t: World, source: Path)
    requires source in w.files && source in t.files && w.files[source] == t.files[source]
    requires VerifyValidation(ru, w, source) && VerifyValidation(ru, t, source)
    ensures var v := w.files[source].document; var o := v.origin;
      && w.files[v.proposalPath] == t.files[v.proposalPath]
      && w.files[o.candidatePath] == t.files[o.candidatePath] && w.files[o.parentPath] == t.files[o.parentPath]
      && w.files[o.analysisPath] == t.files[o.analysisPath]
      && LoadPolicy(ru, w, REGISTRY, o.parentVersion) == LoadPolicy(ru, t, REGISTRY, o.parentVersion)
      && LoadCandidate(ru, w, o.candidatePath) == LoadCandidate(ru, t, o.candidatePath)
  {
    hide Safe, Changed, Audit, ValidAnalysis, ListsVersions;
  }

  // ---------------------------------------------------------------- each step can be followed by the next

  /** What was just proposed passes verification, so validation cannot get stuck on its own workflow's output. */
  lemma ProposedVerifies(ru: Rules, w: World, q: ProposeRequest)
    requires Proposed(ru, w, q).Some? && ru.utcOk(q.at)
    ensures VerifyProposal(ru, Proposed(ru, w, q).value, ProposalPath(q.proposalId)).Some?
  {
    var t := Proposed(ru, w, q).value;
    var a := LoadAnalysis(ru, w, q.analysisPath).value;
    var parent := LoadPolicy(ru, w, REGISTRY, q.parentVersion).value;
    PublishingIsImmutable(ru, w, ProposeIt(q));
    hide Safe, Changed, Audit, ValidAnalysis, Outcome;
    assert t.files[CandidatePath(q.candidateVersion)] == File(PolicyDoc(Candidate(parent, q)), "", 0);
    assert t.files[ProposalPath(q.proposalId)].document == ProposalDoc(1, "PROPOSED", OriginOf(w, q, a, parent));
    assert LoadPolicy(ru, t, REGISTRY, q.parentVersion) == Some(parent);
    assert LoadPolicy(ru, t, CANDIDATES, q.candidateVersion) == Some(Candidate(parent, q));
    assert LoadAnalysis(ru, t, q.analysisPath) == Some(a);
    assert ListsVersions(ru, t) && !IsPublished(t, q.candidateVersion);
  }

  /** What was just validated verifies. */
  lemma ValidatedVerifies(ru: Rules, w: World, q: ValidateRequest)
    requires Validated(ru, w, q).Some? && ru.utcOk(q.at)
    ensures VerifyValidation(ru, Validated(ru, w, q).value, ValidationPath(q.validationId))
  {
    var t := Validated(ru, w, q).value;
    PublishingIsImmutable(ru, w, ValidateIt(q));
    var o := w.files[q.proposalPath].document.origin;
    VerificationIgnoresAdditions(ru, w, t, q.proposalPath);
    hide VerifyProposal, Outcome;
  }

  /** Verification only reads: files added outside the registry and rows added to the databases do not change it. */
  lemma VerificationIgnoresAdditions(ru: Rules, w: World, t: World, source: Path)
    requires VerifyProposal(ru, w, source).Some?
    requires forall id <- w.observations :: id in t.observations && t.observations[id] == w.observations[id]
    requires forall p <- w.files :: p in t.files && t.files[p] == w.files[p]
    requires forall p <- t.files :: p in w.files || p.root != REGISTRY
    ensures VerifyProposal(ru, t, source) == VerifyProposal(ru, w, source)
  {
    hide Safe, Changed, Audit, ValidAnalysis;
    var o := w.files[source].document.origin;
    assert LoadPolicy(ru, t, REGISTRY, o.parentVersion) == LoadPolicy(ru, w, REGISTRY, o.parentVersion);
    assert LoadCandidate(ru, t, o.candidatePath) == LoadCandidate(ru, w, o.candidatePath);
    assert LoadAnalysis(ru, t, o.analysisPath) == LoadAnalysis(ru, w, o.analysisPath);
    assert ListsVersions(ru, t);
  }

  // ---------------------------------------------------------------- the workflow can be completed

  /** A new experiment is being observed. */
  function Observing(w: World, e: Experiment): World {
    w.(observations := w.observations[e.id := e])
  }

  /** The follow-up of a proposal: a validation, a ready analysis of the candidate's own experiment, a promotion. */
  predicate FollowsUp(ru: Rules, w: World, q: ProposeRequest, v: ValidateRequest, a: Analysis, p: PrepareRequest) {
    && ru.utcOk(q.at) && ru.utcOk(v.at)
    && ru.idOk(v.validationId) && v.proposalPath == ProposalPath(q.proposalId) && ValidationPath(v.validationId) !in w.files
    && ValidAnalysis(ru, a) && a.decision in {PROMOTION_READY, SHADOW_READY_FOR_PAPER} && GatesPass(a.gates)
    && Path(ANALYSES, a.id, "json") !in w.files && a.experiment.id !in w.observations && ru.idOk(a.experiment.id)
    && a.experiment.version == q.candidateVersion
    && ru.idOk(p.promotionId) && ru.idOk(p.newPortfolio) && ru.idOk(p.newExperiment) && p.initialCash > 0.0
    && p.validationPath == ValidationPath(v.validationId) && p.analysisPath == Path(ANALYSES, a.id, "json")
    && PromotionPath(p.promotionId) !in w.files && p.newPortfolio !in w.portfolios && p.newExperiment !in w.observations
    && p.newExperiment != a.experiment.id && forall id <- p.drains :: ru.idOk(id) && id in w.observations
  }

  /** The world before the promotion: proposed, validated, the candidate observed, its analysis published. */
  function BeforePromotion(ru: Rules, w: World, q: ProposeRequest, v: ValidateRequest, a: Analysis): Option<World> {
    match Proposed(ru, w, q)
    case None => None
    case Some(t) =>
      match Validated(ru, t, v)
      case None => None
      case Some(u) => AnalysisPublished(ru, Observing(u, a.experiment), a)
  }

  /** What stays true of the proposal and its validation while files and rows are added. */
  lemma ValidationIgnoresAdditions(ru: Rules, w: World, t: World, source: Path)
    requires VerifyValidation(ru, w, source)
    requires forall id <- w.observations :: id in t.observations && t.observations[id] == w.observations[id]
    requires forall p <- w.files :: p in t.files && t.files[p] == w.files[p]
    requires forall p <- t.files :: p in w.files || p.root != REGISTRY
    ensures VerifyValidation(ru, t, source)
  {
    VerificationIgnoresAdditions(ru, w, t, w.files[source].document.proposalPath);
    hide VerifyProposal;
  }

  lemma ProposedIsValidated(ru: Rules, w: World, q: ProposeRequest, v: ValidateRequest)
    requires Proposed(ru, w, q).Some? && ru.utcOk(q.at) && ru.utcOk(v.at)
    requires ru.idOk(v.validationId) && v.proposalPath == ProposalPath(q.proposalId) && ValidationPath(v.validationId) !in w.files
    ensures var t := Proposed(ru, w, q).value;
      && Validated(ru, t, v).Some? && VerifyValidation(ru, Validated(ru, t, v).value, ValidationPath(v.validationId))
      && Validated(ru, t, v).value.files[ValidationPath(v.validationId)].document.origin
         == t.files[ProposalPath(q.proposalId)].document.origin
  {
    hide Proposed, VerifyProposal, VerifyValidation;
    var t := Proposed(ru, w, q).value;
    ProposedVerifies(ru, w, q);
    Unwritten(ru, w, ProposeIt(q), t);
    assert ValidationPath(v.validationId) !in t.files;
    VerifiedIsValidated(ru, t, v);
    ValidatedVerifies(ru, t, v);
  }

  lemma VerifiedIsValidated(ru: Rules, w: World, v: ValidateRequest)
    requires ru.idOk(v.validationId) && v.proposalPath.root == PROPOSALS && VerifyProposal(ru, w, v.proposalPath).Some?
    requires ValidationPath(v.validationId) !in w.files
    ensures Validated(ru, w, v).Some? && ValidationPath(v.validationId) in Validated(ru, w, v).value.files
    ensures w.files[v.proposalPath].document.ProposalDoc?
    ensures Validated(ru, w, v).value.files[ValidationPath(v.validationId)].document.ValidationDoc?
    ensures Validated(ru, w, v).value.files[ValidationPath(v.validationId)].document.origin
            == w.files[v.proposalPath].document.origin
  {
    hide OriginHolds;
  }

  lemma ProposedOrigin(ru: Rules, w: World, q: ProposeRequest)
    requires Proposed(ru, w, q).Some? && ru.utcOk(q.at)
    ensures var t := Proposed(ru, w, q).value;
      && LoadPolicy(ru, w, REGISTRY, q.parentVersion).Some? && ProposalPath(q.proposalId) in t.files
      && t.files[ProposalPath(q.proposalId)].document.ProposalDoc?
      && var o := t.files[ProposalPath(q.proposalId)].document.origin;
         && o.candidatePath == CandidatePath(q.candidateVersion) && o.candidateVersion == q.candidateVersion
         && o.candidateConfigHash == OfPolicy(Candidate(LoadPolicy(ru, w, REGISTRY, q.parentVersion).value, q))
  {
    ProposedVerifies(ru, w, q);
    hide Safe, Changed, Audit, ValidAnalysis, ListsVersions;
  }

  /** The checks of a promotion, given a validation that verifies and a ready analysis of its candidate. */
  lemma ReadyCandidateIsPrepared(ru: Rules, w: World, p: PrepareRequest, a: Analysis)
    requires p.validationPath.root == VALIDATIONS && VerifyValidation(ru, w, p.validationPath)
    requires LoadAnalysis(ru, w, p.analysisPath) == Some(a) && Observed(w, a.experiment)
    requires a.decision in {PROMOTION_READY, SHADOW_READY_FOR_PAPER} && GatesPass(a.gates)
    requires var o := w.files[p.validationPath].document.origin;
      a.experiment.version == o.candidateVersion && a.experiment.configHash == o.candidateConfigHash
    requires ru.idOk(p.promotionId) && ru.idOk(p.newPortfolio) && ru.idOk(p.newExperiment) && p.initialCash > 0.0
    requires ru.idOk(a.experiment.id) && forall id <- p.drains :: ru.idOk(id) && id in w.observations
    requires p.newPortfolio !in w.portfolios && p.newExperiment !in w.observations && PromotionPath(p.promotionId) !in w.files
    ensures Prepared(ru, w, p).Some?
  {
    var o := w.files[p.validationPath].document.origin;
    assert OriginHolds(ru, w, o);
    OriginCandidate(ru, w, o);
    assert a.experiment.id in w.observations;
    assert p.newExperiment !in p.drains + [a.experiment.id];
    DrainedMembers([], p.drains + [a.experiment.id]);
    assert LoadCandidate(ru, w, o.candidatePath).value.version == o.candidateVersion;
    hide OriginHolds, VerifyValidation, GatesPass, LoadCandidate, LoadAnalysis, Drained;
    assert MayPrepare(ru, w, p);
    var m := ManifestOf(w, p, a);
    assert MayActivate(w, m);
  }

  /** The workflow never gets stuck on its own output: every accepted proposal can be followed up to a promotion. */
  lemma EveryProposalCanBePromoted(ru: Rules, w: World, q: ProposeRequest, v: ValidateRequest, a: Analysis, p: PrepareRequest)
    requires Proposed(ru, w, q).Some? && FollowsUp(ru, w, q, v, a, p)
    requires LoadPolicy(ru, w, REGISTRY, q.parentVersion).Some? ==>
      a.experiment.configHash == OfPolicy(Candidate(LoadPolicy(ru, w, REGISTRY, q.parentVersion).value, q))
    ensures var x := BeforePromotion(ru, w, q, v, a);
      x.Some? && PromotionPath(p.promotionId) !in x.value.files && Prepared(ru, x.value, p).Some?
  {
    hide Proposed, Validated, Prepared, VerifyValidation, ValidAnalysis, GatesPass;
    var t := Proposed(ru, w, q).value;
    ProposedOrigin(ru, w, q);
    ProposedIsValidated(ru, w, q, v);
    var u := Validated(ru, t, v).value;
    Unwritten(ru, w, ProposeIt(q), t);
    Unwritten(ru, t, ValidateIt(v), u);
    var y := Observing(u, a.experiment);
    var x := AnalysisPublished(ru, y, a).value;
    ValidationIgnoresAdditions(ru, u, x, ValidationPath(v.validationId));
    assert LoadAnalysis(ru, x, p.analysisPath) == Some(a);
    ReadyCandidateIsPrepared(ru, x, p, a);
  }

  /** What a successful call leaves unwritten and unchanged. */
  lemma Unwritten(ru: Rules, w: World, r: Request, t: World)
    requires Outcome(ru, w, r) == Some(t)
    ensures t.observations == w.observations && t.portfolios == w.portfolios
    ensures forall p <- w.files :: p in t.files && t.files[p] == w.files[p]
    ensures forall p <- t.files :: p in w.files || p in Targets(r)
  {
    PublishingIsImmutable(ru, w, r);
  }

  function ParentExample(): (p: Policy)
    ensures p.version == "v1"
  {
    Policy("v1", map["maximum_positions" := Number(3.0), "invested_fraction" := Number(0.9), "maximum_asset_weight" := Number(0.4),
                     "maximum_daily_turnover_fraction" := Number(6.0), "maximum_daily_fee_fraction" := Number(0.005),
                     "maximum_daily_realized_loss_fraction" := Number(0.02), "bullish_daily_turnover_fraction" := Null,
                     "turnover_sell_weight" := Number(0.5)])
  }

  function AnalysisExample(id: string, decision: Decision, e: Experiment): Analysis {
    Analysis(1, id, decision, Some("cutoff"), true, "gates", e, map["net" := Gate(Some(true), true, "")], None, None, None)
  }

  function WorldExample(): World {
    var e := Experiment("e1", "p1", "v1", OfPolicy(ParentExample()));
    World(map[Path(REGISTRY, "v1", "toml") := File(PolicyDoc(ParentExample()), "", 0),
              Path(ANALYSES, "a1", "json") := File(AnalysisDoc(AnalysisExample("a1", REJECTED, e)), "", 0)],
          map["e1" := e], {"p1"})
  }

  function ProposalExample(): ProposeRequest {
    ProposeRequest("q1", Path(ANALYSES, "a1", "json"), "v1", "v2", map["maximum_positions" := Number(2.0)], "")
  }

  ghost predicate Permissive(ru: Rules) {
    && (forall text :: ru.idOk(text) && ru.versionOk(text) && ru.utcOk(text))
    && (forall policy :: ru.policyOk(policy)) && ru.patchable == {"maximum_positions"}
  }

  lemma ExampleIsSafe()
    ensures Changed(ParentExample(), Candidate(ParentExample(), ProposalExample())) == {"maximum_positions"}
    ensures Safe(Candidate(ParentExample(), ProposalExample())) && "maximum_positions" in ParentExample().values
  {
  }

  lemma ExampleLoads(ru: Rules)
    requires Permissive(ru)
    ensures LoadPolicy(ru, WorldExample(), REGISTRY, "v1") == Some(ParentExample())
    ensures var a := LoadAnalysis(ru, WorldExample(), Path(ANALYSES, "a1", "json"));
      a.Some? && a.value.decision == REJECTED && Observed(WorldExample(), a.value.experiment)
      && a.value.experiment == Experiment("e1", "p1", "v1", OfPolicy(ParentExample()))
  {
    hide ParentExample;
  }

  lemma ExampleIsNew(ru: Rules)
    requires Permissive(ru)
    ensures ListsVersions(ru, WorldExample()) && WorldExample().observations.Keys == {"e1"} && WorldExample().portfolios == {"p1"}
    ensures forall p <- WorldExample().files :: p in {Path(REGISTRY, "v1", "toml"), Path(ANALYSES, "a1", "json")}
  {
    hide ParentExample;
  }

  lemma ExampleIsProposed(ru: Rules)
    requires Permissive(ru)
    ensures Proposed(ru, WorldExample(), ProposalExample()).Some?
  {
    hide ParentExample, WorldExample, Safe, Changed, LoadPolicy, LoadAnalysis, Observed, ListsVersions, Candidate, OriginOf;
    ExampleIsSafe();
    ExampleLoads(ru);
    ExampleIsNew(ru);
    var q, parent := ProposalExample(), ParentExample();
    assert CandidatePath(q.candidateVersion) !in WorldExample().files && !IsPublished(WorldExample(), q.candidateVersion);
    assert "maximum_positions" in q.patch.Keys && Changed(parent, Candidate(parent, q)) == q.patch.Keys;
    assert MayPropose(ru, WorldExample(), ProposalExample());
  }

  lemma AnalysisIsReady(ru: Rules, e: Experiment)
    requires Permissive(ru) && e.id != "" && e.portfolio != "" && e.version != ""
    ensures var a := AnalysisExample("a2", PROMOTION_READY, e);
      ValidAnalysis(ru, a) && GatesPass(a.gates) && a.experiment == e && a.id == "a2" && a.decision == PROMOTION_READY
  {
    var a := AnalysisExample("a2", PROMOTION_READY, e);
    assert "net" in a.gates && a.gates["net"].required;
  }

  /** The conditions of the whole way can be met: in a small world a proposal is promoted. */
  lemma PromotionExample(ru: Rules) returns (w: World, p: PrepareRequest)
    requires Permissive(ru)
    ensures Prepared(ru, w, p).Some? && PromotionPath(p.promotionId) !in w.files
  {
    hide ParentExample, WorldExample, Safe, Changed, LoadPolicy, LoadAnalysis, Candidate, AnalysisExample, ValidAnalysis,
         GatesPass, Proposed, BeforePromotion, Prepared;
    var first, q := WorldExample(), ProposalExample();
    var e := Experiment("e2", "p2", "v2", OfPolicy(Candidate(ParentExample(), q)));
    var v := ValidateRequest("v1", ProposalPath("q1"), "");
    var a := AnalysisExample("a2", PROMOTION_READY, e);
    p := PrepareRequest("m1", ValidationPath("v1"), Path(ANALYSES, "a2", "json"), "p3", "e3", 1.0, true, [], "");
    ExampleIsProposed(ru);
    ExampleLoads(ru);
    ExampleIsNew(ru);
    AnalysisIsReady(ru, e);
    EveryProposalCanBePromoted(ru, first, q, v, a, p);
    w := BeforePromotion(ru, first, q, v, a).value;
  }

  lemma PermissiveRules()
    ensures Permissive(Rules(_ => true, _ => true, _ => true, _ => true, {"maximum_positions"}))
  {
  }

  // ---------------------------------------------------------------- retries

  /** Repeating a successful call, at any later time stamp, succeeds and writes nothing. */
  lemma RetriesAreNoOps(ru: Rules, w: World, r: Request, again: Request)
    requires Outcome(ru, w, r).Some? && SameRequest(r, again)
    requires r.ProposeIt? ==> ru.utcOk(r.propose.at)
    requires r.ValidateIt? ==> ru.utcOk(r.validate.at)
    requires r.PrepareIt? ==> ru.utcOk(r.prepare.at)
    ensures var t := Outcome(ru, w, r).value; Outcome(ru, t, again) == Some(t)
  {
    match r {
      case PublishIt(a) => hide ValidAnalysis;
      case ProposeIt(q) => ProposeRetry(ru, w, q, again.propose);
      case ValidateIt(q) => ValidateRetry(ru, w, q, again.validate);
      case PrepareIt(q) =>
        var t := Prepared(ru, w, q).value;
        PublishingIsImmutable(ru, w, r);
        PrepareRetry(ru, w, q, t, again.prepare);
    }
  }

  /** The same request up to its time stamp. */
  predicate SameRequest(a: Request, b: Request) {
    match a
    case PublishIt(_) => b == a
    case ProposeIt(q) => b.ProposeIt? && b.propose == q.(at := b.propose.at)
    case ValidateIt(q) => b.ValidateIt? && b.validate == q.(at := b.validate.at)
    case PrepareIt(q) => b.PrepareIt? && b.prepare == q.(at := b.prepare.at)
  }

  lemma ProposeRetry(ru: Rules, w: World, q: ProposeRequest, again: ProposeRequest)
    requires Proposed(ru, w, q).Some? && again == q.(at := again.at) && ru.utcOk(q.at)
    ensures Proposed(ru, Proposed(ru, w, q).value, again) == Some(Proposed(ru, w, q).value)
  {
    var t := Proposed(ru, w, q).value;
    PublishingIsImmutable(ru, w, ProposeIt(q));
    hide Safe, Changed, Audit, ValidAnalysis, Outcome;
    var a := LoadAnalysis(ru, w, q.analysisPath).value;
    var parent := LoadPolicy(ru, w, REGISTRY, q.parentVersion).value;
    assert LoadPolicy(ru, t, REGISTRY, q.parentVersion) == Some(parent);
    assert LoadAnalysis(ru, t, q.analysisPath) == Some(a);
    assert Candidate(parent, again) == Candidate(parent, q) && MayPropose(ru, t, again);
    assert OriginOf(t, again, a, parent) == OriginOf(w, q, a, parent);
    var path := CandidatePath(q.candidateVersion);
    assert t.files[path := File(PolicyDoc(Candidate(parent, q)), "", 0)] == t.files;
    assert t.(files := t.files) == t;
  }

  lemma ValidateRetry(ru: Rules, w: World, q: ValidateRequest, again: ValidateRequest)
    requires Validated(ru, w, q).Some? && again == q.(at := again.at) && ru.utcOk(q.at)
    ensures Validated(ru, Validated(ru, w, q).value, again) == Some(Validated(ru, w, q).value)
  {
    var t := Validated(ru, w, q).value;
    PublishingIsImmutable(ru, w, ValidateIt(q));
    VerificationIgnoresAdditions(ru, w, t, q.proposalPath);
    assert w.files[q.proposalPath] == t.files[q.proposalPath];
    hide VerifyProposal, Outcome;
  }

  /**
   * A retry of a published promotion succeeds unchanged even after the promotion was activated, that is with more
   * portfolios and experiments in the databases.
   */
  lemma PrepareRetry(ru: Rules, w: World, q: PrepareRequest, t: World, again: PrepareRequest)
    requires Prepared(ru, w, q).Some? && again == q.(at := again.at) && ru.utcOk(q.at)
    requires t.files == Prepared(ru, w, q).value.files
    requires forall id <- w.observations :: id in t.observations && t.observations[id] == w.observations[id]
    ensures Prepared(ru, t, again) == Some(t)
  {
    hide ValidAnalysis, GatesPass, VerifyProposal, Safe, Changed, Drained;
    MayPrepareLoads(ru, w, q);
    var a := LoadAnalysis(ru, w, q.analysisPath).value;
    var m := ManifestOf(w, q, a);
    PublishingIsImmutable(ru, w, PrepareIt(q));
    PublishedAgrees(ru, w, PromotionPath(q.promotionId), PromotionDoc(m), q.at);
    hide MayPrepare, Outcome, ManifestOf, Published, Agrees, LoadAnalysis, MayActivate;
    StillMayPrepare(ru, w, q, t, again);
    ManifestIsSame(w, t, q, again, a);
    AgreesIsPublished(ru, t, PromotionPath(q.promotionId), PromotionDoc(m), again.at);
  }

  lemma PublishedAgrees(ru: Rules, w: World, path: Path, d: Document, at: string)
    requires Published(ru, w, path, d, at).Some? && HasTime(d) && ru.utcOk(at)
    ensures var t := Published(ru, w, path, d, at).value; path in t.files && Agrees(ru, t.files[path], d)
  {
  }

  lemma AgreesIsPublished(ru: Rules, t: World, path: Path, d: Document, at: string)
    requires path in t.files && Agrees(ru, t.files[path], d)
    ensures Published(ru, t, path, d, at) == Some(t)
  {
  }

  lemma ManifestIsSame(w: World, t: World, q: PrepareRequest, again: PrepareRequest, a: Analysis)
    requires q.validationPath in w.files && w.files[q.validationPath].document.ValidationDoc? && q.analysisPath in w.files
    requires again == q.(at := again.at) && forall p <- w.files :: p in t.files && t.files[p] == w.files[p]
    ensures ManifestOf(t, again, a) == ManifestOf(w, q, a)
  {
  }

  lemma MayPrepareLoads(ru: Rules, w: World, q: PrepareRequest)
    requires MayPrepare(ru, w, q)
    ensures LoadAnalysis(ru, w, q.analysisPath).Some? && q.analysisPath in w.files
    ensures q.validationPath in w.files && w.files[q.validationPath].document.ValidationDoc?
  {
    hide VerifyProposal, LoadCandidate, ValidAnalysis;
  }

  /** Every check of a preparation still passes when files and rows were only added. */
  lemma StillMayPrepare(ru: Rules, w: World, q: PrepareRequest, t: World, again: PrepareRequest)
    requires MayPrepare(ru, w, q) && again == q.(at := again.at)
    requires forall id <- w.observations :: id in t.observations && t.observations[id] == w.observations[id]
    requires forall p <- w.files :: p in t.files && t.files[p] == w.files[p]
    requires forall p <- t.files :: p in w.files || p.root == PROMOTIONS
    ensures MayPrepare(ru, t, again) && LoadAnalysis(ru, t, q.analysisPath) == LoadAnalysis(ru, w, q.analysisPath)
  {
    MayPrepareLoads(ru, w, q);
    var v := w.files[q.validationPath].document;
    VerificationIgnoresAdditions(ru, w, t, v.proposalPath);
    hide VerifyProposal, OriginHolds;
    assert LoadAnalysis(ru, t, q.analysisPath) == LoadAnalysis(ru, w, q.analysisPath);
    assert LoadCandidate(ru, t, v.origin.candidatePath) == LoadCandidate(ru, w, v.origin.candidatePath);
    assert VerifyValidation(ru, t, q.validationPath);
    hide VerifyValidation, LoadAnalysis, LoadCandidate, GatesPass;
  }
}
