/** Typed acceptance of src/bureau/acceptance.py: criteria, their contracts, and the verdict on
    evidence at a point in time. */
module Acceptance {
  import opened Prelude
  import opened JsonValues

  datatype Verdict = Passed | Failed | Unknown

  datatype VerifierKind =
    | CodeMerged | RequiredCiGreen | DeploymentComplete | RuntimeCommitContains | LiveProbePassed
    | ManualObservation | DurationSoakCompleted | NoEffectVerified | ArtifactHashMatches

  function VerifierName(v: VerifierKind): string {
    match v
    case CodeMerged => "code_merged"
    case RequiredCiGreen => "required_ci_green"
    case DeploymentComplete => "deployment_complete"
    case RuntimeCommitContains => "runtime_commit_contains"
    case LiveProbePassed => "live_probe_passed"
    case ManualObservation => "manual_observation"
    case DurationSoakCompleted => "duration_soak_completed"
    case NoEffectVerified => "no_effect_verified"
    case ArtifactHashMatches => "artifact_hash_matches"
  }

  const VERIFIERS := [CodeMerged, RequiredCiGreen, DeploymentComplete, RuntimeCommitContains, LiveProbePassed,
                      ManualObservation, DurationSoakCompleted, NoEffectVerified, ArtifactHashMatches]

  function FindVerifier(name: string, vs: seq<VerifierKind>): (r: Option<VerifierKind>)
    ensures r.Some? ==> VerifierName(r.value) == name
  {
    if vs == [] then None else if VerifierName(vs[0]) == name then Some(vs[0]) else FindVerifier(name, vs[1..])
  }

  function Authorities(v: VerifierKind): set<string> {
    match v
    case CodeMerged => {"github"}
    case RequiredCiGreen => {"github"}
    case DeploymentComplete => {"grabowski", "target-runtime"}
    case RuntimeCommitContains => {"grabowski", "target-runtime"}
    case LiveProbePassed => {"grabowski", "target-runtime"}
    case ManualObservation => {"manual"}
    case DurationSoakCompleted => {"grabowski", "target-runtime", "manual"}
    case NoEffectVerified => {"bureau", "grabowski"}
    case ArtifactHashMatches => {"artifact-store", "bureau", "grabowski"}
  }

  function MaxAgeSeconds(v: VerifierKind): int {
    match v
    case CodeMerged => 86_400
    case RequiredCiGreen => 21_600
    case DeploymentComplete => 86_400
    case RuntimeCommitContains => 3_600
    case LiveProbePassed => 900
    case ManualObservation => 86_400
    case DurationSoakCompleted => 86_400
    case NoEffectVerified => 3_600
    case ArtifactHashMatches => 86_400
  }

  function ConfigFields(v: VerifierKind): set<Key> {
    match v
    case CodeMerged => {Repository, PullRequest, HeadSha, BaseRef}
    case RequiredCiGreen => {Repository, PullRequest, HeadSha, BaseRef, RequiredChecks}
    case DeploymentComplete => {DeploymentRevision}
    case RuntimeCommitContains => {Repository, RequiredCommit}
    case LiveProbePassed => {RuntimeRevision, ProbeId}
    case ManualObservation => {ObservationScope}
    case DurationSoakCompleted => {RequiredSeconds, ObservationScope}
    case NoEffectVerified => {ScopeSha256}
    case ArtifactHashMatches => {ArtifactSha256}
  }

  /** The fields a piece of evidence must bind besides the task and plan revision. */
  function RevisionFields(v: VerifierKind): set<Key> {
    match v
    case CodeMerged => {HeadSha, BaseRef, MergeCommitSha}
    case RequiredCiGreen => {HeadSha, BaseRef}
    case DeploymentComplete => {DeploymentRevision}
    case RuntimeCommitContains => {RequiredCommit, ObservedCommit}
    case LiveProbePassed => {RuntimeRevision, ProbeId}
    case ManualObservation => {ObservationScope}
    case DurationSoakCompleted => {ObservationScope}
    case NoEffectVerified => {ScopeSha256}
    case ArtifactHashMatches => {ArtifactSha256}
  }

  /** The bound fields the criterion itself freezes. */
  function TargetFields(v: VerifierKind): set<Key> {
    match v
    case CodeMerged => {HeadSha, BaseRef}
    case RuntimeCommitContains => {RequiredCommit}
    case _ => RevisionFields(v)
  }

  /* ---- criteria ---- */

  const MAX_SOAK_SECONDS := 315_576_000.0

  predicate SoakSeconds(j: Json) {
    (j.Int? || j.Float?) && 0.0 <= Number(j) <= MAX_SOAK_SECONDS
  }

  predicate NameChar(ch: char) {
    'A' <= ch <= 'Z' || 'a' <= ch <= 'z' || '0' <= ch <= '9' || ch == '_' || ch == '.' || ch == '-'
  }

  /** `owner/name`: exactly one slash, with name characters on both sides. */
  predicate RepositoryName(j: Json) {
    && j.Str?
    && exists i :: 0 < i < |j.s| - 1 && j.s[i] == '/' && forall k :: 0 <= k < |j.s| && k != i ==> NameChar(j.s[k])
  }

  predicate PrTarget(c: Json) {
    RepositoryName(Get(c, Repository)) && Get(c, PullRequest).Int? && Get(c, PullRequest).i >= 1
    && Sha(Get(c, HeadSha)) && NonBlank(Get(c, BaseRef))
  }

  predicate CheckNames(j: Json) {
    && j.List? && j.items != []
    && (forall i :: 0 <= i < |j.items| ==> NonBlank(j.items[i]))
    && (forall i, k :: 0 <= i < k < |j.items| ==> j.items[i] != j.items[k])
  }

  predicate ConfigValid(v: VerifierKind, c: Json) {
    match v
    case CodeMerged => PrTarget(c)
    case RequiredCiGreen => PrTarget(c) && CheckNames(Get(c, RequiredChecks))
    case DeploymentComplete => NonBlank(Get(c, DeploymentRevision))
    case RuntimeCommitContains => RepositoryName(Get(c, Repository)) && Sha(Get(c, RequiredCommit))
    case LiveProbePassed => NonBlank(Get(c, RuntimeRevision)) && NonBlank(Get(c, ProbeId))
    case ManualObservation => NonBlank(Get(c, ObservationScope))
    case DurationSoakCompleted => SoakSeconds(Get(c, RequiredSeconds)) && NonBlank(Get(c, ObservationScope))
    case NoEffectVerified => Sha256Json(Get(c, ScopeSha256))
    case ArtifactHashMatches => Sha256Json(Get(c, ArtifactSha256))
  }

  datatype Contract = Contract(verifier: VerifierKind, config: Json)

  /** `criterion_contract`: the executable contract of a criterion, if it has one. */
  function ContractOf(c: Json): (r: Option<Contract>)
    ensures r.Some? ==> ConfigValid(r.value.verifier, r.value.config)
  {
    if !Get(c, Verifier).Str? || Get(c, EvidenceType) != Str("object") then None
    else match FindVerifier(Get(c, Verifier).s, VERIFIERS)
         case None => None
         case Some(v) =>
           var config := Get(c, VerifierConfig);
           if config.Obj? && config.fields.Keys == ConfigFields(v) && ConfigValid(v, config)
           then Some(Contract(v, config)) else None
  }

  /* ---- facts ---- */

  predicate PassState(s: string) { s == "success" || s == "passed" || s == "neutral" || s == "skipped" }

  predicate FailState(s: string) {
    s == "failure" || s == "failed" || s == "error" || s == "cancelled" || s == "timed_out"
  }

  predicate CheckRow(j: Json) { Text(Get(j, Name)) && Get(j, State).Str? }

  function RowName(j: Json): string
    requires CheckRow(j)
  { Get(j, Name).s }

  function RowState(j: Json): string
    requires CheckRow(j)
  { Lower(Get(j, State).s) }

  /** The state of each reported check; nothing if a row is malformed or two rows disagree. */
  function ReadChecks(rows: seq<Json>): Option<map<string, string>> {
    if rows == [] then Some(map[])
    else var n := |rows| - 1;
         match ReadChecks(rows[..n])
         case None => None
         case Some(m) =>
           if !CheckRow(rows[n]) || (RowName(rows[n]) in m && m[RowName(rows[n])] != RowState(rows[n])) then None
           else Some(m[RowName(rows[n]) := RowState(rows[n])])
  }

  function CiVerdict(required: seq<Json>, rows: seq<Json>): Verdict
    requires forall i :: 0 <= i < |required| ==> required[i].Str?
  {
    match ReadChecks(rows)
    case None => Unknown
    case Some(m) =>
      if exists i :: 0 <= i < |required| && required[i].s !in m then Unknown
      else if exists i :: 0 <= i < |required| && FailState(m[required[i].s]) then Failed
      else if exists i :: 0 <= i < |required| && !PassState(m[required[i].s]) then Unknown
      else Passed
  }

  predicate SameNumber(a: Json, b: Json)
    requires b.Int? || b.Float?
  {
    || ((a.Int? || a.Float?) && Number(a) == Number(b))
    || (a == Bool(true) && Number(b) == 1.0) || (a == Bool(false) && Number(b) == 0.0)
  }

  /** `_fact_state`. */
  function FactVerdict(v: VerifierKind, facts: Json, config: Json): Verdict
    requires ConfigValid(v, config)
  {
    match v
    case CodeMerged =>
      if Get(facts, MergedFlag) == Bool(true) && Sha(Get(facts, HeadSha)) && Sha(Get(facts, MergeCommitSha)) then Passed
      else if Get(facts, MergedFlag) == Bool(false) && Sha(Get(facts, HeadSha)) && Get(facts, MergeCommitSha) == Null then Failed
      else Unknown
    case RequiredCiGreen =>
      var required := Get(config, RequiredChecks);
      if Get(facts, Complete) != Bool(true) then Unknown
      else if Get(facts, RequiredChecks) != Null && Get(facts, RequiredChecks) != required then Unknown
      else if !Get(facts, Checks).List? || Get(facts, Checks).items == [] then Unknown
      else CiVerdict(required.items, Get(facts, Checks).items)
    case DeploymentComplete =>
      if Get(facts, FailedFlag) == Bool(true) then Failed
      else if Get(facts, Completed) == Bool(true) && Sha256Json(Get(facts, ReceiptSha256)) then Passed
      else Unknown
    case RuntimeCommitContains =>
      if Get(facts, ContainsRequiredCommit) == Bool(true) then Passed
      else if Get(facts, ContainsRequiredCommit) == Bool(false) then Failed
      else Unknown
    case LiveProbePassed =>
      if !Get(facts, ResultText).Str? then Unknown
      else var s := Lower(Get(facts, ResultText).s);
           if s == "pass" || s == "passed" || s == "success" then Passed
           else if s == "fail" || s == "failed" || s == "failure" || s == "error" then Failed
           else Unknown
    case ManualObservation =>
      if !Text(Get(facts, Observer)) || !Text(Get(facts, Observation)) then Unknown
      else if Get(facts, Accepted) == Bool(true) then Passed
      else if Get(facts, Accepted) == Bool(false) then Failed
      else Unknown
    case DurationSoakCompleted =>
      var required, observed := Get(config, RequiredSeconds), Get(facts, ObservedSeconds);
      if Get(facts, RequiredSeconds) != Null && !SameNumber(Get(facts, RequiredSeconds), required) then Unknown
      else if !SoakSeconds(observed) then Unknown
      else if Get(facts, FailedFlag) == Bool(true) then Failed
      else if Get(facts, Completed) != Bool(true) then Unknown
      else if Number(observed) < Number(required) then Failed
      else Passed
    case NoEffectVerified =>
      var count := Get(facts, EffectCount);
      if !count.Int? || count.i < 0 then Unknown else if count.i == 0 then Passed else Failed
    case ArtifactHashMatches =>
      var expected, observed := Get(facts, ExpectedSha256), Get(facts, ObservedSha256);
      if !Sha256Json(expected) || !Sha256Json(observed) then Unknown
      else if expected == observed then Passed else Failed
  }

  /* ---- one criterion ---- */

  /** What an evaluation reads besides criteria and evidence. Times are microseconds. */
  datatype Setting = Setting(taskSha: string, planSha: Option<string>, now: int, parse: string -> Option<int>)

  function ParseTime(j: Json, s: Setting): Option<int> {
    if Text(j) then s.parse(j.s) else None
  }

  /** The evidence names this criterion, its verifier and a permitted authority. */
  predicate Addressed(c: Json, v: VerifierKind, e: Json) {
    var source := Get(e, Source);
    && e.Obj? && IsOne(Get(e, SchemaVersion)) && Get(e, KindKey) == Str("bureau.acceptance_evidence")
    && Get(e, CriterionId) == Get(c, Id) && Get(e, EvidenceType) == Str(VerifierName(v))
    && Get(source, Authority).Str? && Get(source, Authority).s in Authorities(v)
    && NonBlank(Get(source, Reference))
  }

  predicate Timely(v: VerifierKind, e: Json, s: Setting) {
    var at, limit := ParseTime(Get(e, ObservedAt), s), Get(Get(e, Validity), NotAfter);
    && at.Some? && at.value <= s.now && s.now - at.value <= MaxAgeSeconds(v) * 1_000_000
    && (limit != Null ==> ParseTime(limit, s).Some? && s.now <= ParseTime(limit, s).value)
  }

  predicate RevisionField(v: VerifierKind, k: Key, value: Json) {
    || (v.CodeMerged? && k.MergeCommitSha? && value == Null)
    || (&& Text(value)
        && (k.ScopeSha256? || k.ArtifactSha256? ==> Sha256Json(value))
        && (k.HeadSha? || k.MergeCommitSha? || k.RequiredCommit? || k.ObservedCommit? ==> Sha(value)))
  }

  /** `_revision_valid`: the evidence binds the task, the plan if there is one, and the target
      the criterion froze. */
  predicate RevisionValid(k: Contract, e: Json, s: Setting) {
    var revision := Get(e, Revision);
    && revision.Obj?
    && Get(revision, TaskSha256) == Str(s.taskSha) && Sha256Text(s.taskSha)
    && (s.planSha.Some? ==> Get(revision, PlanSha256) == Str(s.planSha.value) && Sha256Text(s.planSha.value))
    && (forall f :: f in RevisionFields(k.verifier) ==> RevisionField(k.verifier, f, Get(revision, f)))
    && (forall f :: f in TargetFields(k.verifier) ==> Get(revision, f) == Get(k.config, f))
  }

  /** `_facts_match_revision`: the facts repeat what the revision binds. */
  predicate FactsMatch(v: VerifierKind, revision: Json, facts: Json) {
    if v.ArtifactHashMatches? then Get(facts, ExpectedSha256) == Get(revision, ArtifactSha256)
    else forall f :: f in RevisionFields(v) ==> Get(facts, f) == Get(revision, f)
  }

  predicate StatusAgrees(status: Json, derived: Verdict) {
    status == Null
    || status == Str(match derived case Passed => "passed" case Failed => "failed" case Unknown => "unknown")
  }

  /** Everything but authentication that a verdict needs. */
  predicate Conclusive(c: Json, k: Contract, e: Json, s: Setting)
    requires ConfigValid(k.verifier, k.config)
  {
    && Addressed(c, k.verifier, e) && Timely(k.verifier, e, s) && RevisionValid(k, e, s)
    && Get(e, Facts).Obj? && FactsMatch(k.verifier, Get(e, Revision), Get(e, Facts))
    && StatusAgrees(Get(e, Status), FactVerdict(k.verifier, Get(e, Facts), k.config))
  }

  /** `evaluate_criterion`. */
  function EvaluateCriterion(c: Json, e: Json, s: Setting, authenticated: bool): Verdict {
    if !Text(Get(c, Id)) || ContractOf(c).None? then Unknown
    else var k := ContractOf(c).value;
         if authenticated && Conclusive(c, k, e, s) then FactVerdict(k.verifier, Get(e, Facts), k.config)
         else Unknown
  }

  /* ---- agreement between criteria ---- */

  type PrId = (Json, Json)

  /** The pull request within which head commits must agree. */
  function Scope(k: Contract): Option<PrId> {
    if k.verifier.CodeMerged? || k.verifier.RequiredCiGreen?
    then Some((Get(k.config, Repository), Get(k.config, PullRequest))) else None
  }

  type Heads = map<PrId, map<Json, Json>>

  /** Adds the head commit a passed criterion's evidence is bound to. */
  function NoteHead(heads: Heads, c: Json, evidence: map<string, Json>, passed: set<Json>): Heads {
    if !Text(Get(c, Id)) || Get(c, Id) !in passed || ContractOf(c).None? then heads
    else var e := Evidence(c, evidence);
         var scope, head := Scope(ContractOf(c).value), Get(Get(e, Revision), HeadSha);
         if scope.None? || !Get(e, Revision).Obj? || !Text(head) then heads
         else heads[scope.value := (if scope.value in heads then heads[scope.value] else map[])[Get(c, Id) := head]]
  }

  function HeadsOf(cs: seq<Json>, evidence: map<string, Json>, passed: set<Json>): Heads {
    if cs == [] then map[]
    else NoteHead(HeadsOf(cs[..|cs| - 1], evidence, passed), cs[|cs| - 1], evidence, passed)
  }

  predicate Conflicts(heads: Heads) {
    exists p, a, b :: p in heads && a in heads[p] && b in heads[p] && heads[p][a] != heads[p][b]
  }

  /* ---- all criteria ---- */

  function Evidence(c: Json, evidence: map<string, Json>): Json {
    if Get(c, Id).Str? && Get(c, Id).s in evidence then evidence[Get(c, Id).s] else Null
  }

  predicate Authenticated(c: Json, auth: set<string>) { Get(c, Id).Str? && Get(c, Id).s in auth }

  function VerdictOf(c: Json, evidence: map<string, Json>, s: Setting, auth: set<string>): Verdict {
    EvaluateCriterion(c, Evidence(c, evidence), s, Authenticated(c, auth))
  }

  function Results(cs: seq<Json>, evidence: map<string, Json>, s: Setting, auth: set<string>): seq<Verdict> {
    seq(|cs|, i requires 0 <= i < |cs| => VerdictOf(cs[i], evidence, s, auth))
  }

  function PassedIds(cs: seq<Json>, results: seq<Verdict>): set<Json>
    requires |results| == |cs|
  {
    set i | 0 <= i < |cs| && results[i].Passed? :: Get(cs[i], Id)
  }

  function Summary(results: seq<Verdict>, conflict: bool): Verdict {
    if Failed in results then Failed
    else if results == [] || Unknown in results || conflict then Unknown
    else Passed
  }

  /** `evaluate_acceptance`. */
  function Evaluate(cs: seq<Json>, evidence: map<string, Json>, s: Setting, auth: set<string>): Verdict {
    var results := Results(cs, evidence, s, auth);
    Summary(results, Conflicts(HeadsOf(cs, evidence, PassedIds(cs, results))))
  }
}
