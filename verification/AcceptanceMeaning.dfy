/** What a verdict of src/bureau/acceptance.py says about its evidence, verifier by verifier: who
    observed it and when, which target it is bound to, and which facts make it pass or fail. */
module AcceptanceMeaning {
  import opened Prelude
  import opened JsonValues
  import opened Acceptance
  import opened AcceptanceLaws

  /* ---- contracts ---- */

  const NAMES := [("code_merged", CodeMerged), ("required_ci_green", RequiredCiGreen), ("deployment_complete", DeploymentComplete),
                  ("runtime_commit_contains", RuntimeCommitContains), ("live_probe_passed", LiveProbePassed),
                  ("manual_observation", ManualObservation), ("duration_soak_completed", DurationSoakCompleted),
                  ("no_effect_verified", NoEffectVerified), ("artifact_hash_matches", ArtifactHashMatches)]

  /** An open pull request at a commit, named exactly. */
  predicate PullRequestAt(config: Json) {
    && RepositoryName(Get(config, Repository)) && Sha(Get(config, HeadSha)) && NonBlank(Get(config, BaseRef))
    && Get(config, PullRequest).Int? && Get(config, PullRequest).i > 0
  }

  /** What a criterion of this kind has to freeze, and nothing else. */
  predicate Freezes(v: VerifierKind, config: Json) {
    config.Obj?
    && match v
       case CodeMerged => config.fields.Keys == {Repository, PullRequest, HeadSha, BaseRef} && PullRequestAt(config)
       case RequiredCiGreen =>
         && config.fields.Keys == {Repository, PullRequest, HeadSha, BaseRef, RequiredChecks} && PullRequestAt(config)
         && CheckNames(Get(config, RequiredChecks))
       case DeploymentComplete => config.fields.Keys == {DeploymentRevision} && NonBlank(Get(config, DeploymentRevision))
       case RuntimeCommitContains =>
         config.fields.Keys == {Repository, RequiredCommit} && RepositoryName(Get(config, Repository)) && Sha(Get(config, RequiredCommit))
       case LiveProbePassed => config.fields.Keys == {RuntimeRevision, ProbeId} && NonBlank(Get(config, RuntimeRevision)) && NonBlank(Get(config, ProbeId))
       case ManualObservation => config.fields.Keys == {ObservationScope} && NonBlank(Get(config, ObservationScope))
       case DurationSoakCompleted =>
         config.fields.Keys == {RequiredSeconds, ObservationScope} && SoakSeconds(Get(config, RequiredSeconds)) && NonBlank(Get(config, ObservationScope))
       case NoEffectVerified => config.fields.Keys == {ScopeSha256} && Sha256Json(Get(config, ScopeSha256))
       case ArtifactHashMatches => config.fields.Keys == {ArtifactSha256} && Sha256Json(Get(config, ArtifactSha256))
  }

  lemma NamedIff(name: string, v: VerifierKind)
    ensures FindVerifier(name, VERIFIERS) == Some(v) <==> (name, v) in NAMES
  {
    VerifierFound(v);
    var p := PlaceOf(v);
    NameAt(p);
    if (name, v) in NAMES {
      var i :| 0 <= i < |NAMES| && NAMES[i] == (name, v);
      NameAt(i);
    }
  }

  lemma NameAt(i: nat)
    requires i < |NAMES|
    ensures NAMES[i].0 == VerifierName(NAMES[i].1)
  {
  }

  lemma PlaceOf(v: VerifierKind) returns (i: nat)
    ensures i < |NAMES| && NAMES[i].1 == v
  {
    match v
    case CodeMerged => i := 0;
    case RequiredCiGreen => i := 1;
    case DeploymentComplete => i := 2;
    case RuntimeCommitContains => i := 3;
    case LiveProbePassed => i := 4;
    case ManualObservation => i := 5;
    case DurationSoakCompleted => i := 6;
    case NoEffectVerified => i := 7;
    case ArtifactHashMatches => i := 8;
  }

  lemma VerifierFound(v: VerifierKind)
    ensures FindVerifier(VerifierName(v), VERIFIERS) == Some(v)
  {
    FindIn(v, VERIFIERS);
  }

  lemma {:induction false} FindIn(v: VerifierKind, vs: seq<VerifierKind>)
    requires v in vs
    ensures FindVerifier(VerifierName(v), vs) == Some(v)
  {
    if vs[0] != v {
      NamesDiffer(v, vs[0]);
      FindIn(v, vs[1..]);
    }
  }

  lemma NamesDiffer(v: VerifierKind, w: VerifierKind)
    requires v != w
    ensures VerifierName(v) != VerifierName(w)
  {
    var a, b := VerifierName(v), VerifierName(w);
    assert |a| != |b| || a[0] != b[0];
  }

  /** A criterion has an executable contract if and only if it asks for an object, names one of the
      verifiers and freezes exactly what that one needs. */
  lemma ContractIff(c: Json, k: Contract)
    ensures ContractOf(c) == Some(k) <==> (
      && Get(c, EvidenceType) == Str("object") && Get(c, Verifier).Str? && (Get(c, Verifier).s, k.verifier) in NAMES
      && Get(c, VerifierConfig) == k.config && Freezes(k.verifier, k.config))
  {
    if Get(c, Verifier).Str? { NamedIff(Get(c, Verifier).s, k.verifier); }
    FreezesIs(k.verifier, k.config);
    if ContractOf(c).Some? { FreezesIs(ContractOf(c).value.verifier, ContractOf(c).value.config); }
  }

  lemma FreezesIs(v: VerifierKind, config: Json)
    ensures Freezes(v, config) <==> config.Obj? && config.fields.Keys == ConfigFields(v) && ConfigValid(v, config)
  {
  }

  /* ---- facts ---- */

  const YES := Bool(true)
  const NO := Bool(false)

  /** The facts that make a criterion pass. */
  ghost predicate PassFacts(v: VerifierKind, facts: Json, config: Json)
    requires ConfigValid(v, config)
  {
    match v
    case CodeMerged => Get(facts, MergedFlag) == YES && Sha(Get(facts, HeadSha)) && Sha(Get(facts, MergeCommitSha))
    case RequiredCiGreen =>
      && Get(facts, Complete) == YES && Get(facts, RequiredChecks) in {Null, Get(config, RequiredChecks)}
      && Get(facts, Checks).List? && RowsAgree(Get(facts, Checks).items)
      && forall r :: r in Get(config, RequiredChecks).items ==> Green(Get(facts, Checks).items, r.s)
    case DeploymentComplete => Get(facts, Completed) == YES && Get(facts, FailedFlag) != YES && Sha256Json(Get(facts, ReceiptSha256))
    case RuntimeCommitContains => Get(facts, ContainsRequiredCommit) == YES
    case LiveProbePassed => Get(facts, ResultText).Str? && Lower(Get(facts, ResultText).s) in {"pass", "passed", "success"}
    case ManualObservation => Get(facts, Accepted) == YES && Text(Get(facts, Observer)) && Text(Get(facts, Observation))
    case DurationSoakCompleted =>
      && Get(facts, Completed) == YES && Get(facts, FailedFlag) != YES && AsDemanded(facts, config)
      && SoakSeconds(Get(facts, ObservedSeconds)) && Number(Get(facts, ObservedSeconds)) >= Number(Get(config, RequiredSeconds))
    case NoEffectVerified => Get(facts, EffectCount) == Int(0)
    case ArtifactHashMatches => Sha256Json(Get(facts, ExpectedSha256)) && Get(facts, ObservedSha256) == Get(facts, ExpectedSha256)
  }

  /** The facts that make a criterion fail. */
  ghost predicate FailFacts(v: VerifierKind, facts: Json, config: Json)
    requires ConfigValid(v, config)
  {
    match v
    case CodeMerged => Get(facts, MergedFlag) == NO && Sha(Get(facts, HeadSha)) && Get(facts, MergeCommitSha) == Null
    case RequiredCiGreen =>
      && Get(facts, Complete) == YES && Get(facts, RequiredChecks) in {Null, Get(config, RequiredChecks)}
      && Get(facts, Checks).List? && Get(facts, Checks).items != [] && RowsAgree(Get(facts, Checks).items)
      && (forall r :: r in Get(config, RequiredChecks).items ==> Reported(Get(facts, Checks).items, r.s))
      && exists r :: r in Get(config, RequiredChecks).items && Red(Get(facts, Checks).items, r.s)
    case DeploymentComplete => Get(facts, FailedFlag) == YES
    case RuntimeCommitContains => Get(facts, ContainsRequiredCommit) == NO
    case LiveProbePassed => Get(facts, ResultText).Str? && Lower(Get(facts, ResultText).s) in {"fail", "failed", "failure", "error"}
    case ManualObservation => Get(facts, Accepted) == NO && Text(Get(facts, Observer)) && Text(Get(facts, Observation))
    case DurationSoakCompleted =>
      && AsDemanded(facts, config) && SoakSeconds(Get(facts, ObservedSeconds))
      && (|| Get(facts, FailedFlag) == YES
          || (Get(facts, Completed) == YES && Number(Get(facts, ObservedSeconds)) < Number(Get(config, RequiredSeconds))))
    case NoEffectVerified => Get(facts, EffectCount).Int? && Get(facts, EffectCount).i > 0
    case ArtifactHashMatches =>
      Sha256Json(Get(facts, ExpectedSha256)) && Sha256Json(Get(facts, ObservedSha256)) && Get(facts, ObservedSha256) != Get(facts, ExpectedSha256)
  }

  /** The facts repeat the demanded duration, if they name one. */
  predicate AsDemanded(facts: Json, config: Json)
    requires SoakSeconds(Get(config, RequiredSeconds))
  {
    Get(facts, RequiredSeconds) == Null || SameNumber(Get(facts, RequiredSeconds), Get(config, RequiredSeconds))
  }

  /** The check is reported in a failing state. */
  ghost predicate Red(rows: seq<Json>, name: string)
    requires RowsAgree(rows)
  {
    exists i :: 0 <= i < |rows| && RowName(rows[i]) == name
      && RowState(rows[i]) in {"failure", "failed", "error", "cancelled", "timed_out"}
  }

  /** The states that count as passed. */
  lemma GreenStates(rows: seq<Json>, name: string)
    requires RowsAgree(rows)
    ensures Green(rows, name) <==>
      exists i :: 0 <= i < |rows| && RowName(rows[i]) == name && RowState(rows[i]) in {"success", "passed", "neutral", "skipped"}
  {
    if Green(rows, name) { var i :| 0 <= i < |rows| && RowName(rows[i]) == name && PassState(RowState(rows[i])); }
    if i :| 0 <= i < |rows| && RowName(rows[i]) == name && RowState(rows[i]) in {"success", "passed", "neutral", "skipped"} {
      assert PassState(RowState(rows[i]));
    }
  }

  lemma RedInTable(rows: seq<Json>, m: map<string, string>, name: string)
    requires RowsAgree(rows) && TableOf(m, rows)
    ensures Red(rows, name) <==> name in m && FailState(m[name])
    ensures Reported(rows, name) <==> name in m
  {
    if name in m {
      assert Reported(rows, name);
      var i :| 0 <= i < |rows| && RowName(rows[i]) == name;
      assert m[RowName(rows[i])] == RowState(rows[i]);
    }
  }

  /** The CI verdict fails if and only if the rows agree, every required check is reported and one of
      them in a failing state. */
  lemma CiFailsIff(required: seq<Json>, rows: seq<Json>)
    requires forall i :: 0 <= i < |required| ==> required[i].Str?
    ensures CiVerdict(required, rows).Failed? <==> (
      && RowsAgree(rows) && (forall r :: r in required ==> Reported(rows, r.s))
      && exists r :: r in required && Red(rows, r.s))
  {
    ReadChecksMeans(rows);
    if RowsAgree(rows) {
      var m := ReadChecks(rows).value;
      forall i | 0 <= i < |required|
        ensures (Red(rows, required[i].s) <==> required[i].s in m && FailState(m[required[i].s])) && (Reported(rows, required[i].s) <==> required[i].s in m)
      {
        RedInTable(rows, m, required[i].s);
      }
    }
  }

  lemma CiFacts(facts: Json, config: Json)
    requires ConfigValid(RequiredCiGreen, config)
    ensures FactVerdict(RequiredCiGreen, facts, config).Passed? <==> PassFacts(RequiredCiGreen, facts, config)
    ensures FactVerdict(RequiredCiGreen, facts, config).Failed? <==> FailFacts(RequiredCiGreen, facts, config)
  {
    var required := Get(config, RequiredChecks).items;
    if Get(facts, Checks).List? {
      var rows := Get(facts, Checks).items;
      CiPassesIff(required, rows);
      CiFailsIff(required, rows);
      if RowsAgree(rows) && rows == [] { assert required[0] in required && !Green(rows, required[0].s); }
    }
  }

  /** The verdict on the facts, exactly. */
  lemma FactsDecide(v: VerifierKind, facts: Json, config: Json)
    requires ConfigValid(v, config)
    ensures FactVerdict(v, facts, config).Passed? <==> PassFacts(v, facts, config)
    ensures FactVerdict(v, facts, config).Failed? <==> FailFacts(v, facts, config)
  {
    if v.RequiredCiGreen? { CiFacts(facts, config); }
  }

  /* ---- source, time and target ---- */

  const HOUR := 3_600_000_000

  /** Who may observe a criterion of this kind, and how old, in microseconds, the observation may be. */
  predicate Witnessed(v: VerifierKind, authority: string, age: int) {
    match v
    case CodeMerged => authority == "github" && age <= 24 * HOUR
    case RequiredCiGreen => authority == "github" && age <= 6 * HOUR
    case DeploymentComplete => authority in {"grabowski", "target-runtime"} && age <= 24 * HOUR
    case RuntimeCommitContains => authority in {"grabowski", "target-runtime"} && age <= HOUR
    case LiveProbePassed => authority in {"grabowski", "target-runtime"} && age <= HOUR / 4
    case ManualObservation => authority == "manual" && age <= 24 * HOUR
    case DurationSoakCompleted => authority in {"grabowski", "target-runtime", "manual"} && age <= 24 * HOUR
    case NoEffectVerified => authority in {"bureau", "grabowski"} && age <= HOUR
    case ArtifactHashMatches => authority in {"artifact-store", "bureau", "grabowski"} && age <= 24 * HOUR
  }

  /** The value the criterion froze, the one the evidence is bound to and the one its facts report. */
  predicate Same(f: Key, config: Json, revision: Json, facts: Json) { Get(config, f) == Get(revision, f) == Get(facts, f) }

  /** The evidence is about the very target the criterion froze. */
  predicate OnTarget(v: VerifierKind, config: Json, revision: Json, facts: Json) {
    match v
    case CodeMerged =>
      && Same(HeadSha, config, revision, facts) && Same(BaseRef, config, revision, facts)
      && Get(revision, MergeCommitSha) == Get(facts, MergeCommitSha) && (Get(facts, MergeCommitSha) == Null || Sha(Get(facts, MergeCommitSha)))
    case RequiredCiGreen => Same(HeadSha, config, revision, facts) && Same(BaseRef, config, revision, facts)
    case DeploymentComplete => Same(DeploymentRevision, config, revision, facts)
    case RuntimeCommitContains =>
      && Same(RequiredCommit, config, revision, facts)
      && Get(revision, ObservedCommit) == Get(facts, ObservedCommit) && Sha(Get(facts, ObservedCommit))
    case LiveProbePassed => Same(RuntimeRevision, config, revision, facts) && Same(ProbeId, config, revision, facts)
    case ManualObservation => Same(ObservationScope, config, revision, facts)
    case DurationSoakCompleted => Same(ObservationScope, config, revision, facts)
    case NoEffectVerified => Same(ScopeSha256, config, revision, facts)
    case ArtifactHashMatches => Get(config, ArtifactSha256) == Get(revision, ArtifactSha256) == Get(facts, ExpectedSha256)
  }

  /** The revision binds the task and, if there is one, the plan. */
  predicate AtRevision(revision: Json, s: Setting) {
    && Sha256Text(s.taskSha) && Get(revision, TaskSha256) == Str(s.taskSha)
    && (s.planSha.None? || (Sha256Text(s.planSha.value) && Get(revision, PlanSha256) == Str(s.planSha.value)))
  }

  /** The evidence names the criterion and its verifier and a permitted source, is neither from the
      future nor too old nor expired, and is bound to the task, the plan and the frozen target. */
  predicate Relevant(c: Json, k: Contract, e: Json, s: Setting) {
    var source, revision, facts := Get(e, Source), Get(e, Revision), Get(e, Facts);
    var at, until := ParseTime(Get(e, ObservedAt), s), Get(Get(e, Validity), NotAfter);
    && e.Obj? && revision.Obj? && facts.Obj?
    && IsOne(Get(e, SchemaVersion)) && Get(e, KindKey) == Str("bureau.acceptance_evidence")
    && Get(e, CriterionId) == Get(c, Id) && Get(e, EvidenceType) == Get(c, Verifier)
    && Get(source, Authority).Str? && NonBlank(Get(source, Reference))
    && at.Some? && at.value <= s.now && Witnessed(k.verifier, Get(source, Authority).s, s.now - at.value)
    && (until == Null || (ParseTime(until, s).Some? && s.now <= ParseTime(until, s).value))
    && AtRevision(revision, s) && OnTarget(k.verifier, k.config, revision, facts)
  }

  lemma AddressedIs(c: Json, k: Contract, e: Json, s: Setting)
    requires ContractOf(c) == Some(k)
    ensures Addressed(c, k.verifier, e) && Timely(k.verifier, e, s) <==> (
      var source, at, until := Get(e, Source), ParseTime(Get(e, ObservedAt), s), Get(Get(e, Validity), NotAfter);
      && e.Obj? && IsOne(Get(e, SchemaVersion)) && Get(e, KindKey) == Str("bureau.acceptance_evidence")
      && Get(e, CriterionId) == Get(c, Id) && Get(e, EvidenceType) == Get(c, Verifier)
      && Get(source, Authority).Str? && NonBlank(Get(source, Reference))
      && at.Some? && at.value <= s.now && Witnessed(k.verifier, Get(source, Authority).s, s.now - at.value)
      && (until == Null || (ParseTime(until, s).Some? && s.now <= ParseTime(until, s).value)))
  {
    assert Get(c, Verifier) == Str(VerifierName(k.verifier));
  }

  lemma TargetIs(k: Contract, e: Json, s: Setting)
    requires ConfigValid(k.verifier, k.config)
    ensures RevisionValid(k, e, s) && Get(e, Facts).Obj? && FactsMatch(k.verifier, Get(e, Revision), Get(e, Facts)) <==> (
      && Get(e, Revision).Obj? && Get(e, Facts).Obj? && AtRevision(Get(e, Revision), s)
      && OnTarget(k.verifier, k.config, Get(e, Revision), Get(e, Facts)))
  {
  }

  /** A criterion with an executable contract passes if and only if its evidence is authenticated and
      relevant, its facts say so, and its own status, if given, agrees; and it fails likewise. Otherwise
      it is unknown. */
  lemma VerdictIff(c: Json, e: Json, s: Setting, authenticated: bool)
    ensures var v := EvaluateCriterion(c, e, s, authenticated);
      && (v.Passed? <==> (
           && Text(Get(c, Id)) && ContractOf(c).Some? && authenticated && Relevant(c, ContractOf(c).value, e, s)
           && PassFacts(ContractOf(c).value.verifier, Get(e, Facts), ContractOf(c).value.config) && Get(e, Status) in {Null, Str("passed")}))
      && (v.Failed? <==> (
           && Text(Get(c, Id)) && ContractOf(c).Some? && authenticated && Relevant(c, ContractOf(c).value, e, s)
           && FailFacts(ContractOf(c).value.verifier, Get(e, Facts), ContractOf(c).value.config) && Get(e, Status) in {Null, Str("failed")}))
  {
    if ContractOf(c).Some? {
      var k := ContractOf(c).value;
      AddressedIs(c, k, e, s);
      TargetIs(k, e, s);
      FactsDecide(k.verifier, Get(e, Facts), k.config);
    }
  }

  /** Two criteria about the same pull request, merged or checked, freeze different heads. */
  predicate HeadsApart(c: Json, d: Json) {
    && ContractOf(c).Some? && ContractOf(d).Some?
    && ContractOf(c).value.verifier in {CodeMerged, RequiredCiGreen} && ContractOf(d).value.verifier in {CodeMerged, RequiredCiGreen}
    && Get(ContractOf(c).value.config, Repository) == Get(ContractOf(d).value.config, Repository)
    && Get(ContractOf(c).value.config, PullRequest) == Get(ContractOf(d).value.config, PullRequest)
    && Get(ContractOf(c).value.config, HeadSha) != Get(ContractOf(d).value.config, HeadSha)
  }

  lemma ApartIs(c: Json, d: Json)
    ensures FrozenApart(c, d) <==> HeadsApart(c, d)
  {
  }

  /** Acceptance passes if and only if there are criteria, each of them passes, and no two freeze
      different heads of one pull request. */
  lemma AcceptedIff(cs: seq<Json>, evidence: map<string, Json>, s: Setting, auth: set<string>)
    ensures Evaluate(cs, evidence, s, auth).Passed? <==> (
      && cs != [] && (forall i :: 0 <= i < |cs| ==> VerdictOf(cs[i], evidence, s, auth).Passed?)
      && !exists i, j :: 0 <= i < |cs| && 0 <= j < |cs| && HeadsApart(cs[i], cs[j]))
  {
    PassesIff(cs, evidence, s, auth);
    forall i, j | 0 <= i < |cs| && 0 <= j < |cs| ensures FrozenApart(cs[i], cs[j]) <==> HeadsApart(cs[i], cs[j]) {
      ApartIs(cs[i], cs[j]);
    }
  }

  /** Acceptance passes only on relevant, authenticated evidence for every criterion whose facts make
      it pass. */
  lemma PassRestsOnFacts(cs: seq<Json>, evidence: map<string, Json>, s: Setting, auth: set<string>, i: nat)
    requires Evaluate(cs, evidence, s, auth).Passed? && i < |cs|
    ensures var c := cs[i];
      && Text(Get(c, Id)) && Get(c, Id).s in auth && Get(c, Id).s in evidence && ContractOf(c).Some?
      && Relevant(c, ContractOf(c).value, evidence[Get(c, Id).s], s)
      && PassFacts(ContractOf(c).value.verifier, Get(evidence[Get(c, Id).s], Facts), ContractOf(c).value.config)
  {
    PassedMeans(cs, evidence, s, auth, i);
    PassesIff(cs, evidence, s, auth);
    assert VerdictOf(cs[i], evidence, s, auth).Passed?;
    VerdictIff(cs[i], Evidence(cs[i], evidence), s, Authenticated(cs[i], auth));
  }
}
