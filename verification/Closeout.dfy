/** Closeout of runs on state evidence (src/bureau/closure_observer.py): producers publish
    bundles, reviewers attest manual evidence in a bounded journal, and observers load,
    authenticate, judge and complete a run in separate steps that may interleave freely. */
module Closeout {
  import opened Prelude
  import opened JsonValues
  import opened Acceptance
  import opened AcceptanceLaws

  const MAX_MANUAL_AUTHENTICATION_EVENTS_PER_RUN := 1000
  const MAX_MANUAL_REVIEWER_LENGTH := 200

  datatype RunState = Assigned | Running | Verifying | Succeeded | OtherState(name: string)

  /** What a run is bound to; no step changes it. */
  datatype Claim = Claim(taskId: string, taskSha: string, planSha: Option<string>, task: Json)

  datatype Run = Run(claim: Claim, state: RunState, worker: Option<string>)

  type Items = map<string, Json>

  /** A published bundle; its declared binding may or may not be the run's. */
  datatype Bundle = Unreadable | Bundle(taskId: string, taskSha: string, planSha: Option<string>, evidence: Items)

  datatype Attestation = Attestation(
    runId: string, taskId: string, taskSha: string, planSha: string, envelope: Digest<Json>,
    criterionId: string, scope: Json, evidence: Digest<Json>, reviewer: string)

  /** How far an observer is with a run. */
  datatype Phase =
    | Loaded(runId: string, evidence: Items)
    | Checked(runId: string, evidence: Items, auth: set<string>)
    | Approved(runId: string, evidence: Items, auth: set<string>)

  /** `receipts` holds the evidence of each run that this path completed. */
  datatype State = State(
    runs: map<string, Run>, bundles: map<string, Bundle>, journal: seq<Attestation>,
    receipts: map<string, Items>, observers: map<nat, Phase>)

  datatype Label =
    | AddRun(runId: string, run: Run)
    | ChangeRun(runId: string, state: RunState, worker: Option<string>)
    | Publish(runId: string, bundle: Bundle)
    | Withdraw(runId: string)
    | Attest(runId: string, criterionId: string, expected: Digest<Json>, reviewer: string)
    | Load(observer: nat, runId: string)
    | Authenticate(observer: nat, github: set<string>)
    | Judge(observer: nat, now: int, parse: string -> Option<int>)
    | Complete(observer: nat, baselineCurrent: bool)

  predicate Active(s: RunState) { s.Assigned? || s.Running? || s.Verifying? }

  function Criteria(claim: Claim): seq<Json> {
    var cs := Get(claim.task, AcceptanceList);
    if cs.List? then cs.items else []
  }

  function PlanJson(p: Option<string>): Json { if p.Some? then Str(p.value) else Null }

  /** `load_state_evidence_bundle`: no file reads as no evidence, a foreign binding raises. */
  function LoadBundle(s: State, runId: string): Option<Items>
    requires runId in s.runs
  {
    var c := s.runs[runId].claim;
    if runId !in s.bundles then Some(map[])
    else match s.bundles[runId]
         case Unreadable => None
         case Bundle(taskId, taskSha, planSha, evidence) =>
           if taskId == c.taskId && taskSha == c.taskSha && planSha == c.planSha then Some(evidence) else None
  }

  /* ---- attestation ---- */

  function StripLeft(s: string): string {
    if s != [] && Space(s[0]) then StripLeft(s[1..]) else s
  }

  function StripRight(s: string): string {
    if s != [] && Space(s[|s| - 1]) then StripRight(s[..|s| - 1]) else s
  }

  function Strip(s: string): string { StripRight(StripLeft(s)) }

  predicate IsManual(c: Json) { ContractOf(c).Some? && ContractOf(c).value.verifier.ManualObservation? }

  function ManualScope(c: Json): Json
    requires IsManual(c)
  {
    Get(ContractOf(c).value.config, ObservationScope)
  }

  /** The first criterion with this id. */
  function FindCriterion(cs: seq<Json>, id: string): (r: Option<Json>)
    ensures r.Some? ==> r.value in cs && Get(r.value, Id) == Str(id)
  {
    if cs == [] then None else if Get(cs[0], Id) == Str(id) then Some(cs[0]) else FindCriterion(cs[1..], id)
  }

  /** `_validate_manual_evidence_item`. */
  predicate ManualItem(item: Json, claim: Claim, id: string, scope: Json) {
    && item.Obj? && IsOne(Get(item, SchemaVersion)) && Get(item, KindKey) == Str("bureau.acceptance_evidence")
    && Get(item, CriterionId) == Str(id) && Get(item, EvidenceType) == Str("manual_observation")
    && Get(item, Source).Obj? && Get(Get(item, Source), Authority) == Str("manual")
    && Get(item, Revision).Obj? && Get(Get(item, Revision), TaskSha256) == Str(claim.taskSha)
    && Get(Get(item, Revision), PlanSha256) == PlanJson(claim.planSha)
    && Get(Get(item, Revision), ObservationScope) == scope
    && Get(item, Facts).Obj? && Get(Get(item, Facts), ObservationScope) == scope
  }

  /** The reviewer is neither the evidence's observer nor the run's present worker. */
  predicate Independent(reviewer: string, item: Json, run: Run) {
    Str(reviewer) != Get(Get(item, Facts), Observer) && Some(reviewer) != run.worker
  }

  /** What `record_manual_acceptance_authentication` would write, if it accepts the request. */
  function AttestationFor(s: State, runId: string, id: string, expected: Digest<Json>, reviewer: string): Option<Attestation> {
    var who := Strip(reviewer);
    if who == [] || |who| > MAX_MANUAL_REVIEWER_LENGTH || runId !in s.runs || !Active(s.runs[runId].state) then None
    else
      var run := s.runs[runId];
      var claim, c, items := run.claim, FindCriterion(Criteria(run.claim), id), LoadBundle(s, runId);
      if c.None? || !IsManual(c.value) || items.None? || id !in items.value then None
      else
        var item, scope := items.value[id], ManualScope(c.value);
        if Sha256(item) != expected || !ManualItem(item, claim, id, scope) || !Independent(who, item, run)
           || claim.planSha.None? || !Sha256Text(claim.planSha.value) || !Sha256Text(claim.taskSha)
           || Blank(claim.taskId) || Blank(id) then None
        else Some(Attestation(runId, claim.taskId, claim.taskSha, claim.planSha.value, Sha256(claim.task), id, scope, expected, who))
  }

  function Count(journal: seq<Attestation>, runId: string): nat {
    if journal == [] then 0
    else Count(journal[..|journal| - 1], runId) + if journal[|journal| - 1].runId == runId then 1 else 0
  }

  /** A new attestation is appended once and only below the run's capacity. */
  function Recorded(s: State, a: Attestation): State {
    if a in s.journal || Count(s.journal, a.runId) >= MAX_MANUAL_AUTHENTICATION_EVENTS_PER_RUN then s
    else s.(journal := s.journal + [a])
  }

  function AttestStep(s: State, runId: string, id: string, expected: Digest<Json>, reviewer: string): State {
    if runId in s.runs && !Executable(s.runs[runId].claim.task) then s
    else match AttestationFor(s, runId, id, expected, reviewer)
         case None => s
         case Some(a) => Recorded(s, a)
  }

  /* ---- authentication and judgement ---- */

  /** The attestation is of exactly this run, revision, criterion and evidence. */
  predicate Matches(a: Attestation, runId: string, claim: Claim, c: Json, item: Json)
    requires IsManual(c)
  {
    && a.runId == runId && a.taskId == claim.taskId && a.taskSha == claim.taskSha && Some(a.planSha) == claim.planSha
    && a.envelope == Sha256(claim.task) && Str(a.criterionId) == Get(c, Id)
    && a.scope == ManualScope(c) && a.evidence == Sha256(item)
  }

  ghost predicate Attested(journal: seq<Attestation>, runId: string, claim: Claim, c: Json, item: Json)
    requires IsManual(c)
  {
    exists a :: a in journal && Matches(a, runId, claim, c, item)
  }

  predicate GitHubKind(c: Json) {
    ContractOf(c).Some? && (ContractOf(c).value.verifier.CodeMerged? || ContractOf(c).value.verifier.RequiredCiGreen?)
  }

  predicate Claimed(c: Json, evidence: Items) { Get(c, Id).Str? && Get(c, Id).s in evidence && evidence[Get(c, Id).s].Obj? }

  /** A claimed criterion whose verifier nothing authenticates. */
  predicate Unadapted(c: Json, evidence: Items) {
    ContractOf(c).Some? && Claimed(c, evidence) && !IsManual(c) && !GitHubKind(c)
  }

  ghost predicate Proven(c: Json, s: State, runId: string, evidence: Items, github: set<string>)
    requires runId in s.runs
  {
    && ContractOf(c).Some? && Claimed(c, evidence)
    && ((IsManual(c) && Attested(s.journal, runId, s.runs[runId].claim, c, evidence[Get(c, Id).s]))
        || (GitHubKind(c) && Get(c, Id).s in github))
  }

  /** `authenticate_state_evidence`; `github` names the criteria whose live readback agreed. */
  ghost function AuthIds(s: State, runId: string, evidence: Items, github: set<string>): Option<set<string>>
    requires runId in s.runs
  {
    var cs := Criteria(s.runs[runId].claim);
    if exists i :: 0 <= i < |cs| && Unadapted(cs[i], evidence) then None
    else Some(set i | 0 <= i < |cs| && Proven(cs[i], s, runId, evidence, github) :: Get(cs[i], Id).s)
  }

  function Move(s: State, o: nat, p: Phase): State { s.(observers := s.observers[o := p]) }

  function Give(s: State, o: nat): State { s.(observers := s.observers - {o}) }

  /** `evaluate_run` on what the observer holds. */
  predicate Approves(run: Run, evidence: Items, auth: set<string>, now: int, parse: string -> Option<int>) {
    && Active(run.state)
    && Evaluate(Criteria(run.claim), evidence, Setting(run.claim.taskSha, run.claim.planSha, now, parse), auth).Passed?
  }

  ghost function Step(s: State, l: Label): State {
    match l
    case AddRun(id, run) => if id in s.runs then s else s.(runs := s.runs[id := run])
    case ChangeRun(id, state, worker) =>
      if id in s.runs then s.(runs := s.runs[id := s.runs[id].(state := state, worker := worker)]) else s
    case Publish(id, b) => s.(bundles := s.bundles[id := b])
    case Withdraw(id) => s.(bundles := s.bundles - {id})
    case Attest(id, c, expected, reviewer) => AttestStep(s, id, c, expected, reviewer)
    case Load(o, id) =>
      if id in s.runs && Executable(s.runs[id].claim.task) && LoadBundle(s, id).Some?
      then Move(s, o, Loaded(id, LoadBundle(s, id).value)) else s
    case Authenticate(o, github) =>
      if o !in s.observers || !s.observers[o].Loaded? || s.observers[o].runId !in s.runs then s
      else var p := s.observers[o];
           (match AuthIds(s, p.runId, p.evidence, github)
            case None => Give(s, o)
            case Some(auth) => Move(s, o, Checked(p.runId, p.evidence, auth)))
    case Judge(o, now, parse) =>
      if o !in s.observers || !s.observers[o].Checked? || s.observers[o].runId !in s.runs then s
      else var p := s.observers[o];
           if Executable(s.runs[p.runId].claim.task) && Approves(s.runs[p.runId], p.evidence, p.auth, now, parse)
           then Move(s, o, Approved(p.runId, p.evidence, p.auth)) else Give(s, o)
    case Complete(o, current) =>
      if o !in s.observers || !s.observers[o].Approved? || s.observers[o].runId !in s.runs then s
      else var p := s.observers[o];
           var run := s.runs[p.runId];
           if p.runId !in s.receipts && Active(run.state) && current
           then Give(s, o).(runs := s.runs[p.runId := run.(state := Succeeded)],
                            receipts := s.receipts[p.runId := p.evidence])
           else Give(s, o)
  }

  /** The state after the first n labels. */
  ghost function StateAt(s0: State, ls: seq<Label>, n: nat): State
    requires n <= |ls|
  {
    if n == 0 then s0 else Step(StateAt(s0, ls, n - 1), ls[n - 1])
  }

  predicate Initial(s: State) { s.journal == [] && s.receipts == map[] && s.observers == map[] }

  /* ---- what every step keeps ---- */

  ghost predicate JournalBounded(s: State) {
    forall id :: Count(s.journal, id) <= MAX_MANUAL_AUTHENTICATION_EVENTS_PER_RUN
  }

  ghost predicate JournalDistinct(s: State) {
    forall i, j :: 0 <= i < j < |s.journal| ==> s.journal[i] != s.journal[j]
  }

  /** Runs stay, with their claims, and the journal only grows. */
  ghost predicate Extends(s: State, t: State) {
    && s.journal <= t.journal
    && forall id :: id in s.runs ==> id in t.runs && t.runs[id].claim == s.runs[id].claim
  }

  /** Every manual criterion among the authenticated ones has a matching attestation. */
  ghost predicate Backed(s: State, runId: string, evidence: Items, auth: set<string>) {
    && runId in s.runs && Executable(s.runs[runId].claim.task)
    && forall i :: 0 <= i < |Criteria(s.runs[runId].claim)| ==> BackedAt(s, runId, evidence, auth, i)
  }

  ghost predicate BackedAt(s: State, runId: string, evidence: Items, auth: set<string>, i: nat)
    requires runId in s.runs && i < |Criteria(s.runs[runId].claim)|
  {
    var c := Criteria(s.runs[runId].claim)[i];
    IsManual(c) && Get(c, Id).Str? && Get(c, Id).s in auth ==>
      Get(c, Id).s in evidence && Attested(s.journal, runId, s.runs[runId].claim, c, evidence[Get(c, Id).s])
  }

  function Ids(cs: seq<Json>): set<string> {
    set i | 0 <= i < |cs| && Get(cs[i], Id).Str? :: Get(cs[i], Id).s
  }

  ghost predicate PhaseBacked(s: State, p: Phase) {
    match p
    case Loaded(id, _) => id in s.runs && Executable(s.runs[id].claim.task)
    case Checked(id, evidence, auth) => Backed(s, id, evidence, auth)
    case Approved(id, evidence, auth) => Backed(s, id, evidence, auth) && Ids(Criteria(s.runs[id].claim)) <= auth
  }

  ghost predicate ReceiptsBacked(s: State) {
    forall id :: id in s.receipts ==>
      id in s.runs && Backed(s, id, s.receipts[id], Ids(Criteria(s.runs[id].claim)))
  }

  lemma CountAppend(journal: seq<Attestation>, a: Attestation, runId: string)
    ensures Count(journal + [a], runId) == Count(journal, runId) + if a.runId == runId then 1 else 0
  {
    assert (journal + [a])[..|journal|] == journal;
  }

  lemma JournalKept(s: State, l: Label)
    requires JournalBounded(s) && JournalDistinct(s)
    ensures JournalBounded(Step(s, l)) && JournalDistinct(Step(s, l))
  {
    var t := Step(s, l);
    if t.journal != s.journal {
      var a := AttestationFor(s, l.runId, l.criterionId, l.expected, l.reviewer).value;
      assert t.journal == s.journal + [a];
      forall id ensures Count(t.journal, id) <= MAX_MANUAL_AUTHENTICATION_EVENTS_PER_RUN { CountAppend(s.journal, a, id); }
    }
  }

  lemma StepExtends(s: State, l: Label)
    ensures Extends(s, Step(s, l))
  {
  }

  lemma AttestedStays(s: State, t: State, runId: string, evidence: Items, auth: set<string>)
    requires Extends(s, t) && Backed(s, runId, evidence, auth)
    ensures Backed(t, runId, evidence, auth)
  {
    forall i | 0 <= i < |Criteria(t.runs[runId].claim)| ensures BackedAt(t, runId, evidence, auth, i) {
      assert BackedAt(s, runId, evidence, auth, i);
    }
  }

  /** What authentication returns is backed by the journal. */
  lemma AuthIsBacked(s: State, runId: string, evidence: Items, github: set<string>)
    requires runId in s.runs && Executable(s.runs[runId].claim.task) && AuthIds(s, runId, evidence, github).Some?
    ensures Backed(s, runId, evidence, AuthIds(s, runId, evidence, github).value)
  {
    var cs, auth := Criteria(s.runs[runId].claim), AuthIds(s, runId, evidence, github).value;
    forall i | 0 <= i < |cs| ensures BackedAt(s, runId, evidence, auth, i) {
      if IsManual(cs[i]) && Get(cs[i], Id).Str? && Get(cs[i], Id).s in auth {
        var j :| 0 <= j < |cs| && Proven(cs[j], s, runId, evidence, github) && Get(cs[j], Id).s == Get(cs[i], Id).s;
        assert j == i;
      }
    }
  }

  /** An approval covers every criterion. */
  lemma ApprovalCovers(run: Run, evidence: Items, auth: set<string>, now: int, parse: string -> Option<int>)
    requires Approves(run, evidence, auth, now, parse)
    ensures Ids(Criteria(run.claim)) <= auth
  {
    var cs, setting := Criteria(run.claim), Setting(run.claim.taskSha, run.claim.planSha, now, parse);
    forall i | 0 <= i < |cs| && Get(cs[i], Id).Str? ensures Get(cs[i], Id).s in auth {
      PassedMeans(cs, evidence, setting, auth, i);
    }
  }
}
