/** The chain of steps behind every run completed on state evidence: which observer loaded which
    bundle, what its authentication rested on for each criterion, and under what conditions it was
    judged and completed (src/bureau/closure_observer.py). */
module CloseoutChain {
  import opened Prelude
  import opened JsonValues
  import opened Acceptance
  import opened AcceptanceLaws
  import opened Closeout
  import opened FourEyes

  /* ---- what authentication accepts ---- */

  function VerifierOf(c: Json): Option<VerifierKind> {
    if ContractOf(c).Some? then Some(ContractOf(c).value.verifier) else None
  }

  predicate LivePr(v: Option<VerifierKind>) { v == Some(CodeMerged) || v == Some(RequiredCiGreen) }

  /** The journal holds an attestation of this item for this run, revision, criterion and scope. */
  ghost predicate AttestedBy(journal: seq<Attestation>, runId: string, claim: Claim, c: Json, item: Json) {
    exists a :: a in journal && IsAbout(a, runId, claim, c, item)
  }

  predicate IsAbout(a: Attestation, runId: string, claim: Claim, c: Json, item: Json) {
    && (a.runId, a.taskId, a.taskSha) == (runId, claim.taskId, claim.taskSha) && claim.planSha == Some(a.planSha)
    && a.envelope == Sha256(claim.task) && Get(c, Id) == Str(a.criterionId)
    && ContractOf(c).Some? && a.scope == Get(ContractOf(c).value.config, ObservationScope) && a.evidence == Sha256(item)
  }

  /** Criterion `c` counts as authenticated: the bundle claims it with an object, and a matching
      attestation stands in the journal or the live readback of its pull request agreed. */
  ghost predicate Stands(c: Json, s: State, runId: string, evidence: Items, github: set<string>)
    requires runId in s.runs
  {
    && Get(c, Id).Str? && Get(c, Id).s in evidence && evidence[Get(c, Id).s].Obj?
    && (|| (VerifierOf(c) == Some(ManualObservation) && AttestedBy(s.journal, runId, s.runs[runId].claim, c, evidence[Get(c, Id).s]))
        || (LivePr(VerifierOf(c)) && Get(c, Id).s in github))
  }

  lemma ProvenIs(c: Json, s: State, runId: string, evidence: Items, github: set<string>)
    requires runId in s.runs
    ensures Proven(c, s, runId, evidence, github) <==> Stands(c, s, runId, evidence, github)
  {
    if IsManual(c) && Claimed(c, evidence) {
      var claim, item := s.runs[runId].claim, evidence[Get(c, Id).s];
      assert forall a :: Closeout.Matches(a, runId, claim, c, item) <==> IsAbout(a, runId, claim, c, item);
    }
  }

  /** A claimed criterion that only a verifier without an adapter could authenticate. */
  predicate Stranded(c: Json, evidence: Items) {
    && VerifierOf(c).Some? && VerifierOf(c) != Some(ManualObservation) && !LivePr(VerifierOf(c))
    && Get(c, Id).Str? && Get(c, Id).s in evidence && evidence[Get(c, Id).s].Obj?
  }

  lemma StrandedIs(c: Json, evidence: Items)
    ensures Unadapted(c, evidence) <==> Stranded(c, evidence)
  {
  }

  lemma AuthFailsIff(s: State, runId: string, evidence: Items, github: set<string>)
    requires runId in s.runs
    ensures var cs := Criteria(s.runs[runId].claim);
      AuthIds(s, runId, evidence, github).None? <==> exists j :: 0 <= j < |cs| && Stranded(cs[j], evidence)
  {
    var cs := Criteria(s.runs[runId].claim);
    forall j | 0 <= j < |cs| ensures Unadapted(cs[j], evidence) <==> Stranded(cs[j], evidence) { StrandedIs(cs[j], evidence); }
  }

  lemma DistinctIds(task: Json, cs: seq<Json>, i: nat, j: nat)
    requires Executable(task) && cs == Get(task, AcceptanceList).items && i < |cs| && j < |cs|
    requires Get(cs[i], Id).Str? && Get(cs[j], Id).Str? && Get(cs[i], Id).s == Get(cs[j], Id).s
    ensures i == j
  {
  }

  /** Authentication of an executable task fails if and only if a claimed criterion is stranded, and
      otherwise returns exactly the ids of the criteria that stand. */
  lemma AuthExact(s: State, runId: string, evidence: Items, github: set<string>, i: nat)
    requires runId in s.runs && Executable(s.runs[runId].claim.task) && i < |Criteria(s.runs[runId].claim)|
    ensures var cs, auth := Criteria(s.runs[runId].claim), AuthIds(s, runId, evidence, github);
      && (auth.None? <==> exists j :: 0 <= j < |cs| && Stranded(cs[j], evidence))
      && (auth.Some? ==> (Get(cs[i], Id).Str? && Get(cs[i], Id).s in auth.value <==> Stands(cs[i], s, runId, evidence, github)))
  {
    AuthFailsIff(s, runId, evidence, github);
    if AuthIds(s, runId, evidence, github).Some? { AuthHolds(s, runId, evidence, github, i); }
  }

  lemma AuthHolds(s: State, runId: string, evidence: Items, github: set<string>, i: nat)
    requires runId in s.runs && Executable(s.runs[runId].claim.task) && i < |Criteria(s.runs[runId].claim)|
    requires AuthIds(s, runId, evidence, github).Some?
    ensures var c := Criteria(s.runs[runId].claim)[i];
      Get(c, Id).Str? && Get(c, Id).s in AuthIds(s, runId, evidence, github).value <==> Stands(c, s, runId, evidence, github)
  {
    var claim := s.runs[runId].claim;
    var cs, auth := Criteria(claim), AuthIds(s, runId, evidence, github).value;
    ProvenIs(cs[i], s, runId, evidence, github);
    if Get(cs[i], Id).Str? && Get(cs[i], Id).s in auth {
      var j :| 0 <= j < |cs| && Proven(cs[j], s, runId, evidence, github) && Get(cs[j], Id).s == Get(cs[i], Id).s;
      DistinctIds(claim.task, cs, i, j);
    }
  }

  /* ---- tracing an observer back ---- */

  /** Label `l` in state `s` gives observer `o` this phase. */
  ghost predicate Enters(s: State, l: Label, o: nat, p: Phase) {
    o in Step(s, l).observers && Step(s, l).observers[o] == p && (o !in s.observers || s.observers[o] != p)
  }

  lemma {:induction false} PhaseOrigin(states: seq<State>, ls: seq<Label>, n: nat, o: nat) returns (k: nat)
    requires Steps(states, ls) && states[0].observers == map[] && n <= |ls| && o in states[n].observers
    ensures k < n && Enters(states[k], ls[k], o, states[n].observers[o])
  {
    k := n - 1;
    assert StepAt(states, ls, k);
    if o in states[k].observers && states[k].observers[o] == states[n].observers[o] { k := PhaseOrigin(states, ls, n - 1, o); }
  }

  lemma {:induction false} ReceiptOrigin(states: seq<State>, ls: seq<Label>, n: nat, runId: string) returns (k: nat)
    requires Steps(states, ls) && states[0].receipts == map[] && n <= |ls| && runId in states[n].receipts
    ensures k < n && ls[k].Complete? && Completes(states[k], ls[k], runId, states[n].receipts[runId])
  {
    k := n - 1;
    assert StepAt(states, ls, k);
    if runId in states[k].receipts && states[k].receipts[runId] == states[n].receipts[runId] {
      k := ReceiptOrigin(states, ls, n - 1, runId);
    } else {
      CompletionMeans(states[k], ls[k], runId);
    }
  }

  /** The label completes the run on this evidence: its observer was approved for exactly that, the
      run is active and the baseline current. */
  ghost predicate Completes(s: State, l: Label, runId: string, evidence: Items)
    requires l.Complete?
  {
    && l.observer in s.observers && s.observers[l.observer].Approved?
    && s.observers[l.observer].runId == runId && s.observers[l.observer].evidence == evidence
    && runId in s.runs && s.runs[runId].state in {Assigned, Running, Verifying} && l.baselineCurrent
  }

  lemma CompletionMeans(s: State, l: Label, runId: string)
    requires runId in Step(s, l).receipts && (runId !in s.receipts || Step(s, l).receipts[runId] != s.receipts[runId])
    ensures l.Complete? && Completes(s, l, runId, Step(s, l).receipts[runId])
  {
    ReceiptChange(s, l, runId);
  }

  /** The bundle read for the run declares exactly its task, task digest and plan digest, or there is
      none and nothing is claimed. */
  predicate LoadedFrom(s: State, runId: string, evidence: Items)
    requires runId in s.runs
  {
    var claim := s.runs[runId].claim;
    if runId in s.bundles then s.bundles[runId] == Bundle(claim.taskId, claim.taskSha, claim.planSha, evidence) else evidence == map[]
  }

  lemma LoadMeans(s: State, l: Label, o: nat, runId: string, evidence: Items)
    requires Enters(s, l, o, Loaded(runId, evidence))
    ensures l == Load(o, runId) && runId in s.runs && Executable(s.runs[runId].claim.task) && LoadedFrom(s, runId, evidence)
  {
  }

  lemma CheckMeans(s: State, l: Label, o: nat, runId: string, evidence: Items, auth: set<string>)
    requires Enters(s, l, o, Checked(runId, evidence, auth))
    ensures l.Authenticate? && l.observer == o && o in s.observers && s.observers[o] == Loaded(runId, evidence)
    ensures runId in s.runs && AuthIds(s, runId, evidence, l.github) == Some(auth)
  {
    ObserverChange(s, l, o);
  }

  lemma JudgeMeans(s: State, l: Label, o: nat, runId: string, evidence: Items, auth: set<string>)
    requires Enters(s, l, o, Approved(runId, evidence, auth))
    ensures l.Judge? && l.observer == o && o in s.observers && s.observers[o] == Checked(runId, evidence, auth)
    ensures runId in s.runs && s.runs[runId].state in {Assigned, Running, Verifying}
    ensures var claim := s.runs[runId].claim;
      Evaluate(Criteria(claim), evidence, Setting(claim.taskSha, claim.planSha, l.now, l.parse), auth).Passed?
  {
    ObserverChange(s, l, o);
  }

  /* ---- the chain ---- */

  /** Four steps of one observer, in this order. */
  datatype Chain = Chain(observer: nat, load: nat, auth: nat, judge: nat, complete: nat)

  /** The observer loaded `evidence` for the run from a bundle bound to its claim, authenticated and
      judged exactly that evidence, all criteria passing, and completed the active run on it. */
  ghost predicate Linked(states: seq<State>, ls: seq<Label>, x: Chain, runId: string, evidence: Items)
    requires |states| == |ls| + 1
  {
    && x.load < x.auth < x.judge < x.complete < |ls|
    && ls[x.load] == Load(x.observer, runId) && runId in states[x.load].runs && LoadedFrom(states[x.load], runId, evidence)
    && ls[x.auth].Authenticate? && ls[x.auth].observer == x.observer
    && x.observer in states[x.auth].observers && states[x.auth].observers[x.observer] == Loaded(runId, evidence)
    && ls[x.judge].Judge? && ls[x.judge].observer == x.observer && runId in states[x.judge].runs
    && x.observer in states[x.judge].observers && states[x.judge].observers[x.observer].Checked?
    && (var p, claim := states[x.judge].observers[x.observer], states[x.judge].runs[runId].claim;
        && p.runId == runId && p.evidence == evidence
        && runId in states[x.auth].runs && AuthIds(states[x.auth], runId, evidence, ls[x.auth].github) == Some(p.auth)
        && Evaluate(Criteria(claim), evidence, Setting(claim.taskSha, claim.planSha, ls[x.judge].now, ls[x.judge].parse), p.auth).Passed?)
    && ls[x.complete].Complete? && ls[x.complete].observer == x.observer
    && Completes(states[x.complete], ls[x.complete], runId, evidence)
  }

  lemma ChainExists(states: seq<State>, ls: seq<Label>, runId: string) returns (x: Chain)
    requires Steps(states, ls) && Initial(states[0]) && runId in states[|ls|].receipts
    ensures Linked(states, ls, x, runId, states[|ls|].receipts[runId])
  {
    var evidence := states[|ls|].receipts[runId];
    var d := ReceiptOrigin(states, ls, |ls|, runId);
    var o := ls[d].observer;
    var auth := states[d].observers[o].auth;
    var c := PhaseOrigin(states, ls, d, o);
    JudgeMeans(states[c], ls[c], o, runId, evidence, auth);
    var b := PhaseOrigin(states, ls, c, o);
    CheckMeans(states[b], ls[b], o, runId, evidence, auth);
    var a := PhaseOrigin(states, ls, b, o);
    LoadMeans(states[a], ls[a], o, runId, evidence);
    x := Chain(o, a, b, c, d);
  }

  lemma {:induction false} ClaimKept(states: seq<State>, ls: seq<Label>, k: nat, n: nat, runId: string)
    requires Steps(states, ls) && k <= n <= |ls| && runId in states[k].runs
    ensures runId in states[n].runs && states[n].runs[runId].claim == states[k].runs[runId].claim
  {
    if k < n {
      ClaimKept(states, ls, k, n - 1, runId);
      assert StepAt(states, ls, n - 1);
      StepExtends(states[n - 1], ls[n - 1]);
    }
  }

  /** Each criterion of the run stands at the authentication step. */
  ghost predicate StandsAt(states: seq<State>, ls: seq<Label>, x: Chain, runId: string, evidence: Items, c: Json)
    requires |states| == |ls| + 1 && x.auth < |ls| && ls[x.auth].Authenticate? && runId in states[x.auth].runs
  {
    Stands(c, states[x.auth], runId, evidence, ls[x.auth].github)
  }

  lemma ChainStands(states: seq<State>, ls: seq<Label>, x: Chain, runId: string, evidence: Items, i: nat)
    requires Steps(states, ls) && Linked(states, ls, x, runId, evidence)
    requires runId in states[|ls|].runs && i < |Criteria(states[|ls|].runs[runId].claim)|
    requires Executable(states[x.auth].runs[runId].claim.task)
    ensures StandsAt(states, ls, x, runId, evidence, Criteria(states[|ls|].runs[runId].claim)[i])
  {
    ClaimKept(states, ls, x.auth, |ls|, runId);
    ClaimKept(states, ls, x.auth, x.judge, runId);
    var claim, p := states[x.auth].runs[runId].claim, states[x.judge].observers[x.observer];
    PassedMeans(Criteria(claim), evidence, Setting(claim.taskSha, claim.planSha, ls[x.judge].now, ls[x.judge].parse), p.auth, i);
    AuthExact(states[x.auth], runId, evidence, ls[x.auth].github, i);
  }

  lemma {:induction false} InvIn(states: seq<State>, ls: seq<Label>, n: nat)
    requires Steps(states, ls) && Initial(states[0]) && n <= |ls|
    ensures Inv(states[n])
  {
    if n == 0 {
      InitialInv(states[0]);
    } else {
      InvIn(states, ls, n - 1);
      assert StepAt(states, ls, n - 1);
      StepKeepsInv(states[n - 1], ls[n - 1]);
    }
  }

  /** The run of an authenticating observer has an executable task. */
  lemma LinkedExecutable(states: seq<State>, ls: seq<Label>, x: Chain, runId: string, evidence: Items)
    requires Steps(states, ls) && Initial(states[0]) && Linked(states, ls, x, runId, evidence)
    ensures Executable(states[x.auth].runs[runId].claim.task)
  {
    InvIn(states, ls, x.auth);
    assert PhaseBacked(states[x.auth], states[x.auth].observers[x.observer]);
  }

  lemma ReceiptStands(states: seq<State>, ls: seq<Label>, runId: string, i: nat) returns (x: Chain)
    requires Steps(states, ls) && Initial(states[0]) && runId in states[|ls|].receipts && runId in states[|ls|].runs
    requires i < |Criteria(states[|ls|].runs[runId].claim)|
    ensures var evidence, c := states[|ls|].receipts[runId], Criteria(states[|ls|].runs[runId].claim)[i];
      && Linked(states, ls, x, runId, evidence)
      && Get(c, Id).Str? && Get(c, Id).s in evidence
      && VerifierOf(c) in {Some(ManualObservation), Some(CodeMerged), Some(RequiredCiGreen)}
      && (VerifierOf(c) == Some(ManualObservation) ==>
           AttestedBy(states[x.auth].journal, runId, states[x.auth].runs[runId].claim, c, evidence[Get(c, Id).s]))
      && (VerifierOf(c) in {Some(CodeMerged), Some(RequiredCiGreen)} ==> Get(c, Id).s in ls[x.auth].github)
  {
    x := ChainExists(states, ls, runId);
    LinkedExecutable(states, ls, x, runId, states[|ls|].receipts[runId]);
    ChainStands(states, ls, x, runId, states[|ls|].receipts[runId], i);
  }

  /** Behind every receipt stands one chain of load, authentication, judgement and completion by one
      observer on exactly the receipt's evidence; and every criterion of the run is manual and was
      attested in the journal, or is about a merged pull request or green checks and the live readback
      at the authentication step agreed. No run is completed on a criterion of another verifier. */
  lemma CompletedOnLiveEvidence(s0: State, ls: seq<Label>, runId: string, i: nat) returns (states: seq<State>, x: Chain)
    requires Initial(s0) && runId in StateAt(s0, ls, |ls|).receipts && runId in StateAt(s0, ls, |ls|).runs
    requires i < |Criteria(StateAt(s0, ls, |ls|).runs[runId].claim)|
    ensures |states| == |ls| + 1 && (forall n :: 0 <= n <= |ls| ==> states[n] == StateAt(s0, ls, n))
    ensures var evidence, c := states[|ls|].receipts[runId], Criteria(states[|ls|].runs[runId].claim)[i];
      && Linked(states, ls, x, runId, evidence)
      && Get(c, Id).Str? && Get(c, Id).s in evidence
      && VerifierOf(c) in {Some(ManualObservation), Some(CodeMerged), Some(RequiredCiGreen)}
      && (VerifierOf(c) == Some(ManualObservation) ==>
           AttestedBy(states[x.auth].journal, runId, states[x.auth].runs[runId].claim, c, evidence[Get(c, Id).s]))
      && (VerifierOf(c) in {Some(CodeMerged), Some(RequiredCiGreen)} ==> Get(c, Id).s in ls[x.auth].github)
  {
    states := Trace(s0, ls);
    assert states[0] == s0;
    x := ReceiptStands(states, ls, runId, i);
  }

  /** A receipt, once written, stays as it is. */
  lemma {:induction false} ReceiptStays(states: seq<State>, ls: seq<Label>, k: nat, n: nat, runId: string)
    requires Steps(states, ls) && k <= n <= |ls| && runId in states[k].receipts
    ensures runId in states[n].receipts && states[n].receipts[runId] == states[k].receipts[runId]
  {
    if k < n {
      ReceiptStays(states, ls, k, n - 1, runId);
      assert StepAt(states, ls, n - 1);
      OneReceiptStays(states[n - 1], ls[n - 1], runId);
    }
  }

  lemma OneReceiptStays(s: State, l: Label, runId: string)
    requires runId in s.receipts
    ensures runId in Step(s, l).receipts && Step(s, l).receipts[runId] == s.receipts[runId]
  {
  }

  /* ---- what an attestation takes ---- */

  /** The evidence item says it is the manual observation of this criterion, at the run's revision and
      for the criterion's scope. */
  predicate Observation(item: Json, claim: Claim, id: string, scope: Json) {
    var revision, facts := Get(item, Revision), Get(item, Facts);
    && item.Obj? && revision.Obj? && facts.Obj? && Get(item, Source).Obj?
    && IsOne(Get(item, SchemaVersion)) && Get(item, KindKey) == Str("bureau.acceptance_evidence")
    && Get(item, EvidenceType) == Str("manual_observation") && Get(item, CriterionId) == Str(id)
    && Get(Get(item, Source), Authority) == Str("manual")
    && Get(revision, TaskSha256) == Str(claim.taskSha) && Get(revision, PlanSha256) == PlanJson(claim.planSha)
    && Get(revision, ObservationScope) == scope && Get(facts, ObservationScope) == scope
  }

  /** A request by `who`, without surrounding space, is granted if and only if the run is active, its
      bundle is bound to the run and holds an item of the expected digest for a manual criterion, the
      item is such an observation, and the reviewer is neither its observer nor the run's worker. */
  lemma AttestedIff(s: State, runId: string, id: string, expected: Digest<Json>, reviewer: string)
    ensures var who := Strip(reviewer);
      AttestationFor(s, runId, id, expected, reviewer).Some? <==> (
        && 1 <= |who| <= 200 && runId in s.runs && s.runs[runId].state in {Assigned, Running, Verifying}
        && Sha256Text(s.runs[runId].claim.taskSha) && s.runs[runId].claim.planSha.Some? && Sha256Text(s.runs[runId].claim.planSha.value)
        && !Blank(s.runs[runId].claim.taskId) && !Blank(id)
        && exists c, items :: Grants(s, runId, id, expected, who, c, items))
  {
    var who := Strip(reviewer);
    if runId in s.runs {
      var c, items := FindCriterion(Criteria(s.runs[runId].claim), id), LoadBundle(s, runId);
      if c.Some? && items.Some? { var granted := Grants(s, runId, id, expected, who, c.value, items.value); }
    }
  }

  ghost predicate Grants(s: State, runId: string, id: string, expected: Digest<Json>, who: string, c: Json, items: Items)
    requires runId in s.runs
  {
    && FindCriterion(Criteria(s.runs[runId].claim), id) == Some(c) && VerifierOf(c) == Some(ManualObservation)
    && LoadedFrom(s, runId, items) && id in items && Sha256(items[id]) == expected
    && Observation(items[id], s.runs[runId].claim, id, Get(ContractOf(c).value.config, ObservationScope))
    && Str(who) != Get(Get(items[id], Facts), Observer) && Some(who) != s.runs[runId].worker
  }
}
