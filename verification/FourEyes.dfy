/** Four-eyes closeout: over every interleaving of publishing, attesting, run changes and
    observers, a run completed on state evidence had each manual item attested by a reviewer who
    was neither the item's observer nor, at that moment, the run's worker. */
module FourEyes {
  import opened Prelude
  import opened JsonValues
  import opened Acceptance
  import opened AcceptanceLaws
  import opened Closeout

  ghost predicate Inv(s: State) {
    && JournalBounded(s) && JournalDistinct(s) && ReceiptsBacked(s)
    && forall o :: o in s.observers ==> PhaseBacked(s, s.observers[o])
  }

  lemma PhaseStays(s: State, t: State, p: Phase)
    requires Extends(s, t) && PhaseBacked(s, p)
    ensures PhaseBacked(t, p)
  {
    if !p.Loaded? { AttestedStays(s, t, p.runId, p.evidence, p.auth); }
  }

  /* ---- what one step changes ---- */

  lemma JournalChange(s: State, l: Label, a: Attestation)
    requires a in Step(s, l).journal && a !in s.journal
    ensures l.Attest? && AttestationFor(s, l.runId, l.criterionId, l.expected, l.reviewer) == Some(a)
  {
  }

  lemma ReceiptChange(s: State, l: Label, id: string)
    requires id in Step(s, l).receipts && (id !in s.receipts || Step(s, l).receipts[id] != s.receipts[id])
    ensures l.Complete? && l.observer in s.observers && s.observers[l.observer].Approved?
    ensures s.observers[l.observer].runId == id && Step(s, l).receipts[id] == s.observers[l.observer].evidence
  {
  }

  lemma ObserverChange(s: State, l: Label, o: nat)
    requires o in Step(s, l).observers && (o !in s.observers || Step(s, l).observers[o] != s.observers[o])
    ensures var p := Step(s, l).observers[o];
      && p.runId in s.runs
      && (p.Loaded? ==> Executable(s.runs[p.runId].claim.task))
      && (p.Checked? ==> l.Authenticate? && o in s.observers && s.observers[o] == Loaded(p.runId, p.evidence)
                         && AuthIds(s, p.runId, p.evidence, l.github) == Some(p.auth))
      && (p.Approved? ==> l.Judge? && o in s.observers && s.observers[o] == Checked(p.runId, p.evidence, p.auth)
                          && Approves(s.runs[p.runId], p.evidence, p.auth, l.now, l.parse))
  {
  }

  /* ---- preservation ---- */

  /** A new or changed phase is backed in the state it is entered in. */
  lemma NewPhaseBacked(s: State, l: Label, o: nat)
    requires o in s.observers ==> PhaseBacked(s, s.observers[o])
    requires o in Step(s, l).observers && (o !in s.observers || Step(s, l).observers[o] != s.observers[o])
    ensures PhaseBacked(s, Step(s, l).observers[o])
  {
    ObserverChange(s, l, o);
    EnteredPhase(s, l, Step(s, l).observers[o], if o in s.observers then Some(s.observers[o]) else None);
  }

  lemma EnteredPhase(s: State, l: Label, p: Phase, was: Option<Phase>)
    requires was.Some? ==> PhaseBacked(s, was.value)
    requires p.runId in s.runs
    requires p.Loaded? ==> Executable(s.runs[p.runId].claim.task)
    requires p.Checked? ==> l.Authenticate? && was == Some(Loaded(p.runId, p.evidence))
                            && AuthIds(s, p.runId, p.evidence, l.github) == Some(p.auth)
    requires p.Approved? ==> l.Judge? && was == Some(Checked(p.runId, p.evidence, p.auth))
                             && Approves(s.runs[p.runId], p.evidence, p.auth, l.now, l.parse)
    ensures PhaseBacked(s, p)
  {
    if p.Checked? { AuthIsBacked(s, p.runId, p.evidence, l.github); }
    if p.Approved? { ApprovalCovers(s.runs[p.runId], p.evidence, p.auth, l.now, l.parse); }
  }

  lemma PhasesKept(s: State, l: Label)
    requires Inv(s)
    ensures forall o :: o in Step(s, l).observers ==> PhaseBacked(Step(s, l), Step(s, l).observers[o])
  {
    var t := Step(s, l);
    StepExtends(s, l);
    forall o | o in t.observers ensures PhaseBacked(t, t.observers[o]) {
      if o !in s.observers || t.observers[o] != s.observers[o] { NewPhaseBacked(s, l, o); }
      PhaseStays(s, t, t.observers[o]);
    }
  }

  lemma FewerIds(s: State, runId: string, evidence: Items, auth: set<string>, ids: set<string>)
    requires Backed(s, runId, evidence, auth) && ids <= auth
    ensures Backed(s, runId, evidence, ids)
  {
    forall i | 0 <= i < |Criteria(s.runs[runId].claim)| ensures BackedAt(s, runId, evidence, ids, i) {
      assert BackedAt(s, runId, evidence, auth, i);
    }
  }

  lemma ReceiptsKept(s: State, l: Label)
    requires Inv(s)
    ensures ReceiptsBacked(Step(s, l))
  {
    var t := Step(s, l);
    StepExtends(s, l);
    forall id | id in t.receipts ensures id in t.runs && Backed(t, id, t.receipts[id], Ids(Criteria(t.runs[id].claim))) {
      if id in s.receipts && t.receipts[id] == s.receipts[id] {
        AttestedStays(s, t, id, t.receipts[id], Ids(Criteria(s.runs[id].claim)));
      } else {
        ReceiptChange(s, l, id);
        var p := s.observers[l.observer];
        assert PhaseBacked(s, p);
        FewerIds(s, id, p.evidence, p.auth, Ids(Criteria(s.runs[id].claim)));
        AttestedStays(s, t, id, p.evidence, Ids(Criteria(s.runs[id].claim)));
      }
    }
  }

  lemma InitialInv(s: State)
    requires Initial(s)
    ensures Inv(s)
  {
  }

  lemma StepKeepsInv(s: State, l: Label)
    requires Inv(s)
    ensures Inv(Step(s, l))
  {
    JournalKept(s, l);
    ReceiptsKept(s, l);
    PhasesKept(s, l);
  }

  lemma {:induction false} InvAlways(s0: State, ls: seq<Label>, n: nat)
    requires Initial(s0) && n <= |ls|
    ensures Inv(StateAt(s0, ls, n))
  {
    if n == 0 {
      InitialInv(s0);
    } else {
      InvAlways(s0, ls, n - 1);
      StepKeepsInv(StateAt(s0, ls, n - 1), ls[n - 1]);
    }
  }

  /** A run's journal never exceeds its capacity or holds two identical attestations. */
  lemma JournalInvariant(s0: State, ls: seq<Label>, runId: string)
    requires Initial(s0)
    ensures var s := StateAt(s0, ls, |ls|);
      && Count(s.journal, runId) <= 1000
      && forall i, j :: 0 <= i < j < |s.journal| ==> s.journal[i] != s.journal[j]
  {
    InvAlways(s0, ls, |ls|);
  }

  /** In this state the label writes this attestation. */
  ghost predicate Wrote(s: State, l: Label, a: Attestation) {
    l.Attest? && AttestationFor(s, l.runId, l.criterionId, l.expected, l.reviewer) == Some(a)
  }

  /** Label n accepted an attestation, and this is what it wrote. */
  ghost predicate WrittenAt(s0: State, ls: seq<Label>, n: nat, a: Attestation)
    requires n < |ls|
  {
    Wrote(StateAt(s0, ls, n), ls[n], a)
  }

  /** Successive states of a run. */
  ghost predicate Steps(states: seq<State>, ls: seq<Label>) {
    |states| == |ls| + 1 && forall i :: 0 <= i < |ls| ==> StepAt(states, ls, i)
  }

  ghost predicate StepAt(states: seq<State>, ls: seq<Label>, i: nat)
    requires |states| == |ls| + 1 && i < |ls|
  {
    states[i + 1] == Step(states[i], ls[i])
  }

  lemma Trace(s0: State, ls: seq<Label>) returns (states: seq<State>)
    ensures Steps(states, ls) && forall i :: 0 <= i <= |ls| ==> states[i] == StateAt(s0, ls, i)
  {
    states := seq(|ls| + 1, i requires 0 <= i <= |ls| => StateAt(s0, ls, i));
  }

  lemma {:induction false} OriginIn(states: seq<State>, ls: seq<Label>, n: nat, a: Attestation) returns (k: nat)
    requires Steps(states, ls) && states[0].journal == [] && n <= |ls| && a in states[n].journal
    ensures k < n && Wrote(states[k], ls[k], a)
  {
    if a in states[n - 1].journal {
      k := OriginIn(states, ls, n - 1, a);
    } else {
      k := n - 1;
      assert StepAt(states, ls, k);
      JournalChange(states[k], ls[k], a);
    }
  }

  /** Every attestation in the journal was written by an accepted request. */
  lemma JournalOrigin(s0: State, ls: seq<Label>, n: nat, a: Attestation) returns (k: nat)
    requires Initial(s0) && n <= |ls| && a in StateAt(s0, ls, n).journal
    ensures k < n && WrittenAt(s0, ls, k, a)
  {
    var states := Trace(s0, ls);
    assert states[0] == s0;
    k := OriginIn(states, ls, n, a);
  }

  lemma {:induction false} ClaimsStay(s0: State, ls: seq<Label>, k: nat, n: nat, runId: string)
    requires k <= n <= |ls| && runId in StateAt(s0, ls, k).runs
    ensures runId in StateAt(s0, ls, n).runs
    ensures StateAt(s0, ls, n).runs[runId].claim == StateAt(s0, ls, k).runs[runId].claim
  {
    if k < n {
      ClaimsStay(s0, ls, k, n - 1, runId);
      StepExtends(StateAt(s0, ls, n - 1), ls[n - 1]);
    }
  }

  /** What an accepted attestation request establishes. */
  lemma AttestationMeans(s: State, runId: string, id: string, expected: Digest<Json>, reviewer: string)
    requires AttestationFor(s, runId, id, expected, reviewer).Some?
    ensures var a := AttestationFor(s, runId, id, expected, reviewer).value;
      && a.runId == runId && runId in s.runs && a.evidence == expected && a.criterionId == id
      && Str(a.reviewer) != Get(Get(expected.preimage, Facts), Observer) && Some(a.reviewer) != s.runs[runId].worker
      && 1 <= |a.reviewer| <= 200 && s.runs[runId].state in {Assigned, Running, Verifying}
  {
  }

  /** Four eyes. For every manual criterion of a run completed on state evidence there is an
      earlier step at which a reviewer attested exactly the item in the receipt, for exactly the
      run's task, plan and envelope, while being neither the item's observer nor the run's
      worker at that step. */
  lemma FourEyesCloseout(s0: State, ls: seq<Label>, runId: string, i: nat) returns (k: nat, a: Attestation)
    requires Initial(s0) && runId in StateAt(s0, ls, |ls|).receipts && runId in StateAt(s0, ls, |ls|).runs
    requires i < |Criteria(StateAt(s0, ls, |ls|).runs[runId].claim)|
    requires IsManual(Criteria(StateAt(s0, ls, |ls|).runs[runId].claim)[i])
    ensures var end := StateAt(s0, ls, |ls|); var claim, c := end.runs[runId].claim, Criteria(end.runs[runId].claim)[i];
      && k < |ls| && WrittenAt(s0, ls, k, a) && runId in StateAt(s0, ls, k).runs
      && Get(c, Id).Str? && Get(c, Id).s in end.receipts[runId]
      && (a.runId, a.taskId, a.taskSha) == (runId, claim.taskId, claim.taskSha) && Some(a.planSha) == claim.planSha
      && a.envelope == Sha256(claim.task) && Get(c, Id) == Str(a.criterionId)
      && a.scope == Get(ContractOf(c).value.config, ObservationScope) && a.evidence == Sha256(end.receipts[runId][Get(c, Id).s])
      && StateAt(s0, ls, k).runs[runId].claim == claim && StateAt(s0, ls, k).runs[runId].state in {Assigned, Running, Verifying}
      && Str(a.reviewer) != Get(Get(end.receipts[runId][Get(c, Id).s], Facts), Observer)
      && Some(a.reviewer) != StateAt(s0, ls, k).runs[runId].worker
  {
    var end := StateAt(s0, ls, |ls|);
    InvAlways(s0, ls, |ls|);
    var claim, items := end.runs[runId].claim, end.receipts[runId];
    var c := Criteria(claim)[i];
    assert Backed(end, runId, items, Ids(Criteria(claim)));
    assert Get(c, Id).s in Ids(Criteria(claim));
    assert BackedAt(end, runId, items, Ids(Criteria(claim)), i);
    a :| a in end.journal && Matches(a, runId, claim, c, items[Get(c, Id).s]);
    k := JournalOrigin(s0, ls, |ls|, a);
    AttestationMeans(StateAt(s0, ls, k), ls[k].runId, ls[k].criterionId, ls[k].expected, ls[k].reviewer);
    ClaimsStay(s0, ls, k, |ls|, runId);
  }

  /* ---- the journal as the program writes it ---- */

  /** The state store with the bundle directory: what the attestation request reads and appends to. */
  class Desk {
    var runs: map<string, Run>
    var bundles: map<string, Bundle>
    var journal: seq<Attestation>

    function Snapshot(): State
      reads this
    {
      Closeout.State.State(runs, bundles, journal, map[], map[])
    }

    constructor (s: State)
      ensures runs == s.runs && bundles == s.bundles && journal == s.journal
    {
      runs, bundles, journal := s.runs, s.bundles, s.journal;
    }

    /** Reads the run's rows, newest first, up to one more than the capacity. */
    method CountRows(runId: string) returns (n: nat)
      ensures n == Min(Count(journal, runId), MAX_MANUAL_AUTHENTICATION_EVENTS_PER_RUN + 1)
    {
      n := 0;
      var i := |journal|;
      assert journal[..i] == journal;
      while i > 0 && n <= MAX_MANUAL_AUTHENTICATION_EVENTS_PER_RUN
        invariant 0 <= i <= |journal| && n <= MAX_MANUAL_AUTHENTICATION_EVENTS_PER_RUN + 1
        invariant n + Count(journal[..i], runId) == Count(journal, runId)
      {
        assert journal[..i][..i - 1] == journal[..i - 1];
        if journal[i - 1].runId == runId { n := n + 1; }
        i := i - 1;
      }
    }

    /** `record_manual_acceptance_authentication`: refuses, replays or appends. */
    method RecordManualAuthentication(runId: string, id: string, expected: Digest<Json>, reviewer: string)
      returns (recorded: Option<Attestation>, idempotent: bool)
      modifies this`journal
      ensures Snapshot() == AttestStep(old(Snapshot()), runId, id, expected, reviewer)
      ensures recorded.Some? ==> recorded.value in journal
      ensures recorded.Some? && !idempotent ==> journal == old(journal) + [recorded.value] && recorded.value !in old(journal)
      ensures recorded.None? || idempotent ==> journal == old(journal)
    {
      recorded, idempotent := None, false;
      if runId in runs && !Executable(runs[runId].claim.task) { return; }
      var a := AttestationFor(Snapshot(), runId, id, expected, reviewer);
      if a.None? { return; }
      if a.value in journal { return a, true; }
      var rows := CountRows(a.value.runId);
      if rows >= MAX_MANUAL_AUTHENTICATION_EVENTS_PER_RUN { return; }
      journal := journal + [a.value];
      recorded := a;
    }
  }
}
