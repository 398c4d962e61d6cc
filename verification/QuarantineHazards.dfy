/** How undisciplined runs of the quarantine protocol lose evidence. */
module QuarantineHazards {
  import opened Prelude
  import opened EvidenceDisk
  import opened QuarantineProtocol
  import opened QuarantineSafety
  import opened QuarantineRuns
  import opened QuarantineDiscipline

  /** Between the move and the sync of its transaction, a staged payload that exists nowhere
      else does not survive a foreign source sync followed by a crash. */
  lemma ForeignSyncInWindowLoses(s: State, b: Bytes)
    requires Inv(s) && !InSource(s.disk.src, b)
    requires forall x :: x in s.disk.rootSyn ==> !Holds(Syn(s.disk, s.disk.rootSyn[x]), b)
    ensures !Reachable(Run(s, [ForeignSync, PowerLoss]).disk, b)
  {
    var s1 := Step(s, ForeignSync);
    var s2 := Step(s1, PowerLoss);
    assert [ForeignSync, PowerLoss][1..] == [PowerLoss];
    assert [PowerLoss][1..] == [];
    assert Run(s, [ForeignSync, PowerLoss]) == Run(s1, [PowerLoss]) == Run(s2, []) == s2;
    assert forall c :: Cur(s2.disk, c) == Syn(s.disk, c);
  }

  /* ---- concrete runs ---- */

  /** One step from state to state. */
  ghost predicate Leads(s: State, l: Label, s': State) {
    CanHappen(s, l) && Step(s, l) == s'
  }

  /** A run spelled out by the states it passes. */
  ghost predicate Passes(states: seq<State>, run: seq<Label>) {
    |states| == |run| + 1 && forall i :: 0 <= i < |run| ==> Leads(states[i], run[i], states[i + 1])
  }

  lemma {:induction false} PassedRun(states: seq<State>, run: seq<Label>)
    requires Passes(states, run)
    ensures CanRun(states[0], run) && Run(states[0], run) == states[|run|]
    decreases |run|
  {
    if run != [] {
      assert Leads(states[0], run[0], states[1]);
      forall i | 0 <= i < |run| - 1 ensures Leads(states[1..][i], run[1..][i], states[1..][i + 1]) {
        assert Leads(states[i + 1], run[i + 1], states[i + 2]);
      }
      PassedRun(states[1..], run[1..]);
    }
  }

  /** A payload staged but unsynced, with a receipt beside it, in the only pending transaction. */
  ghost predicate AdoptableUnsynced(k: Disk, d: nat, id: nat, b: Bytes) {
    && WellFormed(k) && Owns(k, d, id) && PendingNames(k, [Pending(id)])
    && Holds(Cur(k, d), b) && Cur(k, d).manifest.Some? && Cur(k, d).manifest.value.Valid?
    && Cur(k, d).receipt == Some(Kept)
    && !InSource(k.src, b) && (forall x :: x in k.root ==> !Holds(Syn(k, k.root[x]), b))
  }

  function AdoptPass(id: nat): seq<Label> {
    [StartPass([Pending(id)]), Work(0), Work(0), Work(0)]
  }

  lemma AdoptSteps(s: State, d: nat, id: nat, b: Bytes)
    requires AdoptableUnsynced(s.disk, d, id, b) && s.worker.Idle?
    ensures var s1 := s.(worker := Deciding(Recovering([Pending(id)])));
      var s2 := s.(worker := Running(Adopt(d, id), 0, Recovering([])));
      Leads(s, AdoptPass(id)[0], s1) && Leads(s1, AdoptPass(id)[1], s2)
  {
    assert [Pending(id)][1..] == [];
    assert RecoveryChoice(s.disk, Pending(id)) == Some(Adopt(d, id));
  }

  /** The recovery pass after a kill adopts the transaction on the strength of its receipt: it
      renames it durably and reports no error, but never syncs its directory. The next source
      sync - the one every quarantined entry ends with - and a crash then lose the payload. */
  lemma AdoptionLosesUnsynced(s: State, d: nat, id: nat, b: Bytes)
    requires AdoptableUnsynced(s.disk, d, id, b) && s.worker.Idle?
    ensures CanRun(s, AdoptPass(id)) && Run(s, AdoptPass(id)).worker == Deciding(Recovering([]))
    ensures Preserved(id) in Run(s, AdoptPass(id)).disk.rootSyn
    ensures !Reachable(Crash(Apply(Run(s, AdoptPass(id)).disk, SyncSource)), b)
  {
    var run, next := AdoptPass(id), Recovering([]);
    var k1 := Apply(s.disk, RenameTx(Pending(id), Preserved(id)));
    var k2 := Apply(k1, SyncRoot);
    var s1 := s.(worker := Deciding(Recovering([Pending(id)])));
    var s2 := s.(worker := Running(Adopt(d, id), 0, next));
    var s3 := s.(disk := k1, worker := Running(Adopt(d, id), 1, next));
    var s4 := s.(disk := k2, worker := Deciding(next));
    AdoptSteps(s, d, id, b);
    assert Leads(s2, run[2], s3);
    assert Leads(s3, run[3], s4);
    PassedRun([s, s1, s2, s3, s4], run);
    assert forall c :: Cur(Crash(Apply(k2, SyncSource)), c) == Syn(s.disk, c);
  }

  /** A hazardous kill leads there. */
  lemma HazardousKillIsAdoptable(s: State, b: Bytes)
    requires Inv(s) && Tidy(s) && HazardousKill(s) && PendingNames(s.disk, [Pending(s.worker.prog.id)])
    requires Holds(Cur(s.disk, s.worker.prog.dir), b) && Cur(s.disk, s.worker.prog.dir).receipt.Some?
    requires !InSource(s.disk.src, b)
    requires forall x :: x in s.disk.root ==> !Holds(Syn(s.disk, s.disk.root[x]), b)
    ensures AdoptableUnsynced(Step(s, Kill).disk, s.worker.prog.dir, s.worker.prog.id, b)
  {
    assert TidyDir(s, s.worker.prog.dir);
  }
}
