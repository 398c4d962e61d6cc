/** When evidence survives a crash, exactly: over whole runs, by a condition on the syncs alone. */
module QuarantineDurability {
  import opened Prelude
  import opened EvidenceDisk
  import opened QuarantineProtocol
  import opened QuarantineSafety
  import opened QuarantineRuns
  import opened QuarantineDiscipline
  import opened QuarantineLinks

  /** A transaction directory with a durable name has synced these bytes. */
  ghost predicate SyncedIn(k: Disk, b: Bytes) {
    exists x :: x in k.rootSyn && Holds(Syn(k, k.rootSyn[x]), b)
  }

  ghost predicate SyncedElsewhere(k: Disk, d: nat, b: Bytes) {
    exists x :: x in k.rootSyn && k.rootSyn[x] != d && Holds(Syn(k, k.rootSyn[x]), b)
  }

  /** What a crash leaves: the synced source entries and the synced, durably named directories. */
  ghost predicate Durable(k: Disk, b: Bytes) { InSource(k.srcSyn, b) || SyncedIn(k, b) }

  lemma DurableMeans(k: Disk, b: Bytes)
    ensures Durable(k, b) <==> Reachable(Crash(k), b)
  {
    var k' := Crash(k);
    assert forall c :: Cur(k', c) == Syn(k, c);
    if SyncedIn(k, b) {
      var x :| x in k.rootSyn && Holds(Syn(k, k.rootSyn[x]), b);
      assert Holds(Cur(k', k'.root[x]), b);
    }
    if y :| y in k'.root && Holds(Cur(k', k'.root[y]), b) {
      assert Holds(Syn(k, k.rootSyn[y]), b);
    }
  }

  /* ---- the condition ---- */

  /** The operation the worker executes next. */
  function NextOp(s: State, l: Label): Option<Op> {
    if l.Work? && s.worker.Running? && s.worker.pc < |Ops(s.worker.prog)| then Some(Ops(s.worker.prog)[s.worker.pc]) else None
  }

  /** A source sync may forget the bytes only if they are synced in a transaction directory. */
  ghost predicate SafeSourceSync(k: Disk, b: Bytes) { InSource(k.src, b) || SyncedIn(k, b) }

  /** The sync of a transaction directory that no longer holds the bytes its last sync held. */
  predicate Forgets(k: Disk, d: nat, b: Bytes) { Holds(Syn(k, d), b) && !Holds(Cur(k, d), b) }

  ghost predicate SafeTxSync(k: Disk, d: nat, b: Bytes) {
    Forgets(k, d, b) ==> InSource(k.srcSyn, b) || SyncedElsewhere(k, d, b)
  }

  ghost predicate SafeStep(s: State, l: Label, b: Bytes) {
    && (SyncsSource(s, l) ==> SafeSourceSync(s.disk, b))
    && (NextOp(s, l).Some? && NextOp(s, l).value.SyncTx? ==> SafeTxSync(s.disk, NextOp(s, l).value.dir, b))
  }

  ghost predicate SafeRun(s: State, run: seq<Label>, b: Bytes)
    requires CanRun(s, run)
    decreases |run|
  {
    run == [] || (SafeStep(s, run[0], b) && SafeRun(Step(s, run[0]), run[1..], b))
  }

  /* ---- one operation ---- */

  lemma SourceSyncExact(k: Disk, b: Bytes)
    ensures Durable(Apply(k, SyncSource), b) <==> SafeSourceSync(k, b)
  {
    var k' := Apply(k, SyncSource);
    assert SyncedIn(k, b) == SyncedIn(k', b) by {
      if SyncedIn(k, b) {
        var x :| x in k.rootSyn && Holds(Syn(k, k.rootSyn[x]), b);
        assert Holds(Syn(k', k'.rootSyn[x]), b);
      }
      if SyncedIn(k', b) {
        var x :| x in k'.rootSyn && Holds(Syn(k', k'.rootSyn[x]), b);
        assert Holds(Syn(k, k.rootSyn[x]), b);
      }
    }
  }

  lemma TxSyncExact(k: Disk, d: nat, b: Bytes)
    requires d in k.dirs && Durable(k, b)
    ensures Durable(Apply(k, SyncTx(d)), b) <==> SafeTxSync(k, d, b)
  {
    var k' := Apply(k, SyncTx(d));
    assert forall c :: Syn(k', c) == if c == d then Cur(k, d) else Syn(k, c);
    if SyncedElsewhere(k, d, b) {
      var x :| x in k.rootSyn && k.rootSyn[x] != d && Holds(Syn(k, k.rootSyn[x]), b);
      assert Holds(Syn(k', k'.rootSyn[x]), b);
    }
    if SyncedIn(k, b) && !Forgets(k, d, b) {
      var x :| x in k.rootSyn && Holds(Syn(k, k.rootSyn[x]), b);
      assert Holds(Syn(k', k'.rootSyn[x]), b);
    }
    if SyncedIn(k', b) && Forgets(k, d, b) {
      var x :| x in k'.rootSyn && Holds(Syn(k', k'.rootSyn[x]), b);
      assert k.rootSyn[x] != d && Holds(Syn(k, k.rootSyn[x]), b);
    }
  }

  /** Syncing the root keeps every durably named payload: it still has a name. */
  lemma RootSyncKeeps(k: Disk, b: Bytes)
    requires PayloadsNamed(k) && Durable(k, b)
    ensures Durable(Apply(k, SyncRoot), b)
  {
    var k' := Apply(k, SyncRoot);
    if SyncedIn(k, b) {
      var x :| x in k.rootSyn && Holds(Syn(k, k.rootSyn[x]), b);
      assert Named(k.root, k.rootSyn[x]);
      var y :| y in k.root && k.root[y] == k.rootSyn[x];
      assert Holds(Syn(k', k'.rootSyn[y]), b);
    }
  }

  /** The durable view is the same, apart from new directories. */
  ghost predicate SameDurable(k: Disk, k': Disk) {
    && k'.srcSyn == k.srcSyn && k'.rootSyn == k.rootSyn
    && forall d :: d in k.dirs ==> Syn(k', d) == Syn(k, d)
  }

  lemma SameDurableKeeps(k: Disk, k': Disk, b: Bytes)
    requires SameDurable(k, k') && Durable(k, b)
    ensures Durable(k', b)
  {
    if SyncedIn(k, b) {
      var x :| x in k.rootSyn && Holds(Syn(k, k.rootSyn[x]), b);
      assert Holds(Syn(k', k'.rootSyn[x]), b);
    }
  }

  /* ---- one step ---- */

  lemma OpExact(k: Disk, op: Op, b: Bytes)
    requires PayloadsNamed(k) && Enabled(k, op) && Durable(k, b)
    ensures Durable(Apply(k, op), b)
       <==> (op.SyncSource? ==> SafeSourceSync(k, b)) && (op.SyncTx? ==> SafeTxSync(k, op.dir, b))
  {
    match op
    case SyncSource => SourceSyncExact(k, b);
    case SyncTx(d) => TxSyncExact(k, d, b);
    case SyncRoot => RootSyncKeeps(k, b);
    case _ => SameDurableKeeps(k, Apply(k, op), b);
  }

  /** A label other than the worker's operations and a foreign sync leaves the durable view alone. */
  lemma OtherSteps(s: State, l: Label)
    requires WellFormed(s.disk) && CanHappen(s, l) && NextOp(s, l).None? && !l.ForeignSync?
    ensures SameDurable(s.disk, Step(s, l).disk)
  {
  }

  lemma StepExact(s: State, l: Label, b: Bytes)
    requires Structure(s) && CanHappen(s, l) && Durable(s.disk, b)
    ensures Durable(Step(s, l).disk, b) <==> SafeStep(s, l, b)
  {
    if l.ForeignSync? {
      SourceSyncExact(s.disk, b);
    } else if NextOp(s, l).Some? {
      WorkExact(s, l, NextOp(s, l).value, b);
    } else {
      OtherSteps(s, l);
      SameDurableKeeps(s.disk, Step(s, l).disk, b);
    }
  }

  lemma WorkExact(s: State, l: Label, op: Op, b: Bytes)
    requires Structure(s) && CanHappen(s, l) && NextOp(s, l) == Some(op) && Durable(s.disk, b)
    ensures Durable(Step(s, l).disk, b) <==> SafeStep(s, l, b)
  {
    if Enabled(s.disk, op) {
      OpExact(s.disk, op, b);
    }
  }

  /* ---- whole runs ---- */

  /** The bytes survive a crash at every point of the run. */
  ghost predicate DurableThroughout(s: State, run: seq<Label>, b: Bytes)
    requires CanRun(s, run)
  {
    forall n :: 0 <= n <= |run| ==> DurableAt(s, run, n, b)
  }

  ghost predicate DurableAt(s: State, run: seq<Label>, n: nat, b: Bytes)
    requires n <= |run|
  {
    CanRun(s, run[..n]) && Reachable(Crash(Run(s, run[..n]).disk), b)
  }

  lemma {:induction false} PrefixRuns(s: State, run: seq<Label>, n: nat)
    requires CanRun(s, run) && n <= |run|
    ensures CanRun(s, run[..n])
    decreases |run|
  {
    if n > 0 {
      assert run[..n][0] == run[0] && run[..n][1..] == run[1..][..n - 1];
      PrefixRuns(Step(s, run[0]), run[1..], n - 1);
    }
  }

  lemma DurableNext(s: State, run: seq<Label>, n: nat, b: Bytes)
    requires CanRun(s, run) && 0 < n <= |run|
    ensures DurableAt(s, run, n, b) <==> DurableAt(Step(s, run[0]), run[1..], n - 1, b)
  {
    assert run[..n][0] == run[0] && run[..n][1..] == run[1..][..n - 1];
    PrefixRuns(s, run, n);
  }

  /** No evidence loss, exactly. Bytes that would survive a crash now survive one at every point of
      a run if and only if every source sync finds them at a source name or synced in a durably
      named transaction directory, and every sync of a transaction directory that forgets them
      finds them in the synced source or synced in another directory. */
  lemma {:induction false} SurvivesIff(s: State, run: seq<Label>, b: Bytes)
    requires Structure(s) && CanRun(s, run) && Reachable(Crash(s.disk), b)
    ensures DurableThroughout(s, run, b) <==> SafeRun(s, run, b)
    decreases |run|
  {
    DurableMeans(s.disk, b);
    if run == [] {
      assert run[..0] == [];
    } else {
      var s' := Step(s, run[0]);
      StepExact(s, run[0], b);
      DurableMeans(s'.disk, b);
      StructureStep(s, run[0]);
      FirstStep(s, run, b);
      if SafeStep(s, run[0], b) { SurvivesIff(s', run[1..], b); }
    }
  }

  lemma FirstStep(s: State, run: seq<Label>, b: Bytes)
    requires CanRun(s, run) && run != [] && Reachable(Crash(s.disk), b)
    ensures DurableThroughout(s, run, b) <==> DurableThroughout(Step(s, run[0]), run[1..], b)
    ensures DurableThroughout(s, run, b) ==> Reachable(Crash(Step(s, run[0]).disk), b)
  {
    var s' := Step(s, run[0]);
    forall n | 0 < n <= |run| ensures DurableAt(s, run, n, b) <==> DurableAt(s', run[1..], n - 1, b) {
      DurableNext(s, run, n, b);
    }
    assert run[..0] == [] && run[1..][..0] == [];
    assert DurableAt(s, run, 0, b);
    if DurableThroughout(s, run, b) {
      forall n | 0 <= n <= |run[1..]| ensures DurableAt(s', run[1..], n, b) { assert DurableAt(s, run, n + 1, b); }
      assert DurableAt(s', run[1..], 0, b);
    }
    if DurableThroughout(s', run[1..], b) {
      forall n | 0 < n <= |run| ensures DurableAt(s, run, n, b) { assert DurableAt(s', run[1..], n - 1, b); }
    }
  }

  lemma KeptIsDurable(s: State, b: Bytes)
    requires Inv(s) && b in s.ledger
    ensures Durable(s.disk, b)
  {
    if StagedDurably(s.disk, b) {
      var x :| x in s.disk.rootSyn && Holds(Cur(s.disk, s.disk.rootSyn[x]), b) && Holds(Syn(s.disk, s.disk.rootSyn[x]), b);
    }
  }

  /** Careful runs are safe for everything on the ledger that no producer overwrites. */
  lemma {:induction false} CarefulIsSafe(s: State, run: seq<Label>, b: Bytes)
    requires Inv(s) && b in s.ledger && CanRun(s, run) && Careful(s, run) && !Overwritten(s, run, b)
    ensures SafeRun(s, run, b)
    decreases |run|
  {
    if run != [] {
      StepKeeps(s, run[0]);
      KeptIsDurable(s, b);
      KeptIsDurable(Step(s, run[0]), b);
      ShrinkKeeps(s, {});
      StepExact(s, run[0], b);
      CarefulIsSafe(Step(s, run[0]), run[1..], b);
    }
  }

  /* ---- now and after a crash ---- */

  /** The bytes are reachable now at every point of the run, power losses included. */
  lemma {:induction false} ReachableAt(s: State, run: seq<Label>, n: nat, b: Bytes)
    requires Structure(s) && CanRun(s, run) && n <= |run| && DropIsLinked(s, b)
    requires Reachable(s.disk, b) && Durable(s.disk, b) && SafeRun(s, run, b) && !Overwritten(s, run, b)
    ensures CanRun(s, run[..n]) && Reachable(Run(s, run[..n]).disk, b)
    decreases |run|
  {
    if n == 0 {
      assert run[..0] == [];
    } else {
      var l, s' := run[0], Step(s, run[0]);
      StepExact(s, l, b);
      StructureStep(s, l);
      if l.PowerLoss? { DurableMeans(s.disk, b); } else { StepLinks(s, l, b); }
      ReachableAt(s', run[1..], n - 1, b);
      assert run[..n][0] == l && run[..n][1..] == run[1..][..n - 1];
    }
  }

  /** The bytes are reachable at this point of the run, and would be after a crash there. */
  ghost predicate KeptAt(s: State, run: seq<Label>, n: nat, b: Bytes)
    requires n <= |run|
  {
    CanRun(s, run[..n]) && Reachable(Run(s, run[..n]).disk, b) && Reachable(Crash(Run(s, run[..n]).disk), b)
  }

  /** From every reachable state: evidence at a source name that would survive a crash, and that no
      producer overwrites, is kept at every point of a run - through worker steps, I/O errors, kills,
      power losses, recovery and foreign syncs - if and only if the run's syncs are safe for it. */
  lemma KeptIff(s0: State, before: seq<Label>, run: seq<Label>, b: Bytes)
    requires Initial(s0) && CanRun(s0, before) && CanRun(Run(s0, before), run)
    requires InSource(Run(s0, before).disk.src, b) && Reachable(Crash(Run(s0, before).disk), b)
    requires !Overwritten(Run(s0, before), run, b)
    ensures (forall n :: 0 <= n <= |run| ==> KeptAt(Run(s0, before), run, n, b)) <==> SafeRun(Run(s0, before), run, b)
  {
    var s := Run(s0, before);
    StructureRun(s0, before);
    SurvivesIff(s, run, b);
    DurableMeans(s.disk, b);
    if SafeRun(s, run, b) {
      forall n | 0 <= n <= |run| ensures KeptAt(s, run, n, b) {
        ReachableAt(s, run, n, b);
        assert DurableAt(s, run, n, b);
      }
    }
    if forall n :: 0 <= n <= |run| ==> KeptAt(s, run, n, b) {
      forall n | 0 <= n <= |run| ensures DurableAt(s, run, n, b) { assert KeptAt(s, run, n, b); }
    }
  }
}
