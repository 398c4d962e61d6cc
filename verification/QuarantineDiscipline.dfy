/** Which runs of the quarantine protocol are careful, and how the others lose evidence. */
module QuarantineDiscipline {
  import opened Prelude
  import opened EvidenceDisk
  import opened QuarantineProtocol
  import opened QuarantineSafety
  import opened QuarantineRuns

  /* ---- structure that needs no care at all ---- */

  /** The invariant without any evidence to answer for. */
  ghost predicate Structure(s: State) {
    Inv(s.(ledger := {}))
  }

  lemma StructureSync(s: State, id: nat)
    requires Structure(s) && CanHappen(s, Work(id)) && SyncsSource(s, Work(id))
    ensures Structure(Step(s, Work(id)))
  {
    PointAdvances(s.disk, {}, s.worker.prog, s.worker.pc);
    var s' := Step(s, Work(id));
    assert Sound(s'.disk, {});
  }

  lemma StructureForeignSync(s: State)
    requires Structure(s)
    ensures Structure(Step(s, ForeignSync))
  {
  }

  /** What a step does to disk and worker does not depend on the ledger. */
  lemma LedgerIsGhost(s: State, l: Label)
    requires CanHappen(s, l) && !SyncsSource(s, l)
    ensures CanHappen(s.(ledger := {}), l) && Step(s, l).(ledger := {}) == Step(s.(ledger := {}), l)
  {
  }

  lemma StructureStep(s: State, l: Label)
    requires Structure(s) && CanHappen(s, l)
    ensures Structure(Step(s, l))
  {
    if l.ForeignSync? {
      StructureForeignSync(s);
    } else if SyncsSource(s, l) {
      StructureSync(s, l.id);
    } else {
      LedgerIsGhost(s, l);
      StepKeeps(s.(ledger := {}), l);
    }
  }

  lemma {:induction false} StructureRun(s: State, run: seq<Label>)
    requires Structure(s) && CanRun(s, run)
    ensures Structure(Run(s, run))
    decreases |run|
  {
    if run != [] {
      StructureStep(s, run[0]);
      StructureRun(Step(s, run[0]), run[1..]);
    }
  }

  /** In every reachable state, crashes, kills and I/O errors included: a staged payload has a
      manifest beside it, now and after a crash, so recovery never meets a payload without
      manifest; and every item directory's manifest names the digest and inode of the payload
      it holds, in both views. */
  lemma ManifestsAlwaysMatch(s: State, run: seq<Label>)
    requires Initial(s) && CanRun(s, run)
    ensures var k := Run(s, run).disk;
      && (forall d :: d in k.dirs ==> ManifestBeside(k.dirs[d].cur) && ManifestBeside(k.dirs[d].syn))
      && (forall x :: x in k.root && x.Item? ==>
            BoundTo(Cur(k, k.root[x]), x.digest) && BoundTo(Syn(k, k.root[x]), x.digest))
  {
    StructureRun(s, run);
  }

  /* ---- disciplined runs ---- */

  /** No corrupt manifest and no foreign receipt: what the protocol itself writes. */
  predicate OwnEntries(e: Entries) {
    && (e.manifest.Some? ==> e.manifest.value.Valid?)
    && (e.receipt.Some? ==> e.receipt.value.Kept?)
  }

  /** The program has yet to sync the payload it works on. */
  predicate BeforeSync(p: Program, pc: nat) {
    match p
    case Stage(_, _, _, _, _) => pc == 5
    case Finalize(_, _, _, _, _, _) => pc <= 2
    case Preserve(_, _) => pc <= 2
    case _ => false
  }

  ghost predicate Queued(k: Disk, t: Task, d: nat) {
    t.Recovering? && exists y :: y in t.queue && y.Pending? && y in k.root && k.root[y] == d
  }

  /** A directory may hold an unsynced payload only until the worker gets to it. */
  ghost predicate Excused(s: State, d: nat) {
    match s.worker
    case Idle => true
    case Deciding(t) => Queued(s.disk, t, d)
    case Running(p, pc, next) => if p.dir == d then BeforeSync(p, pc) else Queued(s.disk, next, d)
  }

  /** The preservation receipt is written but not synced. */
  predicate ReceiptInFlight(w: Worker, d: nat) {
    w.Running? && w.prog.Preserve? && w.prog.dir == d && w.pc == 2
  }

  ghost predicate TidyDir(s: State, d: nat)
    requires d in s.disk.dirs
  {
    var t := s.disk.dirs[d];
    && OwnEntries(t.cur) && OwnEntries(t.syn)
    && (Unsynced(t) ==> Excused(s, d))
    && (Unsynced(t) && t.cur.receipt.Some? ==> ReceiptInFlight(s.worker, d))
  }

  ghost predicate Tidy(s: State) {
    && (forall d :: d in s.disk.dirs ==> TidyDir(s, d))
    && PreservedSynced(s.disk)
    && (s.worker.Running? && s.worker.prog.Stage? ==> Cur(s.disk, s.worker.prog.dir).receipt.None?)
  }

  lemma TidySyncIsCareful(s: State, l: Label)
    requires Inv(s) && Tidy(s) && CanHappen(s, l) && SyncsSource(s, l) && !l.ForeignSync?
    ensures NoUnsyncedStage(s.disk)
  {
    var p := s.worker.prog;
    if p.Finalize? { FinalizeOp(p, s.worker.pc); }
    assert !BeforeSync(p, s.worker.pc);
    forall x | x in s.disk.rootSyn && s.disk.rootSyn[x] in s.disk.dirs
      ensures !Unsynced(s.disk.dirs[s.disk.rootSyn[x]])
    {
      assert TidyDir(s, s.disk.rootSyn[x]);
    }
  }

  /** What a program keeps of its own directory. */
  ghost predicate OwnDirTidy(t: TxDir, p: Program, pc: nat) {
    && OwnEntries(t.cur) && OwnEntries(t.syn)
    && (Unsynced(t) ==> BeforeSync(p, pc))
    && (Unsynced(t) && t.cur.receipt.Some? ==> p.Preserve? && pc == 2)
    && (p.Stage? ==> t.cur.receipt.None?)
  }

  lemma FinalizeDirTidy(t: TxDir, p: Program, pc: nat, op: Op, ino: nat, moved: File)
    requires p.Finalize? && IsFinalizeOp(p, Phase(p, pc), op)
    requires pc <= LastOwned(p) ==> DirFits(t, p, pc)
    requires OwnDirTidy(t, p, pc)
    ensures OwnDirTidy(DirAfter(t, op, ino, moved), p, pc + 1)
  {
  }

  lemma DirStaysTidy(t: TxDir, p: Program, pc: nat, ino: nat, moved: File)
    requires pc < |Ops(p)| && (pc <= LastOwned(p) ==> DirFits(t, p, pc))
    requires OwnDirTidy(t, p, pc)
    ensures OwnDirTidy(DirAfter(t, Ops(p)[pc], ino, moved), p, pc + 1)
  {
    if p.Finalize? {
      FinalizeOp(p, pc);
      FinalizeDirTidy(t, p, pc, Ops(p)[pc], ino, moved);
    }
  }

  lemma BeforeSyncEnabled(k: Disk, ledger: set<Bytes>, p: Program, pc: nat)
    requires pc < |Ops(p)| && PointFits(k, ledger, p, pc) && BeforeSync(p, pc)
    ensures Enabled(k, Ops(p)[pc]) && pc + 1 < |Ops(p)|
  {
    if p.Finalize? { FinalizeOp(p, pc); }
  }

  /** Only the program's own directory and its own name differ. */
  ghost predicate TouchesOwn(k: Disk, k': Disk, p: Program) {
    && k'.dirs.Keys == k.dirs.Keys
    && (forall d :: d in k.dirs && d != p.dir ==> k'.dirs[d] == k.dirs[d])
    && (forall y :: y in k.root && k.root[y] != p.dir ==> y in k'.root && k'.root[y] == k.root[y])
    && (forall y :: y in k'.root && k'.root[y] != p.dir ==> y in k.root && k'.root[y] == k.root[y])
  }

  lemma OpTouchesOwn(k: Disk, op: Op, p: Program)
    requires Enabled(k, op)
    requires
      || op == SyncRoot || op == SyncSource
      || ((op.Change? || op.SyncTx? || op.Move?) && op.dir == p.dir)
      || (op.RenameTx? && k.root[op.from] == p.dir)
      || (op.RemoveTx? && k.root[op.tx] == p.dir)
    ensures TouchesOwn(k, Apply(k, op), p)
    ensures p.dir in k.dirs ==> Apply(k, op).dirs[p.dir] == DirAfter(k.dirs[p.dir], op, k.nextIno, Moved(k, op))
  {
  }

  lemma LastOps(k: Disk, ledger: set<Bytes>, p: Program, pc: nat)
    requires pc < |Ops(p)| && PointFits(k, ledger, p, pc) && Enabled(k, Ops(p)[pc]) && pc >= LastOwned(p)
    ensures var op := Ops(p)[pc];
      op == SyncRoot || (op.RenameTx? && k.root[op.from] == p.dir) || (op.RemoveTx? && k.root[op.tx] == p.dir)
  {
    if p.Finalize? { FinalizeOp(p, pc); }
  }

  lemma OthersStayTidy(s: State, s': State, d: nat)
    requires Tidy(s) && s.worker.Running? && d in s.disk.dirs && d != s.worker.prog.dir
    requires TouchesOwn(s.disk, s'.disk, s.worker.prog)
    requires
      || s'.worker == Deciding(s.worker.next)
      || (s'.worker.Running? && s'.worker.prog == s.worker.prog && s'.worker.next == s.worker.next)
    ensures TidyDir(s', d)
  {
    assert TidyDir(s, d);
    if Queued(s.disk, s.worker.next, d) {
      var y :| y in s.worker.next.queue && y.Pending? && y in s.disk.root && s.disk.root[y] == d;
      assert y in s'.disk.root && s'.disk.root[y] == d;
    }
  }

  /** The worker's position after an executed operation. */
  predicate Advanced(s: State, s': State)
    requires s.worker.Running?
  {
    var Running(p, pc, next) := s.worker;
    s'.worker == Running(p, pc + 1, next) || (s'.worker == Deciding(next) && !BeforeSync(p, pc + 1))
  }

  ghost predicate PreservedSynced(k: Disk) {
    forall x :: x in k.root && x.Preserved? && k.root[x] in k.dirs ==> !Unsynced(k.dirs[k.root[x]])
  }

  lemma PreservedStaySynced(k: Disk, k': Disk, p: Program, pc: nat)
    requires PreservedSynced(k) && TouchesOwn(k, k', p)
    requires p.dir in k'.dirs ==> OwnDirTidy(k'.dirs[p.dir], p, pc + 1)
    requires BeforeSync(p, pc + 1) ==> NotItem(k', p.dir)
    ensures PreservedSynced(k')
  {
  }

  lemma AdvanceTidy(s: State, s': State)
    requires Inv(s) && Tidy(s) && s.worker.Running? && Inv(s') && Advanced(s, s')
    requires TouchesOwn(s.disk, s'.disk, s.worker.prog)
    requires s.worker.prog.dir in s.disk.dirs ==>
      OwnDirTidy(s'.disk.dirs[s.worker.prog.dir], s.worker.prog, s.worker.pc + 1)
    ensures Tidy(s')
  {
    forall d | d in s'.disk.dirs
      ensures TidyDir(s', d)
    {
      if d != s.worker.prog.dir { OthersStayTidy(s, s', d); }
    }
    NoItemBeforeSync(s, s');
    PreservedStaySynced(s.disk, s'.disk, s.worker.prog, s.worker.pc);
  }

  lemma NoItemBeforeSync(s: State, s': State)
    requires Inv(s') && s.worker.Running? && Advanced(s, s')
    ensures BeforeSync(s.worker.prog, s.worker.pc + 1) ==> NotItem(s'.disk, s.worker.prog.dir)
  {
    var Running(p, pc, next) := s.worker;
    if BeforeSync(p, pc + 1) { OwnedIsNoItem(s'.disk, p.dir, p.id); }
  }

  lemma ExceptionTidy(s: State)
    requires Inv(s) && Tidy(s) && s.worker.Running? && !Enabled(s.disk, Ops(s.worker.prog)[s.worker.pc])
    ensures Tidy(Execute(s))
  {
    var Running(p, pc, next) := s.worker;
    if BeforeSync(p, pc) { BeforeSyncEnabled(s.disk, s.ledger, p, pc); }
    forall d | d in s.disk.dirs ensures TidyDir(Execute(s), d) { assert TidyDir(s, d); }
  }

  lemma EndIsSynced(p: Program)
    ensures !BeforeSync(p, |Ops(p)|)
  {
  }

  lemma ExecuteAdvances(s: State)
    requires Inv(s) && s.worker.Running? && Enabled(s.disk, Ops(s.worker.prog)[s.worker.pc])
    ensures var op, s' := Ops(s.worker.prog)[s.worker.pc], Execute(s);
      && Advanced(s, s') && TouchesOwn(s.disk, s'.disk, s.worker.prog)
      && (s.worker.prog.dir in s.disk.dirs ==>
            Dir(s'.disk, s.worker.prog.dir) == DirAfter(Dir(s.disk, s.worker.prog.dir), op, s.disk.nextIno, Moved(s.disk, op)))
  {
    var Running(p, pc, next) := s.worker;
    if pc < LastOwned(p) { OwnedOps(p, pc); } else { LastOps(s.disk, s.ledger, p, pc); }
    OpTouchesOwn(s.disk, Ops(p)[pc], p);
    EndIsSynced(p);
  }

  lemma ExecuteTidy(s: State)
    requires Inv(s) && Tidy(s) && s.worker.Running? && Inv(Execute(s))
    ensures Tidy(Execute(s))
  {
    var Running(p, pc, next) := s.worker;
    if !Enabled(s.disk, Ops(p)[pc]) {
      ExceptionTidy(s);
    } else {
      ExecuteAdvances(s);
      if p.dir in s.disk.dirs {
        assert TidyDir(s, p.dir);
        DirStaysTidy(s.disk.dirs[p.dir], p, pc, s.disk.nextIno, Moved(s.disk, Ops(p)[pc]));
      }
      AdvanceTidy(s, Execute(s));
    }
  }

  lemma RecoverTidy(s: State, id: nat)
    requires Inv(s) && Tidy(s) && s.worker.Deciding? && s.worker.task.Recovering? && s.worker.task.queue != []
    ensures Tidy(Decide(s, id))
  {
    var k, x, s' := s.disk, s.worker.task.queue[0], Decide(s, id);
    forall d | d in k.dirs
      ensures TidyDir(s', d)
    {
      assert TidyDir(s, d);
      if Unsynced(k.dirs[d]) {
        var y :| y in s.worker.task.queue && y.Pending? && y in k.root && k.root[y] == d;
        assert y == x || y in s.worker.task.queue[1..];
      }
    }
  }

  lemma DecideTidy(s: State, id: nat)
    requires Inv(s) && Tidy(s) && s.worker.Deciding?
    ensures Tidy(Decide(s, id))
  {
    var s' := Decide(s, id);
    if s.worker.task.Recovering? {
      if s.worker.task.queue != [] { RecoverTidy(s, id); }
    } else {
      AfterRecoveryTidy(s, id);
    }
  }

  lemma AfterRecoveryTidy(s: State, id: nat)
    requires Inv(s) && Tidy(s) && s.worker.Deciding? && !s.worker.task.Recovering?
    ensures Tidy(Decide(s, id))
  {
    if s.worker.task.Inspecting? { InspectTidy(s, id); } else { QuarantineTidy(s, id); }
  }

  lemma InspectTidy(s: State, id: nat)
    requires Inv(s) && Tidy(s) && s.worker.Deciding? && s.worker.task.Inspecting?
    ensures Tidy(Decide(s, id))
  {
    var s' := Decide(s, id);
    forall d | d in s'.disk.dirs ensures TidyDir(s', d) { assert TidyDir(s, d); }
  }

  lemma QuarantineTidy(s: State, id: nat)
    requires Inv(s) && Tidy(s) && s.worker.Deciding? && s.worker.task.Quarantining?
    ensures Tidy(Decide(s, id))
  {
    var s' := Decide(s, id);
    forall d | d in s'.disk.dirs
      ensures TidyDir(s', d)
    {
      if d in s.disk.dirs && d < s.disk.nextDir { assert TidyDir(s, d); }
    }
  }

  lemma StartTidy(s: State, order: seq<DirName>)
    requires Inv(s) && Tidy(s) && CanHappen(s, StartPass(order))
    ensures Tidy(Step(s, StartPass(order)))
  {
    var s' := Step(s, StartPass(order));
    forall d | d in s.disk.dirs
      ensures TidyDir(s', d)
    {
      assert TidyDir(s, d);
      if Unsynced(s.disk.dirs[d]) {
        var x :| x in s.disk.root && s.disk.root[x] == d;
        assert x.Pending?;
      }
    }
  }

  /** The step that the protocol cannot survive: a kill after the preservation receipt of an
      unsynced payload was put in place and before it was synced. */
  predicate HazardousKill(s: State) {
    && s.worker.Running? && ReceiptInFlight(s.worker, s.worker.prog.dir)
    && s.worker.prog.dir in s.disk.dirs && Unsynced(s.disk.dirs[s.worker.prog.dir])
  }

  predicate DisciplinedStep(s: State, l: Label) {
    && !l.IoError?
    && (l.ForeignSync? ==> NoUnsyncedStage(s.disk))
    && (l.Kill? ==> !HazardousKill(s))
  }

  predicate Disciplined(s: State, run: seq<Label>)
    requires CanRun(s, run)
    decreases |run|
  {
    run == [] || (DisciplinedStep(s, run[0]) && Disciplined(Step(s, run[0]), run[1..]))
  }

  lemma OtherTidy(s: State, l: Label)
    requires Inv(s) && Tidy(s) && CanHappen(s, l) && DisciplinedStep(s, l)
    requires l.Enumerate? || l.Kill? || l.PowerLoss? || l.Overwrite? || l.ForeignSync?
    ensures Tidy(Step(s, l))
  {
    var s' := Step(s, l);
    forall d | d in s'.disk.dirs
      ensures TidyDir(s', d)
    {
      assert TidyDir(s, d);
    }
  }

  lemma StepTidy(s: State, l: Label)
    requires Inv(s) && Tidy(s) && CanHappen(s, l) && DisciplinedStep(s, l)
    ensures SyncsSource(s, l) ==> NoUnsyncedStage(s.disk)
    ensures Inv(Step(s, l)) && Tidy(Step(s, l))
  {
    if SyncsSource(s, l) && !l.ForeignSync? { TidySyncIsCareful(s, l); }
    StepKeeps(s, l);
    match l
    case StartPass(order) => StartTidy(s, order);
    case Work(id) => if s.worker.Running? { ExecuteTidy(s); } else { DecideTidy(s, id); }
    case _ => OtherTidy(s, l);
  }

  /** Without I/O errors, without a foreign source sync while a payload is staged unsynced,
      and without a hazardous kill, every run is careful. */
  lemma {:induction false} DisciplinedIsCareful(s: State, run: seq<Label>)
    requires Inv(s) && Tidy(s) && CanRun(s, run) && Disciplined(s, run)
    ensures Careful(s, run)
    decreases |run|
  {
    if run != [] {
      StepTidy(s, run[0]);
      DisciplinedIsCareful(Step(s, run[0]), run[1..]);
    }
  }

  /** From an empty quarantine, disciplined runs lose no evidence: crashes anywhere, kills
      outside the hazard, recovery passes and producers included. */
  lemma DisciplinedRunsLoseNothing(s: State, run1: seq<Label>, run2: seq<Label>, b: Bytes)
    requires Initial(s) && CanRun(s, run1) && Disciplined(s, run1)
    requires CanRun(Run(s, run1), run2) && Disciplined(Run(s, run1), run2)
    requires b in Run(s, run1).ledger && !Overwritten(Run(s, run1), run2, b)
    ensures Reachable(Run(Run(s, run1), run2).disk, b)
    ensures Reachable(Crash(Run(Run(s, run1), run2).disk), b)
  {
    DisciplinedKeeps(s, run1);
    DisciplinedIsCareful(Run(s, run1), run2);
    NoEvidenceLoss(Run(s, run1), run2, b);
  }

  lemma {:induction false} DisciplinedKeeps(s: State, run: seq<Label>)
    requires Inv(s) && Tidy(s) && CanRun(s, run) && Disciplined(s, run)
    ensures Inv(Run(s, run)) && Tidy(Run(s, run))
    decreases |run|
  {
    if run != [] {
      StepTidy(s, run[0]);
      DisciplinedKeeps(Step(s, run[0]), run[1..]);
    }
  }
}
