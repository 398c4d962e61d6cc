/** Safety of whole quarantine runs: every interleaving of worker operations, producer
    writes, I/O errors, kills and crashes. */
module QuarantineRuns {
  import opened Prelude
  import opened EvidenceDisk
  import opened QuarantineProtocol
  import opened QuarantineSafety

  /* ---- what holds at each program point ---- */

  ghost predicate Owns(k: Disk, d: nat, id: nat) {
    Pending(id) in k.root && k.root[Pending(id)] == d && d in k.dirs
  }

  /** Program counter of a finalize program within its freeze, rebind and rename part. */
  function Phase(p: Program, pc: nat): int
    requires p.Finalize?
  {
    if p.rebind then pc - 5 else pc
  }

  /** The transaction's own directory at each program point. */
  ghost predicate DirFits(t: TxDir, p: Program, pc: nat) {
    match p
    case Stage(_, _, _, _, _) =>
      && (pc <= 4 ==> t.cur.payload.None? && t.syn.payload.None?)
      && (pc >= 2 ==> t.cur.manifest.Some?)
    case Finalize(_, _, source, runId, b, _) =>
      && Holds(t.cur, b)
      && (Phase(p, pc) >= 7 ==> t.cur.manifest == Some(Valid(BoundManifest(source, runId, t.cur.payload.value))))
      && (Phase(p, pc) >= 8 ==> t.syn.payload == t.cur.payload && t.syn.manifest == t.cur.manifest)
    case Cleanup(_, _) => t.cur.payload.None? && (pc >= 2 ==> t.syn.payload.None?)
    case _ => true
  }

  /** How long a program works on its pending name. */
  function LastOwned(p: Program): nat {
    match p
    case Stage(_, _, _, _, _) => 7
    case Restore(_, _) => 3
    case Finalize(_, _, _, _, _, rebind) => if rebind then 15 else 10
    case Preserve(_, _) => 6
    case Adopt(_, _) => 0
    case Cleanup(_, _) => 2
  }

  /** Evidence linked back to its source name is there unless a producer overwrote it. */
  ghost predicate LinkedBack(k: Disk, ledger: set<Bytes>, d: nat, durable: bool) {
    forall b :: b in ledger && Holds(Cur(k, d), b) ==>
      InSource(k.src, b) && (durable ==> InSource(k.srcSyn, b))
  }

  /** A program may stand at this point: its next operation is safe and it will stay so. */
  ghost predicate PointFits(k: Disk, ledger: set<Bytes>, p: Program, pc: nat) {
    && (pc <= LastOwned(p) ==> Owns(k, p.dir, p.id) && DirFits(k.dirs[p.dir], p, pc))
    && (p.Stage? && pc >= 4 ==> Pending(p.id) in k.rootSyn && k.rootSyn[Pending(p.id)] == p.dir)
    && (p.Restore? ==> LinkedBack(k, ledger, p.dir, pc >= 1))
  }

  ghost predicate WorkerFits(s: State) {
    match s.worker
    case Idle => true
    case Deciding(t) => t.Inspecting? ==> Owns(s.disk, t.dir, t.id)
    case Running(p, pc, next) =>
      && pc < |Ops(p)| && PointFits(s.disk, s.ledger, p, pc)
      && (p.Stage? ==> next.Inspecting? && next.dir == p.dir && next.id == p.id)
      && (next.Inspecting? ==> p.Stage?)
      && (p.Restore? ==> next.Quarantining?)
  }

  /** The invariant of the machine. */
  ghost predicate Inv(s: State) {
    Sound(s.disk, s.ledger) && WorkerFits(s)
  }

  /* ---- operations of a program ---- */

  lemma OwnedIsNoItem(k: Disk, d: nat, id: nat)
    requires WellFormed(k) && Owns(k, d, id)
    ensures NotItem(k, d) && Named(k.root, d)
  {
  }

  /** The operation at each point of a finalize program, by its effect class. */
  predicate IsFinalizeOp(p: Program, q: int, op: Op)
    requires p.Finalize?
  {
    && q < 12
    && (q in {-5, -2, 0, 3, 5, 8} ==> op.Change? && op.dir == p.dir && (op.edit.WriteTemp? || op.edit.DropTemps?))
    && (q in {-3, -1, 2, 4, 7, 9} ==> op == SyncTx(p.dir))
    && (q in {-4, 6} ==> op == Change(p.dir, Rebind(p.source, p.runId)))
    && (q == 1 ==> op == Change(p.dir, PutFrozen(p.bytes)))
    && (q == 10 ==> op == RenameTx(Pending(p.id), ItemName(p.id, p.source, p.bytes)))
    && (q == 11 ==> op == SyncRoot)
    && -5 <= q
  }

  lemma FinalizeOp(p: Program, pc: nat)
    requires p.Finalize? && pc < |Ops(p)|
    ensures IsFinalizeOp(p, Phase(p, pc), Ops(p)[pc])
  {
  }

  lemma FinalizeGuard(k: Disk, ledger: set<Bytes>, p: Program, pc: nat, op: Op)
    requires p.Finalize? && Sound(k, ledger) && PointFits(k, ledger, p, pc) && IsFinalizeOp(p, Phase(p, pc), op)
    ensures Guard(k, ledger, op)
  {
    if pc <= LastOwned(p) { OwnedIsNoItem(k, p.dir, p.id); }
  }

  lemma ProgramGuard(k: Disk, ledger: set<Bytes>, p: Program, pc: nat)
    requires Sound(k, ledger) && pc < |Ops(p)| && PointFits(k, ledger, p, pc)
    requires Ops(p)[pc].SyncSource? ==> NoUnsyncedStage(k)
    ensures Guard(k, ledger, Ops(p)[pc])
  {
    if p.Finalize? {
      FinalizeOp(p, pc);
      FinalizeGuard(k, ledger, p, pc, Ops(p)[pc]);
    } else if pc <= LastOwned(p) {
      OwnedIsNoItem(k, p.dir, p.id);
    }
  }

  /** A program's next directory after its operation at `pc`. */
  function DirAfter(t: TxDir, op: Op, ino: nat, moved: File): TxDir {
    match op
    case Change(_, edit) => TxDir(Edited(t.cur, edit, ino), t.syn)
    case SyncTx(_) => TxDir(t.cur, t.cur)
    case Move(_, _) => TxDir(t.cur.(payload := Some(moved)), t.syn)
    case _ => t
  }

  lemma FinalizeDirAdvances(t: TxDir, p: Program, pc: nat, op: Op, ino: nat, moved: File)
    requires p.Finalize? && DirFits(t, p, pc) && IsFinalizeOp(p, Phase(p, pc), op)
    ensures DirFits(DirAfter(t, op, ino, moved), p, pc + 1)
  {
  }

  lemma DirAdvances(t: TxDir, p: Program, pc: nat, ino: nat, moved: File)
    requires pc < |Ops(p)| && DirFits(t, p, pc)
    ensures DirFits(DirAfter(t, Ops(p)[pc], ino, moved), p, pc + 1)
  {
    if p.Finalize? {
      FinalizeOp(p, pc);
      FinalizeDirAdvances(t, p, pc, Ops(p)[pc], ino, moved);
    }
  }

  /** The operation works on the directory and leaves the names alone. */
  lemma NameStays(k: Disk, op: Op, d: nat, id: nat)
    requires Owns(k, d, id) && Enabled(k, op)
    requires op == SyncRoot || op == SyncSource || ((op.Change? || op.SyncTx? || op.Move?) && op.dir == d)
    ensures Owns(Apply(k, op), d, id)
    ensures Apply(k, op).dirs[d] == DirAfter(k.dirs[d], op, k.nextIno, Moved(k, op))
  {
  }

  function Moved(k: Disk, op: Op): File {
    if op.Move? && op.name in k.src then k.src[op.name] else File(0, [], false, false)
  }

  lemma OwnedOps(p: Program, pc: nat)
    requires pc < |Ops(p)| && pc < LastOwned(p)
    ensures var op := Ops(p)[pc];
      op == SyncRoot || op == SyncSource || ((op.Change? || op.SyncTx? || op.Move?) && op.dir == p.dir)
  {
    if p.Finalize? { FinalizeOp(p, pc); }
  }

  lemma PointAdvances(k: Disk, ledger: set<Bytes>, p: Program, pc: nat)
    requires pc < |Ops(p)| && PointFits(k, ledger, p, pc) && Enabled(k, Ops(p)[pc])
    ensures PointFits(Apply(k, Ops(p)[pc]), LedgerAfter(k, ledger, Ops(p)[pc]), p, pc + 1)
  {
    if pc + 1 <= LastOwned(p) {
      OwnedOps(p, pc);
      NameStays(k, Ops(p)[pc], p.dir, p.id);
      DirAdvances(k.dirs[p.dir], p, pc, k.nextIno, Moved(k, Ops(p)[pc]));
    }
  }

  lemma ExecuteKeeps(s: State)
    requires Inv(s) && s.worker.Running?
    requires Ops(s.worker.prog)[s.worker.pc].SyncSource? ==> NoUnsyncedStage(s.disk)
    ensures Inv(Execute(s))
  {
    var Running(p, pc, next) := s.worker;
    var op := Ops(p)[pc];
    if Enabled(s.disk, op) {
      ProgramGuard(s.disk, s.ledger, p, pc);
      OpKeeps(s.disk, s.ledger, op);
      PointAdvances(s.disk, s.ledger, p, pc);
    }
  }

  /* ---- decisions of the worker ---- */

  function WithNewDir(k: Disk): Disk {
    k.(dirs := k.dirs[k.nextDir := TxDir(NO_ENTRIES, NO_ENTRIES)], nextDir := k.nextDir + 1)
  }

  lemma NewDirEntries(k: Disk)
    requires WellFormed(k)
    ensures forall c :: Cur(WithNewDir(k), c) == Cur(k, c) && Syn(WithNewDir(k), c) == Syn(k, c)
  {
    assert k.nextDir !in k.dirs;
  }

  lemma NewDirShape(k: Disk)
    requires WellFormed(k) && PayloadsNamed(k) && Paired(k) && ItemsBound(k)
    ensures WellFormed(WithNewDir(k)) && PayloadsNamed(WithNewDir(k)) && Paired(WithNewDir(k)) && ItemsBound(WithNewDir(k))
  {
    NewDirEntries(k);
  }

  lemma NewDirKeeps(k: Disk, ledger: set<Bytes>)
    requires Sound(k, ledger)
    ensures Sound(WithNewDir(k), ledger)
  {
    NewDirEntries(k);
    NewDirEvidence(k, WithNewDir(k), ledger);
    NewDirShape(k);
  }

  lemma NewDirEvidence(k: Disk, k': Disk, ledger: set<Bytes>)
    requires EvidenceKept(k, ledger) && k'.src == k.src && k'.srcSyn == k.srcSyn && k'.rootSyn == k.rootSyn
    requires forall c :: Cur(k', c) == Cur(k, c) && Syn(k', c) == Syn(k, c)
    ensures EvidenceKept(k', ledger)
  {
    forall b ensures StagedNow(k, b) == StagedNow(k', b) && StagedDurably(k, b) == StagedDurably(k', b) {
      SameEntries(k, k', b);
    }
  }

  /** What is staged depends only on the entries of directories with a durable name. */
  lemma SameEntries(k: Disk, k': Disk, b: Bytes)
    requires k'.rootSyn == k.rootSyn && forall c :: Cur(k', c) == Cur(k, c) && Syn(k', c) == Syn(k, c)
    ensures StagedNow(k, b) == StagedNow(k', b) && StagedDurably(k, b) == StagedDurably(k', b)
  {
    if StagedNow(k, b) {
      var x :| x in k.rootSyn && Holds(Cur(k, k.rootSyn[x]), b);
      assert Holds(Cur(k', k'.rootSyn[x]), b);
    }
    if StagedNow(k', b) {
      var x :| x in k'.rootSyn && Holds(Cur(k', k'.rootSyn[x]), b);
      assert Holds(Cur(k, k.rootSyn[x]), b);
    }
  }

  /** Naming an empty directory that has no name yet. */
  lemma NewNameKeeps(k: Disk, ledger: set<Bytes>, id: nat, d: nat)
    requires Sound(k, ledger) && d in k.dirs && !Named(k.root, d) && FreshId(k, id)
    ensures Sound(k.(root := k.root[Pending(id) := d]), ledger)
  {
    var k' := k.(root := k.root[Pending(id) := d]);
    forall c | Named(k.root, c)
      ensures Named(k'.root, c)
    {
      var y :| y in k.root && k.root[y] == c;
      assert k'.root[y] == c;
    }
    NamesKeep(k, k', ledger);
  }

  lemma MakeTxKeeps(k: Disk, ledger: set<Bytes>, id: nat)
    requires Sound(k, ledger) && FreshId(k, id)
    ensures Sound(MakeTx(k, id), ledger)
    ensures Owns(MakeTx(k, id), k.nextDir, id) && MakeTx(k, id).dirs[k.nextDir] == TxDir(NO_ENTRIES, NO_ENTRIES)
  {
    NewDirKeeps(k, ledger);
    NewDirUnnamed(k);
    NewNameKeeps(WithNewDir(k), ledger, id, k.nextDir);
    assert MakeTx(k, id) == WithNewDir(k).(root := k.root[Pending(id) := k.nextDir]);
  }

  lemma NewDirUnnamed(k: Disk)
    requires WellFormed(k)
    ensures !Named(k.root, k.nextDir)
  {
  }

  /** Adding a source link, or replacing one whose bytes are no longer answered for. */
  lemma SourceLinkKeeps(k: Disk, ledger: set<Bytes>, n: string, f: File, ino: nat)
    requires Sound(k, ledger) && (n in k.src ==> k.src[n].bytes !in ledger)
    ensures Sound(k.(src := k.src[n := f], nextIno := ino), ledger)
    ensures InSource(k.src[n := f], f.bytes)
    ensures forall b :: b in ledger && InSource(k.src, b) ==> InSource(k.src[n := f], b)
  {
    var k' := k.(src := k.src[n := f], nextIno := ino);
    assert k'.src[n].bytes == f.bytes;
    forall b | b in ledger && InSource(k.src, b)
      ensures InSource(k'.src, b)
    {
      var m :| m in k.src && k.src[m].bytes == b;
      assert k'.src[m].bytes == b;
    }
    assert forall b :: StagedNow(k, b) ==> StagedNow(k', b);
    assert forall b :: StagedDurably(k, b) ==> StagedDurably(k', b);
  }

  lemma RecoveryFits(k: Disk, ledger: set<Bytes>, x: DirName)
    requires WellFormed(k) && x.Pending? && x in k.root && RecoveryChoice(k, x).Some?
    ensures var p := RecoveryChoice(k, x).value;
      PointFits(k, ledger, p, 0) && !p.Stage? && |Ops(p)| > 0
  {
  }

  lemma LinkBackKeeps(s: State, id: nat)
    requires Inv(s) && s.worker.Deciding? && s.worker.task.Inspecting?
    requires Cur(s.disk, s.worker.task.dir).payload.Some? && s.worker.task.name !in s.disk.src
    ensures var t, k := s.worker.task, s.disk; var k' := LinkBack(k, t.name, Cur(k, t.dir).payload.value);
      Sound(k', s.ledger) && PointFits(k', s.ledger, Restore(t.dir, t.id), 0)
  {
    var t, k := s.worker.task, s.disk;
    SourceLinkKeeps(k, s.ledger, t.name, Cur(k, t.dir).payload.value, k.nextIno);
  }

  /** Finalizing or preserving may begin on an owned payload. */
  lemma InspectedFits(k: Disk, ledger: set<Bytes>, p: Program)
    requires Owns(k, p.dir, p.id)
    requires p.Preserve? || (p.Finalize? && Cur(k, p.dir).payload.Some? && Cur(k, p.dir).payload.value.bytes == p.bytes)
    ensures PointFits(k, ledger, p, 0) && |Ops(p)| > 0
  {
  }

  lemma InspectKeeps(s: State, id: nat)
    requires Inv(s) && s.worker.Deciding? && s.worker.task.Inspecting?
    ensures Inv(Decide(s, id))
  {
    var k, s' := s.disk, Decide(s, id);
    if s'.worker.Running? {
      if s'.worker.prog.Restore? { LinkBackKeeps(s, id); } else { InspectedFits(k, s.ledger, s'.worker.prog); }
    }
  }

  lemma DecideKeeps(s: State, id: nat)
    requires Inv(s) && s.worker.Deciding? && (s.worker.task.Quarantining? ==> FreshId(s.disk, id))
    ensures Inv(Decide(s, id))
  {
    match s.worker.task
    case Recovering(queue) =>
      if queue != [] && queue[0].Pending? && queue[0] in s.disk.root && RecoveryChoice(s.disk, queue[0]).Some? {
        RecoveryFits(s.disk, s.ledger, queue[0]);
      }
    case Quarantining(_) => MakeTxKeeps(s.disk, s.ledger, id);
    case Inspecting(_, _, _, _, _, _) => InspectKeeps(s, id);
  }

  /* ---- the environment ---- */

  lemma CrashKeeps(k: Disk, ledger: set<Bytes>)
    requires Sound(k, ledger)
    ensures Sound(Crash(k), ledger)
  {
    var k' := Crash(k);
    assert forall c :: Cur(k', c) == Syn(k, c) && Syn(k', c) == Syn(k, c);
    forall b | b in ledger
      ensures InSource(k'.src, b) || StagedNow(k', b)
      ensures InSource(k'.srcSyn, b) || StagedDurably(k', b)
    {
      if !InSource(k.srcSyn, b) {
        var x :| x in k.rootSyn && Holds(Cur(k, k.rootSyn[x]), b) && Holds(Syn(k, k.rootSyn[x]), b);
        assert Holds(Cur(k', k'.rootSyn[x]), b) && Holds(Syn(k', k'.rootSyn[x]), b);
      }
    }
  }

  lemma ShrinkKeeps(s: State, ledger: set<Bytes>)
    requires Inv(s) && ledger <= s.ledger
    ensures Inv(s.(ledger := ledger))
  {
  }

  lemma OverwriteKeeps(s: State, n: string, f: File)
    requires Inv(s)
    ensures Inv(Step(s, Overwrite(n, f)))
  {
    var s' := Step(s, Overwrite(n, f));
    ShrinkKeeps(s, s'.ledger);
    SourceLinkKeeps(s.disk, s'.ledger, n, f.(ino := s.disk.nextIno), s.disk.nextIno + 1);
  }

  lemma ForeignSyncKeeps(s: State)
    requires Inv(s) && NoUnsyncedStage(s.disk)
    ensures Inv(Step(s, ForeignSync))
  {
    SyncSourceKeeps(s.disk, s.ledger);
  }

  lemma ExceptionKeeps(s: State)
    requires Inv(s) && s.worker.Running?
    ensures Inv(s.(worker := AfterException(s.disk, s.worker.prog, s.worker.pc, s.worker.next)))
  {
  }

  /** Every step keeps the invariant, as long as source syncs find no unsynced payload. */
  lemma StepKeeps(s: State, l: Label)
    requires Inv(s) && CanHappen(s, l)
    requires SyncsSource(s, l) ==> NoUnsyncedStage(s.disk)
    ensures Inv(Step(s, l))
  {
    match l
    case Work(id) => if s.worker.Running? { ExecuteKeeps(s); } else { DecideKeeps(s, id); }
    case IoError => ExceptionKeeps(s);
    case PowerLoss => CrashKeeps(s.disk, s.ledger);
    case Overwrite(n, f) => OverwriteKeeps(s, n, f);
    case ForeignSync => ForeignSyncKeeps(s);
    case _ =>
  }

  /* ---- whole runs ---- */

  lemma {:induction false} RunKeeps(s: State, run: seq<Label>)
    requires Inv(s) && CanRun(s, run) && Careful(s, run)
    ensures Inv(Run(s, run))
    decreases |run|
  {
    if run != [] {
      StepKeeps(s, run[0]);
      RunKeeps(Step(s, run[0]), run[1..]);
    }
  }

  /** Some step of the run lets a producer replace a source entry that holds these bytes. */
  predicate Overwritten(s: State, run: seq<Label>, b: Bytes)
    requires CanRun(s, run)
    decreases |run|
  {
    run != [] &&
    (|| (run[0].Overwrite? && run[0].name in s.disk.src && s.disk.src[run[0].name].bytes == b)
     || Overwritten(Step(s, run[0]), run[1..], b))
  }

  /** Only a producer's overwrite takes evidence off the ledger. */
  lemma {:induction false} LedgerOnlyLosesOverwrites(s: State, run: seq<Label>, b: Bytes)
    requires CanRun(s, run) && b in s.ledger && !Overwritten(s, run, b)
    ensures b in Run(s, run).ledger
    decreases |run|
  {
    if run != [] {
      LedgerOnlyLosesOverwrites(Step(s, run[0]), run[1..], b);
    }
  }

  lemma KeptIsReachable(k: Disk, ledger: set<Bytes>, b: Bytes)
    requires Sound(k, ledger) && b in ledger
    ensures Reachable(k, b)
  {
    if !InSource(k.src, b) {
      var x :| x in k.rootSyn && Holds(Cur(k, k.rootSyn[x]), b);
      assert Named(k.root, k.rootSyn[x]);
    }
  }

  /** No evidence loss. Once bytes are durable evidence, no interleaving of worker steps,
      I/O errors, kills, crashes, recovery and producers loses them: they stay reachable, and
      would stay reachable after one more crash, unless a producer overwrote them - as long
      as every sync of the source directory finds no staged payload unsynced. */
  lemma NoEvidenceLoss(s: State, run: seq<Label>, b: Bytes)
    requires Inv(s) && b in s.ledger
    requires CanRun(s, run) && Careful(s, run) && !Overwritten(s, run, b)
    ensures Reachable(Run(s, run).disk, b)
    ensures Reachable(Crash(Run(s, run).disk), b)
  {
    RunKeeps(s, run);
    LedgerOnlyLosesOverwrites(s, run, b);
    var s' := Run(s, run);
    KeptIsReachable(s'.disk, s'.ledger, b);
    CrashKeeps(s'.disk, s'.ledger);
    KeptIsReachable(Crash(s'.disk), s'.ledger, b);
  }
}
