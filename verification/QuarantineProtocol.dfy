/** The quarantine protocol of src/bureau/closure_observer.py as a state machine: one
    reconcile worker executes its programs operation by operation, while producers publish
    into the source directory, the worker may be killed or hit I/O errors, and the machine
    may crash between any two operations. */
module QuarantineProtocol {
  import opened Prelude
  import opened EvidenceDisk

  /* ---- the straight-line programs ---- */

  datatype Program =
    | Stage(name: string, dir: nat, id: nat, runId: string, read: File)
    | Restore(dir: nat, id: nat)
    | Finalize(dir: nat, id: nat, source: string, runId: string, bytes: Bytes, rebind: bool)
    | Preserve(dir: nat, id: nat)
    | Adopt(dir: nat, id: nat)
    | Cleanup(dir: nat, id: nat)

  function ItemName(id: nat, source: string, b: Bytes): DirName {
    Item(Sha256(source), Sha256(b), id)
  }

  function RebindOps(d: nat, source: string, runId: string): seq<Op> {
    [Change(d, WriteTemp(RebindTmp)), Change(d, Rebind(source, runId)), SyncTx(d), Change(d, DropTemps(RebindTmp)), SyncTx(d)]
  }

  function FinalizeOps(d: nat, id: nat, source: string, runId: string, b: Bytes): seq<Op> {
    [Change(d, WriteTemp(FreezeTmp)), Change(d, PutFrozen(b)), SyncTx(d), Change(d, DropTemps(FreezeTmp)), SyncTx(d),
     Change(d, WriteTemp(RebindTmp)), Change(d, Rebind(source, runId)), SyncTx(d), Change(d, DropTemps(RebindTmp)), SyncTx(d),
     RenameTx(Pending(id), ItemName(id, source, b)), SyncRoot]
  }

  /** The directory operations of each program, in the order the source issues them. */
  function Ops(p: Program): seq<Op> {
    match p
    case Stage(n, d, id, runId, f) =>
      [Change(d, WriteTemp(ManifestTmp)), Change(d, PutManifest(BoundManifest(n, runId, f))), SyncTx(d), SyncRoot,
       Move(n, d), SyncTx(d), SyncSource]
    case Restore(d, _) => [SyncSource, Change(d, DropPayload), SyncTx(d)]
    case Finalize(d, id, source, runId, b, rebind) =>
      (if rebind then RebindOps(d, source, runId) else []) + FinalizeOps(d, id, source, runId, b)
    case Preserve(d, id) =>
      [Change(d, WriteTemp(PreservationTmp)), Change(d, PutReceipt), SyncTx(d), Change(d, DropTemps(PreservationTmp)),
       SyncTx(d), SyncTx(d), RenameTx(Pending(id), Preserved(id)), SyncRoot]
    case Adopt(d, id) => [RenameTx(Pending(id), Preserved(id)), SyncRoot]
    case Cleanup(d, id) => [Change(d, UnlinkMeta), SyncTx(d), RemoveTx(Pending(id)), SyncRoot]
  }

  /** `_cleanup_pre_move_transaction` refuses directories with other artifacts. */
  predicate OnlyMeta(e: Entries) {
    e.payload.None? && e.receipt.None? && e.temps <= {ManifestTmp}
  }

  /** What recovery does with one pending transaction: a program, or an error that leaves it. */
  function RecoveryChoice(k: Disk, x: DirName): Option<Program>
    requires x.Pending? && x in k.root
  {
    var d, id := k.root[x], x.id;
    var e := Cur(k, d);
    match e.manifest
    case None => if OnlyMeta(e) then Some(Cleanup(d, id)) else None
    case Some(Corrupt) => None
    case Some(Valid(m)) =>
      match e.receipt
      case Some(Unreadable) => if e.payload.Some? then Some(Preserve(d, id)) else None
      case Some(ForeignKind) => None
      case Some(Kept) => Some(Adopt(d, id))
      case None =>
        match e.payload
        case Some(f) =>
          if Readable(f) then
            Some(Finalize(d, id, m.sourceName, m.runId, f.bytes,
                          Sha256(f.bytes) != m.digest || f.ino != m.ino))
          else Some(Preserve(d, id))
        case None => if m.sourceName in k.src && OnlyMeta(e) then Some(Cleanup(d, id)) else None
  }

  /* ---- the machine ---- */

  datatype Task =
    | Recovering(queue: seq<DirName>)
    | Inspecting(name: string, dir: nat, id: nat, runId: string, read: File, rest: seq<string>)
    | Quarantining(entries: seq<string>)

  datatype Worker =
    | Idle
    | Deciding(task: Task)
    | Running(prog: Program, pc: nat, next: Task)

  /** `ledger` holds the evidence the protocol answers for: bytes that were durable at a
      source name and that no producer has overwritten since. */
  datatype State = State(disk: Disk, worker: Worker, ledger: set<Bytes>)

  datatype Label =
    | StartPass(order: seq<DirName>)
    | Enumerate(entries: seq<string>)
    | Work(id: nat)
    | IoError
    | Kill
    | PowerLoss
    | Overwrite(name: string, file: File)
    | ForeignSync

  function Begin(p: Program, next: Task): Worker { Running(p, 0, next) }

  /** The stem of a `.json` entry name. */
  function RunIdOf(entry: string): string {
    if |entry| >= 5 then entry[..|entry| - 5] else entry
  }

  /** The worker after an exception: the handler around the move tries to clean up. */
  function AfterException(k: Disk, p: Program, pc: nat, next: Task): Worker {
    var onward := if next.Inspecting? then Quarantining(next.rest) else next;
    if p.Stage? && pc >= 4 && OnlyMeta(Cur(k, p.dir)) then Begin(Cleanup(p.dir, p.id), onward)
    else Deciding(onward)
  }

  function Execute(s: State): State
    requires s.worker.Running? && s.worker.pc < |Ops(s.worker.prog)|
  {
    var Running(p, pc, next) := s.worker;
    var op := Ops(p)[pc];
    if !Enabled(s.disk, op) then s.(worker := AfterException(s.disk, p, pc, next))
    else
      State(Apply(s.disk, op),
            if pc + 1 == |Ops(p)| then Deciding(next) else Running(p, pc + 1, next),
            if op.SyncSource? then s.ledger + Contents(s.disk.src) else s.ledger)
  }

  function Decide(s: State, id: nat): State
    requires s.worker.Deciding?
  {
    var k := s.disk;
    match s.worker.task
    case Recovering(queue) =>
      if queue == [] then s
      else
        var next := Recovering(queue[1..]);
        if queue[0].Pending? && queue[0] in k.root && RecoveryChoice(k, queue[0]).Some? then
          s.(worker := Begin(RecoveryChoice(k, queue[0]).value, next))
        else s.(worker := Deciding(next))
    case Quarantining(entries) =>
      if entries == [] then s.(worker := Idle)
      else
        var n := entries[0];
        if n in k.src && Readable(k.src[n]) then
          s.(disk := MakeTx(k, id),
             worker := Begin(Stage(n, k.nextDir, id, RunIdOf(n), k.src[n]),
                             Inspecting(n, k.nextDir, id, RunIdOf(n), k.src[n], entries[1..])))
        else s.(worker := Deciding(Quarantining(entries[1..])))
    case Inspecting(n, d, txId, runId, read, rest) =>
      var next := Quarantining(rest);
      if Cur(k, d).payload.None? then s.(worker := Deciding(next))
      else
        var f := Cur(k, d).payload.value;
        var same := f.ino == read.ino && f.bytes == read.bytes;
        if Readable(f) && same then s.(worker := Begin(Finalize(d, txId, n, runId, f.bytes, false), next))
        else if n !in k.src then s.(disk := LinkBack(k, n, f), worker := Begin(Restore(d, txId), next))
        else if Readable(f) then s.(worker := Begin(Finalize(d, txId, n, runId, f.bytes, true), next))
        else s.(worker := Begin(Preserve(d, txId), next))
  }

  predicate FreshId(k: Disk, id: nat) {
    forall x :: x in k.root.Keys + k.rootSyn.Keys ==> x.id != id
  }

  predicate PendingNames(k: Disk, order: seq<DirName>) {
    && (forall x :: x in order ==> x.Pending? && x in k.root)
    && (forall x :: x in k.root && x.Pending? ==> x in order)
  }

  /** The labels that can happen in a state. */
  predicate CanHappen(s: State, l: Label) {
    match l
    case StartPass(order) => s.worker.Idle? && PendingNames(s.disk, order)
    case Enumerate(_) => s.worker == Deciding(Recovering([]))
    case Work(id) =>
      && (s.worker.Deciding? ==> s.worker.task != Recovering([]))
      && (s.worker.Deciding? && s.worker.task.Quarantining? ==> FreshId(s.disk, id))
      && !s.worker.Idle?
      && (s.worker.Running? ==> s.worker.pc < |Ops(s.worker.prog)|)
    case IoError => s.worker.Running?
    case Kill => true
    case PowerLoss => true
    case Overwrite(_, _) => true
    case ForeignSync => true
  }

  function Step(s: State, l: Label): State
    requires CanHappen(s, l)
  {
    match l
    case StartPass(order) => s.(worker := Deciding(Recovering(order)))
    case Enumerate(entries) => s.(worker := Deciding(Quarantining(entries)))
    case Work(id) => if s.worker.Running? then Execute(s) else Decide(s, id)
    case IoError => s.(worker := AfterException(s.disk, s.worker.prog, s.worker.pc, s.worker.next))
    case Kill => s.(worker := Idle)
    case PowerLoss => s.(disk := Crash(s.disk), worker := Idle)
    case Overwrite(n, f) =>
      State(Publish(s.disk, n, f), s.worker,
            if n in s.disk.src then s.ledger - {s.disk.src[n].bytes} else s.ledger)
    case ForeignSync => s.(disk := Apply(s.disk, SyncSource), ledger := s.ledger + Contents(s.disk.src))
  }

  predicate CanRun(s: State, run: seq<Label>)
    decreases |run|
  {
    run == [] || (CanHappen(s, run[0]) && CanRun(Step(s, run[0]), run[1..]))
  }

  function Run(s: State, run: seq<Label>): State
    requires CanRun(s, run)
    decreases |run|
  {
    if run == [] then s else Run(Step(s, run[0]), run[1..])
  }

  /** The label makes the entries of the source directory durable. */
  predicate SyncsSource(s: State, l: Label) {
    || l.ForeignSync?
    || (l.Work? && s.worker.Running? && s.worker.pc < |Ops(s.worker.prog)|
        && Ops(s.worker.prog)[s.worker.pc].SyncSource?)
  }

  /** Every source sync of a run happens while no staged payload is unsynced. */
  predicate Careful(s: State, run: seq<Label>)
    requires CanRun(s, run)
    decreases |run|
  {
    run == [] ||
    ((SyncsSource(s, run[0]) ==> NoUnsyncedStage(s.disk)) && Careful(Step(s, run[0]), run[1..]))
  }

  /** A quarantine root without transactions, and no evidence answered for yet. */
  predicate Initial(s: State) {
    && s.worker.Idle? && s.ledger == {}
    && s.disk.root == map[] && s.disk.rootSyn == map[] && s.disk.dirs == map[]
  }
}
