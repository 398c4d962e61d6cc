/** The last link of a payload: without a power loss, no step of the quarantine protocol removes
    it, however the worker is interrupted and whoever syncs the source directory. */
module QuarantineLinks {
  import opened Prelude
  import opened EvidenceDisk
  import opened QuarantineProtocol
  import opened QuarantineSafety
  import opened QuarantineRuns
  import opened QuarantineDiscipline

  /** A payload that is about to be dropped is linked at a source name. */
  ghost predicate DropIsLinked(s: State, b: Bytes) {
    s.worker.Running? && s.worker.prog.Restore? && Holds(Cur(s.disk, s.worker.prog.dir), b) ==> InSource(s.disk.src, b)
  }

  /** Edits of the current view that leave these bytes where they are. */
  predicate KeepsPayload(k: Disk, op: Op, b: Bytes)
    requires op.Change?
  {
    Holds(Cur(k, op.dir), b) ==> Holds(Edited(Cur(k, op.dir), op.edit, k.nextIno), b)
  }

  lemma ChangeLinks(k: Disk, op: Op, b: Bytes)
    requires op.Change? && Enabled(k, op) && Reachable(k, b) && (KeepsPayload(k, op, b) || InSource(k.src, b))
    ensures Reachable(Apply(k, op), b)
  {
    var k' := Apply(k, op);
    if !InSource(k.src, b) {
      var x :| x in k.root && Holds(Cur(k, k.root[x]), b);
      assert Holds(Cur(k', k'.root[x]), b);
    }
  }

  lemma MoveLinks(k: Disk, op: Op, b: Bytes)
    requires op.Move? && Enabled(k, op) && Reachable(k, b) && Named(k.root, op.dir) && Cur(k, op.dir).payload.None?
    ensures Reachable(Apply(k, op), b)
  {
    var k' := Apply(k, op);
    if k.src[op.name].bytes == b {
      var x :| x in k.root && k.root[x] == op.dir;
      assert Holds(Cur(k', k'.root[x]), b);
    } else if InSource(k.src, b) {
      var n :| n in k.src && k.src[n].bytes == b;
      assert n in k'.src && k'.src[n].bytes == b;
    } else {
      var x :| x in k.root && Holds(Cur(k, k.root[x]), b);
      assert Holds(Cur(k', k'.root[x]), b);
    }
  }

  lemma NameLinks(k: Disk, op: Op, b: Bytes)
    requires (op.RenameTx? || op.RemoveTx?) && Enabled(k, op) && Reachable(k, b)
    ensures Reachable(Apply(k, op), b)
  {
    var k' := Apply(k, op);
    if !InSource(k.src, b) {
      var x :| x in k.root && Holds(Cur(k, k.root[x]), b);
      var y := if op.RenameTx? && x == op.from then op.to else x;
      assert y in k'.root && k'.root[y] == k.root[x];
      assert Holds(Cur(k', k'.root[y]), b);
    }
  }

  lemma SyncLinks(k: Disk, op: Op, b: Bytes)
    requires (op.SyncTx? || op.SyncRoot? || op.SyncSource?) && Enabled(k, op) && Reachable(k, b)
    ensures Reachable(Apply(k, op), b)
  {
    var k' := Apply(k, op);
    if !InSource(k.src, b) {
      var x :| x in k.root && Holds(Cur(k, k.root[x]), b);
      assert Holds(Cur(k', k'.root[x]), b);
    }
  }

  /** What the worker's next change does to a payload: it keeps it, or it is linked back. */
  lemma NextChange(s: State, b: Bytes)
    requires Structure(s) && s.worker.Running? && DropIsLinked(s, b)
    requires Ops(s.worker.prog)[s.worker.pc].Change?
    ensures KeepsPayload(s.disk, Ops(s.worker.prog)[s.worker.pc], b) || InSource(s.disk.src, b)
  {
    var Running(p, pc, next) := s.worker;
    ProgramGuard(s.disk, {}, p, pc);
    if p.Finalize? { FinalizeOp(p, pc); }
  }

  lemma ExecuteLinks(s: State, b: Bytes)
    requires Structure(s) && s.worker.Running? && DropIsLinked(s, b) && Reachable(s.disk, b)
    ensures Reachable(Execute(s).disk, b)
  {
    var Running(p, pc, next) := s.worker;
    var op := Ops(p)[pc];
    if Enabled(s.disk, op) {
      if op.Change? { NextChange(s, b); ChangeLinks(s.disk, op, b); }
      else if op.Move? { ProgramGuard(s.disk, {}, p, pc); MoveLinks(s.disk, op, b); }
      else if op.RenameTx? || op.RemoveTx? { NameLinks(s.disk, op, b); }
      else { SyncLinks(s.disk, op, b); }
    }
  }

  lemma ExecuteDrop(s: State, b: Bytes)
    requires Structure(s) && s.worker.Running? && DropIsLinked(s, b)
    ensures DropIsLinked(Execute(s), b)
  {
    var Running(p, pc, next) := s.worker;
    if p.Restore? {
      assert Ops(p)[pc] == SyncSource || Ops(p)[pc] == Change(p.dir, DropPayload) || Ops(p)[pc] == SyncTx(p.dir);
    }
  }

  /** A decision makes a transaction, links a payload back to a free name, or changes no directory. */
  lemma DecideDisk(s: State, id: nat)
    requires s.worker.Deciding?
    ensures var k, s' := s.disk, Decide(s, id);
      || (s'.disk == k && (s'.worker.Running? ==> !s'.worker.prog.Restore?))
      || (s.worker.task.Quarantining? && s'.disk == MakeTx(k, id) && s'.worker.Running? && !s'.worker.prog.Restore?)
      || (s.worker.task.Inspecting? && s.worker.task.name !in k.src && Cur(k, s.worker.task.dir).payload.Some?
          && s'.disk == LinkBack(k, s.worker.task.name, Cur(k, s.worker.task.dir).payload.value)
          && s'.worker.Running? && s'.worker.prog.dir == s.worker.task.dir)
  {
  }

  lemma MakeTxLinks(k: Disk, id: nat, b: Bytes)
    requires WellFormed(k) && FreshId(k, id) && Reachable(k, b)
    ensures Reachable(MakeTx(k, id), b)
  {
    var k' := MakeTx(k, id);
    if !InSource(k.src, b) {
      var x :| x in k.root && Holds(Cur(k, k.root[x]), b);
      assert x != Pending(id) && k.nextDir !in k.dirs;
      assert Holds(Cur(k', k'.root[x]), b);
    }
  }

  lemma LinkBackLinks(k: Disk, n: string, f: File, b: Bytes)
    requires n !in k.src && Reachable(k, b)
    ensures Reachable(LinkBack(k, n, f), b) && InSource(LinkBack(k, n, f).src, f.bytes)
  {
    var k' := LinkBack(k, n, f);
    assert k'.src[n].bytes == f.bytes;
    if InSource(k.src, b) {
      var m :| m in k.src && k.src[m].bytes == b;
      assert k'.src[m].bytes == b;
    } else {
      var x :| x in k.root && Holds(Cur(k, k.root[x]), b);
      assert Holds(Cur(k', k'.root[x]), b);
    }
  }

  lemma DecideLinks(s: State, id: nat, b: Bytes)
    requires Structure(s) && s.worker.Deciding? && Reachable(s.disk, b)
    requires s.worker.task.Quarantining? ==> FreshId(s.disk, id)
    ensures Reachable(Decide(s, id).disk, b) && DropIsLinked(Decide(s, id), b)
  {
    var k, t := s.disk, s.worker.task;
    DecideDisk(s, id);
    if t.Quarantining? { MakeTxLinks(k, id, b); }
    if t.Inspecting? && t.name !in k.src && Cur(k, t.dir).payload.Some? {
      LinkBackLinks(k, t.name, Cur(k, t.dir).payload.value, b);
    }
  }

  lemma OverwriteLinks(s: State, n: string, f: File, b: Bytes)
    requires DropIsLinked(s, b) && Reachable(s.disk, b) && !(n in s.disk.src && s.disk.src[n].bytes == b)
    ensures Reachable(Step(s, Overwrite(n, f)).disk, b) && DropIsLinked(Step(s, Overwrite(n, f)), b)
  {
    var k, k' := s.disk, Publish(s.disk, n, f);
    if InSource(k.src, b) {
      var m :| m in k.src && k.src[m].bytes == b;
      assert m in k'.src && k'.src[m].bytes == b;
    } else {
      var x :| x in k.root && Holds(Cur(k, k.root[x]), b);
      assert Holds(Cur(k', k'.root[x]), b);
    }
  }

  lemma StepLinks(s: State, l: Label, b: Bytes)
    requires Structure(s) && CanHappen(s, l) && !l.PowerLoss? && DropIsLinked(s, b) && Reachable(s.disk, b)
    requires !(l.Overwrite? && l.name in s.disk.src && s.disk.src[l.name].bytes == b)
    ensures Reachable(Step(s, l).disk, b) && DropIsLinked(Step(s, l), b)
  {
    match l
    case Work(id) =>
      if s.worker.Running? {
        ExecuteLinks(s, b);
        ExecuteDrop(s, b);
      } else {
        DecideLinks(s, id, b);
      }
    case Overwrite(n, f) => OverwriteLinks(s, n, f, b);
    case ForeignSync => SyncLinks(s.disk, SyncSource, b);
    case _ =>
  }

  /** From any reachable state, in any run without a further power loss, whatever is at a source
      name stays reachable until a producer overwrites it: kills, I/O errors, recovery passes and
      foreign syncs included. */
  lemma NoStepDropsTheLastLink(s0: State, before: seq<Label>, run: seq<Label>, b: Bytes)
    requires Initial(s0) && CanRun(s0, before) && CanRun(Run(s0, before), run)
    requires InSource(Run(s0, before).disk.src, b) && !Overwritten(Run(s0, before), run, b)
    requires forall i :: 0 <= i < |run| ==> !run[i].PowerLoss?
    ensures Reachable(Run(Run(s0, before), run).disk, b)
  {
    StructureRun(s0, before);
    LinksKept(Run(s0, before), run, b);
  }

  lemma {:induction false} LinksKept(s: State, run: seq<Label>, b: Bytes)
    requires Structure(s) && CanRun(s, run) && DropIsLinked(s, b) && Reachable(s.disk, b) && !Overwritten(s, run, b)
    requires forall i :: 0 <= i < |run| ==> !run[i].PowerLoss?
    ensures Reachable(Run(s, run).disk, b)
    decreases |run|
  {
    if run != [] {
      StepLinks(s, run[0], b);
      StructureStep(s, run[0]);
      LinksKept(Step(s, run[0]), run[1..], b);
    }
  }
}
