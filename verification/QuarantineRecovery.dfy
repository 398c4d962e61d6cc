/** `_recover_quarantine_transactions` as one sequential pass, and why it converges. */
module QuarantineRecovery {
  import opened Prelude
  import opened EvidenceDisk
  import opened QuarantineProtocol
  import opened QuarantineSafety
  import opened QuarantineRuns

  /** All operations succeed when executed in order. */
  predicate AllEnabled(k: Disk, ops: seq<Op>)
    decreases |ops|
  {
    ops == [] || (Enabled(k, ops[0]) && AllEnabled(Apply(k, ops[0]), ops[1..]))
  }

  datatype Outcome = Recovered | Abandoned | Errored

  /** One pending transaction: its program runs, or an error leaves the transaction. */
  function RecoverOne(k: Disk, x: DirName): (Disk, Outcome)
    requires x.Pending? && x in k.root
  {
    match RecoveryChoice(k, x)
    case None => (k, Errored)
    case Some(p) =>
      (RunOps(k, Ops(p)),
       if !AllEnabled(k, Ops(p)) then Errored else if p.Cleanup? then Abandoned else Recovered)
  }

  datatype Result = Result(recovered: nat, abandoned: nat, errors: seq<DirName>)

  function Count(r: Result, x: DirName, o: Outcome): Result {
    match o
    case Recovered => r.(recovered := r.recovered + 1)
    case Abandoned => r.(abandoned := r.abandoned + 1)
    case Errored => r.(errors := r.errors + [x])
  }

  function RecoverPass(k: Disk, queue: seq<DirName>, r: Result): (Disk, Result)
    decreases |queue|
  {
    if queue == [] then (k, r)
    else if !queue[0].Pending? || queue[0] !in k.root then RecoverPass(k, queue[1..], r)
    else
      var (k', o) := RecoverOne(k, queue[0]);
      RecoverPass(k', queue[1..], Count(r, queue[0], o))
  }

  const NOTHING := Result(0, 0, [])

  /** Unique transaction ids, each naming a directory of its own. */
  ghost predicate Shelf(k: Disk) {
    Injective(k.root) && forall x :: x in k.root ==> k.root[x] in k.dirs
  }

  /** What a recovery program changes: its directory, and its pending name gives way to at
      most one other name with the same id. */
  ghost predicate RecoveredTo(k: Disk, k': Disk, x: DirName)
    requires x in k.root
  {
    && k'.src == k.src && k'.srcSyn == k.srcSyn
    && k'.dirs.Keys == k.dirs.Keys
    && (forall d :: d in k.dirs && d != k.root[x] ==> k'.dirs[d] == k.dirs[d])
    && x !in k'.root
    && (forall y :: y in k.root && y != x ==> y in k'.root && k'.root[y] == k.root[y])
    && (forall y :: y in k'.root && y !in k.root ==> y.id == x.id && !y.Pending? && k'.root[y] == k.root[x])
    && (forall y, z :: y in k'.root && y !in k.root && z in k'.root && z !in k.root ==> y == z)
  }

  /** The state of a recovery program at a program point, relative to where it started. */
  ghost predicate Midway(k0: Disk, k: Disk, p: Program, pc: nat) {
    && !p.Stage? && !p.Restore? && Shelf(k0) && Owns(k0, p.dir, p.id)
    && k.src == k0.src && k.srcSyn == k0.srcSyn && k.dirs.Keys == k0.dirs.Keys
    && (forall d :: d in k0.dirs && d != p.dir ==> k.dirs[d] == k0.dirs[d])
    && (pc <= LastOwned(p) ==> k.root == k0.root)
    && (pc > LastOwned(p) ==> RecoveredTo(k0, k, Pending(p.id)))
    && (p.Cleanup? && pc <= 2 ==> OnlyMeta(Cur(k, p.dir)))
    && (p.Cleanup? && 1 <= pc <= 2 ==> Cur(k, p.dir) == NO_ENTRIES)
  }

  lemma MidwayOwned(k0: Disk, k: Disk, p: Program, pc: nat, op: Op)
    requires Midway(k0, k, p, pc) && pc < LastOwned(p)
    requires op == SyncRoot || ((op.Change? || op.SyncTx?) && op.dir == p.dir)
    requires p.Cleanup? ==> op == (if pc == 0 then Change(p.dir, UnlinkMeta) else SyncTx(p.dir))
    ensures Enabled(k, op) && Midway(k0, Apply(k, op), p, pc + 1)
  {
  }

  lemma MidwayLast(k0: Disk, k: Disk, p: Program, pc: nat, op: Op)
    requires Midway(k0, k, p, pc) && pc == LastOwned(p)
    requires
      if p.Cleanup? then op == RemoveTx(Pending(p.id))
      else op.RenameTx? && op.from == Pending(p.id) && op.to.id == p.id && !op.to.Pending?
    ensures Enabled(k, op) && Midway(k0, Apply(k, op), p, pc + 1)
  {
  }

  lemma RecoveryOps(p: Program, pc: nat)
    requires pc < |Ops(p)| && !p.Stage? && !p.Restore?
    ensures var op := Ops(p)[pc];
      && |Ops(p)| == LastOwned(p) + 2
      && (pc < LastOwned(p) ==> op == SyncRoot || ((op.Change? || op.SyncTx?) && op.dir == p.dir))
      && (p.Cleanup? && pc < 2 ==> op == (if pc == 0 then Change(p.dir, UnlinkMeta) else SyncTx(p.dir)))
      && (pc == LastOwned(p) ==>
            if p.Cleanup? then op == RemoveTx(Pending(p.id))
            else op.RenameTx? && op.from == Pending(p.id) && op.to.id == p.id && !op.to.Pending?)
      && (pc > LastOwned(p) ==> op == SyncRoot)
  {
    if p.Finalize? { FinalizeOp(p, pc); }
  }

  lemma {:induction false} ProgramCompletes(k0: Disk, k: Disk, p: Program, pc: nat)
    requires Midway(k0, k, p, pc) && pc <= |Ops(p)|
    ensures AllEnabled(k, Ops(p)[pc..])
    ensures Midway(k0, RunOps(k, Ops(p)[pc..]), p, |Ops(p)|)
    decreases |Ops(p)| - pc
  {
    if pc < |Ops(p)| {
      MidwayStep(k0, k, p, pc);
      ProgramCompletes(k0, Apply(k, Ops(p)[pc]), p, pc + 1);
      FirstOp(k, Ops(p), pc);
    }
  }

  /** Running from `pc` on does the operation there and runs on. */
  lemma FirstOp(k: Disk, ops: seq<Op>, pc: nat)
    requires pc < |ops| && Enabled(k, ops[pc])
    ensures RunOps(k, ops[pc..]) == RunOps(Apply(k, ops[pc]), ops[pc + 1..])
    ensures AllEnabled(k, ops[pc..]) == AllEnabled(Apply(k, ops[pc]), ops[pc + 1..])
  {
    assert ops[pc..][1..] == ops[pc + 1..];
  }

  lemma MidwayStep(k0: Disk, k: Disk, p: Program, pc: nat)
    requires Midway(k0, k, p, pc) && pc < |Ops(p)|
    ensures Enabled(k, Ops(p)[pc]) && Midway(k0, Apply(k, Ops(p)[pc]), p, pc + 1)
  {
    RecoveryOps(p, pc);
    if pc < LastOwned(p) {
      MidwayOwned(k0, k, p, pc, Ops(p)[pc]);
    } else if pc == LastOwned(p) {
      MidwayLast(k0, k, p, pc, Ops(p)[pc]);
    }
  }

  lemma ShelfAfter(k: Disk, k': Disk, x: DirName)
    requires Shelf(k) && x in k.root && RecoveredTo(k, k', x)
    ensures Shelf(k')
  {
    forall y, z | y in k'.root && z in k'.root && (k'.root[y] == k'.root[z] || y.id == z.id)
      ensures y == z
    {
    }
  }

  /** With unique ids a chosen program always completes and clears its pending name. */
  lemma RecoverOneClears(k: Disk, x: DirName)
    requires Shelf(k) && x.Pending? && x in k.root && RecoveryChoice(k, x).Some?
    ensures AllEnabled(k, Ops(RecoveryChoice(k, x).value))
    ensures RecoveredTo(k, RecoverOne(k, x).0, x) && Shelf(RecoverOne(k, x).0)
  {
    var p := RecoveryChoice(k, x).value;
    assert Ops(p)[0..] == Ops(p);
    RecoveryOps(p, 0);
    ProgramCompletes(k, k, p, 0);
    ShelfAfter(k, RecoverOne(k, x).0, x);
  }

  /** Recovering one transaction does not change what recovery would do with another. */
  lemma ChoiceStays(k: Disk, k': Disk, x: DirName, y: DirName)
    requires Shelf(k) && x in k.root && RecoveredTo(k, k', x)
    requires y.Pending? && y in k.root && y != x
    ensures y in k'.root && RecoveryChoice(k', y) == RecoveryChoice(k, y)
  {
  }

  predicate Distinct(queue: seq<DirName>) {
    forall i, j :: 0 <= i < j < |queue| ==> queue[i] != queue[j]
  }

  /** The pending names a pass from `k` over `queue` reports as errors. */
  ghost predicate Stuck(k: Disk, x: DirName) {
    x.Pending? && x in k.root && RecoveryChoice(k, x).None?
  }

  /** What a pass does to names and choices. */
  lemma {:induction false} PassEffect(k: Disk, queue: seq<DirName>, r: Result)
    requires Shelf(k) && Distinct(queue)
    ensures var (k', r') := RecoverPass(k, queue, r);
      && Shelf(k') && k'.src == k.src
      && (forall y :: y in k'.root && y.Pending? ==> y in k.root && RecoveryChoice(k', y) == RecoveryChoice(k, y))
      && (forall y :: Stuck(k, y) ==> y in k'.root)
      && (forall y :: y in queue && y in k'.root && y.Pending? ==> Stuck(k, y))
      && (forall y :: y in r'.errors <==> y in r.errors || (y in queue && Stuck(k, y)))
    decreases |queue|
  {
    if queue == [] {
    } else {
      var x, rest := queue[0], queue[1..];
      if x.Pending? && x in k.root {
        var (k1, o) := RecoverOne(k, x);
        if RecoveryChoice(k, x).Some? {
          RecoverOneClears(k, x);
          forall y: DirName | y.Pending? && y in k1.root ensures y in k.root && y != x && RecoveryChoice(k1, y) == RecoveryChoice(k, y) {
            ChoiceStays(k, k1, x, y);
          }
          forall y: DirName | Stuck(k, y) ensures Stuck(k1, y) { ChoiceStays(k, k1, x, y); }
        }
        PassEffect(k1, rest, Count(r, x, o));
      } else {
        PassEffect(k, rest, r);
      }
      assert forall y :: y in queue <==> y == x || y in rest;
      assert x !in rest;
    }
  }

  /** A pass over stuck transactions changes nothing. */
  lemma {:induction false} StuckPass(k: Disk, queue: seq<DirName>, r: Result)
    requires forall y :: y in queue ==> Stuck(k, y)
    ensures RecoverPass(k, queue, r) == (k, r.(errors := r.errors + queue))
    decreases |queue|
  {
    if queue == [] {
      assert r.errors + queue == r.errors;
    } else {
      assert queue[0] in queue;
      StuckPass(k, queue[1..], Count(r, queue[0], Errored));
      assert r.errors + [queue[0]] + queue[1..] == r.errors + queue;
    }
  }

  /** Recovery converges: one full pass leaves pending exactly the transactions it reports as
      errors, and a second pass recovers nothing and leaves the disk as it is. */
  lemma RecoveryConverges(k: Disk, order: seq<DirName>, again: seq<DirName>)
    requires Shelf(k) && PendingNames(k, order) && Distinct(order)
    requires PendingNames(RecoverPass(k, order, NOTHING).0, again)
    ensures var (k', r) := RecoverPass(k, order, NOTHING);
      && (forall x :: x in r.errors <==> x.Pending? && x in k'.root)
      && RecoverPass(k', again, NOTHING) == (k', Result(0, 0, again))
  {
    PassEffect(k, order, NOTHING);
    var (k', r) := RecoverPass(k, order, NOTHING);
    forall y | y in again ensures Stuck(k', y) {
      assert y in k.root && y.Pending?;
      assert y in order;
    }
    StuckPass(k', again, NOTHING);
    assert [] + again == again;
  }

  /* ---- the pass is a run of the state machine ---- */

  function Works(n: nat): seq<Label> { seq(n, _ => Work(0)) }

  lemma {:induction false} RunThen(s: State, a: seq<Label>, b: seq<Label>)
    requires CanRun(s, a) && CanRun(Run(s, a), b)
    ensures CanRun(s, a + b) && Run(s, a + b) == Run(Run(s, a), b)
    decreases |a|
  {
    if a == [] {
      assert a + b == b;
    } else {
      RunThen(Step(s, a[0]), a[1..], b);
      assert (a + b)[1..] == a[1..] + b;
    }
  }

  /** A recovery program executed operation by operation has the effect of `RunOps`. */
  lemma {:induction false} WorkThrough(s: State) returns (n: nat)
    requires s.worker.Running? && !s.worker.next.Inspecting? && s.worker.pc < |Ops(s.worker.prog)|
    requires !s.worker.prog.Stage? && !s.worker.prog.Restore?
    ensures CanRun(s, Works(n))
    ensures Run(s, Works(n))
      == State(RunOps(s.disk, Ops(s.worker.prog)[s.worker.pc..]), Deciding(s.worker.next), s.ledger)
    decreases |Ops(s.worker.prog)| - s.worker.pc
  {
    var Running(p, pc, next) := s.worker;
    var s' := Execute(s);
    RecoveryOps(p, pc);
    assert Ops(p)[pc..][1..] == Ops(p)[pc + 1..];
    if s'.worker.Running? {
      var m := WorkThrough(s');
      n := m + 1;
      assert Works(n)[1..] == Works(m);
    } else {
      n := 1;
      assert Works(1)[1..] == [];
      assert Run(s, Works(1)) == Run(s', []);
    }
  }

  /** Recovering one queued transaction. */
  lemma OneIsARun(s: State) returns (m: nat)
    requires s.worker.Deciding? && s.worker.task.Recovering? && s.worker.task.queue != []
    ensures CanRun(s, Works(m))
    ensures var queue := s.worker.task.queue;
      Run(s, Works(m)) == State(AfterOne(s.disk, queue[0]), Deciding(Recovering(queue[1..])), s.ledger)
  {
    var s1 := Decide(s, 0);
    assert Works(1)[1..] == [];
    assert CanRun(s, Works(1)) && Run(s, Works(1)) == Run(s1, []) == s1;
    m := 1;
    if s1.worker.Running? {
      assert Ops(s1.worker.prog)[0..] == Ops(s1.worker.prog);
      var j := WorkThrough(s1);
      RunThen(s, Works(1), Works(j));
      assert Works(1) + Works(j) == Works(1 + j);
      m := 1 + j;
    }
  }

  function AfterOne(k: Disk, x: DirName): Disk { if x.Pending? && x in k.root then RecoverOne(k, x).0 else k }

  /** The sequential pass is what the machine's worker does when nothing interferes, so every
      invariant of the machine holds for it. */
  lemma {:induction false} PassIsARun(s: State, r: Result) returns (n: nat)
    requires s.worker.Deciding? && s.worker.task.Recovering?
    ensures CanRun(s, Works(n))
    ensures Run(s, Works(n)) == State(RecoverPass(s.disk, s.worker.task.queue, r).0, Deciding(Recovering([])), s.ledger)
    decreases |s.worker.task.queue|
  {
    var queue := s.worker.task.queue;
    if queue == [] {
      n := 0;
    } else {
      var m := OneIsARun(s);
      var x := queue[0];
      var r' := if x.Pending? && x in s.disk.root then Count(r, x, RecoverOne(s.disk, x).1) else r;
      var j := PassIsARun(Run(s, Works(m)), r');
      RunThen(s, Works(m), Works(j));
      assert Works(m) + Works(j) == Works(m + j);
      n := m + j;
    }
  }
}
