/** What recovery makes of each interrupted quarantine transaction, in terms of what its directory
    holds (src/bureau/closure_observer.py). */
module QuarantineOutcomes {
  import opened Prelude
  import opened EvidenceDisk
  import opened QuarantineProtocol
  import opened QuarantineSafety
  import opened QuarantineRuns
  import opened QuarantineRecovery

  /* ---- where the programs end ---- */

  /** A finalize program ends with an item bound, in both views, to the payload it froze. */
  lemma {:induction false} FinalizeBinds(k0: Disk, k: Disk, p: Program, pc: nat)
    requires p.Finalize? && pc <= LastOwned(p) && Midway(k0, k, p, pc) && PointFits(k, {}, p, pc)
    ensures Finalized(RunOps(k, Ops(p)[pc..]), p)
    decreases LastOwned(p) - pc
  {
    if pc < LastOwned(p) {
      RecoveryOps(p, pc);
      assert Ops(p)[pc..][1..] == Ops(p)[pc + 1..];
      MidwayOwned(k0, k, p, pc, Ops(p)[pc]);
      PointAdvances(k, {}, p, pc);
      FinalizeBinds(k0, Apply(k, Ops(p)[pc]), p, pc + 1);
    } else {
      FinalizeEnd(k0, k, p);
    }
  }

  ghost predicate Finalized(k: Disk, p: Program)
    requires p.Finalize?
  {
    var x := ItemName(p.id, p.source, p.bytes);
    && x in k.root && k.root[x] == p.dir && k.rootSyn == k.root
    && BoundTo(Cur(k, p.dir), x.digest) && BoundTo(Syn(k, p.dir), x.digest) && Holds(Cur(k, p.dir), p.bytes)
    && Cur(k, p.dir).manifest == Some(Valid(BoundManifest(p.source, p.runId, Cur(k, p.dir).payload.value)))
    && Syn(k, p.dir).payload == Cur(k, p.dir).payload && Syn(k, p.dir).manifest == Cur(k, p.dir).manifest
  }

  lemma FinalizeEnd(k0: Disk, k: Disk, p: Program)
    requires p.Finalize? && Midway(k0, k, p, LastOwned(p)) && PointFits(k, {}, p, LastOwned(p))
    ensures Finalized(RunOps(k, Ops(p)[LastOwned(p)..]), p)
  {
    var pc := LastOwned(p);
    RecoveryOps(p, pc);
    RecoveryOps(p, pc + 1);
    FinalizeOp(p, pc);
    FinalizeOp(p, pc + 1);
    MidwayLast(k0, k, p, pc, Ops(p)[pc]);
    LastTwo(k, Ops(p), pc);
  }

  /** Running the last two operations. */
  lemma LastTwo(k: Disk, ops: seq<Op>, pc: nat)
    requires |ops| == pc + 2 && Enabled(k, ops[pc]) && Enabled(Apply(k, ops[pc]), ops[pc + 1])
    ensures RunOps(k, ops[pc..]) == Apply(Apply(k, ops[pc]), ops[pc + 1])
  {
    assert ops[pc..] == [ops[pc], ops[pc + 1]];
    assert ops[pc..][1..] == [ops[pc + 1]] && [ops[pc + 1]][1..] == [];
    assert RunOps(Apply(k, ops[pc]), [ops[pc + 1]]) == Apply(Apply(k, ops[pc]), ops[pc + 1]);
  }

  /** A preserve program ends with the payload and manifest, as they were, beside a preservation
      receipt, under a durable preserved name. */
  lemma {:induction false} PreserveKeepsPayload(k0: Disk, k: Disk, p: Program, pc: nat, f: File, m: Option<ManifestFile>)
    requires p.Preserve? && pc <= 6 && Midway(k0, k, p, pc) && Holding(Cur(k, p.dir), f, m, pc >= 2)
    requires pc >= 3 ==> Holding(Syn(k, p.dir), f, m, true)
    ensures PreservedAs(RunOps(k, Ops(p)[pc..]), p, f, m)
    decreases 6 - pc
  {
    if pc < 6 {
      MidwayStep(k0, k, p, pc);
      PreserveStep(k, p, pc, f, m);
      PreserveKeepsPayload(k0, Apply(k, Ops(p)[pc]), p, pc + 1, f, m);
      FirstOp(k, Ops(p), pc);
    } else {
      PreserveEnd(k0, k, p, f, m);
    }
  }

  lemma PreserveStep(k: Disk, p: Program, pc: nat, f: File, m: Option<ManifestFile>)
    requires p.Preserve? && pc < 6 && Enabled(k, Ops(p)[pc]) && Holding(Cur(k, p.dir), f, m, pc >= 2)
    requires pc >= 3 ==> Holding(Syn(k, p.dir), f, m, true)
    ensures var k' := Apply(k, Ops(p)[pc]); Holding(Cur(k', p.dir), f, m, pc >= 1) && (pc >= 2 ==> Holding(Syn(k', p.dir), f, m, true))
  {
  }

  predicate Holding(e: Entries, f: File, m: Option<ManifestFile>, receipt: bool) {
    e.payload == Some(f) && e.manifest == m && (receipt ==> e.receipt == Some(ReceiptFile.Kept))
  }

  ghost predicate PreservedAs(k: Disk, p: Program, f: File, m: Option<ManifestFile>)
    requires p.Preserve?
  {
    var x := Preserved(p.id);
    && x in k.root && k.root[x] == p.dir && k.rootSyn == k.root
    && Holding(Cur(k, p.dir), f, m, true) && Holding(Syn(k, p.dir), f, m, true)
  }

  lemma PreserveEnd(k0: Disk, k: Disk, p: Program, f: File, m: Option<ManifestFile>)
    requires p.Preserve? && Midway(k0, k, p, 6) && Holding(Cur(k, p.dir), f, m, true) && Holding(Syn(k, p.dir), f, m, true)
    ensures PreservedAs(RunOps(k, Ops(p)[6..]), p, f, m)
  {
    RecoveryOps(p, 6);
    MidwayLast(k0, k, p, 6, Ops(p)[6]);
    LastTwo(k, Ops(p), 6);
  }

  /** Adopting only renames. */
  lemma AdoptRenames(k: Disk, p: Program)
    requires p.Adopt? && Shelf(k) && Owns(k, p.dir, p.id)
    ensures var k', x := RunOps(k, Ops(p)), Preserved(p.id);
      x in k'.root && k'.root[x] == p.dir && k'.rootSyn == k'.root && k'.dirs == k.dirs
  {
    assert Ops(p)[0..] == Ops(p);
    RecoveryOps(p, 0);
    MidwayLast(k, k, p, 0, Ops(p)[0]);
    LastTwo(k, Ops(p), 0);
  }

  lemma {:induction false} CleanupRemoves(k0: Disk, k: Disk, p: Program, pc: nat)
    requires p.Cleanup? && pc <= 2 && Midway(k0, k, p, pc)
    ensures var k' := RunOps(k, Ops(p)[pc..]); k'.rootSyn == k'.root && k'.root == k0.root - {Pending(p.id)}
    decreases 2 - pc
  {
    RecoveryOps(p, pc);
    if pc < 2 {
      assert Ops(p)[pc..][1..] == Ops(p)[pc + 1..];
      MidwayOwned(k0, k, p, pc, Ops(p)[pc]);
      CleanupRemoves(k0, Apply(k, Ops(p)[pc]), p, pc + 1);
    } else {
      MidwayLast(k0, k, p, 2, Ops(p)[2]);
      LastTwo(k, Ops(p), 2);
    }
  }

  /* ---- what a pending transaction calls for ---- */

  datatype Fate = BecomesItem | IsPreserved | IsAdopted | IsRemoved | Stays

  predicate Described(e: Entries) { e.manifest.Some? && e.manifest.value.Valid? }

  /** A described payload becomes an item if it is readable evidence and is preserved as it is if not,
      or if its preservation was interrupted; a finished preservation is adopted. An entry that never
      got its payload is removed if its manifest was not written or its source is still there. Anything
      else stays for diagnosis. */
  function FateOf(e: Entries, sources: set<string>): Fate {
    if Described(e) && e.receipt.None? && e.payload.Some? && Readable(e.payload.value) then BecomesItem
    else if Described(e) && e.receipt.None? && e.payload.Some? then IsPreserved
    else if Described(e) && e.receipt == Some(Unreadable) && e.payload.Some? then IsPreserved
    else if Described(e) && e.receipt == Some(ReceiptFile.Kept) then IsAdopted
    else if e.receipt.None? && e.payload.None? && e.temps <= {ManifestTmp}
            && (e.manifest.None? || (Described(e) && e.manifest.value.manifest.sourceName in sources)) then IsRemoved
    else Stays
  }

  function FateIn(k: Disk, x: DirName): Fate
    requires x in k.root
  {
    FateOf(Cur(k, k.root[x]), k.src.Keys)
  }

  /** In both views the directory holds evidence `b` with a manifest of source name and run id `m`,
      bound to exactly the file it lies beside. */
  predicate ItemOf(e: Entries, b: Bytes, m: Manifest) {
    e.payload.Some? && e.payload.value.bytes == b
    && e.manifest == Some(Valid(Manifest(m.sourceName, m.runId, Sha256(b), e.payload.value.ino)))
  }

  ghost predicate NamedAs(k: Disk, d: nat, y: DirName) {
    y in k.root && k.root[y] == d && k.rootSyn == k.root && forall z :: z in k.root && k.root[z] == d ==> z == y
  }

  /** How the transaction `x` of disk `k` ends on disk `k'`. */
  ghost predicate Ends(k: Disk, x: DirName, k': Disk)
    requires x in k.root
  {
    var d, e := k.root[x], Cur(k, k.root[x]);
    match FateIn(k, x)
    case BecomesItem =>
      var m, b := e.manifest.value.manifest, e.payload.value.bytes;
      NamedAs(k', d, Item(Sha256(m.sourceName), Sha256(b), x.id)) && ItemOf(Cur(k', d), b, m) && ItemOf(Syn(k', d), b, m)
    case IsPreserved =>
      NamedAs(k', d, Preserved(x.id)) && Holding(Cur(k', d), e.payload.value, e.manifest, true) && Holding(Syn(k', d), e.payload.value, e.manifest, true)
    case IsAdopted => NamedAs(k', d, Preserved(x.id)) && Cur(k', d) == e && Syn(k', d) == Syn(k, d)
    case IsRemoved => k'.rootSyn == k'.root && forall z :: z in k'.root ==> k'.root[z] != d
    case Stays => x in k'.root && k'.root[x] == d && Cur(k', d) == e && Syn(k', d) == Syn(k, d)
  }

  /* ---- one transaction ---- */

  lemma ChoiceFollowsFate(k: Disk, x: DirName)
    requires x.Pending? && x in k.root
    ensures var fate, choice, d := FateIn(k, x), RecoveryChoice(k, x), k.root[x]; var e := Cur(k, d);
      && (fate.Stays? <==> choice.None?)
      && (fate.BecomesItem? ==>
           && choice.Some? && choice.value.Finalize? && choice.value.dir == d && choice.value.id == x.id
           && choice.value.source == e.manifest.value.manifest.sourceName && choice.value.runId == e.manifest.value.manifest.runId
           && choice.value.bytes == e.payload.value.bytes)
      && (fate.IsPreserved? ==> choice == Some(Preserve(d, x.id)))
      && (fate.IsAdopted? ==> choice == Some(Adopt(d, x.id)))
      && (fate.IsRemoved? ==> choice == Some(Cleanup(d, x.id)))
  {
  }

  lemma OnlyName(k: Disk, k': Disk, x: DirName, y: DirName)
    requires Shelf(k) && x in k.root && RecoveredTo(k, k', x) && y in k'.root && k'.root[y] == k.root[x] && k'.rootSyn == k'.root
    ensures NamedAs(k', k.root[x], y)
  {
    forall z | z in k'.root && k'.root[z] == k.root[x] ensures z == y {
      assert z !in k.root && y !in k.root;
    }
  }

  lemma FinalizeEnds(k: Disk, x: DirName)
    requires Shelf(k) && x.Pending? && x in k.root && FateIn(k, x).BecomesItem?
    ensures Ends(k, x, RecoverOne(k, x).0)
  {
    ChoiceFollowsFate(k, x);
    RecoverOneClears(k, x);
    var p, k' := RecoveryChoice(k, x).value, RecoverOne(k, x).0;
    assert Ops(p)[0..] == Ops(p);
    FinalizeBinds(k, k, p, 0);
    OnlyName(k, k', x, ItemName(p.id, p.source, p.bytes));
  }

  lemma PreserveEnds(k: Disk, x: DirName)
    requires Shelf(k) && x.Pending? && x in k.root && FateIn(k, x).IsPreserved?
    ensures Ends(k, x, RecoverOne(k, x).0)
  {
    ChoiceFollowsFate(k, x);
    RecoverOneClears(k, x);
    var p, k', e := Preserve(k.root[x], x.id), RecoverOne(k, x).0, Cur(k, k.root[x]);
    assert Ops(p)[0..] == Ops(p);
    PreserveKeepsPayload(k, k, p, 0, e.payload.value, e.manifest);
    OnlyName(k, k', x, Preserved(x.id));
  }

  lemma AdoptEnds(k: Disk, x: DirName)
    requires Shelf(k) && x.Pending? && x in k.root && FateIn(k, x).IsAdopted?
    ensures Ends(k, x, RecoverOne(k, x).0)
  {
    ChoiceFollowsFate(k, x);
    RecoverOneClears(k, x);
    AdoptRenames(k, Adopt(k.root[x], x.id));
    OnlyName(k, RecoverOne(k, x).0, x, Preserved(x.id));
  }

  lemma CleanupEnds(k: Disk, x: DirName)
    requires Shelf(k) && x.Pending? && x in k.root && FateIn(k, x).IsRemoved?
    ensures Ends(k, x, RecoverOne(k, x).0)
  {
    ChoiceFollowsFate(k, x);
    var p := Cleanup(k.root[x], x.id);
    assert Ops(p)[0..] == Ops(p);
    CleanupRemoves(k, k, p, 0);
  }

  function OutcomeFor(fate: Fate): Outcome {
    if fate.Stays? then Errored else if fate.IsRemoved? then Abandoned else Recovered
  }

  /** One transaction ends as what it holds calls for, and is counted so. */
  lemma OneEnds(k: Disk, x: DirName)
    requires Shelf(k) && x.Pending? && x in k.root
    ensures Ends(k, x, RecoverOne(k, x).0) && RecoverOne(k, x).1 == OutcomeFor(FateIn(k, x))
    ensures !FateIn(k, x).Stays? ==> RecoverOne(k, x).0.rootSyn == RecoverOne(k, x).0.root
  {
    ChoiceFollowsFate(k, x);
    if RecoveryChoice(k, x).Some? { RecoverOneClears(k, x); }
    match FateIn(k, x)
    case BecomesItem => FinalizeEnds(k, x);
    case IsPreserved => PreserveEnds(k, x);
    case IsAdopted => AdoptEnds(k, x);
    case IsRemoved => CleanupEnds(k, x);
    case Stays =>
  }

  /* ---- the whole pass ---- */

  /** The directory, its names, and that the names are durable, are as before. */
  ghost predicate Untouched(k: Disk, k': Disk, d: nat) {
    && k'.src == k.src && Cur(k', d) == Cur(k, d) && Syn(k', d) == Syn(k, d)
    && (forall y :: y in k.root && k.root[y] == d ==> y in k'.root && k'.root[y] == d)
    && (forall y :: y in k'.root && k'.root[y] == d ==> y in k.root && k.root[y] == d)
    && (k.rootSyn == k.root ==> k'.rootSyn == k'.root)
  }

  lemma OneLeaves(k: Disk, x: DirName, d: nat)
    requires Shelf(k) && x.Pending? && x in k.root && k.root[x] != d
    ensures var k' := RecoverOne(k, x).0; Shelf(k') && Untouched(k, k', d)
  {
    OneEnds(k, x);
    ChoiceFollowsFate(k, x);
    if RecoveryChoice(k, x).Some? { RecoverOneClears(k, x); }
  }

  /** Recovering one transaction leaves the pending names of the others. */
  lemma OthersStayPending(k: Disk, x: DirName, y: DirName)
    requires Shelf(k) && x.Pending? && x in k.root && y.Pending? && y in RecoverOne(k, x).0.root
    ensures y in k.root && RecoverOne(k, x).0.root[y] == k.root[y]
  {
    ChoiceFollowsFate(k, x);
    if RecoveryChoice(k, x).Some? { RecoverOneClears(k, x); }
  }

  lemma {:induction false} PassLeaves(k: Disk, queue: seq<DirName>, r: Result, d: nat)
    requires Shelf(k) && forall y :: y in queue && y.Pending? && y in k.root ==> k.root[y] != d
    ensures Untouched(k, RecoverPass(k, queue, r).0, d)
    decreases |queue|
  {
    if queue != [] {
      var x := queue[0];
      if x.Pending? && x in k.root {
        var (k1, o) := RecoverOne(k, x);
        OneLeaves(k, x, d);
        forall y | y in queue[1..] && y.Pending? && y in k1.root ensures k1.root[y] != d { OthersStayPending(k, x, y); }
        PassLeaves(k1, queue[1..], Count(r, x, o), d);
      } else {
        PassLeaves(k, queue[1..], r, d);
      }
    }
  }

  lemma EndsStays(k: Disk, x: DirName, k1: Disk, k2: Disk)
    requires x in k.root && Ends(k, x, k1) && Untouched(k1, k2, k.root[x])
    ensures Ends(k, x, k2)
  {
  }

  lemma EndsFrom(k: Disk, k1: Disk, y: DirName, k2: Disk)
    requires y in k.root && Untouched(k, k1, k.root[y]) && y in k1.root && k1.root[y] == k.root[y] && Ends(k1, y, k2)
    ensures Ends(k, y, k2) && FateIn(k1, y) == FateIn(k, y)
  {
  }

  /** How many transactions of the queue are counted this way. */
  ghost function HowMany(k: Disk, queue: seq<DirName>, o: Outcome): nat {
    if queue == [] then 0
    else HowMany(k, queue[1..], o) + if queue[0] in k.root && OutcomeFor(FateIn(k, queue[0])) == o then 1 else 0
  }

  lemma {:induction false} SameCounts(k: Disk, k1: Disk, queue: seq<DirName>, o: Outcome)
    requires forall y :: y in queue ==> y in k.root && y in k1.root && FateIn(k1, y) == FateIn(k, y)
    ensures HowMany(k1, queue, o) == HowMany(k, queue, o)
  {
    if queue != [] {
      assert queue[0] in queue;
      SameCounts(k, k1, queue[1..], o);
    }
  }

  ghost predicate AllPending(k: Disk, queue: seq<DirName>) { forall y :: y in queue ==> y.Pending? && y in k.root }

  /** Recovering `x` leaves every other pending transaction as it was. */
  lemma OtherPending(k: Disk, x: DirName, y: DirName)
    requires Shelf(k) && x.Pending? && x in k.root && y.Pending? && y in k.root && y != x
    ensures var k1 := RecoverOne(k, x).0; Untouched(k, k1, k.root[y]) && y in k1.root && k1.root[y] == k.root[y] && FateIn(k1, y) == FateIn(k, y)
  {
    OneLeaves(k, x, k.root[y]);
  }

  lemma OneShelf(k: Disk, x: DirName)
    requires Shelf(k) && x.Pending? && x in k.root
    ensures Shelf(RecoverOne(k, x).0)
  {
    ChoiceFollowsFate(k, x);
    if RecoveryChoice(k, x).Some? { RecoverOneClears(k, x); }
  }

  /** Over a whole pass every pending transaction ends as what it held at the start calls for. */
  lemma {:induction false} PassEnds(k: Disk, queue: seq<DirName>, r: Result, x: DirName)
    requires Shelf(k) && Distinct(queue) && AllPending(k, queue) && x in queue
    ensures Ends(k, x, RecoverPass(k, queue, r).0)
    decreases |queue|
  {
    var q, rest := queue[0], queue[1..];
    assert q in queue;
    var (k1, o) := RecoverOne(k, q);
    OneShelf(k, q);
    forall y | y in rest ensures y.Pending? && y in k1.root && y in k.root && y != q { OtherPending(k, q, y); }
    if x == q {
      OneEnds(k, q);
      forall y | y in rest && y.Pending? && y in k1.root ensures k1.root[y] != k.root[q] { OtherPending(k, q, y); }
      PassLeaves(k1, rest, Count(r, q, o), k.root[q]);
      EndsStays(k, q, k1, RecoverPass(k, queue, r).0);
    } else {
      OtherPending(k, q, x);
      PassEnds(k1, rest, Count(r, q, o), x);
      EndsFrom(k, k1, x, RecoverPass(k, queue, r).0);
    }
  }

  /** The report counts the transactions by how they ended. */
  lemma {:induction false} PassCounts(k: Disk, queue: seq<DirName>, r: Result)
    requires Shelf(k) && Distinct(queue) && AllPending(k, queue)
    ensures var r' := RecoverPass(k, queue, r).1;
      && r'.recovered == r.recovered + HowMany(k, queue, Recovered)
      && r'.abandoned == r.abandoned + HowMany(k, queue, Abandoned)
      && |r'.errors| == |r.errors| + HowMany(k, queue, Errored)
    decreases |queue|
  {
    if queue != [] {
      var q, rest := queue[0], queue[1..];
      assert q in queue;
      var (k1, o) := RecoverOne(k, q);
      OneShelf(k, q);
      OneEnds(k, q);
      forall y | y in rest ensures y.Pending? && y in k1.root && y in k.root && FateIn(k1, y) == FateIn(k, y) { OtherPending(k, q, y); }
      PassCounts(k1, rest, Count(r, q, o));
      SameCounts(k, k1, rest, Recovered);
      SameCounts(k, k1, rest, Abandoned);
      SameCounts(k, k1, rest, Errored);
    }
  }

  /** The transactions reported as errors are exactly those that stay. */
  lemma ErrorsStay(k: Disk, queue: seq<DirName>, x: DirName)
    requires Shelf(k) && Distinct(queue) && AllPending(k, queue)
    ensures x in RecoverPass(k, queue, NOTHING).1.errors <==> x in queue && FateIn(k, x).Stays?
  {
    PassEffect(k, queue, NOTHING);
    if x in queue { ChoiceFollowsFate(k, x); }
  }

  /** What a pass does and reports: each pending transaction ends as it should, the counts tell how
      many were recovered and abandoned, and exactly those that stay are pending and reported. */
  ghost predicate AccountsFor(k: Disk, order: seq<DirName>, k': Disk, r: Result) {
    && (forall x :: x in order ==> x in k.root && Ends(k, x, k'))
    && r.recovered == HowMany(k, order, Recovered) && r.abandoned == HowMany(k, order, Abandoned)
    && (forall x :: x in r.errors <==> x in order && x in k.root && FateIn(k, x).Stays?)
    && (forall x :: x in r.errors <==> x.Pending? && x in k'.root)
  }

  lemma PassAccounts(k: Disk, order: seq<DirName>)
    requires Shelf(k) && PendingNames(k, order) && Distinct(order)
    ensures AccountsFor(k, order, RecoverPass(k, order, NOTHING).0, RecoverPass(k, order, NOTHING).1)
  {
    var (k', r) := RecoverPass(k, order, NOTHING);
    forall x | x in order ensures x in k.root && Ends(k, x, k') { PassEnds(k, order, NOTHING, x); }
    PassCounts(k, order, NOTHING);
    forall x ensures x in r.errors <==> x in order && x in k.root && FateIn(k, x).Stays? { ErrorsStay(k, order, x); }
    PassEffect(k, order, NOTHING);
  }

  /* ---- a staged entry, left alone ---- */

  /** The worker has staged entry `n` and is about to look at what it moved. */
  ghost predicate LooksAt(s: State, f: File) {
    s.worker.Deciding? && s.worker.task.Inspecting?
    && var t := s.worker.task; Shelf(s.disk) && Owns(s.disk, t.dir, t.id) && Cur(s.disk, t.dir).payload == Some(f)
  }

  /** What was moved is what was read: same inode, same bytes. */
  predicate Unraced(t: Task, f: File)
    requires t.Inspecting?
  {
    f.ino == t.read.ino && f.bytes == t.read.bytes
  }

  /** Evidence that was not exchanged becomes an item of its name and run; what was exchanged goes back
      to its source name if that is free, and otherwise becomes an item of its own bytes, or is
      preserved if it is no readable evidence. */
  ghost predicate Settles(s: State, f: File, k': Disk)
    requires LooksAt(s, f)
  {
    var t, k := s.worker.task, s.disk;
    var m, item := Manifest(t.name, t.runId, Sha256(f.bytes), f.ino), Item(Sha256(t.name), Sha256(f.bytes), t.id);
    if Readable(f) && (Unraced(t, f) || t.name in k.src)
    then NamedAs(k', t.dir, item) && ItemOf(Cur(k', t.dir), f.bytes, m) && ItemOf(Syn(k', t.dir), f.bytes, m) && k'.src == k.src
    else if t.name in k.src
    then NamedAs(k', t.dir, Preserved(t.id)) && Holding(Cur(k', t.dir), f, Cur(k, t.dir).manifest, true)
         && Holding(Syn(k', t.dir), f, Cur(k, t.dir).manifest, true) && k'.src == k.src
    else k'.src == k.src[t.name := f] == k'.srcSyn && Cur(k', t.dir).payload.None? && Syn(k', t.dir).payload.None? && k'.root == k.root
  }

  lemma LeftAloneItSettles(s: State, f: File) returns (n: nat)
    requires LooksAt(s, f)
    ensures CanRun(s, Works(n)) && Settles(s, f, Run(s, Works(n)).disk)
    ensures Run(s, Works(n)).worker == Deciding(Quarantining(s.worker.task.rest))
  {
    var t, k := s.worker.task, s.disk;
    var s1 := Decide(s, 0);
    assert Works(1)[1..] == [];
    assert CanRun(s, Works(1)) && Run(s, Works(1)) == Run(s1, []) == s1;
    var j;
    if s1.worker.prog.Restore? {
      j := RestoreRuns(s1);
    } else {
      j := WorkThrough(s1);
      SettledEnd(s, f, s1.worker.prog);
    }
    RunThen(s, Works(1), Works(j));
    assert Works(1) + Works(j) == Works(1 + j);
    n := 1 + j;
  }

  lemma SettledEnd(s: State, f: File, p: Program)
    requires LooksAt(s, f) && Decide(s, 0).worker == Running(p, 0, Quarantining(s.worker.task.rest)) && !p.Restore?
    ensures Decide(s, 0).disk == s.disk && !p.Stage? && |Ops(p)| > 0
    ensures Settles(s, f, RunOps(s.disk, Ops(p)[0..]))
  {
    var t, k := s.worker.task, s.disk;
    var x := Pending(t.id);
    assert Ops(p)[0..] == Ops(p);
    RecoveryOps(p, 0);
    ProgramCompletes(k, k, p, 0);
    var k' := RunOps(k, Ops(p));
    if p.Finalize? {
      FinalizeBinds(k, k, p, 0);
      OnlyName(k, k', x, ItemName(p.id, p.source, p.bytes));
    } else {
      PreserveKeepsPayload(k, k, p, 0, f, Cur(k, t.dir).manifest);
      OnlyName(k, k', x, Preserved(t.id));
    }
  }

  lemma RestoreRuns(s: State) returns (j: nat)
    requires s.worker.Running? && s.worker.prog.Restore? && s.worker.pc == 0 && s.worker.next.Quarantining? && s.worker.prog.dir in s.disk.dirs
    ensures CanRun(s, Works(j)) && Run(s, Works(j)).worker == Deciding(s.worker.next)
    ensures var k, k', d := s.disk, Run(s, Works(j)).disk, s.worker.prog.dir;
      k'.src == k.src == k'.srcSyn && k'.root == k.root && Cur(k', d).payload.None? && Syn(k', d).payload.None?
  {
    var s1 := Execute(s);
    var s2 := Execute(s1);
    var s3 := Execute(s2);
    j := 3;
    assert Works(3)[1..] == Works(2) && Works(2)[1..] == Works(1) && Works(1)[1..] == [];
    assert Run(s2, Works(1)) == Run(s3, []) == s3;
    assert CanRun(s2, Works(1));
    assert Run(s1, Works(2)) == Run(s2, Works(1)) && CanRun(s1, Works(2));
    assert Run(s, Works(3)) == Run(s1, Works(2)) && CanRun(s, Works(3));
  }

  /* ---- an entry that vanished before the move ---- */

  /** The worker is about to move entry `n` into its registered transaction, but the entry is gone. */
  ghost predicate MovesNothing(s: State) {
    s.worker.Running? && s.worker.prog.Stage? && s.worker.pc == 4 && s.worker.next.Inspecting?
    && var p := s.worker.prog; p.name !in s.disk.src && Shelf(s.disk) && Owns(s.disk, p.dir, p.id) && OnlyMeta(Cur(s.disk, p.dir))
  }

  /** Left alone, the failed move takes its transaction away again and the pass goes on. */
  lemma FailedMoveCleansUp(s: State) returns (n: nat)
    requires MovesNothing(s)
    ensures CanRun(s, Works(n)) && Run(s, Works(n)).worker == Deciding(Quarantining(s.worker.next.rest))
    ensures var k, k' := s.disk, Run(s, Works(n)).disk;
      k'.root == k.root - {Pending(s.worker.prog.id)} && k'.rootSyn == k'.root && k'.src == k.src
  {
    var p, k := s.worker.prog, s.disk;
    var s1, clean := Execute(s), Cleanup(p.dir, p.id);
    assert s1 == s.(worker := Running(clean, 0, Quarantining(s.worker.next.rest)));
    assert Works(1)[1..] == [];
    assert CanRun(s, Works(1)) && Run(s, Works(1)) == Run(s1, []) == s1;
    var j := WorkThrough(s1);
    assert Ops(clean)[0..] == Ops(clean);
    CleanupRemoves(k, k, clean, 0);
    ProgramCompletes(k, k, clean, 0);
    RunThen(s, Works(1), Works(j));
    assert Works(1) + Works(j) == Works(1 + j);
    n := 1 + j;
  }
}
