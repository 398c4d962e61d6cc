/** What every step of the quarantine protocol keeps, and what follows for whole runs. */
module QuarantineSafety {
  import opened Prelude
  import opened EvidenceDisk
  import opened QuarantineProtocol

  /* ---- invariants of the disk ---- */

  ghost predicate Injective(names: map<DirName, nat>) {
    && (forall x, y :: x in names && y in names && names[x] == names[y] ==> x == y)
    && (forall x, y :: x in names && y in names && x.id == y.id ==> x == y)
  }

  ghost predicate WellFormed(k: Disk) {
    && (forall d :: d in k.dirs ==> d < k.nextDir)
    && (forall x :: x in k.root ==> k.root[x] in k.dirs)
    && (forall x :: x in k.rootSyn ==> k.rootSyn[x] in k.dirs)
    && Injective(k.root) && Injective(k.rootSyn)
  }

  /** The bytes are in a transaction directory whose name survives a crash. */
  ghost predicate StagedNow(k: Disk, b: Bytes) {
    exists x :: x in k.rootSyn && Holds(Cur(k, k.rootSyn[x]), b)
  }

  ghost predicate StagedDurably(k: Disk, b: Bytes) {
    exists x :: x in k.rootSyn && Holds(Cur(k, k.rootSyn[x]), b) && Holds(Syn(k, k.rootSyn[x]), b)
  }

  /** Every piece of evidence answered for is linked now, and is linked durably. */
  ghost predicate EvidenceKept(k: Disk, ledger: set<Bytes>) {
    && (forall b :: b in ledger ==> InSource(k.src, b) || StagedNow(k, b))
    && (forall b :: b in ledger ==> InSource(k.srcSyn, b) || StagedDurably(k, b))
  }

  ghost predicate Named(names: map<DirName, nat>, d: nat) {
    exists x :: x in names && names[x] == d
  }

  /** A directory with a payload in either view has a current and a durable name. */
  ghost predicate PayloadsNamed(k: Disk) {
    forall d :: d in k.dirs && (k.dirs[d].cur.payload.Some? || k.dirs[d].syn.payload.Some?)
      ==> Named(k.root, d) && Named(k.rootSyn, d)
  }

  predicate ManifestBeside(e: Entries) {
    e.payload.Some? ==> e.manifest.Some?
  }

  /** A staged payload always has a manifest beside it, in both views. */
  ghost predicate Paired(k: Disk) {
    forall d :: d in k.dirs ==> ManifestBeside(k.dirs[d].cur) && ManifestBeside(k.dirs[d].syn)
  }

  /** The directory holds a payload, and its manifest names that payload's digest and inode. */
  predicate BoundTo(e: Entries, digest: Digest<Bytes>) {
    && e.payload.Some? && e.manifest.Some? && e.manifest.value.Valid?
    && e.manifest.value.manifest.digest == digest == Sha256(e.payload.value.bytes)
    && e.manifest.value.manifest.ino == e.payload.value.ino
  }

  ghost predicate ItemsBound(k: Disk) {
    && (forall x :: x in k.root && x.Item? ==> BoundTo(Cur(k, k.root[x]), x.digest) && BoundTo(Syn(k, k.root[x]), x.digest))
    && (forall x :: x in k.rootSyn && x.Item? ==> x in k.root && k.root[x] == k.rootSyn[x])
  }

  ghost predicate Sound(k: Disk, ledger: set<Bytes>) {
    WellFormed(k) && EvidenceKept(k, ledger) && PayloadsNamed(k) && Paired(k) && ItemsBound(k)
  }

  /* ---- single operations ---- */

  ghost predicate NotItem(k: Disk, d: nat) {
    forall x :: x in k.root && k.root[x] == d ==> x.Pending?
  }

  /** The edit keeps the payload bytes, keeps a manifest beside them, and leaves items alone. */
  ghost predicate GentleEdit(k: Disk, ledger: set<Bytes>, d: nat, edit: Edit) {
    match edit
    case PutFrozen(b) => NotItem(k, d) && Holds(Cur(k, d), b)
    case PutManifest(_) => NotItem(k, d)
    case Rebind(_, _) => NotItem(k, d)
    case UnlinkMeta => NotItem(k, d) && Cur(k, d).payload.None?
    case DropPayload =>
      NotItem(k, d) &&
      (forall b :: b in ledger && Holds(Cur(k, d), b) ==> InSource(k.src, b) && InSource(k.srcSyn, b))
    case _ => true
  }

  /** When an operation keeps the invariants: the order the protocol has to respect. */
  ghost predicate Guard(k: Disk, ledger: set<Bytes>, op: Op) {
    match op
    case Change(d, edit) => GentleEdit(k, ledger, d, edit)
    case Move(n, d) =>
      && Named(k.root, d) && Named(k.rootSyn, d) && NotItem(k, d)
      && Cur(k, d).payload.None? && Cur(k, d).manifest.Some?
    case SyncSource => NoUnsyncedStage(k)
    case RenameTx(from, to) =>
      && from.Pending? && !to.Pending? && to.id == from.id && from in k.root
      && (to.Item? ==> BoundTo(Cur(k, k.root[from]), to.digest) && BoundTo(Syn(k, k.root[from]), to.digest))
    case RemoveTx(x) => x.Pending? && x in k.root && Syn(k, k.root[x]).payload.None?
    case _ => true
  }

  function LedgerAfter(k: Disk, ledger: set<Bytes>, op: Op): set<Bytes> {
    if op.SyncSource? then ledger + Contents(k.src) else ledger
  }

  /** The disks differ at most in one directory, in the inode counter and in the source. */
  predicate SameBut(k: Disk, k': Disk, d: nat) {
    && k'.root == k.root && k'.rootSyn == k.rootSyn && k'.nextDir == k.nextDir
    && d in k.dirs && k'.dirs == k.dirs[d := Dir(k', d)]
  }

  function Dir(k: Disk, d: nat): TxDir { TxDir(Cur(k, d), Syn(k, d)) }

  lemma LocalFrame(k: Disk, k': Disk, d: nat)
    requires SameBut(k, k', d)
    ensures forall c :: c != d ==> Cur(k', c) == Cur(k, c) && Syn(k', c) == Syn(k, c)
    ensures WellFormed(k) ==> WellFormed(k')
  {
  }

  lemma LocalItems(k: Disk, k': Disk, d: nat)
    requires SameBut(k, k', d) && ItemsBound(k)
    requires forall x :: x in k.root && x.Item? && k.root[x] == d ==> BoundTo(Cur(k', d), x.digest) && BoundTo(Syn(k', d), x.digest)
    ensures ItemsBound(k')
  {
    LocalFrame(k, k', d);
  }

  lemma LocalEvidence(k: Disk, k': Disk, d: nat, b: Bytes)
    requires SameBut(k, k', d)
    ensures (Holds(Cur(k, d), b) ==> Holds(Cur(k', d), b)) ==> (StagedNow(k, b) ==> StagedNow(k', b))
    ensures (Holds(Cur(k, d), b) && Holds(Syn(k, d), b) ==> Holds(Cur(k', d), b) && Holds(Syn(k', d), b)) ==>
      (StagedDurably(k, b) ==> StagedDurably(k', b))
  {
    LocalFrame(k, k', d);
  }

  /** One directory changes: the invariants survive if its own part of them does. */
  lemma LocalKeeps(k: Disk, k': Disk, d: nat, ledger: set<Bytes>)
    requires Sound(k, ledger) && SameBut(k, k', d)
    requires k'.src == k.src && k'.srcSyn == k.srcSyn
    requires ManifestBeside(Cur(k', d)) && ManifestBeside(Syn(k', d))
    requires forall x :: x in k.root && x.Item? && k.root[x] == d ==> BoundTo(Cur(k', d), x.digest) && BoundTo(Syn(k', d), x.digest)
    requires Cur(k', d).payload.Some? || Syn(k', d).payload.Some? ==> Cur(k, d).payload.Some? || Syn(k, d).payload.Some?
    requires forall b :: b in ledger && Holds(Cur(k, d), b) ==>
      || (Holds(Cur(k', d), b) && (Holds(Syn(k, d), b) ==> Holds(Syn(k', d), b)))
      || (InSource(k.src, b) && InSource(k.srcSyn, b))
    ensures Sound(k', ledger)
  {
    LocalFrame(k, k', d);
    LocalItems(k, k', d);
    forall b | b in ledger
      ensures InSource(k'.src, b) || StagedNow(k', b)
      ensures InSource(k'.srcSyn, b) || StagedDurably(k', b)
    {
      LocalEvidence(k, k', d, b);
    }
  }

  lemma ChangeKeeps(k: Disk, ledger: set<Bytes>, d: nat, edit: Edit)
    requires Sound(k, ledger) && d in k.dirs && GentleEdit(k, ledger, d, edit)
    ensures Sound(Apply(k, Change(d, edit)), ledger)
  {
    var k' := Apply(k, Change(d, edit));
    assert Syn(k', d) == Syn(k, d) && Cur(k', d) == Edited(Cur(k, d), edit, k.nextIno);
    LocalKeeps(k, k', d, ledger);
  }

  lemma SyncTxKeeps(k: Disk, ledger: set<Bytes>, d: nat)
    requires Sound(k, ledger) && d in k.dirs
    ensures Sound(Apply(k, SyncTx(d)), ledger)
  {
    var k' := Apply(k, SyncTx(d));
    assert Syn(k', d) == Cur(k, d) && Cur(k', d) == Cur(k, d);
    LocalKeeps(k, k', d, ledger);
  }

  lemma MoveKeeps(k: Disk, ledger: set<Bytes>, n: string, d: nat)
    requires Sound(k, ledger) && Enabled(k, Move(n, d)) && Guard(k, ledger, Move(n, d))
    ensures Sound(Apply(k, Move(n, d)), ledger)
  {
    var k' := Apply(k, Move(n, d));
    LocalFrame(k, k', d);
    LocalItems(k, k', d);
    var x :| x in k.rootSyn && k.rootSyn[x] == d;
    assert Holds(Cur(k', k'.rootSyn[x]), k.src[n].bytes);
    forall b | b in ledger
      ensures InSource(k'.src, b) || StagedNow(k', b)
      ensures InSource(k'.srcSyn, b) || StagedDurably(k', b)
    {
      LocalEvidence(k, k', d, b);
      if InSource(k.src, b) {
        var m :| m in k.src && k.src[m].bytes == b;
        assert m == n || (m in k'.src && k'.src[m].bytes == b);
      }
    }
  }

  /** Only names change. */
  predicate SameFiles(k: Disk, k': Disk) {
    k'.src == k.src && k'.srcSyn == k.srcSyn && k'.dirs == k.dirs && k'.nextDir == k.nextDir
  }

  lemma SyncRootKeeps(k: Disk, ledger: set<Bytes>)
    requires Sound(k, ledger)
    ensures Sound(Apply(k, SyncRoot), ledger)
  {
    var k' := Apply(k, SyncRoot);
    forall b | b in ledger
      ensures StagedNow(k, b) ==> StagedNow(k', b)
      ensures StagedDurably(k, b) ==> StagedDurably(k', b)
    {
      forall x | x in k.rootSyn && Holds(Cur(k, k.rootSyn[x]), b)
        ensures exists y :: y in k'.rootSyn && k'.rootSyn[y] == k.rootSyn[x]
      {
        assert Named(k.root, k.rootSyn[x]);
      }
    }
  }

  /** The durable names stay, and directories with payloads keep a current name. */
  lemma NamesKeep(k: Disk, k': Disk, ledger: set<Bytes>)
    requires Sound(k, ledger) && SameFiles(k, k') && k'.rootSyn == k.rootSyn
    requires Injective(k'.root) && (forall x :: x in k'.root ==> k'.root[x] in k.dirs)
    requires forall x :: x in k'.root && x.Item? && x !in k.root ==> BoundTo(Cur(k, k'.root[x]), x.digest) && BoundTo(Syn(k, k'.root[x]), x.digest)
    requires forall x :: x in k'.root && x in k.root ==> k'.root[x] == k.root[x]
    requires forall x :: x in k.root && x.Item? ==> x in k'.root
    requires forall d :: Named(k.root, d) && (Cur(k, d).payload.Some? || Syn(k, d).payload.Some?) ==> Named(k'.root, d)
    ensures Sound(k', ledger)
  {
    assert forall b :: StagedNow(k', b) == StagedNow(k, b);
    assert forall b :: StagedDurably(k', b) == StagedDurably(k, b);
  }

  lemma RenameKeeps(k: Disk, ledger: set<Bytes>, from: DirName, to: DirName)
    requires Sound(k, ledger) && Enabled(k, RenameTx(from, to)) && Guard(k, ledger, RenameTx(from, to))
    ensures Sound(Apply(k, RenameTx(from, to)), ledger)
  {
    var k' := Apply(k, RenameTx(from, to));
    forall d | Named(k.root, d)
      ensures Named(k'.root, d)
    {
      var y :| y in k.root && k.root[y] == d;
      assert k'.root[if y == from then to else y] == d;
    }
    NamesKeep(k, k', ledger);
  }

  lemma RemoveKeeps(k: Disk, ledger: set<Bytes>, x: DirName)
    requires Sound(k, ledger) && Enabled(k, RemoveTx(x)) && Guard(k, ledger, RemoveTx(x))
    ensures Sound(Apply(k, RemoveTx(x)), ledger)
  {
    var k' := Apply(k, RemoveTx(x));
    forall d | Named(k.root, d) && d != k.root[x]
      ensures Named(k'.root, d)
    {
      var y :| y in k.root && k.root[y] == d;
      assert k'.root[y] == d;
    }
    NamesKeep(k, k', ledger);
  }

  lemma SyncSourceKeeps(k: Disk, ledger: set<Bytes>)
    requires Sound(k, ledger) && NoUnsyncedStage(k)
    ensures Sound(Apply(k, SyncSource), ledger + Contents(k.src))
  {
    var k' := Apply(k, SyncSource);
    forall b | b in ledger + Contents(k.src)
      ensures InSource(k'.src, b) || StagedNow(k', b)
      ensures InSource(k'.srcSyn, b) || StagedDurably(k', b)
    {
      if !InSource(k.src, b) {
        var x :| x in k.rootSyn && Holds(Cur(k, k.rootSyn[x]), b);
        assert Holds(Cur(k', k'.rootSyn[x]), b);
        assert !Unsynced(k.dirs[k.rootSyn[x]]);
      }
    }
  }

  /** Every operation keeps the invariants when its guard holds. */
  lemma OpKeeps(k: Disk, ledger: set<Bytes>, op: Op)
    requires Sound(k, ledger) && Enabled(k, op) && Guard(k, ledger, op)
    ensures Sound(Apply(k, op), LedgerAfter(k, ledger, op))
  {
    match op
    case Change(d, edit) => ChangeKeeps(k, ledger, d, edit);
    case SyncTx(d) => SyncTxKeeps(k, ledger, d);
    case SyncRoot => SyncRootKeeps(k, ledger);
    case SyncSource => SyncSourceKeeps(k, ledger);
    case Move(n, d) => MoveKeeps(k, ledger, n, d);
    case RenameTx(from, to) => RenameKeeps(k, ledger, from, to);
    case RemoveTx(x) => RemoveKeeps(k, ledger, x);
  }
}
