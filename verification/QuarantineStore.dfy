/** The quarantine of src/bureau/closure_observer.py as an object that changes its
    directories in place: the recovery pass and the quarantine of one entry. */
module QuarantineStore {
  import opened Prelude
  import opened EvidenceDisk
  import opened QuarantineProtocol
  import opened QuarantineSafety
  import opened QuarantineRuns
  import opened QuarantineRecovery
  import opened QuarantineOutcomes

  datatype Verdict =
    | NotEvidence
    | RestoredToSource
    | KeptOpaque(name: DirName)
    | Quarantined(name: DirName, raced: bool)

  /** The entry was moved into its transaction and both directories were synced. */
  ghost predicate StagedAs(k: Disk, id: nat, d: nat, f: File) {
    && Shelf(k) && Owns(k, d, id) && Cur(k, d).payload == Some(f) && Syn(k, d).payload == Some(f)
    && Pending(id) in k.rootSyn && k.rootSyn[Pending(id)] == d
  }

  /** A transaction directory is registered durably and still without a payload. */
  ghost predicate Opened(k: Disk, id: nat, d: nat) {
    && Shelf(k) && Owns(k, d, id) && Cur(k, d).payload.None?
    && Pending(id) in k.rootSyn && k.rootSyn[Pending(id)] == d
  }

  /** The disk after a transaction was made and its manifest and name were synced. */
  function WithManifest(k: Disk, id: nat, m: Manifest): Disk {
    var e := Entries(Some(Valid(m)), None, None, {});
    var k1 := MakeTx(k, id);
    k1.(dirs := k1.dirs[k.nextDir := TxDir(e, e)], rootSyn := k1.root)
  }

  lemma WithManifestOpens(k: Disk, id: nat, m: Manifest)
    requires Shelf(k) && FreshId(k, id) && k.nextDir !in k.dirs
    ensures Opened(WithManifest(k, id, m), id, k.nextDir)
  {
  }

  class Store {
    var source: map<string, File>
    var sourceSynced: map<string, File>
    var root: map<DirName, nat>
    var rootSynced: map<DirName, nat>
    var dirs: map<nat, TxDir>
    var nextIno: nat
    var nextDir: nat

    function Snapshot(): Disk
      reads this
    {
      Disk(source, sourceSynced, root, rootSynced, dirs, nextIno, nextDir)
    }

    constructor (k: Disk)
      ensures Snapshot() == k
    {
      source, sourceSynced, root, rootSynced := k.src, k.srcSyn, k.root, k.rootSyn;
      dirs, nextIno, nextDir := k.dirs, k.nextIno, k.nextDir;
    }

    method Assign(k: Disk)
      modifies this
      ensures Snapshot() == k
    {
      source, sourceSynced, root, rootSynced := k.src, k.srcSyn, k.root, k.rootSyn;
      dirs, nextIno, nextDir := k.dirs, k.nextIno, k.nextDir;
    }

    /** One directory operation; `ok` is false when the system call raises. */
    method Perform(op: Op) returns (ok: bool)
      modifies this
      ensures ok == Enabled(old(Snapshot()), op)
      ensures Snapshot() == if ok then Apply(old(Snapshot()), op) else old(Snapshot())
    {
      ok := Enabled(Snapshot(), op);
      if ok { Assign(Apply(Snapshot(), op)); }
    }

    /** Operations in order, stopping at the first that raises. */
    method PerformAll(ops: seq<Op>) returns (ok: bool)
      modifies this
      ensures ok == AllEnabled(old(Snapshot()), ops)
      ensures Snapshot() == RunOps(old(Snapshot()), ops)
    {
      ghost var k0 := Snapshot();
      ok := true;
      var i := 0;
      assert ops[0..] == ops;
      while i < |ops|
        invariant i <= |ops| && ok
        invariant RunOps(k0, ops) == RunOps(Snapshot(), ops[i..])
        invariant AllEnabled(k0, ops) == AllEnabled(Snapshot(), ops[i..])
      {
        assert ops[i..][0] == ops[i] && ops[i..][1..] == ops[i + 1..];
        ok := Perform(ops[i]);
        if !ok { return; }
        i := i + 1;
      }
    }

    /** The recovery pass over the pending names in their listed order. */
    method RecoverTransactions(order: seq<DirName>) returns (recovered: nat, abandoned: nat, errors: seq<DirName>)
      modifies this
      ensures (Snapshot(), Result(recovered, abandoned, errors)) == RecoverPass(old(Snapshot()), order, NOTHING)
      ensures Shelf(old(Snapshot())) && PendingNames(old(Snapshot()), order) && Distinct(order) ==>
        AccountsFor(old(Snapshot()), order, Snapshot(), Result(recovered, abandoned, errors))
    {
      ghost var k0 := Snapshot();
      recovered, abandoned, errors := 0, 0, [];
      var i := 0;
      assert order[0..] == order;
      while i < |order|
        invariant i <= |order|
        invariant RecoverPass(k0, order, NOTHING)
               == RecoverPass(Snapshot(), order[i..], Result(recovered, abandoned, errors))
      {
        var x := order[i];
        assert order[i..][0] == x && order[i..][1..] == order[i + 1..];
        if x.Pending? && x in root {
          match RecoveryChoice(Snapshot(), x) {
            case None => errors := errors + [x];
            case Some(p) =>
              var ok := PerformAll(Ops(p));
              if !ok { errors := errors + [x]; }
              else if p.Cleanup? { abandoned := abandoned + 1; }
              else { recovered := recovered + 1; }
          }
        }
        i := i + 1;
      }
      if Shelf(k0) && PendingNames(k0, order) && Distinct(order) { PassAccounts(k0, order); }
    }

    /** Opens a durable transaction holding the manifest of the entry as it was read. */
    method OpenTransaction(entry: string, id: nat)
      requires Shelf(Snapshot()) && FreshId(Snapshot(), id) && nextDir !in dirs && entry in source
      modifies this
      ensures Opened(Snapshot(), id, old(nextDir))
      ensures source == old(source) && nextIno == old(nextIno)
    {
      var d, read := nextDir, source[entry];
      Assign(MakeTx(Snapshot(), id));
      var ok := Perform(Change(d, WriteTemp(ManifestTmp)));
      ok := Perform(Change(d, PutManifest(BoundManifest(entry, RunIdOf(entry), read))));
      ok := Perform(SyncTx(d));
      ok := Perform(SyncRoot);
      ghost var k', m := WithManifest(old(Snapshot()), id, BoundManifest(entry, RunIdOf(entry), read)), {ManifestTmp};
      assert {} + m - m == {};
      assert Snapshot().dirs == k'.dirs;
      WithManifestOpens(old(Snapshot()), id, BoundManifest(entry, RunIdOf(entry), read));
    }

    /** Moves the entry into an open transaction. `swapped` is what a producer published at
        that name between the first read and the move. */
    method StageEntry(entry: string, id: nat, d: nat, swapped: Option<File>) returns (staged: File)
      requires Opened(Snapshot(), id, d) && entry in source
      modifies this
      ensures staged == if swapped.Some? then swapped.value.(ino := old(nextIno)) else old(source)[entry]
      ensures StagedAs(Snapshot(), id, d, staged)
      ensures source == old(source) - {entry} && sourceSynced == source
    {
      if swapped.Some? { Assign(Publish(Snapshot(), entry, swapped.value)); }
      staged := source[entry];
      var ok := Perform(Move(entry, d));
      ok := Perform(SyncTx(d));
      ok := Perform(SyncSource);
    }

    /** Finalizes a staged payload, rebinding the manifest first after a lost race. */
    method FinalizeStaged(entry: string, id: nat, d: nat, staged: File, raced: bool) returns (v: Verdict)
      requires StagedAs(Snapshot(), id, d, staged)
      modifies this
      ensures v == Quarantined(ItemName(id, entry, staged.bytes), raced)
      ensures v.name in root && root[v.name] == d && rootSynced == root
      ensures BoundTo(Cur(Snapshot(), d), v.name.digest) && BoundTo(Syn(Snapshot(), d), v.name.digest)
      ensures Holds(Cur(Snapshot(), d), staged.bytes)
      ensures source == old(source)
    {
      var p := Finalize(d, id, entry, RunIdOf(entry), staged.bytes, raced);
      assert Ops(p)[0..] == Ops(p);
      RecoveryOps(p, 0);
      ProgramCompletes(Snapshot(), Snapshot(), p, 0);
      FinalizeBinds(Snapshot(), Snapshot(), p, 0);
      var ok := PerformAll(Ops(p));
      v := Quarantined(ItemName(id, entry, staged.bytes), raced);
    }

    method PreserveStaged(id: nat, d: nat, staged: File) returns (v: Verdict)
      requires StagedAs(Snapshot(), id, d, staged)
      modifies this
      ensures v == KeptOpaque(Preserved(id))
      ensures v.name in root && root[v.name] == d && rootSynced == root
      ensures Cur(Snapshot(), d).payload == Some(staged) == Syn(Snapshot(), d).payload
      ensures source == old(source)
    {
      var p := Preserve(d, id);
      assert Ops(p)[0..] == Ops(p);
      RecoveryOps(p, 0);
      ProgramCompletes(Snapshot(), Snapshot(), p, 0);
      PreserveKeepsPayload(Snapshot(), Snapshot(), p, 0, staged, Cur(Snapshot(), d).manifest);
      var ok := PerformAll(Ops(p));
      v := KeptOpaque(Preserved(id));
    }

    /** Quarantine of one unknown-run entry. `swapped` was published at its name before the
        move, `late` after it. An unraced entry always ends as an item bound to exactly its
        bytes; a raced one is put back if its name is still free, and otherwise quarantined or,
        when unreadable, preserved as it is. In every case the moved bytes stay reachable,
        now and after a crash. */
    method QuarantineUnknownRunEvidence(entry: string, id: nat, swapped: Option<File>, late: Option<File>) returns (v: Verdict)
      requires Shelf(Snapshot()) && FreshId(Snapshot(), id) && nextDir !in dirs
      requires forall n :: n in source ==> source[n].ino < nextIno
      modifies this
      ensures v.NotEvidence? <==> entry !in old(source) || !Readable(old(source)[entry])
      ensures v.NotEvidence? ==> Snapshot() == old(Snapshot())
      ensures !v.NotEvidence? ==>
        var staged := if swapped.Some? then swapped.value else old(source)[entry];
        && (swapped.None? ==> v == Quarantined(ItemName(id, entry, staged.bytes), false))
        && (swapped.Some? && late.None? ==> v.RestoredToSource? && entry in source && source[entry].bytes == staged.bytes)
        && (swapped.Some? && late.Some? && Readable(staged) ==> v == Quarantined(ItemName(id, entry, staged.bytes), true))
        && (swapped.Some? && late.Some? && !Readable(staged) ==> v == KeptOpaque(Preserved(id)))
        && Reachable(Snapshot(), staged.bytes) && Reachable(Crash(Snapshot()), staged.bytes)
      ensures v.Quarantined? ==> (
        && v.name in root && rootSynced == root
        && BoundTo(Cur(Snapshot(), root[v.name]), v.name.digest)
        && BoundTo(Syn(Snapshot(), root[v.name]), v.name.digest))
    {
      if entry !in source || !Readable(source[entry]) { return NotEvidence; }
      var read, d := source[entry], nextDir;
      OpenTransaction(entry, id);
      var staged := StageEntry(entry, id, d, swapped);
      if late.Some? { Assign(Publish(Snapshot(), entry, late.value)); }
      var same := staged.ino == read.ino && staged.bytes == read.bytes;
      if Readable(staged) && same {
        v := FinalizeStaged(entry, id, d, staged, false);
        assert Holds(Cur(Crash(Snapshot()), Crash(Snapshot()).root[v.name]), staged.bytes);
      } else if entry !in source {
        Assign(LinkBack(Snapshot(), entry, staged));
        var ok := Perform(SyncSource);
        assert Crash(Snapshot()).src[entry].bytes == staged.bytes;
        ok := Perform(Change(d, DropPayload));
        ok := Perform(SyncTx(d));
        v := RestoredToSource;
        assert Snapshot().src[entry].bytes == staged.bytes && Crash(Snapshot()).src[entry].bytes == staged.bytes;
      } else if Readable(staged) {
        v := FinalizeStaged(entry, id, d, staged, true);
        assert Holds(Cur(Crash(Snapshot()), Crash(Snapshot()).root[v.name]), staged.bytes);
      } else {
        v := PreserveStaged(id, d, staged);
        assert Holds(Cur(Crash(Snapshot()), Crash(Snapshot()).root[v.name]), staged.bytes);
      }
    }
  }
}
