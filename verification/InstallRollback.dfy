/** Runtime installation of ops/install-bureau-runtime.py with scheduler convergence: a backup, the
    candidate and the final writes, each of which may fail at any point, and the rollback. */
module InstallRollback {
  import opened Prelude

  type Bytes = seq<int>

  datatype Label = Bureau | RuntimeRefresh | StatusCapsule

  /** The launchers in the order they are written and restored. */
  function LabelAt(i: nat): Label { if i == 0 then Bureau else if i == 1 then RuntimeRefresh else StatusCapsule }

  predicate Before(l: Label, i: nat) { match l case Bureau => i > 0 case RuntimeRefresh => i > 1 case StatusCapsule => i > 2 }

  /** The paths an installation touches, and any other entry of its two directories. */
  datatype Path = Manifest | Launcher(which: Label) | Receipt(name: string) | BinDir | ReceiptsDir | OtherEntry(dir: Path, name: string)

  datatype Node = File(bytes: Bytes, mode: bv12) | Symlink(target: string) | Dir

  type Files = map<Path, Node>

  function Parent(p: Path): Option<Path> {
    match p
    case Launcher(_) => Some(BinDir)
    case Receipt(_) => Some(ReceiptsDir)
    case OtherEntry(d, _) => Some(d)
    case _ => None
  }

  predicate Entries(fs: Files, d: Path) { exists p :: p in fs && Parent(p) == Some(d) }

  predicate IsDir(fs: Files, p: Path) { p in fs && fs[p].Dir? }

  /* ---- writes ---- */

  /** Where an atomic write fails, if it does: before creating the parent directory, after that,
      or after the file was replaced but before the directory was synced. */
  datatype Point = Never | AtStart | AfterParent | AfterReplace

  function WithParent(fs: Files, p: Path): Files {
    if Parent(p).Some? && Parent(p).value !in fs then fs[Parent(p).value := Dir] else fs
  }

  /** `atomic_write`, and in the same way the replacement by a symlink. */
  function Put(fs: Files, p: Path, n: Node, at: Point): (r: (Files, bool)) {
    if at.AtStart? then (fs, false)
    else if at.AfterParent? || IsDir(fs, p) then (WithParent(fs, p), false)
    else (WithParent(fs, p)[p := n], at.Never?)
  }

  /** Removing a path that must not exist. */
  function Drop(fs: Files, p: Path, at: Point): (r: (Files, bool)) {
    if at.AtStart? || IsDir(fs, p) then (fs, false) else (fs - {p}, p !in fs || at.Never?)
  }

  predicate Runs(mode: bv12) { mode & 0x49 != 0 }

  predicate InPlace(fs: Files, l: Label, expected: Bytes) {
    Launcher(l) in fs && fs[Launcher(l)].File? && fs[Launcher(l)].bytes == expected && Runs(fs[Launcher(l)].mode)
  }

  /* ---- preimage ---- */

  /** What a restore writes back: nothing, a file with its mode, or a symlink. */
  datatype Saved = Absent | SavedFile(bytes: Bytes, mode: bv12) | SavedLink(target: string)

  datatype Backup = Backup(manifest: Saved, bureau: Saved, runtimeRefresh: Saved, statusCapsule: Saved)

  function SavedFor(b: Backup, l: Label): Saved {
    match l case Bureau => b.bureau case RuntimeRefresh => b.runtimeRefresh case StatusCapsule => b.statusCapsule
  }

  function SaveLauncher(fs: Files, l: Label): Saved {
    if Launcher(l) !in fs then Absent
    else match fs[Launcher(l)]
         case File(b, m) => SavedFile(b, m)
         case Symlink(t) => SavedLink(t)
         case Dir => Absent
  }

  /** `_backup_existing` keeps a regular manifest only. */
  function SaveAll(fs: Files): Backup {
    Backup(if Manifest in fs && fs[Manifest].File? then SavedFile(fs[Manifest].bytes, fs[Manifest].mode) else Absent,
           SaveLauncher(fs, Bureau), SaveLauncher(fs, RuntimeRefresh), SaveLauncher(fs, StatusCapsule))
  }

  /** A preimage the installer accepts: every launcher is absent, a file or a symlink, and the
      manifest is absent, a file or a symlink that leads nowhere (which does not count as existing). */
  ghost predicate Accepted(fs: Files) {
    && !IsDir(fs, Manifest) && (forall l :: !IsDir(fs, Launcher(l)))
    && (forall p :: p in fs && Parent(p).Some? ==> Parent(p).value in fs)
    && (BinDir in fs ==> fs[BinDir].Dir?) && (ReceiptsDir in fs ==> fs[ReceiptsDir].Dir?)
  }

  /** What is at a path agrees with what was saved for it. */
  predicate Agrees(fs: Files, p: Path, s: Saved) {
    match s
    case Absent => p !in fs
    case SavedFile(b, m) => p in fs && fs[p] == File(b, m)
    case SavedLink(t) => p in fs && fs[p] == Symlink(t)
  }

  /** The installation has touched the manifest, attempted launchers, its own receipt and nothing
      else but the two directories it may have created. */
  ghost predicate Touched(fs: Files, was: Files, attempted: set<Label>, receipt: Option<Path>) {
    && (forall p :: OutOfReach(p, attempted, receipt) ==> (p in fs <==> p in was) && (p in fs ==> fs[p] == was[p]))
    && (forall d :: d == BinDir || d == ReceiptsDir ==> (d in was ==> d in fs && fs[d] == was[d]) && (d in fs ==> fs[d].Dir?))
    && !IsDir(fs, Manifest) && (forall l :: !IsDir(fs, Launcher(l)))
    && (receipt.Some? ==> receipt.value.Receipt? && receipt.value !in was && !IsDir(fs, receipt.value))
    && (Rooted(was) ==> Rooted(fs))
  }

  /** No entry of the two directories is without its directory. */
  ghost predicate Rooted(fs: Files) {
    forall p :: p in fs && (Parent(p) == Some(BinDir) || Parent(p) == Some(ReceiptsDir)) ==> Parent(p).value in fs
  }

  predicate OutOfReach(p: Path, attempted: set<Label>, receipt: Option<Path>) {
    !p.Manifest? && !(p.Launcher? && p.which in attempted) && Some(p) != receipt && p != BinDir && p != ReceiptsDir
  }

  lemma PutTouches(fs: Files, was: Files, attempted: set<Label>, receipt: Option<Path>, p: Path, n: Node, at: Point)
    requires Touched(fs, was, attempted, receipt) && !OutOfReach(p, attempted, receipt) && p != BinDir && p != ReceiptsDir && !n.Dir?
    ensures Touched(Put(fs, p, n, at).0, was, attempted, receipt)
  {
  }

  /** Writing the manifest or a receipt leaves the launchers in place. */
  lemma PutKeepsLaunchers(fs: Files, p: Path, n: Node, at: Point, expected: Label -> Bytes)
    requires (p.Manifest? || p.Receipt?) && forall l :: InPlace(fs, l, expected(l))
    ensures forall l :: InPlace(Put(fs, p, n, at).0, l, expected(l))
  {
    forall l ensures InPlace(Put(fs, p, n, at).0, l, expected(l)) { assert InPlace(fs, l, expected(l)); }
  }

  lemma DropTouches(fs: Files, was: Files, attempted: set<Label>, receipt: Option<Path>, p: Path, at: Point)
    requires Touched(fs, was, attempted, receipt) && !OutOfReach(p, attempted, receipt) && p != BinDir && p != ReceiptsDir
    ensures Touched(Drop(fs, p, at).0, was, attempted, receipt)
  {
  }

  /** Only one path changed, apart from the two directories. */
  ghost predicate SameBut(fs: Files, before: Files, p: Path) {
    forall q :: q != p && q != BinDir && q != ReceiptsDir ==> (q in fs <==> q in before) && (q in fs ==> fs[q] == before[q])
  }

  ghost predicate SameButLaunchers(fs: Files, before: Files) {
    forall q: Path :: !q.Launcher? && q != BinDir && q != ReceiptsDir ==> (q in fs <==> q in before) && (q in fs ==> fs[q] == before[q])
  }

  /** Faults of one phase: where each write fails. */
  type Faults = map<Path, Point>

  function PointOf(f: Faults, p: Path): Point { if p in f then f[p] else Never }

  datatype Failure = RestoreFailed(path: Path) | RemoveFailed(path: Path) | VerifyFailed(path: Path)

  function RestoreOne(fs: Files, p: Path, s: Saved, at: Point): (Files, bool) {
    match s
    case Absent => Drop(fs, p, at)
    case SavedFile(b, m) => Put(fs, p, File(b, m), at)
    case SavedLink(t) => Put(fs, p, Symlink(t), at)
  }

  /** A faultless restore succeeds and puts back exactly what was saved, touching nothing else. */
  lemma RestoreWorks(fs: Files, was: Files, attempted: set<Label>, receipt: Option<Path>, p: Path, s: Saved, at: Point)
    requires Touched(fs, was, attempted, receipt) && !OutOfReach(p, attempted, receipt) && p != BinDir && p != ReceiptsDir
    ensures var r := RestoreOne(fs, p, s, at);
      && Touched(r.0, was, attempted, receipt)
      && (at.Never? ==> r.1 && Agrees(r.0, p, s))
      && SameBut(r.0, fs, p)
  {
    match s
    case Absent => DropTouches(fs, was, attempted, receipt, p, at);
    case SavedFile(b, m) => PutTouches(fs, was, attempted, receipt, p, File(b, m), at);
    case SavedLink(t) => PutTouches(fs, was, attempted, receipt, p, Symlink(t), at);
  }

  /** Once everything saved agrees, what is left over are empty directories that were not there. */
  lemma OnlyDirectoriesLeft(fs: Files, was: Files, attempted: set<Label>, receipt: Option<Path>, d: Path)
    requires Accepted(was) && Touched(fs, was, attempted, receipt)
    requires Agrees(fs, Manifest, SaveAll(was).manifest)
    requires forall l :: l in attempted ==> Agrees(fs, Launcher(l), SaveLauncher(was, l))
    requires receipt.Some? ==> receipt.value !in fs
    requires (d == BinDir || d == ReceiptsDir) && d !in was
    ensures !Entries(fs, d)
  {
  }

  /** Removing a directory that the installation created. */
  function RemoveParent(fs: Files, d: Path, at: Point): (Files, bool) {
    if d !in fs then (fs, true)
    else if !fs[d].Dir? || Entries(fs, d) || at.AtStart? || at.AfterParent? then (fs, false)
    else (fs - {d}, at.Never?)
  }

  /** All paths that a rollback answers for hold what they held. */
  ghost predicate PreimageHolds(fs: Files, backup: Backup, attempted: set<Label>, receipt: Option<Path>, created: set<Path>)
  {
    && Agrees(fs, Manifest, backup.manifest)
    && (forall l :: l in attempted ==> Agrees(fs, Launcher(l), SavedFor(backup, l)))
    && (receipt.Some? ==> receipt.value !in fs)
    && (forall d :: d in created ==> d !in fs)
  }

  lemma RemoveTouches(fs: Files, was: Files, attempted: set<Label>, receipt: Option<Path>, d: Path, at: Point)
    requires Touched(fs, was, attempted, receipt) && (d == BinDir || d == ReceiptsDir) && d !in was
    ensures Touched(RemoveParent(fs, d, at).0, was, attempted, receipt)
  {
  }

  lemma RemovalKeepsPreimage(fs: Files, backup: Backup, attempted: set<Label>, receipt: Option<Path>, gone: set<Path>, d: Path)
    requires PreimageHolds(fs, backup, attempted, receipt, gone) && (d == BinDir || d == ReceiptsDir)
    ensures PreimageHolds(fs - {d}, backup, attempted, receipt, gone + {d})
  {
  }

  /** A faultless removal succeeds once everything else is restored. */
  lemma RemoveWorks(fs: Files, was: Files, attempted: set<Label>, receipt: Option<Path>, gone: set<Path>, d: Path)
    requires Accepted(was) && Touched(fs, was, attempted, receipt) && (d == BinDir || d == ReceiptsDir) && d !in was
    requires PreimageHolds(fs, SaveAll(was), attempted, receipt, gone)
    ensures var r := RemoveParent(fs, d, Never); r.1 && PreimageHolds(r.0, SaveAll(was), attempted, receipt, gone + {d})
  {
    LaunchersAgree(fs, was, attempted, receipt, gone);
    OnlyDirectoriesLeft(fs, was, attempted, receipt, d);
    RemovalKeepsPreimage(fs, SaveAll(was), attempted, receipt, gone, d);
    assert d !in fs ==> fs - {d} == fs;
  }

  lemma LaunchersAgree(fs: Files, was: Files, attempted: set<Label>, receipt: Option<Path>, gone: set<Path>)
    requires PreimageHolds(fs, SaveAll(was), attempted, receipt, gone)
    ensures forall l :: l in attempted ==> Agrees(fs, Launcher(l), SaveLauncher(was, l))
  {
    forall l | l in attempted ensures Agrees(fs, Launcher(l), SaveLauncher(was, l)) {
      assert Agrees(fs, Launcher(l), SavedFor(SaveAll(was), l));
    }
  }

  /** With the created directories gone too, the whole file system is as before, except that a
      manifest symlink leading nowhere is gone. */
  lemma RestoredExactly(fs: Files, was: Files, attempted: set<Label>, receipt: Option<Path>)
    requires Accepted(was) && Touched(fs, was, attempted, receipt)
    requires PreimageHolds(fs, SaveAll(was), attempted, receipt, {BinDir, ReceiptsDir} - was.Keys)
    ensures fs == if Manifest in was && was[Manifest].Symlink? then was - {Manifest} else was
  {
    var goal := if Manifest in was && was[Manifest].Symlink? then was - {Manifest} else was;
    forall p ensures (p in fs <==> p in goal) && (p in fs ==> fs[p] == goal[p]) {
      if OutOfReach(p, attempted, receipt) {
      } else if p.Launcher? && p.which in attempted {
        assert Agrees(fs, Launcher(p.which), SavedFor(SaveAll(was), p.which));
      } else if p == BinDir || p == ReceiptsDir {
        assert p !in was ==> p in {BinDir, ReceiptsDir} - was.Keys;
      }
    }
  }

  const PLAIN: bv12 := 0x1A4
  const EXECUTABLE: bv12 := 0x1ED

  class Installer {
    var fs: Files
    /** The launchers whose replacement was attempted, and the receipt the final install owns. */
    var attempted: set<Label>
    var receipt: Option<Path>

    constructor (was: Files)
      ensures fs == was && attempted == {} && receipt == None
    {
      fs, attempted, receipt := was, {}, None;
    }

    /** One launcher of the candidate install; the attempt is noted before the write that may fail. */
    method WriteLauncher(l: Label, wanted: Bytes, at: Point, ghost was: Files) returns (ok: bool)
      requires Touched(fs, was, attempted, None)
      modifies this`fs, this`attempted
      ensures attempted == old(attempted) + {l} && Touched(fs, was, attempted, None)
      ensures ok ==> InPlace(fs, l, wanted)
      ensures at.Never? ==> ok
      ensures SameBut(fs, old(fs), Launcher(l))
    {
      attempted := attempted + {l};
      var r := Put(fs, Launcher(l), File(wanted, EXECUTABLE), at);
      PutTouches(fs, was, attempted, None, Launcher(l), File(wanted, EXECUTABLE), at);
      fs := r.0;
      ok := r.1;
    }

    /** The loop over the launchers that need writing. */
    method WriteLaunchers(needed: set<Label>, expected: Label -> Bytes, faults: Faults, ghost was: Files) returns (ok: bool)
      requires Touched(fs, was, attempted, None) && attempted == {}
      requires forall l :: l !in needed ==> InPlace(fs, l, expected(l))
      modifies this`fs, this`attempted
      ensures Touched(fs, was, attempted, None) && attempted <= needed && SameButLaunchers(fs, old(fs))
      ensures ok ==> forall l :: InPlace(fs, l, expected(l))
      ensures faults == map[] ==> ok
    {
      for i := 0 to 3
        invariant Touched(fs, was, attempted, None) && attempted <= needed && SameButLaunchers(fs, old(fs))
        invariant forall l :: Before(l, i) || l !in needed ==> InPlace(fs, l, expected(l))
      {
        var l := LabelAt(i);
        if l in needed {
          var done := WriteLauncher(l, expected(l), PointOf(faults, Launcher(l)), was);
          if !done { return false; }
        }
      }
      ok := true;
    }

    /** `write_candidate_install`. */
    method WriteCandidateInstall(manifest: Bytes, expected: Label -> Bytes, faults: Faults, ghost was: Files) returns (ok: bool)
      requires Accepted(was) && fs == was && attempted == {} && receipt == None
      modifies this`fs, this`attempted
      ensures Touched(fs, was, attempted, None)
      ensures forall l :: l in attempted ==> !InPlace(was, l, expected(l))
      ensures ok ==> Manifest in fs && fs[Manifest] == File(manifest, PLAIN)
      ensures ok ==> forall l :: InPlace(fs, l, expected(l))
      ensures faults == map[] ==> ok
    {
      var needed := set l: Label | !InPlace(fs, l, expected(l));
      var r := Put(fs, Manifest, File(manifest, PLAIN), PointOf(faults, Manifest));
      PutTouches(fs, was, {}, None, Manifest, File(manifest, PLAIN), PointOf(faults, Manifest));
      fs := r.0;
      if !r.1 { return false; }
      ok := WriteLaunchers(needed, expected, faults, was);
    }

    /** One plain file, which is no launcher. */
    method WritePlain(p: Path, bytes: Bytes, at: Point, expected: Label -> Bytes, ghost was: Files) returns (done: bool)
      requires Touched(fs, was, attempted, receipt) && (p.Manifest? || (p.Receipt? && receipt == Some(p)))
      modifies this`fs
      ensures Touched(fs, was, attempted, receipt) && SameBut(fs, old(fs), p)
      ensures done ==> p in fs && fs[p] == File(bytes, PLAIN)
      ensures at.Never? ==> done
      ensures (forall l :: InPlace(old(fs), l, expected(l))) ==> forall l :: InPlace(fs, l, expected(l))
    {
      var r := Put(fs, p, File(bytes, PLAIN), at);
      PutTouches(fs, was, attempted, receipt, p, File(bytes, PLAIN), at);
      if forall l :: InPlace(fs, l, expected(l)) { PutKeepsLaunchers(fs, p, File(bytes, PLAIN), at, expected); }
      fs := r.0;
      done := r.1;
    }

    /** `write_final_install`. An existing receipt of that name stops it before it owns one. */
    method WriteFinalInstall(manifest: Bytes, name: string, proof: Bytes, expected: Label -> Bytes, faults: Faults, ghost was: Files)
      returns (ok: bool)
      requires Accepted(was) && Touched(fs, was, attempted, None) && receipt == None
      modifies this`fs, this`receipt
      ensures Touched(fs, was, attempted, receipt)
      ensures receipt.Some? <==> Receipt(name) !in was
      ensures ok ==> Manifest in fs && fs[Manifest] == File(manifest, PLAIN) && Receipt(name) in fs && fs[Receipt(name)] == File(proof, PLAIN)
      ensures ok ==> forall l :: InPlace(fs, l, expected(l))
      ensures Receipt(name) in was ==> !ok && fs == old(fs)
      ensures faults == map[] && Receipt(name) !in was && (forall l :: InPlace(old(fs), l, expected(l))) ==> ok
    {
      assert OutOfReach(Receipt(name), attempted, None);
      if Receipt(name) in fs { return false; }
      receipt := Some(Receipt(name));
      var done := WritePlain(Manifest, manifest, PointOf(faults, Manifest), expected, was);
      if !done { return false; }
      done := WritePlain(Receipt(name), proof, PointOf(faults, Receipt(name)), expected, was);
      if !done { return false; }
      ok := forall l :: InPlace(fs, l, expected(l));
    }

    /** One restore of the rollback. */
    method Restore(p: Path, s: Saved, at: Point, ghost was: Files) returns (failures: seq<Failure>)
      requires Touched(fs, was, attempted, receipt) && !OutOfReach(p, attempted, receipt) && p != BinDir && p != ReceiptsDir
      modifies this`fs
      ensures Touched(fs, was, attempted, receipt) && SameBut(fs, old(fs), p)
      ensures at.Never? ==> failures == [] && Agrees(fs, p, s)
    {
      RestoreWorks(fs, was, attempted, receipt, p, s, at);
      var r := RestoreOne(fs, p, s, at);
      fs := r.0;
      failures := if r.1 then [] else [RestoreFailed(p)];
    }

    method RestoreLaunchers(backup: Backup, faults: Faults, ghost was: Files) returns (failures: seq<Failure>)
      requires Touched(fs, was, attempted, receipt)
      modifies this`fs
      ensures Touched(fs, was, attempted, receipt) && SameButLaunchers(fs, old(fs))
      ensures faults == map[] ==> failures == [] && forall l :: l in attempted ==> Agrees(fs, Launcher(l), SavedFor(backup, l))
    {
      failures := [];
      for i := 0 to 3
        invariant Touched(fs, was, attempted, receipt) && SameButLaunchers(fs, old(fs))
        invariant faults == map[] ==> failures == []
        invariant faults == map[] ==> forall l :: Before(l, i) && l in attempted ==> Agrees(fs, Launcher(l), SavedFor(backup, l))
      {
        var l := LabelAt(i);
        if l in attempted {
          var more := Restore(Launcher(l), SavedFor(backup, l), PointOf(faults, Launcher(l)), was);
          failures := failures + more;
        }
      }
    }

    /** The restoring half of a rollback: manifest, attempted launchers, receipt. */
    method RestoreSaved(backup: Backup, faults: Faults, ghost was: Files) returns (failures: seq<Failure>)
      requires Touched(fs, was, attempted, receipt)
      modifies this`fs
      ensures Touched(fs, was, attempted, receipt)
      ensures faults == map[] ==> failures == [] && PreimageHolds(fs, backup, attempted, receipt, {})
    {
      failures := Restore(Manifest, backup.manifest, PointOf(faults, Manifest), was);
      var launchers := RestoreLaunchers(backup, faults, was);
      failures := failures + launchers;
      if receipt.Some? {
        var more := Restore(receipt.value, Absent, PointOf(faults, receipt.value), was);
        failures := failures + more;
      }
    }

    /** Removing the directories that were not there before. */
    method RemoveCreatedParents(created: seq<Path>, faults: Faults, ghost was: Files, ghost backup: Backup) returns (failures: seq<Failure>)
      requires Accepted(was) && backup == SaveAll(was) && Touched(fs, was, attempted, receipt)
      requires forall d :: d in created <==> d in {BinDir, ReceiptsDir} - was.Keys
      modifies this`fs
      ensures Touched(fs, was, attempted, receipt)
      ensures faults == map[] && PreimageHolds(old(fs), backup, attempted, receipt, {}) ==>
        failures == [] && PreimageHolds(fs, backup, attempted, receipt, {BinDir, ReceiptsDir} - was.Keys)
    {
      failures := [];
      ghost var gone: set<Path> := {};
      for i := 0 to |created|
        invariant Touched(fs, was, attempted, receipt)
        invariant faults == map[] && PreimageHolds(old(fs), backup, attempted, receipt, {}) ==>
          failures == [] && PreimageHolds(fs, backup, attempted, receipt, gone)
        invariant gone == set j | 0 <= j < i :: created[j]
      {
        var d := created[i];
        assert d in created;
        RemoveTouches(fs, was, attempted, receipt, d, PointOf(faults, d));
        if faults == map[] && PreimageHolds(old(fs), backup, attempted, receipt, {}) {
          RemoveWorks(fs, was, attempted, receipt, gone, d);
        }
        gone := gone + {d};
        var r := RemoveParent(fs, d, PointOf(faults, d));
        fs := r.0;
        if !r.1 { failures := failures + [RemoveFailed(d)]; }
      }
    }

    /** The closing check reads back everything the rollback answers for. */
    method VerifyPreimage(backup: Backup, created: seq<Path>) returns (failures: seq<Failure>)
      ensures failures == [] <==> PreimageHolds(fs, backup, attempted, receipt, set d | d in created)
    {
      failures := [];
      if !Agrees(fs, Manifest, backup.manifest) { failures := [VerifyFailed(Manifest)]; }
      for i := 0 to 3
        invariant failures == [] <==> (
          && Agrees(fs, Manifest, backup.manifest)
          && forall l :: Before(l, i) && l in attempted ==> Agrees(fs, Launcher(l), SavedFor(backup, l)))
      {
        var l := LabelAt(i);
        if l in attempted && !Agrees(fs, Launcher(l), SavedFor(backup, l)) { failures := failures + [VerifyFailed(Launcher(l))]; }
      }
      if receipt.Some? && receipt.value in fs { failures := failures + [VerifyFailed(receipt.value)]; }
      for i := 0 to |created|
        invariant failures == [] <==> PreimageHolds(fs, backup, attempted, receipt, set j | 0 <= j < i :: created[j])
      {
        if created[i] in fs { failures := failures + [VerifyFailed(created[i])]; }
      }
    }

    /** `rollback_install`. Without faults it restores the file system from every state an
        installation can leave, exactly, unless the manifest was a symlink leading nowhere: that one
        was not saved and is gone. With any faults, and even if others change the files before the
        closing check, an empty failure list means that the preimage holds; and it never removes a
        directory from under its entries. */
    method RollbackInstall(backup: Backup, created: seq<Path>, faults: Faults, outside: Option<Files>, ghost was: Files)
      returns (failures: seq<Failure>)
      requires Accepted(was) && backup == SaveAll(was) && Touched(fs, was, attempted, receipt)
      requires forall d :: d in created <==> d in {BinDir, ReceiptsDir} - was.Keys
      modifies this`fs
      ensures faults == map[] && outside.None? ==> (
        && failures == []
        && (fs == was <==> !(Manifest in was && was[Manifest].Symlink?))
        && (Manifest in was && was[Manifest].Symlink? ==> fs == was - {Manifest}))
      ensures failures == [] ==> PreimageHolds(fs, backup, attempted, receipt, {BinDir, ReceiptsDir} - was.Keys)
      ensures outside.None? ==> Rooted(fs)
    {
      var restoring := RestoreSaved(backup, faults, was);
      var removing := RemoveCreatedParents(created, faults, was, backup);
      if faults == map[] { RestoredExactly(fs, was, attempted, receipt); }
      if outside.Some? { fs := outside.value; }
      assert (set d | d in created) == {BinDir, ReceiptsDir} - was.Keys;
      var verifying := VerifyPreimage(backup, created);
      failures := restoring + removing + verifying;
    }
  }

  /** The launcher is a file with the expected bytes that somebody may execute. */
  predicate Runnable(fs: Files, l: Label, expected: Bytes) {
    && Launcher(l) in fs && fs[Launcher(l)].File? && fs[Launcher(l)].bytes == expected
    && (fs[Launcher(l)].mode & 0x40 != 0 || fs[Launcher(l)].mode & 0x08 != 0 || fs[Launcher(l)].mode & 0x01 != 0)
  }

  /** What an installation may change: manifest, launchers, its receipt and their directories. */
  predicate Installs(p: Path, name: string) { p.Manifest? || p.Launcher? || p == Receipt(name) || p == BinDir || p == ReceiptsDir }

  /** A whole installation: it is completely in place, with everything else and every launcher that
      was in place already left as it was; or, wherever it failed, it is rolled back to the files that
      were there. Without faults it succeeds if and only if the receipt's name is free. */
  method Install(was: Files, candidate: Bytes, final: Bytes, name: string, proof: Bytes, expected: Label -> Bytes,
                 early: Faults, late: Faults)
    returns (ok: bool, fs: Files, failures: seq<Failure>)
    requires Accepted(was)
    ensures ok ==> (
      && Manifest in fs && fs[Manifest] == File(final, PLAIN) && Receipt(name) in fs && fs[Receipt(name)] == File(proof, PLAIN)
      && forall l :: Runnable(fs, l, expected(l)))
    ensures ok ==> forall p :: (p in was || p in fs) && !Installs(p, name) ==> p in was && p in fs && fs[p] == was[p]
    ensures ok ==> forall l :: InPlace(was, l, expected(l)) ==> Launcher(l) in was && fs[Launcher(l)] == was[Launcher(l)]
    ensures !ok ==> failures == [] && (fs == was <==> !(Manifest in was && was[Manifest].Symlink?))
    ensures early == map[] && late == map[] ==> (ok <==> Receipt(name) !in was)
  {
    var backup := SaveAll(was);
    var created := (if BinDir in was then [] else [BinDir]) + (if ReceiptsDir in was then [] else [ReceiptsDir]);
    var installer := new Installer(was);
    ok := installer.WriteCandidateInstall(candidate, expected, early, was);
    if ok { ok := installer.WriteFinalInstall(final, name, proof, expected, late, was); }
    failures := [];
    if !ok { failures := installer.RollbackInstall(backup, created, map[], None, was); }
    fs := installer.fs;
    if ok {
      forall l ensures Runnable(fs, l, expected(l)) { assert InPlace(fs, l, expected(l)); }
    }
  }
}
