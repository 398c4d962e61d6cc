/** The part of the file system that evidence quarantine works on
    (src/bureau/closure_observer.py): the producer directory, the quarantine root and the
    transaction directories below it. Every directory has two views: its current entries
    and the entries of its last fsync. A crash returns each directory to the second view. */
module EvidenceDisk {
  import opened Prelude

  type Bytes = seq<int>

  const MAX_EVIDENCE_BUNDLE_BYTES := 1_048_576

  /** A directory entry's inode, its bytes, and what lstat and a JSON parse report of it. */
  datatype File = File(ino: nat, bytes: Bytes, regular: bool, jsonObject: bool)

  predicate Readable(f: File) {
    f.regular && |f.bytes| <= MAX_EVIDENCE_BUNDLE_BYTES && f.jsonObject
  }

  datatype Manifest = Manifest(sourceName: string, runId: string, digest: Digest<Bytes>, ino: nat)

  datatype ManifestFile = Valid(manifest: Manifest) | Corrupt

  /** What `preservation.json` parses to: a preservation receipt, no JSON object, or another kind. */
  datatype ReceiptFile = Kept | Unreadable | ForeignKind

  datatype TempKind = ManifestTmp | RebindTmp | FreezeTmp | PreservationTmp

  /** The entries of one transaction directory. */
  datatype Entries = Entries(
    manifest: Option<ManifestFile>,
    payload: Option<File>,
    receipt: Option<ReceiptFile>,
    temps: set<TempKind>)

  const NO_ENTRIES := Entries(None, None, None, {})

  datatype TxDir = TxDir(cur: Entries, syn: Entries)

  /** Names below the quarantine root; each carries its transaction id. */
  datatype DirName =
    | Pending(id: nat)
    | Item(source: Digest<string>, digest: Digest<Bytes>, id: nat)
    | Preserved(id: nat)

  datatype Disk = Disk(
    src: map<string, File>,
    srcSyn: map<string, File>,
    root: map<DirName, nat>,
    rootSyn: map<DirName, nat>,
    dirs: map<nat, TxDir>,
    nextIno: nat,
    nextDir: nat)

  /** A change to the entries of one transaction directory. */
  datatype Edit =
    | WriteTemp(kind: TempKind)
    | PutManifest(manifest: Manifest)
    | Rebind(source: string, runId: string)
    | PutFrozen(bytes: Bytes)
    | DropPayload
    | PutReceipt
    | DropTemps(kind: TempKind)
    | UnlinkMeta

  /** One directory operation of the protocol. */
  datatype Op =
    | Change(dir: nat, edit: Edit)
    | SyncTx(dir: nat)
    | SyncRoot
    | SyncSource
    | Move(name: string, dir: nat)
    | RenameTx(from: DirName, to: DirName)
    | RemoveTx(tx: DirName)

  function Cur(k: Disk, d: nat): Entries {
    if d in k.dirs then k.dirs[d].cur else NO_ENTRIES
  }

  function Syn(k: Disk, d: nat): Entries {
    if d in k.dirs then k.dirs[d].syn else NO_ENTRIES
  }

  /** The manifest a transaction gets when it is bound to the payload it holds. */
  function BoundManifest(source: string, runId: string, f: File): Manifest {
    Manifest(source, runId, Sha256(f.bytes), f.ino)
  }

  function Edited(e: Entries, edit: Edit, ino: nat): Entries {
    match edit
    case WriteTemp(t) => e.(temps := e.temps + {t})
    case PutManifest(m) => e.(manifest := Some(Valid(m)), temps := e.temps - {ManifestTmp})
    case Rebind(source, runId) =>
      if e.payload.None? then e
      else e.(manifest := Some(Valid(BoundManifest(source, runId, e.payload.value))), temps := e.temps - {RebindTmp})
    case PutFrozen(b) =>
      if e.payload.None? then e
      else e.(payload := Some(e.payload.value.(ino := ino, bytes := b)), temps := e.temps - {FreezeTmp})
    case DropPayload => e.(payload := None)
    case PutReceipt => e.(receipt := Some(Kept), temps := e.temps - {PreservationTmp})
    case DropTemps(t) => e.(temps := e.temps - {t})
    case UnlinkMeta => e.(manifest := None, temps := {})
  }

  function SetDir(k: Disk, d: nat, t: TxDir): Disk {
    k.(dirs := k.dirs[d := t])
  }

  /** Whether the system call behind an operation succeeds on an error-free disk. */
  predicate Enabled(k: Disk, op: Op) {
    match op
    case Change(d, _) => d in k.dirs
    case SyncTx(d) => d in k.dirs
    case Move(n, d) => n in k.src && d in k.dirs
    case RenameTx(from, to) => from in k.root && to !in k.root
    case RemoveTx(x) => x in k.root && Cur(k, k.root[x]) == NO_ENTRIES
    case SyncRoot => true
    case SyncSource => true
  }

  function Apply(k: Disk, op: Op): Disk
    requires Enabled(k, op)
  {
    match op
    case Change(d, edit) =>
      SetDir(k, d, TxDir(Edited(k.dirs[d].cur, edit, k.nextIno), k.dirs[d].syn))
      .(nextIno := if edit.PutFrozen? then k.nextIno + 1 else k.nextIno)
    case SyncTx(d) => SetDir(k, d, TxDir(k.dirs[d].cur, k.dirs[d].cur))
    case SyncRoot => k.(rootSyn := k.root)
    case SyncSource => k.(srcSyn := k.src)
    case Move(n, d) =>
      SetDir(k, d, TxDir(k.dirs[d].cur.(payload := Some(k.src[n])), k.dirs[d].syn)).(src := k.src - {n})
    case RenameTx(from, to) => k.(root := (k.root - {from})[to := k.root[from]])
    case RemoveTx(x) => k.(root := k.root - {x})
  }

  /** Executes operations in order up to the first one that raises. */
  function RunOps(k: Disk, ops: seq<Op>): Disk
    decreases |ops|
  {
    if ops == [] || !Enabled(k, ops[0]) then k else RunOps(Apply(k, ops[0]), ops[1..])
  }

  /** `tempfile.mkdtemp`: a new, still empty transaction directory under a pending name. */
  function MakeTx(k: Disk, id: nat): Disk {
    k.(root := k.root[Pending(id) := k.nextDir],
       dirs := k.dirs[k.nextDir := TxDir(NO_ENTRIES, NO_ENTRIES)],
       nextDir := k.nextDir + 1)
  }

  /** `os.link` of a staged payload back to its source name. */
  function LinkBack(k: Disk, name: string, f: File): Disk {
    k.(src := k.src[name := f])
  }

  /** A producer publishes a new file under a source name, replacing what was there. */
  function Publish(k: Disk, name: string, f: File): Disk {
    k.(src := k.src[name := f.(ino := k.nextIno)], nextIno := k.nextIno + 1)
  }

  /** Power loss: every directory returns to its last-synced entries. */
  function Crash(k: Disk): Disk {
    k.(src := k.srcSyn, root := k.rootSyn,
       dirs := map d | d in k.dirs :: TxDir(k.dirs[d].syn, k.dirs[d].syn))
  }

  /* ---- where evidence is ---- */

  ghost predicate InSource(m: map<string, File>, b: Bytes) {
    exists n :: n in m && m[n].bytes == b
  }

  function Contents(m: map<string, File>): set<Bytes> {
    set n | n in m :: m[n].bytes
  }

  predicate Holds(e: Entries, b: Bytes) {
    e.payload.Some? && e.payload.value.bytes == b
  }

  /** The bytes can be reached now: at a source name or in a directory of the quarantine root. */
  ghost predicate Reachable(k: Disk, b: Bytes) {
    InSource(k.src, b) || exists x :: x in k.root && Holds(Cur(k, k.root[x]), b)
  }

  /** A staged payload the transaction directory's last fsync does not hold yet. */
  predicate Unsynced(t: TxDir) {
    t.cur.payload.Some? && !Holds(t.syn, t.cur.payload.value.bytes)
  }

  /** No transaction directory with a durable name holds a payload it has not synced. */
  predicate NoUnsyncedStage(k: Disk) {
    forall x :: x in k.rootSyn && k.rootSyn[x] in k.dirs ==> !Unsynced(k.dirs[k.rootSyn[x]])
  }
}
