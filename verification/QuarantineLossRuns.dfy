/** Runs from the empty quarantine in which durable evidence is lost though nobody overwrote it:
    one for each way the syncs of a run can be unsafe. */
module QuarantineLossRuns {
  import opened Prelude
  import opened EvidenceDisk
  import opened QuarantineProtocol
  import opened QuarantineRuns
  import opened QuarantineHazards
  import opened QuarantineRecovery

  /* ---- pieces of runs ---- */

  ghost predicate Goes(s: State, run: seq<Label>, t: State) { CanRun(s, run) && Run(s, run) == t }

  lemma GoesOne(s: State, l: Label)
    requires CanHappen(s, l)
    ensures Goes(s, [l], Step(s, l))
  {
    assert [l][1..] == [];
    assert Run(s, [l]) == Run(Step(s, l), []);
  }

  lemma GoesThen(s: State, a: seq<Label>, t: State, b: seq<Label>, u: State)
    requires Goes(s, a, t) && Goes(t, b, u)
    ensures Goes(s, a + b, u)
  {
    RunThen(s, a, b);
  }

  /** A step after a piece of run. */
  lemma GoesOn(s: State, a: seq<Label>, t: State, l: Label)
    requires Goes(s, a, t) && CanHappen(t, l)
    ensures Goes(s, a + [l], Step(t, l))
  {
    GoesOne(t, l);
    GoesThen(s, a, t, [l], Step(t, l));
  }

  lemma {:induction false} NoOverwrites(s: State, run: seq<Label>, b: Bytes)
    requires CanRun(s, run) && forall l :: l in run ==> !l.Overwrite?
    ensures !Overwritten(s, run, b)
    decreases |run|
  {
    if run != [] { NoOverwrites(Step(s, run[0]), run[1..], b); }
  }

  lemma {:induction false} OverwrittenThen(s: State, a: seq<Label>, b: seq<Label>, e: Bytes)
    requires CanRun(s, a) && CanRun(Run(s, a), b) && CanRun(s, a + b)
    ensures Overwritten(s, a + b, e) <==> Overwritten(s, a, e) || Overwritten(Run(s, a), b, e)
    decreases |a|
  {
    if a == [] {
      assert a + b == b;
    } else {
      assert (a + b)[1..] == a[1..] + b;
      OverwrittenThen(Step(s, a[0]), a[1..], b, e);
    }
  }

  predicate Quiet(run: seq<Label>) { forall l :: l in run ==> !l.Overwrite? }

  /** After `before` the bytes are evidence the protocol answers for, no producer overwrites them
      during `run`, and at the end they are gone. */
  ghost predicate Lost(s0: State, before: seq<Label>, run: seq<Label>, b: Bytes) {
    && CanRun(s0, before) && b in Run(s0, before).ledger
    && CanRun(Run(s0, before), run) && !Overwritten(Run(s0, before), run, b)
    && !Reachable(Run(Run(s0, before), run).disk, b)
  }

  lemma Loses(s0: State, before: seq<Label>, s: State, run: seq<Label>, t: State, b: Bytes)
    requires Goes(s0, before, s) && b in s.ledger && Goes(s, run, t) && Quiet(run) && !Reachable(t.disk, b)
    ensures Lost(s0, before, run, b)
  {
    NoOverwrites(s, run, b);
  }

  /** The one overwrite of a run creates the name anew, so it takes nothing. */
  lemma QuietAround(s: State, a: seq<Label>, t: State, l: Label, b: seq<Label>, u: State, e: Bytes)
    requires Goes(s, a, t) && Quiet(a) && CanHappen(t, l) && l.Overwrite? && l.name !in t.disk.src
    requires Goes(Step(t, l), b, u) && Quiet(b)
    ensures Goes(s, a + [l] + b, u) && !Overwritten(s, a + [l] + b, e)
  {
    NoOverwrites(s, a, e);
    NoOverwrites(Step(t, l), b, e);
    assert a + [l] + b == a + ([l] + b) && ([l] + b)[1..] == b;
    GoesOne(t, l);
    GoesThen(t, [l], Step(t, l), b, u);
    GoesThen(s, a, t, [l] + b, u);
    OverwrittenThen(s, a, [l] + b, e);
  }

  lemma LosesAround(s0: State, before: seq<Label>, s: State, a: seq<Label>, t: State, l: Label, b: seq<Label>, u: State, e: Bytes)
    requires Goes(s0, before, s) && e in s.ledger
    requires Goes(s, a, t) && Quiet(a) && CanHappen(t, l) && l.Overwrite? && l.name !in t.disk.src
    requires Goes(Step(t, l), b, u) && Quiet(b) && !Reachable(u.disk, e)
    ensures Lost(s0, before, a + [l] + b, e)
  {
    QuietAround(s, a, t, l, b, u, e);
  }

  /* ---- staging one entry ---- */

  function Bound(n: string, f: File): Entries {
    Entries(Some(Valid(BoundManifest(n, RunIdOf(n), f))), None, None, {})
  }

  /** The transaction's entries and synced entries after `pc` staging operations: `f` was read
      before, `moved` is what the move finds. */
  function StageCur(n: string, f: File, moved: File, pc: nat): Entries {
    if pc == 0 then NO_ENTRIES
    else if pc == 1 then NO_ENTRIES.(temps := {ManifestTmp})
    else if pc < 5 then Bound(n, f) else Bound(n, f).(payload := Some(moved))
  }

  function StageSyn(n: string, f: File, moved: File, pc: nat): Entries {
    if pc < 3 then NO_ENTRIES else if pc < 6 then Bound(n, f) else Bound(n, f).(payload := Some(moved))
  }

  /** The disk `k` after a transaction for entry `n` was made and `pc` staging operations done. */
  function StageDisk(k: Disk, n: string, id: nat, f: File, moved: File, pc: nat): Disk {
    var root := k.root[Pending(id) := k.nextDir];
    var src := if pc < 5 then k.src else k.src - {n};
    Disk(src, if pc < 7 then k.srcSyn else src, root, if pc < 4 then k.rootSyn else root,
         k.dirs[k.nextDir := TxDir(StageCur(n, f, moved, pc), StageSyn(n, f, moved, pc))], k.nextIno, k.nextDir + 1)
  }

  function Staging(k: Disk, n: string, id: nat, f: File): Program { Stage(n, k.nextDir, id, RunIdOf(n), f) }

  function Inspection(k: Disk, n: string, id: nat, f: File, rest: seq<string>): Task {
    Inspecting(n, k.nextDir, id, RunIdOf(n), f, rest)
  }

  lemma StageOp(k: Disk, n: string, id: nat, f: File, moved: File, pc: nat)
    requires pc < 7 && n in k.src && k.src[n] == moved
    ensures var k', op := StageDisk(k, n, id, f, moved, pc), Ops(Staging(k, n, id, f))[pc];
      Enabled(k', op) && Apply(k', op) == StageDisk(k, n, id, f, moved, pc + 1)
  {
    var k', d := StageDisk(k, n, id, f, moved, pc), k.nextDir;
    var t, t' := k'.dirs[d], TxDir(StageCur(n, f, moved, pc + 1), StageSyn(n, f, moved, pc + 1));
    assert {} + {ManifestTmp} == {ManifestTmp} && {ManifestTmp} - {ManifestTmp} == {};
    assert k.dirs[d := t][d := t'] == k.dirs[d := t'];
  }

  /** The state after `pc` staging operations. */
  function StageState(k: Disk, n: string, id: nat, f: File, moved: File, rest: seq<string>, pc: nat, ledger: set<Bytes>): State {
    var next := Inspection(k, n, id, f, rest);
    State(StageDisk(k, n, id, f, moved, pc), if pc < 7 then Running(Staging(k, n, id, f), pc, next) else Deciding(next),
          if pc < 7 then ledger else ledger + Contents(k.src - {n}))
  }

  lemma {:induction false} StageWorks(k: Disk, n: string, id: nat, f: File, moved: File, rest: seq<string>, pc: nat, j: nat, ledger: set<Bytes>)
    requires pc + j <= 7 && n in k.src && k.src[n] == moved
    ensures Goes(StageState(k, n, id, f, moved, rest, pc, ledger), Works(j), StageState(k, n, id, f, moved, rest, pc + j, ledger))
    decreases j
  {
    if j > 0 {
      var s := StageState(k, n, id, f, moved, rest, pc, ledger);
      StageOp(k, n, id, f, moved, pc);
      GoesOne(s, Work(0));
      StageWorks(k, n, id, f, moved, rest, pc + 1, j - 1, ledger);
      GoesThen(s, [Work(0)], StageState(k, n, id, f, moved, rest, pc + 1, ledger), Works(j - 1), StageState(k, n, id, f, moved, rest, pc + j, ledger));
      assert [Work(0)] + Works(j - 1) == Works(j);
    }
  }

  /** The worker takes up a readable entry. */
  lemma StageBegins(k: Disk, n: string, id: nat, rest: seq<string>, ledger: set<Bytes>)
    requires FreshId(k, id) && n in k.src && Readable(k.src[n])
    ensures Goes(State(k, Deciding(Quarantining([n] + rest)), ledger), [Work(id)], StageState(k, n, id, k.src[n], k.src[n], rest, 0, ledger))
  {
    assert ([n] + rest)[1..] == rest;
    GoesOne(State(k, Deciding(Quarantining([n] + rest)), ledger), Work(id));
  }

  /** The worker takes up a readable entry and executes `j` operations of staging it. */
  lemma StageFrom(k: Disk, n: string, id: nat, rest: seq<string>, j: nat, ledger: set<Bytes>)
    requires FreshId(k, id) && n in k.src && Readable(k.src[n]) && j <= 7
    ensures Goes(State(k, Deciding(Quarantining([n] + rest)), ledger), [Work(id)] + Works(j),
                 StageState(k, n, id, k.src[n], k.src[n], rest, j, ledger))
  {
    var f := k.src[n];
    StageBegins(k, n, id, rest, ledger);
    StageWorks(k, n, id, f, f, rest, 0, j, ledger);
    GoesThen(State(k, Deciding(Quarantining([n] + rest)), ledger), [Work(id)], StageState(k, n, id, f, f, rest, 0, ledger),
             Works(j), StageState(k, n, id, f, f, rest, j, ledger));
  }

  /** An idle worker with nothing pending starts a pass over the given entries. */
  lemma PassBegins(k: Disk, entries: seq<string>, ledger: set<Bytes>)
    requires PendingNames(k, [])
    ensures Goes(State(k, Idle, ledger), [StartPass([]), Enumerate(entries)], State(k, Deciding(Quarantining(entries)), ledger))
  {
    var s := State(k, Idle, ledger);
    GoesOne(s, StartPass([]));
    GoesOn(s, [StartPass([])], Step(s, StartPass([])), Enumerate(entries));
    assert [StartPass([])] + [Enumerate(entries)] == [StartPass([]), Enumerate(entries)];
  }

  /* ---- the evidence ---- */

  const A := "a.json"
  const B := "b.json"
  const FILE_A := File(0, [1], true, true)
  const FILE_B := File(1, [2], true, true)

  const EMPTY := State(Disk(map[], map[], map[], map[], map[], 0, 0), Idle, {})

  /** Two entries, published and synced. */
  const PUBLISHED := Disk(map[A := FILE_A, B := FILE_B], map[A := FILE_A, B := FILE_B], map[], map[], map[], 2, 0)

  const PUBLISHING: seq<Label> := [Overwrite(A, FILE_A), Overwrite(B, FILE_B), ForeignSync]

  lemma Publishing()
    ensures Goes(EMPTY, PUBLISHING, State(PUBLISHED, Idle, {[1], [2]}))
  {
    var s1 := Step(EMPTY, PUBLISHING[0]);
    var s2 := Step(s1, PUBLISHING[1]);
    var s3 := Step(s2, PUBLISHING[2]);
    assert A[0] != B[0];
    assert s2.disk.src == PUBLISHED.src;
    assert PUBLISHED.src[A].bytes == [1] && PUBLISHED.src[B].bytes == [2];
    assert Contents(PUBLISHED.src) == {[1], [2]};
    assert {} + {[1], [2]} == {[1], [2]};
    assert s3 == State(PUBLISHED, Idle, {[1], [2]});
    PassedRun([EMPTY, s1, s2, s3], PUBLISHING);
  }

  /* ---- a foreign sync in the window ---- */

  /** The first entry is moved and its transaction not yet synced. */
  const MOVED := StageDisk(PUBLISHED, A, 0, FILE_A, FILE_A, 5)

  const LEDGER: set<Bytes> := {[1], [2]}

  /** A pass that begins with the first entry, up to `j` operations of staging it. */
  function FirstEntry(rest: seq<string>, j: nat): seq<Label> { [StartPass([]), Enumerate([A] + rest)] + ([Work(0)] + Works(j)) }

  lemma StagesFirst(rest: seq<string>, j: nat)
    requires j <= 7
    ensures Goes(State(PUBLISHED, Idle, LEDGER), FirstEntry(rest, j), StageState(PUBLISHED, A, 0, FILE_A, FILE_A, rest, j, LEDGER))
  {
    var s := State(PUBLISHED, Idle, LEDGER);
    PassBegins(PUBLISHED, [A] + rest, LEDGER);
    StageFrom(PUBLISHED, A, 0, rest, j, LEDGER);
    GoesThen(s, [StartPass([]), Enumerate([A] + rest)], State(PUBLISHED, Deciding(Quarantining([A] + rest)), LEDGER),
             [Work(0)] + Works(j), StageState(PUBLISHED, A, 0, FILE_A, FILE_A, rest, j, LEDGER));
  }

  function Window(): seq<Label> { FirstEntry([], 5) + [ForeignSync] + [PowerLoss] }

  lemma WindowRuns() returns (t: State)
    ensures Goes(State(PUBLISHED, Idle, LEDGER), Window(), t) && t.disk == Crash(Apply(MOVED, SyncSource))
  {
    var s, u := State(PUBLISHED, Idle, LEDGER), StageState(PUBLISHED, A, 0, FILE_A, FILE_A, [], 5, LEDGER);
    StagesFirst([], 5);
    GoesOn(s, FirstEntry([], 5), u, ForeignSync);
    GoesOn(s, FirstEntry([], 5) + [ForeignSync], Step(u, ForeignSync), PowerLoss);
    t := Step(Step(u, ForeignSync), PowerLoss);
  }

  lemma WindowQuiet()
    ensures Quiet(Window())
  {
  }

  /** Evidence is published and synced, a pass moves it into its transaction, a producer syncs the
      source directory, the machine crashes - and the evidence is gone. */
  lemma EvidenceLostInWindow()
    ensures Lost(EMPTY, PUBLISHING, Window(), [1])
  {
    Publishing();
    var t := WindowRuns();
    WindowEnd();
    WindowQuiet();
    Loses(EMPTY, PUBLISHING, State(PUBLISHED, Idle, LEDGER), Window(), t, [1]);
  }

  lemma WindowEnd()
    ensures !Reachable(Crash(Apply(MOVED, SyncSource)), [1])
  {
    var k := Crash(Apply(MOVED, SyncSource));
    assert k.src.Keys == {B} && k.src[B].bytes == [2];
    assert forall x :: x in k.root ==> Cur(k, k.root[x]) == Bound(A, FILE_A);
  }

  /* ---- a failed sync of the transaction directory ---- */

  function FailedSync(): seq<Label> { FirstEntry([B], 5) + [IoError] + ([Work(1)] + Works(7)) + [PowerLoss] }

  /** The sync of the first transaction fails, the pass goes on to the second entry, and that
      entry's own source sync makes the first one's removal durable. */
  lemma EvidenceLostAfterFailedSync()
    ensures Lost(EMPTY, PUBLISHING, FailedSync(), [1])
  {
    Publishing();
    var t := FailedSyncRuns();
    FailedSyncQuiet();
    FailedSyncEnd();
    Loses(EMPTY, PUBLISHING, State(PUBLISHED, Idle, LEDGER), FailedSync(), t, [1]);
  }

  lemma FailedSyncQuiet()
    ensures Quiet(FailedSync())
  {
  }

  lemma FailedSyncRuns() returns (t: State)
    ensures Goes(State(PUBLISHED, Idle, LEDGER), FailedSync(), t) && t.disk == Crash(StageDisk(MOVED, B, 1, FILE_B, FILE_B, 7))
  {
    var s := State(PUBLISHED, Idle, LEDGER);
    var s1 := StageState(PUBLISHED, A, 0, FILE_A, FILE_A, [B], 5, LEDGER);
    var s2 := State(MOVED, Deciding(Quarantining([B])), LEDGER);
    var s3 := StageState(MOVED, B, 1, FILE_B, FILE_B, [], 7, LEDGER);
    StagesFirst([B], 5);
    SyncFails();
    GoesOn(s, FirstEntry([B], 5), s1, IoError);
    MovedNext();
    StageFrom(MOVED, B, 1, [], 7, LEDGER);
    assert [B] + [] == [B];
    GoesThen(s, FirstEntry([B], 5) + [IoError], s2, [Work(1)] + Works(7), s3);
    GoesOn(s, FirstEntry([B], 5) + [IoError] + ([Work(1)] + Works(7)), s3, PowerLoss);
    t := Step(s3, PowerLoss);
  }

  lemma SyncFails()
    ensures var s := StageState(PUBLISHED, A, 0, FILE_A, FILE_A, [B], 5, LEDGER);
      CanHappen(s, IoError) && Step(s, IoError) == State(MOVED, Deciding(Quarantining([B])), LEDGER)
  {
  }

  lemma MovedNext()
    ensures FreshId(MOVED, 1) && B in MOVED.src && MOVED.src[B] == FILE_B && Readable(FILE_B)
  {
    assert A[0] != B[0];
  }

  lemma FailedSyncEnd()
    ensures !Reachable(Crash(StageDisk(MOVED, B, 1, FILE_B, FILE_B, 7)), [1])
  {
    var k := Crash(StageDisk(MOVED, B, 1, FILE_B, FILE_B, 7));
    assert k.src == map[];
    assert forall x :: x in k.root ==>
      Cur(k, k.root[x]) == Bound(A, FILE_A) || Cur(k, k.root[x]) == Bound(B, FILE_B).(payload := Some(FILE_B));
  }

  /* ---- a kill before the preservation receipt is synced ---- */

  /** An unreadable file that a producer puts in the place of the first entry. */
  const OPAQUE_FILE := File(2, [3], true, false)

  /** The published disk with that file in place, and synced. */
  const SWAPPED := Disk(map[A := OPAQUE_FILE, B := FILE_B], map[A := OPAQUE_FILE, B := FILE_B], map[], map[], map[], 3, 0)

  function Swapping(): seq<Label> { FirstEntry([], 4) + [Overwrite(A, OPAQUE_FILE)] + [ForeignSync] }

  const STAGED_OPAQUE := StageDisk(SWAPPED, A, 0, FILE_A, OPAQUE_FILE, 5)

  lemma SwappingRuns()
    ensures Goes(State(PUBLISHED, Idle, LEDGER), Swapping(), StageState(SWAPPED, A, 0, FILE_A, OPAQUE_FILE, [], 4, {[2], [3]}))
  {
    var s := State(PUBLISHED, Idle, LEDGER);
    var s1 := StageState(PUBLISHED, A, 0, FILE_A, FILE_A, [], 4, LEDGER);
    StagesFirst([], 4);
    SwapSteps();
    GoesOn(s, FirstEntry([], 4), s1, Overwrite(A, OPAQUE_FILE));
    GoesOn(s, FirstEntry([], 4) + [Overwrite(A, OPAQUE_FILE)], Step(s1, Overwrite(A, OPAQUE_FILE)), ForeignSync);
  }

  lemma SwapSteps()
    ensures var s1 := StageState(PUBLISHED, A, 0, FILE_A, FILE_A, [], 4, LEDGER);
      var s2 := Step(s1, Overwrite(A, OPAQUE_FILE));
      Step(s2, ForeignSync) == StageState(SWAPPED, A, 0, FILE_A, OPAQUE_FILE, [], 4, {[2], [3]})
  {
    var s1 := StageState(PUBLISHED, A, 0, FILE_A, FILE_A, [], 4, LEDGER);
    var s2 := Step(s1, Overwrite(A, OPAQUE_FILE));
    assert A[0] != B[0];
    assert s2.disk.src == SWAPPED.src;
    assert SWAPPED.src[A].bytes == [3] && SWAPPED.src[B].bytes == [2];
    assert Contents(SWAPPED.src) == {[2], [3]};
    assert s2.ledger == {[2]};
    assert {[2]} + {[2], [3]} == {[2], [3]};
  }

  /** From the swap to the kill that leaves an unsynced payload with an unsynced receipt. */
  function HazardousRun(): seq<Label> { Works(1) + [Kill] + [StartPass([Pending(0)])] + [Work(0)] + [Work(0)] + [Work(0)] + [Kill] }

  const RECEIPTED := STAGED_OPAQUE.(dirs := map[0 := TxDir(Bound(A, FILE_A).(payload := Some(OPAQUE_FILE), receipt := Some(Kept)), Bound(A, FILE_A))])

  lemma HazardousRunRuns()
    ensures Goes(StageState(SWAPPED, A, 0, FILE_A, OPAQUE_FILE, [], 4, {[2], [3]}), HazardousRun(), State(RECEIPTED, Idle, {[2], [3]}))
    ensures AdoptableUnsynced(RECEIPTED, 0, 0, [3])
  {
    var ledger: set<Bytes> := {[2], [3]};
    var s := StageState(SWAPPED, A, 0, FILE_A, OPAQUE_FILE, [], 4, ledger);
    var s1 := StageState(SWAPPED, A, 0, FILE_A, OPAQUE_FILE, [], 5, ledger);
    var s2 := State(STAGED_OPAQUE, Idle, ledger);
    StageWorks(SWAPPED, A, 0, FILE_A, OPAQUE_FILE, [], 4, 1, ledger);
    GoesOn(s, Works(1), s1, Kill);
    PreserveSteps();
    var s3 := Step(s2, StartPass([Pending(0)]));
    var s4 := Step(s3, Work(0));
    var s5 := Step(s4, Work(0));
    var s6 := Step(s5, Work(0));
    GoesOn(s, Works(1) + [Kill], s2, StartPass([Pending(0)]));
    GoesOn(s, Works(1) + [Kill] + [StartPass([Pending(0)])], s3, Work(0));
    GoesOn(s, Works(1) + [Kill] + [StartPass([Pending(0)])] + [Work(0)], s4, Work(0));
    GoesOn(s, Works(1) + [Kill] + [StartPass([Pending(0)])] + [Work(0)] + [Work(0)], s5, Work(0));
    GoesOn(s, Works(1) + [Kill] + [StartPass([Pending(0)])] + [Work(0)] + [Work(0)] + [Work(0)], s6, Kill);
    Adoptable();
  }

  /** Recovery chooses to preserve the unreadable payload and puts the receipt in place. */
  lemma PreserveSteps()
    ensures var ledger: set<Bytes> := {[2], [3]};
      var s2 := State(STAGED_OPAQUE, Idle, ledger);
      CanHappen(s2, StartPass([Pending(0)])) &&
      var s3 := Step(s2, StartPass([Pending(0)]));
      CanHappen(s3, Work(0)) &&
      var s4 := Step(s3, Work(0));
      CanHappen(s4, Work(0)) &&
      var s5 := Step(s4, Work(0));
      CanHappen(s5, Work(0)) &&
      Step(s5, Work(0)) == State(RECEIPTED, Running(Preserve(0, 0), 2, Recovering([])), ledger)
  {
    var ledger: set<Bytes> := {[2], [3]};
    var s3 := State(STAGED_OPAQUE, Deciding(Recovering([Pending(0)])), ledger);
    assert [Pending(0)][1..] == [];
    assert Step(s3, Work(0)) == State(STAGED_OPAQUE, Running(Preserve(0, 0), 0, Recovering([])), ledger);
    var d := STAGED_OPAQUE.dirs[0];
    var k1 := STAGED_OPAQUE.(dirs := map[0 := TxDir(d.cur.(temps := {PreservationTmp}), d.syn)]);
    assert {} + {PreservationTmp} == {PreservationTmp} && {PreservationTmp} - {PreservationTmp} == {};
    assert Apply(STAGED_OPAQUE, Ops(Preserve(0, 0))[0]).dirs == k1.dirs;
    assert Apply(k1, Ops(Preserve(0, 0))[1]).dirs == RECEIPTED.dirs;
  }

  lemma Adoptable()
    ensures AdoptableUnsynced(RECEIPTED, 0, 0, [3])
  {
    assert RECEIPTED.src.Keys == {B} && RECEIPTED.src[B].bytes == [2];
  }

  /** The next pass adopts the transaction and quarantines the other entry; then the power fails. */
  function AdoptingRun(): seq<Label> { AdoptPass(0) + [Enumerate([B])] + ([Work(1)] + Works(7)) + [PowerLoss] }

  const ADOPTED := RECEIPTED.(root := map[Preserved(0) := 0], rootSyn := map[Preserved(0) := 0])

  lemma AdoptingRuns() returns (t: State)
    ensures Goes(State(RECEIPTED, Idle, {[2], [3]}), AdoptingRun(), t) && t.disk == Crash(StageDisk(ADOPTED, B, 1, FILE_B, FILE_B, 7))
  {
    var ledger: set<Bytes> := {[2], [3]};
    var s := State(RECEIPTED, Idle, ledger);
    var s1 := State(ADOPTED, Deciding(Recovering([])), ledger);
    AdoptedBy();
    GoesOn(s, AdoptPass(0), s1, Enumerate([B]));
    AdoptedNext();
    StageFrom(ADOPTED, B, 1, [], 7, ledger);
    assert [B] + [] == [B];
    var s2, s3 := State(ADOPTED, Deciding(Quarantining([B])), ledger), StageState(ADOPTED, B, 1, FILE_B, FILE_B, [], 7, ledger);
    GoesThen(s, AdoptPass(0) + [Enumerate([B])], s2, [Work(1)] + Works(7), s3);
    GoesOn(s, AdoptPass(0) + [Enumerate([B])] + ([Work(1)] + Works(7)), s3, PowerLoss);
    t := Step(s3, PowerLoss);
  }

  lemma AdoptedBy()
    ensures Goes(State(RECEIPTED, Idle, {[2], [3]}), AdoptPass(0), State(ADOPTED, Deciding(Recovering([])), {[2], [3]}))
  {
    var s := State(RECEIPTED, Idle, {[2], [3]});
    Adoptable();
    AdoptSteps(s, 0, 0, [3]);
    var k1 := RECEIPTED.(root := map[Preserved(0) := 0]);
    assert Apply(RECEIPTED, RenameTx(Pending(0), Preserved(0))).root == k1.root;
    var s1 := s.(worker := Deciding(Recovering([Pending(0)])));
    var s2 := s.(worker := Running(Adopt(0, 0), 0, Recovering([])));
    var s3 := s.(disk := k1, worker := Running(Adopt(0, 0), 1, Recovering([])));
    var s4 := s.(disk := ADOPTED, worker := Deciding(Recovering([])));
    assert Leads(s2, AdoptPass(0)[2], s3) && Leads(s3, AdoptPass(0)[3], s4);
    PassedRun([s, s1, s2, s3, s4], AdoptPass(0));
  }

  lemma AdoptedNext()
    ensures FreshId(ADOPTED, 1) && B in ADOPTED.src && ADOPTED.src[B] == FILE_B && Readable(FILE_B)
  {
    assert A[0] != B[0];
  }

  lemma AdoptedEnd()
    ensures !Reachable(Crash(StageDisk(ADOPTED, B, 1, FILE_B, FILE_B, 7)), [3])
  {
    var k := Crash(StageDisk(ADOPTED, B, 1, FILE_B, FILE_B, 7));
    assert k.src == map[];
    assert forall x :: x in k.root ==>
      Cur(k, k.root[x]) == Bound(A, FILE_A) || Cur(k, k.root[x]) == Bound(B, FILE_B).(payload := Some(FILE_B));
  }

  function Adoption(): seq<Label> { HazardousRun() + AdoptingRun() }

  /** A kill after the receipt of an unsynced, unreadable payload was put in place makes the next
      pass adopt it unsynced; the pass's own next source sync and a crash lose it. */
  lemma EvidenceLostByAdoption()
    ensures Lost(EMPTY, PUBLISHING + Swapping(), Adoption(), [3])
  {
    var s := StageState(SWAPPED, A, 0, FILE_A, OPAQUE_FILE, [], 4, {[2], [3]});
    SwappedFromEmpty();
    HazardousRunRuns();
    var t := AdoptingRuns();
    GoesThen(s, HazardousRun(), State(RECEIPTED, Idle, {[2], [3]}), AdoptingRun(), t);
    AdoptedEnd();
    AdoptionQuiet();
    Loses(EMPTY, PUBLISHING + Swapping(), s, Adoption(), t, [3]);
  }

  lemma SwappedFromEmpty()
    ensures Goes(EMPTY, PUBLISHING + Swapping(), StageState(SWAPPED, A, 0, FILE_A, OPAQUE_FILE, [], 4, {[2], [3]}))
  {
    Publishing();
    SwappingRuns();
    GoesThen(EMPTY, PUBLISHING, State(PUBLISHED, Idle, LEDGER), Swapping(), StageState(SWAPPED, A, 0, FILE_A, OPAQUE_FILE, [], 4, {[2], [3]}));
  }

  lemma AdoptionQuiet()
    ensures Quiet(Adoption())
  {
  }

  /* ---- a transaction sync that forgets ---- */

  /** A readable file in the place of the first entry: the quarantine puts it back. */
  const FILE_C := File(2, [3], true, true)
  const FILE_D := File(3, [4], true, true)

  const SRC_C := map[A := FILE_C, B := FILE_B]
  const ONLY_B := map[B := FILE_B]
  const HOLDS_C := Bound(A, FILE_A).(payload := Some(FILE_C))
  const FIRST := map[Pending(0) := 0]

  /** The first entry was replaced after its manifest was written. */
  const REPLACED := PUBLISHED.(src := SRC_C, nextIno := 3)

  /** The replacement is linked back and synced at its source name; `cur` is what is left of the
      transaction that its last sync saw with the payload. */
  function PutBack(cur: Entries): Disk { Disk(SRC_C, SRC_C, FIRST, FIRST, map[0 := TxDir(cur, HOLDS_C)], 3, 1) }

  function Replacing(): seq<Label> { FirstEntry([], 4) + [Overwrite(A, FILE_C)] + Works(3) + [Work(0)] + [Work(0)] }

  lemma ReplaceStep()
    ensures Step(StageState(PUBLISHED, A, 0, FILE_A, FILE_A, [], 4, LEDGER), Overwrite(A, FILE_C))
         == StageState(REPLACED, A, 0, FILE_A, FILE_C, [], 4, {[2]})
  {
    assert A[0] != B[0];
    assert PUBLISHED.src[A := FILE_C] == SRC_C;
    assert LEDGER - {[1]} == {[2]};
  }

  lemma PutBackSteps()
    ensures var s := StageState(REPLACED, A, 0, FILE_A, FILE_C, [], 7, {[2]});
      CanHappen(s, Work(0)) && CanHappen(Step(s, Work(0)), Work(0)) &&
      Step(Step(s, Work(0)), Work(0)) == State(PutBack(HOLDS_C), Running(Restore(0, 0), 1, Quarantining([])), {[2], [3]})
  {
    var s := StageState(REPLACED, A, 0, FILE_A, FILE_C, [], 7, {[2]});
    assert A[0] != B[0];
    assert SRC_C - {A} == ONLY_B && ONLY_B[A := FILE_C] == SRC_C;
    assert ONLY_B[B].bytes == [2] && Contents(ONLY_B) == {[2]};
    assert SRC_C[A].bytes == [3] && SRC_C[B].bytes == [2];
    assert Contents(SRC_C) == {[2], [3]};
    assert {[2]} + {[2]} == {[2]} && {[2]} + {[2], [3]} == {[2], [3]};
    assert s.disk.root == FIRST && s.disk.rootSyn == FIRST && s.disk.dirs == map[0 := TxDir(HOLDS_C, HOLDS_C)];
    assert Step(s, Work(0)) == State(PutBack(HOLDS_C).(srcSyn := ONLY_B), Running(Restore(0, 0), 0, Quarantining([])), {[2]});
  }

  lemma ReplacingRuns()
    ensures Goes(EMPTY, PUBLISHING + Replacing(), State(PutBack(HOLDS_C), Running(Restore(0, 0), 1, Quarantining([])), {[2], [3]}))
  {
    var s := State(PUBLISHED, Idle, LEDGER);
    var s1, s2 := StageState(PUBLISHED, A, 0, FILE_A, FILE_A, [], 4, LEDGER), StageState(REPLACED, A, 0, FILE_A, FILE_C, [], 4, {[2]});
    var s3 := StageState(REPLACED, A, 0, FILE_A, FILE_C, [], 7, {[2]});
    StagesFirst([], 4);
    ReplaceStep();
    GoesOn(s, FirstEntry([], 4), s1, Overwrite(A, FILE_C));
    StageWorks(REPLACED, A, 0, FILE_A, FILE_C, [], 4, 3, {[2]});
    GoesThen(s, FirstEntry([], 4) + [Overwrite(A, FILE_C)], s2, Works(3), s3);
    PutBackSteps();
    GoesOn(s, FirstEntry([], 4) + [Overwrite(A, FILE_C)] + Works(3), s3, Work(0));
    GoesOn(s, FirstEntry([], 4) + [Overwrite(A, FILE_C)] + Works(3) + [Work(0)], Step(s3, Work(0)), Work(0));
    Publishing();
    GoesThen(EMPTY, PUBLISHING, s, Replacing(), State(PutBack(HOLDS_C), Running(Restore(0, 0), 1, Quarantining([])), {[2], [3]}));
  }

  /** The payload is dropped, the worker killed before it syncs that; the next pass fails to clean
      the transaction up and stages the entry again, when a producer syncs the source. */
  function Dropping(): seq<Label> {
    [Work(0)] + [Kill] + [StartPass([Pending(0)])] + [Work(0)] + [IoError] + [Enumerate([A])] + ([Work(1)] + Works(5)) + [ForeignSync] + [Kill]
  }

  const DROPPED := PutBack(Bound(A, FILE_A))
  const RESTAGED := StageDisk(DROPPED, A, 1, FILE_C, FILE_C, 5).(srcSyn := ONLY_B)

  lemma DropSteps()
    ensures var ledger: set<Bytes> := {[2], [3]};
      var s := State(PutBack(HOLDS_C), Running(Restore(0, 0), 1, Quarantining([])), ledger);
      CanHappen(s, Work(0)) && Step(Step(s, Work(0)), Kill) == State(DROPPED, Idle, ledger)
  {
    assert Apply(PutBack(HOLDS_C), Ops(Restore(0, 0))[1]).dirs == DROPPED.dirs;
  }

  lemma CleanupChosen(k: Disk, rest: seq<DirName>, ledger: set<Bytes>)
    requires k.root == FIRST + map[Pending(1) := 1] || k.root == FIRST
    requires 0 in k.dirs && k.dirs[0].cur == Bound(A, FILE_A) && A in k.src && PendingNames(k, [Pending(0)] + rest)
    ensures var s := State(k, Idle, ledger);
      CanHappen(s, StartPass([Pending(0)] + rest)) && CanHappen(Step(s, StartPass([Pending(0)] + rest)), Work(0)) &&
      Step(Step(s, StartPass([Pending(0)] + rest)), Work(0)) == State(k, Running(Cleanup(0, 0), 0, Recovering(rest)), ledger)
  {
    assert ([Pending(0)] + rest)[1..] == rest;
    assert RecoveryChoice(k, Pending(0)) == Some(Cleanup(0, 0));
  }

  lemma RestageSteps()
    ensures var t := StageState(DROPPED, A, 1, FILE_C, FILE_C, [], 5, {[2], [3]});
      Step(Step(t, ForeignSync), Kill) == State(RESTAGED, Idle, {[2], [3]})
  {
    assert SRC_C - {A} == ONLY_B by { assert A[0] != B[0]; }
    assert ONLY_B[B].bytes == [2] && Contents(ONLY_B) == {[2]};
    assert {[2], [3]} + {[2]} == {[2], [3]};
  }

  lemma DroppingRuns()
    ensures Goes(State(PutBack(HOLDS_C), Running(Restore(0, 0), 1, Quarantining([])), {[2], [3]}), Dropping(), State(RESTAGED, Idle, {[2], [3]}))
  {
    var ledger: set<Bytes> := {[2], [3]};
    var s := State(PutBack(HOLDS_C), Running(Restore(0, 0), 1, Quarantining([])), ledger);
    var s1, s2 := State(DROPPED, Idle, ledger), State(DROPPED, Running(Cleanup(0, 0), 0, Recovering([])), ledger);
    DropSteps();
    GoesOne(s, Work(0));
    GoesOn(s, [Work(0)], Step(s, Work(0)), Kill);
    assert [Pending(0)] + [] == [Pending(0)];
    CleanupChosen(DROPPED, [], ledger);
    GoesOn(s, [Work(0)] + [Kill], s1, StartPass([Pending(0)]));
    GoesOn(s, [Work(0)] + [Kill] + [StartPass([Pending(0)])], Step(s1, StartPass([Pending(0)])), Work(0));
    GoesOn(s, [Work(0)] + [Kill] + [StartPass([Pending(0)])] + [Work(0)], s2, IoError);
    var s3, s4 := State(DROPPED, Deciding(Recovering([])), ledger), State(DROPPED, Deciding(Quarantining([A])), ledger);
    GoesOn(s, [Work(0)] + [Kill] + [StartPass([Pending(0)])] + [Work(0)] + [IoError], s3, Enumerate([A]));
    RestagingRuns(s, [Work(0)] + [Kill] + [StartPass([Pending(0)])] + [Work(0)] + [IoError] + [Enumerate([A])]);
  }

  lemma RestagingRuns(s: State, run: seq<Label>)
    requires Goes(s, run, State(DROPPED, Deciding(Quarantining([A])), {[2], [3]}))
    ensures Goes(s, run + ([Work(1)] + Works(5)) + [ForeignSync] + [Kill], State(RESTAGED, Idle, {[2], [3]}))
  {
    var t := StageState(DROPPED, A, 1, FILE_C, FILE_C, [], 5, {[2], [3]});
    assert [A] + [] == [A];
    StageFrom(DROPPED, A, 1, [], 5, {[2], [3]});
    GoesThen(s, run, State(DROPPED, Deciding(Quarantining([A])), {[2], [3]}), [Work(1)] + Works(5), t);
    RestageSteps();
    GoesOn(s, run + ([Work(1)] + Works(5)), t, ForeignSync);
    GoesOn(s, run + ([Work(1)] + Works(5)) + [ForeignSync], Step(t, ForeignSync), Kill);
  }

  /** A new file under the name lets the next pass clean the old transaction up. */
  function Forgetting(): seq<Label> { [StartPass([Pending(0), Pending(1)])] + [Work(0)] + [Work(0)] + [Work(0)] + [PowerLoss] }

  const REUSED := RESTAGED.(src := ONLY_B[A := FILE_D], nextIno := 4)

  lemma ReuseStep()
    ensures Step(State(RESTAGED, Idle, {[2], [3]}), Overwrite(A, FILE_D)) == State(REUSED, Idle, {[2], [3]})
    ensures A !in RESTAGED.src
  {
    assert SRC_C - {A} == ONLY_B by { assert A[0] != B[0]; }
  }

  /** Both transactions, the first one emptied by its clean-up and synced. */
  const CLEANED := REUSED.(dirs := REUSED.dirs[0 := TxDir(NO_ENTRIES, NO_ENTRIES)])

  lemma CleanSteps()
    ensures var s := State(REUSED, Running(Cleanup(0, 0), 0, Recovering([Pending(1)])), {[2], [3]});
      CanHappen(s, Work(0)) && CanHappen(Step(s, Work(0)), Work(0)) &&
      Step(Step(s, Work(0)), Work(0)) == State(CLEANED, Running(Cleanup(0, 0), 2, Recovering([Pending(1)])), {[2], [3]})
  {
    var t := TxDir(NO_ENTRIES, HOLDS_C);
    assert REUSED.dirs[0 := t][0 := TxDir(NO_ENTRIES, NO_ENTRIES)] == CLEANED.dirs;
  }

  lemma ForgettingRuns() returns (t: State)
    ensures Goes(State(REUSED, Idle, {[2], [3]}), Forgetting(), t) && t.disk == Crash(CLEANED)
  {
    var ledger: set<Bytes> := {[2], [3]};
    var s, order := State(REUSED, Idle, ledger), [Pending(0), Pending(1)];
    assert [Pending(0)] + [Pending(1)] == order;
    CleanupChosen(REUSED, [Pending(1)], ledger);
    CleanSteps();
    var s1 := Step(s, StartPass(order));
    var s2 := State(REUSED, Running(Cleanup(0, 0), 0, Recovering([Pending(1)])), ledger);
    var s3 := Step(s2, Work(0));
    GoesOne(s, StartPass(order));
    GoesOn(s, [StartPass(order)], s1, Work(0));
    GoesOn(s, [StartPass(order)] + [Work(0)], s2, Work(0));
    GoesOn(s, [StartPass(order)] + [Work(0)] + [Work(0)], s3, Work(0));
    GoesOn(s, [StartPass(order)] + [Work(0)] + [Work(0)] + [Work(0)], Step(s3, Work(0)), PowerLoss);
    t := Step(Step(s3, Work(0)), PowerLoss);
  }

  lemma ForgettingEnd()
    ensures !Reachable(Crash(CLEANED), [3])
  {
    var k := Crash(CLEANED);
    assert k.src == ONLY_B && ONLY_B[B].bytes == [2];
    assert forall x :: x in k.root ==> Cur(k, k.root[x]) == NO_ENTRIES || Cur(k, k.root[x]) == Bound(A, FILE_C);
  }

  function Forgotten(): seq<Label> { Dropping() + [Overwrite(A, FILE_D)] + Forgetting() }

  lemma ForgottenQuiet()
    ensures Quiet(Dropping()) && Quiet(Forgetting())
  {
  }

  /** Every source sync finds the bytes synced in the old transaction, and it is the sync of that
      transaction, when recovery cleans it up, that loses them. */
  lemma EvidenceLostByTransactionSync()
    ensures Lost(EMPTY, PUBLISHING + Replacing(), Forgotten(), [3])
  {
    ReplacingRuns();
    DroppingRuns();
    ReuseStep();
    var t := ForgettingRuns();
    ForgettingEnd();
    ForgottenQuiet();
    LosesAround(EMPTY, PUBLISHING + Replacing(), State(PutBack(HOLDS_C), Running(Restore(0, 0), 1, Quarantining([])), {[2], [3]}),
                Dropping(), State(RESTAGED, Idle, {[2], [3]}), Overwrite(A, FILE_D), Forgetting(), t, [3]);
  }
}
