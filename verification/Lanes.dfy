/** Lanes of src/bureau/closure.py: their identity, states and sort order. */
module Lanes {
  import opened Prelude

  datatype LaneState =
    | Discovered | Bound | Planned | Ready | Active | Reviewing | NeedsRevision | CiFailed
    | MergeCandidate | MergeReady | Merged | Verified | Closed | Blocked | Obsolete | Paused

  datatype Kind = BranchWork | OpenPullRequest | DirtyWorktree | FailedTask

  /** The fields a fingerprint is computed from. A branch is identified without its pull request. */
  datatype Identity = Identity(kind: Kind, repo: string, branch: Option<string>, pr: Option<int>, taskId: Option<string>)

  type Fingerprint = Digest<Identity>

  /** The observed state of an open pull request; the record may be present and empty. */
  datatype PrState = EmptyRecord | PrState(mergeState: string, review: string, draft: bool)

  datatype Candidate = Candidate(
    kind: Kind,
    repo: string,
    repoName: string,
    branch: Option<string>,
    pr: Option<int>,
    observed: Option<PrState>,
    taskId: Option<string>,
    proposed: Option<LaneState>,
    merged: bool,
    finishability: real)

  /** The entry `canonical_task_binding` of a lane's metadata; its task id may be missing. */
  datatype Binding = Binding(taskId: Option<string>)

  /** `state` is None when the stored text is not one of the lane states. */
  datatype Lane = Lane(
    fingerprint: Option<Fingerprint>,
    state: Option<LaneState>,
    repo: string,
    repoName: string,
    branch: Option<string>,
    pr: Option<int>,
    observed: Option<PrState>,
    taskId: Option<string>,
    binding: Option<Binding>,
    finishability: Option<real>,
    high: bool)

  function FingerprintOf(c: Candidate): Fingerprint {
    Sha256(Identity(c.kind, c.repo, c.branch, if c.kind.BranchWork? then None else c.pr, c.taskId))
  }

  /** A branch with an open pull request also answers to the fingerprint that the pull request
      has while no local branch matches it. */
  function AliasOf(c: Candidate): Option<Fingerprint> {
    if c.kind.BranchWork? && c.pr.Some?
    then Some(Sha256(Identity(OpenPullRequest, c.repo, c.branch, c.pr, None)))
    else None
  }

  /* ---- sort order ---- */

  function Priority(s: Option<LaneState>): int {
    match s
    case None => 0
    case Some(x) =>
      match x
      case MergeReady => 100 case MergeCandidate => 90 case CiFailed => 80 case NeedsRevision => 75
      case Reviewing => 70 case Active => 60 case Ready => 50 case Planned => 40 case Bound => 30
      case Discovered => 20 case Blocked => 10 case Paused => 0 case Obsolete => -10
      case Merged => -20 case Verified => -30 case Closed => -40
  }

  function Rank(l: Lane): int { Priority(l.state) + if l.high then 20 else 0 }

  function Finish(l: Lane): real { if l.finishability.Some? then l.finishability.value else 0.0 }

  function BranchText(l: Lane): string { if l.branch.Some? then l.branch.value else "" }

  predicate TextLeq(a: string, b: string)
    decreases |a|
  {
    a == [] || (b != [] && (a[0] < b[0] || (a[0] == b[0] && TextLeq(a[1..], b[1..]))))
  }

  lemma {:induction false} TextOrder(a: string, b: string, c: string)
    ensures TextLeq(a, b) || TextLeq(b, a)
    ensures TextLeq(a, b) && TextLeq(b, c) ==> TextLeq(a, c)
    ensures TextLeq(a, b) && TextLeq(b, a) ==> a == b
    decreases |a|
  {
    if a != [] && b != [] {
      if c != [] { TextOrder(a[1..], b[1..], c[1..]); } else { TextOrder(a[1..], b[1..], []); }
      if a[0] == b[0] && a[1..] == b[1..] { assert a == [a[0]] + a[1..] == b; }
    }
  }

  /** `lane_sort_key(a) <= lane_sort_key(b)`. */
  predicate Leq(a: Lane, b: Lane) {
    || Rank(a) > Rank(b)
    || (Rank(a) == Rank(b)
        && (|| Finish(a) > Finish(b)
            || (Finish(a) == Finish(b)
                && (if a.repoName == b.repoName then TextLeq(BranchText(a), BranchText(b))
                    else TextLeq(a.repoName, b.repoName)))))
  }

  lemma LeqOrder(a: Lane, b: Lane, c: Lane)
    ensures Leq(a, b) || Leq(b, a)
    ensures Leq(a, b) && Leq(b, c) ==> Leq(a, c)
  {
    TextOrder(a.repoName, b.repoName, c.repoName);
    TextOrder(b.repoName, c.repoName, a.repoName);
    TextOrder(BranchText(a), BranchText(b), BranchText(c));
  }

  function Insert(x: Lane, ys: seq<Lane>): seq<Lane> {
    if ys == [] then [x] else if Leq(x, ys[0]) then [x] + ys else [ys[0]] + Insert(x, ys[1..])
  }

  /** Python's stable `sorted(lanes, key=lane_sort_key)`. */
  function Sort(xs: seq<Lane>): seq<Lane> {
    if xs == [] then [] else Insert(xs[0], Sort(xs[1..]))
  }

  ghost predicate Sorted(xs: seq<Lane>) {
    forall i, j :: 0 <= i < j < |xs| ==> Leq(xs[i], xs[j])
  }

  lemma {:induction false} InsertSorts(x: Lane, ys: seq<Lane>)
    requires Sorted(ys)
    ensures Sorted(Insert(x, ys)) && multiset(Insert(x, ys)) == multiset{x} + multiset(ys)
  {
    if ys == [] {
    } else if Leq(x, ys[0]) {
      forall j | 0 <= j < |ys| ensures Leq(x, ys[j]) { LeqOrder(x, ys[0], ys[j]); }
    } else {
      assert ys == [ys[0]] + ys[1..];
      InsertSorts(x, ys[1..]);
      LeqOrder(x, ys[0], x);
      var r := Insert(x, ys[1..]);
      forall j | 0 <= j < |r| ensures Leq(ys[0], r[j]) {
        assert r[j] in multiset(r);
      }
    }
  }

  /** The sort is an ordering and a permutation. */
  lemma {:induction false} SortSorts(xs: seq<Lane>)
    ensures Sorted(Sort(xs)) && multiset(Sort(xs)) == multiset(xs)
  {
    if xs != [] {
      assert xs == [xs[0]] + xs[1..];
      SortSorts(xs[1..]);
      InsertSorts(xs[0], Sort(xs[1..]));
    }
  }

  lemma SortMembers(xs: seq<Lane>, l: Lane)
    ensures l in Sort(xs) <==> l in xs
  {
    SortSorts(xs);
    assert l in multiset(Sort(xs)) <==> l in multiset(xs);
  }

  lemma {:induction false} SortedIsFixed(xs: seq<Lane>)
    requires Sorted(xs)
    ensures Sort(xs) == xs
  {
    if xs != [] {
      SortedIsFixed(xs[1..]);
      assert xs == [xs[0]] + xs[1..];
    }
  }

  lemma SortStep(xs: seq<Lane>, ys: seq<Lane>)
    requires xs != []
    ensures Sort(xs + ys) == Insert(xs[0], Sort(xs[1..] + ys))
  {
    assert (xs + ys)[1..] == xs[1..] + ys;
  }

  /** A stable sort does not care whether the tail was sorted before. */
  lemma {:induction false} SortAbsorbs(xs: seq<Lane>, ys: seq<Lane>)
    ensures Sort(xs + Sort(ys)) == Sort(xs + ys)
  {
    if xs == [] {
      SortSorts(ys);
      SortedIsFixed(Sort(ys));
      assert [] + Sort(ys) == Sort(ys) && [] + ys == ys;
    } else {
      SortAbsorbs(xs[1..], ys);
      SortStep(xs, ys);
      SortStep(xs, Sort(ys));
    }
  }

  /* ---- lanes no candidate accounts for ---- */

  predicate Unseen(l: Lane, seen: set<Fingerprint>) {
    l.fingerprint.None? || l.fingerprint.value !in seen
  }

  function Filter(xs: seq<Lane>, seen: set<Fingerprint>): (r: seq<Lane>)
    ensures forall l :: l in r <==> l in xs && Unseen(l, seen)
  {
    if xs == [] then []
    else if Unseen(xs[0], seen) then [xs[0]] + Filter(xs[1..], seen)
    else Filter(xs[1..], seen)
  }

  lemma {:induction false} FilterInsert(x: Lane, ys: seq<Lane>, seen: set<Fingerprint>)
    requires Sorted(ys)
    ensures Filter(Insert(x, ys), seen)
         == if Unseen(x, seen) then Insert(x, Filter(ys, seen)) else Filter(ys, seen)
  {
    if ys == [] {
    } else if Leq(x, ys[0]) {
      assert ([x] + ys)[1..] == ys;
      var f := Filter(ys, seen);
      if f != [] {
        assert f[0] in f;
        LeqOrder(x, ys[0], f[0]);
      }
    } else {
      FilterInsert(x, ys[1..], seen);
      assert ([ys[0]] + Insert(x, ys[1..]))[1..] == Insert(x, ys[1..]);
      if Unseen(ys[0], seen) {
        assert ([ys[0]] + Filter(ys[1..], seen))[1..] == Filter(ys[1..], seen);
      }
    }
  }

  /** Filtering commutes with the stable sort. */
  lemma {:induction false} FilterSort(xs: seq<Lane>, seen: set<Fingerprint>)
    ensures Filter(Sort(xs), seen) == Sort(Filter(xs, seen))
  {
    if xs != [] {
      FilterSort(xs[1..], seen);
      SortSorts(xs[1..]);
      FilterInsert(xs[0], Sort(xs[1..]), seen);
      assert Unseen(xs[0], seen) ==> ([xs[0]] + Filter(xs[1..], seen))[1..] == Filter(xs[1..], seen);
    }
  }

  lemma {:induction false} FilterConcat(xs: seq<Lane>, ys: seq<Lane>, seen: set<Fingerprint>)
    ensures Filter(xs + ys, seen) == Filter(xs, seen) + Filter(ys, seen)
  {
    if xs == [] {
      assert xs + ys == ys;
    } else {
      assert (xs + ys)[1..] == xs[1..] + ys;
      FilterConcat(xs[1..], ys, seen);
    }
  }

  lemma {:induction false} FilterAll(xs: seq<Lane>, seen: set<Fingerprint>)
    ensures (forall l :: l in xs ==> Unseen(l, seen)) ==> Filter(xs, seen) == xs
    ensures (forall l :: l in xs ==> !Unseen(l, seen)) ==> Filter(xs, seen) == []
  {
    if xs != [] {
      FilterAll(xs[1..], seen);
      assert xs == [xs[0]] + xs[1..];
    }
  }
}
