/** `inventory_existing_work` of src/bureau/closure.py: local branches, open pull requests, dirty
    worktrees and failed tasks become candidates whose fingerprints and aliases never collide. */
module LaneInventory {
  import opened Prelude
  import opened Lanes
  import opened LaneMerge
  import opened LaneFixpoint

  datatype PullRequest = PullRequest(number: int, branch: string, crossRepository: bool, state: PrState)

  /** One listing of open pull requests: none possible, failed, or read (perhaps cut at the limit). */
  datatype Listing = NoSlug | Failed | Listed(prs: seq<PullRequest>, complete: bool)

  datatype Branch = Branch(name: string, merged: bool)

  datatype Worktree = Worktree(branch: Option<string>, dirty: bool)

  datatype Repo = Repo(root: string, name: string, listing: Listing, branches: seq<Branch>, worktrees: seq<Worktree>)

  /** A recently failed task inside a known repository. */
  datatype FailedTask = FailedTask(root: string, repoName: string, branch: Option<string>, id: string)

  function Prs(r: Repo): seq<PullRequest> {
    if r.listing.Listed? then r.listing.prs else []
  }

  /** `open_pull_request_lane_state`. */
  function PrLaneState(s: PrState): LaneState {
    if s.EmptyRecord? then CiFailed
    else if s.mergeState == "DIRTY" then NeedsRevision
    else if s.mergeState == "UNSTABLE" || s.mergeState == "UNKNOWN" then CiFailed
    else if s.review == "CHANGES_REQUESTED" then NeedsRevision
    else if s.draft then Reviewing
    else if s.mergeState == "CLEAN" && s.review == "APPROVED" then MergeCandidate
    else Reviewing
  }

  function PrFinish(s: PrState): real {
    if s.EmptyRecord? then 0.4
    else match PrLaneState(s)
         case NeedsRevision => 0.35
         case CiFailed => 0.4
         case MergeCandidate => 0.9
         case _ => if s.draft then 0.6 else if s.mergeState == "CLEAN" then 0.7 else 0.5
  }

  /** The pull request a local branch matches: the last one listed from the same repository. */
  function Match(prs: seq<PullRequest>, branch: string): (m: Option<PullRequest>)
    ensures m.Some? ==> m.value in prs && m.value.branch == branch && !m.value.crossRepository
  {
    if prs == [] then None
    else var last := prs[|prs| - 1];
         if last.branch == branch && branch != "" && !last.crossRepository then Some(last)
         else Match(prs[..|prs| - 1], branch)
  }

  function BranchCandidate(r: Repo, b: Branch): Candidate {
    match Match(Prs(r), b.name)
    case Some(pr) =>
      Candidate(BranchWork, r.root, r.name, Some(b.name), Some(pr.number), Some(pr.state), None,
                Some(PrLaneState(pr.state)), b.merged, PrFinish(pr.state))
    case None =>
      Candidate(BranchWork, r.root, r.name, Some(b.name), None, None, None,
                Some(if b.merged then Obsolete else Planned), b.merged, if b.merged then 0.95 else 0.55)
  }

  function PrCandidate(r: Repo, pr: PullRequest): Candidate {
    Candidate(OpenPullRequest, r.root, r.name, Some(pr.branch), Some(pr.number), Some(pr.state), None,
              Some(PrLaneState(pr.state)), false, PrFinish(pr.state))
  }

  function TreeCandidate(r: Repo, b: string): Candidate {
    Candidate(DirtyWorktree, r.root, r.name, Some(b), None, None, None, Some(Active), false, 0.45)
  }

  function TaskCandidate(t: FailedTask): Candidate {
    Candidate(Kind.FailedTask, t.root, t.repoName, t.branch, None, None, Some(t.id), Some(CiFailed), false, 0.35)
  }

  function BranchWorkOf(r: Repo): seq<Candidate> {
    seq(|r.branches|, i requires 0 <= i < |r.branches| => BranchCandidate(r, r.branches[i]))
  }

  function Matched(r: Repo): set<int> {
    set c | c in BranchWorkOf(r) && c.pr.Some? :: c.pr.value
  }

  function PrWork(r: Repo, prs: seq<PullRequest>): (cs: seq<Candidate>)
    ensures forall c :: c in cs ==> exists pr :: pr in prs && pr.number !in Matched(r) && c == PrCandidate(r, pr)
  {
    if prs == [] then []
    else (if prs[0].number in Matched(r) then [] else [PrCandidate(r, prs[0])]) + PrWork(r, prs[1..])
  }

  predicate DirtyBranch(t: Worktree) {
    t.dirty && t.branch.Some? && t.branch.value != "" && t.branch.value != "main" && t.branch.value != "master"
  }

  function TreeWork(r: Repo, ts: seq<Worktree>): (cs: seq<Candidate>)
    ensures forall c :: c in cs ==> exists t :: t in ts && DirtyBranch(t) && c == TreeCandidate(r, t.branch.value)
  {
    if ts == [] then []
    else (if DirtyBranch(ts[0]) then [TreeCandidate(r, ts[0].branch.value)] else []) + TreeWork(r, ts[1..])
  }

  function RepoWork(r: Repo): seq<Candidate> {
    BranchWorkOf(r) + PrWork(r, Prs(r)) + TreeWork(r, r.worktrees)
  }

  function AllRepoWork(rs: seq<Repo>): seq<Candidate> {
    if rs == [] then [] else RepoWork(rs[0]) + AllRepoWork(rs[1..])
  }

  function TaskWork(ts: seq<FailedTask>): seq<Candidate> {
    seq(|ts|, i requires 0 <= i < |ts| => TaskCandidate(ts[i]))
  }

  function Inventory(rs: seq<Repo>, ts: seq<FailedTask>): seq<Candidate> {
    AllRepoWork(rs) + TaskWork(ts)
  }

  /** The observations handed to the merge; a repository without a slug contributes none. */
  function Views(rs: seq<Repo>): map<string, RepoView> {
    if rs == [] then map[]
    else match rs[0].listing
         case NoSlug => Views(rs[1..])
         case Failed => Views(rs[1..])[rs[0].root := BlockedView]
         case Listed(_, complete) => Views(rs[1..])[rs[0].root := if complete then CompleteView else IncompleteView]
  }

  /* ---- what git and GitHub guarantee ---- */

  ghost predicate RepoFacts(r: Repo) {
    && (forall i, j :: 0 <= i < j < |r.branches| ==> r.branches[i].name != r.branches[j].name)
    && (forall i, j :: 0 <= i < j < |Prs(r)| ==> Prs(r)[i].number != Prs(r)[j].number)
    && (forall i, j :: 0 <= i < j < |r.worktrees| && r.worktrees[i].branch.Some? ==>
         r.worktrees[i].branch != r.worktrees[j].branch)
  }

  ghost predicate Facts(rs: seq<Repo>, ts: seq<FailedTask>) {
    && (forall i :: 0 <= i < |rs| ==> RepoFacts(rs[i]))
    && (forall i, j :: 0 <= i < j < |rs| ==> rs[i].root != rs[j].root)
    && (forall i, j :: 0 <= i < j < |ts| ==> ts[i].id != ts[j].id)
  }

  /* ---- no collisions ---- */

  ghost predicate Apart(xs: seq<Candidate>, ys: seq<Candidate>) {
    forall x, y :: x in xs && y in ys ==> FingerprintOf(x) != FingerprintOf(y)
  }

  lemma DistinctConcat(xs: seq<Candidate>, ys: seq<Candidate>)
    requires DistinctFingerprints(xs) && DistinctFingerprints(ys) && Apart(xs, ys)
    ensures DistinctFingerprints(xs + ys)
  {
    var zs := xs + ys;
    forall i, j | 0 <= i < j < |zs| ensures FingerprintOf(zs[i]) != FingerprintOf(zs[j]) {
      if i < |xs| <= j { assert zs[i] in xs && zs[j] in ys; }
    }
  }

  lemma {:induction false} PrWorkDistinct(r: Repo, prs: seq<PullRequest>)
    requires forall i, j :: 0 <= i < j < |prs| ==> prs[i].number != prs[j].number
    ensures DistinctFingerprints(PrWork(r, prs))
  {
    if prs != [] {
      PrWorkDistinct(r, prs[1..]);
      var head := if prs[0].number in Matched(r) then [] else [PrCandidate(r, prs[0])];
      forall x, y | x in head && y in PrWork(r, prs[1..]) ensures FingerprintOf(x) != FingerprintOf(y) {
        var pr :| pr in prs[1..] && pr.number !in Matched(r) && y == PrCandidate(r, pr);
        var j :| 1 <= j < |prs| && prs[j] == pr;
        assert prs[0].number != prs[j].number;
      }
      DistinctConcat(head, PrWork(r, prs[1..]));
    }
  }

  lemma {:induction false} TreeWorkDistinct(r: Repo, ts: seq<Worktree>)
    requires forall i, j :: 0 <= i < j < |ts| && ts[i].branch.Some? ==> ts[i].branch != ts[j].branch
    ensures DistinctFingerprints(TreeWork(r, ts))
  {
    if ts != [] {
      TreeWorkDistinct(r, ts[1..]);
      var head := if DirtyBranch(ts[0]) then [TreeCandidate(r, ts[0].branch.value)] else [];
      forall x, y | x in head && y in TreeWork(r, ts[1..]) ensures FingerprintOf(x) != FingerprintOf(y) {
        var t :| t in ts[1..] && DirtyBranch(t) && y == TreeCandidate(r, t.branch.value);
        var j :| 1 <= j < |ts| && ts[j] == t;
        assert ts[0].branch != ts[j].branch;
      }
      DistinctConcat(head, TreeWork(r, ts[1..]));
    }
  }

  /** Kinds, repository and observation of a repository's candidates. */
  ghost predicate FromRepo(c: Candidate, r: Repo) {
    && c.repo == r.root && !c.kind.FailedTask? && c.taskId.None?
    && (c.observed.None? <==> c.pr.None?) && (c.observed.Some? ==> r.listing.Listed?)
  }

  lemma RepoWorkFrom(r: Repo, c: Candidate)
    requires c in RepoWork(r)
    ensures FromRepo(c, r)
    ensures c.kind.BranchWork? <==> c in BranchWorkOf(r)
    ensures c.kind.OpenPullRequest? ==> c.pr.Some? && c.pr.value !in Matched(r)
  {
    if c in BranchWorkOf(r) {
      var i :| 0 <= i < |r.branches| && c == BranchCandidate(r, r.branches[i]);
    } else if c in PrWork(r, Prs(r)) {
      var pr :| pr in Prs(r) && pr.number !in Matched(r) && c == PrCandidate(r, pr);
    } else {
      var t :| t in r.worktrees && DirtyBranch(t) && c == TreeCandidate(r, t.branch.value);
    }
  }

  lemma RepoWorkDistinct(r: Repo)
    requires RepoFacts(r)
    ensures DistinctFingerprints(RepoWork(r))
  {
    var b, p, t := BranchWorkOf(r), PrWork(r, Prs(r)), TreeWork(r, r.worktrees);
    forall i, j | 0 <= i < j < |b| ensures FingerprintOf(b[i]) != FingerprintOf(b[j]) {
      assert r.branches[i].name != r.branches[j].name;
    }
    PrWorkDistinct(r, Prs(r));
    TreeWorkDistinct(r, r.worktrees);
    DistinctConcat(b, p);
    DistinctConcat(b + p, t);
  }

  /** A candidate comes from one of the repositories. */
  lemma {:induction false} AllRepoWorkFrom(rs: seq<Repo>, c: Candidate) returns (k: nat)
    requires c in AllRepoWork(rs)
    ensures k < |rs| && c in RepoWork(rs[k])
  {
    if c in RepoWork(rs[0]) { k := 0; }
    else {
      k := AllRepoWorkFrom(rs[1..], c);
      k := k + 1;
    }
  }

  lemma {:induction false} AllRepoWorkDistinct(rs: seq<Repo>)
    requires Facts(rs, [])
    ensures DistinctFingerprints(AllRepoWork(rs))
  {
    if rs != [] {
      AllRepoWorkDistinct(rs[1..]);
      RepoWorkDistinct(rs[0]);
      forall x, y | x in RepoWork(rs[0]) && y in AllRepoWork(rs[1..]) ensures FingerprintOf(x) != FingerprintOf(y) {
        var k := AllRepoWorkFrom(rs[1..], y);
        RepoWorkFrom(rs[0], x);
        RepoWorkFrom(rs[1..][k], y);
        assert rs[0].root != rs[k + 1].root;
      }
      DistinctConcat(RepoWork(rs[0]), AllRepoWork(rs[1..]));
    }
  }

  lemma {:induction false} NotViewed(rs: seq<Repo>, root: string)
    requires forall i :: 0 <= i < |rs| ==> rs[i].root != root
    ensures root !in Views(rs)
  {
    if rs != [] { NotViewed(rs[1..], root); }
  }

  /** A repository without a slug has no view; a failed listing blocks, and a cut one is incomplete. */
  lemma {:induction false} ViewsExact(rs: seq<Repo>, k: nat)
    requires Facts(rs, []) && k < |rs|
    ensures rs[k].root in Views(rs) <==> !rs[k].listing.NoSlug?
    ensures rs[k].listing.Failed? ==> Views(rs)[rs[k].root] == BlockedView
    ensures rs[k].listing.Listed? ==> Views(rs)[rs[k].root] == if rs[k].listing.complete then CompleteView else IncompleteView
  {
    if k > 0 {
      assert rs[0].root != rs[k].root;
      ViewsExact(rs[1..], k - 1);
    } else if rs[0].listing.NoSlug? {
      NotViewed(rs[1..], rs[0].root);
    }
  }

  /* ---- nothing is missed ---- */

  /** The branch could carry the pull request: the same name, in the same repository. */
  predicate Carries(branch: string, pr: PullRequest) { branch != "" && pr.branch == branch && !pr.crossRepository }

  /** A branch is matched with the last listed pull request it could carry, if there is one. */
  lemma {:induction false} MatchIsLast(prs: seq<PullRequest>, branch: string)
    ensures var m := Match(prs, branch);
      && (m.None? <==> forall i :: 0 <= i < |prs| ==> !Carries(branch, prs[i]))
      && (m.Some? ==> exists i :: 0 <= i < |prs| && prs[i] == m.value && forall j :: i < j < |prs| ==> !Carries(branch, prs[j]))
  {
    if prs != [] {
      var n := |prs| - 1;
      MatchIsLast(prs[..n], branch);
      if Carries(branch, prs[n]) {
        assert prs[n] == Match(prs, branch).value;
      } else if Match(prs[..n], branch).Some? {
        var i :| 0 <= i < n && prs[..n][i] == Match(prs[..n], branch).value && forall j :: i < j < n ==> !Carries(branch, prs[..n][j]);
        assert prs[i] == Match(prs, branch).value && Carries(branch, prs[i]);
      }
    }
  }

  lemma {:induction false} PrWorkComplete(r: Repo, prs: seq<PullRequest>, pr: PullRequest)
    requires pr in prs && pr.number !in Matched(r)
    ensures PrCandidate(r, pr) in PrWork(r, prs)
  {
    if pr != prs[0] { PrWorkComplete(r, prs[1..], pr); }
  }

  lemma {:induction false} TreeWorkComplete(r: Repo, ts: seq<Worktree>, t: Worktree)
    requires t in ts && DirtyBranch(t)
    ensures TreeCandidate(r, t.branch.value) in TreeWork(r, ts)
  {
    if t != ts[0] { TreeWorkComplete(r, ts[1..], t); }
  }

  lemma {:induction false} RepoWorkIncluded(rs: seq<Repo>, k: nat, c: Candidate)
    requires k < |rs| && c in RepoWork(rs[k])
    ensures c in AllRepoWork(rs)
  {
    if k > 0 { RepoWorkIncluded(rs[1..], k - 1, c); }
  }

  /** Every open pull request has a candidate with its number and its observed state: the branch it
      was matched with, or else one of its own. */
  lemma EveryPrHasACandidate(rs: seq<Repo>, ts: seq<FailedTask>, k: nat, pr: PullRequest) returns (c: Candidate)
    requires Facts(rs, ts) && k < |rs| && pr in Prs(rs[k])
    ensures c in Inventory(rs, ts) && c.repo == rs[k].root && c.pr == Some(pr.number) && c.observed == Some(pr.state)
    ensures c.kind == BranchWork || c == PrCandidate(rs[k], pr)
  {
    var r := rs[k];
    if pr.number in Matched(r) {
      c :| c in BranchWorkOf(r) && c.pr == Some(pr.number);
      var i :| 0 <= i < |r.branches| && c == BranchCandidate(r, r.branches[i]);
      var m := Match(Prs(r), r.branches[i].name).value;
      SameNumber(r, m, pr);
    } else {
      c := PrCandidate(r, pr);
      PrWorkComplete(r, Prs(r), pr);
    }
    RepoWorkIncluded(rs, k, c);
  }

  lemma SameNumber(r: Repo, a: PullRequest, b: PullRequest)
    requires RepoFacts(r) && a in Prs(r) && b in Prs(r) && a.number == b.number
    ensures a == b
  {
    var i :| 0 <= i < |Prs(r)| && Prs(r)[i] == a;
    var j :| 0 <= j < |Prs(r)| && Prs(r)[j] == b;
    assert i == j;
  }

  /** So have every local branch, every dirty worktree off the main branch and every failed task. */
  lemma EveryWorkHasACandidate(rs: seq<Repo>, ts: seq<FailedTask>, k: nat)
    requires k < |rs|
    ensures forall b :: b in rs[k].branches ==> BranchCandidate(rs[k], b) in Inventory(rs, ts)
    ensures forall t :: t in rs[k].worktrees && t.dirty && t.branch.Some? && t.branch.value !in {"", "main", "master"} ==>
      TreeCandidate(rs[k], t.branch.value) in Inventory(rs, ts)
    ensures forall t :: t in ts ==> TaskCandidate(t) in Inventory(rs, ts)
  {
    forall b | b in rs[k].branches ensures BranchCandidate(rs[k], b) in Inventory(rs, ts) {
      var i :| 0 <= i < |rs[k].branches| && rs[k].branches[i] == b;
      assert BranchWorkOf(rs[k])[i] == BranchCandidate(rs[k], b);
      RepoWorkIncluded(rs, k, BranchCandidate(rs[k], b));
    }
    forall t | t in rs[k].worktrees && DirtyBranch(t) ensures TreeCandidate(rs[k], t.branch.value) in Inventory(rs, ts) {
      TreeWorkComplete(rs[k], rs[k].worktrees, t);
      RepoWorkIncluded(rs, k, TreeCandidate(rs[k], t.branch.value));
    }
    forall t | t in ts ensures TaskCandidate(t) in Inventory(rs, ts) {
      var i :| 0 <= i < |ts| && ts[i] == t;
      assert TaskWork(ts)[i] == TaskCandidate(t);
    }
  }

  /** The candidate stands for a branch without an open pull request: done if it is merged. */
  predicate ForBranch(c: Candidate, b: Branch) {
    && c.kind == BranchWork && c.branch == Some(b.name) && c.merged == b.merged && c.taskId.None? && c.pr.None? && c.observed.None?
    && (c.proposed, c.finishability) == (if b.merged then (Some(Obsolete), 0.95) else (Some(Planned), 0.55))
  }

  /** It stands for an open pull request. */
  predicate ForPr(c: Candidate, pr: PullRequest) {
    && c.branch == Some(pr.branch) && c.pr == Some(pr.number) && c.observed == Some(pr.state) && c.taskId.None?
    && c.proposed == Some(PrLaneState(pr.state)) && c.finishability == PrFinish(pr.state)
  }

  predicate ForWorktree(c: Candidate, t: Worktree) {
    && t.dirty && t.branch.Some? && t.branch.value !in {"", "main", "master"} && c.branch == t.branch
    && c.kind == DirtyWorktree && !c.merged && c.proposed == Some(Active) && c.finishability == 0.45
    && c.pr.None? && c.observed.None? && c.taskId.None?
  }

  /** Every candidate of a repository stands for something found there. */
  ghost predicate HasSource(r: Repo, c: Candidate) {
    c.repo == r.root && c.repoName == r.name
    && (|| (exists b :: b in r.branches && (forall pr :: pr in Prs(r) ==> !Carries(b.name, pr)) && ForBranch(c, b))
        || (exists b, pr :: MatchedBranch(r, b, pr, c))
        || (exists pr :: pr in Prs(r) && ForPr(c, pr) && c.kind == OpenPullRequest && !c.merged)
        || (exists t :: t in r.worktrees && ForWorktree(c, t)))
  }

  lemma EveryCandidateHasASource(r: Repo, c: Candidate)
    requires c in RepoWork(r)
    ensures HasSource(r, c)
  {
    if c in BranchWorkOf(r) {
      var i :| 0 <= i < |r.branches| && c == BranchCandidate(r, r.branches[i]);
      var b := r.branches[i];
      MatchIsLast(Prs(r), b.name);
      if Match(Prs(r), b.name).Some? {
        assert MatchedBranch(r, b, Match(Prs(r), b.name).value, c);
      } else {
        assert ForBranch(c, b);
      }
    } else if c in PrWork(r, Prs(r)) {
      var pr :| pr in Prs(r) && pr.number !in Matched(r) && c == PrCandidate(r, pr);
      assert ForPr(c, pr);
    } else {
      var t :| t in r.worktrees && DirtyBranch(t) && c == TreeCandidate(r, t.branch.value);
      assert ForWorktree(c, t);
    }
  }

  predicate MatchedBranch(r: Repo, b: Branch, pr: PullRequest, c: Candidate) {
    b in r.branches && pr in Prs(r) && Carries(b.name, pr) && ForPr(c, pr) && c.kind == BranchWork && c.merged == b.merged
  }

  /** How near to its end a pull request is: its state decides, and for one under review whether it is a
      draft or clean. */
  lemma FinishIs(s: PrState)
    ensures PrFinish(s) ==
      if s.EmptyRecord? || s.mergeState in {"UNSTABLE", "UNKNOWN"} then 0.4
      else if s.mergeState == "DIRTY" || s.review == "CHANGES_REQUESTED" then 0.35
      else if s.draft then 0.6
      else if s.mergeState == "CLEAN" then (if s.review == "APPROVED" then 0.9 else 0.7) else 0.5
  {
  }

  /** The alias of a branch with a pull request is no candidate's fingerprint: the pull request
      was matched, so it is not listed as a candidate of its own. */
  lemma AliasIsFree(rs: seq<Repo>, ts: seq<FailedTask>, c: Candidate, d: Candidate)
    requires Facts(rs, ts) && c in Inventory(rs, ts) && d in Inventory(rs, ts) && AliasOf(c).Some?
    ensures AliasOf(c).value != FingerprintOf(d)
  {
    if d.kind.OpenPullRequest? && d.repo == c.repo && d.pr == c.pr {
      var k := AllRepoWorkFrom(rs, c);
      var m := AllRepoWorkFrom(rs, d);
      RepoWorkFrom(rs[k], c);
      RepoWorkFrom(rs[m], d);
      assert false;
    }
  }

  lemma InventoryDistinct(rs: seq<Repo>, ts: seq<FailedTask>)
    requires Facts(rs, ts)
    ensures DistinctFingerprints(Inventory(rs, ts))
  {
    AllRepoWorkDistinct(rs);
    forall x, y | x in AllRepoWork(rs) && y in TaskWork(ts) ensures FingerprintOf(x) != FingerprintOf(y) {
      var k := AllRepoWorkFrom(rs, x);
      RepoWorkFrom(rs[k], x);
    }
    DistinctConcat(AllRepoWork(rs), TaskWork(ts));
  }

  lemma InventoryCoherent(rs: seq<Repo>, ts: seq<FailedTask>, w: World, c: Candidate)
    requires Facts(rs, ts) && w.github == Views(rs) && c in Inventory(rs, ts)
    ensures Coherent(c, w)
  {
    if c in AllRepoWork(rs) {
      var k := AllRepoWorkFrom(rs, c);
      RepoWorkFrom(rs[k], c);
      ViewsExact(rs, k);
    }
  }

  /** Every inventory meets what the merge needs, whatever the repositories look like. */
  lemma InventoryWellFormed(rs: seq<Repo>, ts: seq<FailedTask>, w: World)
    requires Facts(rs, ts) && w.github == Views(rs)
    ensures WellFormed(Inventory(rs, ts), w)
  {
    var cs := Inventory(rs, ts);
    InventoryDistinct(rs, ts);
    forall i, j | 0 <= i < |cs| && 0 <= j < |cs| && AliasOf(cs[i]).Some?
      ensures AliasOf(cs[i]).value != FingerprintOf(cs[j])
    {
      AliasIsFree(rs, ts, cs[i], cs[j]);
    }
    forall i | 0 <= i < |cs| ensures Coherent(cs[i], w) { InventoryCoherent(rs, ts, w, cs[i]); }
  }

  /** Observing and merging twice: on every inventory without a task conflict the lanes settle. */
  lemma ObservedLanesSettle(rs: seq<Repo>, ts: seq<FailedTask>, lanes: seq<Lane>, w: World)
    requires Facts(rs, ts) && w.github == Views(rs) && NoConflict(Inventory(rs, ts), lanes)
    ensures var cs := Inventory(rs, ts); var m1 := MergeAll(cs, lanes, w); var m2 := MergeAll(cs, m1, w);
      && (forall i :: 0 <= i < |cs| ==>
           StateOf(Lookup(m2, FingerprintOf(cs[i]))) == StateOf(Lookup(m1, FingerprintOf(cs[i]))))
      && MergeAll(cs, m2, w) == m2
  {
    InventoryWellFormed(rs, ts, w);
    MergeSettles(Inventory(rs, ts), lanes, w);
  }
}
