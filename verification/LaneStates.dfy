/** Which state and which data a lane gets from an observation, from the inventory of
    src/bureau/closure.py through the merge to the selection, in terms of the observed values. */
module LaneStates {
  import opened Prelude
  import opened Lanes
  import opened TaskIds
  import opened LaneMerge
  import opened LaneFixpoint
  import opened LaneInventory
  import opened LaneSelection

  /* ---- what is known before a merge ---- */

  /** A candidate, the earlier lanes under its fingerprint and its alias, and the observations. */
  datatype Case = Case(c: Candidate, own: Option<Lane>, alias: Option<Lane>, w: World)

  function CaseOf(c: Candidate, lanes: seq<Lane>, w: World): Case {
    Case(c, Lookup(lanes, FingerprintOf(c)), if AliasOf(c).Some? then Lookup(lanes, AliasOf(c).value) else None, w)
  }

  /** The earlier lane the candidate continues. */
  function Earlier(x: Case): Option<Lane> { if x.own.Some? then x.own else x.alias }

  function EarlierState(x: Case): Option<LaneState> { if Earlier(x).Some? then Earlier(x).value.state else None }

  function Proposed(x: Case): LaneState { if x.c.proposed.Some? then x.c.proposed.value else Planned }

  predicate Reported(x: Case) { x.c.observed.Some? }

  predicate View(x: Case, v: RepoView) { x.c.repo in x.w.github && x.w.github[x.c.repo] == v }

  predicate Knows(l: Option<Lane>) { l.Some? && (l.value.pr.Some? || l.value.observed.Some?) }

  /** An earlier lane knew a pull request. */
  predicate KnewPr(x: Case) { Knows(x.own) || Knows(x.alias) }

  /** The repository could not be listed, or was listed in part without this pull request. */
  predicate Unconfirmed(x: Case) { KnewPr(x) && (View(x, BlockedView) || (View(x, IncompleteView) && !Reported(x))) }

  /** A complete listing no longer shows the pull request. */
  predicate Gone(x: Case) { KnewPr(x) && View(x, CompleteView) && !Reported(x) }

  function Task(l: Option<Lane>): Option<string> { if l.Some? then l.value.taskId else None }

  predicate Filled(t: Option<string>) { t.Some? && t.value != "" }

  /** The task of the lane: the own lane's, else the alias's, else the candidate's. */
  function TaskAfter(x: Case): Option<string> {
    if Filled(Task(x.own)) then Task(x.own) else if Filled(Task(x.alias)) then Task(x.alias) else x.c.taskId
  }

  /** The binding kept from an earlier lane names this task. */
  predicate BoundTask(x: Case, t: string) {
    var own := x.own.Some? && x.own.value.binding.Some?;
    if own then x.own.value.binding.value.taskId == Some(t)
    else x.alias.Some? && x.alias.value.binding.Some? && x.alias.value.binding.value.taskId == Some(t)
  }

  /** The earlier lanes name different tasks, or the binding names another one than the lane's. */
  ghost predicate Disputed(x: Case) {
    || (exists a, b :: Task(x.own) == Some(a) && Task(x.alias) == Some(b) && a != b)
    || (exists a, b :: BoundTask(x, a) && TaskAfter(x) == Some(b) && a != b)
  }

  /** The registry's verdict on the lane's task. */
  predicate Ended(x: Case, s: TaskState) {
    var t := TaskAfter(x);
    t.Some? && IsCanonicalTaskId(t.value) && t.value in x.w.taskStates && x.w.taskStates[t.value] == s
  }

  /* ---- the state ---- */

  /** A pull request is reported, and the lane is paused, or is unfinished work whose pull request
      looks calm. */
  predicate Held(x: Case) {
    Reported(x)
    && (|| EarlierState(x) == Some(Paused)
        || (EarlierState(x) in {Some(Active), Some(CiFailed), Some(NeedsRevision)} && Proposed(x) in {MergeCandidate, Reviewing}))
  }

  /** What an ordinary observation makes of the lane's state: a held lane stays as it was, otherwise
      it follows what is reported or gone, and without news it stays as it was. */
  predicate Ordinary(x: Case, s: LaneState) {
    var was, news := EarlierState(x), (Reported(x) && x.c.observed != Some(EmptyRecord)) || Gone(x);
    && (Held(x) ==> Some(s) == was)
    && (!Held(x) && news ==> s == Proposed(x))
    && (!Held(x) && !news && was.Some? ==> s == was.value)
    && (!Held(x) && !news && was.None? ==> s == Proposed(x))
  }

  /** The state a merge gives: the registry's verdict first, then a block for disputed or unconfirmed
      lanes, then the ordinary one, where finished states need a merged branch. */
  ghost predicate StateIs(x: Case, s: LaneState) {
    && (Ended(x, TaskVerified) ==> s == Verified)
    && (Ended(x, TaskEnded) ==> s == Obsolete)
    && (!Ended(x, TaskVerified) && !Ended(x, TaskEnded) ==>
         && (Disputed(x) || Unconfirmed(x) ==> s == Blocked)
         && (!Disputed(x) && !Unconfirmed(x) ==>
              exists o :: Ordinary(x, o) && s == if o in {Closed, Verified, Merged} && !x.c.merged then NeedsRevision else o))
  }

  /* ---- the data ---- */

  function Number(l: Option<Lane>): Option<int> { if l.Some? then l.value.pr else None }

  function Record(l: Option<Lane>): Option<PrState> { if l.Some? then l.value.observed else None }

  function KeptBinding(x: Case): Option<Binding> {
    if x.own.Some? && x.own.value.binding.Some? then x.own.value.binding
    else if x.alias.Some? then x.alias.value.binding else None
  }

  /** Pull-request data is what was observed; only where that was not possible the earlier data
      stays, the own lane's before the alias's. A held lane keeps its finishability, and a disputed
      one loses its binding. */
  ghost predicate DataIs(x: Case, l: Lane) {
    var c := x.c;
    && l.fingerprint == Some(FingerprintOf(c)) && (l.repo, l.repoName, l.branch) == (c.repo, c.repoName, c.branch)
    && l.taskId == TaskAfter(x) && l.binding == (if Disputed(x) then None else KeptBinding(x))
    && l.pr == (if !Unconfirmed(x) || c.pr.Some? then c.pr
                else if Number(x.own).Some? && Number(x.own).value != 0 then Number(x.own) else Number(x.alias))
    && l.observed == (if !Unconfirmed(x) || Reported(x) then c.observed
                      else if HasRecord(Record(x.own)) then Record(x.own) else Record(x.alias))
    && l.finishability == (if Held(x) && Earlier(x).value.finishability.Some? then Earlier(x).value.finishability
                           else Some(c.finishability))
    && l.high == if l.fingerprint in x.w.priorities then x.w.priorities[l.fingerprint] else Earlier(x).Some? && Earlier(x).value.high
  }

  /* ---- one candidate ---- */

  lemma TaskIs(x: Case)
    ensures MergedTaskId(x.c, x.own, x.alias) == TaskAfter(x)
  {
  }

  lemma UnconfirmedIs(x: Case)
    ensures Withheld(x.c, x.own, x.alias, x.w) == Unconfirmed(x)
    ensures Stale(x.c, x.own, x.alias, x.w) == Gone(x)
  {
  }

  lemma DisputedIs(x: Case)
    ensures BindingConflict(x.c, x.own, x.alias) <==> Disputed(x)
  {
    TaskIs(x);
    var b := MergedBinding(x.own, x.alias);
    assert forall t :: BoundTask(x, t) <==> b.Some? && b.value.taskId == Some(t);
  }

  lemma OrdinaryIs(x: Case)
    requires !Unconfirmed(x)
    ensures Ordinary(x, ObservedState(x.c, x.own, x.alias, x.w))
  {
    UnconfirmedIs(x);
  }

  lemma MergedStateIs(x: Case)
    ensures var l := MergeOne(x.c, x.own, x.alias, x.w); l.state.Some? && StateIs(x, l.state.value)
  {
    TaskIs(x);
    UnconfirmedIs(x);
    DisputedIs(x);
    if !Unconfirmed(x) { OrdinaryIs(x); }
  }

  lemma MergedPrIs(x: Case)
    ensures MergedPr(x.c, x.own, x.alias, x.w) ==
      if !Unconfirmed(x) || x.c.pr.Some? then x.c.pr
      else if Number(x.own).Some? && Number(x.own).value != 0 then Number(x.own) else Number(x.alias)
    ensures MergedObserved(x.c, x.own, x.alias, x.w) ==
      if !Unconfirmed(x) || Reported(x) then x.c.observed
      else if HasRecord(Record(x.own)) then Record(x.own) else Record(x.alias)
  {
    UnconfirmedIs(x);
  }

  lemma MergedFinishIs(x: Case)
    ensures MergedFinish(x.c, x.own, x.alias) ==
      if Held(x) && Earlier(x).value.finishability.Some? then Earlier(x).value.finishability else Some(x.c.finishability)
    ensures MergedBinding(x.own, x.alias) == KeptBinding(x)
  {
  }

  /** The registry and the priorities leave the other fields alone. */
  lemma MergedFields(c: Candidate, own: Option<Lane>, alias: Option<Lane>, w: World)
    ensures var l := MergeOne(c, own, alias, w);
      && l.fingerprint == Some(FingerprintOf(c)) && (l.repo, l.repoName, l.branch) == (c.repo, c.repoName, c.branch)
      && l.taskId == MergedTaskId(c, own, alias)
      && l.binding == (if BindingConflict(c, own, alias) then None else MergedBinding(own, alias))
      && l.pr == MergedPr(c, own, alias, w) && l.observed == MergedObserved(c, own, alias, w)
      && l.finishability == MergedFinish(c, own, alias)
      && l.high == if l.fingerprint in w.priorities then w.priorities[l.fingerprint] else OldOf(own, alias).Some? && OldOf(own, alias).value.high
  {
  }

  lemma MergedDataIs(x: Case)
    ensures DataIs(x, MergeOne(x.c, x.own, x.alias, x.w))
  {
    MergedFields(x.c, x.own, x.alias, x.w);
    TaskIs(x);
    DisputedIs(x);
    MergedPrIs(x);
    MergedFinishIs(x);
  }

  /* ---- the merged list ---- */

  lemma FoundAfterMerge(cs: seq<Candidate>, lanes: seq<Lane>, w: World, i: nat)
    requires DistinctFingerprints(cs) && i < |cs|
    ensures Lookup(MergeAll(cs, lanes, w), FingerprintOf(cs[i])) == Some(MergeInto(cs[i], lanes, w))
  {
    MergeParts(cs, lanes, w);
    PartsOwn(cs, w, Fresh(cs, lanes, w), Kept(cs, lanes, w), i);
  }

  /** After a merge every candidate has its lane, with the state and the data that the earlier lanes
      and the observation call for. */
  lemma StateAfterMerge(cs: seq<Candidate>, lanes: seq<Lane>, w: World, i: nat)
    requires DistinctFingerprints(cs) && i < |cs|
    ensures var x, l := CaseOf(cs[i], lanes, w), Lookup(MergeAll(cs, lanes, w), FingerprintOf(cs[i]));
      l.Some? && l.value.state.Some? && StateIs(x, l.value.state.value) && DataIs(x, l.value)
  {
    FoundAfterMerge(cs, lanes, w, i);
    MergedStateIs(CaseOf(cs[i], lanes, w));
    MergedDataIs(CaseOf(cs[i], lanes, w));
  }

  /** What becomes of a lane whose source vanished: blocked unless it is finished, and the registry's
      verdict first. */
  ghost predicate Vanishes(l: Lane, w: World, r: Lane) {
    var x := Case(NoCandidate(l), Some(l), None, w);
    && (r.fingerprint, r.taskId, r.pr, r.observed) == (l.fingerprint, l.taskId, l.pr, l.observed)
    && (Ended(x, TaskVerified) ==> r.state == Some(Verified))
    && (Ended(x, TaskEnded) ==> r.state == Some(Obsolete))
    && (!Ended(x, TaskVerified) && !Ended(x, TaskEnded) ==>
         r.state == if l.state in {Some(Closed), Some(Merged), Some(Verified), Some(Obsolete)} then l.state else Some(Blocked))
  }

  lemma RetainedVanishes(l: Lane, w: World)
    ensures Vanishes(l, w, Retain(l, w))
  {
    assert TaskAfter(Case(NoCandidate(l), Some(l), None, w)) == l.taskId;
  }

  lemma VanishedAfterMerge(cs: seq<Candidate>, lanes: seq<Lane>, w: World, l: Lane) returns (r: Lane)
    requires l in lanes && (l.fingerprint.Some? ==> forall i :: 0 <= i < |cs| ==> l.fingerprint.value !in Keys(cs[i]))
    ensures r in MergeAll(cs, lanes, w) && Vanishes(l, w, r)
  {
    r := Retain(l, w);
    RetainedVanishes(l, w);
    if l.fingerprint.Some? { AbsorbedMembers(cs, l.fingerprint.value); }
    RetainedStays(cs, lanes, w, l);
  }

  lemma RetainedStays(cs: seq<Candidate>, lanes: seq<Lane>, w: World, l: Lane)
    requires l in lanes && Unseen(l, Absorbed(cs))
    ensures Retain(l, w) in MergeAll(cs, lanes, w)
  {
    var kept := Filter(lanes, Absorbed(cs));
    assert l in kept;
    var i :| 0 <= i < |kept| && kept[i] == l;
    assert Kept(cs, lanes, w)[i] == Retain(l, w);
    SortMembers(Fresh(cs, lanes, w) + Kept(cs, lanes, w), Retain(l, w));
  }

  /** Nothing is observed of the lane's source. */
  function NoCandidate(l: Lane): Candidate {
    Candidate(BranchWork, l.repo, l.repoName, l.branch, None, None, l.taskId, None, false, 0.0)
  }

  /* ---- the selection ---- */

  const OUT: set<LaneState> := {Closed, Verified, Merged, Obsolete, Paused, Blocked}
  const CODING: set<LaneState> := {Planned, Ready, Active, NeedsRevision, CiFailed}
  const REVIEW: set<LaneState> := {Reviewing, NeedsRevision, CiFailed}
  const MERGING: set<LaneState> := {MergeCandidate, MergeReady}

  predicate StateIn(l: Lane, states: set<LaneState>) { l.state.Some? && l.state.value in states }

  function HowMany(ls: seq<Lane>, states: set<LaneState>): nat {
    if ls == [] then 0 else HowMany(ls[..|ls| - 1], states) + if StateIn(ls[|ls| - 1], states) then 1 else 0
  }

  function HowManyIn(ls: seq<Lane>, repo: string): nat {
    if ls == [] then 0
    else HowManyIn(ls[..|ls| - 1], repo) + if StateIn(ls[|ls| - 1], CODING) && ls[|ls| - 1].repo == repo then 1 else 0
  }

  lemma ClassesAre(l: Lane)
    ensures Excluded(l.state) == StateIn(l, OUT) && Mutating(l.state) == StateIn(l, CODING)
    ensures InReview(l.state) == StateIn(l, REVIEW) && Merging(l.state) == StateIn(l, MERGING)
    ensures Gated(l.state) == StateIn(l, CODING + REVIEW + MERGING)
  {
  }

  lemma {:induction false} CountsAre(ls: seq<Lane>, repo: string)
    ensures LaneSelection.Count(ls, AllMutating) == HowMany(ls, CODING) && LaneSelection.Count(ls, Reviews) == HowMany(ls, REVIEW)
    ensures LaneSelection.Count(ls, Merges) == HowMany(ls, MERGING) && LaneSelection.Count(ls, MutatingIn(repo)) == HowManyIn(ls, repo)
  {
    if ls != [] {
      CountsAre(ls[..|ls| - 1], repo);
      ClassesAre(ls[|ls| - 1]);
    }
  }

  /** Lane states from the one to be finished first to the one to be looked at last. */
  const ORDER := [MergeReady, MergeCandidate, CiFailed, NeedsRevision, Reviewing, Active, Ready, Planned, Bound, Discovered,
                  Blocked, Paused, Obsolete, Merged, Verified, Closed]

  lemma OrderFalls(a: nat, b: nat)
    requires a < b < |ORDER|
    ensures Priority(Some(ORDER[a])) > Priority(Some(ORDER[b]))
  {
  }

  const POINTS := [100, 90, 80, 75, 70, 60, 50, 40, 30, 20, 10, 0, -10, -20, -30, -40]

  lemma PointsAre(a: nat)
    requires a < |ORDER|
    ensures |POINTS| == |ORDER| && Priority(Some(ORDER[a])) == POINTS[a]
  {
  }

  /** Among lanes of the same manual priority the sort follows that order of states, and within a
      state finishability; a high manual priority is worth twenty points. */
  lemma SortedByState(lanes: seq<Lane>, i: nat, j: nat, a: nat, b: nat)
    requires i < j < |Sort(lanes)| && a < |ORDER| && b < |ORDER|
    requires Sort(lanes)[i].state == Some(ORDER[a]) && Sort(lanes)[j].state == Some(ORDER[b])
    ensures Sort(lanes)[i].high == Sort(lanes)[j].high ==>
      a < b || (a == b && Finish(Sort(lanes)[i]) >= Finish(Sort(lanes)[j]))
    ensures !Sort(lanes)[i].high && Sort(lanes)[j].high ==> POINTS[a] >= POINTS[b] + 20
    ensures Sort(lanes)[i].high && !Sort(lanes)[j].high ==> POINTS[a] + 20 >= POINTS[b]
  {
    SortSorts(lanes);
    assert Leq(Sort(lanes)[i], Sort(lanes)[j]);
    PointsAre(a);
    PointsAre(b);
    if b < a { OrderFalls(b, a); }
  }

  /** The limits in terms of lane states: no finished, paused or blocked lane is selected, lanes for
      coding, review or merging need a canonical task id, and the number of selected lanes of each
      kind stays within its limit. Only lanes without such an id are rejected for it. */
  lemma SelectedStates(lanes: seq<Lane>, lim: Limits, repo: string)
    ensures var p := Select(lanes, lim);
      && (forall l :: l in p.selected ==>
           && l in lanes && !StateIn(l, OUT)
           && (StateIn(l, CODING + REVIEW + MERGING) ==> l.taskId.Some? && IsCanonicalTaskId(l.taskId.value)))
      && (forall l :: l in p.rejected ==>
           StateIn(l, CODING + REVIEW + MERGING) && (l.taskId.None? || !IsCanonicalTaskId(l.taskId.value)))
      && |p.selected| <= Max(0, lim.selected) && HowMany(p.selected, CODING) <= Max(0, lim.coding)
      && HowMany(p.selected, REVIEW) <= Max(0, lim.review) && HowMany(p.selected, MERGING) <= Max(0, lim.merge)
      && HowManyIn(p.selected, repo) <= Max(0, lim.sameRepo)
  {
    var p := Select(lanes, lim);
    SelectionWithinLimits(lanes, lim);
    SelectionExplained(lanes, lim);
    CountsAre(p.selected, repo);
    assert forall k :: LaneSelection.Count(p.selected, k) <= Max(0, Limit(lim, k));
    assert Limit(lim, AllMutating) == lim.coding && Limit(lim, MutatingIn(repo)) == lim.sameRepo;
    assert Limit(lim, Reviews) == lim.review && Limit(lim, Merges) == lim.merge;
    forall l | l in p.selected || l in p.rejected ensures Excluded(l.state) == StateIn(l, OUT) && Gated(l.state) == StateIn(l, CODING + REVIEW + MERGING) {
      ClassesAre(l);
    }
  }

  /* ---- lane by lane ---- */

  lemma {:induction false} PickSnoc(p: Pick, lanes: seq<Lane>, l: Lane, lim: Limits)
    ensures var q := PickAll(p, lanes, lim);
      PickAll(p, lanes + [l], lim) == if q.stop || |q.selected| >= lim.selected then q else Consider(q, l, lim)
    decreases |lanes|
  {
    if lanes == [] {
      assert [] + [l] == [l] && [l][1..] == [];
    } else if !p.stop && |p.selected| < lim.selected {
      assert (lanes + [l])[1..] == lanes[1..] + [l];
      PickSnoc(Consider(p, lanes[0], lim), lanes[1..], l, lim);
    }
  }

  /** The selector after the first `j` lanes. */
  function After(sorted: seq<Lane>, lim: Limits, j: nat): Pick
    requires j <= |sorted|
  {
    PickAll(NOTHING, sorted[..j], lim)
  }

  /** The lane's turn comes, and nothing is in its way: it is in no excluded state, has its task id if it
      needs one, and the limits of its kinds leave room. */
  predicate HasRoom(p: Pick, l: Lane, lim: Limits) {
    && !p.stop && |p.selected| < lim.selected && !StateIn(l, OUT)
    && (StateIn(l, CODING + REVIEW + MERGING) ==> l.taskId.Some? && IsCanonicalTaskId(l.taskId.value))
    && (StateIn(l, CODING) ==> p.coding < lim.coding && PerRepo(p, l.repo) < lim.sameRepo)
    && (StateIn(l, REVIEW) ==> p.review < lim.review)
    && (StateIn(l, MERGING) ==> p.merge < lim.merge)
  }

  /** Each lane in turn is selected if and only if it has room, and the selection is over as soon as a
      selected lane fills the coding, review and merge limits together. */
  lemma TurnIff(sorted: seq<Lane>, lim: Limits, j: nat)
    requires j < |sorted|
    ensures var p, q, l := After(sorted, lim, j), After(sorted, lim, j + 1), sorted[j];
      && q.selected == (if HasRoom(p, l, lim) then p.selected + [l] else p.selected)
      && (q.stop <==> p.stop || (HasRoom(p, l, lim) && q.coding >= lim.coding && q.review >= lim.review && q.merge >= lim.merge))
  {
    assert sorted[..j + 1] == sorted[..j] + [sorted[j]];
    PickSnoc(NOTHING, sorted[..j], sorted[j], lim);
    ClassesAre(sorted[j]);
  }

  /** A paused lane whose pull request is reported is never selected. */
  lemma PausedStaysOut(cs: seq<Candidate>, lanes: seq<Lane>, w: World, i: nat, lim: Limits, l: Lane)
    requires DistinctFingerprints(cs) && i < |cs| && cs[i].observed.Some? && EarlierState(CaseOf(cs[i], lanes, w)) == Some(Paused)
    requires l in Select(MergeAll(cs, lanes, w), lim).selected
    ensures l.fingerprint != Some(FingerprintOf(cs[i]))
  {
    var j := SelectedCase(cs, lanes, w, lim, l);
    if j == i { PausedIsOut(CaseOf(cs[i], lanes, w), l.state.value); }
  }

  /** Every selected lane continues a candidate, in the state its observation calls for. */
  lemma SelectedCase(cs: seq<Candidate>, lanes: seq<Lane>, w: World, lim: Limits, l: Lane) returns (j: nat)
    requires l in Select(MergeAll(cs, lanes, w), lim).selected
    ensures j < |cs| && l.fingerprint == Some(FingerprintOf(cs[j])) && l.state.Some? && l.state.value !in OUT
    ensures StateIs(CaseOf(cs[j], lanes, w), l.state.value)
  {
    SelectedStates(MergeAll(cs, lanes, w), lim, "");
    j := SelectionFailsClosed(cs, lanes, w, lim, l);
    MergedStateIs(CaseOf(cs[j], lanes, w));
    MergedDataIs(CaseOf(cs[j], lanes, w));
  }

  lemma PausedIsOut(x: Case, s: LaneState)
    requires StateIs(x, s) && Reported(x) && EarlierState(x) == Some(Paused)
    ensures s in OUT
  {
  }

  /* ---- from the pull request to the selection ---- */

  /** Which pull-request record proposes which state: conflicts and requested changes need revision,
      a missing record or unstable checks count as failed, and only a clean, approved pull request
      that is no draft may be merged. */
  lemma PrProposes(s: PrState)
    ensures var p := PrLaneState(s);
      && (p == MergeCandidate <==> s.PrState? && s.mergeState == "CLEAN" && s.review == "APPROVED" && !s.draft)
      && (p == CiFailed <==> s.EmptyRecord? || s.mergeState in {"UNSTABLE", "UNKNOWN"})
      && (p == NeedsRevision <==>
           s.PrState? && (s.mergeState == "DIRTY" || (s.review == "CHANGES_REQUESTED" && s.mergeState !in {"UNSTABLE", "UNKNOWN"})))
      && p in {MergeCandidate, CiFailed, NeedsRevision, Reviewing}
  {
  }

  /** What the inventory proposes for a candidate with and without a pull request. */
  lemma Proposes(rs: seq<Repo>, ts: seq<FailedTask>, c: Candidate)
    requires c in Inventory(rs, ts)
    ensures c.observed.Some? ==> c.proposed == Some(PrLaneState(c.observed.value))
    ensures c.observed.None? ==> c.proposed in {Some(Obsolete), Some(Planned), Some(Active), Some(CiFailed)}
  {
    if c in AllRepoWork(rs) {
      var k := AllRepoWorkFrom(rs, c);
      ProposesInRepo(rs[k], c);
    } else {
      var i :| 0 <= i < |ts| && c == TaskCandidate(ts[i]);
    }
  }

  lemma ProposesInRepo(r: Repo, c: Candidate)
    requires c in RepoWork(r)
    ensures c.observed.Some? ==> c.proposed == Some(PrLaneState(c.observed.value))
    ensures c.observed.None? ==> c.proposed in {Some(Obsolete), Some(Planned), Some(Active)}
  {
    if c in BranchWorkOf(r) {
      var i :| 0 <= i < |r.branches| && c == BranchCandidate(r, r.branches[i]);
    } else if c in PrWork(r, Prs(r)) {
      var pr :| pr in Prs(r) && pr.number !in Matched(r) && c == PrCandidate(r, pr);
    } else {
      var t :| t in r.worktrees && DirtyBranch(t) && c == TreeCandidate(r, t.branch.value);
    }
  }

  /** A lane selected for merging has a clean, approved pull request that is no draft, or was up for
      merging before and nothing was reported about it. */
  lemma MergesAreApproved(rs: seq<Repo>, ts: seq<FailedTask>, lanes: seq<Lane>, w: World, lim: Limits, l: Lane) returns (c: Candidate)
    requires l in Select(MergeAll(Inventory(rs, ts), lanes, w), lim).selected && StateIn(l, MERGING)
    ensures c in Inventory(rs, ts) && l.fingerprint == Some(FingerprintOf(c))
    ensures
      || (c.observed.Some? && c.observed.value.PrState? && c.observed.value.mergeState == "CLEAN"
          && c.observed.value.review == "APPROVED" && !c.observed.value.draft)
      || (c.observed in {None, Some(EmptyRecord)} && EarlierState(CaseOf(c, lanes, w)) == l.state)
  {
    var cs := Inventory(rs, ts);
    var j := SelectedCase(cs, lanes, w, lim, l);
    c := cs[j];
    Proposes(rs, ts, c);
    if c.observed.Some? { PrProposes(c.observed.value); }
    MergingCase(CaseOf(c, lanes, w), l.state.value);
  }

  lemma MergingCase(x: Case, s: LaneState)
    requires StateIs(x, s) && s in MERGING
    ensures (Proposed(x) == s && (Reported(x) || Gone(x) || EarlierState(x).None?))
         || (x.c.observed in {None, Some(EmptyRecord)} && EarlierState(x) == Some(s))
  {
    var o :| Ordinary(x, o) && s == if o in {Closed, Verified, Merged} && !x.c.merged then NeedsRevision else o;
  }
}
