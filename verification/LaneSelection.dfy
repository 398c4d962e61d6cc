/** `select_lanes_for_plan_with_evidence` of src/bureau/closure.py: a selector with several
    limits over the sorted lanes, and what reaches it from a merge. */
module LaneSelection {
  import opened Prelude
  import opened Lanes
  import opened TaskIds
  import opened LaneMerge
  import opened LaneFixpoint

  datatype Limits = Limits(selected: int, coding: int, sameRepo: int, review: int, merge: int)

  const DEFAULT_LIMITS := Limits(4, 2, 1, 1, 1)

  predicate Excluded(s: Option<LaneState>) {
    s.Some? && (s.value.Closed? || s.value.Verified? || s.value.Merged? || s.value.Obsolete? || s.value.Paused? || s.value.Blocked?)
  }

  predicate Mutating(s: Option<LaneState>) {
    s.Some? && (s.value.Planned? || s.value.Ready? || s.value.Active? || s.value.NeedsRevision? || s.value.CiFailed?)
  }

  predicate InReview(s: Option<LaneState>) {
    s.Some? && (s.value.Reviewing? || s.value.NeedsRevision? || s.value.CiFailed?)
  }

  predicate Merging(s: Option<LaneState>) {
    s.Some? && (s.value.MergeCandidate? || s.value.MergeReady?)
  }

  predicate Gated(s: Option<LaneState>) { Mutating(s) || InReview(s) || Merging(s) }

  predicate Canonical(l: Lane) { l.taskId.Some? && IsCanonicalTaskId(l.taskId.value) }

  /** The selector's variables. `crowdedOut` records the lanes that raised the coding counters
      and were then dropped by the review limit. */
  datatype Pick = Pick(
    selected: seq<Lane>, rejected: seq<Lane>, perRepo: map<string, int>,
    coding: int, review: int, merge: int, stop: bool, crowdedOut: seq<Lane>)

  const NOTHING := Pick([], [], map[], 0, 0, 0, false, [])

  function PerRepo(p: Pick, repo: string): int {
    if repo in p.perRepo then p.perRepo[repo] else 0
  }

  function AddCoding(p: Pick, l: Lane): Pick {
    if !Mutating(l.state) then p
    else p.(coding := p.coding + 1, perRepo := p.perRepo[l.repo := PerRepo(p, l.repo) + 1])
  }

  function Take(p: Pick, l: Lane, lim: Limits): Pick {
    var q := p.(selected := p.selected + [l],
                review := p.review + if InReview(l.state) then 1 else 0,
                merge := p.merge + if Merging(l.state) then 1 else 0);
    q.(stop := q.coding >= lim.coding && q.review >= lim.review && q.merge >= lim.merge)
  }

  predicate CodingFull(p: Pick, l: Lane, lim: Limits) {
    Mutating(l.state) && (p.coding >= lim.coding || PerRepo(p, l.repo) >= lim.sameRepo)
  }

  predicate ReviewFull(p: Pick, l: Lane, lim: Limits) { InReview(l.state) && p.review >= lim.review }

  predicate MergeFull(p: Pick, l: Lane, lim: Limits) { Merging(l.state) && p.merge >= lim.merge }

  function Consider(p: Pick, l: Lane, lim: Limits): Pick {
    if Excluded(l.state) then p
    else if Gated(l.state) && !Canonical(l) then p.(rejected := p.rejected + [l])
    else if CodingFull(p, l, lim) then p
    else if ReviewFull(p, l, lim) then
      var q := AddCoding(p, l);
      if Mutating(l.state) then q.(crowdedOut := q.crowdedOut + [l]) else q
    else if MergeFull(p, l, lim) then AddCoding(p, l)
    else Take(AddCoding(p, l), l, lim)
  }

  function PickAll(p: Pick, lanes: seq<Lane>, lim: Limits): Pick
    decreases |lanes|
  {
    if lanes == [] || p.stop || |p.selected| >= lim.selected then p
    else PickAll(Consider(p, lanes[0], lim), lanes[1..], lim)
  }

  function Select(lanes: seq<Lane>, lim: Limits): Pick { PickAll(NOTHING, Sort(lanes), lim) }

  /* ---- the selector as the program runs it ---- */

  /** The counters of the loop body; `p` is the selector's state as a value. */
  method Admit(lane: Lane, lim: Limits, perRepo: map<string, int>, coding: int, review: int, merge: int, ghost p: Pick)
    returns (admit: bool, perRepo': map<string, int>, coding': int, review': int, merge': int)
    requires perRepo == p.perRepo && coding == p.coding && review == p.review && merge == p.merge
    requires !Excluded(lane.state) && (Gated(lane.state) ==> Canonical(lane))
    ensures var q := Consider(p, lane, lim);
      && q.selected == (if admit then p.selected + [lane] else p.selected) && q.rejected == p.rejected
      && q.perRepo == perRepo' && q.coding == coding' && q.review == review' && q.merge == merge'
      && q.stop == if admit then coding' >= lim.coding && review' >= lim.review && merge' >= lim.merge else p.stop
  {
    admit, perRepo', coding', review', merge' := false, perRepo, coding, review, merge;
    if Mutating(lane.state) {
      var used := if lane.repo in perRepo then perRepo[lane.repo] else 0;
      if coding >= lim.coding || used >= lim.sameRepo { return; }
      coding' := coding + 1;
      perRepo' := perRepo[lane.repo := used + 1];
    }
    if InReview(lane.state) {
      if review >= lim.review { return; }
      review' := review + 1;
    }
    if Merging(lane.state) {
      if merge >= lim.merge { return; }
      merge' := merge + 1;
    }
    admit := true;
  }

  method SelectSorted(sorted: seq<Lane>, lim: Limits) returns (selected: seq<Lane>, rejected: seq<Lane>)
    ensures var p := PickAll(NOTHING, sorted, lim); selected == p.selected && rejected == p.rejected
  {
    selected, rejected := [], [];
    var perRepo: map<string, int> := map[];
    var coding, review, merge, i := 0, 0, 0, 0;
    ghost var p := NOTHING;
    assert sorted[0..] == sorted;
    while i < |sorted|
      invariant i <= |sorted| && !p.stop
      invariant p.selected == selected && p.rejected == rejected && p.perRepo == perRepo
      invariant p.coding == coding && p.review == review && p.merge == merge
      invariant PickAll(NOTHING, sorted, lim) == PickAll(p, sorted[i..], lim)
    {
      if |selected| >= lim.selected { break; }
      var lane := sorted[i];
      assert sorted[i..][0] == lane && sorted[i..][1..] == sorted[i + 1..];
      i := i + 1;
      if Excluded(lane.state) { continue; }
      if Gated(lane.state) && !Canonical(lane) {
        rejected := rejected + [lane];
        p := Consider(p, lane, lim);
        continue;
      }
      var admit;
      admit, perRepo, coding, review, merge := Admit(lane, lim, perRepo, coding, review, merge, p);
      p := Consider(p, lane, lim);
      if admit {
        selected := selected + [lane];
        if |selected| >= lim.selected || (coding >= lim.coding && review >= lim.review && merge >= lim.merge) { break; }
      }
    }
  }

  method SelectLanes(lanes: seq<Lane>, lim: Limits) returns (selected: seq<Lane>, rejected: seq<Lane>)
    ensures selected == Select(lanes, lim).selected && rejected == Select(lanes, lim).rejected
  {
    selected, rejected := SelectSorted(Sort(lanes), lim);
  }

  /* ---- what the limits bound ---- */

  datatype Class = AllMutating | MutatingIn(repo: string) | Reviews | Merges

  predicate In(l: Lane, k: Class) {
    match k
    case AllMutating => Mutating(l.state)
    case MutatingIn(repo) => Mutating(l.state) && l.repo == repo
    case Reviews => InReview(l.state)
    case Merges => Merging(l.state)
  }

  function Count(ls: seq<Lane>, k: Class): nat {
    if ls == [] then 0 else Count(ls[..|ls| - 1], k) + if In(ls[|ls| - 1], k) then 1 else 0
  }

  function Counter(p: Pick, k: Class): int {
    match k
    case AllMutating => p.coding
    case MutatingIn(repo) => PerRepo(p, repo)
    case Reviews => p.review
    case Merges => p.merge
  }

  function Limit(lim: Limits, k: Class): int {
    match k
    case AllMutating => lim.coding
    case MutatingIn(_) => lim.sameRepo
    case Reviews => lim.review
    case Merges => lim.merge
  }

  /** A counter is the selected lanes of its class plus, for coding, the lanes crowded out. */
  predicate Accounts(p: Pick, k: Class) {
    Counter(p, k) == Count(p.selected, k) + if k.AllMutating? || k.MutatingIn? then Count(p.crowdedOut, k) else 0
  }

  lemma CountAppend(ls: seq<Lane>, l: Lane, k: Class)
    ensures Count(ls + [l], k) == Count(ls, k) + if In(l, k) then 1 else 0
  {
    assert (ls + [l])[..|ls|] == ls;
  }

  /** One lane leaves a counter alone, or raises it below its limit as the lane is taken or,
      for coding, crowded out. */
  lemma ConsiderMoves(p: Pick, l: Lane, lim: Limits, k: Class)
    ensures var q := Consider(p, l, lim); var up := if In(l, k) then 1 else 0;
      && (In(l, k) && Counter(q, k) != Counter(p, k) ==> Counter(p, k) < Limit(lim, k))
      && (|| (q.selected == p.selected && q.crowdedOut == p.crowdedOut && Counter(q, k) == Counter(p, k))
          || (q.selected == p.selected + [l] && q.crowdedOut == p.crowdedOut && Counter(q, k) == Counter(p, k) + up)
          || (q.selected == p.selected && q.crowdedOut == p.crowdedOut + [l]
              && Counter(q, k) == Counter(p, k) + if k.AllMutating? || k.MutatingIn? then up else 0))
  {
  }

  lemma ConsiderAccounts(p: Pick, l: Lane, lim: Limits, k: Class)
    requires Accounts(p, k) && Counter(p, k) <= Max(0, Limit(lim, k))
    ensures Accounts(Consider(p, l, lim), k) && Counter(Consider(p, l, lim), k) <= Max(0, Limit(lim, k))
  {
    ConsiderMoves(p, l, lim, k);
    CountAppend(p.selected, l, k);
    CountAppend(p.crowdedOut, l, k);
  }

  lemma {:induction false} PickAllAccounts(p: Pick, lanes: seq<Lane>, lim: Limits, k: Class)
    requires Accounts(p, k) && Counter(p, k) <= Max(0, Limit(lim, k))
    ensures var q := PickAll(p, lanes, lim); Accounts(q, k) && Counter(q, k) <= Max(0, Limit(lim, k))
    decreases |lanes|
  {
    if lanes != [] && !p.stop && |p.selected| < lim.selected {
      ConsiderAccounts(p, lanes[0], lim, k);
      PickAllAccounts(Consider(p, lanes[0], lim), lanes[1..], lim, k);
    }
  }

  ghost predicate Admissible(p: Pick) {
    && (forall l :: l in p.selected ==> !Excluded(l.state) && (Gated(l.state) ==> Canonical(l)))
    && (forall l :: l in p.rejected ==> !Excluded(l.state) && Gated(l.state) && !Canonical(l))
    && (forall l :: l in p.crowdedOut ==> Mutating(l.state) && InReview(l.state))
  }

  lemma {:induction false} PickAllAdmissible(p: Pick, lanes: seq<Lane>, lim: Limits)
    requires Admissible(p) && |p.selected| <= Max(0, lim.selected)
    ensures var q := PickAll(p, lanes, lim); Admissible(q) && |q.selected| <= Max(0, lim.selected)
    decreases |lanes|
  {
    if lanes != [] && !p.stop && |p.selected| < lim.selected {
      var q := Consider(p, lanes[0], lim);
      assert q.selected == p.selected || q.selected == p.selected + [lanes[0]];
      PickAllAdmissible(q, lanes[1..], lim);
    }
  }

  /** The selection respects the total, coding, per-repository, review and merge limits, its
      gated lanes have canonical task ids, and each counter is its selected lanes plus, for
      coding, the lanes crowded out by the review limit. */
  lemma SelectionWithinLimits(lanes: seq<Lane>, lim: Limits)
    ensures var p := Select(lanes, lim);
      && |p.selected| <= Max(0, lim.selected) && Admissible(p)
      && forall k :: Count(p.selected, k) <= Max(0, Limit(lim, k)) && Accounts(p, k)
  {
    var sorted := Sort(lanes);
    PickAllAdmissible(NOTHING, sorted, lim);
    forall k: Class
      ensures Count(Select(lanes, lim).selected, k) <= Max(0, Limit(lim, k)) && Accounts(Select(lanes, lim), k)
    {
      PickAllAccounts(NOTHING, sorted, lim, k);
    }
  }

  /* ---- nothing is left out without a reason ---- */

  /** Why a lane is not selected, judged by the final counters. */
  predicate Explained(l: Lane, p: Pick, lim: Limits) {
    || Excluded(l.state) || (Gated(l.state) && !Canonical(l))
    || |p.selected| >= lim.selected || p.stop
    || CodingFull(p, l, lim) || ReviewFull(p, l, lim) || MergeFull(p, l, lim)
  }

  ghost predicate Grows(p: Pick, q: Pick) {
    && p.selected <= q.selected && p.coding <= q.coding && p.review <= q.review && p.merge <= q.merge
    && (forall repo :: PerRepo(p, repo) <= PerRepo(q, repo))
  }

  lemma ConsiderExplains(p: Pick, l: Lane, lim: Limits)
    ensures var q := Consider(p, l, lim);
      && Grows(p, q) && (l in q.selected || Explained(l, q, lim))
      && forall m :: m in q.selected ==> m in p.selected || m == l
  {
  }

  lemma ExplainedStays(l: Lane, p: Pick, q: Pick, lim: Limits)
    requires Grows(p, q) && (l in p.selected || (Explained(l, p, lim) && !p.stop)) && (p.stop ==> q.stop)
    ensures l in q.selected || Explained(l, q, lim)
  {
    assert PerRepo(p, l.repo) <= PerRepo(q, l.repo);
  }

  lemma {:induction false} PickAllExplains(p: Pick, lanes: seq<Lane>, lim: Limits)
    ensures var q := PickAll(p, lanes, lim);
      && Grows(p, q) && (p.stop ==> q == p)
      && (forall l :: l in q.selected ==> l in p.selected || l in lanes)
      && (forall l :: l in lanes ==> l in q.selected || Explained(l, q, lim))
    decreases |lanes|
  {
    if lanes != [] && !p.stop && |p.selected| < lim.selected {
      var p1, q := Consider(p, lanes[0], lim), PickAll(p, lanes, lim);
      PickAllExplains(p1, lanes[1..], lim);
      ConsiderExplains(p, lanes[0], lim);
      GrowsThen(p, p1, q);
      if !p1.stop { ExplainedStays(lanes[0], p1, q, lim); }
      assert lanes == [lanes[0]] + lanes[1..];
    }
  }

  lemma GrowsThen(p: Pick, q: Pick, r: Pick)
    requires Grows(p, q) && Grows(q, r)
    ensures Grows(p, r)
  {
    forall repo ensures PerRepo(p, repo) <= PerRepo(r, repo) { assert PerRepo(p, repo) <= PerRepo(q, repo) <= PerRepo(r, repo); }
  }

  /** Only given lanes are selected, and every lane left out is out for its state, its missing
      task id, or a limit that is used up at the end. */
  lemma SelectionExplained(lanes: seq<Lane>, lim: Limits)
    ensures var p := Select(lanes, lim);
      && (forall l :: l in p.selected ==> l in lanes)
      && (forall l :: l in lanes ==> l in p.selected || Explained(l, p, lim))
  {
    PickAllExplains(NOTHING, Sort(lanes), lim);
    forall l ensures l in Sort(lanes) <==> l in lanes { SortMembers(lanes, l); }
  }

  /* ---- the counters are bounds, not counts ---- */

  function Sample(repo: string, s: LaneState): Lane {
    Lane(None, Some(s), repo, repo, None, None, None, Some("A-1"), None, None, false)
  }

  const RED := Sample("a", CiFailed)
  const REVISED := Sample("b", NeedsRevision)
  const IDLE := Sample("c", Planned)

  /** With the default limits, a lane that review crowds out uses up a coding slot that no
      selected lane has: one lane is selected, and a planned one in a third repository is not. */
  lemma CrowdedOutLaneTakesASlot()
    ensures var p := Select([RED, REVISED, IDLE], DEFAULT_LIMITS);
      p.selected == [RED] && p.coding == 2 && p.crowdedOut == [REVISED]
  {
    SampleSteps();
    SampleSorted();
    PickStep(NOTHING, RED, [REVISED, IDLE], DEFAULT_LIMITS);
    PickStep(AFTER_RED, REVISED, [IDLE], DEFAULT_LIMITS);
    PickStep(AFTER_REVISED, IDLE, [], DEFAULT_LIMITS);
    assert [RED] + [REVISED, IDLE] == [RED, REVISED, IDLE] && [REVISED] + [IDLE] == [REVISED, IDLE] && [IDLE] + [] == [IDLE];
  }

  const AFTER_RED := Pick([RED], [], map["a" := 1], 1, 1, 0, false, [])
  const AFTER_REVISED := Pick([RED], [], map["a" := 1, "b" := 1], 2, 1, 0, false, [REVISED])

  lemma SampleSteps()
    ensures Consider(NOTHING, RED, DEFAULT_LIMITS) == AFTER_RED
    ensures Consider(AFTER_RED, REVISED, DEFAULT_LIMITS) == AFTER_REVISED
    ensures Consider(AFTER_REVISED, IDLE, DEFAULT_LIMITS) == AFTER_REVISED
  {
    CanonicalShape("A-1");
    assert [] + [RED] == [RED] && [] + [REVISED] == [REVISED];
  }

  lemma SampleSorted()
    ensures Sort([RED, REVISED, IDLE]) == [RED, REVISED, IDLE]
  {
    SortedIsFixed([RED, REVISED, IDLE]);
  }

  lemma PickStep(p: Pick, l: Lane, rest: seq<Lane>, lim: Limits)
    requires !p.stop && |p.selected| < lim.selected
    ensures PickAll(p, [l] + rest, lim) == PickAll(Consider(p, l, lim), rest, lim)
  {
    assert ([l] + rest)[1..] == rest;
  }

  /* ---- fail-closed, from observation to selection ---- */

  lemma RetainedExcluded(l: Lane, w: World)
    ensures Excluded(Retain(l, w).state)
  {
  }

  lemma WithheldExcluded(c: Candidate, own: Option<Lane>, alias: Option<Lane>, w: World)
    requires Withheld(c, own, alias, w) || BindingConflict(c, own, alias) || Overridden(MergedTaskId(c, own, alias), w)
    ensures Excluded(MergeOne(c, own, alias, w).state)
  {
  }

  /** The candidate's earlier pull-request data is confirmed, its task bindings agree and the
      registry has not ended its task. */
  ghost predicate Confirmed(c: Candidate, lanes: seq<Lane>, w: World) {
    var own, alias := Lookup(lanes, FingerprintOf(c)), LookupAlias(lanes, c);
    !Withheld(c, own, alias, w) && !BindingConflict(c, own, alias) && !Overridden(MergedTaskId(c, own, alias), w)
  }

  lemma MergedOrigin(cs: seq<Candidate>, lanes: seq<Lane>, w: World, l: Lane) returns (i: nat)
    requires l in MergeAll(cs, lanes, w) && !Excluded(l.state)
    ensures i < |cs| && l == MergeInto(cs[i], lanes, w) && Confirmed(cs[i], lanes, w)
  {
    var front, back := Fresh(cs, lanes, w), Kept(cs, lanes, w);
    SortMembers(front + back, l);
    if l in back {
      var j :| 0 <= j < |back| && back[j] == l;
      RetainedExcluded(Filter(lanes, Absorbed(cs))[j], w);
      assert false;
    } else {
      i :| 0 <= i < |front| && front[i] == l;
      var own, alias := Lookup(lanes, FingerprintOf(cs[i])), LookupAlias(lanes, cs[i]);
      if Withheld(cs[i], own, alias, w) || BindingConflict(cs[i], own, alias) || Overridden(MergedTaskId(cs[i], own, alias), w) {
        WithheldExcluded(cs[i], own, alias, w);
        assert false;
      }
    }
  }

  /** Every lane selected after a merge continues a current candidate whose earlier pull-request
      data is not withheld by a blocked or incomplete observation, whose task bindings agree and
      whose task the registry has not ended; a lane whose source vanished is never selected. */
  lemma SelectionFailsClosed(cs: seq<Candidate>, lanes: seq<Lane>, w: World, lim: Limits, l: Lane) returns (i: nat)
    requires l in Select(MergeAll(cs, lanes, w), lim).selected
    ensures i < |cs| && l == MergeInto(cs[i], lanes, w) && Confirmed(cs[i], lanes, w)
  {
    SelectionExplained(MergeAll(cs, lanes, w), lim);
    SelectionWithinLimits(MergeAll(cs, lanes, w), lim);
    i := MergedOrigin(cs, lanes, w, l);
  }
}
