/** What repeated merges of the same inventory do: one lane per candidate, every other earlier
    lane kept, states stable at once and the whole lane list stable from the second merge on. */
module LaneFixpoint {
  import opened Prelude
  import opened Lanes
  import opened TaskIds
  import opened LaneMerge

  ghost predicate DistinctFingerprints(cs: seq<Candidate>) {
    forall i, j :: 0 <= i < j < |cs| ==> FingerprintOf(cs[i]) != FingerprintOf(cs[j])
  }

  ghost predicate AliasesFree(cs: seq<Candidate>) {
    forall i, j :: 0 <= i < |cs| && 0 <= j < |cs| && AliasOf(cs[i]).Some? ==>
      AliasOf(cs[i]).value != FingerprintOf(cs[j])
  }

  /** Blocked repositories carry no observed pull request, and a pull request is never
      reported without its observation. */
  predicate Coherent(c: Candidate, w: World) {
    (Seen(w, c.repo, BlockedView) ==> c.observed.None?) && (c.observed.None? ==> c.pr.None?)
  }

  ghost predicate WellFormed(cs: seq<Candidate>, w: World) {
    DistinctFingerprints(cs) && AliasesFree(cs) && forall i :: 0 <= i < |cs| ==> Coherent(cs[i], w)
  }

  ghost predicate NoConflict(cs: seq<Candidate>, lanes: seq<Lane>) {
    forall i :: 0 <= i < |cs| ==>
      !BindingConflict(cs[i], Lookup(lanes, FingerprintOf(cs[i])), LookupAlias(lanes, cs[i]))
  }

  /* ---- one lane ---- */

  function AgainOne(c: Candidate, l: Lane, w: World): Lane {
    MergeOne(c, Some(l), None, w)
  }

  /** The registry overrides the state of lanes with this task id. */
  predicate Overridden(taskId: Option<string>, w: World) {
    taskId.Some? && IsCanonicalTaskId(taskId.value)
    && taskId.value in w.taskStates && !w.taskStates[taskId.value].TaskOpen?
  }

  /** A preserved workflow state brings its old finishability along, but a registry override
      then hides that state from the next merge, which falls back to the candidate's value. */
  predicate FinishDrifts(c: Candidate, own: Option<Lane>, alias: Option<Lane>, w: World) {
    var was := OldOf(own, alias);
    && Preserves(c, StateOf(was))
    && was.value.finishability.Some? && was.value.finishability != Some(c.finishability)
    && Overridden(MergedTaskId(c, own, alias), w)
  }

  /** A withheld pull request that is numbered 0 or has an empty record is falsy, so that the
      next merge drops it. */
  predicate PrDrifts(c: Candidate, own: Option<Lane>, alias: Option<Lane>, w: World) {
    Withheld(c, own, alias, w)
    && (MergedPr(c, own, alias, w) == Some(0) || MergedObserved(c, own, alias, w) == Some(EmptyRecord))
  }

  predicate Drifts(c: Candidate, own: Option<Lane>, alias: Option<Lane>, w: World) {
    FinishDrifts(c, own, alias, w) || PrDrifts(c, own, alias, w)
  }

  lemma TaskAndBindingSettle(c: Candidate, own: Option<Lane>, alias: Option<Lane>, w: World)
    requires !BindingConflict(c, own, alias)
    ensures var l := Some(MergeOne(c, own, alias, w));
      && MergedTaskId(c, l, None) == MergedTaskId(c, own, alias)
      && MergedBinding(l, None) == MergedBinding(own, alias)
      && !BindingConflict(c, l, None)
  {
  }

  lemma PrSettlesFor(c: Candidate, own: Option<Lane>, alias: Option<Lane>, w: World, l: Lane)
    requires Coherent(c, w)
    requires l.pr == MergedPr(c, own, alias, w) && l.observed == MergedObserved(c, own, alias, w)
    ensures !PrDrifts(c, Some(l), None, w)
    ensures !PrDrifts(c, own, alias, w)
       <==> MergedPr(c, Some(l), None, w) == l.pr && MergedObserved(c, Some(l), None, w) == l.observed
  {
  }

  lemma MergedPrStored(c: Candidate, own: Option<Lane>, alias: Option<Lane>, w: World)
    ensures var l := MergeOne(c, own, alias, w); l.pr == MergedPr(c, own, alias, w) && l.observed == MergedObserved(c, own, alias, w)
  {
  }

  lemma PrSettles(c: Candidate, own: Option<Lane>, alias: Option<Lane>, w: World)
    requires Coherent(c, w)
    ensures var l := MergeOne(c, own, alias, w);
      && !PrDrifts(c, Some(l), None, w)
      && (!PrDrifts(c, own, alias, w) <==> AgainOne(c, l, w).pr == l.pr && AgainOne(c, l, w).observed == l.observed)
  {
    var l := MergeOne(c, own, alias, w);
    MergedPrStored(c, own, alias, w);
    MergedPrStored(c, Some(l), None, w);
    PrSettlesFor(c, own, alias, w, l);
  }

  /** How a merged lane's state tells whether a workflow state was preserved. */
  lemma StateFacts(c: Candidate, own: Option<Lane>, alias: Option<Lane>, w: World)
    requires Coherent(c, w) && !BindingConflict(c, own, alias)
    ensures var l, was := MergeOne(c, own, alias, w), StateOf(OldOf(own, alias));
      && l.taskId == MergedTaskId(c, own, alias) && l.finishability == MergedFinish(c, own, alias)
      && (Overridden(l.taskId, w) ==> l.state == Some(Verified) || l.state == Some(Obsolete))
      && (!Overridden(l.taskId, w) && Preserves(c, was) ==> l.state == was)
  {
  }

  lemma FinishSettlesFor(c: Candidate, own: Option<Lane>, alias: Option<Lane>, w: World, l: Lane)
    requires l.taskId == MergedTaskId(c, own, alias) && l.finishability == MergedFinish(c, own, alias)
    requires Overridden(l.taskId, w) ==> l.state == Some(Verified) || l.state == Some(Obsolete)
    requires !Overridden(l.taskId, w) && Preserves(c, StateOf(OldOf(own, alias))) ==> l.state == StateOf(OldOf(own, alias))
    requires MergedTaskId(c, Some(l), None) == l.taskId
    ensures !FinishDrifts(c, Some(l), None, w)
    ensures !FinishDrifts(c, own, alias, w) <==> MergedFinish(c, Some(l), None) == l.finishability
  {
  }

  lemma FinishSettles(c: Candidate, own: Option<Lane>, alias: Option<Lane>, w: World)
    requires Coherent(c, w) && !BindingConflict(c, own, alias)
    ensures var l := MergeOne(c, own, alias, w);
      && !FinishDrifts(c, Some(l), None, w)
      && (!FinishDrifts(c, own, alias, w) <==> AgainOne(c, l, w).finishability == l.finishability)
  {
    var l := MergeOne(c, own, alias, w);
    TaskAndBindingSettle(c, own, alias, w);
    StateFacts(c, own, alias, w);
    FinishSettlesFor(c, own, alias, w, l);
  }

  /** The state of a merged lane: the registry's verdict, or what was observed. */
  function MergedState(c: Candidate, own: Option<Lane>, alias: Option<Lane>, w: World): LaneState {
    var id := MergedTaskId(c, own, alias);
    if Overridden(id, w) then (if w.taskStates[id.value].TaskVerified? then Verified else Obsolete)
    else Unfinished(ObservedState(c, own, alias, w), c.merged)
  }

  lemma MergedStateStored(c: Candidate, own: Option<Lane>, alias: Option<Lane>, w: World)
    requires !BindingConflict(c, own, alias)
    ensures MergeOne(c, own, alias, w).state == Some(MergedState(c, own, alias, w))
  {
  }

  lemma StateSettlesFor(c: Candidate, own: Option<Lane>, alias: Option<Lane>, w: World, l: Lane)
    requires Coherent(c, w) && l.state == Some(MergedState(c, own, alias, w))
    requires l.pr == MergedPr(c, own, alias, w) && l.observed == MergedObserved(c, own, alias, w)
    requires MergedTaskId(c, Some(l), None) == MergedTaskId(c, own, alias)
    ensures MergedState(c, Some(l), None, w) == MergedState(c, own, alias, w)
  {
  }

  lemma StateSettles(c: Candidate, own: Option<Lane>, alias: Option<Lane>, w: World)
    requires Coherent(c, w) && !BindingConflict(c, own, alias)
    ensures AgainOne(c, MergeOne(c, own, alias, w), w).state == MergeOne(c, own, alias, w).state
  {
    var l := MergeOne(c, own, alias, w);
    TaskAndBindingSettle(c, own, alias, w);
    MergedPrStored(c, own, alias, w);
    MergedStateStored(c, own, alias, w);
    MergedStateStored(c, Some(l), None, w);
    StateSettlesFor(c, own, alias, w, l);
  }

  /** The fields of a merged lane that no observation touches. */
  lemma RestOf(c: Candidate, own: Option<Lane>, alias: Option<Lane>, w: World)
    requires !BindingConflict(c, own, alias)
    ensures var l, fp := MergeOne(c, own, alias, w), Some(FingerprintOf(c));
      && l.fingerprint == fp && l.repo == c.repo && l.repoName == c.repoName && l.branch == c.branch
      && l.taskId == MergedTaskId(c, own, alias) && l.binding == MergedBinding(own, alias)
      && l.high == if fp in w.priorities then w.priorities[fp] else OldOf(own, alias).Some? && OldOf(own, alias).value.high
  {
  }

  lemma RestSettles(c: Candidate, own: Option<Lane>, alias: Option<Lane>, w: World)
    requires !BindingConflict(c, own, alias)
    ensures var l := MergeOne(c, own, alias, w); var l2 := AgainOne(c, l, w);
      l2.(state := l.state, pr := l.pr, observed := l.observed, finishability := l.finishability) == l
  {
    TaskAndBindingSettle(c, own, alias, w);
    RestOf(c, own, alias, w);
    RestOf(c, Some(MergeOne(c, own, alias, w)), None, w);
  }

  /** A second merge leaves a lane unchanged exactly when it does not drift. */
  lemma OneFixedIff(c: Candidate, own: Option<Lane>, alias: Option<Lane>, w: World)
    requires Coherent(c, w) && !BindingConflict(c, own, alias)
    ensures var l := MergeOne(c, own, alias, w);
      && AgainOne(c, l, w).state == l.state
      && (AgainOne(c, l, w) == l <==> !Drifts(c, own, alias, w))
  {
    var l := MergeOne(c, own, alias, w);
    var l2 := AgainOne(c, l, w);
    PrSettles(c, own, alias, w);
    FinishSettles(c, own, alias, w);
    StateSettles(c, own, alias, w);
    RestSettles(c, own, alias, w);
  }

  /** A third merge leaves it unchanged in any case. */
  lemma OneSettles(c: Candidate, own: Option<Lane>, alias: Option<Lane>, w: World)
    requires Coherent(c, w) && !BindingConflict(c, own, alias)
    ensures var l2 := AgainOne(c, MergeOne(c, own, alias, w), w); AgainOne(c, l2, w) == l2
  {
    var l := MergeOne(c, own, alias, w);
    TaskAndBindingSettle(c, own, alias, w);
    PrSettles(c, own, alias, w);
    FinishSettles(c, own, alias, w);
    OneFixedIff(c, Some(l), None, w);
  }

  lemma RetainSettles(l: Lane, w: World)
    ensures Retain(Retain(l, w), w) == Retain(l, w)
    ensures Retain(l, w).fingerprint == l.fingerprint
  {
  }

  /* ---- the lane list ---- */

  /** Lanes of a merge: one per candidate in order, then the retained ones. */
  ghost predicate Parts(cs: seq<Candidate>, w: World, front: seq<Lane>, back: seq<Lane>) {
    && |front| == |cs|
    && (forall i :: 0 <= i < |cs| ==> front[i].fingerprint == Some(FingerprintOf(cs[i])))
    && (forall l :: l in back ==> Unseen(l, Absorbed(cs)) && Retain(l, w) == l)
  }

  function Again(cs: seq<Candidate>, front: seq<Lane>, w: World): seq<Lane>
    requires |front| == |cs|
  {
    seq(|cs|, i requires 0 <= i < |cs| => AgainOne(cs[i], front[i], w))
  }

  lemma MergeParts(cs: seq<Candidate>, lanes: seq<Lane>, w: World)
    ensures Parts(cs, w, Fresh(cs, lanes, w), Kept(cs, lanes, w))
  {
    var f := Filter(lanes, Absorbed(cs));
    forall l | l in Kept(cs, lanes, w) ensures Unseen(l, Absorbed(cs)) && Retain(l, w) == l {
      var i :| 0 <= i < |f| && l == Retain(f[i], w);
      RetainSettles(f[i], w);
      assert f[i] in f;
    }
  }

  /** No other lane of the two parts carries a candidate's fingerprint. */
  lemma PartsCarry(cs: seq<Candidate>, w: World, front: seq<Lane>, back: seq<Lane>, i: nat, l: Lane)
    requires Parts(cs, w, front, back) && DistinctFingerprints(cs) && i < |cs|
    requires (l in front || l in back) && l.fingerprint == Some(FingerprintOf(cs[i]))
    ensures l == front[i]
  {
    assert FingerprintOf(cs[i]) in Keys(cs[i]);
    AbsorbedMembers(cs, FingerprintOf(cs[i]));
  }

  /** In the merged list a candidate's fingerprint finds exactly its lane. */
  lemma PartsOwn(cs: seq<Candidate>, w: World, front: seq<Lane>, back: seq<Lane>, i: nat)
    requires Parts(cs, w, front, back) && DistinctFingerprints(cs) && i < |cs|
    ensures Lookup(Sort(front + back), FingerprintOf(cs[i])) == Some(front[i])
  {
    assert front[i] in front + back;
    SortMembers(front + back, front[i]);
    var l := Lookup(Sort(front + back), FingerprintOf(cs[i])).value;
    SortMembers(front + back, l);
    PartsCarry(cs, w, front, back, i, l);
  }

  /** And an alias finds none. */
  lemma PartsLookup(cs: seq<Candidate>, w: World, front: seq<Lane>, back: seq<Lane>, i: nat)
    requires Parts(cs, w, front, back) && DistinctFingerprints(cs) && AliasesFree(cs) && i < |cs|
    ensures Lookup(Sort(front + back), FingerprintOf(cs[i])) == Some(front[i])
    ensures LookupAlias(Sort(front + back), cs[i]) == None
  {
    PartsOwn(cs, w, front, back, i);
    if AliasOf(cs[i]).Some? {
      var m, a := Sort(front + back), AliasOf(cs[i]).value;
      assert a in Keys(cs[i]);
      AbsorbedMembers(cs, a);
      if Lookup(m, a).Some? { SortMembers(front + back, Lookup(m, a).value); }
    }
  }

  lemma PartsFilter(cs: seq<Candidate>, w: World, front: seq<Lane>, back: seq<Lane>)
    requires Parts(cs, w, front, back)
    ensures Kept(cs, Sort(front + back), w) == Sort(back)
  {
    var seen := Absorbed(cs);
    forall l | l in front ensures !Unseen(l, seen) {
      var i :| 0 <= i < |front| && l == front[i];
      assert FingerprintOf(cs[i]) in Keys(cs[i]);
      AbsorbedMembers(cs, FingerprintOf(cs[i]));
    }
    FilterAll(front, seen);
    FilterAll(back, seen);
    FilterConcat(front, back, seen);
    FilterSort(front + back, seen);
    assert [] + back == back;
    assert Filter(Sort(front + back), seen) == Sort(back);
    forall i | 0 <= i < |Sort(back)| ensures Retain(Sort(back)[i], w) == Sort(back)[i] {
      SortMembers(back, Sort(back)[i]);
    }
  }

  /** Merging into a merged list redoes the candidates' lanes and keeps the rest as they are. */
  lemma MergeAgain(cs: seq<Candidate>, w: World, front: seq<Lane>, back: seq<Lane>)
    requires Parts(cs, w, front, back) && DistinctFingerprints(cs) && AliasesFree(cs)
    ensures MergeAll(cs, Sort(front + back), w) == Sort(Again(cs, front, w) + back)
    ensures Parts(cs, w, Again(cs, front, w), back)
  {
    FreshIsAgain(cs, w, front, back);
    AgainParts(cs, w, front, back);
    PartsFilter(cs, w, front, back);
    SortAbsorbs(Again(cs, front, w), back);
  }

  lemma FreshIsAgain(cs: seq<Candidate>, w: World, front: seq<Lane>, back: seq<Lane>)
    requires Parts(cs, w, front, back) && DistinctFingerprints(cs) && AliasesFree(cs)
    ensures Fresh(cs, Sort(front + back), w) == Again(cs, front, w)
  {
    var m := Sort(front + back);
    forall i | 0 <= i < |cs| ensures MergeInto(cs[i], m, w) == AgainOne(cs[i], front[i], w) {
      PartsLookup(cs, w, front, back, i);
    }
  }

  lemma AgainParts(cs: seq<Candidate>, w: World, front: seq<Lane>, back: seq<Lane>)
    requires Parts(cs, w, front, back)
    ensures Parts(cs, w, Again(cs, front, w), back)
  {
    forall i | 0 <= i < |cs| ensures AgainOne(cs[i], front[i], w).fingerprint == Some(FingerprintOf(cs[i])) {}
  }

  /* ---- theorems ---- */

  /** Every merge gives one lane per candidate and keeps every earlier lane whose fingerprint
      no candidate absorbed; fingerprints stay distinct. */
  lemma MergeAccounts(cs: seq<Candidate>, lanes: seq<Lane>, w: World)
    ensures multiset(MergeAll(cs, lanes, w)) == multiset(Fresh(cs, lanes, w)) + multiset(Kept(cs, lanes, w))
    ensures |MergeAll(cs, lanes, w)| == |cs| + |Filter(lanes, Absorbed(cs))|
    ensures forall l :: l in lanes && Unseen(l, Absorbed(cs)) ==> Retain(l, w) in MergeAll(cs, lanes, w)
    ensures DistinctFingerprints(cs) && AliasesFree(cs) ==>
      forall i :: 0 <= i < |cs| ==>
        Lookup(MergeAll(cs, lanes, w), FingerprintOf(cs[i])) == Some(MergeInto(cs[i], lanes, w))
  {
    var f := Filter(lanes, Absorbed(cs));
    SortSorts(Fresh(cs, lanes, w) + Kept(cs, lanes, w));
    assert |multiset(MergeAll(cs, lanes, w))| == |MergeAll(cs, lanes, w)|;
    forall l | l in lanes && Unseen(l, Absorbed(cs)) ensures Retain(l, w) in MergeAll(cs, lanes, w) {
      var i :| 0 <= i < |f| && f[i] == l;
      assert Kept(cs, lanes, w)[i] == Retain(l, w);
      SortMembers(Fresh(cs, lanes, w) + Kept(cs, lanes, w), Retain(l, w));
    }
    MergeParts(cs, lanes, w);
    if DistinctFingerprints(cs) && AliasesFree(cs) {
      forall i | 0 <= i < |cs|
        ensures Lookup(MergeAll(cs, lanes, w), FingerprintOf(cs[i])) == Some(MergeInto(cs[i], lanes, w))
      {
        PartsLookup(cs, w, Fresh(cs, lanes, w), Kept(cs, lanes, w), i);
      }
    }
  }

  /** How many lanes carry a fingerprint. */
  function Count(lanes: seq<Lane>, fp: Fingerprint): nat {
    if lanes == [] then 0 else (if lanes[0].fingerprint == Some(fp) then 1 else 0) + Count(lanes[1..], fp)
  }

  lemma {:induction false} CountConcat(xs: seq<Lane>, ys: seq<Lane>, fp: Fingerprint)
    ensures Count(xs + ys, fp) == Count(xs, fp) + Count(ys, fp)
  {
    if xs == [] {
      assert xs + ys == ys;
    } else {
      assert (xs + ys)[1..] == xs[1..] + ys;
      CountConcat(xs[1..], ys, fp);
    }
  }

  lemma {:induction false} CountInsert(x: Lane, ys: seq<Lane>, fp: Fingerprint)
    ensures Count(Insert(x, ys), fp) == Count([x], fp) + Count(ys, fp)
  {
    if ys != [] {
      if Leq(x, ys[0]) {
        CountConcat([x], ys, fp);
      } else {
        CountInsert(x, ys[1..], fp);
        CountConcat([ys[0]], Insert(x, ys[1..]), fp);
        CountConcat([ys[0]], ys[1..], fp);
        assert ys == [ys[0]] + ys[1..];
      }
    }
  }

  lemma {:induction false} CountSort(xs: seq<Lane>, fp: Fingerprint)
    ensures Count(Sort(xs), fp) == Count(xs, fp)
  {
    if xs != [] {
      CountSort(xs[1..], fp);
      CountInsert(xs[0], Sort(xs[1..]), fp);
    }
  }

  lemma {:induction false} CountFresh(cs: seq<Candidate>, front: seq<Lane>, fp: Fingerprint)
    requires |front| == |cs| && DistinctFingerprints(cs)
    requires forall i :: 0 <= i < |cs| ==> front[i].fingerprint == Some(FingerprintOf(cs[i]))
    ensures Count(front, fp) <= 1
    ensures Count(front, fp) == 1 <==> exists i :: 0 <= i < |cs| && FingerprintOf(cs[i]) == fp
  {
    if cs != [] {
      CountFresh(cs[1..], front[1..], fp);
      if i :| 0 <= i < |cs[1..]| && FingerprintOf(cs[1..][i]) == fp {
        assert FingerprintOf(cs[i + 1]) == fp;
      }
      if i :| 0 <= i < |cs| && FingerprintOf(cs[i]) == fp {
        if i > 0 { assert FingerprintOf(cs[1..][i - 1]) == fp; }
      }
    }
  }

  lemma {:induction false} CountRetained(xs: seq<Lane>, w: World, fp: Fingerprint)
    ensures Count(RetainAll(xs, w), fp) == Count(xs, fp)
  {
    if xs != [] {
      RetainSettles(xs[0], w);
      assert RetainAll(xs, w)[1..] == RetainAll(xs[1..], w);
      CountRetained(xs[1..], w, fp);
    }
  }

  lemma {:induction false} CountKept(lanes: seq<Lane>, seen: set<Fingerprint>, w: World, fp: Fingerprint)
    ensures Count(RetainAll(Filter(lanes, seen), w), fp) == if fp in seen then 0 else Count(lanes, fp)
  {
    CountRetained(Filter(lanes, seen), w, fp);
    CountFiltered(lanes, seen, fp);
  }

  lemma {:induction false} CountFiltered(lanes: seq<Lane>, seen: set<Fingerprint>, fp: Fingerprint)
    ensures Count(Filter(lanes, seen), fp) == if fp in seen then 0 else Count(lanes, fp)
  {
    if lanes != [] {
      CountFiltered(lanes[1..], seen, fp);
      assert Unseen(lanes[0], seen) ==> Filter(lanes, seen)[1..] == Filter(lanes[1..], seen);
    }
  }

  /** Fingerprints stay distinct: a candidate's fingerprint is carried once, an absorbed alias
      never, and every other one exactly as often as before. */
  lemma MergeCounts(cs: seq<Candidate>, lanes: seq<Lane>, w: World, fp: Fingerprint)
    requires DistinctFingerprints(cs)
    ensures Count(MergeAll(cs, lanes, w), fp)
         == if exists i :: 0 <= i < |cs| && FingerprintOf(cs[i]) == fp then 1
            else if fp in Absorbed(cs) then 0 else Count(lanes, fp)
  {
    MergeParts(cs, lanes, w);
    PartsCount(cs, w, Fresh(cs, lanes, w), Kept(cs, lanes, w), fp);
    CountKept(lanes, Absorbed(cs), w, fp);
    if i :| 0 <= i < |cs| && FingerprintOf(cs[i]) == fp {
      assert fp in Keys(cs[i]);
      AbsorbedMembers(cs, fp);
    }
  }

  lemma PartsCount(cs: seq<Candidate>, w: World, front: seq<Lane>, back: seq<Lane>, fp: Fingerprint)
    requires Parts(cs, w, front, back) && DistinctFingerprints(cs)
    ensures Count(Sort(front + back), fp)
         == Count(back, fp) + if exists i :: 0 <= i < |cs| && FingerprintOf(cs[i]) == fp then 1 else 0
  {
    CountSort(front + back, fp);
    CountConcat(front, back, fp);
    CountFresh(cs, front, fp);
  }

  /** Merging the same inventory again leaves every lane's state as it was, and the lane list
      does not change any more from the second merge on. */
  lemma MergeSettles(cs: seq<Candidate>, lanes: seq<Lane>, w: World)
    requires WellFormed(cs, w) && NoConflict(cs, lanes)
    ensures var m1 := MergeAll(cs, lanes, w); var m2 := MergeAll(cs, m1, w);
      && (forall i :: 0 <= i < |cs| ==>
           StateOf(Lookup(m2, FingerprintOf(cs[i]))) == StateOf(Lookup(m1, FingerprintOf(cs[i]))))
      && Kept(cs, m1, w) == Sort(Kept(cs, lanes, w))
      && MergeAll(cs, m2, w) == m2
  {
    var front, back := Fresh(cs, lanes, w), Kept(cs, lanes, w);
    MergeParts(cs, lanes, w);
    MergeAgain(cs, w, front, back);
    var next := Again(cs, front, w);
    MergeAgain(cs, w, next, back);
    PartsFilter(cs, w, front, back);
    forall i | 0 <= i < |cs| ensures Again(cs, next, w)[i] == next[i] && next[i].state == front[i].state {
      OneSettles(cs[i], Lookup(lanes, FingerprintOf(cs[i])), LookupAlias(lanes, cs[i]), w);
      OneFixedIff(cs[i], Lookup(lanes, FingerprintOf(cs[i])), LookupAlias(lanes, cs[i]), w);
    }
    assert Again(cs, next, w) == next;
    forall i | 0 <= i < |cs|
      ensures Lookup(Sort(front + back), FingerprintOf(cs[i])) == Some(front[i])
      ensures Lookup(Sort(next + back), FingerprintOf(cs[i])) == Some(next[i])
    {
      PartsLookup(cs, w, front, back, i);
      PartsLookup(cs, w, next, back, i);
    }
  }

  /** The first merge is already a fixed point exactly when no lane drifts. */
  lemma MergeFixedIff(cs: seq<Candidate>, lanes: seq<Lane>, w: World)
    requires WellFormed(cs, w) && NoConflict(cs, lanes)
    ensures MergeAll(cs, MergeAll(cs, lanes, w), w) == MergeAll(cs, lanes, w)
       <==> forall i :: 0 <= i < |cs| ==>
              !Drifts(cs[i], Lookup(lanes, FingerprintOf(cs[i])), LookupAlias(lanes, cs[i]), w)
  {
    var front, back := Fresh(cs, lanes, w), Kept(cs, lanes, w);
    MergeParts(cs, lanes, w);
    MergeAgain(cs, w, front, back);
    var next := Again(cs, front, w);
    forall i | 0 <= i < |cs|
      ensures next[i] == front[i] <==>
        !Drifts(cs[i], Lookup(lanes, FingerprintOf(cs[i])), LookupAlias(lanes, cs[i]), w)
    {
      OneFixedIff(cs[i], Lookup(lanes, FingerprintOf(cs[i])), LookupAlias(lanes, cs[i]), w);
    }
    if forall i :: 0 <= i < |cs| ==> next[i] == front[i] {
      assert next == front;
    } else {
      var i :| 0 <= i < |cs| && next[i] != front[i];
      PartsLookup(cs, w, front, back, i);
      PartsLookup(cs, w, next, back, i);
    }
  }

  /** A block caused by a task-binding conflict survives the next merge exactly when the
      candidate reports no pull request, is blocked itself, or the registry overrides the lane. */
  lemma ConflictSurvivesIff(c: Candidate, own: Option<Lane>, alias: Option<Lane>, w: World)
    requires Coherent(c, w) && BindingConflict(c, own, alias)
    ensures var l := MergeOne(c, own, alias, w);
      AgainOne(c, l, w).state == l.state
      <==> !HasRecord(c.observed) || CandidateState(c).Blocked? || Overridden(MergedTaskId(c, own, alias), w)
  {
    var l := MergeOne(c, own, alias, w);
    ConflictNext(c, w, l);
  }

  /** What a merge makes of a lane that a conflict left without a binding. */
  lemma ConflictNext(c: Candidate, w: World, l: Lane)
    requires Coherent(c, w) && l.binding.None?
    requires l.state == if Overridden(l.taskId, w) then WithTaskState(l, w).state else Some(Blocked)
    requires l.taskId == OrText(l.taskId, c.taskId)
    requires c.observed.Some? || Seen(w, c.repo, CompleteView) ==> l.pr == c.pr && l.observed == c.observed
    ensures AgainOne(c, l, w).state == l.state
       <==> !HasRecord(c.observed) || CandidateState(c).Blocked? || Overridden(l.taskId, w)
  {
  }

  const CONTESTED := Candidate(BranchWork, "r", "r", Some("b"), Some(7), Some(PrState("CLEAN", "", false)),
                               None, Some(Reviewing), false, 0.5)
  const CONTESTED_LANE := Lane(Some(FingerprintOf(CONTESTED)), Some(Active), "r", "r", Some("b"),
                               None, None, Some("A-1"), None, None, false)
  const CONTESTED_ALIAS := CONTESTED_LANE.(fingerprint := AliasOf(CONTESTED), taskId := Some("A-2"))
  const QUIET := World(map[], map[], map[])

  /** Two lanes of different tasks meet in one branch: the merge blocks the lane, and the next
      merge of the same inventory hands it to review. */
  lemma ConflictBlockCanVanish()
    ensures var cs, lanes := [CONTESTED], [CONTESTED_LANE, CONTESTED_ALIAS];
      && WellFormed(cs, QUIET)
      && MergeInto(CONTESTED, lanes, QUIET).state == Some(Blocked)
      && MergeInto(CONTESTED, MergeAll(cs, lanes, QUIET), QUIET).state == Some(Reviewing)
  {
    var cs, lanes := [CONTESTED], [CONTESTED_LANE, CONTESTED_ALIAS];
    assert lanes[..1] == [CONTESTED_LANE];
    assert Lookup(lanes, FingerprintOf(CONTESTED)) == Some(CONTESTED_LANE);
    assert LookupAlias(lanes, CONTESTED) == Some(CONTESTED_ALIAS);
    ContestedOnce();
    MergeParts(cs, lanes, QUIET);
    PartsLookup(cs, QUIET, Fresh(cs, lanes, QUIET), Kept(cs, lanes, QUIET), 0);
  }

  lemma ContestedOnce()
    ensures var l := MergeOne(CONTESTED, Some(CONTESTED_LANE), Some(CONTESTED_ALIAS), QUIET);
      && l.state == Some(Blocked)
      && MergeOne(CONTESTED, Some(l), None, QUIET).state == Some(Reviewing)
  {
    ConflictSurvivesIff(CONTESTED, Some(CONTESTED_LANE), Some(CONTESTED_ALIAS), QUIET);
  }
}
