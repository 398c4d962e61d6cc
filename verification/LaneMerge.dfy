/** `merge_lanes` of src/bureau/closure.py: earlier lanes meet a list observation that may be
    blocked or incomplete. */
module LaneMerge {
  import opened Prelude
  import opened Lanes
  import opened TaskIds

  /** How the open pull requests of a repository were observed. */
  datatype RepoView = BlockedView | CompleteView | IncompleteView

  datatype TaskState = TaskVerified | TaskEnded | TaskOpen

  /** What a merge reads besides the candidates: the repository observations, the registry's
      task states, and whether the last matching manual intent makes a lane urgent. */
  datatype World = World(
    github: map<string, RepoView>,
    taskStates: map<string, TaskState>,
    priorities: map<Option<Fingerprint>, bool>)

  predicate Seen(w: World, repo: string, v: RepoView) {
    repo in w.github && w.github[repo] == v
  }

  /* ---- Python's `a or b` on optional values ---- */

  function OrText(a: Option<string>, b: Option<string>): Option<string> {
    if a.Some? && a.value != "" then a else b
  }

  function OrNumber(a: Option<int>, b: Option<int>): Option<int> {
    if a.Some? && a.value != 0 then a else b
  }

  predicate HasRecord(o: Option<PrState>) { o.Some? && !o.value.EmptyRecord? }

  function OrRecord(a: Option<PrState>, b: Option<PrState>): Option<PrState> {
    if HasRecord(a) then a else b
  }

  /* ---- one candidate ---- */

  predicate HadPr(l: Option<Lane>) {
    l.Some? && (l.value.pr.Some? || l.value.observed.Some?)
  }

  /** The earlier lane a candidate continues: its own, or else the one under its alias. */
  function OldOf(own: Option<Lane>, alias: Option<Lane>): Option<Lane> {
    if own.Some? then own else alias
  }

  predicate HadPrState(own: Option<Lane>, alias: Option<Lane>) {
    HadPr(OldOf(own, alias)) || HadPr(alias)
  }

  /** Earlier pull-request data that this observation can neither confirm nor refute. */
  predicate Withheld(c: Candidate, own: Option<Lane>, alias: Option<Lane>, w: World) {
    HadPrState(own, alias)
    && (Seen(w, c.repo, BlockedView) || (Seen(w, c.repo, IncompleteView) && c.observed.None?))
  }

  predicate Stale(c: Candidate, own: Option<Lane>, alias: Option<Lane>, w: World) {
    HadPrState(own, alias) && Seen(w, c.repo, CompleteView) && c.observed.None?
  }

  function CandidateState(c: Candidate): LaneState {
    if c.proposed.Some? then c.proposed.value else Planned
  }

  function StateOf(l: Option<Lane>): Option<LaneState> {
    if l.Some? then l.value.state else None
  }

  predicate Preserves(c: Candidate, was: Option<LaneState>) {
    c.observed.Some? && was.Some?
    && (was.value.Paused?
        || ((was.value.Active? || was.value.CiFailed? || was.value.NeedsRevision?)
            && (CandidateState(c).MergeCandidate? || CandidateState(c).Reviewing?)))
  }

  function ObservedState(c: Candidate, own: Option<Lane>, alias: Option<Lane>, w: World): LaneState {
    var was := StateOf(OldOf(own, alias));
    if Withheld(c, own, alias, w) then Blocked
    else if Preserves(c, was) then was.value
    else if HasRecord(c.observed) || Stale(c, own, alias, w) then CandidateState(c)
    else if was.Some? then was.value else CandidateState(c)
  }

  function Unfinished(s: LaneState, merged: bool): LaneState {
    if (s.Closed? || s.Verified? || s.Merged?) && !merged then NeedsRevision else s
  }

  function TaskIdOf(l: Option<Lane>): Option<string> {
    if l.Some? then l.value.taskId else None
  }

  function MergedTaskId(c: Candidate, own: Option<Lane>, alias: Option<Lane>): Option<string> {
    OrText(TaskIdOf(OldOf(own, alias)), OrText(TaskIdOf(alias), c.taskId))
  }

  function BindingOf(l: Option<Lane>): Option<Binding> {
    if l.Some? then l.value.binding else None
  }

  function MergedBinding(own: Option<Lane>, alias: Option<Lane>): Option<Binding> {
    var b := BindingOf(OldOf(own, alias));
    if b.Some? then b else BindingOf(alias)
  }

  predicate Differ(a: Option<string>, b: Option<string>) { a.Some? && b.Some? && a != b }

  predicate BindingConflict(c: Candidate, own: Option<Lane>, alias: Option<Lane>) {
    var b := MergedBinding(own, alias);
    || Differ(TaskIdOf(OldOf(own, alias)), TaskIdOf(alias))
    || (b.Some? && Differ(b.value.taskId, MergedTaskId(c, own, alias)))
  }

  function PrOf(l: Option<Lane>): Option<int> { if l.Some? then l.value.pr else None }

  function ObservedOf(l: Option<Lane>): Option<PrState> { if l.Some? then l.value.observed else None }

  function MergedPr(c: Candidate, own: Option<Lane>, alias: Option<Lane>, w: World): Option<int> {
    if Withheld(c, own, alias, w) && c.pr.None? then OrNumber(PrOf(OldOf(own, alias)), PrOf(alias)) else c.pr
  }

  function MergedObserved(c: Candidate, own: Option<Lane>, alias: Option<Lane>, w: World): Option<PrState> {
    if Withheld(c, own, alias, w) && c.observed.None?
    then OrRecord(ObservedOf(OldOf(own, alias)), ObservedOf(alias)) else c.observed
  }

  function MergedFinish(c: Candidate, own: Option<Lane>, alias: Option<Lane>): Option<real> {
    var was := OldOf(own, alias);
    if Preserves(c, StateOf(was)) && was.value.finishability.Some? then was.value.finishability
    else Some(c.finishability)
  }

  function WithPriority(l: Lane, w: World): Lane {
    if l.fingerprint in w.priorities then l.(high := w.priorities[l.fingerprint]) else l
  }

  /** `apply_canonical_task_state`: the registry's verdict overrides the lane. */
  function WithTaskState(l: Lane, w: World): Lane {
    if l.taskId.None? || !IsCanonicalTaskId(l.taskId.value) || l.taskId.value !in w.taskStates then l
    else match w.taskStates[l.taskId.value]
         case TaskVerified => l.(state := Some(Verified))
         case TaskEnded => l.(state := Some(Obsolete))
         case TaskOpen => l
  }

  function MergeOne(c: Candidate, own: Option<Lane>, alias: Option<Lane>, w: World): Lane {
    var conflict := BindingConflict(c, own, alias);
    var state := if conflict then Blocked else Unfinished(ObservedState(c, own, alias, w), c.merged);
    var was := OldOf(own, alias);
    var lane := Lane(Some(FingerprintOf(c)), Some(state), c.repo, c.repoName, c.branch,
                     MergedPr(c, own, alias, w), MergedObserved(c, own, alias, w),
                     MergedTaskId(c, own, alias), if conflict then None else MergedBinding(own, alias),
                     MergedFinish(c, own, alias), was.Some? && was.value.high);
    WithTaskState(WithPriority(lane, w), w)
  }

  /** An earlier lane whose source vanished. */
  function Retain(l: Lane, w: World): Lane {
    var done := l.state.Some? && (l.state.value.Closed? || l.state.value.Merged? || l.state.value.Verified? || l.state.value.Obsolete?);
    WithTaskState(WithPriority(if done then l else l.(state := Some(Blocked)), w), w)
  }

  /* ---- the whole merge ---- */

  /** The dictionary of earlier lanes: a later lane replaces one with the same fingerprint. */
  function Lookup(lanes: seq<Lane>, fp: Fingerprint): (r: Option<Lane>)
    ensures r.Some? ==> r.value in lanes && r.value.fingerprint == Some(fp)
    ensures r.None? ==> forall l :: l in lanes ==> l.fingerprint != Some(fp)
  {
    if lanes == [] then None
    else if lanes[|lanes| - 1].fingerprint == Some(fp) then Some(lanes[|lanes| - 1])
    else Lookup(lanes[..|lanes| - 1], fp)
  }

  function LookupAlias(lanes: seq<Lane>, c: Candidate): Option<Lane> {
    if AliasOf(c).Some? then Lookup(lanes, AliasOf(c).value) else None
  }

  function MergeInto(c: Candidate, lanes: seq<Lane>, w: World): Lane {
    MergeOne(c, Lookup(lanes, FingerprintOf(c)), LookupAlias(lanes, c), w)
  }

  function Keys(c: Candidate): set<Fingerprint> {
    {FingerprintOf(c)} + if AliasOf(c).Some? then {AliasOf(c).value} else {}
  }

  /** The fingerprints and aliases of the candidates: what the merge absorbs. */
  function Absorbed(cs: seq<Candidate>): set<Fingerprint> {
    if cs == [] then {} else Absorbed(cs[..|cs| - 1]) + Keys(cs[|cs| - 1])
  }

  function Fresh(cs: seq<Candidate>, lanes: seq<Lane>, w: World): seq<Lane> {
    seq(|cs|, i requires 0 <= i < |cs| => MergeInto(cs[i], lanes, w))
  }

  function RetainAll(xs: seq<Lane>, w: World): seq<Lane> {
    seq(|xs|, i requires 0 <= i < |xs| => Retain(xs[i], w))
  }

  function Kept(cs: seq<Candidate>, lanes: seq<Lane>, w: World): seq<Lane> {
    RetainAll(Filter(lanes, Absorbed(cs)), w)
  }

  function MergeAll(cs: seq<Candidate>, lanes: seq<Lane>, w: World): seq<Lane> {
    Sort(Fresh(cs, lanes, w) + Kept(cs, lanes, w))
  }

  lemma {:induction false} AbsorbedMembers(cs: seq<Candidate>, fp: Fingerprint)
    ensures fp in Absorbed(cs) <==> exists i :: 0 <= i < |cs| && fp in Keys(cs[i])
  {
    if cs != [] {
      var n := |cs| - 1;
      AbsorbedMembers(cs[..n], fp);
      if fp in Absorbed(cs[..n]) {
        var i :| 0 <= i < n && fp in Keys(cs[..n][i]);
        assert fp in Keys(cs[i]);
      }
      if i :| 0 <= i < |cs| && fp in Keys(cs[i]) {
        if i < n { assert fp in Keys(cs[..n][i]); }
      }
    }
  }

  /* ---- the merge as the program runs it ---- */

  ghost predicate Indexes(byFingerprint: map<Fingerprint, Lane>, lanes: seq<Lane>) {
    forall fp :: Lookup(lanes, fp) == if fp in byFingerprint then Some(byFingerprint[fp]) else None
  }

  method IndexLanes(previous: seq<Lane>) returns (byFingerprint: map<Fingerprint, Lane>)
    ensures Indexes(byFingerprint, previous)
  {
    byFingerprint := map[];
    for i := 0 to |previous|
      invariant Indexes(byFingerprint, previous[..i])
    {
      var lane := previous[i];
      assert previous[..i + 1][..i] == previous[..i];
      if lane.fingerprint.Some? { byFingerprint := byFingerprint[lane.fingerprint.value := lane]; }
    }
    assert previous[..|previous|] == previous;
  }

  method MergeNext(c: Candidate, byFingerprint: map<Fingerprint, Lane>, w: World, ghost previous: seq<Lane>) returns (lane: Lane)
    requires Indexes(byFingerprint, previous)
    ensures lane == MergeInto(c, previous, w)
  {
    var fp := FingerprintOf(c);
    var own := if fp in byFingerprint then Some(byFingerprint[fp]) else None;
    var alias := None;
    if AliasOf(c).Some? && AliasOf(c).value in byFingerprint {
      alias := Some(byFingerprint[AliasOf(c).value]);
    }
    assert own == Lookup(previous, fp) && alias == LookupAlias(previous, c);
    lane := MergeOne(c, own, alias, w);
  }

  /** The first loop: one lane per candidate, and the `seen` set. */
  method MergeCandidates(cs: seq<Candidate>, byFingerprint: map<Fingerprint, Lane>, w: World, ghost previous: seq<Lane>)
    returns (list: seq<Lane>, seen: set<Fingerprint>)
    requires Indexes(byFingerprint, previous)
    ensures list == Fresh(cs, previous, w) && seen == Absorbed(cs)
  {
    list, seen := [], {};
    for i := 0 to |cs|
      invariant list == Fresh(cs, previous, w)[..i] && seen == Absorbed(cs[..i])
    {
      var lane := MergeNext(cs[i], byFingerprint, w, previous);
      assert lane == Fresh(cs, previous, w)[i];
      list := list + [lane];
      assert cs[..i + 1][..i] == cs[..i];
      seen := seen + Keys(cs[i]);
    }
    assert cs[..|cs|] == cs;
  }

  /** The second loop: earlier lanes that no candidate absorbed. */
  method RetainLanes(previous: seq<Lane>, seen: set<Fingerprint>, w: World) returns (list: seq<Lane>)
    ensures list == RetainAll(Filter(previous, seen), w)
  {
    list := [];
    for i := 0 to |previous|
      invariant list == RetainAll(Filter(previous[..i], seen), w)
    {
      assert previous[..i + 1] == previous[..i] + [previous[i]];
      FilterConcat(previous[..i], [previous[i]], seen);
      if Unseen(previous[i], seen) { list := list + [Retain(previous[i], w)]; }
    }
    assert previous[..|previous|] == previous;
  }

  method MergeLanes(cs: seq<Candidate>, previous: seq<Lane>, w: World) returns (lanes: seq<Lane>)
    ensures lanes == MergeAll(cs, previous, w)
  {
    var byFingerprint := IndexLanes(previous);
    var list, seen := MergeCandidates(cs, byFingerprint, w, previous);
    var kept := RetainLanes(previous, seen, w);
    lanes := Sort(list + kept);
  }
}
