/** The operational frontier of src/bureau/frontier.py: initial lanes, the refill of Now from Next,
    and work balls that do not conflict with each other. */
module Frontier {
  import opened Prelude
  import opened Claims

  datatype Lane = Now | Next | Later | BlockedLane | InFlight | CloseoutLane

  datatype TaskState = Inbox | Planned | Ready | StateBlocked | Stale | Terminal | OtherState

  datatype Reason = StateIs(state: TaskState) | OtherReason(text: string)

  /** `lane` is the task's priority lane; None when it is not an executable one. */
  datatype Task = Task(id: string, lane: Option<Lane>, rank: int, claims: seq<Claim>)

  datatype Card = Card(task: Task, eligible: bool, lane: Option<Lane>, from: Option<Lane>)

  datatype Policy = Policy(nowFloor: int, nowTarget: int, maxNowPromotions: int, workBallLimit: int)

  /** The constructor's checks. */
  predicate ValidPolicy(p: Policy) {
    p.nowFloor >= 1 && p.nowTarget >= p.nowFloor && p.maxNowPromotions >= 1 && p.workBallLimit >= 1
  }

  /* ---- initial lane ---- */

  function OwnLane(t: Task): Lane {
    if t.lane == Some(Now) || t.lane == Some(Next) || t.lane == Some(Later) then t.lane.value else Later
  }

  predicate Executable(l: Option<Lane>) { l == Some(Now) || l == Some(Next) || l == Some(Later) }

  /** `_initial_lane`; `verifying` tells of each active run whether it is being verified. */
  function InitialLane(t: Task, state: TaskState, structural: seq<Reason>, verifying: seq<bool>, reverify: bool): Option<Lane> {
    if verifying != [] then Some(if true in verifying then CloseoutLane else InFlight)
    else if state.Terminal? then None
    else if state.Stale? && reverify then Some(if structural != [] then BlockedLane else OwnLane(t))
    else if state.StateBlocked? || state.Stale? then Some(BlockedLane)
    else if state.Ready? then Some(if structural != [] then BlockedLane else OwnLane(t))
    else if state.Planned? || state.Inbox? then
      Some(if exists r :: r in structural && r != StateIs(state) then BlockedLane else Later)
    else Some(BlockedLane)
  }

  function MakeCard(t: Task, state: TaskState, structural: seq<Reason>, verifying: seq<bool>, reverify: bool, runtimeBlocked: bool): Card {
    Card(t, (state.Ready? || reverify) && structural == [] && verifying == [] && !runtimeBlocked,
         InitialLane(t, state, structural, verifying, reverify), None)
  }

  /* ---- greedy selection ---- */

  function Held(ts: seq<Task>): seq<Claim> {
    if ts == [] then [] else Held(ts[..|ts| - 1]) + ts[|ts| - 1].claims
  }

  /** `_conflicts_with_selected`. */
  predicate Conflicts(t: Task, selected: seq<Task>, rs: Resources) {
    exists c :: c in t.claims && ClaimConflicts(c, Held(selected), rs)
  }

  lemma {:induction false} HeldConcat(a: seq<Task>, b: seq<Task>)
    ensures Held(a + b) == Held(a) + Held(b)
  {
    if b == [] {
      assert a + b == a;
    } else {
      var n := |b| - 1;
      assert (a + b)[..|a + b| - 1] == a + b[..n];
      HeldConcat(a, b[..n]);
    }
  }

  lemma ConflictsMonotone(t: Task, selected: seq<Task>, more: seq<Task>, rs: Resources)
    requires Conflicts(t, selected, rs)
    ensures Conflicts(t, selected + more, rs)
  {
    var c :| c in t.claims && ClaimConflicts(c, Held(selected), rs);
    HeldConcat(selected, more);
    ConflictMonotone(c, Held(selected), Held(more), rs);
  }

  /** Each chosen task is free of conflicts with the seed and all tasks chosen before it. */
  ghost predicate Free(seed: seq<Task>, chosen: seq<Task>, rs: Resources) {
    forall i :: 0 <= i < |chosen| ==> !Conflicts(chosen[i], seed + chosen[..i], rs)
  }

  ghost predicate DistinctIds(ts: seq<Task>) {
    forall i, j :: 0 <= i < j < |ts| ==> ts[i].id != ts[j].id
  }

  /** The tasks taken in turn: each that the limit leaves room for and that does not conflict with
      the seed and those taken before it. */
  function Greedy(cs: seq<Task>, limit: int, seed: seq<Task>, rs: Resources): seq<Task> {
    if cs == [] then []
    else
      var taken := Greedy(cs[..|cs| - 1], limit, seed, rs);
      if |taken| < limit && !Conflicts(cs[|cs| - 1], seed + taken, rs) then taken + [cs[|cs| - 1]] else taken
  }

  /** When the turn of candidate `j` comes, there is room and nothing conflicts. */
  predicate Takes(cs: seq<Task>, j: nat, limit: int, seed: seq<Task>, rs: Resources)
    requires j < |cs|
  {
    var taken := Greedy(cs[..j], limit, seed, rs);
    |taken| < limit && !Conflicts(cs[j], seed + taken, rs)
  }

  ghost predicate Before(ts: seq<Task>, t: Task, u: Task) {
    exists i, j :: 0 <= i < j < |ts| && ts[i] == t && ts[j] == u
  }

  /** The chosen tasks are candidates, in the candidates' order. */
  ghost predicate InOrder(chosen: seq<Task>, cs: seq<Task>) {
    && (forall t :: t in chosen ==> t in cs)
    && forall i, j :: 0 <= i < j < |chosen| ==> Before(cs, chosen[i], chosen[j])
  }

  lemma {:induction false} GreedyPrefix(cs: seq<Task>, j: nat, limit: int, seed: seq<Task>, rs: Resources)
    requires j <= |cs|
    ensures Greedy(cs[..j], limit, seed, rs) <= Greedy(cs, limit, seed, rs)
  {
    if j == |cs| {
      assert cs[..j] == cs;
    } else {
      assert cs[..|cs| - 1][..j] == cs[..j];
      GreedyPrefix(cs[..|cs| - 1], j, limit, seed, rs);
    }
  }

  lemma {:induction false} GreedyOrder(cs: seq<Task>, limit: int, seed: seq<Task>, rs: Resources)
    ensures InOrder(Greedy(cs, limit, seed, rs), cs)
  {
    if cs != [] {
      var n := |cs| - 1;
      GreedyOrder(cs[..n], limit, seed, rs);
      OrderGrows(Greedy(cs[..n], limit, seed, rs), cs);
    }
  }

  lemma OrderGrows(taken: seq<Task>, cs: seq<Task>)
    requires cs != [] && InOrder(taken, cs[..|cs| - 1])
    ensures InOrder(taken, cs) && InOrder(taken + [cs[|cs| - 1]], cs)
  {
    var n, more := |cs| - 1, taken + [cs[|cs| - 1]];
    forall i, j | 0 <= i < j < |more| ensures Before(cs, more[i], more[j]) {
      if j < |taken| {
        assert Before(cs[..n], taken[i], taken[j]);
        var a, b :| 0 <= a < b < n && cs[..n][a] == taken[i] && cs[..n][b] == taken[j];
        assert cs[a] == taken[i] && cs[b] == taken[j];
      } else {
        assert taken[i] in taken;
        var a :| 0 <= a < n && cs[..n][a] == taken[i];
        assert cs[a] == taken[i] && cs[n] == more[j];
      }
    }
    forall i, j | 0 <= i < j < |taken| ensures Before(cs, taken[i], taken[j]) {
      assert more[i] == taken[i] && more[j] == taken[j];
    }
  }

  lemma {:induction false} GreedyFree(cs: seq<Task>, limit: int, seed: seq<Task>, rs: Resources)
    ensures Free(seed, Greedy(cs, limit, seed, rs), rs) && |Greedy(cs, limit, seed, rs)| <= Max(0, limit)
  {
    if cs != [] {
      var n := |cs| - 1;
      GreedyFree(cs[..n], limit, seed, rs);
      var taken := Greedy(cs[..n], limit, seed, rs);
      if !Conflicts(cs[n], seed + taken, rs) { FreeGrows(seed, taken, cs[n], rs); }
    }
  }

  lemma OrderDistinct(chosen: seq<Task>, cs: seq<Task>)
    requires DistinctIds(cs) && InOrder(chosen, cs)
    ensures DistinctIds(chosen)
  {
    forall i, j | 0 <= i < j < |chosen| ensures chosen[i].id != chosen[j].id {
      assert Before(cs, chosen[i], chosen[j]);
    }
  }

  /** A candidate is left out if and only if the limit was already reached when its turn came, or it
      conflicts with those chosen before it. */
  lemma {:induction false} GreedyAt(cs: seq<Task>, j: nat, limit: int, seed: seq<Task>, rs: Resources)
    requires DistinctIds(cs) && j < |cs|
    ensures cs[j] in Greedy(cs, limit, seed, rs) <==> Takes(cs, j, limit, seed, rs)
  {
    var n := |cs| - 1;
    if j < n {
      assert cs[..n][..j] == cs[..j];
      GreedyAt(cs[..n], j, limit, seed, rs);
    } else {
      GreedyOrder(cs[..n], limit, seed, rs);
    }
  }

  /** Every candidate is chosen or conflicts with the seed and the chosen tasks. */
  ghost predicate Exhausted(candidates: seq<Task>, seed: seq<Task>, chosen: seq<Task>, rs: Resources) {
    forall t :: t in candidates ==> t in chosen || Conflicts(t, seed + chosen, rs)
  }

  /** Below the limit the choice is maximal. */
  lemma GreedyMaximal(cs: seq<Task>, limit: int, seed: seq<Task>, rs: Resources)
    requires DistinctIds(cs) && |Greedy(cs, limit, seed, rs)| < limit
    ensures Exhausted(cs, seed, Greedy(cs, limit, seed, rs), rs)
  {
    var chosen := Greedy(cs, limit, seed, rs);
    forall j | 0 <= j < |cs| ensures cs[j] in chosen || Conflicts(cs[j], seed + chosen, rs) {
      GreedyAt(cs, j, limit, seed, rs);
      GreedyPrefix(cs, j, limit, seed, rs);
      var taken := Greedy(cs[..j], limit, seed, rs);
      assert seed + chosen == (seed + taken) + chosen[|taken|..];
      if Conflicts(cs[j], seed + taken, rs) { ConflictsMonotone(cs[j], seed + taken, chosen[|taken|..], rs); }
    }
  }

  /** The first pass: choose while nothing conflicts. */
  method ChooseFree(candidates: seq<Task>, limit: int, seed: seq<Task>, rs: Resources) returns (chosen: seq<Task>)
    ensures chosen == Greedy(candidates, limit, seed, rs)
    ensures |chosen| <= Max(0, limit) && Free(seed, chosen, rs) && InOrder(chosen, candidates)
    ensures DistinctIds(candidates) ==>
      forall j :: 0 <= j < |candidates| ==> (candidates[j] in chosen <==> Takes(candidates, j, limit, seed, rs))
    ensures DistinctIds(candidates) && |chosen| < limit ==> Exhausted(candidates, seed, chosen, rs)
  {
    chosen := [];
    var selected := seed;
    var i := 0;
    while i < |candidates|
      invariant i <= |candidates| && selected == seed + chosen && chosen == Greedy(candidates[..i], limit, seed, rs)
    {
      if |chosen| >= limit { break; }
      var task := candidates[i];
      assert candidates[..i + 1][..i] == candidates[..i];
      if !Conflicts(task, selected, rs) {
        chosen := chosen + [task];
        selected := selected + [task];
      }
      i := i + 1;
    }
    Rest(candidates, i, limit, seed, rs);
    GreedyFree(candidates, limit, seed, rs);
    GreedyOrder(candidates, limit, seed, rs);
    if DistinctIds(candidates) {
      forall j | 0 <= j < |candidates| ensures candidates[j] in chosen <==> Takes(candidates, j, limit, seed, rs) {
        GreedyAt(candidates, j, limit, seed, rs);
      }
      if |chosen| < limit { GreedyMaximal(candidates, limit, seed, rs); }
    }
  }

  /** Nothing is taken once the limit is reached. */
  lemma {:induction false} Rest(cs: seq<Task>, i: nat, limit: int, seed: seq<Task>, rs: Resources)
    requires i <= |cs| && (i < |cs| ==> |Greedy(cs[..i], limit, seed, rs)| >= limit)
    ensures Greedy(cs, limit, seed, rs) == Greedy(cs[..i], limit, seed, rs)
  {
    if i == |cs| {
      assert cs[..i] == cs;
    } else {
      assert cs[..|cs| - 1][..i] == cs[..i];
      Rest(cs[..|cs| - 1], i, limit, seed, rs);
    }
  }

  lemma FreeGrows(seed: seq<Task>, chosen: seq<Task>, t: Task, rs: Resources)
    requires Free(seed, chosen, rs) && !Conflicts(t, seed + chosen, rs)
    ensures Free(seed, chosen + [t], rs)
  {
    var more := chosen + [t];
    forall i | 0 <= i < |more| ensures !Conflicts(more[i], seed + more[..i], rs) {
      assert more[..i] == chosen[..i];
      if i == |chosen| { assert chosen[..i] == chosen; }
    }
  }

  function Ids(ts: seq<Task>): set<string> { set t | t in ts :: t.id }

  lemma {:induction false} IdsSize(ts: seq<Task>)
    requires DistinctIds(ts)
    ensures |Ids(ts)| == |ts|
  {
    if ts != [] {
      var n := |ts| - 1;
      IdsSize(ts[..n]);
      assert Ids(ts) == Ids(ts[..n]) + {ts[n].id};
      assert ts[n].id !in Ids(ts[..n]);
    }
  }

  /** The second pass: the candidates not yet chosen, in turn, while the limit leaves room. */
  function Fill(cs: seq<Task>, limit: int, first: seq<Task>): seq<Task> {
    if cs == [] then first
    else
      var chosen := Fill(cs[..|cs| - 1], limit, first);
      if |chosen| < limit && cs[|cs| - 1].id !in Ids(chosen) then chosen + [cs[|cs| - 1]] else chosen
  }

  function Diverse(cs: seq<Task>, limit: int, seed: seq<Task>, rs: Resources): seq<Task> {
    Fill(cs, limit, Greedy(cs, limit, seed, rs))
  }

  /** Chosen tasks come from `all` and have distinct ids; the first pass's choice stays in front. */
  ghost predicate Picks(chosen: seq<Task>, first: seq<Task>, all: seq<Task>) {
    DistinctIds(chosen) && first <= chosen && forall t :: t in chosen ==> t in all
  }

  lemma {:induction false} FillPicks(cs: seq<Task>, limit: int, first: seq<Task>, all: seq<Task>)
    requires Picks(first, first, all) && forall t :: t in cs ==> t in all
    ensures Picks(Fill(cs, limit, first), first, all) && |Fill(cs, limit, first)| <= Max(|first|, limit)
  {
    if cs != [] {
      var n := |cs| - 1;
      FillPicks(cs[..n], limit, first, all);
      var chosen := Fill(cs[..n], limit, first);
      forall k | 0 <= k < |chosen| && cs[n].id !in Ids(chosen) ensures chosen[k].id != cs[n].id {
        assert chosen[k] in chosen;
      }
    }
  }

  /** With room left at the end, every candidate was chosen. */
  lemma {:induction false} FillsAll(cs: seq<Task>, limit: int, first: seq<Task>)
    requires |Fill(cs, limit, first)| < limit
    ensures forall j :: 0 <= j < |cs| ==> cs[j].id in Ids(Fill(cs, limit, first))
  {
    if cs != [] {
      var n := |cs| - 1;
      FillsAll(cs[..n], limit, first);
      var before, after := Fill(cs[..n], limit, first), Fill(cs, limit, first);
      assert forall t :: t in before ==> t in after;
      forall j | 0 <= j < |cs| ensures cs[j].id in Ids(after) {
        if j < n { assert cs[..n][j].id in Ids(before); } else { assert after[|after| - 1] in after; }
      }
    }
  }

  /** A candidate is left out if and only if the first pass left it out and the second had reached
      the limit when its turn came. */
  lemma {:induction false} FillAt(cs: seq<Task>, j: nat, limit: int, first: seq<Task>, all: seq<Task>)
    requires DistinctIds(all) && Picks(first, first, all) && cs <= all && j < |cs|
    ensures cs[j] in Fill(cs, limit, first) <==> cs[j] in first || |Fill(cs[..j], limit, first)| < limit
  {
    var n := |cs| - 1;
    assert cs[..n] <= all;
    assert forall k :: 0 <= k < |cs| ==> cs[k] == all[k];
    FillPicks(cs[..n], limit, first, all);
    if j < n {
      assert cs[..n][..j] == cs[..j];
      FillAt(cs[..n], j, limit, first, all);
    } else {
      LastAt(cs, limit, first, all);
    }
  }

  lemma LastAt(cs: seq<Task>, limit: int, first: seq<Task>, all: seq<Task>)
    requires DistinctIds(all) && Picks(first, first, all) && cs <= all && cs != []
    ensures cs[|cs| - 1] in Fill(cs, limit, first) <==> cs[|cs| - 1] in first || |Fill(cs[..|cs| - 1], limit, first)| < limit
  {
    var n := |cs| - 1;
    assert cs[n] == all[n] && forall k :: 0 <= k < n ==> cs[..n][k] == all[k];
    FillPicks(cs[..n], limit, first, all);
    var chosen := Fill(cs[..n], limit, first);
    if cs[n] in first { assert cs[n] in chosen; }
    IdInChosen(chosen, all, cs[n]);
    if cs[n] in chosen { NotAddedBefore(cs, limit, first, all); }
  }

  lemma IdInChosen(chosen: seq<Task>, all: seq<Task>, t: Task)
    requires DistinctIds(all) && t in all && forall u :: u in chosen ==> u in all
    ensures t.id in Ids(chosen) <==> t in chosen
  {
    if t.id in Ids(chosen) {
      var u :| u in chosen && u.id == t.id;
      assert u == t;
    }
  }

  lemma NotAddedBefore(cs: seq<Task>, limit: int, first: seq<Task>, all: seq<Task>)
    requires DistinctIds(all) && cs <= all && cs != [] && cs[|cs| - 1] in Fill(cs[..|cs| - 1], limit, first)
    ensures cs[|cs| - 1] in first
  {
    var n := |cs| - 1;
    AddedEarlier(cs[..n], limit, first, cs[n]);
    assert forall k :: 0 <= k < n ==> cs[..n][k] == all[k] && all[k] != all[n];
  }

  lemma {:induction false} AddedEarlier(cs: seq<Task>, limit: int, first: seq<Task>, t: Task)
    requires t in Fill(cs, limit, first)
    ensures t in first || t in cs
  {
    if cs != [] && t in Fill(cs[..|cs| - 1], limit, first) { AddedEarlier(cs[..|cs| - 1], limit, first, t); }
  }

  /** The selection: as many candidates as the limit allows, the conflict-free ones first. */
  ghost predicate AreDiverse(cs: seq<Task>, limit: int, seed: seq<Task>, rs: Resources, chosen: seq<Task>) {
    var first := Greedy(cs, limit, seed, rs);
    && |chosen| == Min(Max(0, limit), |cs|)
    && Picks(chosen, first, cs) && Free(seed, first, rs)
    && (|first| < limit ==> Exhausted(cs, seed, first, rs))
    && forall j :: 0 <= j < |cs| ==>
         (cs[j] in chosen <==> Takes(cs, j, limit, seed, rs) || |Fill(cs[..j], limit, first)| < limit)
  }

  lemma DiverseMeans(cs: seq<Task>, limit: int, seed: seq<Task>, rs: Resources)
    requires DistinctIds(cs)
    ensures AreDiverse(cs, limit, seed, rs, Diverse(cs, limit, seed, rs))
  {
    var first := Greedy(cs, limit, seed, rs);
    if limit <= 0 {
      NoRoom(cs, limit, seed, rs);
    } else {
      GreedyFree(cs, limit, seed, rs);
      GreedyOrder(cs, limit, seed, rs);
      OrderDistinct(first, cs);
      FillPicks(cs, limit, first, cs);
      FillSize(cs, limit, first);
      if |first| < limit { GreedyMaximal(cs, limit, seed, rs); }
    }
    forall j | 0 <= j < |cs|
      ensures cs[j] in Diverse(cs, limit, seed, rs) <==> Takes(cs, j, limit, seed, rs) || |Fill(cs[..j], limit, first)| < limit
    {
      GreedyAt(cs, j, limit, seed, rs);
      FillAt(cs, j, limit, first, cs);
    }
  }

  /** The second pass's loop. */
  method FillUp(candidates: seq<Task>, limit: int, first: seq<Task>) returns (chosen: seq<Task>)
    ensures chosen == Fill(candidates, limit, first)
  {
    chosen := first;
    var i := 0;
    while i < |candidates| && |chosen| < limit
      invariant i <= |candidates| && chosen == Fill(candidates[..i], limit, first)
    {
      assert candidates[..i + 1][..i] == candidates[..i];
      if candidates[i].id !in Ids(chosen) { chosen := chosen + [candidates[i]]; }
      i := i + 1;
    }
    FillRest(candidates, i, limit, first);
  }

  /** `_diverse_selection` with `fill_conflicting`. */
  method DiverseFill(candidates: seq<Task>, limit: int, seed: seq<Task>, rs: Resources) returns (chosen: seq<Task>)
    requires DistinctIds(candidates)
    ensures chosen == Diverse(candidates, limit, seed, rs)
    ensures AreDiverse(candidates, limit, seed, rs, chosen)
  {
    DiverseMeans(candidates, limit, seed, rs);
    if limit <= 0 {
      NoRoom(candidates, limit, seed, rs);
      return [];
    }
    var first := ChooseFree(candidates, limit, seed, rs);
    chosen := FillUp(candidates, limit, first);
  }

  lemma {:induction false} NoRoom(cs: seq<Task>, limit: int, seed: seq<Task>, rs: Resources)
    requires limit <= 0
    ensures Greedy(cs, limit, seed, rs) == [] == Fill(cs, limit, [])
    ensures forall j :: 0 <= j < |cs| ==> !Takes(cs, j, limit, seed, rs)
  {
    if cs != [] { NoRoom(cs[..|cs| - 1], limit, seed, rs); }
  }

  lemma {:induction false} FillRest(cs: seq<Task>, i: nat, limit: int, first: seq<Task>)
    requires i <= |cs| && (i < |cs| ==> |Fill(cs[..i], limit, first)| >= limit)
    ensures Fill(cs, limit, first) == Fill(cs[..i], limit, first)
  {
    if i == |cs| {
      assert cs[..i] == cs;
    } else {
      assert cs[..|cs| - 1][..i] == cs[..i];
      FillRest(cs[..|cs| - 1], i, limit, first);
    }
  }

  lemma FillSize(cs: seq<Task>, limit: int, first: seq<Task>)
    requires DistinctIds(cs) && Picks(first, first, cs) && |first| <= limit
    ensures |Fill(cs, limit, first)| == Min(limit, |cs|)
  {
    var chosen := Fill(cs, limit, first);
    FillPicks(cs, limit, first, cs);
    IdsSize(chosen);
    IdsSize(cs);
    assert Ids(chosen) <= Ids(cs);
    SubsetSize(Ids(chosen), Ids(cs));
    if |chosen| < limit {
      FillsAll(cs, limit, first);
      assert Ids(cs) <= Ids(chosen);
      SubsetSize(Ids(cs), Ids(chosen));
    }
  }

  lemma {:induction false} SubsetSize(a: set<string>, b: set<string>)
    requires a <= b
    ensures |a| <= |b|
  {
    if a != {} {
      var x :| x in a;
      SubsetSize(a - {x}, b - {x});
    }
  }
}
