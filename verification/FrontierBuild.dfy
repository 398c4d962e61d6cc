/** `build_frontier_projection` of src/bureau/frontier.py from the facts about each task to the lanes
    and work balls. */
module FrontierBuild {
  import opened Prelude
  import opened Claims
  import opened Frontier
  import opened FrontierProjection

  /** What is read about one task: `verifying` tells of each active run whether it is being verified. */
  datatype Facts = Facts(task: Task, state: TaskState, structural: seq<Reason>, verifying: seq<bool>, reverify: bool)

  datatype Projection = Projection(cards: seq<Card>, promoted: nat, balls: seq<Task>)

  ghost predicate DistinctTasks(fs: seq<Facts>) {
    forall i, j :: 0 <= i < j < |fs| ==> fs[i].task.id != fs[j].task.id
  }

  /** Only stale tasks are candidates for reverification. */
  predicate ReverifiesStale(f: Facts) { f.reverify ==> f.state.Stale? }

  /** The task passes the resource filter. */
  predicate Wanted(f: Facts, resource: Option<string>, rs: Resources) {
    resource.None? || exists c :: c in f.task.claims && Overlaps(c.resource, resource.value, rs)
  }

  const RUNTIME_BLOCKED := OtherReason("runtime execution blocked")

  /** Without a filter every task is wanted; with one, those with a claim on the resource or on one
      above or below it. */
  lemma WantedIff(f: Facts, resource: Option<string>, rs: Resources)
    ensures Wanted(f, resource, rs) <==> resource.None? || exists c :: c in f.task.claims && Related(c.resource, resource.value, rs)
  {
    if resource.Some? {
      forall c | c in f.task.claims ensures Overlaps(c.resource, resource.value, rs) <==> Related(c.resource, resource.value, rs) {
        OverlapsIff(c.resource, resource.value, rs);
      }
    }
  }

  /** Parent steps lead from one resource to the other. */
  ghost predicate Related(a: string, b: string, rs: Resources) {
    (exists n: nat :: Leads(a, b, rs, n)) || (exists n: nat :: Leads(b, a, rs, n))
  }

  function CardOf(f: Facts, blocked: bool): Card {
    MakeCard(f.task, f.state, f.structural + if blocked then [RUNTIME_BLOCKED] else [], f.verifying, f.reverify, blocked)
  }

  function Cards(fs: seq<Facts>, resource: Option<string>, blocked: bool, rs: Resources): seq<Card> {
    if fs == [] then []
    else Cards(fs[..|fs| - 1], resource, blocked, rs) + if Wanted(fs[|fs| - 1], resource, rs) then [CardOf(fs[|fs| - 1], blocked)] else []
  }

  lemma {:induction false} CardsMembers(fs: seq<Facts>, resource: Option<string>, blocked: bool, rs: Resources, c: Card)
    ensures c in Cards(fs, resource, blocked, rs) <==> exists f :: f in fs && Wanted(f, resource, rs) && c == CardOf(f, blocked)
  {
    if fs != [] {
      var n := |fs| - 1;
      assert fs == fs[..n] + [fs[n]];
      CardsMembers(fs[..n], resource, blocked, rs, c);
    }
  }

  lemma {:induction false} CardsDistinct(fs: seq<Facts>, resource: Option<string>, blocked: bool, rs: Resources)
    requires DistinctTasks(fs)
    ensures DistinctCards(Cards(fs, resource, blocked, rs))
  {
    if fs != [] {
      var n := |fs| - 1;
      CardsDistinct(fs[..n], resource, blocked, rs);
      var front := Cards(fs[..n], resource, blocked, rs);
      forall k | 0 <= k < |front| ensures front[k].task.id != fs[n].task.id {
        CardsMembers(fs[..n], resource, blocked, rs, front[k]);
        var f :| f in fs[..n] && Wanted(f, resource, rs) && front[k] == CardOf(f, blocked);
      }
    }
  }

  /** Where a task starts: with active runs it is being closed out if one is being verified and in
      flight otherwise; a finished task is nowhere; a task that is ready or to be reverified and has no
      structural blocker is in its own lane; a planned task without another blocker waits in Later; and
      everything else is blocked. */
  lemma LaneIs(f: Facts, blocked: bool)
    ensures var lane := CardOf(f, blocked).lane;
      var ready := f.state.Ready? || (f.state.Stale? && f.reverify); var waits := f.state.Planned? || f.state.Inbox?;
      var own := if f.task.lane in {Some(Now), Some(Next), Some(Later)} then f.task.lane else Some(Later);
      && (lane == Some(CloseoutLane) <==> true in f.verifying)
      && (lane == Some(InFlight) <==> f.verifying != [] && true !in f.verifying)
      && (lane == None <==> f.verifying == [] && f.state.Terminal?)
      && (f.verifying == [] && ready && f.structural == [] && !blocked ==> lane == own)
      && (f.verifying == [] && waits && !blocked && (forall r :: r in f.structural ==> r == StateIs(f.state)) ==> lane == Some(Later))
      && (f.verifying == [] && !f.state.Terminal? && (blocked || (!ready && !waits)) ==> lane == Some(BlockedLane))
      && (f.verifying == [] && ready && f.structural != [] ==> lane == Some(BlockedLane))
      && (f.verifying == [] && waits && (exists r :: r in f.structural && r != StateIs(f.state)) ==> lane == Some(BlockedLane))
  {
    if blocked { assert RUNTIME_BLOCKED in f.structural + [RUNTIME_BLOCKED]; }
    assert f.structural + [] == f.structural;
  }

  /* ---- the whole projection ---- */

  /** Ready or to be reverified, and nothing holds the task back. */
  predicate Workable(f: Facts, blocked: bool) {
    (f.state.Ready? || f.reverify) && f.structural == [] && f.verifying == [] && !blocked
  }

  /** The card of a task: as its facts make it, or promoted from an eligible Next card. */
  ghost predicate Shows(c: Card, f: Facts, blocked: bool) {
    c == CardOf(f, blocked) || (InLane(CardOf(f, blocked), Next) && c == Promote(CardOf(f, blocked)))
  }

  ghost predicate Shown(cards: seq<Card>, f: Facts, blocked: bool) {
    CardOf(f, blocked) in cards || (InLane(CardOf(f, blocked), Next) && Promote(CardOf(f, blocked)) in cards)
  }

  /** Every wanted task has its card, */
  ghost predicate ShowsEach(fs: seq<Facts>, resource: Option<string>, blocked: bool, rs: Resources, cards: seq<Card>) {
    forall i :: 0 <= i < |fs| && Wanted(fs[i], resource, rs) ==> Shown(cards, fs[i], blocked)
  }

  /** and every card is that of a wanted task. */
  ghost predicate ShowsOnly(fs: seq<Facts>, resource: Option<string>, blocked: bool, rs: Resources, cards: seq<Card>) {
    forall k :: 0 <= k < |cards| ==> IsShown(fs, resource, blocked, rs, cards[k])
  }

  ghost predicate IsShown(fs: seq<Facts>, resource: Option<string>, blocked: bool, rs: Resources, c: Card) {
    exists i :: 0 <= i < |fs| && Wanted(fs[i], resource, rs) && Shows(c, fs[i], blocked)
  }

  /** The runnable tasks are exactly the wanted tasks that nothing holds back. */
  ghost predicate RunsWorkable(fs: seq<Facts>, resource: Option<string>, blocked: bool, rs: Resources, cards: seq<Card>) {
    forall t :: t in Runnable(cards) <==> IsWorkable(fs, resource, blocked, rs, t)
  }

  ghost predicate IsWorkable(fs: seq<Facts>, resource: Option<string>, blocked: bool, rs: Resources, t: Task) {
    exists i :: 0 <= i < |fs| && Wanted(fs[i], resource, rs) && Workable(fs[i], blocked) && fs[i].task == t
  }

  function FirstCards(fs: seq<Facts>, resource: Option<string>, blocked: bool, rs: Resources): seq<Card> {
    Sort(Cards(fs, resource, blocked, rs), ByPriority)
  }

  function RefilledCards(fs: seq<Facts>, resource: Option<string>, blocked: bool, policy: Policy, rs: Resources): seq<Card> {
    var first := FirstCards(fs, resource, blocked, rs);
    PromoteAll(first, Ids(Chosen(first, policy, rs)))
  }

  function Project(fs: seq<Facts>, resource: Option<string>, blocked: bool, policy: Policy, rs: Resources): Projection {
    var cards := Sort(RefilledCards(fs, resource, blocked, policy, rs), ByLane);
    Projection(cards, |Chosen(FirstCards(fs, resource, blocked, rs), policy, rs)|, Greedy(Runnable(cards), policy.workBallLimit, [], rs))
  }

  /** What the store promises: one task per id, and only stale tasks are reverified. */
  ghost predicate ValidFacts(fs: seq<Facts>) { DistinctTasks(fs) && forall f :: f in fs ==> ReverifiesStale(f) }

  /** The whole projection. An unknown resource filter is the only error. */
  method BuildProjection(fs: seq<Facts>, resource: Option<string>, blocked: bool, policy: Policy, rs: Resources)
    returns (r: Option<Projection>)
    requires ValidPolicy(policy) && ValidFacts(fs)
    ensures r == if resource.Some? && resource.value !in rs then None else Some(Project(fs, resource, blocked, policy, rs))
  {
    if resource.Some? && resource.value !in rs { return None; }
    var made := MakeCards(fs, resource, blocked, rs);
    var first := Sort(made, ByPriority);
    SortDistinct(made, ByPriority);
    var after, promoted := Refill(first, policy, rs);
    PromotesDistinct(first, after);
    var cards := Sort(after, ByLane);
    SortDistinct(after, ByLane);
    SortSorts(after, ByLane);
    var balls := WorkBalls(cards, policy, rs);
    r := Some(Projection(cards, promoted, balls));
  }

  method MakeCards(fs: seq<Facts>, resource: Option<string>, blocked: bool, rs: Resources) returns (cards: seq<Card>)
    requires DistinctTasks(fs)
    ensures cards == Cards(fs, resource, blocked, rs) && DistinctCards(cards)
  {
    cards := [];
    for i := 0 to |fs|
      invariant cards == Cards(fs[..i], resource, blocked, rs)
    {
      assert fs[..i + 1][..i] == fs[..i];
      if Wanted(fs[i], resource, rs) { cards := cards + [CardOf(fs[i], blocked)]; }
    }
    assert fs[..|fs|] == fs;
    CardsDistinct(fs, resource, blocked, rs);
  }

  lemma PromotesDistinct(cards: seq<Card>, after: seq<Card>)
    requires OnlyPromotes(cards, after) && DistinctCards(cards)
    ensures DistinctCards(after)
  {
    forall i, j | 0 <= i < j < |after| ensures after[i].task.id != after[j].task.id {
      assert cards[i].task.id != cards[j].task.id;
      assert after[i].task == cards[i].task && after[j].task == cards[j].task;
    }
  }

  /** The cards are in lane order, one for each wanted task and none else. */
  lemma ProjectionShows(fs: seq<Facts>, resource: Option<string>, blocked: bool, policy: Policy, rs: Resources)
    requires ValidPolicy(policy) && ValidFacts(fs)
    ensures var cards := Project(fs, resource, blocked, policy, rs).cards;
      && Sorted(cards, ByLane) && DistinctCards(cards)
      && ShowsEach(fs, resource, blocked, rs, cards) && ShowsOnly(fs, resource, blocked, rs, cards)
  {
    var first, after := FirstCards(fs, resource, blocked, rs), RefilledCards(fs, resource, blocked, policy, rs);
    StepsDistinct(fs, resource, blocked, policy, rs);
    SortSorts(after, ByLane);
    EachShown(fs, resource, blocked, rs, first, after);
    OnlyShown(fs, resource, blocked, rs, first, after);
  }

  /** A card is marked as coming from Next if and only if it was promoted. */
  lemma CardsTellPromotion(fs: seq<Facts>, resource: Option<string>, blocked: bool, policy: Policy, rs: Resources, c: Card) returns (f: Facts)
    requires ValidPolicy(policy) && ValidFacts(fs) && c in Project(fs, resource, blocked, policy, rs).cards
    ensures f in fs && Wanted(f, resource, rs) && c.task == f.task && c.eligible == CardOf(f, blocked).eligible
    ensures c.from in {None, Some(Next)} && (c.from.None? ==> c.lane == CardOf(f, blocked).lane)
    ensures c.from == Some(Next) ==> c.lane == Some(Now) && c.eligible && CardOf(f, blocked).lane == Some(Next)
    ensures c.lane != CardOf(f, blocked).lane ==> c.from == Some(Next)
  {
    ProjectionShows(fs, resource, blocked, policy, rs);
    f := ShownFor(fs, resource, blocked, rs, Project(fs, resource, blocked, policy, rs).cards, c);
    PromotionTold(c, f, blocked);
  }

  lemma ShownFor(fs: seq<Facts>, resource: Option<string>, blocked: bool, rs: Resources, cards: seq<Card>, c: Card) returns (f: Facts)
    requires ShowsOnly(fs, resource, blocked, rs, cards) && c in cards
    ensures f in fs && Wanted(f, resource, rs) && Shows(c, f, blocked)
  {
    var k :| 0 <= k < |cards| && cards[k] == c;
    assert IsShown(fs, resource, blocked, rs, cards[k]);
    var i :| 0 <= i < |fs| && Wanted(fs[i], resource, rs) && Shows(c, fs[i], blocked);
    f := fs[i];
  }

  lemma PromotionTold(c: Card, f: Facts, blocked: bool)
    requires Shows(c, f, blocked)
    ensures c.task == f.task && c.eligible == CardOf(f, blocked).eligible
    ensures c.from in {None, Some(Next)} && (c.from.None? ==> c.lane == CardOf(f, blocked).lane)
    ensures c.from == Some(Next) ==> c.lane == Some(Now) && c.eligible && CardOf(f, blocked).lane == Some(Next)
    ensures c.lane != CardOf(f, blocked).lane ==> c.from == Some(Next)
  {
  }

  lemma StepsDistinct(fs: seq<Facts>, resource: Option<string>, blocked: bool, policy: Policy, rs: Resources)
    requires ValidPolicy(policy) && ValidFacts(fs)
    ensures var first, after := FirstCards(fs, resource, blocked, rs), RefilledCards(fs, resource, blocked, policy, rs);
      && DistinctCards(Cards(fs, resource, blocked, rs)) && DistinctCards(first) && DistinctCards(after)
      && DistinctCards(Sort(after, ByLane)) && OnlyPromotes(first, after)
  {
    CardsDistinct(fs, resource, blocked, rs);
    SortDistinct(Cards(fs, resource, blocked, rs), ByPriority);
    RefillMeans(FirstCards(fs, resource, blocked, rs), policy, rs);
    PromotesDistinct(FirstCards(fs, resource, blocked, rs), RefilledCards(fs, resource, blocked, policy, rs));
    SortDistinct(RefilledCards(fs, resource, blocked, policy, rs), ByLane);
  }

  /** In terms of the eligible tasks the facts put in Now and Next: below the floor Now is refilled up
      to the target as far as policy and supply allow, otherwise it is left alone. */
  lemma ProjectionRefills(fs: seq<Facts>, resource: Option<string>, blocked: bool, policy: Policy, rs: Resources)
    requires ValidPolicy(policy) && ValidFacts(fs)
    ensures var p, made := Project(fs, resource, blocked, policy, rs), Cards(fs, resource, blocked, rs);
      RefillCounts(policy, |TasksIn(made, Now)|, |TasksIn(made, Next)|, p.promoted, |TasksIn(p.cards, Now)|, |TasksIn(p.cards, Next)|)
  {
    StepsDistinct(fs, resource, blocked, policy, rs);
    RefillMeans(FirstCards(fs, resource, blocked, rs), policy, rs);
    SortedCounts(Cards(fs, resource, blocked, rs), ByPriority);
    SortedCounts(RefilledCards(fs, resource, blocked, policy, rs), ByLane);
  }

  lemma SortedCounts(cards: seq<Card>, o: Order)
    requires DistinctCards(cards)
    ensures |TasksIn(Sort(cards, o), Now)| == |TasksIn(cards, Now)| && |TasksIn(Sort(cards, o), Next)| == |TasksIn(cards, Next)|
  {
    SortDistinct(cards, o);
    forall c ensures c in Sort(cards, o) <==> c in cards { SortMembers(cards, c, o); }
    SameCounts(Sort(cards, o), cards, Now);
    SameCounts(Sort(cards, o), cards, Next);
  }

  lemma EachShown(fs: seq<Facts>, resource: Option<string>, blocked: bool, rs: Resources, first: seq<Card>, after: seq<Card>)
    requires first == Sort(Cards(fs, resource, blocked, rs), ByPriority) && OnlyPromotes(first, after)
    ensures ShowsEach(fs, resource, blocked, rs, Sort(after, ByLane))
  {
    forall k | 0 <= k < |fs| && Wanted(fs[k], resource, rs) ensures Shown(Sort(after, ByLane), fs[k], blocked) {
      CardsMembers(fs, resource, blocked, rs, CardOf(fs[k], blocked));
      SortMembers(Cards(fs, resource, blocked, rs), CardOf(fs[k], blocked), ByPriority);
      OneShown(fs[k], blocked, first, after);
    }
  }

  lemma OneShown(f: Facts, blocked: bool, first: seq<Card>, after: seq<Card>)
    requires CardOf(f, blocked) in first && OnlyPromotes(first, after)
    ensures Shown(Sort(after, ByLane), f, blocked)
  {
    var i :| 0 <= i < |first| && first[i] == CardOf(f, blocked);
    SortMembers(after, after[i], ByLane);
  }

  lemma OnlyShown(fs: seq<Facts>, resource: Option<string>, blocked: bool, rs: Resources, first: seq<Card>, after: seq<Card>)
    requires first == Sort(Cards(fs, resource, blocked, rs), ByPriority) && OnlyPromotes(first, after)
    ensures ShowsOnly(fs, resource, blocked, rs, Sort(after, ByLane))
  {
    var cards := Sort(after, ByLane);
    forall k | 0 <= k < |cards| ensures IsShown(fs, resource, blocked, rs, cards[k]) {
      SortMembers(after, cards[k], ByLane);
      var i :| 0 <= i < |after| && after[i] == cards[k];
      SortMembers(Cards(fs, resource, blocked, rs), first[i], ByPriority);
      CardsMembers(fs, resource, blocked, rs, first[i]);
      var f :| f in fs && Wanted(f, resource, rs) && first[i] == CardOf(f, blocked);
      var j :| 0 <= j < |fs| && fs[j] == f;
      assert Shows(cards[k], fs[j], blocked);
    }
  }

  /** Promotion moves a card between executable lanes and does not change its eligibility. */
  lemma ShownRuns(c: Card, f: Facts, blocked: bool)
    requires Shows(c, f, blocked) && ReverifiesStale(f)
    ensures c.task == f.task && (c.eligible && Executable(c.lane) <==> Workable(f, blocked))
  {
  }

  lemma WorkableRuns(fs: seq<Facts>, resource: Option<string>, blocked: bool, rs: Resources, cards: seq<Card>, t: Task)
    requires ShowsEach(fs, resource, blocked, rs, cards) && IsWorkable(fs, resource, blocked, rs, t)
    requires forall f :: f in fs ==> ReverifiesStale(f)
    ensures IsRunnable(cards, t)
  {
    var i :| 0 <= i < |fs| && Wanted(fs[i], resource, rs) && Workable(fs[i], blocked) && fs[i].task == t;
    var made := CardOf(fs[i], blocked);
    var c := if made in cards then made else Promote(made);
    ShownRuns(c, fs[i], blocked);
    assert c in cards;
  }

  lemma RunsAreWorkable(fs: seq<Facts>, resource: Option<string>, blocked: bool, rs: Resources, cards: seq<Card>, t: Task)
    requires ShowsOnly(fs, resource, blocked, rs, cards) && IsRunnable(cards, t)
    requires forall f :: f in fs ==> ReverifiesStale(f)
    ensures IsWorkable(fs, resource, blocked, rs, t)
  {
    var c :| c in cards && c.eligible && Executable(c.lane) && c.task == t;
    var k :| 0 <= k < |cards| && cards[k] == c;
    assert IsShown(fs, resource, blocked, rs, c);
    var i :| 0 <= i < |fs| && Wanted(fs[i], resource, rs) && Shows(c, fs[i], blocked);
    ShownRuns(c, fs[i], blocked);
  }

  /** The runnable tasks are exactly the wanted tasks that nothing holds back, and the balls are
      chosen among them in card order. */
  lemma ProjectionRuns(fs: seq<Facts>, resource: Option<string>, blocked: bool, policy: Policy, rs: Resources)
    requires ValidPolicy(policy) && ValidFacts(fs)
    ensures var p := Project(fs, resource, blocked, policy, rs);
      && RunsWorkable(fs, resource, blocked, rs, p.cards)
      && AreBalls(p.cards, policy.workBallLimit, rs, p.balls)
  {
    var cards := Project(fs, resource, blocked, policy, rs).cards;
    ProjectionShows(fs, resource, blocked, policy, rs);
    BallsMean(cards, policy.workBallLimit, rs);
    forall t ensures t in Runnable(cards) <==> IsWorkable(fs, resource, blocked, rs, t) {
      RunsIff(fs, resource, blocked, rs, cards, t);
    }
  }

  lemma RunsIff(fs: seq<Facts>, resource: Option<string>, blocked: bool, rs: Resources, cards: seq<Card>, t: Task)
    requires ShowsEach(fs, resource, blocked, rs, cards) && ShowsOnly(fs, resource, blocked, rs, cards)
    requires forall f :: f in fs ==> ReverifiesStale(f)
    ensures t in Runnable(cards) <==> IsWorkable(fs, resource, blocked, rs, t)
  {
    RunnableAre(cards, t);
    if IsWorkable(fs, resource, blocked, rs, t) { WorkableRuns(fs, resource, blocked, rs, cards, t); }
    if IsRunnable(cards, t) { RunsAreWorkable(fs, resource, blocked, rs, cards, t); }
  }

  /** While the runtime is blocked there is no ball and nothing is promoted. */
  lemma BlockedRuntimeStops(fs: seq<Facts>, resource: Option<string>, policy: Policy, rs: Resources)
    requires ValidPolicy(policy) && ValidFacts(fs)
    ensures var p := Project(fs, resource, true, policy, rs); p.balls == [] && p.promoted == 0
  {
    NoneWorkable(fs, resource, policy, rs);
    ProjectionRefills(fs, resource, true, policy, rs);
    var made := Cards(fs, resource, true, rs);
    if TasksIn(made, Next) != [] {
      var t := TasksIn(made, Next)[0];
      TasksInMembers(made, Next, t);
      var i :| 0 <= i < |made| && InLane(made[i], Next) && made[i].task == t;
      CardsMembers(fs, resource, true, rs, made[i]);
    }
  }

  lemma BallWorkable(fs: seq<Facts>, resource: Option<string>, blocked: bool, policy: Policy, rs: Resources, t: Task)
    requires ValidPolicy(policy) && ValidFacts(fs) && t in Project(fs, resource, blocked, policy, rs).balls
    ensures IsWorkable(fs, resource, blocked, rs, t)
  {
    ProjectionRuns(fs, resource, blocked, policy, rs);
    assert t in Runnable(Project(fs, resource, blocked, policy, rs).cards);
  }

  lemma NoneWorkable(fs: seq<Facts>, resource: Option<string>, policy: Policy, rs: Resources)
    requires ValidPolicy(policy) && ValidFacts(fs)
    ensures Project(fs, resource, true, policy, rs).balls == []
  {
    var balls := Project(fs, resource, true, policy, rs).balls;
    if balls != [] { BallWorkable(fs, resource, true, policy, rs, balls[0]); }
  }

  /** A finished task without active runs is in no lane and is no ball. */
  lemma FinishedExcluded(fs: seq<Facts>, resource: Option<string>, blocked: bool, policy: Policy, rs: Resources, f: Facts, c: Card)
    requires ValidPolicy(policy) && ValidFacts(fs) && f in fs && f.state.Terminal? && f.verifying == []
    requires c in Project(fs, resource, blocked, policy, rs).cards && c.task.id == f.task.id
    ensures c.lane.None? && c.task !in Project(fs, resource, blocked, policy, rs).balls
  {
    var p := Project(fs, resource, blocked, policy, rs);
    ProjectionShows(fs, resource, blocked, policy, rs);
    FinishedNoLane(fs, resource, blocked, rs, p.cards, f, c);
    FinishedNotWorkable(fs, resource, blocked, rs, f, c.task);
    if c.task in p.balls { BallWorkable(fs, resource, blocked, policy, rs, c.task); }
  }

  lemma FinishedNoLane(fs: seq<Facts>, resource: Option<string>, blocked: bool, rs: Resources, cards: seq<Card>, f: Facts, c: Card)
    requires DistinctTasks(fs) && f in fs && ReverifiesStale(f) && f.state.Terminal? && f.verifying == []
    requires ShowsOnly(fs, resource, blocked, rs, cards) && c in cards && c.task.id == f.task.id
    ensures c.lane.None?
  {
    var k :| 0 <= k < |cards| && cards[k] == c;
    var i :| 0 <= i < |fs| && Wanted(fs[i], resource, rs) && Shows(c, fs[i], blocked);
    assert fs[i] == f;
  }

  lemma FinishedNotWorkable(fs: seq<Facts>, resource: Option<string>, blocked: bool, rs: Resources, f: Facts, t: Task)
    requires DistinctTasks(fs) && f in fs && ReverifiesStale(f) && f.state.Terminal? && t.id == f.task.id
    ensures !IsWorkable(fs, resource, blocked, rs, t)
  {
    forall i | 0 <= i < |fs| && fs[i].task == t ensures !Workable(fs[i], blocked) { assert fs[i] == f; }
  }
}
