/** `build_frontier_projection` of src/bureau/frontier.py: the order of cards, the refill of Now, the
    lanes and the work balls. */
module FrontierProjection {
  import opened Prelude
  import opened Claims
  import opened Frontier
  import Lanes

  ghost predicate DistinctCards(cs: seq<Card>) {
    forall i, j :: 0 <= i < j < |cs| ==> cs[i].task.id != cs[j].task.id
  }

  predicate InLane(c: Card, l: Lane) { c.lane == Some(l) && c.eligible }

  /** The tasks of the eligible cards in a lane, in card order. */
  function TasksIn(cs: seq<Card>, l: Lane): seq<Task> {
    if cs == [] then []
    else TasksIn(cs[..|cs| - 1], l) + if InLane(cs[|cs| - 1], l) then [cs[|cs| - 1].task] else []
  }

  lemma {:induction false} TasksInMembers(cs: seq<Card>, l: Lane, t: Task)
    ensures t in TasksIn(cs, l) <==> exists i :: 0 <= i < |cs| && InLane(cs[i], l) && cs[i].task == t
  {
    if cs != [] {
      var n := |cs| - 1;
      TasksInMembers(cs[..n], l, t);
      if t in TasksIn(cs[..n], l) {
        var i :| 0 <= i < n && InLane(cs[..n][i], l) && cs[..n][i].task == t;
        assert InLane(cs[i], l);
      }
      if i :| 0 <= i < |cs| && InLane(cs[i], l) && cs[i].task == t {
        if i < n { assert InLane(cs[..n][i], l); }
      }
    }
  }

  lemma {:induction false} TasksInDistinct(cs: seq<Card>, l: Lane)
    requires DistinctCards(cs)
    ensures DistinctIds(TasksIn(cs, l))
  {
    if cs != [] {
      var n := |cs| - 1;
      TasksInDistinct(cs[..n], l);
      var front := TasksIn(cs[..n], l);
      forall k | 0 <= k < |front| ensures front[k].id != cs[n].task.id {
        TasksInMembers(cs[..n], l, front[k]);
        var i :| 0 <= i < n && InLane(cs[..n][i], l) && cs[..n][i].task == front[k];
        assert cs[i].task.id != cs[n].task.id;
      }
    }
  }

  /* ---- refill ---- */

  function Promote(c: Card): Card { c.(lane := Some(Now), from := Some(Next)) }

  function PromoteAll(cs: seq<Card>, ids: set<string>): seq<Card> {
    seq(|cs|, i requires 0 <= i < |cs| => if cs[i].task.id in ids then Promote(cs[i]) else cs[i])
  }

  function CountIn(cs: seq<Card>, ids: set<string>): nat {
    if cs == [] then 0 else CountIn(cs[..|cs| - 1], ids) + if cs[|cs| - 1].task.id in ids then 1 else 0
  }

  ghost predicate OnlyNext(cs: seq<Card>, ids: set<string>) {
    forall i :: 0 <= i < |cs| && cs[i].task.id in ids ==> InLane(cs[i], Next)
  }

  lemma {:induction false} PromotedCount(cs: seq<Card>, ids: set<string>)
    requires OnlyNext(cs, ids)
    ensures |TasksIn(PromoteAll(cs, ids), Now)| == |TasksIn(cs, Now)| + CountIn(cs, ids)
    ensures |TasksIn(PromoteAll(cs, ids), Next)| == |TasksIn(cs, Next)| - CountIn(cs, ids)
  {
    if cs != [] {
      var n := |cs| - 1;
      PromotedCount(cs[..n], ids);
      assert PromoteAll(cs, ids)[..n] == PromoteAll(cs[..n], ids);
      assert cs[n].task.id in ids ==> InLane(cs[n], Next);
    }
  }

  lemma {:induction false} CountAll(cs: seq<Card>, ids: set<string>)
    requires DistinctCards(cs) && forall id :: id in ids ==> exists i :: 0 <= i < |cs| && cs[i].task.id == id
    ensures CountIn(cs, ids) == |ids|
  {
    if cs == [] {
      assert ids == {};
    } else {
      var n := |cs| - 1;
      var rest := ids - {cs[n].task.id};
      forall id | id in rest ensures exists i :: 0 <= i < n && cs[..n][i].task.id == id {
        var i :| 0 <= i < |cs| && cs[i].task.id == id;
        assert cs[..n][i].task.id == id;
      }
      CountAll(cs[..n], rest);
      SameCount(cs[..n], ids, rest);
      if cs[n].task.id in ids { assert ids == rest + {cs[n].task.id}; } else { assert ids == rest; }
    }
  }

  lemma {:induction false} SameCount(cs: seq<Card>, ids: set<string>, rest: set<string>)
    requires forall i :: 0 <= i < |cs| ==> (cs[i].task.id in ids <==> cs[i].task.id in rest)
    ensures CountIn(cs, ids) == CountIn(cs, rest)
  {
    if cs != [] {
      var n := |cs| - 1;
      SameCount(cs[..n], ids, rest);
      assert cs[n].task.id in ids <==> cs[n].task.id in rest;
    }
  }

  /** The chosen Next tasks are promoted, exactly as many cards as tasks. */
  lemma PromotionCounts(cs: seq<Card>, chosen: seq<Task>)
    requires DistinctCards(cs) && DistinctIds(chosen) && forall t :: t in chosen ==> t in TasksIn(cs, Next)
    ensures OnlyNext(cs, Ids(chosen)) && CountIn(cs, Ids(chosen)) == |chosen|
  {
    forall id | id in Ids(chosen) ensures exists i :: 0 <= i < |cs| && cs[i].task.id == id && InLane(cs[i], Next) {
      var t :| t in chosen && t.id == id;
      TasksInMembers(cs, Next, t);
      var i :| 0 <= i < |cs| && InLane(cs[i], Next) && cs[i].task == t;
      assert cs[i].task.id == id;
    }
    IdsSize(chosen);
    CountAll(cs, Ids(chosen));
  }

  function PromotionLimit(cards: seq<Card>, policy: Policy): int {
    Min(Max(0, policy.nowTarget - |TasksIn(cards, Now)|), policy.maxNowPromotions)
  }

  /** The Next tasks that the refill takes. */
  function Chosen(cards: seq<Card>, policy: Policy, rs: Resources): seq<Task> {
    if |TasksIn(cards, Now)| < policy.nowFloor
    then Diverse(TasksIn(cards, Next), PromotionLimit(cards, policy), TasksIn(cards, Now), rs) else []
  }

  method PromoteCards(cards: seq<Card>, ids: set<string>) returns (after: seq<Card>)
    ensures after == PromoteAll(cards, ids)
  {
    after := [];
    for i := 0 to |cards|
      invariant after == PromoteAll(cards, ids)[..i]
    {
      after := after + [if cards[i].task.id in ids then Promote(cards[i]) else cards[i]];
    }
  }

  /** Each card is as before, or an eligible Next card that was promoted. */
  ghost predicate OnlyPromotes(cards: seq<Card>, after: seq<Card>) {
    |after| == |cards|
    && forall i :: 0 <= i < |cards| ==> after[i] == cards[i] || (InLane(cards[i], Next) && after[i] == Promote(cards[i]))
  }

  lemma PromotionMeans(cards: seq<Card>, chosen: seq<Task>)
    requires DistinctCards(cards) && DistinctIds(chosen) && forall t :: t in chosen ==> t in TasksIn(cards, Next)
    ensures var after := PromoteAll(cards, Ids(chosen));
      && OnlyPromotes(cards, after)
      && |TasksIn(after, Now)| == |TasksIn(cards, Now)| + |chosen|
      && |TasksIn(after, Next)| == |TasksIn(cards, Next)| - |chosen|
  {
    PromotionCounts(cards, chosen);
    PromotedCount(cards, Ids(chosen));
  }

  /** The refill. Below the floor, exactly min(target - base, max promotions, eligible Next) cards
      move from Next to Now, so that eligible Now does not pass the target; at or above the floor
      nothing moves. No card changes in any other way. */
  ghost predicate Refills(cards: seq<Card>, policy: Policy, after: seq<Card>, promoted: nat) {
    OnlyPromotes(cards, after)
    && RefillCounts(policy, |TasksIn(cards, Now)|, |TasksIn(cards, Next)|, promoted, |TasksIn(after, Now)|, |TasksIn(after, Next)|)
  }

  predicate RefillCounts(policy: Policy, base: nat, supply: nat, promoted: nat, inNow: nat, inNext: nat) {
    && promoted == (if base < policy.nowFloor then Min(Min(policy.nowTarget - base, policy.maxNowPromotions), supply) else 0)
    && inNow == base + promoted && inNext == supply - promoted
    && (base < policy.nowFloor ==> inNow <= policy.nowTarget)
  }

  lemma RefillMeans(cards: seq<Card>, policy: Policy, rs: Resources)
    requires ValidPolicy(policy) && DistinctCards(cards)
    ensures var chosen := Chosen(cards, policy, rs); Refills(cards, policy, PromoteAll(cards, Ids(chosen)), |chosen|)
  {
    ChosenNext(cards, policy, rs);
    PromotionMeans(cards, Chosen(cards, policy, rs));
  }

  lemma ChosenNext(cards: seq<Card>, policy: Policy, rs: Resources)
    requires ValidPolicy(policy) && DistinctCards(cards)
    ensures var chosen := Chosen(cards, policy, rs);
      && DistinctIds(chosen) && (forall t :: t in chosen ==> t in TasksIn(cards, Next))
      && |chosen| == if |TasksIn(cards, Now)| < policy.nowFloor then Min(PromotionLimit(cards, policy), |TasksIn(cards, Next)|) else 0
  {
    TasksInDistinct(cards, Next);
    DiverseMeans(TasksIn(cards, Next), PromotionLimit(cards, policy), TasksIn(cards, Now), rs);
  }

  /** The cards that move are those of the diverse selection against the tasks already in Now. */
  method Refill(cards: seq<Card>, policy: Policy, rs: Resources) returns (after: seq<Card>, promoted: nat)
    requires ValidPolicy(policy) && DistinctCards(cards)
    ensures after == PromoteAll(cards, Ids(Chosen(cards, policy, rs))) && promoted == |Chosen(cards, policy, rs)|
    ensures Refills(cards, policy, after, promoted)
  {
    var chosen: seq<Task> := [];
    if |TasksIn(cards, Now)| < policy.nowFloor {
      TasksInDistinct(cards, Next);
      chosen := DiverseFill(TasksIn(cards, Next), PromotionLimit(cards, policy), TasksIn(cards, Now), rs);
    }
    after := PromoteCards(cards, Ids(chosen));
    promoted := |chosen|;
    RefillMeans(cards, policy, rs);
  }

  /* ---- lanes ---- */

  function LaneCards(cs: seq<Card>, l: Lane): seq<Card> {
    if cs == [] then []
    else LaneCards(cs[..|cs| - 1], l) + if cs[|cs| - 1].lane == Some(l) then [cs[|cs| - 1]] else []
  }

  lemma {:induction false} LaneCardsMembers(cs: seq<Card>, l: Lane, c: Card)
    ensures c in LaneCards(cs, l) <==> c in cs && c.lane == Some(l)
  {
    if cs != [] {
      var n := |cs| - 1;
      LaneCardsMembers(cs[..n], l, c);
      assert cs == cs[..n] + [cs[n]];
    }
  }

  /** No task is in two lanes, and every card with a lane is in that lane. */
  lemma NoTaskInTwoLanes(cs: seq<Card>, a: Lane, b: Lane, c: Card, d: Card)
    requires DistinctCards(cs) && c in LaneCards(cs, a) && d in LaneCards(cs, b) && c.task.id == d.task.id
    ensures a == b && c == d
  {
    LaneCardsMembers(cs, a, c);
    LaneCardsMembers(cs, b, d);
  }

  /* ---- order ---- */

  /** Cards are made in the tasks' priority order and projected in lane order. */
  datatype Order = ByPriority | ByLane

  function Place(c: Card, o: Order): nat {
    match o
    case ByPriority => (match c.task.lane case Some(Now) => 0 case Some(Next) => 1 case Some(Later) => 2 case _ => 3)
    case ByLane => (match c.lane
                    case Some(Now) => 0 case Some(Next) => 1 case Some(Later) => 2
                    case Some(BlockedLane) => 3 case Some(InFlight) => 4 case Some(CloseoutLane) => 5 case None => 6)
  }

  /** Place, then rank, then id. */
  predicate Leq(a: Card, b: Card, o: Order) {
    var i, j := Place(a, o), Place(b, o);
    i < j || (i == j && (a.task.rank < b.task.rank || (a.task.rank == b.task.rank && Lanes.TextLeq(a.task.id, b.task.id))))
  }

  lemma LeqOrder(a: Card, b: Card, c: Card, o: Order)
    ensures Leq(a, b, o) || Leq(b, a, o)
    ensures Leq(a, b, o) && Leq(b, c, o) ==> Leq(a, c, o)
    ensures Leq(a, b, o) && Leq(b, a, o) ==> a.task.id == b.task.id
  {
    Lanes.TextOrder(a.task.id, b.task.id, c.task.id);
  }

  function Insert(x: Card, ys: seq<Card>, o: Order): (r: seq<Card>)
    ensures multiset(r) == multiset{x} + multiset(ys)
  {
    if ys == [] then [x]
    else if Leq(x, ys[0], o) then [x] + ys
    else assert ys == [ys[0]] + ys[1..]; [ys[0]] + Insert(x, ys[1..], o)
  }

  function Sort(xs: seq<Card>, o: Order): (r: seq<Card>)
    ensures multiset(r) == multiset(xs)
  {
    if xs == [] then [] else assert xs == [xs[0]] + xs[1..]; Insert(xs[0], Sort(xs[1..], o), o)
  }

  ghost predicate Sorted(xs: seq<Card>, o: Order) {
    forall i, j :: 0 <= i < j < |xs| ==> Leq(xs[i], xs[j], o)
  }

  lemma {:induction false} InsertSorts(x: Card, ys: seq<Card>, o: Order)
    requires Sorted(ys, o)
    ensures Sorted(Insert(x, ys, o), o)
  {
    if ys != [] {
      LeqOrder(x, ys[0], x, o);
      if Leq(x, ys[0], o) {
        forall j | 0 <= j < |ys| ensures Leq(x, ys[j], o) { LeqOrder(x, ys[0], ys[j], o); }
      } else {
        InsertSorts(x, ys[1..], o);
        var r := Insert(x, ys[1..], o);
        forall j | 0 <= j < |r| ensures Leq(ys[0], r[j], o) {
          assert r[j] in multiset(r);
          if r[j] != x { assert r[j] in ys[1..]; }
        }
      }
    }
  }

  lemma {:induction false} SortSorts(xs: seq<Card>, o: Order)
    ensures Sorted(Sort(xs, o), o)
  {
    if xs != [] {
      SortSorts(xs[1..], o);
      InsertSorts(xs[0], Sort(xs[1..], o), o);
    }
  }

  lemma SortMembers(xs: seq<Card>, c: Card, o: Order)
    ensures c in Sort(xs, o) <==> c in xs
  {
    assert c in multiset(Sort(xs, o)) <==> c in multiset(xs);
  }

  lemma {:induction false} SortDistinct(xs: seq<Card>, o: Order)
    requires DistinctCards(xs)
    ensures DistinctCards(Sort(xs, o))
  {
    if xs != [] {
      SortDistinct(xs[1..], o);
      forall c | c in Sort(xs[1..], o) ensures c.task.id != xs[0].task.id { SortMembers(xs[1..], c, o); }
      InsertDistinct(xs[0], Sort(xs[1..], o), o);
    }
  }

  lemma {:induction false} InsertDistinct(x: Card, ys: seq<Card>, o: Order)
    requires DistinctCards(ys) && forall c :: c in ys ==> c.task.id != x.task.id
    ensures DistinctCards(Insert(x, ys, o))
  {
    if ys != [] && !Leq(x, ys[0], o) {
      InsertDistinct(x, ys[1..], o);
      var r := Insert(x, ys[1..], o);
      forall j | 0 <= j < |r| ensures r[j].task.id != ys[0].task.id {
        assert r[j] in multiset(r);
        if r[j] != x { assert r[j] in ys[1..]; }
      }
    }
  }

  /** The same cards in any order have as many eligible ones in each lane. */
  lemma SameCounts(a: seq<Card>, b: seq<Card>, l: Lane)
    requires DistinctCards(a) && DistinctCards(b) && forall c :: c in a <==> c in b
    ensures |TasksIn(a, l)| == |TasksIn(b, l)|
  {
    TasksInDistinct(a, l);
    TasksInDistinct(b, l);
    forall t ensures t in TasksIn(a, l) <==> t in TasksIn(b, l) {
      SameTasks(a, b, l, t);
      SameTasks(b, a, l, t);
    }
    IdsSize(TasksIn(a, l));
    IdsSize(TasksIn(b, l));
    assert Ids(TasksIn(a, l)) == Ids(TasksIn(b, l));
  }

  lemma SameTasks(a: seq<Card>, b: seq<Card>, l: Lane, t: Task)
    requires forall c :: c in a ==> c in b
    ensures t in TasksIn(a, l) ==> t in TasksIn(b, l)
  {
    TasksInMembers(a, l, t);
    TasksInMembers(b, l, t);
    if i :| 0 <= i < |a| && InLane(a[i], l) && a[i].task == t { assert a[i] in b; }
  }

  /* ---- work balls ---- */

  function Runnable(cs: seq<Card>): seq<Task> { TasksIn(cs, Now) + TasksIn(cs, Next) + TasksIn(cs, Later) }

  lemma RunnableMembers(cs: seq<Card>, t: Task)
    ensures t in Runnable(cs) <==> exists i :: 0 <= i < |cs| && cs[i].eligible && Executable(cs[i].lane) && cs[i].task == t
  {
    TasksInMembers(cs, Now, t);
    TasksInMembers(cs, Next, t);
    TasksInMembers(cs, Later, t);
  }

  lemma RunnableDistinct(cs: seq<Card>)
    requires DistinctCards(cs)
    ensures DistinctIds(Runnable(cs))
  {
    TasksInDistinct(cs, Now);
    TasksInDistinct(cs, Next);
    TasksInDistinct(cs, Later);
    LanesApart(cs, Now, Next);
    LanesApart(cs, Now, Later);
    LanesApart(cs, Next, Later);
  }

  lemma LanesApart(cs: seq<Card>, a: Lane, b: Lane)
    requires DistinctCards(cs) && a != b
    ensures forall i, j :: 0 <= i < |TasksIn(cs, a)| && 0 <= j < |TasksIn(cs, b)| ==> TasksIn(cs, a)[i].id != TasksIn(cs, b)[j].id
  {
    forall i, j | 0 <= i < |TasksIn(cs, a)| && 0 <= j < |TasksIn(cs, b)| ensures TasksIn(cs, a)[i].id != TasksIn(cs, b)[j].id {
      TasksInMembers(cs, a, TasksIn(cs, a)[i]);
      TasksInMembers(cs, b, TasksIn(cs, b)[j]);
    }
  }

  /** The eligible tasks of the executable lanes. */
  ghost predicate IsRunnable(cs: seq<Card>, t: Task) {
    exists c :: c in cs && c.eligible && Executable(c.lane) && c.task == t
  }

  lemma RunnableAre(cs: seq<Card>, t: Task)
    ensures t in Runnable(cs) <==> IsRunnable(cs, t)
  {
    RunnableMembers(cs, t);
    if IsRunnable(cs, t) {
      var c :| c in cs && c.eligible && Executable(c.lane) && c.task == t;
      var i :| 0 <= i < |cs| && cs[i] == c;
    }
  }

  /** The card of `t` comes before the card of `u`: by lane, then rank, then id. */
  ghost predicate Precedes(cs: seq<Card>, t: Task, u: Task) {
    exists c, d :: c in cs && d in cs && c.task == t && d.task == u && Leq(c, d, ByLane)
  }

  lemma {:induction false} TasksInOrder(cs: seq<Card>, l: Lane, i: nat, j: nat) returns (a: nat, b: nat)
    requires i < j < |TasksIn(cs, l)|
    ensures a < b < |cs| && cs[a].task == TasksIn(cs, l)[i] && cs[b].task == TasksIn(cs, l)[j]
  {
    var n := |cs| - 1;
    if j < |TasksIn(cs[..n], l)| {
      a, b := TasksInOrder(cs[..n], l, i, j);
    } else {
      TasksInMembers(cs[..n], l, TasksIn(cs[..n], l)[i]);
      a :| 0 <= a < n && InLane(cs[..n][a], l) && cs[..n][a].task == TasksIn(cs[..n], l)[i];
      b := n;
    }
  }

  lemma SameLaneOrder(cs: seq<Card>, l: Lane, i: nat, j: nat)
    requires Sorted(cs, ByLane) && i < j < |TasksIn(cs, l)|
    ensures Precedes(cs, TasksIn(cs, l)[i], TasksIn(cs, l)[j])
  {
    var a, b := TasksInOrder(cs, l, i, j);
    assert Leq(cs[a], cs[b], ByLane);
  }

  lemma LaterLaneOrder(cs: seq<Card>, l: Lane, m: Lane, t: Task, u: Task)
    requires t in TasksIn(cs, l) && u in TasksIn(cs, m) && ((l == Now && m == Next) || (l == Now && m == Later) || (l == Next && m == Later))
    ensures Precedes(cs, t, u)
  {
    TasksInMembers(cs, l, t);
    TasksInMembers(cs, m, u);
    var i :| 0 <= i < |cs| && InLane(cs[i], l) && cs[i].task == t;
    var j :| 0 <= j < |cs| && InLane(cs[j], m) && cs[j].task == u;
    assert Leq(cs[i], cs[j], ByLane);
  }

  lemma QueueOrder(cs: seq<Card>, i: nat, j: nat)
    requires Sorted(cs, ByLane) && i < j < |Runnable(cs)|
    ensures Precedes(cs, Runnable(cs)[i], Runnable(cs)[j])
  {
    var q, x, y := Runnable(cs), |TasksIn(cs, Now)|, |TasksIn(cs, Now)| + |TasksIn(cs, Next)|;
    if j < x {
      SameLaneOrder(cs, Now, i, j);
    } else if j < y {
      assert q[j] == TasksIn(cs, Next)[j - x];
      if i < x { LaterLaneOrder(cs, Now, Next, q[i], q[j]); } else { SameLaneOrder(cs, Next, i - x, j - x); }
    } else {
      assert q[j] == TasksIn(cs, Later)[j - y];
      if i < x {
        LaterLaneOrder(cs, Now, Later, q[i], q[j]);
      } else if i < y {
        assert q[i] == TasksIn(cs, Next)[i - x];
        LaterLaneOrder(cs, Next, Later, q[i], q[j]);
      } else {
        SameLaneOrder(cs, Later, i - y, j - y);
      }
    }
  }

  /** A selection in the queue's order is in the cards' order. */
  lemma InCardOrder(cs: seq<Card>, chosen: seq<Task>)
    requires Sorted(cs, ByLane) && InOrder(chosen, Runnable(cs))
    ensures forall i, j :: 0 <= i < j < |chosen| ==> Precedes(cs, chosen[i], chosen[j])
  {
    forall i, j | 0 <= i < j < |chosen| ensures Precedes(cs, chosen[i], chosen[j]) {
      assert Before(Runnable(cs), chosen[i], chosen[j]);
      var a, b :| 0 <= a < b < |Runnable(cs)| && Runnable(cs)[a] == chosen[i] && Runnable(cs)[b] == chosen[j];
      QueueOrder(cs, a, b);
    }
  }

  /** The work balls of ordered cards. The queue holds the runnable tasks in card order; each is a
      ball if and only if the limit leaves room at its turn and it does not conflict with the balls
      before it. */
  ghost predicate AreBalls(cards: seq<Card>, limit: int, rs: Resources, balls: seq<Task>) {
    var queue := Runnable(cards);
    && (forall i, j :: 0 <= i < j < |queue| ==> Precedes(cards, queue[i], queue[j]))
    && (forall j :: 0 <= j < |queue| ==> (queue[j] in balls <==> Takes(queue, j, limit, [], rs)))
    && (forall i, j :: 0 <= i < j < |balls| ==> Precedes(cards, balls[i], balls[j]))
    && (forall t :: t in balls ==> t in queue)
    && |balls| <= limit && Free([], balls, rs) && DistinctIds(balls)
    && (|balls| < limit ==> Exhausted(queue, [], balls, rs))
  }

  lemma BallsMean(cards: seq<Card>, limit: int, rs: Resources)
    requires limit > 0 && DistinctCards(cards) && Sorted(cards, ByLane)
    ensures AreBalls(cards, limit, rs, Greedy(Runnable(cards), limit, [], rs))
    ensures forall t :: t in Runnable(cards) <==> IsRunnable(cards, t)
  {
    var queue, balls := Runnable(cards), Greedy(Runnable(cards), limit, [], rs);
    RunnableDistinct(cards);
    GreedyOrder(queue, limit, [], rs);
    GreedyFree(queue, limit, [], rs);
    OrderDistinct(balls, queue);
    if |balls| < limit { GreedyMaximal(queue, limit, [], rs); }
    InCardOrder(cards, balls);
    forall t ensures t in queue <==> IsRunnable(cards, t) { RunnableAre(cards, t); }
    forall j | 0 <= j < |queue| ensures queue[j] in balls <==> Takes(queue, j, limit, [], rs) { GreedyAt(queue, j, limit, [], rs); }
    forall i, j | 0 <= i < j < |queue| ensures Precedes(cards, queue[i], queue[j]) { QueueOrder(cards, i, j); }
  }

  method WorkBalls(cards: seq<Card>, policy: Policy, rs: Resources) returns (balls: seq<Task>)
    requires ValidPolicy(policy) && DistinctCards(cards) && Sorted(cards, ByLane)
    ensures balls == Greedy(Runnable(cards), policy.workBallLimit, [], rs)
    ensures AreBalls(cards, policy.workBallLimit, rs, balls)
    ensures forall t :: t in Runnable(cards) <==> IsRunnable(cards, t)
  {
    balls := ChooseFree(Runnable(cards), policy.workBallLimit, [], rs);
    BallsMean(cards, policy.workBallLimit, rs);
  }

  /** An eligible card starts in its task's own lane when only stale tasks are reverified. */
  lemma EligibleLane(t: Task, state: TaskState, structural: seq<Reason>, verifying: seq<bool>, reverify: bool, blocked: bool)
    requires MakeCard(t, state, structural, verifying, reverify, blocked).eligible && (reverify ==> state.Stale?)
    ensures MakeCard(t, state, structural, verifying, reverify, blocked).lane == Some(OwnLane(t))
  {
  }
}
