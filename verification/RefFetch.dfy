/** Reviewed fetches of src/bureau/fetch_orchestration.py: a plan names the tracking ref's old
    commit and the source commit; applying it re-plans, fetches into a temporary ref and swaps
    the tracking ref in one compare-and-swap transaction. The remote and every local ref may be
    changed by others between any two steps. */
module RefFetch {
  import opened Prelude

  /** A commit is its content: equal commits have equal object ids. */
  datatype Commit = Commit(tag: nat, parents: seq<Commit>)

  predicate Ancestor(a: Commit, c: Commit)
    decreases c
  {
    a == c || exists i :: 0 <= i < |c.parents| && Ancestor(a, c.parents[i])
  }

  lemma {:induction false} AncestorTransitive(a: Commit, b: Commit, c: Commit)
    requires Ancestor(a, b) && Ancestor(b, c)
    ensures Ancestor(a, c)
    decreases c
  {
    if b != c {
      var i :| 0 <= i < |c.parents| && Ancestor(b, c.parents[i]);
      AncestorTransitive(a, b, c.parents[i]);
    }
  }

  datatype Token = Token(resource: string, remote: string, branch: string, source: Commit)

  datatype Ref = Tracking(remote: string, branch: string) | Temp(token: Digest<Token>) | OtherRef(name: string)

  datatype World = World(remote: map<(string, string), Commit>, refs: map<Ref, Commit>)

  /** What others do between two steps: where the remote branches now point, and which local
      refs they set or delete. */
  datatype Env = Env(remote: map<(string, string), Commit>, refs: map<Ref, Option<Commit>>)

  function Disturb(w: World, e: Env): World {
    World(e.remote, (w.refs - e.refs.Keys) + (map r | r in e.refs && e.refs[r].Some? :: e.refs[r].value))
  }

  function Read(w: World, r: Ref): Option<Commit> { if r in w.refs then Some(w.refs[r]) else None }

  /* ---- planning ---- */

  datatype Request = Request(resource: string, remote: string, branch: string, task: Option<string>)

  /** What planning reads besides refs. */
  datatype Site = Site(remoteConfigured: bool, slugMatches: bool, runtimeBlocked: bool)

  datatype Problem = RemoteMissing | IdentityMismatch | SourceUnavailable | RuntimeBlocked

  datatype Plan = Plan(request: Request, source: Option<Commit>, before: Option<Commit>, site: Site, conflicts: seq<Problem>)

  function Destination(r: Request): Ref { Tracking(r.remote, r.branch) }

  function TempRef(r: Request, source: Commit): Ref { Temp(Sha256(Token(r.resource, r.remote, r.branch, source))) }

  function Tip(w: World, r: Request): Option<Commit> {
    if (r.remote, r.branch) in w.remote then Some(w.remote[(r.remote, r.branch)]) else None
  }

  /** `repo_fetch_plan`: the remote is listed in one state of the world and the tracking ref read
      in a later one. */
  function MakePlan(listed: World, later: World, r: Request, site: Site): (p: Plan)
    ensures p.conflicts == [] ==> p.source.Some?
  {
    var identity := if !site.remoteConfigured then [RemoteMissing] else if !site.slugMatches then [IdentityMismatch] else [];
    var source := if identity == [] then Tip(listed, r) else None;
    var conflicts := identity + (if identity == [] && source.None? then [SourceUnavailable] else [])
                     + (if site.runtimeBlocked then [RuntimeBlocked] else []);
    Plan(r, source, Read(later, Destination(r)), site, conflicts)
  }

  /* ---- applying ---- */

  datatype ErrorKind = PlanDrifted | PlanBlocked | NotAuthorised | TempExists | FetchFailed | CleanupFailed | UpdateFailed | ReadbackFailed

  datatype ConflictKind = SourceMoved | DestinationDrift | NonFastForward

  datatype Outcome = Error(error: ErrorKind) | NoOp | Conflict(conflict: ConflictKind) | Applied

  /** One write of the tracking ref: what it held just before, what it holds now, and the plan the
      write carries out. */
  datatype Write = Write(ref: Ref, was: Option<Commit>, now: Commit, plan: Plan)

  /** What happens around the steps of one application. */
  datatype Oracle = Oracle(
    site: Site, authorised: bool, fetchFails: bool, cleanupFails: bool, updateFails: bool,
    listed: Env, planned: Env, checked: Env, fetched: Env, compared: Env, prepared: Env, committed: Env)

  datatype Result = Result(world: World, outcome: Outcome, write: Option<Write>)

  /** `_cleanup_temp_ref`, then the given conflict. */
  function Abandon(w: World, temp: Ref, observed: Option<Commit>, fails: bool, kind: ConflictKind): Result {
    if observed.None? then Result(w, Conflict(kind), None)
    else if !fails && Read(w, temp) == observed then Result(w.(refs := w.refs - {temp}), Conflict(kind), None)
    else Result(w, Error(CleanupFailed), None)
  }

  predicate CanSwap(w: World, plan: Plan, source: Commit, o: Oracle) {
    !o.updateFails && Read(w, Destination(plan.request)) == plan.before && Read(w, TempRef(plan.request, source)) == Some(source)
  }

  /** The reference transaction: the tracking ref moves and the temporary ref goes, together. */
  function Swapped(w: World, plan: Plan, source: Commit): World {
    w.(refs := w.refs[Destination(plan.request) := source] - {TempRef(plan.request, source)})
  }

  function SwapFailed(w: World, plan: Plan, source: Commit, o: Oracle): Result {
    var temp := TempRef(plan.request, source);
    if Read(w, Destination(plan.request)) == plan.before && Read(w, temp) == Some(source) && !o.cleanupFails
    then Result(w.(refs := w.refs - {temp}), Error(UpdateFailed), None)
    else Result(w, Error(UpdateFailed), None)
  }

  /** After the transaction replaced `was`, the value the tracking ref held when it committed. */
  function Readback(w: World, was: Option<Commit>, plan: Plan, source: Commit): Result {
    var dest := Destination(plan.request);
    var ok := Read(w, dest) == Some(source) && Read(w, TempRef(plan.request, source)).None?;
    Result(w, if ok then Applied else Error(ReadbackFailed), Some(Write(dest, was, source, plan)))
  }

  /** From the fetched temporary ref to the end; the worlds are those of the successive steps. */
  function Compare(fetched: World, compared: World, prepared: World, committed: World, plan: Plan, source: Commit, o: Oracle): Result {
    var temp := TempRef(plan.request, source);
    var got := Read(fetched, temp);
    if got != Some(source) then Abandon(fetched, temp, got, o.cleanupFails, SourceMoved)
    else if Read(compared, Destination(plan.request)) != plan.before then Abandon(compared, temp, got, o.cleanupFails, DestinationDrift)
    else if plan.before.Some? && !Ancestor(plan.before.value, source) then Abandon(compared, temp, got, o.cleanupFails, NonFastForward)
    else if !CanSwap(prepared, plan, source, o) then SwapFailed(prepared, plan, source, o)
    else Readback(committed, Read(prepared, Destination(plan.request)), plan, source)
  }

  /** The fetch into the temporary ref; Git refuses to move an existing ref backwards. */
  function FetchTemp(w: World, plan: Plan, source: Commit, o: Oracle): Result {
    var temp := TempRef(plan.request, source);
    if Read(w, temp).Some? then Result(w, Error(TempExists), None)
    else
      var w2 := Disturb(w, o.checked);
      var tip := Tip(w2, plan.request);
      if o.fetchFails || tip.None? || (temp in w2.refs && !Ancestor(w2.refs[temp], tip.value)) then Result(w2, Error(FetchFailed), None)
      else
        var fetched := Disturb(w2.(refs := w2.refs[temp := tip.value]), o.fetched);
        var compared := Disturb(fetched, o.compared);
        var prepared := Disturb(compared, o.prepared);
        Compare(fetched, compared, prepared, Disturb(Swapped(prepared, plan, source), o.committed), plan, source, o)
  }

  /** `apply_repo_fetch_plan`. */
  function Apply(w: World, r: Request, expected: Digest<Plan>, o: Oracle): Result {
    var w1 := Disturb(w, o.listed);
    var plan := MakePlan(w, w1, r, o.site);
    if Sha256(plan) != expected then Result(w1, Error(PlanDrifted), None)
    else if plan.conflicts != [] then Result(w1, Error(PlanBlocked), None)
    else if !o.authorised then Result(w1, Error(NotAuthorised), None)
    else if plan.source == plan.before then Result(w1, NoOp, None)
    else FetchTemp(Disturb(w1, o.planned), plan, plan.source.value, o)
  }

  /* ---- one application ---- */

  /** What the result of carrying out a plan may claim. */
  ghost predicate Honest(x: Result, plan: Plan, source: Commit) {
    var dest, temp := Destination(plan.request), TempRef(plan.request, source);
    && (x.write.Some? ==> x.write.value == Write(dest, plan.before, source, plan) && (plan.before.Some? ==> Ancestor(plan.before.value, source)))
    && (x.outcome.Conflict? ==> x.write.None? && Read(x.world, temp).None?)
    && (x.outcome.Applied? ==> x.write.Some? && Read(x.world, dest) == Some(source) && Read(x.world, temp).None?)
    && (x.write.Some? ==> x.outcome.Applied? || x.outcome == Error(ReadbackFailed))
    && !x.outcome.NoOp?
  }

  lemma CompareHonest(fetched: World, compared: World, prepared: World, committed: World, plan: Plan, source: Commit, o: Oracle)
    ensures Honest(Compare(fetched, compared, prepared, committed, plan, source, o), plan, source)
  {
  }

  /** The tracking ref is written if and only if the fetch brought the reviewed source, the ref held
      the reviewed old commit both when compared and at the swap, the step is forward and the swap
      goes through. A ref that drifted and came back before the swap is still not written. */
  lemma WritesIff(fetched: World, compared: World, prepared: World, committed: World, plan: Plan, source: Commit, o: Oracle)
    ensures var x := Compare(fetched, compared, prepared, committed, plan, source, o);
      var dest, temp := Destination(plan.request), TempRef(plan.request, source);
      && (x.write.Some? <==> (
           && Read(fetched, temp) == Some(source) == Read(prepared, temp) && !o.updateFails
           && Read(compared, dest) == plan.before == Read(prepared, dest)
           && (plan.before.Some? ==> Ancestor(plan.before.value, source))))
      && (Read(fetched, temp) == Some(source) && Read(compared, dest) != plan.before ==>
           x.outcome == Conflict(DestinationDrift) || x.outcome == Error(CleanupFailed))
      && (x.outcome == Conflict(DestinationDrift) ==> Read(compared, dest) != plan.before)
      && (x.outcome == Conflict(SourceMoved) ==> Read(fetched, temp) != Some(source))
      && (x.outcome == Conflict(NonFastForward) ==> plan.before.Some? && !Ancestor(plan.before.value, source))
  {
  }

  lemma FetchHonest(w: World, plan: Plan, source: Commit, o: Oracle)
    ensures Honest(FetchTemp(w, plan, source, o), plan, source)
  {
    var w2 := Disturb(w, o.checked);
    var tip := Tip(w2, plan.request);
    if tip.Some? {
      var fetched := Disturb(w2.(refs := w2.refs[TempRef(plan.request, source) := tip.value]), o.fetched);
      var prepared := Disturb(Disturb(fetched, o.compared), o.prepared);
      CompareHonest(fetched, Disturb(fetched, o.compared), prepared, Disturb(Swapped(prepared, plan, source), o.committed), plan, source, o);
    }
  }

  /** A write goes from the reviewed old commit to the reviewed source commit, forward. */
  ghost predicate Reviewed(write: Write, expected: Digest<Plan>) {
    && Sha256(write.plan) == expected && write.plan.conflicts == []
    && write.ref == Destination(write.plan.request) && write.was == write.plan.before && Some(write.now) == write.plan.source
    && (write.was.Some? ==> Ancestor(write.was.value, write.now) && write.was.value != write.now)
  }

  /** An application writes only what was reviewed, and only under an approval. A conflict wrote
      nothing and leaves no temporary ref; an applied plan leaves the tracking ref at the source and
      no temporary ref; a no-op changed nothing, not even a temporary ref left over from before. */
  lemma OutcomesMean(w: World, r: Request, expected: Digest<Plan>, o: Oracle)
    ensures var x := Apply(w, r, expected, o); var plan := MakePlan(w, Disturb(w, o.listed), r, o.site);
      && (x.write.Some? || x.outcome.Applied? || x.outcome.NoOp? || x.outcome.Conflict? ==> o.authorised)
      && (x.write.Some? ==> Reviewed(x.write.value, expected) && (x.outcome.Applied? || x.outcome == Error(ReadbackFailed)))
      && (x.outcome.NoOp? ==> x.write.None? && x.world == Disturb(w, o.listed))
      && (x.outcome.Conflict? || x.outcome.Applied? ==> (
           && Sha256(plan) == expected && plan.source.Some? && plan.source != plan.before
           && Read(x.world, TempRef(r, plan.source.value)).None?
           && (x.outcome.Conflict? ==> x.write.None?)
           && (x.outcome.Applied? ==> x.write.Some? && Read(x.world, Destination(r)) == plan.source)))
  {
    var w1 := Disturb(w, o.listed);
    var plan := MakePlan(w, w1, r, o.site);
    if plan.source.Some? { FetchHonest(Disturb(w1, o.planned), plan, plan.source.value, o); }
  }

  /** What stops an application before it touches a ref: another digest than the approved one, a
      conflict of the plan, then the missing authorisation, in this order; nothing is written then.
      Past these checks it is a no-op if and only if the tracking ref is at the source already. */
  lemma GatesComeFirst(w: World, r: Request, expected: Digest<Plan>, o: Oracle)
    ensures var x, w1 := Apply(w, r, expected, o), Disturb(w, o.listed);
      var tip, before := Tip(w, r), Read(w1, Destination(r));
      var clean := o.site.remoteConfigured && o.site.slugMatches && tip.Some? && !o.site.runtimeBlocked;
      var same := Sha256(MakePlan(w, w1, r, o.site)) == expected;
      && (!same ==> x == Result(w1, Error(PlanDrifted), None))
      && (same && !clean ==> x == Result(w1, Error(PlanBlocked), None))
      && (same && clean && !o.authorised ==> x == Result(w1, Error(NotAuthorised), None))
      && (x.outcome.NoOp? <==> same && clean && o.authorised && tip == before)
      && (same && clean && o.authorised && tip != before && Read(Disturb(w1, o.planned), TempRef(r, tip.value)).Some? ==>
           x == Result(Disturb(w1, o.planned), Error(TempExists), None))
  {
    var w1 := Disturb(w, o.listed);
    var plan := MakePlan(w, w1, r, o.site);
    if plan.source.Some? { FetchHonest(Disturb(w1, o.planned), plan, plan.source.value, o); }
  }

  /** Nobody else acts. */
  predicate Still(o: Oracle, remote: map<(string, string), Commit>) {
    o.listed == o.planned == o.checked == o.fetched == o.compared == o.prepared == o.committed == Env(remote, map[])
  }

  lemma StillStays(w: World)
    ensures Disturb(w, Env(w.remote, map[])) == w
  {
    assert Disturb(w, Env(w.remote, map[])).refs == w.refs;
  }

  /** Left alone, an approved application of a clean plan moves the tracking ref to the source and
      nothing else if the step is forward, and otherwise reports the conflict and changes nothing. */
  lemma UndisturbedApplication(w: World, r: Request, expected: Digest<Plan>, o: Oracle)
    requires Still(o, w.remote) && o.authorised && !o.fetchFails && !o.cleanupFails && !o.updateFails
    requires Tip(w, r).Some? && Tip(w, r) != Read(w, Destination(r)) && Read(w, TempRef(r, Tip(w, r).value)).None?
    requires o.site == Site(true, true, false) && expected == Sha256(MakePlan(w, w, r, o.site))
    ensures var x, dest := Apply(w, r, expected, o), Destination(r); var tip, before := Tip(w, r).value, Read(w, dest);
      if before.None? || Ancestor(before.value, tip)
      then x.outcome == Applied && x.world == w.(refs := w.refs[dest := tip]) && x.write.Some?
      else x == Result(w, Conflict(NonFastForward), None)
  {
    var plan := MakePlan(w, w, r, o.site);
    StillStays(w);
    UndisturbedFetch(w, plan, Tip(w, r).value, o);
  }

  lemma UndisturbedFetch(w: World, plan: Plan, source: Commit, o: Oracle)
    requires Still(o, w.remote) && !o.fetchFails && !o.cleanupFails && !o.updateFails && Tip(w, plan.request) == Some(source)
    requires plan.before == Read(w, Destination(plan.request)) && Read(w, TempRef(plan.request, source)).None?
    ensures var x, dest := FetchTemp(w, plan, source, o), Destination(plan.request);
      if plan.before.None? || Ancestor(plan.before.value, source)
      then x.outcome == Applied && x.world == w.(refs := w.refs[dest := source]) && x.write.Some?
      else x == Result(w, Conflict(NonFastForward), None)
  {
    var dest, temp := Destination(plan.request), TempRef(plan.request, source);
    var put := w.(refs := w.refs[temp := source]);
    StillStays(w);
    StillStays(put);
    StillStays(Swapped(put, plan, source));
    assert put.refs - {temp} == w.refs;
    assert put.refs[dest := source] - {temp} == w.refs[dest := source];
    assert FetchTemp(w, plan, source, o) == Compare(put, put, put, Swapped(put, plan, source), plan, source, o);
  }

  /** Others leave this ref alone. */
  predicate Spares(e: Env, d: Ref) { d !in e.refs }

  predicate OracleSpares(o: Oracle, d: Ref) {
    Spares(o.listed, d) && Spares(o.planned, d) && Spares(o.checked, d) && Spares(o.fetched, d)
    && Spares(o.compared, d) && Spares(o.prepared, d) && Spares(o.committed, d)
  }

  lemma SparedStays(w: World, e: Env, d: Ref)
    requires Spares(e, d)
    ensures Read(Disturb(w, e), d) == Read(w, d)
  {
  }

  /** The tracking ref holds what the write put there, or what it held before. */
  ghost predicate Moves(x: Result, was: Option<Commit>, d: Ref) {
    && Read(x.world, d) == (if x.write.Some? && x.write.value.ref == d then Some(x.write.value.now) else was)
    && (x.write.Some? && x.write.value.ref == d ==> x.write.value.was == was)
  }

  lemma CompareMoves(fetched: World, compared: World, prepared: World, committed: World, plan: Plan, source: Commit, o: Oracle,
                     was: Option<Commit>, remote: string, branch: string)
    requires var d := Tracking(remote, branch);
      && Read(fetched, d) == Read(compared, d) == Read(prepared, d) == was
      && Read(committed, d) == Read(Swapped(prepared, plan, source), d)
    ensures Moves(Compare(fetched, compared, prepared, committed, plan, source, o), was, Tracking(remote, branch))
  {
  }

  lemma FetchMoves(w: World, plan: Plan, source: Commit, o: Oracle, remote: string, branch: string)
    requires OracleSpares(o, Tracking(remote, branch))
    ensures Moves(FetchTemp(w, plan, source, o), Read(w, Tracking(remote, branch)), Tracking(remote, branch))
  {
    var d, w2 := Tracking(remote, branch), Disturb(w, o.checked);
    var tip := Tip(w2, plan.request);
    SparedStays(w, o.checked, d);
    if tip.Some? {
      var put := w2.(refs := w2.refs[TempRef(plan.request, source) := tip.value]);
      var fetched := Disturb(put, o.fetched);
      var compared := Disturb(fetched, o.compared);
      var prepared := Disturb(compared, o.prepared);
      SparedStays(put, o.fetched, d);
      SparedStays(fetched, o.compared, d);
      SparedStays(compared, o.prepared, d);
      SparedStays(Swapped(prepared, plan, source), o.committed, d);
      CompareMoves(fetched, compared, prepared, Disturb(Swapped(prepared, plan, source), o.committed), plan, source, o, Read(w, d), remote, branch);
    }
  }

  /** If only applications write a tracking ref, one application moves it by exactly its write. */
  lemma ApplyMoves(w: World, r: Request, expected: Digest<Plan>, o: Oracle, remote: string, branch: string)
    requires OracleSpares(o, Tracking(remote, branch))
    ensures Moves(Apply(w, r, expected, o), Read(w, Tracking(remote, branch)), Tracking(remote, branch))
  {
    var d, w1 := Tracking(remote, branch), Disturb(w, o.listed);
    var plan := MakePlan(w, w1, r, o.site);
    SparedStays(w, o.listed, d);
    SparedStays(w1, o.planned, d);
    if plan.source.Some? { FetchMoves(Disturb(w1, o.planned), plan, plan.source.value, o, remote, branch); }
  }

  /* ---- any number of rounds ---- */

  datatype Round = Outside(env: Env) | Fetch(request: Request, expected: Digest<Plan>, oracle: Oracle)

  datatype State = State(world: World, log: seq<Write>)

  function Step(s: State, l: Round): State {
    match l
    case Outside(e) => s.(world := Disturb(s.world, e))
    case Fetch(r, expected, o) =>
      var x := Apply(s.world, r, expected, o);
      State(x.world, s.log + if x.write.Some? then [x.write.value] else [])
  }

  function StateAt(s0: State, ls: seq<Round>, n: nat): State
    requires n <= |ls|
  {
    if n == 0 then s0 else Step(StateAt(s0, ls, n - 1), ls[n - 1])
  }

  /** Whatever others do to the remote and to any ref: every write that applications made carried
      out a plan whose digest its caller had approved, in a round that was authorised, from the
      plan's old commit forward to the plan's source commit. */
  lemma {:induction false} EveryWriteReviewed(s0: State, ls: seq<Round>, n: nat, i: nat) returns (k: nat)
    requires s0.log == [] && n <= |ls| && i < |StateAt(s0, ls, n).log|
    ensures k < n && ls[k].Fetch? && ls[k].oracle.authorised && Reviewed(StateAt(s0, ls, n).log[i], ls[k].expected)
  {
    var s := StateAt(s0, ls, n - 1);
    if i < |s.log| {
      k := EveryWriteReviewed(s0, ls, n - 1, i);
    } else {
      k := n - 1;
      OutcomesMean(s.world, ls[k].request, ls[k].expected, ls[k].oracle);
    }
  }

  predicate RoundSpares(l: Round, d: Ref) {
    match l
    case Outside(e) => Spares(e, d)
    case Fetch(_, _, o) => OracleSpares(o, d)
  }

  /** A tracking ref that only applications write moves forward: each of its values is an ancestor
      of every later one, and once set it stays set. */
  lemma {:induction false} TrackingRefOnlyAdvances(s0: State, ls: seq<Round>, k: nat, n: nat, remote: string, branch: string)
    requires k <= n <= |ls| && forall i :: 0 <= i < |ls| ==> RoundSpares(ls[i], Tracking(remote, branch))
    requires Read(StateAt(s0, ls, k).world, Tracking(remote, branch)).Some?
    ensures var d := Tracking(remote, branch);
      && Read(StateAt(s0, ls, n).world, d).Some?
      && Ancestor(Read(StateAt(s0, ls, k).world, d).value, Read(StateAt(s0, ls, n).world, d).value)
  {
    if k < n {
      TrackingRefOnlyAdvances(s0, ls, k, n - 1, remote, branch);
      var d, s, l := Tracking(remote, branch), StateAt(s0, ls, n - 1), ls[n - 1];
      OneRoundAdvances(s, l, remote, branch);
      AncestorTransitive(Read(StateAt(s0, ls, k).world, d).value, Read(s.world, d).value, Read(Step(s, l).world, d).value);
    }
  }

  lemma OneRoundAdvances(s: State, l: Round, remote: string, branch: string)
    requires RoundSpares(l, Tracking(remote, branch)) && Read(s.world, Tracking(remote, branch)).Some?
    ensures var d := Tracking(remote, branch);
      Read(Step(s, l).world, d).Some? && Ancestor(Read(s.world, d).value, Read(Step(s, l).world, d).value)
  {
    if l.Fetch? {
      ApplyMoves(s.world, l.request, l.expected, l.oracle, remote, branch);
      OutcomesMean(s.world, l.request, l.expected, l.oracle);
    }
  }
}
