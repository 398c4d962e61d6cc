/** `repo_fetch_plan` and `apply_repo_fetch_plan` of src/bureau/fetch_orchestration.py on a
    repository whose refs change in place. */
module FetchRepository {
  import opened Prelude
  import opened RefFetch

  class Repository {
    var remote: map<(string, string), Commit>
    var refs: map<Ref, Commit>
    /** The tracking-ref writes made by this program. */
    var log: seq<Write>

    function Here(): World
      reads this
    {
      World(remote, refs)
    }

    constructor (w: World)
      ensures Here() == w && log == []
    {
      remote, refs, log := w.remote, w.refs, [];
    }

    /** Others act between two steps. */
    method Outside(e: Env)
      modifies this`remote, this`refs
      ensures Here() == Disturb(old(Here()), e)
    {
      remote, refs := e.remote, (refs - e.refs.Keys) + (map r | r in e.refs && e.refs[r].Some? :: e.refs[r].value);
    }

    method RepoFetchPlan(r: Request, o: Oracle) returns (plan: Plan)
      modifies this`remote, this`refs
      ensures Here() == Disturb(old(Here()), o.listed)
      ensures plan == MakePlan(old(Here()), Here(), r, o.site)
    {
      var conflicts: seq<Problem> := [];
      var source: Option<Commit> := None;
      if !o.site.remoteConfigured { conflicts := conflicts + [RemoteMissing]; }
      else if !o.site.slugMatches { conflicts := conflicts + [IdentityMismatch]; }
      if conflicts == [] {
        source := Tip(Here(), r);
        if source.None? { conflicts := conflicts + [SourceUnavailable]; }
      }
      Outside(o.listed);
      if o.site.runtimeBlocked { conflicts := conflicts + [RuntimeBlocked]; }
      plan := Plan(r, source, Read(Here(), Destination(r)), o.site, conflicts);
    }

    /** Deletes the temporary ref if it still holds what was observed. */
    method CleanupTempRef(temp: Ref, observed: Option<Commit>, fails: bool) returns (ok: bool)
      modifies this`refs
      ensures ok == (observed.None? || (!fails && Read(old(Here()), temp) == observed))
      ensures refs == if ok && observed.Some? then old(refs) - {temp} else old(refs)
    {
      if observed.None? { return true; }
      if fails || Read(Here(), temp) != observed { return false; }
      refs := refs - {temp};
      ok := true;
    }

    method GiveUp(temp: Ref, observed: Option<Commit>, fails: bool, kind: ConflictKind) returns (outcome: Outcome)
      modifies this`refs
      ensures var x := Abandon(old(Here()), temp, observed, fails, kind); Here() == x.world && outcome == x.outcome
    {
      var ok := CleanupTempRef(temp, observed, fails);
      outcome := if ok then Conflict(kind) else Error(CleanupFailed);
    }

    /** The steps after the fetch. */
    method CompareAndSwap(plan: Plan, source: Commit, o: Oracle) returns (outcome: Outcome)
      modifies this
      ensures var w := old(Here()); var w2 := Disturb(w, o.compared); var w3 := Disturb(w2, o.prepared);
        var x := Compare(w, w2, w3, Disturb(Swapped(w3, plan, source), o.committed), plan, source, o);
        Here() == x.world && outcome == x.outcome && log == old(log) + if x.write.Some? then [x.write.value] else []
    {
      var dest, temp := Destination(plan.request), TempRef(plan.request, source);
      var fetched := Read(Here(), temp);
      if fetched != Some(source) {
        outcome := GiveUp(temp, fetched, o.cleanupFails, SourceMoved);
        return;
      }
      Outside(o.compared);
      if Read(Here(), dest) != plan.before {
        outcome := GiveUp(temp, fetched, o.cleanupFails, DestinationDrift);
        return;
      }
      if plan.before.Some? && !Ancestor(plan.before.value, source) {
        outcome := GiveUp(temp, fetched, o.cleanupFails, NonFastForward);
        return;
      }
      Outside(o.prepared);
      if !CanSwap(Here(), plan, source, o) {
        if Read(Here(), dest) == plan.before && Read(Here(), temp) == Some(source) {
          var ok := CleanupTempRef(temp, Some(source), o.cleanupFails);
        }
        return Error(UpdateFailed);
      }
      log := log + [Write(dest, Read(Here(), dest), source, plan)];
      refs := refs[dest := source] - {temp};
      Outside(o.committed);
      outcome := if Read(Here(), dest) == Some(source) && Read(Here(), temp).None? then Applied else Error(ReadbackFailed);
    }

    /** Applies one reviewed plan; `expected` is the digest that was reviewed and approved. */
    method ApplyRepoFetchPlan(r: Request, expected: Digest<Plan>, o: Oracle) returns (outcome: Outcome)
      modifies this
      ensures var x := Apply(old(Here()), r, expected, o);
        Here() == x.world && outcome == x.outcome && log == old(log) + if x.write.Some? then [x.write.value] else []
    {
      var plan := RepoFetchPlan(r, o);
      if Sha256(plan) != expected { return Error(PlanDrifted); }
      if plan.conflicts != [] { return Error(PlanBlocked); }
      if !o.authorised { return Error(NotAuthorised); }
      if plan.source == plan.before { return NoOp; }
      var source := plan.source.value;
      var temp := TempRef(r, source);
      Outside(o.planned);
      if Read(Here(), temp).Some? { return Error(TempExists); }
      Outside(o.checked);
      var tip := Tip(Here(), r);
      if o.fetchFails || tip.None? || (temp in refs && !Ancestor(refs[temp], tip.value)) { return Error(FetchFailed); }
      refs := refs[temp := tip.value];
      Outside(o.fetched);
      outcome := CompareAndSwap(plan, source, o);
    }
  }
}
