/** The two phases of `bound_activity_heartbeat` on the state store's tables. */
module ActivityStore {
  import opened Prelude
  import opened ActivityCodec
  import opened BoundActivity

  class Store {
    var runs: map<string, Row>
    var workers: map<string, string>
    var events: seq<Event>
    var registry: map<string, TaskRevision>

    function Contents(calls: map<nat, Call>): State
      reads this
    {
      BoundActivity.State.State(runs, workers, events, registry, calls)
    }

    constructor (s: State)
      ensures Contents(s.calls) == s
    {
      runs, workers, events, registry := s.runs, s.workers, s.events, s.registry;
    }

    /** The first phase reads only. */
    method Check(request: Request, c: nat, calls: map<nat, Call>) returns (o: Outcome, calls': map<nat, Call>)
      ensures o == OutcomeOf(Contents(calls), Begin(c, request))
      ensures Contents(calls') == Step(Contents(calls), Begin(c, request))
    {
      var a := ActivityOf(request);
      if a.None? { return Refused, calls - {c}; }
      o := Examine(Contents(calls), a.value);
      calls' := if o.Proceeds? then calls[c := Waiting(a.value)] else calls - {c};
    }

    /** The second phase, under the write lock: the checks again, the run update guarded by its own
        predicate, the worker update, the event. A missing worker rolls everything back. */
    method Record(c: nat, now: string, calls: map<nat, Call>) returns (o: Outcome)
      requires c in calls && calls[c].Holding? && Trimmed(now)
      modifies this
      ensures o == OutcomeOf(old(Contents(calls)), Commit(c, now))
      ensures Contents(calls - {c}) == Step(old(Contents(calls)), Commit(c, now))
      ensures !o.Recorded? ==> unchanged(this)
    {
      var a, p := calls[c].activity, Payload(calls[c].activity, calls[c].evidence, now);
      o := Examine(Contents(calls), a);
      if !o.Proceeds? { return; }
      var updated := a.runId in runs && ActiveState(runs[a.runId].state) && Matches(runs[a.runId], a);
      assert updated;
      var before := runs;
      runs := runs[a.runId := runs[a.runId].(heartbeatAt := now)];
      if a.workerId !in workers {
        runs := before;
        return Refused;
      }
      workers := workers[a.workerId := now];
      events := events + [Event(Some(a.runId), true, 1, Some(a.activityId), Encode(p))];
      o := Recorded(p);
    }
  }
}
