/** What holds over every interleaving of bound-activity calls with changes from outside. */
module ActivityRuns {
  import opened Prelude
  import opened JsonValues
  import opened ActivityCodec
  import opened BoundActivity

  /** An event with an activity id is exactly what a commit writes. */
  ghost predicate Sound(e: Event) {
    e.activityId.Some? ==>
      && e.heartbeat && e.version == 1 && e.runId.Some?
      && exists p :: Writes(e, p)
  }

  ghost predicate Writes(e: Event, p: Payload) {
    Writable(p) && e == Event(Some(p.activity.runId), true, 1, Some(p.activity.activityId), Encode(p))
  }

  ghost predicate Unique(events: seq<Event>) {
    forall i, j :: 0 <= i < j < |events| && events[i].activityId.Some? ==> events[i].activityId != events[j].activityId
  }

  ghost predicate CallSound(c: Call) {
    GoodActivity(c.activity) && (c.Holding? ==> FreshEvidence(c.activity, c.evidence))
  }

  ghost predicate Inv(s: State) {
    && (forall i :: 0 <= i < |s.events| ==> Sound(s.events[i])) && Unique(s.events)
    && (forall c :: c in s.calls ==> CallSound(s.calls[c]))
  }

  ghost predicate Initial(s: State) {
    (forall i :: 0 <= i < |s.events| ==> s.events[i].activityId.None?) && s.calls == map[]
  }

  /* ---- the index ---- */

  lemma {:induction false} HavingNone(events: seq<Event>, id: string)
    ensures Having(events, id) == [] <==> forall i :: 0 <= i < |events| ==> events[i].activityId != Some(id)
  {
    if events != [] { HavingNone(events[..|events| - 1], id); }
  }

  lemma {:induction false} HavingOne(events: seq<Event>, id: string, i: nat)
    requires Unique(events) && i < |events| && events[i].activityId == Some(id)
    ensures Having(events, id) == [events[i]]
  {
    var n := |events| - 1;
    if i == n {
      HavingNone(events[..n], id);
    } else {
      HavingOne(events[..n], id, i);
    }
  }

  /** In a sound journal the index finds exactly what was written, or nothing. */
  lemma LookupFinds(s: State, i: nat, p: Payload)
    requires Inv(s) && i < |s.events| && Writes(s.events[i], p)
    ensures Lookup(s.events, p.activity.activityId) == Found(p)
  {
    HavingOne(s.events, p.activity.activityId, i);
    PayloadRoundTrip(p);
  }

  lemma LookupSound(s: State, id: string)
    requires Inv(s)
    ensures !Lookup(s.events, id).Broken?
    ensures Lookup(s.events, id).Missing? <==> forall i :: 0 <= i < |s.events| ==> s.events[i].activityId != Some(id)
  {
    HavingNone(s.events, id);
    if i :| 0 <= i < |s.events| && s.events[i].activityId == Some(id) {
      assert Sound(s.events[i]);
      var p :| Writes(s.events[i], p);
      LookupFinds(s, i, p);
    }
  }

  /* ---- what a recording takes ---- */

  /** The external fields of a run row, if they are all set or all absent. */
  function ExternalOf(row: Row): Option<External> {
    if row.system.None? && row.id.None? && row.externalState.None? && row.observedAt.None? then Some(Unbound)
    else if row.system.Some? && row.id.Some? && row.externalState.Some? && row.observedAt.Some?
    then Some(BoundTo(row.system.value, row.id.value, row.externalState.value, row.observedAt.value))
    else None
  }

  /** The activity carries the row's task, worker, three digests and external fields. */
  predicate Describes(row: Row, a: Activity) {
    && (row.taskId, row.workerId) == (a.taskId, a.workerId)
    && (row.taskSha, row.planSha, row.envelopeSha) == (a.taskSha, a.planSha, a.envelopeSha)
    && ExternalOf(row) == Some(a.external)
  }

  /** The run is active and describes the activity, and registry and stored envelope say the same. */
  predicate RunsUnder(s: State, a: Activity) {
    && a.runId in s.runs && s.runs[a.runId].state in {"assigned", "running", "verifying"}
    && Describes(s.runs[a.runId], a)
    && a.taskId in s.registry && s.registry[a.taskId].taskSha == a.taskSha && s.registry[a.taskId].planSha == a.planSha
    && s.runs[a.runId].envelope == Some(Envelope(a.runId, a.taskId, a.workerId, a.taskSha, a.planSha))
    && s.runs[a.runId].envelopeDigest == a.envelopeSha
  }

  lemma MatchesIff(row: Row, a: Activity)
    ensures Matches(row, a) <==> Describes(row, a)
  {
  }

  lemma AdmitsIff(s: State, a: Activity)
    ensures Admits(s, a) <==> RunsUnder(s, a)
  {
    if a.runId in s.runs { MatchesIff(s.runs[a.runId], a); }
  }

  /** A label records a payload if and only if it commits a held call for it at a proper time while
      its run is active under exactly the binding the call names, the worker is registered and no
      event carries the activity id yet. */
  lemma RecordedIff(s: State, l: Label, p: Payload)
    ensures OutcomeOf(s, l) == Recorded(p) <==> (
      && l.Commit? && l.call in s.calls && s.calls[l.call] == Holding(p.activity, p.evidence)
      && p.heartbeatAt == l.now && Trimmed(l.now)
      && RunsUnder(s, p.activity) && p.activity.workerId in s.workers
      && forall i :: 0 <= i < |s.events| ==> s.events[i].activityId != Some(p.activity.activityId))
  {
    AdmitsIff(s, p.activity);
    HavingNone(s.events, p.activity.activityId);
  }

  /** What a call may ask for: texts without surrounding space, a bounded id, SHA-256 digests, and
      the external fields all given or all left out with the unbound flag. */
  predicate Asks(r: Request, a: Activity) {
    && (a.activityId, a.runId, a.taskId, a.workerId) == (r.activityId, r.runId, r.taskId, r.workerId)
    && (a.taskSha, a.planSha, a.envelopeSha) == (r.taskSha, r.planSha, r.envelopeSha)
    && (forall t :: t in [a.activityId, a.runId, a.taskId, a.workerId, a.taskSha, a.planSha, a.envelopeSha] ==> Trimmed(t))
    && |a.activityId| <= 200 && Sha256Text(a.taskSha) && Sha256Text(a.planSha) && Sha256Text(a.envelopeSha)
    && (match a.external
        case Unbound => r.unbound && r.system.None? && r.id.None? && r.state.None? && r.observedAt.None?
        case BoundTo(system, id, state, at) =>
          && !r.unbound && (r.system, r.id, r.state, r.observedAt) == (Some(system), Some(id), Some(state), Some(at))
          && Trimmed(system) && Trimmed(id) && Trimmed(state) && Trimmed(at))
  }

  lemma AskedIff(r: Request, a: Activity)
    ensures ActivityOf(r) == Some(a) <==> Asks(r, a)
  {
    var texts := [a.activityId, a.runId, a.taskId, a.workerId, a.taskSha, a.planSha, a.envelopeSha];
    assert texts[0] == a.activityId && texts[1] == a.runId && texts[2] == a.taskId && texts[3] == a.workerId;
    assert texts[4] == a.taskSha && texts[5] == a.planSha && texts[6] == a.envelopeSha;
  }

  /** Evidence the observation gave: none for an unbound activity, otherwise of the same external
      object, in a live state, seen at another time than the binding names. */
  predicate Observes(a: Activity, e: Evidence) {
    match e
    case NoAdapter => a.external.Unbound?
    case Observed(system, id, state, at) =>
      && a.external.BoundTo? && system == a.external.system && id == a.external.id
      && state in {"running", "succeeded"} && at != a.external.observedAt
  }

  lemma FreshIsObserved(a: Activity, e: Evidence)
    requires FreshEvidence(a, e)
    ensures Observes(a, e)
  {
  }

  /* ---- preservation ---- */

  /** A commit that records had the run active, matching and current, and the id unused. */
  lemma RecordedMeans(s: State, l: Label)
    requires OutcomeOf(s, l).Recorded?
    ensures var p := OutcomeOf(s, l).payload;
      && l.Commit? && l.call in s.calls && s.calls[l.call] == Holding(p.activity, p.evidence) && p.heartbeatAt == l.now && Trimmed(l.now)
      && Admits(s, p.activity) && Lookup(s.events, p.activity.activityId).Missing?
  {
  }

  lemma EventsChange(s: State, l: Label)
    ensures var t := Step(s, l);
      || t.events == s.events
      || (l.Append? && t.events == s.events + [l.event] && l.event.activityId.None?)
      || (OutcomeOf(s, l).Recorded? && var p := OutcomeOf(s, l).payload;
          t.events == s.events + [Event(Some(p.activity.runId), true, 1, Some(p.activity.activityId), Encode(p))])
  {
  }

  function EventOf(p: Payload): Event {
    Event(Some(p.activity.runId), true, 1, Some(p.activity.activityId), Encode(p))
  }

  /** What a recording commit appends is a payload the reader accepts. */
  lemma RecordedWrites(s: State, l: Label)
    requires Inv(s) && OutcomeOf(s, l).Recorded?
    ensures var p := OutcomeOf(s, l).payload;
      Writable(p) && Writes(EventOf(p), p) && Step(s, l).events == s.events + [EventOf(p)]
  {
    RecordedMeans(s, l);
    assert CallSound(s.calls[l.call]);
  }

  lemma EventsKept(s: State, l: Label)
    requires Inv(s)
    ensures var t := Step(s, l); (forall i :: 0 <= i < |t.events| ==> Sound(t.events[i])) && Unique(t.events)
  {
    EventsChange(s, l);
    if OutcomeOf(s, l).Recorded? {
      RecordedMeans(s, l);
      RecordedWrites(s, l);
      LookupSound(s, OutcomeOf(s, l).payload.activity.activityId);
      AppendKeeps(s.events, EventOf(OutcomeOf(s, l).payload));
    } else if l.Append? && l.event.activityId.None? {
      AppendKeeps(s.events, l.event);
    }
  }

  lemma AppendKeeps(events: seq<Event>, e: Event)
    requires (forall i :: 0 <= i < |events| ==> Sound(events[i])) && Unique(events)
    requires e.activityId.None? || (Sound(e) && forall i :: 0 <= i < |events| ==> events[i].activityId != e.activityId)
    ensures (forall i :: 0 <= i < |events + [e]| ==> Sound((events + [e])[i])) && Unique(events + [e])
  {
  }

  lemma CallChange(s: State, l: Label, c: nat)
    requires c in Step(s, l).calls
    ensures var after := Step(s, l).calls[c];
      || (c in s.calls && s.calls[c] == after)
      || (after.Waiting? && GoodActivity(after.activity))
      || (after.Holding? && c in s.calls && s.calls[c] == Waiting(after.activity) && FreshEvidence(after.activity, after.evidence))
  {
  }

  lemma CallsKept(s: State, l: Label)
    requires Inv(s)
    ensures forall c :: c in Step(s, l).calls ==> CallSound(Step(s, l).calls[c])
  {
    forall c | c in Step(s, l).calls ensures CallSound(Step(s, l).calls[c]) {
      CallChange(s, l, c);
      if c in s.calls { assert CallSound(s.calls[c]); }
    }
  }

  lemma {:induction false} InvAlways(s0: State, ls: seq<Label>, n: nat)
    requires Initial(s0) && n <= |ls|
    ensures Inv(StateAt(s0, ls, n))
  {
    if n > 0 {
      InvAlways(s0, ls, n - 1);
      EventsKept(StateAt(s0, ls, n - 1), ls[n - 1]);
      CallsKept(StateAt(s0, ls, n - 1), ls[n - 1]);
    }
  }

  /* ---- theorems ---- */

  /** Each activity id gets at most one event, whatever the callers do. */
  lemma OneEventPerActivity(s0: State, ls: seq<Label>, i: nat, j: nat)
    requires Initial(s0)
    requires i < |StateAt(s0, ls, |ls|).events| && j < |StateAt(s0, ls, |ls|).events|
    requires StateAt(s0, ls, |ls|).events[i].activityId.Some?
    requires StateAt(s0, ls, |ls|).events[i].activityId == StateAt(s0, ls, |ls|).events[j].activityId
    ensures i == j
  {
    InvAlways(s0, ls, |ls|);
  }

  /** Successive states of a run. */
  ghost predicate Steps(states: seq<State>, ls: seq<Label>) {
    |states| == |ls| + 1 && forall i :: 0 <= i < |ls| ==> StepAt(states, ls, i)
  }

  ghost predicate StepAt(states: seq<State>, ls: seq<Label>, i: nat)
    requires |states| == |ls| + 1 && i < |ls|
  {
    states[i + 1] == Step(states[i], ls[i])
  }

  lemma Trace(s0: State, ls: seq<Label>) returns (states: seq<State>)
    ensures Steps(states, ls) && forall i :: 0 <= i <= |ls| ==> states[i] == StateAt(s0, ls, i)
  {
    states := seq(|ls| + 1, i requires 0 <= i <= |ls| => StateAt(s0, ls, i));
  }

  /** The label appends `e` as event number `i`. */
  ghost predicate Appends(s: State, l: Label, i: nat, e: Event) {
    |s.events| <= i < |Step(s, l).events| && Step(s, l).events[i] == e
  }

  lemma StepKeepsEvents(s: State, l: Label)
    ensures s.events <= Step(s, l).events
  {
    EventsChange(s, l);
  }

  lemma {:induction false} AppendedIn(states: seq<State>, ls: seq<Label>, n: nat, i: nat) returns (k: nat)
    requires Steps(states, ls) && n <= |ls| && |states[0].events| <= i < |states[n].events|
    ensures k < n && Appends(states[k], ls[k], i, states[n].events[i])
  {
    k := n - 1;
    assert StepAt(states, ls, k);
    StepKeepsEvents(states[k], ls[k]);
    if i < |states[k].events| { k := AppendedIn(states, ls, n - 1, i); }
  }

  lemma AppendsAdmitted(s: State, l: Label, i: nat, e: Event) returns (p: Payload)
    requires Inv(s) && Appends(s, l, i, e) && e.activityId.Some?
    ensures OutcomeOf(s, l) == Recorded(p) && |s.events| == i && Writes(e, p) && Admits(s, p.activity)
  {
    EventsChange(s, l);
    p := OutcomeOf(s, l).payload;
    RecordedMeans(s, l);
    RecordedWrites(s, l);
  }

  /** The events of the start stay where they are, without activity ids. */
  lemma {:induction false} FirstEventsStay(states: seq<State>, ls: seq<Label>, n: nat)
    requires Steps(states, ls) && n <= |ls|
    ensures states[0].events <= states[n].events
  {
    if n > 0 {
      FirstEventsStay(states, ls, n - 1);
      assert StepAt(states, ls, n - 1);
      StepKeepsEvents(states[n - 1], ls[n - 1]);
    }
  }

  /** Every bound event was appended by a commit, in a state where its run was active, matched the
      whole binding of the event, and was current in the registry. */
  lemma EventsWereAdmitted(s0: State, ls: seq<Label>, n: nat, i: nat) returns (k: nat, p: Payload)
    requires Initial(s0) && n <= |ls| && i < |StateAt(s0, ls, n).events| && StateAt(s0, ls, n).events[i].activityId.Some?
    ensures k < n && OutcomeOf(StateAt(s0, ls, k), ls[k]) == Recorded(p) && |StateAt(s0, ls, k).events| == i
    ensures Writes(StateAt(s0, ls, n).events[i], p) && Observes(p.activity, p.evidence)
    ensures RunsUnder(StateAt(s0, ls, k), p.activity) && p.activity.workerId in StateAt(s0, ls, k).workers
  {
    var states := Trace(s0, ls);
    assert states[0] == s0;
    FirstEventsStay(states, ls, n);
    k := AppendedIn(states, ls, n, i);
    InvAlways(s0, ls, k);
    p := AppendsAdmitted(states[k], ls[k], i, states[n].events[i]);
    RecordedIff(states[k], ls[k], p);
    FreshIsObserved(p.activity, p.evidence);
  }

  lemma {:induction false} EventsAfter(s0: State, ls: seq<Label>, k: nat, n: nat)
    requires k < n <= |ls|
    ensures Step(StateAt(s0, ls, k), ls[k]).events <= StateAt(s0, ls, n).events
  {
    if n > k + 1 {
      EventsAfter(s0, ls, k, n - 1);
      EventsChange(StateAt(s0, ls, n - 1), ls[n - 1]);
    }
  }

  lemma FoundLater(s: State, l: Label, t: State)
    requires Inv(s) && Inv(t) && OutcomeOf(s, l).Recorded? && Step(s, l).events <= t.events
    ensures Lookup(t.events, OutcomeOf(s, l).payload.activity.activityId) == Found(OutcomeOf(s, l).payload)
  {
    RecordedWrites(s, l);
    LookupFinds(t, |s.events|, OutcomeOf(s, l).payload);
  }

  lemma RecordedIsFound(s0: State, ls: seq<Label>, k: nat, n: nat)
    requires Initial(s0) && k < n <= |ls| && OutcomeOf(StateAt(s0, ls, k), ls[k]).Recorded?
    ensures var p := OutcomeOf(StateAt(s0, ls, k), ls[k]).payload;
      Lookup(StateAt(s0, ls, n).events, p.activity.activityId) == Found(p)
  {
    InvAlways(s0, ls, k);
    InvAlways(s0, ls, n);
    EventsAfter(s0, ls, k, n);
    FoundLater(StateAt(s0, ls, k), ls[k], StateAt(s0, ls, n));
  }

  /** What a label asks for. */
  function Asked(s: State, l: Label): Option<Activity> {
    match l
    case Begin(_, r) => ActivityOf(r)
    case Commit(c, _) => if c in s.calls && s.calls[c].Holding? then Some(s.calls[c].activity) else None
    case _ => None
  }

  /** With an event under its id, an activity is replayed if and only if it is the recorded one and
      its run is active under it; otherwise it is refused. */
  lemma ReplayedIff(s: State, a: Activity, p: Payload)
    requires Lookup(s.events, a.activityId) == Found(p)
    ensures Examine(s, a) == if a == p.activity && RunsUnder(s, a) then Replayed(p) else Refused
  {
    AdmitsIff(s, a);
  }

  /** Once a call has recorded an activity id, every later call or second phase with that id
      replays exactly the recorded payload or is refused; with another binding it is refused,
      and in no case does it change a run, a worker or an event. */
  lemma RecordedOnceThenReplayed(s0: State, ls: seq<Label>, k: nat, n: nat)
    requires Initial(s0) && k < n < |ls| && OutcomeOf(StateAt(s0, ls, k), ls[k]).Recorded?
    requires Asked(StateAt(s0, ls, n), ls[n]).Some?
    requires Asked(StateAt(s0, ls, n), ls[n]).value.activityId == OutcomeOf(StateAt(s0, ls, k), ls[k]).payload.activity.activityId
    ensures var p, s, a := OutcomeOf(StateAt(s0, ls, k), ls[k]).payload, StateAt(s0, ls, n), Asked(StateAt(s0, ls, n), ls[n]).value;
      && OutcomeOf(s, ls[n]) in {Refused, Replayed(p)}
      && (a != p.activity ==> OutcomeOf(s, ls[n]).Refused?)
      && (a == p.activity && RunsUnder(s, a) && (ls[n].Commit? ==> Trimmed(ls[n].now)) <==> OutcomeOf(s, ls[n]) == Replayed(p))
      && Step(s, ls[n]).runs == s.runs && Step(s, ls[n]).workers == s.workers && Step(s, ls[n]).events == s.events
  {
    RecordedIsFound(s0, ls, k, n);
    ReplayedIff(StateAt(s0, ls, n), Asked(StateAt(s0, ls, n), ls[n]).value, OutcomeOf(StateAt(s0, ls, k), ls[k]).payload);
  }

  /* ---- writer and reader over time ---- */

  lemma {:induction false} LastHeartbeatStays(events: seq<Event>, more: seq<Event>, runId: string)
    requires events <= more
    requires forall i :: |events| <= i < |more| ==> !(more[i].runId == Some(runId) && more[i].heartbeat)
    ensures LastHeartbeat(more, runId) == LastHeartbeat(events, runId)
  {
    if events != more {
      var n := |more| - 1;
      assert events <= more[..n];
      LastHeartbeatStays(events, more[..n], runId);
    }
  }

  /** No heartbeat event of the run was appended between the two journals. */
  ghost predicate NoLaterHeartbeat(events: seq<Event>, more: seq<Event>, runId: string) {
    forall i :: |events| <= i < |more| ==> !(more[i].runId == Some(runId) && more[i].heartbeat)
  }

  lemma ProjectionLater(s: State, l: Label, t: State)
    requires Inv(s) && OutcomeOf(s, l).Recorded? && Step(s, l).events <= t.events
    requires OutcomeOf(s, l).payload.activity.runId in t.runs
    requires NoLaterHeartbeat(Step(s, l).events, t.events, OutcomeOf(s, l).payload.activity.runId)
    ensures var p := OutcomeOf(s, l).payload; var row := t.runs[p.activity.runId];
      Project(t.events, p.activity.runId, row)
      == if Matches(row, p.activity) && row.heartbeatAt == p.heartbeatAt
         then ValidBoundActivity(p.activity.activityId) else RebindRequired
  {
    var p := OutcomeOf(s, l).payload;
    RecordedWrites(s, l);
    LastHeartbeatStays(Step(s, l).events, t.events, p.activity.runId);
    ProjectionOf(t.events, p, t.runs[p.activity.runId]);
  }

  /** After a recorded heartbeat and until the next heartbeat event of the run, the projection is
      the bound activity exactly as long as the run row still matches the binding and carries the
      recorded heartbeat time; otherwise it requires a rebind. It is never normal. */
  lemma ProjectionFollowsRun(s0: State, ls: seq<Label>, k: nat, n: nat)
    requires Initial(s0) && k < n <= |ls| && OutcomeOf(StateAt(s0, ls, k), ls[k]).Recorded?
    requires OutcomeOf(StateAt(s0, ls, k), ls[k]).payload.activity.runId in StateAt(s0, ls, n).runs
    requires NoLaterHeartbeat(StateAt(s0, ls, k + 1).events, StateAt(s0, ls, n).events,
                              OutcomeOf(StateAt(s0, ls, k), ls[k]).payload.activity.runId)
    ensures var p, s := OutcomeOf(StateAt(s0, ls, k), ls[k]).payload, StateAt(s0, ls, n);
      var row := s.runs[p.activity.runId];
      Project(s.events, p.activity.runId, row)
      == if Describes(row, p.activity) && row.heartbeatAt == p.heartbeatAt
         then ValidBoundActivity(p.activity.activityId) else RebindRequired
  {
    InvAlways(s0, ls, k);
    EventsAfter(s0, ls, k, n);
    ProjectionLater(StateAt(s0, ls, k), ls[k], StateAt(s0, ls, n));
    var p, s := OutcomeOf(StateAt(s0, ls, k), ls[k]).payload, StateAt(s0, ls, n);
    MatchesIff(s.runs[p.activity.runId], p.activity);
  }

  lemma ProjectionOf(events: seq<Event>, p: Payload, row: Row)
    requires Writable(p) && LastHeartbeat(events, p.activity.runId) == Some(EventOf(p))
    ensures Project(events, p.activity.runId, row)
         == if Matches(row, p.activity) && row.heartbeatAt == p.heartbeatAt
            then ValidBoundActivity(p.activity.activityId) else RebindRequired
  {
    PayloadRoundTrip(p);
  }

  /** The rows after a recording: only heartbeat times changed, to the recorded one. */
  lemma RecordedRows(s: State, l: Label)
    requires OutcomeOf(s, l).Recorded?
    ensures var p, t := OutcomeOf(s, l).payload, Step(s, l);
      && p.activity.runId in s.runs
      && t.runs == s.runs[p.activity.runId := s.runs[p.activity.runId].(heartbeatAt := p.heartbeatAt)]
      && t.workers == s.workers[p.activity.workerId := p.heartbeatAt]
      && Describes(t.runs[p.activity.runId], p.activity)
  {
    RecordedIff(s, l, OutcomeOf(s, l).payload);
  }

  /** Right after it is recorded, a heartbeat projects as valid. */
  lemma RecordedProjectsValid(s0: State, ls: seq<Label>, k: nat)
    requires Initial(s0) && k < |ls| && OutcomeOf(StateAt(s0, ls, k), ls[k]).Recorded?
    ensures var p, s := OutcomeOf(StateAt(s0, ls, k), ls[k]).payload, StateAt(s0, ls, k + 1);
      && p.activity.runId in s.runs && s.runs[p.activity.runId].heartbeatAt == p.heartbeatAt
      && p.activity.workerId in s.workers && s.workers[p.activity.workerId] == p.heartbeatAt
      && Project(s.events, p.activity.runId, s.runs[p.activity.runId]) == ValidBoundActivity(p.activity.activityId)
  {
    InvAlways(s0, ls, k);
    RecordedIsValid(StateAt(s0, ls, k), ls[k]);
  }

  lemma RecordedIsValid(s: State, l: Label)
    requires Inv(s) && OutcomeOf(s, l).Recorded?
    ensures var p, t := OutcomeOf(s, l).payload, Step(s, l);
      && p.activity.runId in t.runs && t.runs[p.activity.runId].heartbeatAt == p.heartbeatAt
      && p.activity.workerId in t.workers && t.workers[p.activity.workerId] == p.heartbeatAt
      && Project(t.events, p.activity.runId, t.runs[p.activity.runId]) == ValidBoundActivity(p.activity.activityId)
  {
    var p, t := OutcomeOf(s, l).payload, Step(s, l);
    RecordedRows(s, l);
    MatchesIff(t.runs[p.activity.runId], p.activity);
    ProjectionLater(s, l, t);
  }

  predicate Beats(e: Event, runId: string) { e.heartbeat && e.runId == Some(runId) }

  /** Event `i` is the run's latest heartbeat. */
  ghost predicate LatestAt(events: seq<Event>, runId: string, i: nat) {
    i < |events| && Beats(events[i], runId) && forall j :: i < j < |events| ==> !Beats(events[j], runId)
  }

  lemma {:induction false} LatestIs(events: seq<Event>, runId: string)
    ensures var e := LastHeartbeat(events, runId);
      && (e.None? ==> forall i :: 0 <= i < |events| ==> !Beats(events[i], runId))
      && (e.Some? ==> exists i: nat :: LatestAt(events, runId, i) && events[i] == e.value)
  {
    if events != [] {
      var n := |events| - 1;
      if Beats(events[n], runId) {
        assert LatestAt(events, runId, n);
      } else {
        LatestIs(events[..n], runId);
        if LastHeartbeat(events[..n], runId).Some? {
          var i: nat :| LatestAt(events[..n], runId, i) && events[..n][i] == LastHeartbeat(events[..n], runId).value;
          assert LatestAt(events, runId, i);
        }
      }
    }
  }

  /** The projection is normal if and only if the run's latest heartbeat, if it has one, carries no
      activity id and does not pretend to be a bound activity. */
  lemma NormalIff(events: seq<Event>, runId: string, row: Row)
    ensures Project(events, runId, row).Normal?
       <==> forall i: nat :: LatestAt(events, runId, i) ==> events[i].activityId.None? && !Is(events[i].payload, FKind, KIND)
  {
    LatestIs(events, runId);
    if LastHeartbeat(events, runId).Some? {
      var i: nat :| LatestAt(events, runId, i) && events[i] == LastHeartbeat(events, runId).value;
      forall j: nat | LatestAt(events, runId, j) ensures j == i { }
    }
  }
}
