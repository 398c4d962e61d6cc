/** The bound-activity heartbeat of src/bureau/bound_activity.py as a state machine: callers
    check, observe, and re-check and commit in one transaction, while runs, workers, the registry
    and other events change freely in between. */
module BoundActivity {
  import opened Prelude
  import opened JsonValues
  import opened ActivityCodec

  /** The arguments of one call. */
  datatype Request = Request(
    activityId: string, runId: string, taskId: string, workerId: string, taskSha: string, planSha: string, envelopeSha: string,
    unbound: bool, system: Option<string>, id: Option<string>, state: Option<string>, observedAt: Option<string>)

  datatype Envelope = Envelope(runId: string, taskId: string, workerId: string, taskSha: string, planSha: string)

  /** A run row. `envelope` is None when the stored text is no valid envelope, and
      `envelopeDigest` is the digest of what is stored. */
  datatype Row = Row(
    state: string, taskId: string, workerId: string, taskSha: string, planSha: string, envelopeSha: string,
    system: Option<string>, id: Option<string>, externalState: Option<string>, observedAt: Option<string>,
    heartbeatAt: string, envelope: Option<Envelope>, envelopeDigest: string)

  datatype Event = Event(runId: Option<string>, heartbeat: bool, version: int, activityId: Option<string>, payload: Doc)

  /** A registered task: its digest and that of its initiative's plan. */
  datatype TaskRevision = TaskRevision(taskSha: string, planSha: string)

  datatype Call = Waiting(activity: Activity) | Holding(activity: Activity, evidence: Evidence)

  datatype State = State(
    runs: map<string, Row>, workers: map<string, string>, events: seq<Event>,
    registry: map<string, TaskRevision>, calls: map<nat, Call>)

  datatype Label =
    | Begin(call: nat, request: Request)
    | Observe(call: nat, state: Option<string>, at: string)
    | Commit(call: nat, now: string)
    | SetRun(runId: string, row: Option<Row>)
    | SetWorkers(workers: map<string, string>)
    | SetRegistry(registry: map<string, TaskRevision>)
    | Append(event: Event)

  datatype Outcome = Refused | Proceeds | Recorded(payload: Payload) | Replayed(payload: Payload)

  /* ---- checks ---- */

  /** `_external_snapshot`: all four fields, or none together with the unbound flag. */
  function Snapshot(r: Request): Option<External> {
    if r.unbound then
      if r.system.None? && r.id.None? && r.state.None? && r.observedAt.None? then Some(Unbound) else None
    else if r.system.Some? && r.id.Some? && r.state.Some? && r.observedAt.Some?
    then Some(BoundTo(r.system.value, r.id.value, r.state.value, r.observedAt.value))
    else None
  }

  /** `_activity_request`. */
  function ActivityOf(r: Request): (a: Option<Activity>)
    ensures a.Some? ==> GoodActivity(a.value)
  {
    match Snapshot(r)
    case None => None
    case Some(x) =>
      var a := Activity(r.activityId, r.runId, r.taskId, r.workerId, r.taskSha, r.planSha, r.envelopeSha, x);
      if GoodActivity(a) then Some(a) else None
  }

  predicate ActiveState(s: string) { s == "assigned" || s == "running" || s == "verifying" }

  /** `_binding_mismatches` is empty. */
  predicate Matches(row: Row, a: Activity) {
    && row.taskId == a.taskId && row.workerId == a.workerId && row.taskSha == a.taskSha
    && row.planSha == a.planSha && row.envelopeSha == a.envelopeSha
    && match a.external
       case Unbound => row.system.None? && row.id.None? && row.externalState.None? && row.observedAt.None?
       case BoundTo(system, id, state, at) =>
         row.system == Some(system) && row.id == Some(id) && row.externalState == Some(state) && row.observedAt == Some(at)
  }

  /** `_require_current_run_revision`: registry and stored envelope still say what the run says. */
  predicate Current(s: State, runId: string, row: Row) {
    && row.taskId in s.registry && s.registry[row.taskId] == TaskRevision(row.taskSha, row.planSha)
    && row.envelope == Some(Envelope(runId, row.taskId, row.workerId, row.taskSha, row.planSha))
    && row.envelopeDigest == row.envelopeSha
  }

  /** `_require_bound_activity_run`. */
  predicate Admits(s: State, a: Activity) {
    && a.runId in s.runs && ActiveState(s.runs[a.runId].state)
    && Matches(s.runs[a.runId], a) && Current(s, a.runId, s.runs[a.runId])
  }

  /* ---- replay ---- */

  function Having(events: seq<Event>, activityId: string): seq<Event> {
    if events == [] then []
    else Having(events[..|events| - 1], activityId)
         + if events[|events| - 1].activityId == Some(activityId) then [events[|events| - 1]] else []
  }

  /** What the index holds under an activity id: nothing, one readable event, or trouble. */
  datatype Indexed = Missing | Broken | Found(payload: Payload)

  /** `_indexed_activity`. */
  function Lookup(events: seq<Event>, activityId: string): Indexed {
    var rows := Having(events, activityId);
    if rows == [] then Missing
    else if |rows| > 1 || !rows[0].heartbeat || rows[0].runId.None? then Broken
    else match Validated(rows[0].payload, rows[0].version, rows[0].runId.value, activityId)
         case None => Broken
         case Some(p) => Found(p)
  }

  /** Checks and exact replay, as in both phases of a call. */
  function Examine(s: State, a: Activity): Outcome {
    if !Admits(s, a) then Refused
    else match Lookup(s.events, a.activityId)
         case Missing => Proceeds
         case Broken => Refused
         case Found(p) => if p.activity == a then Replayed(p) else Refused
  }

  /* ---- steps ---- */

  function OutcomeOf(s: State, l: Label): Outcome {
    match l
    case Begin(_, r) => if ActivityOf(r).Some? then Examine(s, ActivityOf(r).value) else Refused
    case Commit(c, now) =>
      if c !in s.calls || !s.calls[c].Holding? || !Trimmed(now) then Refused
      else var a := s.calls[c].activity;
           var o := Examine(s, a);
           if !o.Proceeds? then o
           else if a.workerId !in s.workers then Refused
           else Recorded(Payload(a, s.calls[c].evidence, now))
    case _ => Refused
  }

  function RecordedState(s: State, p: Payload): State
    requires p.activity.runId in s.runs
  {
    var a := p.activity;
    s.(runs := s.runs[a.runId := s.runs[a.runId].(heartbeatAt := p.heartbeatAt)],
       workers := s.workers[a.workerId := p.heartbeatAt],
       events := s.events + [Event(Some(a.runId), true, 1, Some(a.activityId), Encode(p))])
  }

  /** The evidence an observation gives, if the external state is live and its time moved on. */
  function Evidenced(a: Activity, state: Option<string>, at: string): Option<Evidence> {
    match a.external
    case Unbound => Some(NoAdapter)
    case BoundTo(system, id, _, observedAt) =>
      if state.Some? && LiveState(state.value) && Trimmed(at) && at != observedAt
      then Some(Observed(system, id, state.value, at)) else None
  }

  function Step(s: State, l: Label): State {
    match l
    case Begin(c, r) =>
      if OutcomeOf(s, l).Proceeds? then s.(calls := s.calls[c := Waiting(ActivityOf(r).value)]) else s.(calls := s.calls - {c})
    case Observe(c, state, at) =>
      if c !in s.calls || !s.calls[c].Waiting? then s
      else (match Evidenced(s.calls[c].activity, state, at)
            case None => s.(calls := s.calls - {c})
            case Some(e) => s.(calls := s.calls[c := Holding(s.calls[c].activity, e)]))
    case Commit(c, now) =>
      var t := s.(calls := s.calls - {c});
      var o := OutcomeOf(s, l);
      if o.Recorded? && o.payload.activity.runId in s.runs then RecordedState(t, o.payload) else t
    case SetRun(id, row) => s.(runs := if row.Some? then s.runs[id := row.value] else s.runs - {id})
    case SetWorkers(w) => s.(workers := w)
    case SetRegistry(r) => s.(registry := r)
    case Append(e) => if e.activityId.None? then s.(events := s.events + [e]) else s
  }

  /** The state after the first n labels. */
  function StateAt(s0: State, ls: seq<Label>, n: nat): State
    requires n <= |ls|
  {
    if n == 0 then s0 else Step(StateAt(s0, ls, n - 1), ls[n - 1])
  }

  /* ---- the reader ---- */

  datatype Projection = Normal | ValidBoundActivity(activityId: string) | RebindRequired

  function LastHeartbeat(events: seq<Event>, runId: string): Option<Event> {
    if events == [] then None
    else var e := events[|events| - 1];
         if e.runId == Some(runId) && e.heartbeat then Some(e) else LastHeartbeat(events[..|events| - 1], runId)
  }

  /** `_heartbeat_projection_from_row`. */
  function Project(events: seq<Event>, runId: string, row: Row): Projection {
    match LastHeartbeat(events, runId)
    case None => Normal
    case Some(e) =>
      match e.activityId
      case None => if Is(e.payload, FKind, KIND) then RebindRequired else Normal
      case Some(activityId) =>
        match Validated(e.payload, e.version, runId, activityId)
        case None => RebindRequired
        case Some(p) =>
          if Matches(row, p.activity) && p.heartbeatAt == row.heartbeatAt then ValidBoundActivity(activityId) else RebindRequired
  }
}
