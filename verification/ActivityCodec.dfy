/** Bound-activity payloads of src/bureau/bound_activity.py: what the writer stores, and the
    exact-field validator that reads it back. */
module ActivityCodec {
  import opened Prelude
  import opened JsonValues

  datatype External = Unbound | BoundTo(system: string, id: string, state: string, observedAt: string)

  datatype Activity = Activity(
    activityId: string, runId: string, taskId: string, workerId: string,
    taskSha: string, planSha: string, envelopeSha: string, external: External)

  datatype Evidence = NoAdapter | Observed(system: string, id: string, state: string, at: string)

  datatype Payload = Payload(activity: Activity, evidence: Evidence, heartbeatAt: string)

  /* ---- stored documents ---- */

  datatype Field =
    | FKind | FSource | FOutcome | FActivity | FEvidence | FHeartbeat
    | FActivityId | FRunId | FTaskId | FWorkerId | FTaskSha | FPlanSha | FEnvelopeSha | FExternal
    | FStatus | FSystem | FExternalId | FState | FObservedAt | FObservedState | FObserved | FBindingStatus
    | FOther(name: string)

  datatype Doc = Word(s: string) | Record(fields: map<Field, Doc>) | Junk(n: nat)

  predicate HasFields(d: Doc, fs: set<Field>) { d.Record? && d.fields.Keys == fs }

  predicate IsWord(d: Doc, f: Field) { d.Record? && f in d.fields && d.fields[f].Word? }

  function TextAt(d: Doc, f: Field): string
    requires IsWord(d, f)
  { d.fields[f].s }

  predicate Is(d: Doc, f: Field, s: string) { d.Record? && f in d.fields && d.fields[f] == Word(s) }

  const KIND := "bureau.bound_activity_heartbeat"
  const SOURCE := "bound-activity"
  const OUTCOME := "succeeded"
  const ADAPTER := "adapter.observe"
  const EXACT := "exact-run-binding"
  const UNBOUND := "explicitly-unbound"
  const BOUND := "bound"

  /* ---- what may be written ---- */

  predicate Trimmed(s: string) { s != [] && !Space(s[0]) && !Space(s[|s| - 1]) }

  predicate GoodExternal(x: External) {
    x.Unbound? || (Trimmed(x.system) && Trimmed(x.id) && Trimmed(x.state) && Trimmed(x.observedAt))
  }

  predicate GoodDigest(s: string) { Trimmed(s) && Sha256Text(s) }

  /** The requests `_activity_request` accepts. */
  predicate GoodActivity(a: Activity) {
    && Trimmed(a.activityId) && |a.activityId| <= 200 && Trimmed(a.runId) && Trimmed(a.taskId) && Trimmed(a.workerId)
    && GoodDigest(a.taskSha) && GoodDigest(a.planSha) && GoodDigest(a.envelopeSha) && GoodExternal(a.external)
  }

  predicate LiveState(s: string) { s == "running" || s == "succeeded" }

  /** The evidence `_fresh_activity_evidence` can return for this activity. */
  predicate FreshEvidence(a: Activity, e: Evidence) {
    match a.external
    case Unbound => e.NoAdapter?
    case BoundTo(system, id, _, observedAt) =>
      e.Observed? && e.system == system && e.id == id && LiveState(e.state) && Trimmed(e.at) && e.at != observedAt
  }

  predicate Writable(p: Payload) {
    GoodActivity(p.activity) && FreshEvidence(p.activity, p.evidence) && Trimmed(p.heartbeatAt)
  }

  /* ---- writer ---- */

  function EncodeExternal(x: External): Doc {
    match x
    case Unbound => Record(map[FStatus := Word(UNBOUND)])
    case BoundTo(system, id, state, at) =>
      Record(map[FStatus := Word(BOUND), FSystem := Word(system), FExternalId := Word(id), FState := Word(state), FObservedAt := Word(at)])
  }

  function EncodeActivity(a: Activity): Doc {
    Record(map[FActivityId := Word(a.activityId), FRunId := Word(a.runId), FTaskId := Word(a.taskId),
               FWorkerId := Word(a.workerId), FTaskSha := Word(a.taskSha), FPlanSha := Word(a.planSha),
               FEnvelopeSha := Word(a.envelopeSha), FExternal := EncodeExternal(a.external)])
  }

  function EncodeEvidence(e: Evidence): Doc {
    match e
    case NoAdapter => Record(map[FSource := Word(EXACT), FBindingStatus := Word(UNBOUND)])
    case Observed(system, id, state, at) =>
      Record(map[FSource := Word(ADAPTER), FSystem := Word(system), FExternalId := Word(id), FObservedState := Word(state), FObserved := Word(at)])
  }

  function Wrap(activity: Doc, evidence: Doc, heartbeatAt: string): Doc {
    Record(map[FKind := Word(KIND), FSource := Word(SOURCE), FOutcome := Word(OUTCOME),
               FActivity := activity, FEvidence := evidence, FHeartbeat := Word(heartbeatAt)])
  }

  function Encode(p: Payload): Doc {
    Wrap(EncodeActivity(p.activity), EncodeEvidence(p.evidence), p.heartbeatAt)
  }

  /* ---- reader ---- */

  function DecodeExternal(d: Doc): Option<External> {
    if HasFields(d, {FStatus}) && Is(d, FStatus, UNBOUND) then Some(Unbound)
    else if HasFields(d, {FStatus, FSystem, FExternalId, FState, FObservedAt}) && Is(d, FStatus, BOUND)
            && IsWord(d, FSystem) && IsWord(d, FExternalId) && IsWord(d, FState) && IsWord(d, FObservedAt)
    then var x := BoundTo(TextAt(d, FSystem), TextAt(d, FExternalId), TextAt(d, FState), TextAt(d, FObservedAt));
         if GoodExternal(x) then Some(x) else None
    else None
  }

  function DecodeActivity(d: Doc): Option<Activity> {
    if HasFields(d, {FActivityId, FRunId, FTaskId, FWorkerId, FTaskSha, FPlanSha, FEnvelopeSha, FExternal})
       && IsWord(d, FActivityId) && IsWord(d, FRunId) && IsWord(d, FTaskId) && IsWord(d, FWorkerId)
       && IsWord(d, FTaskSha) && IsWord(d, FPlanSha) && IsWord(d, FEnvelopeSha) && DecodeExternal(d.fields[FExternal]).Some?
    then var a := Activity(TextAt(d, FActivityId), TextAt(d, FRunId), TextAt(d, FTaskId), TextAt(d, FWorkerId),
                           TextAt(d, FTaskSha), TextAt(d, FPlanSha), TextAt(d, FEnvelopeSha), DecodeExternal(d.fields[FExternal]).value);
         if GoodActivity(a) then Some(a) else None
    else None
  }

  function DecodeEvidence(a: Activity, d: Doc): Option<Evidence> {
    match a.external
    case Unbound =>
      if HasFields(d, {FSource, FBindingStatus}) && Is(d, FSource, EXACT) && Is(d, FBindingStatus, UNBOUND)
      then Some(NoAdapter) else None
    case BoundTo(system, id, _, observedAt) =>
      if HasFields(d, {FSource, FSystem, FExternalId, FObservedState, FObserved}) && Is(d, FSource, ADAPTER)
         && Is(d, FSystem, system) && Is(d, FExternalId, id) && IsWord(d, FObservedState) && IsWord(d, FObserved)
         && LiveState(TextAt(d, FObservedState)) && Trimmed(TextAt(d, FObserved)) && TextAt(d, FObserved) != observedAt
      then Some(Observed(system, id, TextAt(d, FObservedState), TextAt(d, FObserved))) else None
  }

  predicate Wrapped(d: Doc) {
    && HasFields(d, {FKind, FSource, FOutcome, FActivity, FEvidence, FHeartbeat})
    && Is(d, FKind, KIND) && Is(d, FSource, SOURCE) && Is(d, FOutcome, OUTCOME) && IsWord(d, FHeartbeat)
  }

  /** `_validated_event_payload`. */
  function Validated(d: Doc, version: int, runId: string, activityId: string): Option<Payload> {
    if version == 1 && Wrapped(d) && Trimmed(TextAt(d, FHeartbeat))
    then match DecodeActivity(d.fields[FActivity])
         case None => None
         case Some(a) =>
           if a.runId != runId || a.activityId != activityId then None
           else match DecodeEvidence(a, d.fields[FEvidence])
                case None => None
                case Some(e) => Some(Payload(a, e, TextAt(d, FHeartbeat)))
    else None
  }

  /* ---- writer and reader agree ---- */

  lemma ExternalRoundTrip(x: External)
    requires GoodExternal(x)
    ensures DecodeExternal(EncodeExternal(x)) == Some(x)
  {
    assert EncodeExternal(x).fields.Keys
        == if x.Unbound? then {FStatus} else {FStatus, FSystem, FExternalId, FState, FObservedAt};
  }

  lemma ExternalExact(d: Doc, x: External)
    requires DecodeExternal(d) == Some(x)
    ensures d == EncodeExternal(x) && GoodExternal(x)
  {
    assert d.fields == EncodeExternal(x).fields;
  }

  lemma ActivityRoundTrip(a: Activity)
    requires GoodActivity(a)
    ensures DecodeActivity(EncodeActivity(a)) == Some(a)
  {
    assert EncodeActivity(a).fields.Keys
        == {FActivityId, FRunId, FTaskId, FWorkerId, FTaskSha, FPlanSha, FEnvelopeSha, FExternal};
    ExternalRoundTrip(a.external);
  }

  lemma ActivityExact(d: Doc, a: Activity)
    requires DecodeActivity(d) == Some(a)
    ensures d == EncodeActivity(a) && GoodActivity(a)
  {
    ExternalExact(d.fields[FExternal], a.external);
    assert d.fields == EncodeActivity(a).fields;
  }

  lemma EvidenceRoundTrip(a: Activity, e: Evidence)
    requires FreshEvidence(a, e)
    ensures DecodeEvidence(a, EncodeEvidence(e)) == Some(e)
  {
    assert EncodeEvidence(e).fields.Keys
        == if e.NoAdapter? then {FSource, FBindingStatus} else {FSource, FSystem, FExternalId, FObservedState, FObserved};
  }

  lemma EvidenceExact(a: Activity, d: Doc, e: Evidence)
    requires DecodeEvidence(a, d) == Some(e)
    ensures d == EncodeEvidence(e) && FreshEvidence(a, e)
  {
    assert d.fields == EncodeEvidence(e).fields;
  }

  lemma WrapRoundTrip(a: Doc, e: Doc, h: string)
    ensures Wrapped(Wrap(a, e, h)) && TextAt(Wrap(a, e, h), FHeartbeat) == h
    ensures Wrap(a, e, h).fields[FActivity] == a && Wrap(a, e, h).fields[FEvidence] == e
  {
    assert Wrap(a, e, h).fields.Keys == {FKind, FSource, FOutcome, FActivity, FEvidence, FHeartbeat};
  }

  lemma WrapExact(d: Doc)
    requires Wrapped(d)
    ensures d == Wrap(d.fields[FActivity], d.fields[FEvidence], TextAt(d, FHeartbeat))
  {
    assert d.fields == Wrap(d.fields[FActivity], d.fields[FEvidence], TextAt(d, FHeartbeat)).fields;
  }

  lemma PayloadRoundTrip(p: Payload)
    requires Writable(p)
    ensures Validated(Encode(p), 1, p.activity.runId, p.activity.activityId) == Some(p)
  {
    ActivityRoundTrip(p.activity);
    EvidenceRoundTrip(p.activity, p.evidence);
    ReadWrapped(EncodeActivity(p.activity), EncodeEvidence(p.evidence), p);
  }

  lemma ReadWrapped(a: Doc, e: Doc, p: Payload)
    requires DecodeActivity(a) == Some(p.activity) && DecodeEvidence(p.activity, e) == Some(p.evidence) && Trimmed(p.heartbeatAt)
    ensures Validated(Wrap(a, e, p.heartbeatAt), 1, p.activity.runId, p.activity.activityId) == Some(p)
  {
    WrapRoundTrip(a, e, p.heartbeatAt);
  }

  lemma PayloadExact(d: Doc, version: int, runId: string, activityId: string, p: Payload)
    requires Validated(d, version, runId, activityId) == Some(p)
    ensures version == 1 && d == Encode(p) && Writable(p) && p.activity.runId == runId && p.activity.activityId == activityId
  {
    ActivityExact(d.fields[FActivity], p.activity);
    EvidenceExact(p.activity, d.fields[FEvidence], p.evidence);
    WrapExact(d);
  }

  /** The validator accepts exactly the payloads the writer can store, under the run and activity
      id they were stored for, and reads back exactly what was written. */
  lemma ValidatorExact(d: Doc, version: int, runId: string, activityId: string, p: Payload)
    ensures Validated(d, version, runId, activityId) == Some(p)
       <==> version == 1 && d == Encode(p) && Writable(p) && p.activity.runId == runId && p.activity.activityId == activityId
  {
    if Writable(p) { PayloadRoundTrip(p); }
    if Validated(d, version, runId, activityId) == Some(p) { PayloadExact(d, version, runId, activityId, p); }
  }
}
