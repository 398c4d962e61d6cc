/** Approval of effects (src/bureau/approval.py). */
module Approval {
  import opened Prelude

  datatype Action =
    | RepositoryMutation | SourceImport | AgentDispatch | TaskCreation | QueueMutation | RegistryMutation
    | WorktreeCleanup | StateRootMigration | RuntimeMutation
    | ReadOnly(name: string)
    | UnknownAction(name: string)

  datatype Level = Operator | ReviewedReceipt | ReviewedPlan | BreakGlass | OtherLevel(name: string)

  /** A required level as it is reported and declared. */
  datatype Required = Needs(level: Level) | NoLevel | UnknownLevel | MultiEffect | OtherText(text: string)

  datatype ScopeItem = WholeTask | OneAction(action: Action) | OtherScope(text: string)

  datatype Evidence = Evidence(level: Level, approved: bool, reference: Option<string>, taskId: Option<string>, scope: seq<ScopeItem>)

  /** What the caller expects of the evidence. */
  datatype Demand = Demand(reference: Option<string>, taskId: Option<string>)

  predicate Effectful(a: Action) { !a.ReadOnly? }

  /** The required level of the rule for an action; unknown actions have no rule. */
  function RuleLevel(a: Action): Option<Level> {
    match a
    case RepositoryMutation => Some(Operator)
    case SourceImport => Some(ReviewedReceipt)
    case AgentDispatch => Some(Operator)
    case TaskCreation => Some(Operator)
    case QueueMutation => Some(ReviewedPlan)
    case RegistryMutation => Some(ReviewedPlan)
    case WorktreeCleanup => Some(ReviewedPlan)
    case StateRootMigration => Some(ReviewedPlan)
    case RuntimeMutation => Some(Operator)
    case _ => None
  }

  predicate Accepts(a: Action, l: Level) { RuleLevel(a).Some? && (l == RuleLevel(a).value || l.BreakGlass?) }

  function Levels(actions: seq<Action>): set<Level> {
    set a | a in actions && Effectful(a) && RuleLevel(a).Some? :: RuleLevel(a).value
  }

  /** `_required_level` of the effectful actions. */
  function RequiredLevel(actions: seq<Action>): Required {
    if !(exists a :: a in actions && Effectful(a)) then NoLevel
    else if Levels(actions) == {} then UnknownLevel
    else if |Levels(actions)| == 1 then Singleton(Levels(actions)); var l :| l in Levels(actions) && Levels(actions) == {l}; Needs(l)
    else if BreakGlass in Levels(actions) then Needs(BreakGlass)
    else MultiEffect
  }

  predicate Covers(e: Evidence, actions: seq<Action>) {
    e.scope == [] || WholeTask in e.scope || forall a :: a in actions && Effectful(a) ==> OneAction(a) in e.scope
  }

  /** The override leaves the accepted levels alone, narrows them to break-glass, or empties them. */
  predicate LevelAccepted(actions: seq<Action>, l: Level, override: Option<Required>) {
    && (forall a :: a in actions && Effectful(a) ==> Accepts(a, l))
    && (override.None? || override.value == RequiredLevel(actions) || (override.value == Needs(BreakGlass) && l.BreakGlass?))
  }

  predicate Demanded(e: Evidence, d: Demand) {
    (d.reference.Some? ==> e.reference == d.reference) && (d.taskId.Some? ==> e.taskId == d.taskId)
  }

  /** `approval_decision_for_effects`: whether the effects are allowed. */
  predicate Allowed(actions: seq<Action>, e: Option<Evidence>, d: Demand, override: Option<Required>) {
    if forall a :: a in actions ==> a.ReadOnly? then true
    else if exists a :: a in actions && a.UnknownAction? then false
    else e.Some? && e.value.approved && LevelAccepted(actions, e.value.level, override) && Demanded(e.value, d) && Covers(e.value, actions)
  }

  /** Without an override, evidence allows two effect lists together exactly when it allows each. */
  lemma UnionComposes(xs: seq<Action>, ys: seq<Action>, e: Option<Evidence>, d: Demand)
    ensures Allowed(xs + ys, e, d, None) <==> Allowed(xs, e, d, None) && Allowed(ys, e, d, None)
  {
    assert forall a :: a in xs + ys <==> a in xs || a in ys;
    if Allowed(xs + ys, e, d, None) {
      assert Allowed(xs, e, d, None) && Allowed(ys, e, d, None);
    }
    if Allowed(xs, e, d, None) && Allowed(ys, e, d, None) {
      forall a | a in xs + ys ensures !a.UnknownAction? { assert a in xs || a in ys; }
    }
  }

  /** An override allows exactly what is allowed without it and either is read-only, repeats the
      canonical level, or asks for break-glass and gets it. */
  lemma OverrideNarrows(actions: seq<Action>, e: Option<Evidence>, d: Demand, override: Required)
    ensures Allowed(actions, e, d, Some(override)) <==>
      && Allowed(actions, e, d, None)
      && ((forall a :: a in actions ==> a.ReadOnly?) || override == RequiredLevel(actions)
          || (override == Needs(BreakGlass) && e.Some? && e.value.level.BreakGlass?))
  {
  }

  /** Effects with different required levels are allowed only by break-glass. */
  lemma MixedLevelsNeedBreakGlass(actions: seq<Action>, e: Option<Evidence>, d: Demand, override: Option<Required>, a: Action, b: Action)
    requires a in actions && b in actions && Effectful(a) && Effectful(b) && RuleLevel(a) != RuleLevel(b)
    requires Allowed(actions, e, d, override)
    ensures e.Some? && e.value.level.BreakGlass?
  {
    assert Accepts(a, e.value.level) && Accepts(b, e.value.level);
  }

  /** The same actions in another order or repeated get the same decision. */
  lemma OrderDoesNotMatter(xs: seq<Action>, ys: seq<Action>, e: Option<Evidence>, d: Demand, override: Option<Required>)
    requires forall a :: a in xs <==> a in ys
    ensures Allowed(xs, e, d, override) == Allowed(ys, e, d, override)
  {
    assert Levels(xs) == Levels(ys);
    assert RequiredLevel(xs) == RequiredLevel(ys);
  }

  const BY_OPERATOR := {RepositoryMutation, AgentDispatch, TaskCreation, RuntimeMutation}
  const BY_RECEIPT := {SourceImport}
  const BY_PLAN := {QueueMutation, RegistryMutation, WorktreeCleanup, StateRootMigration}

  /** The effects that evidence of a level can allow; break-glass can allow all of them. */
  function EffectsOf(l: Level): set<Action> {
    match l
    case Operator => BY_OPERATOR
    case ReviewedReceipt => BY_RECEIPT
    case ReviewedPlan => BY_PLAN
    case BreakGlass => BY_OPERATOR + BY_RECEIPT + BY_PLAN
    case OtherLevel(_) => {}
  }

  /** Without an override: effects beyond reading are allowed if and only if approved evidence with the
      demanded reference and task is of a level that can allow each of them, and its scope is open, the
      whole task, or names each of them. An unknown effect is never allowed. */
  lemma AllowedIff(actions: seq<Action>, e: Option<Evidence>, d: Demand)
    ensures Allowed(actions, e, d, None) <==> (
      || (forall a :: a in actions ==> a.ReadOnly?)
      || (&& e.Some? && e.value.approved
          && (d.reference.None? || e.value.reference == d.reference) && (d.taskId.None? || e.value.taskId == d.taskId)
          && (forall a :: a in actions && !a.ReadOnly? ==> a in EffectsOf(e.value.level))
          && (e.value.scope == [] || WholeTask in e.value.scope || forall a :: a in actions && !a.ReadOnly? ==> OneAction(a) in e.value.scope)))
  {
    if e.Some? {
      forall a | a in actions && !a.ReadOnly? ensures Accepts(a, e.value.level) <==> a in EffectsOf(e.value.level) {
        AcceptsIs(a, e.value.level);
      }
    }
  }

  lemma AcceptsIs(a: Action, l: Level)
    requires Effectful(a)
    ensures Accepts(a, l) <==> a in EffectsOf(l)
  {
  }
}
