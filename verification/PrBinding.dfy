/** Binding of open pull requests to tasks (src/bureau/github_observer.py). */
module PrBinding {
  import opened Prelude

  datatype BindingKind = Unmatched | Ambiguous | RunMarker | TaskMarker | BranchFallback

  datatype Bound = Bound(kind: BindingKind, task: Option<string>, run: Option<string>)

  /** `bind_pull_request`. `runTasks` maps known runs to their tasks; `candidates` are the tasks
      the branch name points to. */
  function Bind(runs: seq<string>, tasks: seq<string>, runTasks: map<string, Option<string>>, candidates: set<string>): Bound {
    if |runs| > 1 || |tasks| > 1 then Bound(Ambiguous, None, None)
    else if |runs| == 1 then
      var known := if runs[0] in runTasks && runTasks[runs[0]].Some? && runTasks[runs[0]].value != "" then runTasks[runs[0]] else None;
      var marked := if tasks != [] then Some(tasks[0]) else None;
      if known.Some? && marked.Some? && known != marked then Bound(Ambiguous, None, Some(runs[0]))
      else Bound(RunMarker, if known.Some? then known else marked, Some(runs[0]))
    else if |tasks| == 1 then Bound(TaskMarker, Some(tasks[0]), None)
    else if |candidates| == 1 then Singleton(candidates); var t :| t in candidates && candidates == {t}; Bound(BranchFallback, Some(t), None)
    else if |candidates| > 1 then Bound(Ambiguous, None, None)
    else Bound(Unmatched, None, None)
  }

  /** A definite binding that names a task got it from the only marker of its kind, from the
      marked run, or from the only branch candidate. */
  lemma BindingHasOneSource(runs: seq<string>, tasks: seq<string>, runTasks: map<string, Option<string>>, candidates: set<string>)
    ensures var b := Bind(runs, tasks, runTasks, candidates);
      && (b.kind.RunMarker? && b.task.Some? ==> |runs| == 1 && (tasks == [b.task.value] || (runs[0] in runTasks && runTasks[runs[0]] == b.task)))
      && (b.kind.TaskMarker? ==> runs == [] && tasks == [b.task.value])
      && (b.kind.BranchFallback? ==> runs == [] && tasks == [] && candidates == {b.task.value})
      && (b.kind.Unmatched? <==> runs == [] && tasks == [] && candidates == {})
  {
    if |tasks| == 1 { assert tasks == [tasks[0]]; }
  }

  /* ---- observations ---- */

  datatype Pr = Pr(number: int, task: Option<string>, kind: BindingKind, excepted: bool)

  /** `claims` is None when it cannot be told whether the task claims the repository. */
  datatype TaskInfo = TaskInfo(terminal: bool, followUp: bool, claims: Option<bool>)

  type Registry = map<string, TaskInfo>

  predicate Named(p: Pr) { p.task.Some? && p.task.value != "" }

  predicate SharedAt(ps: seq<Pr>, i: nat)
    requires i < |ps|
  {
    Named(ps[i]) && exists j :: 0 <= j < |ps| && j != i && ps[j].task == ps[i].task
  }

  function Marked(ps: seq<Pr>): seq<Pr> {
    seq(|ps|, i requires 0 <= i < |ps| => if SharedAt(ps, i) then ps[i].(kind := Ambiguous) else ps[i])
  }

  predicate InGroup(byTask: map<string, seq<nat>>, t: string, k: nat) { t in byTask && k in byTask[t] }

  /** The positions of the pull requests that name a task. */
  ghost predicate Groups(byTask: map<string, seq<nat>>, ps: seq<Pr>, n: nat)
    requires n <= |ps|
  {
    && (forall t, k: nat :: InGroup(byTask, t, k) ==> k < n && ps[k].task == Some(t) && t != "")
    && (forall k :: 0 <= k < n && Named(ps[k]) ==> InGroup(byTask, ps[k].task.value, k))
    && (forall t, i, j :: t in byTask && 0 <= i < j < |byTask[t]| ==> byTask[t][i] != byTask[t][j])
  }

  /** Two entries in a group mean that each of its members is shared. */
  lemma GroupShared(byTask: map<string, seq<nat>>, ps: seq<Pr>, t: string, k: nat)
    requires Groups(byTask, ps, |ps|) && InGroup(byTask, t, k)
    ensures SharedAt(ps, k) <==> |byTask[t]| >= 2
  {
    if |byTask[t]| >= 2 {
      var other := if byTask[t][0] == k then byTask[t][1] else byTask[t][0];
      assert InGroup(byTask, t, other) && other != k;
    }
    if SharedAt(ps, k) {
      var j :| 0 <= j < |ps| && j != k && ps[j].task == ps[k].task;
      assert Named(ps[j]) && InGroup(byTask, t, j);
      var x, y :| 0 <= x < |byTask[t]| && 0 <= y < |byTask[t]| && byTask[t][x] == k && byTask[t][y] == j;
    }
  }

  method GroupByTask(a: array<Pr>) returns (byTask: map<string, seq<nat>>)
    ensures Groups(byTask, a[..], a.Length)
  {
    byTask := map[];
    for i := 0 to a.Length
      invariant Groups(byTask, a[..], i)
    {
      if Named(a[i]) {
        var t := a[i].task.value;
        var before := if t in byTask then byTask[t] else [];
        ghost var was := byTask;
        byTask := byTask[t := before + [i]];
        assert forall u, k: nat :: InGroup(byTask, u, k) <==> InGroup(was, u, k) || (u == t && k == i);
        assert forall k :: k in before ==> InGroup(was, t, k);
      }
    }
  }

  /** `_mark_shared_task_ambiguity`: in place, every pull request whose task another one names too
      becomes ambiguous, and nothing else changes. */
  method MarkSharedTaskAmbiguity(a: array<Pr>)
    modifies a
    ensures a[..] == Marked(old(a[..]))
  {
    ghost var ps := a[..];
    var byTask := GroupByTask(a);
    for i := 0 to a.Length
      invariant forall k :: 0 <= k < i ==> a[k] == Marked(ps)[k]
      invariant forall k :: i <= k < a.Length ==> a[k] == ps[k]
    {
      if Named(a[i]) {
        GroupShared(byTask, ps, a[i].task.value, i);
        if |byTask[a[i].task.value]| >= 2 { a[i] := a[i].(kind := Ambiguous); }
      }
    }
  }

  /* ---- findings ---- */

  datatype Code = MissingBinding | AmbiguousBinding | InvalidBinding | WrongRepository | TerminalTask

  datatype Finding = Finding(number: int, code: Code)

  function FindingsFor(p: Pr, registry: Option<Registry>): seq<Finding> {
    if p.excepted then []
    else if p.kind.Unmatched? then [Finding(p.number, MissingBinding)]
    else if p.kind.Ambiguous? then [Finding(p.number, AmbiguousBinding)]
    else if !Named(p) then [Finding(p.number, MissingBinding)]
    else if registry.None? then []
    else if p.task.value !in registry.value then [Finding(p.number, InvalidBinding)]
    else
      var t := registry.value[p.task.value];
      (if t.claims == Some(false) then [Finding(p.number, WrongRepository)] else [])
      + (if t.terminal && !t.followUp then [Finding(p.number, TerminalTask)] else [])
  }

  function AllFindings(ps: seq<Pr>, registry: Option<Registry>): seq<Finding> {
    if ps == [] then [] else AllFindings(ps[..|ps| - 1], registry) + FindingsFor(ps[|ps| - 1], registry)
  }

  method BindingHardFindings(ps: seq<Pr>, registry: Option<Registry>) returns (findings: seq<Finding>)
    ensures findings == AllFindings(ps, registry)
  {
    findings := [];
    for i := 0 to |ps|
      invariant findings == AllFindings(ps[..i], registry)
    {
      assert ps[..i + 1][..i] == ps[..i];
      findings := findings + FindingsFor(ps[i], registry);
    }
    assert ps[..|ps|] == ps;
  }

  predicate FoundIn(ps: seq<Pr>, registry: Option<Registry>, f: Finding) {
    exists p :: p in ps && f in FindingsFor(p, registry)
  }

  lemma {:induction false} FindingsMembers(ps: seq<Pr>, registry: Option<Registry>, f: Finding)
    ensures f in AllFindings(ps, registry) <==> FoundIn(ps, registry, f)
  {
    if ps != [] {
      var n := |ps| - 1;
      FindingsMembers(ps[..n], registry, f);
      FoundInMore(ps[..n], ps[n], registry, f);
      assert ps == ps[..n] + [ps[n]];
    }
  }

  lemma FoundInMore(ps: seq<Pr>, p: Pr, registry: Option<Registry>, f: Finding)
    ensures FoundIn(ps + [p], registry, f) <==> FoundIn(ps, registry, f) || f in FindingsFor(p, registry)
  {
    if f in FindingsFor(p, registry) {
      assert p in ps + [p];
    } else if FoundIn(ps, registry, f) {
      var q :| q in ps && f in FindingsFor(q, registry);
      assert q in ps + [p];
    }
  }

  lemma NoFindings(ps: seq<Pr>, registry: Option<Registry>)
    ensures AllFindings(ps, registry) == [] <==> forall i :: 0 <= i < |ps| ==> FindingsFor(ps[i], registry) == []
  {
    if i :| 0 <= i < |ps| && FindingsFor(ps[i], registry) != [] {
      FindingIsFound(ps, i, registry, FindingsFor(ps[i], registry)[0]);
    }
    if AllFindings(ps, registry) != [] {
      var f := AllFindings(ps, registry)[0];
      assert f in AllFindings(ps, registry);
      FindingsMembers(ps, registry, f);
    }
  }

  lemma FindingIsFound(ps: seq<Pr>, i: nat, registry: Option<Registry>, f: Finding)
    requires i < |ps| && f in FindingsFor(ps[i], registry)
    ensures f in AllFindings(ps, registry)
  {
    FindingsMembers(ps, registry, f);
    assert ps[i] in ps;
  }

  /** Which finding a pull request without an exception gets: none can be missing and ambiguous at
      once, and the registry is asked only about a definite task. */
  lemma FindingsSay(p: Pr, registry: Option<Registry>, code: Code)
    ensures Finding(p.number, code) in FindingsFor(p, registry) <==> (
      && !p.excepted
      && var bound := p.kind !in {Unmatched, Ambiguous} && Named(p);
         match code
         case AmbiguousBinding => p.kind == Ambiguous
         case MissingBinding => p.kind != Ambiguous && !bound
         case InvalidBinding => bound && registry.Some? && p.task.value !in registry.value
         case WrongRepository => bound && registry.Some? && p.task.value in registry.value && registry.value[p.task.value].claims == Some(false)
         case TerminalTask =>
           && bound && registry.Some? && p.task.value in registry.value
           && registry.value[p.task.value].terminal && !registry.value[p.task.value].followUp)
  {
  }

  /** The pull request is bound, alone, to a task that exists, may claim the repository and is not
      finished unless it has follow-up semantics. */
  ghost predicate Sound(ps: seq<Pr>, i: nat, registry: Option<Registry>)
    requires i < |ps|
  {
    && !ps[i].kind.Unmatched? && !ps[i].kind.Ambiguous? && Named(ps[i])
    && (forall j :: 0 <= j < |ps| && j != i ==> ps[j].task != ps[i].task)
    && (registry.Some? ==>
         && ps[i].task.value in registry.value
         && registry.value[ps[i].task.value].claims != Some(false)
         && (registry.value[ps[i].task.value].terminal ==> registry.value[ps[i].task.value].followUp))
  }

  /** Binding is healthy exactly when every open pull request without an exception is soundly bound. */
  lemma HealthyIff(ps: seq<Pr>, registry: Option<Registry>)
    ensures AllFindings(Marked(ps), registry) == []
       <==> forall i :: 0 <= i < |ps| && !ps[i].excepted ==> Sound(ps, i, registry)
  {
    var marked := Marked(ps);
    NoFindings(marked, registry);
    forall i | 0 <= i < |ps| ensures FindingsFor(marked[i], registry) == [] <==> ps[i].excepted || Sound(ps, i, registry) {
      OneHealthyIff(ps, i, marked[i], registry);
    }
  }

  lemma OneHealthyIff(ps: seq<Pr>, i: nat, marked: Pr, registry: Option<Registry>)
    requires i < |ps| && marked == if SharedAt(ps, i) then ps[i].(kind := Ambiguous) else ps[i]
    ensures FindingsFor(marked, registry) == [] <==> ps[i].excepted || Sound(ps, i, registry)
  {
  }

  /* ---- from markers and branches to findings ---- */

  /** An open pull request as it is read: the markers in its text, the tasks its branch name points
      to, and whether it is excepted. */
  datatype Open = Open(number: int, runs: seq<string>, tasks: seq<string>, candidates: set<string>, excepted: bool)

  function Observe(o: Open, runTasks: map<string, Option<string>>): Pr {
    var b := Bind(o.runs, o.tasks, runTasks, o.candidates);
    Pr(o.number, b.task, b.kind, o.excepted)
  }

  function ObserveAll(os: seq<Open>, runTasks: map<string, Option<string>>): seq<Pr> {
    seq(|os|, i requires 0 <= i < |os| => Observe(os[i], runTasks))
  }

  /** The task of a marked run, if the run is known. */
  function RunTask(run: string, runTasks: map<string, Option<string>>): Option<string> {
    if run in runTasks && runTasks[run] != Some("") then runTasks[run] else None
  }

  /** The pull request points to exactly this task: by its only run marker, whose run belongs to the
      task or is unknown and comes with a marker of the task, and no other task is marked; by its
      only task marker; or, unmarked, by a branch name that fits no other task. */
  predicate PointsTo(o: Open, runTasks: map<string, Option<string>>, t: string) {
    && |o.runs| <= 1 && |o.tasks| <= 1 && (o.tasks != [] ==> o.tasks[0] == t)
    && (if o.runs != [] then RunTask(o.runs[0], runTasks) == Some(t) || (RunTask(o.runs[0], runTasks).None? && o.tasks != [])
        else o.tasks != [] || o.candidates == {t})
  }

  /** The binding names a task if and only if the pull request points to it, and is then definite. */
  lemma BindsIff(o: Open, runTasks: map<string, Option<string>>, t: string)
    requires t != ""
    ensures var b := Bind(o.runs, o.tasks, runTasks, o.candidates);
      && (b.task == Some(t) <==> PointsTo(o, runTasks, t))
      && (b.task.Some? ==> !b.kind.Unmatched? && !b.kind.Ambiguous?)
  {
    if |o.candidates| == 1 { Singleton(o.candidates); }
  }

  /** What binding is for: every open pull request without an exception points to exactly one task,
      no other open pull request points there, and the task exists, may claim the repository and is
      not finished unless it has follow-up semantics. */
  ghost predicate WellBound(os: seq<Open>, i: nat, runTasks: map<string, Option<string>>, registry: Option<Registry>)
    requires i < |os|
  {
    exists t :: t != "" && PointsTo(os[i], runTasks, t) && Alone(os, i, runTasks, t) && Usable(t, registry)
  }

  ghost predicate Alone(os: seq<Open>, i: nat, runTasks: map<string, Option<string>>, t: string) {
    forall j :: 0 <= j < |os| && j != i ==> !PointsTo(os[j], runTasks, t)
  }

  predicate Usable(t: string, registry: Option<Registry>) {
    registry.Some? ==>
      && t in registry.value && registry.value[t].claims != Some(false)
      && (registry.value[t].terminal ==> registry.value[t].followUp)
  }

  lemma SoundIff(os: seq<Open>, i: nat, runTasks: map<string, Option<string>>, registry: Option<Registry>)
    requires i < |os|
    ensures Sound(ObserveAll(os, runTasks), i, registry) <==> WellBound(os, i, runTasks, registry)
  {
    var ps := ObserveAll(os, runTasks);
    if Named(ps[i]) { SoundTask(os, i, runTasks, registry, ps[i].task.value); }
    forall t | t != "" && PointsTo(os[i], runTasks, t) ensures ps[i].task == Some(t) { BindsIff(os[i], runTasks, t); }
  }

  lemma SoundTask(os: seq<Open>, i: nat, runTasks: map<string, Option<string>>, registry: Option<Registry>, t: string)
    requires i < |os| && t != "" && ObserveAll(os, runTasks)[i].task == Some(t)
    ensures Sound(ObserveAll(os, runTasks), i, registry)
       <==> PointsTo(os[i], runTasks, t) && Alone(os, i, runTasks, t) && Usable(t, registry)
  {
    BindsIff(os[i], runTasks, t);
    forall j | 0 <= j < |os| ensures ObserveAll(os, runTasks)[j].task == Some(t) <==> PointsTo(os[j], runTasks, t) {
      BindsIff(os[j], runTasks, t);
    }
  }

  /** Binding, shared-task marking and findings together: no findings if and only if every open pull
      request without an exception is well bound. */
  lemma BindingHealthyIff(os: seq<Open>, runTasks: map<string, Option<string>>, registry: Option<Registry>)
    ensures AllFindings(Marked(ObserveAll(os, runTasks)), registry) == []
       <==> forall i :: 0 <= i < |os| && !os[i].excepted ==> WellBound(os, i, runTasks, registry)
  {
    HealthyIff(ObserveAll(os, runTasks), registry);
    forall i | 0 <= i < |os| ensures Sound(ObserveAll(os, runTasks), i, registry) <==> WellBound(os, i, runTasks, registry) {
      SoundIff(os, i, runTasks, registry);
    }
  }

  /* ---- the view of one task ---- */

  function OfTask(ps: seq<Pr>, task: string): set<int> {
    set i | 0 <= i < |ps| && ps[i].task == Some(task) :: ps[i].number
  }

  /** `filter_observation_by_task`: the findings whose pull request belongs to the task. */
  function FilterFindings(fs: seq<Finding>, numbers: set<int>): (r: seq<Finding>)
    ensures forall f :: f in r <==> f in fs && f.number in numbers
  {
    if fs == [] then []
    else (if fs[0].number in numbers then [fs[0]] else []) + FilterFindings(fs[1..], numbers)
  }

  lemma FindingNumber(p: Pr, registry: Option<Registry>)
    ensures forall f :: f in FindingsFor(p, registry) ==> f.number == p.number
  {
  }

  /** With distinct numbers, a task's view is healthy exactly when none of the task's pull requests
      carries a finding. */
  lemma TaskViewHealthyIff(ps: seq<Pr>, registry: Option<Registry>, task: string)
    requires forall i, j :: 0 <= i < j < |ps| ==> ps[i].number != ps[j].number
    ensures FilterFindings(AllFindings(ps, registry), OfTask(ps, task)) == []
       <==> forall i :: 0 <= i < |ps| && ps[i].task == Some(task) ==> FindingsFor(ps[i], registry) == []
  {
    var view := FilterFindings(AllFindings(ps, registry), OfTask(ps, task));
    if view != [] {
      var f := view[0];
      assert f in view;
      FindingsMembers(ps, registry, f);
      var p :| p in ps && f in FindingsFor(p, registry);
      var i :| 0 <= i < |ps| && ps[i] == p;
      FindingNumber(ps[i], registry);
      var j :| 0 <= j < |ps| && ps[j].task == Some(task) && ps[j].number == f.number;
      assert i == j;
    }
    if i :| 0 <= i < |ps| && ps[i].task == Some(task) && FindingsFor(ps[i], registry) != [] {
      var f := FindingsFor(ps[i], registry)[0];
      FindingNumber(ps[i], registry);
      FindingIsFound(ps, i, registry, f);
      assert ps[i].number in OfTask(ps, task);
      assert f in view;
    }
  }
}
