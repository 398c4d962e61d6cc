/** What every acceptance evaluation satisfies: when it passes, that it passes for the right
    reasons, and how it depends on authentication and on the clock. */
module AcceptanceLaws {
  import opened Prelude
  import opened JsonValues
  import opened Acceptance

  /* ---- the required checks ---- */

  ghost predicate RowsAgree(rows: seq<Json>) {
    && (forall i :: 0 <= i < |rows| ==> CheckRow(rows[i]))
    && (forall i, j :: 0 <= i < |rows| && 0 <= j < |rows| && RowName(rows[i]) == RowName(rows[j]) ==>
         RowState(rows[i]) == RowState(rows[j]))
  }

  ghost predicate Reported(rows: seq<Json>, name: string)
    requires RowsAgree(rows)
  {
    exists i :: 0 <= i < |rows| && RowName(rows[i]) == name
  }

  /** The table holds exactly the reported checks with their states. */
  ghost predicate TableOf(m: map<string, string>, rows: seq<Json>)
    requires RowsAgree(rows)
  {
    && (forall i :: 0 <= i < |rows| ==> RowName(rows[i]) in m && m[RowName(rows[i])] == RowState(rows[i]))
    && (forall name :: name in m ==> Reported(rows, name))
  }

  /** The table of checks exists exactly when all rows are complete and agree, and then holds
      exactly the reported states. */
  lemma {:induction false} ReadChecksMeans(rows: seq<Json>)
    ensures ReadChecks(rows).Some? <==> RowsAgree(rows)
    ensures RowsAgree(rows) ==> TableOf(ReadChecks(rows).value, rows)
  {
    if rows != [] {
      var n := |rows| - 1;
      var front, last := rows[..n], rows[n];
      ReadChecksMeans(front);
      assert rows == front + [last];
      if RowsAgree(front) && CheckRow(last) {
        TableExtends(front, last, ReadChecks(front).value);
      } else if RowsAgree(rows) {
        assert forall i :: 0 <= i < n ==> front[i] == rows[i];
        assert RowsAgree(front);
      }
    }
  }

  lemma TableExtends(front: seq<Json>, last: Json, m: map<string, string>)
    requires RowsAgree(front) && CheckRow(last) && TableOf(m, front)
    ensures RowsAgree(front + [last]) <==> RowName(last) !in m || m[RowName(last)] == RowState(last)
    ensures RowsAgree(front + [last]) ==> TableOf(m[RowName(last) := RowState(last)], front + [last])
  {
    var rows, m' := front + [last], m[RowName(last) := RowState(last)];
    assert rows[|front|] == last;
    if RowName(last) in m {
      assert Reported(front, RowName(last));
      var i :| 0 <= i < |front| && RowName(front[i]) == RowName(last);
      assert rows[i] == front[i] && m[RowName(last)] == RowState(front[i]);
    } else {
      assert forall i :: 0 <= i < |front| ==> RowName(front[i]) != RowName(last);
    }
    assert forall i :: 0 <= i < |front| ==> rows[i] == front[i];
    if RowsAgree(rows) {
      forall name | name in m' ensures Reported(rows, name) {
        if name in m {
          var i :| 0 <= i < |front| && RowName(front[i]) == name;
          assert RowName(rows[i]) == name;
        }
      }
    }
  }

  ghost predicate Green(rows: seq<Json>, name: string)
    requires RowsAgree(rows)
  {
    exists i :: 0 <= i < |rows| && RowName(rows[i]) == name && PassState(RowState(rows[i]))
  }

  /** The CI verdict passes exactly when the rows agree and every required check has a row in a
      passing state. */
  lemma CiPassesIff(required: seq<Json>, rows: seq<Json>)
    requires forall i :: 0 <= i < |required| ==> required[i].Str?
    ensures CiVerdict(required, rows).Passed?
       <==> RowsAgree(rows) && forall r :: 0 <= r < |required| ==> Green(rows, required[r].s)
  {
    ReadChecksMeans(rows);
    if RowsAgree(rows) {
      var m := ReadChecks(rows).value;
      forall r | 0 <= r < |required|
        ensures Green(rows, required[r].s) <==> required[r].s in m && PassState(m[required[r].s])
      {
        GreenInTable(rows, m, required[r].s);
      }
      NoPassFails();
    }
  }

  lemma GreenInTable(rows: seq<Json>, m: map<string, string>, name: string)
    requires RowsAgree(rows) && TableOf(m, rows)
    ensures Green(rows, name) <==> name in m && PassState(m[name])
  {
    if name in m {
      assert Reported(rows, name);
      var i :| 0 <= i < |rows| && RowName(rows[i]) == name;
      assert m[RowName(rows[i])] == RowState(rows[i]);
    }
    if Green(rows, name) {
      var i :| 0 <= i < |rows| && RowName(rows[i]) == name && PassState(RowState(rows[i]));
      assert m[RowName(rows[i])] == RowState(rows[i]);
    }
  }

  lemma NoPassFails()
    ensures forall s :: PassState(s) ==> !FailState(s)
  {
  }

  /** The loop over reported rows, with the dictionary of observed states. */
  method ReadCheckRows(rows: seq<Json>) returns (observed: Option<map<string, string>>)
    ensures observed == ReadChecks(rows)
  {
    var table: map<string, string> := map[];
    for i := 0 to |rows|
      invariant ReadChecks(rows[..i]) == Some(table)
    {
      assert rows[..i + 1][..i] == rows[..i];
      if !CheckRow(rows[i]) || (RowName(rows[i]) in table && table[RowName(rows[i])] != RowState(rows[i])) {
        assert ReadChecks(rows[..i + 1]).None?;
        StaysUnreadable(rows, i + 1);
        return None;
      }
      table := table[RowName(rows[i]) := RowState(rows[i])];
    }
    assert rows[..|rows|] == rows;
    observed := Some(table);
  }

  lemma {:induction false} StaysUnreadable(rows: seq<Json>, i: nat)
    requires i <= |rows| && ReadChecks(rows[..i]).None?
    ensures ReadChecks(rows).None?
  {
    if i == |rows| {
      assert rows[..i] == rows;
    } else {
      var n := |rows| - 1;
      assert rows[..n][..i] == rows[..i];
      StaysUnreadable(rows[..n], i);
    }
  }

  /* ---- agreement of head commits ---- */

  function HeadOf(id: Json, evidence: map<string, Json>): Json {
    Get(Get(if id.Str? && id.s in evidence then evidence[id.s] else Null, Revision), HeadSha)
  }

  /** A criterion contributes its evidence's head commit to its pull request. */
  ghost predicate Noted(c: Json, evidence: map<string, Json>, passed: set<Json>, p: PrId) {
    && Text(Get(c, Id)) && Get(c, Id) in passed && ContractOf(c).Some? && Scope(ContractOf(c).value) == Some(p)
    && Get(Evidence(c, evidence), Revision).Obj? && Text(HeadOf(Get(c, Id), evidence))
  }

  ghost predicate Contributed(cs: seq<Json>, evidence: map<string, Json>, passed: set<Json>, p: PrId, id: Json) {
    exists i :: 0 <= i < |cs| && Noted(cs[i], evidence, passed, p) && Get(cs[i], Id) == id
  }

  /** The groups hold the heads of the evidence, each of them contributed, and all contributed ones. */
  ghost predicate HeadsRight(heads: Heads, evidence: map<string, Json>) {
    forall p, id :: p in heads && id in heads[p] ==> heads[p][id] == HeadOf(id, evidence)
  }

  ghost predicate HeadsBacked(heads: Heads, cs: seq<Json>, evidence: map<string, Json>, passed: set<Json>) {
    forall p, id :: p in heads && id in heads[p] ==> Contributed(cs, evidence, passed, p, id)
  }

  ghost predicate HeadsComplete(heads: Heads, cs: seq<Json>, evidence: map<string, Json>, passed: set<Json>) {
    forall i, p :: 0 <= i < |cs| && Noted(cs[i], evidence, passed, p) ==> p in heads && Get(cs[i], Id) in heads[p]
  }

  function WithHead(heads: Heads, p: PrId, id: Json, evidence: map<string, Json>): Heads {
    heads[p := (if p in heads then heads[p] else map[])[id := HeadOf(id, evidence)]]
  }

  /** A criterion changes the groups exactly when it contributes. */
  lemma NoteCases(heads: Heads, c: Json, evidence: map<string, Json>, passed: set<Json>)
    ensures var heads' := NoteHead(heads, c, evidence, passed);
      || (heads' == heads && forall p :: !Noted(c, evidence, passed, p))
      || exists p :: Noted(c, evidence, passed, p) && heads' == WithHead(heads, p, Get(c, Id), evidence)
  {
    var scope := if ContractOf(c).Some? then Scope(ContractOf(c).value) else None;
    if scope.Some? && Noted(c, evidence, passed, scope.value) {
    } else {
      assert forall p :: !Noted(c, evidence, passed, p);
    }
  }

  lemma ContributedGrows(front: seq<Json>, c: Json, evidence: map<string, Json>, passed: set<Json>, p: PrId, id: Json)
    ensures Contributed(front, evidence, passed, p, id) ==> Contributed(front + [c], evidence, passed, p, id)
    ensures Noted(c, evidence, passed, p) ==> Contributed(front + [c], evidence, passed, p, Get(c, Id))
  {
    var cs := front + [c];
    assert cs[|front|] == c;
    if Contributed(front, evidence, passed, p, id) {
      var i :| 0 <= i < |front| && Noted(front[i], evidence, passed, p) && Get(front[i], Id) == id;
      assert cs[i] == front[i];
    }
  }

  lemma NoteRight(heads: Heads, c: Json, evidence: map<string, Json>, passed: set<Json>)
    requires HeadsRight(heads, evidence)
    ensures HeadsRight(NoteHead(heads, c, evidence, passed), evidence)
  {
    NoteCases(heads, c, evidence, passed);
  }

  lemma NoteBacked(heads: Heads, front: seq<Json>, c: Json, evidence: map<string, Json>, passed: set<Json>)
    requires HeadsBacked(heads, front, evidence, passed)
    ensures HeadsBacked(NoteHead(heads, c, evidence, passed), front + [c], evidence, passed)
  {
    var cs, heads' := front + [c], NoteHead(heads, c, evidence, passed);
    NoteCases(heads, c, evidence, passed);
    forall p, id | p in heads' && id in heads'[p] ensures Contributed(cs, evidence, passed, p, id) {
      if p in heads && id in heads[p] {
        ContributedGrows(front, c, evidence, passed, p, id);
      } else {
        assert Noted(cs[|front|], evidence, passed, p) && Get(cs[|front|], Id) == id;
      }
    }
  }

  lemma NoteComplete(heads: Heads, front: seq<Json>, c: Json, evidence: map<string, Json>, passed: set<Json>)
    requires HeadsComplete(heads, front, evidence, passed)
    ensures HeadsComplete(NoteHead(heads, c, evidence, passed), front + [c], evidence, passed)
  {
    var cs, heads' := front + [c], NoteHead(heads, c, evidence, passed);
    NoteCases(heads, c, evidence, passed);
    forall i, p | 0 <= i < |cs| && Noted(cs[i], evidence, passed, p) ensures p in heads' && Get(cs[i], Id) in heads'[p] {
      if i < |front| { assert Noted(front[i], evidence, passed, p); } else { assert cs[i] == c; }
    }
  }

  lemma {:induction false} HeadsMean(cs: seq<Json>, evidence: map<string, Json>, passed: set<Json>)
    ensures var heads := HeadsOf(cs, evidence, passed);
      HeadsRight(heads, evidence) && HeadsBacked(heads, cs, evidence, passed) && HeadsComplete(heads, cs, evidence, passed)
  {
    if cs != [] {
      var n := |cs| - 1;
      var heads := HeadsOf(cs[..n], evidence, passed);
      HeadsMean(cs[..n], evidence, passed);
      NoteRight(heads, cs[n], evidence, passed);
      NoteBacked(heads, cs[..n], cs[n], evidence, passed);
      NoteComplete(heads, cs[..n], cs[n], evidence, passed);
      assert cs == cs[..n] + [cs[n]];
    }
  }

  /** Two criteria about one pull request freeze different head commits. */
  ghost predicate FrozenApart(c: Json, d: Json) {
    && ContractOf(c).Some? && ContractOf(d).Some?
    && Scope(ContractOf(c).value).Some? && Scope(ContractOf(c).value) == Scope(ContractOf(d).value)
    && Get(ContractOf(c).value.config, HeadSha) != Get(ContractOf(d).value.config, HeadSha)
  }

  ghost predicate Disagree(cs: seq<Json>) {
    exists i, j :: 0 <= i < |cs| && 0 <= j < |cs| && FrozenApart(cs[i], cs[j])
  }

  ghost predicate AllPass(cs: seq<Json>, evidence: map<string, Json>, s: Setting, auth: set<string>) {
    forall i :: 0 <= i < |cs| ==> VerdictOf(cs[i], evidence, s, auth).Passed?
  }

  /** A passed pull-request criterion's evidence is bound to exactly the head it froze. */
  lemma PassedHead(c: Json, evidence: map<string, Json>, s: Setting, auth: set<string>, passed: set<Json>)
    requires VerdictOf(c, evidence, s, auth).Passed? && Get(c, Id) in passed && Scope(ContractOf(c).value).Some?
    ensures HeadOf(Get(c, Id), evidence) == Get(ContractOf(c).value.config, HeadSha)
    ensures Noted(c, evidence, passed, Scope(ContractOf(c).value).value)
  {
    var k := ContractOf(c).value;
    assert HeadSha in TargetFields(k.verifier);
  }

  lemma ConflictMeansApart(cs: seq<Json>, evidence: map<string, Json>, s: Setting, auth: set<string>, passed: set<Json>,
                           p: PrId, a: Json, b: Json)
    requires AllPass(cs, evidence, s, auth)
    requires Contributed(cs, evidence, passed, p, a) && Contributed(cs, evidence, passed, p, b)
    requires HeadOf(a, evidence) != HeadOf(b, evidence)
    ensures Disagree(cs)
  {
    var i :| 0 <= i < |cs| && Noted(cs[i], evidence, passed, p) && Get(cs[i], Id) == a;
    var j :| 0 <= j < |cs| && Noted(cs[j], evidence, passed, p) && Get(cs[j], Id) == b;
    assert VerdictOf(cs[i], evidence, s, auth).Passed? && VerdictOf(cs[j], evidence, s, auth).Passed?;
    PassedHead(cs[i], evidence, s, auth, passed);
    PassedHead(cs[j], evidence, s, auth, passed);
    assert FrozenApart(cs[i], cs[j]);
  }

  lemma ApartMeansConflict(cs: seq<Json>, evidence: map<string, Json>, s: Setting, auth: set<string>, passed: set<Json>,
                           heads: Heads, i: nat, j: nat)
    requires AllPass(cs, evidence, s, auth) && HeadsRight(heads, evidence) && HeadsComplete(heads, cs, evidence, passed)
    requires i < |cs| && j < |cs| && FrozenApart(cs[i], cs[j]) && Get(cs[i], Id) in passed && Get(cs[j], Id) in passed
    ensures Conflicts(heads)
  {
    assert VerdictOf(cs[i], evidence, s, auth).Passed? && VerdictOf(cs[j], evidence, s, auth).Passed?;
    PassedHead(cs[i], evidence, s, auth, passed);
    PassedHead(cs[j], evidence, s, auth, passed);
    TwoHeads(cs, evidence, passed, heads, Scope(ContractOf(cs[i]).value).value, i, j);
  }

  lemma TwoHeads(cs: seq<Json>, evidence: map<string, Json>, passed: set<Json>, heads: Heads, p: PrId, i: nat, j: nat)
    requires HeadsRight(heads, evidence) && HeadsComplete(heads, cs, evidence, passed) && i < |cs| && j < |cs|
    requires Noted(cs[i], evidence, passed, p) && Noted(cs[j], evidence, passed, p)
    requires HeadOf(Get(cs[i], Id), evidence) != HeadOf(Get(cs[j], Id), evidence)
    ensures Conflicts(heads)
  {
    assert heads[p][Get(cs[i], Id)] != heads[p][Get(cs[j], Id)];
  }

  /** When all criteria pass, the cross-criterion check reports a conflict exactly when two of
      them freeze different heads of one pull request. */
  lemma ConflictIff(cs: seq<Json>, evidence: map<string, Json>, s: Setting, auth: set<string>, passed: set<Json>)
    requires AllPass(cs, evidence, s, auth) && forall i :: 0 <= i < |cs| ==> Get(cs[i], Id) in passed
    ensures Conflicts(HeadsOf(cs, evidence, passed)) <==> Disagree(cs)
  {
    var heads := HeadsOf(cs, evidence, passed);
    HeadsMean(cs, evidence, passed);
    if Conflicts(heads) {
      var p, a, b :| p in heads && a in heads[p] && b in heads[p] && heads[p][a] != heads[p][b];
      ConflictMeansApart(cs, evidence, s, auth, passed, p, a, b);
    }
    if Disagree(cs) {
      var i, j :| 0 <= i < |cs| && 0 <= j < |cs| && FrozenApart(cs[i], cs[j]);
      ApartMeansConflict(cs, evidence, s, auth, passed, heads, i, j);
    }
  }

  /* ---- when acceptance passes ---- */

  lemma SummaryPasses(results: seq<Verdict>, conflict: bool)
    ensures Summary(results, conflict).Passed?
       <==> results != [] && !conflict && forall i :: 0 <= i < |results| ==> results[i].Passed?
  {
    if i :| 0 <= i < |results| && !results[i].Passed? {
      assert results[i] == Failed || results[i] == Unknown;
    }
  }

  /** Acceptance passes exactly when there are criteria, each passes by itself, and no two freeze
      different heads of one pull request. */
  lemma PassesIff(cs: seq<Json>, evidence: map<string, Json>, s: Setting, auth: set<string>)
    ensures Evaluate(cs, evidence, s, auth).Passed? <==> cs != [] && AllPass(cs, evidence, s, auth) && !Disagree(cs)
  {
    var results := Results(cs, evidence, s, auth);
    var passed := PassedIds(cs, results);
    SummaryPasses(results, Conflicts(HeadsOf(cs, evidence, passed)));
    if forall i :: 0 <= i < |results| ==> results[i].Passed? {
      forall i | 0 <= i < |cs| ensures VerdictOf(cs[i], evidence, s, auth).Passed? && Get(cs[i], Id) in passed {
        assert results[i].Passed?;
      }
      ConflictIff(cs, evidence, s, auth, passed);
    } else {
      var i :| 0 <= i < |results| && !results[i].Passed?;
      assert !VerdictOf(cs[i], evidence, s, auth).Passed?;
    }
  }

  /** Whatever the evidence, the clock and the authentication: criteria that freeze different
      heads of one pull request never pass together. */
  lemma FrozenApartNeverPasses(cs: seq<Json>, evidence: map<string, Json>, s: Setting, auth: set<string>, i: nat, j: nat)
    requires i < |cs| && j < |cs| && FrozenApart(cs[i], cs[j])
    ensures !Evaluate(cs, evidence, s, auth).Passed?
  {
    PassesIff(cs, evidence, s, auth);
  }

  /** A pass rests, for every criterion, on authenticated evidence that is timely, bound to the
      task, plan and frozen target, and whose facts say so. */
  lemma PassedMeans(cs: seq<Json>, evidence: map<string, Json>, s: Setting, auth: set<string>, i: nat)
    requires Evaluate(cs, evidence, s, auth).Passed? && i < |cs|
    ensures var c := cs[i];
      && Text(Get(c, Id)) && Get(c, Id).s in auth && Get(c, Id).s in evidence && ContractOf(c).Some?
      && var k, e := ContractOf(c).value, evidence[Get(c, Id).s];
         && Addressed(c, k.verifier, e) && Timely(k.verifier, e, s) && RevisionValid(k, e, s)
         && FactVerdict(k.verifier, Get(e, Facts), k.config).Passed?
  {
    PassesIff(cs, evidence, s, auth);
    assert VerdictOf(cs[i], evidence, s, auth).Passed?;
  }

  lemma VerdictMonotone(c: Json, evidence: map<string, Json>, s: Setting, auth: set<string>, more: set<string>)
    requires auth <= more && !VerdictOf(c, evidence, s, auth).Unknown?
    ensures VerdictOf(c, evidence, s, more) == VerdictOf(c, evidence, s, auth)
  {
  }

  /** Authenticating more evidence never changes a pass or a failure. */
  lemma AcceptanceMonotone(cs: seq<Json>, evidence: map<string, Json>, s: Setting, auth: set<string>, more: set<string>)
    requires auth <= more && !Evaluate(cs, evidence, s, auth).Unknown?
    ensures Evaluate(cs, evidence, s, more) == Evaluate(cs, evidence, s, auth)
  {
    if Evaluate(cs, evidence, s, auth).Failed? {
      var i :| 0 <= i < |cs| && Results(cs, evidence, s, auth)[i] == Failed;
      VerdictMonotone(cs[i], evidence, s, auth, more);
      assert Results(cs, evidence, s, more)[i] == Failed;
    } else {
      PassesIff(cs, evidence, s, auth);
      forall i | 0 <= i < |cs| ensures VerdictOf(cs[i], evidence, s, more).Passed? {
        assert VerdictOf(cs[i], evidence, s, auth).Passed?;
        VerdictMonotone(cs[i], evidence, s, auth, more);
      }
      PassesIff(cs, evidence, s, more);
    }
  }

  lemma VerdictConvex(c: Json, evidence: map<string, Json>, s: Setting, auth: set<string>, mid: int, late: int)
    requires s.now <= mid <= late
    requires VerdictOf(c, evidence, s, auth) == VerdictOf(c, evidence, s.(now := late), auth) != Unknown
    ensures VerdictOf(c, evidence, s.(now := mid), auth) == VerdictOf(c, evidence, s, auth)
  {
  }

  /** For fixed evidence the times at which acceptance passes form one interval. */
  lemma AcceptanceConvex(cs: seq<Json>, evidence: map<string, Json>, s: Setting, auth: set<string>, mid: int, late: int)
    requires s.now <= mid <= late
    requires Evaluate(cs, evidence, s, auth).Passed? && Evaluate(cs, evidence, s.(now := late), auth).Passed?
    ensures Evaluate(cs, evidence, s.(now := mid), auth).Passed?
  {
    PassesIff(cs, evidence, s, auth);
    PassesIff(cs, evidence, s.(now := late), auth);
    PassesIff(cs, evidence, s.(now := mid), auth);
    forall i | 0 <= i < |cs| ensures VerdictOf(cs[i], evidence, s.(now := mid), auth).Passed? {
      assert VerdictOf(cs[i], evidence, s, auth).Passed? && VerdictOf(cs[i], evidence, s.(now := late), auth).Passed?;
      VerdictConvex(cs[i], evidence, s, auth, mid, late);
    }
  }

  /* ---- executable contracts ---- */

  datatype Problem =
    | AcceptanceEmpty | AcceptanceInvalid | CriterionInvalid
    | IdMissing | IdInvalid | DuplicateId | EvidenceTypeMissing | EvidenceTypeInvalid
    | VerifierMissing | VerifierUnknown | ConfigMissing | ConfigInvalid | ConfigMismatch | NotExecutable

  /** The problems found at one criterion, in the order they are reported. */
  datatype Diagnostic = Diagnostic(index: nat, problems: seq<Problem>)

  /** The first n criteria have distinct ids and executable contracts. */
  predicate ExecutableUpTo(cs: seq<Json>, n: nat)
    requires n <= |cs|
  {
    && (forall i :: 0 <= i < n ==> cs[i].Obj? && Text(Get(cs[i], Id)) && ContractOf(cs[i]).Some?)
    && (forall i, j :: 0 <= i < j < n ==> Get(cs[i], Id) != Get(cs[j], Id))
  }

  predicate Executable(task: Json) {
    var cs := Get(task, AcceptanceList);
    cs.List? && cs.items != [] && ExecutableUpTo(cs.items, |cs.items|)
  }

  function IdProblems(c: Json, seen: set<Json>): seq<Problem> {
    var id := Get(c, Id);
    if id == Null then [IdMissing] else if !Text(id) then [IdInvalid] else if id in seen then [DuplicateId] else []
  }

  function VerifierNamed(c: Json): Option<VerifierKind> {
    if Get(c, Verifier).Str? then FindVerifier(Get(c, Verifier).s, VERIFIERS) else None
  }

  function TypeProblems(c: Json): seq<Problem> {
    (if Get(c, EvidenceType) == Null then [EvidenceTypeMissing]
     else if Get(c, EvidenceType) != Str("object") then [EvidenceTypeInvalid] else [])
    + (if Get(c, Verifier) == Null then [VerifierMissing] else if VerifierNamed(c).None? then [VerifierUnknown] else [])
    + (var config := Get(c, VerifierConfig);
       if config == Null then [ConfigMissing]
       else if !config.Obj? then [ConfigInvalid]
       else match VerifierNamed(c)
            case None => []
            case Some(v) => if config.fields.Keys == ConfigFields(v) && ConfigValid(v, config) then [] else [ConfigMismatch])
  }

  /** A criterion without type problems has an executable contract, and the other way round. */
  lemma TypedIffContract(c: Json)
    ensures TypeProblems(c) == [] <==> ContractOf(c).Some?
  {
  }

  /** The problems of one criterion. The last-resort diagnostic is never needed. */
  method CheckCriterion(c: Json, seen: set<Json>) returns (problems: seq<Problem>)
    ensures NotExecutable !in problems
    ensures problems == [] <==> c.Obj? && Text(Get(c, Id)) && Get(c, Id) !in seen && ContractOf(c).Some?
  {
    if !c.Obj? { return [CriterionInvalid]; }
    var idProblems, typeProblems := IdProblems(c, seen), TypeProblems(c);
    problems := idProblems + typeProblems;
    TypedIffContract(c);
    if |idProblems| + |typeProblems| == 0 && ContractOf(c).None? { problems := [NotExecutable]; }
  }

  /** The ids of the first n criteria. */
  ghost predicate IdsUpTo(cs: seq<Json>, n: nat, seen: set<Json>)
    requires n <= |cs|
  {
    forall id :: id in seen <==> exists j :: 0 <= j < n && Get(cs[j], Id) == id
  }

  lemma ExecutableStep(cs: seq<Json>, n: nat, seen: set<Json>)
    requires n < |cs| && ExecutableUpTo(cs, n) && IdsUpTo(cs, n, seen)
    ensures ExecutableUpTo(cs, n + 1) <==> cs[n].Obj? && Text(Get(cs[n], Id)) && Get(cs[n], Id) !in seen && ContractOf(cs[n]).Some?
  {
    if Get(cs[n], Id) in seen { var j :| 0 <= j < n && Get(cs[j], Id) == Get(cs[n], Id); }
  }

  lemma IdsStep(cs: seq<Json>, n: nat, seen: set<Json>)
    requires n < |cs| && IdsUpTo(cs, n, seen)
    ensures IdsUpTo(cs, n + 1, seen + {Get(cs[n], Id)})
  {
    forall id ensures id in seen + {Get(cs[n], Id)} <==> exists j :: 0 <= j < n + 1 && Get(cs[j], Id) == id {
      if id == Get(cs[n], Id) {
        assert Get(cs[n], Id) == id;
      } else if j :| 0 <= j < n && Get(cs[j], Id) == id {
        assert id in seen;
      }
    }
  }

  /** `validate_acceptance_contract`: accepts exactly the executable contracts. */
  method ValidateAcceptanceContract(task: Json) returns (diagnostics: seq<Diagnostic>)
    ensures diagnostics == [] <==> Executable(task)
    ensures forall d :: d in diagnostics ==> NotExecutable !in d.problems
  {
    var criteria := Get(task, AcceptanceList);
    if !criteria.List? { return [Diagnostic(0, [AcceptanceInvalid])]; }
    if criteria.items == [] { return [Diagnostic(0, [AcceptanceEmpty])]; }
    diagnostics := [];
    var seen: set<Json> := {};
    var cs := criteria.items;
    for i := 0 to |cs|
      invariant forall d :: d in diagnostics ==> NotExecutable !in d.problems
      invariant diagnostics == [] ==> IdsUpTo(cs, i, seen)
      invariant diagnostics == [] <==> ExecutableUpTo(cs, i)
    {
      var problems := CheckCriterion(cs[i], seen);
      if diagnostics == [] {
        ExecutableStep(cs, i, seen);
        IdsStep(cs, i, seen);
      }
      if Text(Get(cs[i], Id)) { seen := seen + {Get(cs[i], Id)}; }
      if problems != [] { diagnostics := diagnostics + [Diagnostic(i, problems)]; }
    }
  }
}
