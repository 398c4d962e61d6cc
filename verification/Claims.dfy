/** Resource claims of src/bureau/legacy.py: overlap along the resource tree, conflicting modes
    and capacities. */
module Claims {
  import opened Prelude

  datatype Mode = ReadMode | WriteMode | Exclusive | WriteBlocker | Capacity | OtherMode(name: string)

  /** `retired` stands for a retired, coordination-only resource that admits no mutating claims. */
  datatype Resource = Resource(parent: Option<string>, capacity: Option<int>, retired: bool)

  type Resources = map<string, Resource>

  datatype Claim = Claim(resource: string, mode: Mode, amount: nat)

  /* ---- the resource tree ---- */

  function Parent(id: string, rs: Resources): Option<string> {
    if id in rs && rs[id].parent.Some? && rs[id].parent.value != "" then rs[id].parent else None
  }

  /** The name `n` parent steps above `id`. */
  function Up(id: string, rs: Resources, n: nat): Option<string> {
    if n == 0 then Some(id)
    else var below := Up(id, rs, n - 1); if below.None? then None else Parent(below.value, rs)
  }

  /** Each of `names` is one parent step above the one before it, from `id` on. */
  ghost predicate Climbs(id: string, names: seq<string>, rs: Resources) {
    forall i :: 0 <= i < |names| ==> Up(id, rs, i + 1) == Some(names[i])
  }

  predicate Distinct(names: seq<string>) { forall i, j :: 0 <= i < j < |names| ==> names[i] != names[j] }

  /** No step goes on from the last of `names` to a new name. */
  predicate Ends(id: string, names: seq<string>, seen: set<string>, rs: Resources) {
    var next := Parent(if names == [] then id else names[|names| - 1], rs);
    next.None? || next.value in names || next.value in seen
  }

  /** The names reached by one or more parent steps, each once, in the order of the steps. */
  ghost predicate AreAncestors(id: string, names: seq<string>, rs: Resources) {
    Climbs(id, names, rs) && Distinct(names) && forall n: nat :: n > 0 ==> Reaches(id, names, rs, n)
  }

  /** The name `n` steps above, if there is one, is among `names`. */
  predicate Reaches(id: string, names: seq<string>, rs: Resources, n: nat) {
    Up(id, rs, n).Some? ==> Up(id, rs, n).value in names
  }

  lemma {:induction false} UpFromParent(id: string, rs: Resources, n: nat)
    requires Parent(id, rs).Some?
    ensures Up(id, rs, n + 1) == Up(Parent(id, rs).value, rs, n)
  {
    if n > 0 { UpFromParent(id, rs, n - 1); }
  }

  /** Where the climb ends, nothing new is above. */
  lemma {:induction false} NothingNewAbove(id: string, names: seq<string>, rs: Resources, n: nat)
    requires Climbs(id, names, rs) && Ends(id, names, {}, rs) && n > 0
    ensures Reaches(id, names, rs, n)
  {
    if n <= |names| {
      assert Up(id, rs, n - 1 + 1) == Some(names[n - 1]);
    } else if n > 1 {
      NothingNewAbove(id, names, rs, n - 1);
      if Up(id, rs, n - 1).Some? {
        var i :| 0 <= i < |names| && names[i] == Up(id, rs, n - 1).value;
        if i + 1 < |names| { assert Up(id, rs, i + 1 + 1) == Some(names[i + 1]); }
      }
    }
  }

  function ParentNames(rs: Resources): set<string> {
    set r | r in rs && rs[r].parent.Some? :: rs[r].parent.value
  }

  lemma FewerLeft(rs: Resources, seen: set<string>, p: string)
    requires p in ParentNames(rs) && p !in seen
    ensures |ParentNames(rs) - (seen + {p})| < |ParentNames(rs) - seen|
  {
    assert ParentNames(rs) - seen == ParentNames(rs) - (seen + {p}) + {p};
  }

  /** The chain of parents, cut where it would repeat. */
  function AncestorsFrom(current: string, rs: Resources, seen: set<string>): seq<string>
    decreases |ParentNames(rs) - seen|
  {
    if Parent(current, rs).None? || Parent(current, rs).value in seen then []
    else var p := Parent(current, rs).value;
         assert p in ParentNames(rs);
         FewerLeft(rs, seen, p);
         [p] + AncestorsFrom(p, rs, seen + {p})
  }

  lemma {:induction false} ChainClimbs(current: string, rs: Resources, seen: set<string>)
    ensures var names := AncestorsFrom(current, rs, seen);
      && Climbs(current, names, rs) && Distinct(names) && Ends(current, names, seen, rs)
      && forall x :: x in names ==> x !in seen
    decreases |ParentNames(rs) - seen|
  {
    if Parent(current, rs).Some? && Parent(current, rs).value !in seen {
      var p := Parent(current, rs).value;
      assert p in ParentNames(rs);
      FewerLeft(rs, seen, p);
      ChainClimbs(p, rs, seen + {p});
      ChainGrows(current, p, AncestorsFrom(p, rs, seen + {p}), rs, seen);
    }
  }

  lemma ChainGrows(current: string, p: string, rest: seq<string>, rs: Resources, seen: set<string>)
    requires Parent(current, rs) == Some(p) && p !in seen
    requires Climbs(p, rest, rs) && Distinct(rest) && Ends(p, rest, seen + {p}, rs) && forall x :: x in rest ==> x !in seen + {p}
    ensures Climbs(current, [p] + rest, rs) && Distinct([p] + rest) && Ends(current, [p] + rest, seen, rs)
    ensures forall x :: x in [p] + rest ==> x !in seen
  {
    var names := [p] + rest;
    forall i | 0 <= i < |names| ensures Up(current, rs, i + 1) == Some(names[i]) {
      UpFromParent(current, rs, i);
      if i > 0 { assert Up(p, rs, i - 1 + 1) == Some(rest[i - 1]); }
    }
    forall i, j | 0 <= i < j < |names| ensures names[i] != names[j] { assert rest[j - 1] in rest; }
  }

  lemma AncestorsExact(id: string, rs: Resources)
    ensures AreAncestors(id, AncestorsFrom(id, rs, {}), rs)
  {
    ChainClimbs(id, rs, {});
    forall n: nat | n > 0 ensures Reaches(id, AncestorsFrom(id, rs, {}), rs, n) {
      NothingNewAbove(id, AncestorsFrom(id, rs, {}), rs, n);
    }
  }

  lemma Associates(a: seq<string>, x: string, b: seq<string>)
    ensures a + ([x] + b) == (a + [x]) + b
  {
  }

  lemma ChainStep(current: string, rs: Resources, seen: set<string>)
    ensures Parent(current, rs).None? || Parent(current, rs).value in seen ==> AncestorsFrom(current, rs, seen) == []
    ensures Parent(current, rs).Some? && Parent(current, rs).value !in seen ==>
      var p := Parent(current, rs).value;
      && AncestorsFrom(current, rs, seen) == [p] + AncestorsFrom(p, rs, seen + {p})
      && |ParentNames(rs) - (seen + {p})| < |ParentNames(rs) - seen|
  {
    if Parent(current, rs).Some? && Parent(current, rs).value !in seen {
      assert Parent(current, rs).value in ParentNames(rs);
      FewerLeft(rs, seen, Parent(current, rs).value);
    }
  }

  /** The loop of `ancestors`: also where the parents form a cycle it stops, and gives exactly the
      names above `id`, nearest first and none twice. */
  method Ancestors(id: string, rs: Resources) returns (result: seq<string>)
    ensures result == AncestorsFrom(id, rs, {})
    ensures AreAncestors(id, result, rs)
  {
    result := [];
    var seen: set<string> := {};
    var current := id;
    while current in rs && rs[current].parent.Some? && rs[current].parent.value != ""
      invariant AncestorsFrom(id, rs, {}) == result + AncestorsFrom(current, rs, seen)
      decreases |ParentNames(rs) - seen|
    {
      ChainStep(current, rs, seen);
      var parent := rs[current].parent.value;
      if parent in seen { break; }
      Associates(result, parent, AncestorsFrom(parent, rs, seen + {parent}));
      result := result + [parent];
      seen := seen + {parent};
      current := parent;
    }
    ChainStep(current, rs, seen);
    AncestorsExact(id, rs);
  }

  predicate Overlaps(a: string, b: string, rs: Resources) {
    a == b || a in AncestorsFrom(b, rs, {}) || b in AncestorsFrom(a, rs, {})
  }

  /** `n` parent steps lead from `a` to `b`. */
  predicate Leads(a: string, b: string, rs: Resources, n: nat) { Up(a, rs, n) == Some(b) }

  /** A name is among the ancestors if and only if one or more parent steps lead to it. */
  lemma AncestorIff(id: string, rs: Resources, x: string)
    ensures x in AncestorsFrom(id, rs, {}) <==> exists n: nat :: n > 0 && Leads(id, x, rs, n)
  {
    var names := AncestorsFrom(id, rs, {});
    AncestorsExact(id, rs);
    if x in names {
      var i :| 0 <= i < |names| && names[i] == x;
      assert Leads(id, x, rs, i + 1);
    }
    if n: nat :| n > 0 && Leads(id, x, rs, n) { assert Reaches(id, names, rs, n); }
  }

  /** Two resources overlap if and only if parent steps lead from one to the other. */
  lemma OverlapsIff(a: string, b: string, rs: Resources)
    ensures Overlaps(a, b, rs) <==> (exists n: nat :: Leads(a, b, rs, n)) || (exists n: nat :: Leads(b, a, rs, n))
  {
    AncestorIff(a, rs, b);
    AncestorIff(b, rs, a);
    if a == b { assert Leads(a, b, rs, 0); }
    if n: nat :| Leads(a, b, rs, n) {
      if n == 0 { assert a == b; }
    }
    if n: nat :| Leads(b, a, rs, n) {
      if n == 0 { assert a == b; }
    }
  }

  /* ---- conflicts ---- */

  predicate ModesConflict(a: Mode, b: Mode) {
    if a.Exclusive? || b.Exclusive? then true
    else if a.WriteBlocker? || b.WriteBlocker? then a.WriteMode? || b.WriteMode?
    else if a.ReadMode? && b.ReadMode? then false
    else if a.Capacity? && b.Capacity? then false
    else if (a.Capacity? && b.ReadMode?) || (a.ReadMode? && b.Capacity?) then false
    else a.WriteMode? || b.WriteMode? || a != b
  }

  /** Two claims on one resource go together if and only if neither is exclusive and: a write blocker
      meets no write, or both only read or take capacity, or both have the same mode, not writing. */
  lemma ModesConflictIff(a: Mode, b: Mode)
    ensures !ModesConflict(a, b) <==> (
      && Exclusive !in {a, b}
      && (|| (WriteBlocker in {a, b} && WriteMode !in {a, b})
          || {a, b} <= {ReadMode, Capacity}
          || (a == b && a != WriteMode)))
    ensures ModesConflict(a, b) == ModesConflict(b, a)
  {
    assert a in {a, b} && b in {a, b};
  }

  function Used(held: seq<Claim>, resource: string): nat {
    if held == [] then 0
    else (if held[0].resource == resource && held[0].mode.Capacity? then held[0].amount else 0) + Used(held[1..], resource)
  }

  predicate OverCapacity(c: Claim, held: seq<Claim>, rs: Resources) {
    c.mode.Capacity?
    && (c.resource !in rs || rs[c.resource].capacity.None? || Used(held, c.resource) + c.amount > rs[c.resource].capacity.value)
  }

  predicate Retired(c: Claim, rs: Resources) { c.resource in rs && rs[c.resource].retired && !c.mode.ReadMode? }

  predicate Clashes(c: Claim, h: Claim, rs: Resources) { Overlaps(c.resource, h.resource, rs) && ModesConflict(c.mode, h.mode) }

  /** `claim_conflicts` reports a reason. */
  predicate ClaimConflicts(c: Claim, held: seq<Claim>, rs: Resources) {
    Retired(c, rs) || (exists h :: h in held && Clashes(c, h, rs)) || OverCapacity(c, held, rs)
  }

  lemma {:induction false} UsedConcat(a: seq<Claim>, b: seq<Claim>, resource: string)
    ensures Used(a + b, resource) == Used(a, resource) + Used(b, resource)
  {
    if a == [] {
      assert a + b == b;
    } else {
      assert (a + b)[1..] == a[1..] + b;
      UsedConcat(a[1..], b, resource);
    }
  }

  /** Holding more never removes a conflict. */
  lemma ConflictMonotone(c: Claim, held: seq<Claim>, more: seq<Claim>, rs: Resources)
    requires ClaimConflicts(c, held, rs)
    ensures ClaimConflicts(c, held + more, rs)
  {
    UsedConcat(held, more, c.resource);
    if h :| h in held && Clashes(c, h, rs) { assert h in held + more; }
  }
}
