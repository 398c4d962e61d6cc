/** What a conflict-free selection of src/bureau/frontier.py means for the claims of its tasks. */
module FrontierClaims {
  import opened Prelude
  import opened Claims
  import opened Frontier

  /* ---- no two selected tasks clash ---- */

  lemma {:induction false} ClaimIsHeld(ts: seq<Task>, i: nat, c: Claim)
    requires i < |ts| && c in ts[i].claims
    ensures c in Held(ts)
  {
    var n := |ts| - 1;
    if i < n { ClaimIsHeld(ts[..n], i, c); }
  }

  /** Claims of two selected tasks on overlapping resources have modes that go together. */
  lemma SelectedTogether(chosen: seq<Task>, rs: Resources, i: nat, j: nat, c: Claim, d: Claim)
    requires Free([], chosen, rs) && i < j < |chosen| && c in chosen[i].claims && d in chosen[j].claims
    ensures Overlaps(c.resource, d.resource, rs) ==> !ModesConflict(c.mode, d.mode)
  {
    assert [] + chosen[..j] == chosen[..j];
    ClaimIsHeld(chosen[..j], i, c);
    assert !ClaimConflicts(d, Held(chosen[..j]), rs);
    if Overlaps(c.resource, d.resource, rs) {
      assert !Clashes(d, c, rs);
      ModesConflictIff(c.mode, d.mode);
    }
  }

  /** Of a retired resource, selected tasks claim only reading. */
  lemma RetiredOnlyRead(chosen: seq<Task>, rs: Resources, i: nat, c: Claim)
    requires Free([], chosen, rs) && i < |chosen| && c in chosen[i].claims && c.resource in rs && rs[c.resource].retired
    ensures c.mode == ReadMode
  {
    assert !Conflicts(chosen[i], [] + chosen[..i], rs);
    assert !ClaimConflicts(c, Held([] + chosen[..i]), rs);
  }

  /* ---- capacities ---- */

  predicate Takes(c: Claim, r: string) { c.mode.Capacity? && c.resource == r }

  /** None of the task's claims conflicts with what is held. */
  predicate Admitted(t: Task, held: seq<Claim>, rs: Resources) { forall c :: c in t.claims ==> !ClaimConflicts(c, held, rs) }

  predicate Within(held: seq<Claim>, r: string, rs: Resources) {
    r in rs && rs[r].capacity.Some? && Used(held, r) <= rs[r].capacity.value
  }

  /** Whatever is held and whatever the capacities: once admitted, the task's claims fit in. */
  ghost predicate NeverOverbooks(t: Task, r: string) {
    forall held: seq<Claim>, rs: Resources {:trigger Admitted(t, held, rs)} ::
      Admitted(t, held, rs) && (exists c :: c in t.claims && Takes(c, r)) ==> Within(held + t.claims, r, rs)
  }

  /** At most one of the claims takes a positive amount of the resource. */
  predicate OneClaim(claims: seq<Claim>, r: string) {
    forall i, j :: 0 <= i < j < |claims| && Takes(claims[i], r) && Takes(claims[j], r) ==> claims[i].amount == 0 || claims[j].amount == 0
  }

  lemma {:induction false} NoneUsed(claims: seq<Claim>, r: string)
    requires forall c :: c in claims && Takes(c, r) ==> c.amount == 0
    ensures Used(claims, r) == 0
  {
    if claims != [] {
      assert claims[0] in claims;
      NoneUsed(claims[1..], r);
    }
  }

  /** With one positive claim the sum is that claim's amount. */
  lemma {:induction false} OneIsAll(claims: seq<Claim>, r: string) returns (c: Claim)
    requires OneClaim(claims, r) && exists x :: x in claims && Takes(x, r)
    ensures c in claims && Takes(c, r) && Used(claims, r) == c.amount
  {
    if Takes(claims[0], r) && claims[0].amount > 0 {
      c := claims[0];
      forall x | x in claims[1..] && Takes(x, r) ensures x.amount == 0 {
        var j :| 0 <= j < |claims[1..]| && claims[1..][j] == x;
        assert claims[j + 1] == x;
      }
      NoneUsed(claims[1..], r);
    } else if exists x :: x in claims[1..] && Takes(x, r) {
      assert OneClaim(claims[1..], r) by {
        forall i, j | 0 <= i < j < |claims[1..]| && Takes(claims[1..][i], r) && Takes(claims[1..][j], r)
          ensures claims[1..][i].amount == 0 || claims[1..][j].amount == 0
        {
          assert claims[1..][i] == claims[i + 1] && claims[1..][j] == claims[j + 1];
        }
      }
      c := OneIsAll(claims[1..], r);
    } else {
      c := claims[0];
      NoneUsed(claims[1..], r);
    }
  }

  lemma OneClaimFits(t: Task, r: string, held: seq<Claim>, rs: Resources)
    requires OneClaim(t.claims, r) && Admitted(t, held, rs) && exists c :: c in t.claims && Takes(c, r)
    ensures Within(held + t.claims, r, rs)
  {
    var c := OneIsAll(t.claims, r);
    assert !ClaimConflicts(c, held, rs);
    UsedConcat(held, t.claims, r);
  }

  lemma {:induction false} UsedAtLeast(claims: seq<Claim>, r: string, i: nat)
    requires i < |claims| && Takes(claims[i], r)
    ensures Used(claims, r) >= claims[i].amount
  {
    if i > 0 { UsedAtLeast(claims[1..], r, i - 1); }
  }

  /** Besides a given claim there is another positive one. */
  lemma {:induction false} UsedMore(claims: seq<Claim>, r: string, i: nat, j: nat, k: nat)
    requires i < j < |claims| && Takes(claims[i], r) && Takes(claims[j], r) && claims[i].amount > 0 && claims[j].amount > 0
    requires k < |claims| && Takes(claims[k], r)
    ensures Used(claims, r) > claims[k].amount
  {
    if k == 0 {
      UsedAtLeast(claims[1..], r, j - 1);
    } else if i > 0 {
      UsedMore(claims[1..], r, i - 1, j - 1, k - 1);
    } else {
      UsedAtLeast(claims[1..], r, k - 1);
    }
  }

  /** Resources with just less capacity than the claims take of `r`, and plenty of everything else. */
  function Tight(claims: seq<Claim>, r: string): Resources {
    map x | x in Names(claims) :: Resource(None, Some(if x == r then Used(claims, r) - 1 else Most(claims)), false)
  }

  function Names(claims: seq<Claim>): set<string> { set c | c in claims :: c.resource }

  function Most(claims: seq<Claim>): nat { if claims == [] then 0 else Max(claims[0].amount, Most(claims[1..])) }

  lemma {:induction false} MostIs(claims: seq<Claim>, c: Claim)
    requires c in claims
    ensures c.amount <= Most(claims)
  {
    if c != claims[0] { MostIs(claims[1..], c); }
  }

  /** Each claim alone fits into them. */
  lemma TightAdmits(claims: seq<Claim>, r: string, i: nat, j: nat, k: nat)
    requires i < j < |claims| && Takes(claims[i], r) && Takes(claims[j], r) && claims[i].amount > 0 && claims[j].amount > 0
    requires k < |claims|
    ensures !ClaimConflicts(claims[k], [], Tight(claims, r))
  {
    MostIs(claims, claims[k]);
    if Takes(claims[k], r) { UsedMore(claims, r, i, j, k); }
  }

  lemma TwoClaimsOverbook(t: Task, r: string, i: nat, j: nat)
    requires i < j < |t.claims| && Takes(t.claims[i], r) && Takes(t.claims[j], r)
    requires t.claims[i].amount > 0 && t.claims[j].amount > 0
    ensures Admitted(t, [], Tight(t.claims, r)) && !Within([] + t.claims, r, Tight(t.claims, r))
  {
    assert t.claims[i].resource in Names(t.claims);
    forall c | c in t.claims ensures !ClaimConflicts(c, [], Tight(t.claims, r)) {
      var k :| 0 <= k < |t.claims| && t.claims[k] == c;
      TightAdmits(t.claims, r, i, j, k);
    }
    assert [] + t.claims == t.claims;
  }

  /** A task never overbooks a resource if and only if at most one of its claims takes a positive amount
      of it: each claim is compared with what is held, but not with the task's other claims. */
  lemma NeverOverbooksIff(t: Task, r: string)
    ensures NeverOverbooks(t, r) <==> OneClaim(t.claims, r)
  {
    if OneClaim(t.claims, r) {
      forall held: seq<Claim>, rs: Resources | Admitted(t, held, rs) && exists c :: c in t.claims && Takes(c, r)
        ensures Within(held + t.claims, r, rs)
      {
        OneClaimFits(t, r, held, rs);
      }
    } else {
      var i, j :| 0 <= i < j < |t.claims| && Takes(t.claims[i], r) && Takes(t.claims[j], r) && t.claims[i].amount > 0 && t.claims[j].amount > 0;
      TwoClaimsOverbook(t, r, i, j);
      assert Takes(t.claims[i], r);
    }
  }

  /** The selected tasks together stay within every capacity they take, if no task claims the same
      capacity twice. */
  lemma {:induction false} SelectionWithinCapacity(chosen: seq<Task>, rs: Resources, r: string)
    requires Free([], chosen, rs) && (forall i :: 0 <= i < |chosen| ==> OneClaim(chosen[i].claims, r))
    requires exists c :: c in Held(chosen) && Takes(c, r)
    ensures Within(Held(chosen), r, rs)
  {
    var n := |chosen| - 1;
    var front, t := chosen[..n], chosen[n];
    assert !Conflicts(t, [] + front, rs) && [] + front == front;
    FreeFront(chosen, rs);
    if exists c :: c in t.claims && Takes(c, r) {
      OneClaimFits(t, r, Held(front), rs);
    } else {
      var c :| c in Held(chosen) && Takes(c, r);
      assert c in Held(front);
      SelectionWithinCapacity(front, rs, r);
      NoneUsed(t.claims, r);
      UsedConcat(Held(front), t.claims, r);
    }
  }

  lemma FreeFront(chosen: seq<Task>, rs: Resources)
    requires Free([], chosen, rs) && chosen != []
    ensures Free([], chosen[..|chosen| - 1], rs)
  {
    var front := chosen[..|chosen| - 1];
    forall i | 0 <= i < |front| ensures !Conflicts(front[i], [] + front[..i], rs) {
      assert front[..i] == chosen[..i];
      assert !Conflicts(chosen[i], [] + chosen[..i], rs);
    }
  }
}
