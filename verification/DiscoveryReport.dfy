/** What a scan of src/bureau/discovery.py reports: the first of its new candidates in the order of
    their fingerprints, and whether they may be promoted. */
module DiscoveryReport {
  import opened Prelude
  import opened Discovery
  import opened DiscoveryScan
  import JsonValues
  import Lanes

  const MAX_NEW_CANDIDATES := 20

  /** How fingerprints are written as text. */
  type Hex = Fingerprint -> string

  ghost predicate Injective(hex: Hex) { forall x, y :: hex(x) == hex(y) ==> x == y }

  predicate Less(x: Fingerprint, y: Fingerprint, hex: Hex) { x != y && Lanes.TextLeq(hex(x), hex(y)) }

  ghost predicate IsLeast(x: Fingerprint, prints: set<Fingerprint>, hex: Hex) {
    x in prints && forall y :: y in prints && y != x ==> Less(x, y, hex)
  }

  lemma {:induction false} LeastExists(prints: set<Fingerprint>, hex: Hex)
    requires prints != {}
    ensures exists x :: IsLeast(x, prints, hex)
  {
    var y :| y in prints;
    var rest := prints - {y};
    if rest == {} {
      assert prints == {y};
      assert IsLeast(y, prints, hex);
    } else {
      LeastExists(rest, hex);
      var x :| IsLeast(x, rest, hex);
      Lanes.TextOrder(hex(x), hex(y), hex(x));
      if Less(y, x, hex) {
        forall z | z in rest ensures Less(y, z, hex) { Lanes.TextOrder(hex(y), hex(x), hex(z)); }
        assert IsLeast(y, prints, hex);
      } else {
        assert IsLeast(x, prints, hex);
      }
    }
  }

  /** `sorted` on fingerprints. */
  ghost function InTextOrder(prints: set<Fingerprint>, hex: Hex): (r: seq<Fingerprint>)
    ensures |r| == |prints|
    decreases |prints|
  {
    if prints == {} then []
    else
      LeastExists(prints, hex);
      var x :| IsLeast(x, prints, hex);
      [x] + InTextOrder(prints - {x}, hex)
  }

  /** How many of `prints` come before `x`. */
  function Before(x: Fingerprint, prints: set<Fingerprint>, hex: Hex): nat { |set y | y in prints && Less(y, x, hex)| }

  lemma FirstInOrder(prints: set<Fingerprint>, hex: Hex) returns (m: Fingerprint)
    requires prints != {}
    ensures IsLeast(m, prints, hex) && InTextOrder(prints, hex) == [m] + InTextOrder(prints - {m}, hex)
  {
    LeastExists(prints, hex);
    m :| IsLeast(m, prints, hex) && InTextOrder(prints, hex) == [m] + InTextOrder(prints - {m}, hex);
  }

  lemma {:induction false} OrderMembers(prints: set<Fingerprint>, hex: Hex, x: Fingerprint)
    ensures x in InTextOrder(prints, hex) <==> x in prints
    decreases |prints|
  {
    if prints != {} {
      var m := FirstInOrder(prints, hex);
      OrderMembers(prints - {m}, hex, x);
    }
  }

  lemma {:induction false} Positions(prints: set<Fingerprint>, hex: Hex, x: Fingerprint)
    requires Injective(hex) && x in prints
    ensures Before(x, prints, hex) < |prints| && InTextOrder(prints, hex)[Before(x, prints, hex)] == x
    decreases |prints|
  {
    var m := FirstInOrder(prints, hex);
    BeforeStep(prints, hex, m, x);
    if x != m { Positions(prints - {m}, hex, x); }
  }

  lemma BeforeStep(prints: set<Fingerprint>, hex: Hex, m: Fingerprint, x: Fingerprint)
    requires Injective(hex) && IsLeast(m, prints, hex) && x in prints
    ensures Before(x, prints, hex) == if x == m then 0 else 1 + Before(x, prints - {m}, hex)
  {
    var all, rest := set y | y in prints && Less(y, x, hex), set y | y in prints - {m} && Less(y, x, hex);
    if x == m {
      forall y | y in prints ensures !Less(y, x, hex) { Lanes.TextOrder(hex(y), hex(x), hex(y)); }
      assert all == {};
    } else {
      assert all == rest + {m};
    }
  }

  lemma {:induction false} OrderDistinct(prints: set<Fingerprint>, hex: Hex, i: nat, j: nat)
    requires i < j < |prints|
    ensures InTextOrder(prints, hex)[i] != InTextOrder(prints, hex)[j]
    decreases |prints|
  {
    var m := FirstInOrder(prints, hex);
    if i > 0 {
      OrderDistinct(prints - {m}, hex, i - 1, j - 1);
    } else {
      var rest := InTextOrder(prints - {m}, hex);
      assert rest[j - 1] in rest;
      OrderMembers(prints - {m}, hex, rest[j - 1]);
    }
  }

  /* ---- the report of one scan ---- */

  function NewPrints(s: State, after: State): set<Fingerprint> { after.fingerprints - s.fingerprints }

  ghost function Reported(s: State, after: State, hex: Hex): seq<Fingerprint> {
    InTextOrder(NewPrints(s, after), hex)[..Min(MAX_NEW_CANDIDATES, |NewPrints(s, after)|)]
  }

  function Overflow(s: State, after: State): nat { Max(0, |NewPrints(s, after)| - MAX_NEW_CANDIDATES) }

  /** A new fingerprint is reported if and only if fewer than MAX_NEW_CANDIDATES new ones come before it. */
  lemma ReportedAt(s: State, after: State, hex: Hex, x: Fingerprint)
    requires Injective(hex)
    ensures x in Reported(s, after, hex) <==> x in NewPrints(s, after) && Before(x, NewPrints(s, after), hex) < MAX_NEW_CANDIDATES
  {
    var found := NewPrints(s, after);
    var all, n := InTextOrder(found, hex), Min(MAX_NEW_CANDIDATES, |found|);
    OrderMembers(found, hex, x);
    if x in found {
      var b := Before(x, found, hex);
      Positions(found, hex, x);
      if b < n { assert all[..n][b] == x; }
      if i :| 0 <= i < n && all[i] == x {
        if i < b { OrderDistinct(found, hex, i, b); }
      }
    }
  }

  /** All new fingerprints are reported if and only if there are at most MAX_NEW_CANDIDATES of them. */
  lemma AllReportedIff(s: State, after: State, hex: Hex)
    requires Injective(hex)
    ensures (forall x :: x in NewPrints(s, after) ==> x in Reported(s, after, hex)) <==> |NewPrints(s, after)| <= 20
    ensures Overflow(s, after) == 0 <==> |NewPrints(s, after)| <= 20
  {
    var found := NewPrints(s, after);
    if |found| <= MAX_NEW_CANDIDATES {
      forall x | x in found ensures x in Reported(s, after, hex) {
        Positions(found, hex, x);
        ReportedAt(s, after, hex, x);
      }
    } else {
      var x := LeftOver(s, after, hex);
    }
  }

  lemma LeftOver(s: State, after: State, hex: Hex) returns (x: Fingerprint)
    requires Injective(hex) && |NewPrints(s, after)| > MAX_NEW_CANDIDATES
    ensures x in NewPrints(s, after) && x !in Reported(s, after, hex)
  {
    var found := NewPrints(s, after);
    var all := InTextOrder(found, hex);
    x := all[MAX_NEW_CANDIDATES];
    assert x in all;
    OrderMembers(found, hex, x);
    forall i | 0 <= i < MAX_NEW_CANDIDATES ensures all[i] != x { OrderDistinct(found, hex, i, MAX_NEW_CANDIDATES); }
  }

  /** `promotion_allowed`; `sourceErrors` counts the sources that failed. */
  predicate PromotionAllowed(baseline: bool, sourceErrors: nat, s: State, works: seq<Work>, resolved: set<string>) {
    var p := ProcessAll(works, s.documents);
    && !baseline && sourceErrors + p.errors == 0 && resolved != {}
    && Overflow(s, Scan(s, works, resolved)) == 0 && p.considered < MAX_DOCUMENTS
  }

  lemma {:induction false} ErrorsMean(works: seq<Work>, previous: map<Key, Document>)
    requires |works| < MAX_DOCUMENTS
    ensures var p := ProcessAll(works, previous);
      p.considered == |works| && (p.errors == 0 <==> forall i :: 0 <= i < |works| ==> !works[i].read.ReadFails?)
  {
    if works != [] {
      var n := |works| - 1;
      ErrorsMean(works[..n], previous);
      assert forall i :: 0 <= i < n ==> works[..n][i] == works[i];
    }
  }

  /** Promotion is allowed if and only if the report is complete: no source failed, at least one
      resolved, every file was within the document limit and read, and no new candidate was cut off. */
  lemma PromotionAllowedIff(baseline: bool, sourceErrors: nat, s: State, works: seq<Work>, resolved: set<string>, hex: Hex)
    requires Injective(hex)
    ensures var after := Scan(s, works, resolved);
      PromotionAllowed(baseline, sourceErrors, s, works, resolved) <==> (
        && !baseline && sourceErrors == 0 && resolved != {}
        && |works| < 500 && (forall i :: 0 <= i < |works| ==> !works[i].read.ReadFails?)
        && forall x :: x in NewPrints(s, after) ==> x in Reported(s, after, hex))
  {
    AllReportedIff(s, Scan(s, works, resolved), hex);
    ProcessMeans(works, s.documents, ("", ""));
    if |works| < MAX_DOCUMENTS { ErrorsMean(works, s.documents); }
  }

  /* ---- any sequence of scans ---- */

  /** A candidate with this fingerprint is in a stored document at all times after `k` up to `n`. */
  ghost predicate FoundFrom(states: seq<State>, k: nat, n: nat, x: Fingerprint)
    requires n < |states|
  {
    forall j :: k < j <= n ==> Found(states[j], x)
  }

  predicate Found(s: State, x: Fingerprint) { x in Fingerprints(s.documents) }

  ghost predicate ReportedDuring(states: seq<State>, hex: Hex, k: nat, n: nat, x: Fingerprint)
    requires n < |states|
  {
    exists i :: k <= i < n && x in Reported(states[i], states[i + 1], hex)
  }

  lemma StoredPrints(states: seq<State>, ls: seq<ScanInput>, j: nat)
    requires Scans(states, ls) && 0 < j < |states|
    ensures states[j].fingerprints == Fingerprints(states[j].documents)
  {
    assert ScannedAt(states, ls, j - 1);
  }

  /** A candidate that appears at scan `k` and stays is reported, at that scan or at any later one, if
      and only if fewer than MAX_NEW_CANDIDATES of the new ones at scan `k` come before it: what the
      cut leaves over is never reported while it stays. */
  lemma ReportedIffEarly(states: seq<State>, ls: seq<ScanInput>, hex: Hex, k: nat, n: nat, x: Fingerprint)
    requires Injective(hex) && Scans(states, ls) && k < n < |states|
    requires x !in states[k].fingerprints && FoundFrom(states, k, n, x)
    ensures ReportedDuring(states, hex, k, n, x) <==> Before(x, NewPrints(states[k], states[k + 1]), hex) < 20
  {
    FoundIsStored(states, ls, k, n, x, k + 1);
    ReportedAt(states[k], states[k + 1], hex, x);
    forall i | k < i < n ensures x !in Reported(states[i], states[i + 1], hex) {
      FoundIsStored(states, ls, k, n, x, i);
      ReportedAt(states[i], states[i + 1], hex, x);
    }
  }

  lemma FoundIsStored(states: seq<State>, ls: seq<ScanInput>, k: nat, n: nat, x: Fingerprint, j: nat)
    requires Scans(states, ls) && k < j <= n < |states| && FoundFrom(states, k, n, x)
    ensures x in states[j].fingerprints
  {
    StoredPrints(states, ls, j);
    assert Found(states[j], x);
  }

  /* ---- twenty-one candidates ---- */

  function Tag(i: nat): string { seq(i + 1, _ => 'x') }

  function TaskItem(i: nat): Item { Item("open", true, Some(Tag(i)), Some(Title("t", "t"))) }

  function TaskItems(n: nat): seq<Item> { seq(n, i requires i >= 0 => TaskItem(i)) }

  const PLAN := "plan.json"
  const ORIGIN := Origin("repo:a", "r1", PLAN, "a")

  function PlanBlob(n: nat): Blob { Blob([], true, Some(TaskItems(n)), []) }

  function PlanWork(n: nat): Work { Work("repo:a", "r1", PLAN, "a", Got(PlanBlob(n))) }

  function PlanInput(n: nat): ScanInput { ScanInput([PlanWork(n)], {"repo:a"}) }

  function Print(i: nat): Fingerprint { Sha256(("repo:a", PLAN, External(Tag(i)), "t")) }

  function Prints(n: nat): set<Fingerprint> { set i | 0 <= i < n :: Print(i) }

  lemma {:induction false} PrintsSize(n: nat)
    ensures |Prints(n)| == n
  {
    if n > 0 {
      PrintsSize(n - 1);
      assert Prints(n) == Prints(n - 1) + {Print(n - 1)};
      forall i | 0 <= i < n - 1 ensures Print(i) != Print(n - 1) { assert |Tag(i)| != |Tag(n - 1)|; }
    }
  }

  lemma {:induction false} ItemsFound(n: nat)
    ensures var cs := FromItems(ORIGIN, TaskItems(n)); |cs| == n && forall i :: 0 <= i < n ==> cs[i].fingerprint == Print(i)
  {
    if n > 0 {
      ItemsFound(n - 1);
      assert TaskItems(n)[..n - 1] == TaskItems(n - 1);
      assert Tag(n - 1) != "" by { assert |Tag(n - 1)| == n; }
    }
  }

  lemma PlanExtracts(n: nat)
    ensures Extract(ORIGIN, PlanBlob(n)) == FromItems(ORIGIN, TaskItems(n))
  {
    assert JsonValues.Lower(PLAN) == PLAN;
    assert PLAN[|PLAN| - 5..] == ".json";
  }

  const NO_STATE := State(map[], {}, {})

  function Stored(w: Work, b: Blob): map<Key, Document> { map[KeyOf(w) := FreshDocument(w, b)] }

  lemma FirstScan(w: Work, b: Blob)
    requires w.read == Got(b)
    ensures DocumentsAfter([w], map[]) == Stored(w, b)
  {
    OneWork(map[], w);
  }

  /** Scanning an unchanged file again changes nothing. */
  lemma NextScan(w: Work, b: Blob)
    requires w.read == Got(b)
    ensures DocumentsAfter([w], Stored(w, b)) == Stored(w, b)
  {
    OneWork(Stored(w, b), w);
    RefreshIsFreshIff(FreshDocument(w, b), w, b);
  }

  lemma OneWork(previous: map<Key, Document>, w: Work)
    ensures ProcessAll([w], previous) == Process(NOTHING, w, previous)
  {
    assert [w][..0] == [];
  }

  lemma {:induction false} PlanStored(states: seq<State>, ls: seq<ScanInput>, w: Work, b: Blob, resolved: set<string>, j: nat)
    requires Scans(states, ls) && states[0] == NO_STATE && 0 < j < |states| && w.read == Got(b)
    requires forall i :: 0 <= i < |ls| ==> ls[i] == ScanInput([w], resolved)
    ensures states[j].documents == Stored(w, b)
  {
    assert ScannedAt(states, ls, j - 1);
    if j == 1 {
      FirstScan(w, b);
    } else {
      PlanStored(states, ls, w, b, resolved, j - 1);
      NextScan(w, b);
    }
  }

  lemma PlanPrints(n: nat)
    ensures Fingerprints(Stored(PlanWork(n), PlanBlob(n))) == Prints(n)
  {
    PlanExtracts(n);
    ItemsFound(n);
    var cs, stored := Extract(ORIGIN, PlanBlob(n)), Stored(PlanWork(n), PlanBlob(n));
    forall x | x in Prints(n) ensures x in Fingerprints(stored) {
      var i :| 0 <= i < n && x == Print(i);
      assert cs[i] in stored[("repo:a", PLAN)].candidates;
    }
    forall x | x in Fingerprints(stored) ensures x in Prints(n) {
      var c :| c in cs && c.fingerprint == x;
      var i :| 0 <= i < |cs| && cs[i] == c;
    }
  }

  lemma PlanFound(states: seq<State>, ls: seq<ScanInput>, n: nat, j: nat)
    requires Scans(states, ls) && states[0] == NO_STATE && 0 < j < |states|
    requires forall i :: 0 <= i < |ls| ==> ls[i] == PlanInput(n)
    ensures states[j].fingerprints == Prints(n) == Fingerprints(states[j].documents)
  {
    PlanStored(states, ls, PlanWork(n), PlanBlob(n), {"repo:a"}, j);
    PlanPrints(n);
    StoredPrints(states, ls, j);
  }

  lemma PlanLeftOver(s: State, after: State, hex: Hex) returns (x: Fingerprint)
    requires Injective(hex) && s == NO_STATE && after.fingerprints == Prints(MAX_NEW_CANDIDATES + 1)
    ensures x in Prints(MAX_NEW_CANDIDATES + 1) && Before(x, NewPrints(s, after), hex) >= MAX_NEW_CANDIDATES
  {
    PrintsSize(MAX_NEW_CANDIDATES + 1);
    assert NewPrints(s, after) == Prints(MAX_NEW_CANDIDATES + 1);
    x := LeftOver(s, after, hex);
    ReportedAt(s, after, hex, x);
  }

  /** A plan with twenty-one open tasks, scanned any number of times: one of its candidates is stored
      by every scan and reported by none. */
  lemma LeftOverNeverReported(states: seq<State>, ls: seq<ScanInput>, hex: Hex) returns (x: Fingerprint)
    requires Injective(hex) && Scans(states, ls) && states[0] == NO_STATE && |ls| > 0
    requires forall i :: 0 <= i < |ls| ==> ls[i] == PlanInput(21)
    ensures forall j :: 0 < j < |states| ==> x in states[j].fingerprints
    ensures !ReportedDuring(states, hex, 0, |ls|, x)
  {
    PlanFound(states, ls, MAX_NEW_CANDIDATES + 1, 1);
    x := PlanLeftOver(states[0], states[1], hex);
    forall j | 0 < j < |states| ensures x in states[j].fingerprints && Found(states[j], x) {
      PlanFound(states, ls, MAX_NEW_CANDIDATES + 1, j);
    }
    ReportedIffEarly(states, ls, hex, 0, |ls|, x);
  }
}
