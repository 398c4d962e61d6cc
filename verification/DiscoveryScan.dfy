/** The scan step of src/bureau/discovery.py: documents are read, refreshed or extracted, the
    others carried forward, and the fingerprints and observed sources accounted for. */
module DiscoveryScan {
  import opened Prelude
  import opened Discovery

  const MAX_DOCUMENTS := 500

  type Key = (string, string)

  /** A stored document; an old state may lack its source, path or digest. */
  datatype Document = Document(
    source: Option<string>, path: Option<string>, revision: string, project: string,
    sha: Option<Digest<Blob>>, candidates: seq<Candidate>)

  datatype Read = Absent | Got(blob: Blob) | ReadFails

  /** One planning file of one source at its resolved revision. */
  datatype Work = Work(source: string, revision: string, path: string, project: string, read: Read)

  datatype State = State(documents: map<Key, Document>, observed: set<string>, fingerprints: set<Fingerprint>)

  datatype Progress = Progress(current: map<Key, Document>, changed: set<Key>, considered: nat, errors: nat)

  const NOTHING := Progress(map[], {}, 0, 0)

  function KeyOf(w: Work): Key { (w.source, w.path) }

  function FreshDocument(w: Work, b: Blob): Document {
    Document(Some(w.source), Some(w.path), w.revision, w.project, Some(Sha256(b)), Extract(Origin(w.source, w.revision, w.path, w.project), b))
  }

  function Refreshed(d: Document, revision: string): Document {
    d.(revision := revision, candidates := RestampAll(d.candidates, revision))
  }

  predicate Unchanged(previous: map<Key, Document>, w: Work, b: Blob) {
    KeyOf(w) in previous && previous[KeyOf(w)].sha == Some(Sha256(b))
  }

  /** `process_document`. */
  function Process(p: Progress, w: Work, previous: map<Key, Document>): Progress {
    if p.considered >= MAX_DOCUMENTS then p
    else
      var q := p.(considered := p.considered + 1);
      match w.read
      case Absent => if KeyOf(w) in previous then q.(changed := q.changed + {KeyOf(w)}) else q
      case ReadFails => q.(errors := q.errors + 1)
      case Got(b) =>
        if Unchanged(previous, w, b) then q.(current := q.current[KeyOf(w) := Refreshed(previous[KeyOf(w)], w.revision)])
        else q.(current := q.current[KeyOf(w) := FreshDocument(w, b)], changed := q.changed + {KeyOf(w)})
  }

  function ProcessAll(works: seq<Work>, previous: map<Key, Document>): Progress {
    if works == [] then NOTHING else Process(ProcessAll(works[..|works| - 1], previous), works[|works| - 1], previous)
  }

  /** Whether a change was recorded under the document's own source and path. */
  predicate Touched(d: Document, changed: set<Key>) {
    d.source.Some? && d.path.Some? && (d.source.value, d.path.value) in changed
  }

  function Carried(p: Progress, previous: map<Key, Document>): map<Key, Document> {
    map k | k in previous && k !in p.current && !Touched(previous[k], p.changed) :: previous[k]
  }

  function DocumentsAfter(works: seq<Work>, previous: map<Key, Document>): map<Key, Document> {
    var p := ProcessAll(works, previous); p.current + Carried(p, previous)
  }

  function Fingerprints(documents: map<Key, Document>): set<Fingerprint> {
    set k, c | k in documents && c in documents[k].candidates :: c.fingerprint
  }

  function Sources(documents: map<Key, Document>): set<string> {
    set k | k in documents && documents[k].source.Some? :: documents[k].source.value
  }

  /** One scan; `resolved` holds the sources whose revision resolved. */
  function Scan(s: State, works: seq<Work>, resolved: set<string>): State {
    var documents := DocumentsAfter(works, s.documents);
    State(documents, s.observed + Sources(s.documents) + resolved, Fingerprints(documents))
  }

  method ProcessWorks(works: seq<Work>, previous: map<Key, Document>) returns (p: Progress)
    ensures p == ProcessAll(works, previous)
  {
    p := NOTHING;
    for i := 0 to |works|
      invariant p == ProcessAll(works[..i], previous)
    {
      assert works[..i + 1][..i] == works[..i];
      p := Process(p, works[i], previous);
    }
    assert works[..|works|] == works;
  }

  /** The loop that carries unread documents forward. */
  method CarryForward(p: Progress, previous: map<Key, Document>) returns (documents: map<Key, Document>)
    ensures documents == p.current + Carried(p, previous)
  {
    documents := p.current;
    var left := previous.Keys;
    ghost var carried := Carried(p, previous);
    while left != {}
      invariant left <= previous.Keys
      invariant documents.Keys == p.current.Keys + (carried.Keys - left)
      invariant forall k :: k in documents ==> documents[k] == if k in carried then previous[k] else p.current[k]
    {
      var k :| k in left;
      left := left - {k};
      if k !in p.current && !Touched(previous[k], p.changed) { documents := documents[k := previous[k]]; }
    }
  }

  /** The scan with its loops. */
  method ScanDocuments(s: State, works: seq<Work>, resolved: set<string>) returns (after: State)
    ensures after == Scan(s, works, resolved)
  {
    var p := ProcessWorks(works, s.documents);
    var documents := CarryForward(p, s.documents);
    after := State(documents, s.observed + Sources(s.documents) + resolved, Fingerprints(documents));
  }

  /* ---- incremental and full scans agree ---- */

  /** The stored candidates are what the extractor gives for the stored blob. */
  predicate Faithful(d: Document, k: Key) {
    && d.source == Some(k.0) && d.path == Some(k.1) && d.sha.Some?
    && d.candidates == Extract(Origin(k.0, d.revision, k.1, d.project), d.sha.value.preimage)
  }

  ghost predicate AllFaithful(documents: map<Key, Document>) {
    forall k :: k in documents ==> Faithful(documents[k], k)
  }

  /** A refreshed document equals a fresh extraction exactly when the project name is unchanged. */
  lemma RefreshIsFreshIff(d: Document, w: Work, b: Blob)
    requires Faithful(d, KeyOf(w)) && d.sha == Some(Sha256(b))
    ensures Refreshed(d, w.revision) == FreshDocument(w, b) <==> d.project == w.project
    ensures Faithful(Refreshed(d, w.revision), KeyOf(w))
  {
    ExtractRestamps(Origin(w.source, d.revision, w.path, d.project), w.revision, b);
  }

  lemma {:induction false} ProcessFaithful(works: seq<Work>, previous: map<Key, Document>)
    requires AllFaithful(previous)
    ensures AllFaithful(ProcessAll(works, previous).current)
  {
    if works != [] {
      var n := |works| - 1;
      ProcessFaithful(works[..n], previous);
      var w := works[n];
      if w.read.Got? && Unchanged(previous, w, w.read.blob) { RefreshIsFreshIff(previous[KeyOf(w)], w, w.read.blob); }
    }
  }

  ghost predicate ProjectsUnchanged(works: seq<Work>, previous: map<Key, Document>) {
    forall i :: 0 <= i < |works| && KeyOf(works[i]) in previous ==> previous[KeyOf(works[i])].project == works[i].project
  }

  /** With unchanged project names, an incremental scan stores for every document it reads exactly
      what a scan from scratch stores. */
  lemma {:induction false} IncrementalEqualsFull(works: seq<Work>, previous: map<Key, Document>)
    requires AllFaithful(previous) && ProjectsUnchanged(works, previous)
    ensures ProcessAll(works, previous).current == ProcessAll(works, map[]).current
    ensures ProcessAll(works, previous).considered == ProcessAll(works, map[]).considered
  {
    if works != [] {
      var n := |works| - 1;
      forall i | 0 <= i < n && KeyOf(works[..n][i]) in previous
        ensures previous[KeyOf(works[..n][i])].project == works[..n][i].project
      {
        assert KeyOf(works[i]) in previous;
      }
      IncrementalEqualsFull(works[..n], previous);
      var w := works[n];
      if w.read.Got? && Unchanged(previous, w, w.read.blob) { RefreshIsFreshIff(previous[KeyOf(w)], w, w.read.blob); }
    }
  }

  /* ---- when a document leaves ---- */

  ghost predicate ReadAs(works: seq<Work>, k: Key, n: nat, absent: bool) {
    exists i :: 0 <= i < |works| && i < n && KeyOf(works[i]) == k && (if absent then works[i].read.Absent? else works[i].read.Got?)
  }

  lemma {:induction false} ProcessMeans(works: seq<Work>, previous: map<Key, Document>, k: Key)
    ensures var p := ProcessAll(works, previous);
      && p.considered == Min(|works|, MAX_DOCUMENTS)
      && (k in p.current <==> ReadAs(works, k, MAX_DOCUMENTS, false))
      && (k !in p.current && k in p.changed ==> ReadAs(works, k, MAX_DOCUMENTS, true))
      && (k in previous && ReadAs(works, k, MAX_DOCUMENTS, true) ==> k in p.changed)
  {
    if works != [] {
      var n := |works| - 1;
      ProcessMeans(works[..n], previous, k);
      ReadAsStep(works, k, true);
      ReadAsStep(works, k, false);
    }
  }

  /** Within the limit the document was read with other contents than stored, or as gone. */
  ghost predicate ReadChanged(works: seq<Work>, previous: map<Key, Document>, k: Key, n: nat) {
    exists i :: 0 <= i < |works| && i < n && KeyOf(works[i]) == k && ChangedBy(works[i], previous)
  }

  predicate ChangedBy(w: Work, previous: map<Key, Document>) {
    match w.read
    case Absent => KeyOf(w) in previous
    case Got(b) => KeyOf(w) !in previous || previous[KeyOf(w)].sha != Some(Sha256(b))
    case ReadFails => false
  }

  /** The changes a scan reports are exactly the documents read with other contents or as gone. */
  lemma {:induction false} ChangedIff(works: seq<Work>, previous: map<Key, Document>, k: Key)
    ensures k in ProcessAll(works, previous).changed <==> ReadChanged(works, previous, k, 500)
    ensures ProcessAll(works, previous).considered == Min(|works|, 500)
  {
    if works != [] {
      var n := |works| - 1;
      ChangedIff(works[..n], previous, k);
      if ReadChanged(works[..n], previous, k, 500) {
        var i :| 0 <= i < n && i < 500 && KeyOf(works[..n][i]) == k && ChangedBy(works[..n][i], previous);
        assert KeyOf(works[i]) == k;
      }
      if i :| 0 <= i < n && i < 500 && KeyOf(works[i]) == k && ChangedBy(works[i], previous) { assert KeyOf(works[..n][i]) == k; }
    }
  }

  lemma ReadAsStep(works: seq<Work>, k: Key, absent: bool)
    requires works != []
    ensures var n := |works| - 1;
      ReadAs(works, k, MAX_DOCUMENTS, absent)
      <==> ReadAs(works[..n], k, MAX_DOCUMENTS, absent)
           || (n < MAX_DOCUMENTS && KeyOf(works[n]) == k && (if absent then works[n].read.Absent? else works[n].read.Got?))
  {
    var n := |works| - 1;
    if ReadAs(works[..n], k, MAX_DOCUMENTS, absent) {
      var i :| 0 <= i < n && i < MAX_DOCUMENTS && KeyOf(works[..n][i]) == k
               && (if absent then works[..n][i].read.Absent? else works[..n][i].read.Got?);
      assert KeyOf(works[i]) == k;
    }
    if ReadAs(works, k, MAX_DOCUMENTS, absent) {
      var i :| 0 <= i < |works| && i < MAX_DOCUMENTS && KeyOf(works[i]) == k
               && (if absent then works[i].read.Absent? else works[i].read.Got?);
      if i < n { assert KeyOf(works[..n][i]) == k; }
    }
  }

  /** The document carries its own source and path, as every scan stores it. */
  predicate SelfNamed(d: Document, k: Key) { d.source == Some(k.0) && d.path == Some(k.1) }

  /** A document leaves the state exactly when it was read as deleted, within the document limit,
      and not also read as present. */
  lemma LeavesIffDeleted(s: State, works: seq<Work>, resolved: set<string>, k: Key)
    requires k in s.documents && SelfNamed(s.documents[k], k)
    ensures k !in Scan(s, works, resolved).documents <==> ReadAs(works, k, 500, true) && !ReadAs(works, k, 500, false)
  {
    ProcessMeans(works, s.documents, k);
  }

  /** The document is read as present with other contents than `sha`. */
  ghost predicate Modifies(works: seq<Work>, k: Key, sha: Option<Digest<Blob>>) {
    exists i :: 0 <= i < |works| && KeyOf(works[i]) == k && works[i].read.Got? && Some(Sha256(works[i].read.blob)) != sha
  }

  /** Stored under this key without a source and with these contents. */
  predicate Unnamed(documents: map<Key, Document>, k: Key, sha: Option<Digest<Blob>>) {
    k in documents && documents[k].source.None? && documents[k].sha == sha
  }

  lemma {:induction false} UnnamedRefreshed(works: seq<Work>, previous: map<Key, Document>, k: Key, sha: Option<Digest<Blob>>)
    requires Unnamed(previous, k, sha) && !Modifies(works, k, sha)
    ensures k in ProcessAll(works, previous).current ==> Unnamed(ProcessAll(works, previous).current, k, sha)
  {
    if works != [] {
      var n := |works| - 1;
      forall i | 0 <= i < n && KeyOf(works[..n][i]) == k && works[..n][i].read.Got? ensures Some(Sha256(works[..n][i].read.blob)) == sha {
        assert KeyOf(works[i]) == k;
      }
      UnnamedRefreshed(works[..n], previous, k, sha);
      assert KeyOf(works[n]) == k && works[n].read.Got? ==> Some(Sha256(works[n].read.blob)) == sha;
    }
  }

  /* ---- any sequence of scans ---- */

  datatype ScanInput = ScanInput(works: seq<Work>, resolved: set<string>)

  /** Successive states of a sequence of scans. */
  ghost predicate Scans(states: seq<State>, ls: seq<ScanInput>) {
    |states| == |ls| + 1 && forall i :: 0 <= i < |ls| ==> ScannedAt(states, ls, i)
  }

  predicate ScannedAt(states: seq<State>, ls: seq<ScanInput>, i: nat)
    requires |states| == |ls| + 1 && i < |ls|
  {
    states[i + 1] == Scan(states[i], ls[i].works, ls[i].resolved)
  }

  /** Observed sources only grow, and include every source that ever resolved or had a document. */
  lemma {:induction false} ObservedOnlyGrows(states: seq<State>, ls: seq<ScanInput>, k: nat, n: nat)
    requires Scans(states, ls) && k <= n <= |ls|
    ensures states[k].observed <= states[n].observed
    ensures k < n ==> ls[k].resolved <= states[n].observed && Sources(states[k].documents) <= states[n].observed
  {
    if k < n {
      ObservedOnlyGrows(states, ls, k, n - 1);
      assert ScannedAt(states, ls, n - 1);
    }
  }

  lemma ScanKeepsFaithful(s: State, works: seq<Work>, resolved: set<string>)
    requires AllFaithful(s.documents)
    ensures AllFaithful(Scan(s, works, resolved).documents)
  {
    ProcessFaithful(works, s.documents);
  }

  lemma {:induction false} AlwaysFaithful(states: seq<State>, ls: seq<ScanInput>, n: nat)
    requires Scans(states, ls) && AllFaithful(states[0].documents) && n <= |ls|
    ensures AllFaithful(states[n].documents)
  {
    if n > 0 {
      AlwaysFaithful(states, ls, n - 1);
      ScanKeepsFaithful(states[n - 1], ls[n - 1].works, ls[n - 1].resolved);
      assert ScannedAt(states, ls, n - 1);
    }
  }

  /** A document of an old state without its source does not leave when it is read as deleted: it
      stays through all scans until one reads it with other contents. */
  lemma {:induction false} UnnamedStays(states: seq<State>, ls: seq<ScanInput>, k: nat, n: nat, key: Key, sha: Option<Digest<Blob>>)
    requires Scans(states, ls) && k <= n <= |ls| && Unnamed(states[k].documents, key, sha)
    requires forall i :: k <= i < n ==> !Modifies(ls[i].works, key, sha)
    ensures Unnamed(states[n].documents, key, sha)
  {
    if k < n {
      UnnamedStays(states, ls, k, n - 1, key, sha);
      UnnamedRefreshed(ls[n - 1].works, states[n - 1].documents, key, sha);
      assert ScannedAt(states, ls, n - 1);
    }
  }

  /** If a document is stored at one time and gone at a later one, some scan in between read it as
      deleted. */
  lemma {:induction false} GoneMeansReadAsDeleted(states: seq<State>, ls: seq<ScanInput>, k: nat, n: nat, key: Key) returns (i: nat)
    requires Scans(states, ls) && AllFaithful(states[0].documents) && k <= n <= |ls|
    requires key in states[k].documents && key !in states[n].documents
    ensures k <= i < n && ReadAs(ls[i].works, key, MAX_DOCUMENTS, true)
  {
    if key in states[n - 1].documents {
      i := n - 1;
      AlwaysFaithful(states, ls, i);
      assert Faithful(states[i].documents[key], key);
      LeavesIffDeleted(states[i], ls[i].works, ls[i].resolved, key);
      assert ScannedAt(states, ls, i);
    } else {
      i := GoneMeansReadAsDeleted(states, ls, k, n - 1, key);
    }
  }
}
