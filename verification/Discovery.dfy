/** Candidate extraction of src/bureau/discovery.py. A blob is given by what its readers make of
    it: the task list of its JSON and the classified lines of its text. */
module Discovery {
  import opened Prelude
  import opened JsonValues

  /** A summary with whitespace collapsed, and the same text case-folded. */
  datatype Title = Title(normal: string, folded: string)

  /** One entry of a JSON task list; `title` is None when there is no usable one. */
  datatype Item = Item(status: string, active: bool, identifier: Option<string>, title: Option<Title>) | NoObject

  datatype Line =
    | Heading(title: Title, opens: bool)
    | StatusLine(state: string, active: bool)
    | Unchecked(title: Title)
    | Bullet(title: Title, done: bool, long: bool)
    | Plain

  datatype Blob = Blob(bytes: seq<int>, utf8: bool, tasks: Option<seq<Item>>, lines: seq<Line>)

  datatype Anchor = ItemAnchor(id: string) | IndexAnchor(index: nat) | LineAnchor(number: nat) | DocumentStatus

  datatype LocalId = External(id: string) | ByAnchor(anchor: Anchor)

  type Fingerprint = Digest<(string, string, LocalId, string)>

  datatype Origin = Origin(source: string, revision: string, path: string, project: string)

  datatype CandidateKind = StructuredTask | UncheckedItem | PlanningItem | PlanningDocument

  datatype Candidate = Candidate(
    fingerprint: Fingerprint, origin: Origin, anchor: Anchor, kind: CandidateKind,
    externalId: Option<string>, status: string, summary: string)

  function Cut(s: string): string { if |s| <= 1000 then s else s[..1000] }

  /** `candidate`. The fingerprint does not depend on the revision. */
  function MakeCandidate(o: Origin, anchor: Anchor, kind: CandidateKind, title: Title, status: string, externalId: Option<string>): Candidate {
    var local := if externalId.Some? && externalId.value != "" then External(externalId.value) else ByAnchor(anchor);
    Candidate(Sha256((o.source, o.path, local, title.folded)), o, anchor, kind, externalId, status, Cut(title.normal))
  }

  /* ---- JSON ---- */

  function FromItem(o: Origin, index: nat, item: Item): Option<Candidate> {
    if item.NoObject? || !item.active || item.title.None? then None
    else Some(MakeCandidate(o, if item.identifier.Some? then ItemAnchor(item.identifier.value) else IndexAnchor(index),
                            StructuredTask, item.title.value, item.status, item.identifier))
  }

  function FromItems(o: Origin, items: seq<Item>): seq<Candidate> {
    if items == [] then []
    else var n := |items| - 1;
         FromItems(o, items[..n]) + match FromItem(o, n, items[n]) case None => [] case Some(c) => [c]
  }

  /* ---- Markdown ---- */

  datatype Reading = Reading(open: bool, first: Title, status: string, found: seq<Candidate>)

  function StatusOr(s: string): string { if s == "" then "open" else s }

  function ReadLine(o: Origin, stem: Title, r: Reading, number: nat, line: Line): Reading {
    match line
    case Heading(title, opens) => r.(first := if r.first == stem then title else r.first, open := opens)
    case StatusLine(state, active) => if active then r.(status := state) else r
    case Unchecked(title) =>
      r.(found := r.found + [MakeCandidate(o, LineAnchor(number), UncheckedItem, title, StatusOr(r.status), None)])
    case Bullet(title, done, long) =>
      if r.open && !done && long
      then r.(found := r.found + [MakeCandidate(o, LineAnchor(number), PlanningItem, title, StatusOr(r.status), None)])
      else r
    case Plain => r
  }

  function ReadLines(o: Origin, stem: Title, lines: seq<Line>): Reading {
    if lines == [] then Reading(false, stem, "", [])
    else var n := |lines| - 1; ReadLine(o, stem, ReadLines(o, stem, lines[..n]), n + 1, lines[n])
  }

  function FromLines(o: Origin, stem: Title, lines: seq<Line>): seq<Candidate> {
    var r := ReadLines(o, stem, lines);
    if r.status != "" && r.found == []
    then [MakeCandidate(o, DocumentStatus, PlanningDocument, r.first, r.status, None)] else r.found
  }

  /** `extract_markdown` with its loop state. */
  method ExtractMarkdown(o: Origin, stem: Title, lines: seq<Line>) returns (found: seq<Candidate>)
    ensures found == FromLines(o, stem, lines)
  {
    found := [];
    var open, first, status := false, stem, "";
    for i := 0 to |lines|
      invariant ReadLines(o, stem, lines[..i]) == Reading(open, first, status, found)
    {
      assert lines[..i + 1][..i] == lines[..i];
      match lines[i] {
        case Heading(title, opens) =>
          if first == stem { first := title; }
          open := opens;
        case StatusLine(state, active) => if active { status := state; }
        case Unchecked(title) =>
          found := found + [MakeCandidate(o, LineAnchor(i + 1), UncheckedItem, title, StatusOr(status), None)];
        case Bullet(title, done, long) =>
          if open && !done && long {
            found := found + [MakeCandidate(o, LineAnchor(i + 1), PlanningItem, title, StatusOr(status), None)];
          }
        case Plain =>
      }
    }
    assert lines[..|lines|] == lines;
    if status != "" && found == [] {
      found := [MakeCandidate(o, DocumentStatus, PlanningDocument, first, status, None)];
    }
  }

  /* ---- one document ---- */

  predicate EndsWith(s: string, suffix: string) { |suffix| <= |s| && s[|s| - |suffix|..] == suffix }

  function BaseName(path: string): string { if '/' in path then BaseName(path[1..]) else path }

  /** A name without its last suffix; a leading dot starts no suffix. */
  function DropSuffix(name: string): string {
    if |name| <= 1 || '.' !in name[1..] then name
    else if name[|name| - 1] == '.' then name[..|name| - 1] else DropSuffix(name[..|name| - 1])
  }

  function Stem(path: string): Title { var s := DropSuffix(BaseName(path)); Title(s, Lower(s)) }

  /** `extract`. */
  function Extract(o: Origin, b: Blob): seq<Candidate> {
    if !b.utf8 then []
    else if EndsWith(Lower(o.path), ".json") then (if b.tasks.Some? then FromItems(o, b.tasks.value) else [])
    else if EndsWith(Lower(o.path), ".md") || EndsWith(Lower(o.path), ".markdown") then FromLines(o, Stem(o.path), b.lines)
    else []
  }

  /* ---- extraction and revisions ---- */

  function Restamped(c: Candidate, revision: string): Candidate { c.(origin := c.origin.(revision := revision)) }

  function RestampAll(cs: seq<Candidate>, revision: string): (r: seq<Candidate>)
    ensures |r| == |cs|
  {
    seq(|cs|, i requires 0 <= i < |cs| => Restamped(cs[i], revision))
  }

  lemma RestampConcat(a: seq<Candidate>, b: seq<Candidate>, revision: string)
    ensures RestampAll(a + b, revision) == RestampAll(a, revision) + RestampAll(b, revision)
  {
  }

  lemma {:induction false} ItemsRestamp(o: Origin, revision: string, items: seq<Item>)
    ensures FromItems(o.(revision := revision), items) == RestampAll(FromItems(o, items), revision)
  {
    if items != [] {
      var n := |items| - 1;
      ItemsRestamp(o, revision, items[..n]);
      var last := match FromItem(o, n, items[n]) case None => [] case Some(c) => [c];
      RestampConcat(FromItems(o, items[..n]), last, revision);
    }
  }

  lemma {:induction false} LinesRestamp(o: Origin, revision: string, stem: Title, lines: seq<Line>)
    ensures var r, r' := ReadLines(o, stem, lines), ReadLines(o.(revision := revision), stem, lines);
      r' == r.(found := RestampAll(r.found, revision))
  {
    if lines != [] {
      var n := |lines| - 1;
      LinesRestamp(o, revision, stem, lines[..n]);
      var before, after := ReadLines(o, stem, lines[..n]), ReadLines(o, stem, lines);
      if after.found != before.found {
        RestampConcat(before.found, after.found[|before.found|..], revision);
      }
    }
  }

  /** The same blob at another revision yields the same candidates, restamped. */
  lemma ExtractRestamps(o: Origin, revision: string, b: Blob)
    ensures Extract(o.(revision := revision), b) == RestampAll(Extract(o, b), revision)
  {
    if b.tasks.Some? { ItemsRestamp(o, revision, b.tasks.value); }
    LinesRestamp(o, revision, Stem(o.path), b.lines);
  }
}
