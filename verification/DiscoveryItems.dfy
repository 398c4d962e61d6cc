/** Which lines and entries of a planning document become candidates (src/bureau/discovery.py). */
module DiscoveryItems {
  import opened Prelude
  import opened JsonValues
  import opened Discovery

  /* ---- Markdown ---- */

  /** The line stands under a heading that opens a planning section: the last heading before it. */
  ghost predicate InSection(lines: seq<Line>, i: int) {
    exists h :: 0 <= h < i <= |lines| && lines[h].Heading? && lines[h].opens && forall k :: h < k < i ==> !lines[k].Heading?
  }

  predicate Declares(l: Line) { l.StatusLine? && l.active }

  /** The last active status declared before the line; none if there is none. */
  ghost predicate StatusBefore(lines: seq<Line>, i: int, s: string)
    requires 0 <= i <= |lines|
  {
    || (s == "" && forall k :: 0 <= k < i ==> !Declares(lines[k]))
    || exists h :: 0 <= h < i && Declares(lines[h]) && lines[h].state == s && forall k :: h < k < i ==> !Declares(lines[k])
  }

  /** An unchecked item anywhere, or an unfinished bullet of some length in a planning section. */
  ghost predicate IsItem(lines: seq<Line>, i: int)
    requires 0 <= i < |lines|
  {
    lines[i].Unchecked? || (lines[i].Bullet? && !lines[i].done && lines[i].long && InSection(lines, i))
  }

  /** The candidate for the item on line `i`, under the status `s` declared before it. */
  function ItemOn(o: Origin, lines: seq<Line>, i: int, s: string): Candidate
    requires 0 <= i < |lines| && (lines[i].Unchecked? || lines[i].Bullet?)
  {
    MakeCandidate(o, LineAnchor(i + 1), if lines[i].Unchecked? then UncheckedItem else PlanningItem, lines[i].title,
                  if s == "" then "open" else s, None)
  }

  ghost predicate Gives(o: Origin, lines: seq<Line>, i: int, c: Candidate) {
    0 <= i < |lines| && IsItem(lines, i) && exists s :: StatusBefore(lines, i, s) && c == ItemOn(o, lines, i, s)
  }

  /** The document's title: its first heading other than the file's stem, or else the stem. */
  ghost predicate TitleIs(lines: seq<Line>, stem: Title, t: Title) {
    || (t == stem && forall k :: 0 <= k < |lines| && lines[k].Heading? ==> lines[k].title == stem)
    || exists h :: 0 <= h < |lines| && lines[h].Heading? && lines[h].title == t != stem
         && forall k :: 0 <= k < h && lines[k].Heading? ==> lines[k].title == stem
  }

  /* ---- what the reader's state means ---- */

  lemma SectionStep(lines: seq<Line>, l: Line)
    ensures InSection(lines + [l], |lines| + 1) <==> if l.Heading? then l.opens else InSection(lines, |lines|)
  {
    var more, n := lines + [l], |lines|;
    if l.Heading? && l.opens { assert more[n] == l; }
    if !l.Heading? && InSection(lines, n) {
      var h :| 0 <= h < n && lines[h].Heading? && lines[h].opens && forall k :: h < k < n ==> !lines[k].Heading?;
      assert more[h] == lines[h];
    }
    if InSection(more, n + 1) {
      var h :| 0 <= h < n + 1 && more[h].Heading? && more[h].opens && forall k :: h < k < n + 1 ==> !more[k].Heading?;
      if h < n {
        assert !more[n].Heading? && lines[h] == more[h];
        assert forall k :: h < k < n ==> more[k] == lines[k];
      }
    }
  }

  lemma StatusStep(lines: seq<Line>, l: Line, s: string)
    requires StatusBefore(lines, |lines|, s)
    ensures StatusBefore(lines + [l], |lines| + 1, if Declares(l) then l.state else s)
  {
    var more, n := lines + [l], |lines|;
    assert more[n] == l && forall k :: 0 <= k < n ==> more[k] == lines[k];
    if h :| 0 <= h < n && Declares(lines[h]) && lines[h].state == s && forall k :: h < k < n ==> !Declares(lines[k]) {
      assert Declares(more[h]) && more[h].state == s;
    }
  }

  lemma TitleStep(lines: seq<Line>, l: Line, stem: Title, t: Title)
    requires TitleIs(lines, stem, t)
    ensures TitleIs(lines + [l], stem, if l.Heading? && t == stem then l.title else t)
  {
    var more, n := lines + [l], |lines|;
    assert more[n] == l && forall k :: 0 <= k < n ==> more[k] == lines[k];
    if t != stem {
      var h :| 0 <= h < n && lines[h].Heading? && lines[h].title == t != stem
        && forall k :: 0 <= k < h && lines[k].Heading? ==> lines[k].title == stem;
      assert more[h] == lines[h];
    }
  }

  /** Whether a line is an item, and its status, depend only on the lines before it. */
  lemma GivesPrefix(o: Origin, lines: seq<Line>, l: Line, i: int, c: Candidate)
    requires 0 <= i < |lines|
    ensures Gives(o, lines, i, c) <==> Gives(o, lines + [l], i, c)
  {
    var more := lines + [l];
    assert forall k :: 0 <= k < |lines| ==> more[k] == lines[k];
    assert InSection(lines, i) <==> InSection(more, i) by {
      if InSection(lines, i) {
        var h :| 0 <= h < i && lines[h].Heading? && lines[h].opens && forall k :: h < k < i ==> !lines[k].Heading?;
        assert more[h] == lines[h];
      }
      if InSection(more, i) {
        var h :| 0 <= h < i && more[h].Heading? && more[h].opens && forall k :: h < k < i ==> !more[k].Heading?;
        assert more[h] == lines[h];
      }
    }
    forall s ensures StatusBefore(lines, i, s) <==> StatusBefore(more, i, s) { StatusPrefix(lines, l, i, s); }
  }

  lemma StatusPrefix(lines: seq<Line>, l: Line, i: int, s: string)
    requires 0 <= i <= |lines|
    ensures StatusBefore(lines, i, s) <==> StatusBefore(lines + [l], i, s)
  {
    var more := lines + [l];
    assert forall k :: 0 <= k < |lines| ==> more[k] == lines[k];
    if h :| 0 <= h < i && Declares(lines[h]) && lines[h].state == s && forall k :: h < k < i ==> !Declares(lines[k]) {
      assert Declares(more[h]) && more[h].state == s;
    }
    if h :| 0 <= h < i && Declares(more[h]) && more[h].state == s && forall k :: h < k < i ==> !Declares(more[k]) {
      assert Declares(lines[h]) && lines[h].state == s;
    }
  }

  lemma StatusUnique(lines: seq<Line>, i: int, s: string, t: string)
    requires 0 <= i <= |lines| && StatusBefore(lines, i, s) && StatusBefore(lines, i, t)
    ensures s == t
  {
  }

  ghost predicate ReadsAs(lines: seq<Line>, stem: Title, r: Reading) {
    (r.open <==> InSection(lines, |lines|)) && StatusBefore(lines, |lines|, r.status) && TitleIs(lines, stem, r.first)
  }

  lemma {:induction false} ReadingIs(o: Origin, stem: Title, lines: seq<Line>)
    ensures ReadsAs(lines, stem, ReadLines(o, stem, lines))
  {
    if lines != [] {
      var n := |lines| - 1;
      var front, r := lines[..n], ReadLines(o, stem, lines[..n]);
      ReadingIs(o, stem, front);
      SectionStep(front, lines[n]);
      StatusStep(front, lines[n], r.status);
      TitleStep(front, lines[n], stem, r.first);
      assert front + [lines[n]] == lines;
    }
  }

  /** The last line adds its item, if it is one. */
  lemma LastLine(o: Origin, stem: Title, lines: seq<Line>, c: Candidate)
    requires lines != []
    ensures c in ReadLines(o, stem, lines).found
       <==> c in ReadLines(o, stem, lines[..|lines| - 1]).found || Gives(o, lines, |lines| - 1, c)
  {
    var n := |lines| - 1;
    var front, r := lines[..n], ReadLines(o, stem, lines[..n]);
    ReadingIs(o, stem, front);
    assert front + [lines[n]] == lines;
    StatusPrefix(front, lines[n], n, r.status);
    SectionPrefix(front, lines[n]);
    forall s | StatusBefore(lines, n, s) ensures s == r.status { StatusUnique(lines, n, s, r.status); }
  }

  lemma SectionPrefix(lines: seq<Line>, l: Line)
    ensures InSection(lines, |lines|) <==> InSection(lines + [l], |lines|)
  {
    var more, n := lines + [l], |lines|;
    assert forall k :: 0 <= k < n ==> more[k] == lines[k];
    if InSection(lines, n) {
      var h :| 0 <= h < n && lines[h].Heading? && lines[h].opens && forall k :: h < k < n ==> !lines[k].Heading?;
      assert more[h] == lines[h];
    }
    if InSection(more, n) {
      var h :| 0 <= h < n && more[h].Heading? && more[h].opens && forall k :: h < k < n ==> !more[k].Heading?;
      assert more[h] == lines[h];
    }
  }

  lemma {:induction false} FoundIff(o: Origin, stem: Title, lines: seq<Line>, c: Candidate)
    ensures c in ReadLines(o, stem, lines).found <==> exists i :: Gives(o, lines, i, c)
  {
    if lines != [] {
      var n := |lines| - 1;
      LastLine(o, stem, lines, c);
      FoundIff(o, stem, lines[..n], c);
      assert lines[..n] + [lines[n]] == lines;
      forall i | 0 <= i < n ensures Gives(o, lines[..n], i, c) <==> Gives(o, lines, i, c) { GivesPrefix(o, lines[..n], lines[n], i, c); }
      if i :| Gives(o, lines[..n], i, c) { assert Gives(o, lines, i, c); }
      if i :| i < n && Gives(o, lines, i, c) { assert Gives(o, lines[..n], i, c); }
    }
  }

  /** A Markdown document gives a candidate for exactly its open items, each with its line, its title
      and the last status declared before it. Without items it gives one candidate for itself if and
      only if it declares a status, under its title. */
  lemma MarkdownGives(o: Origin, stem: Title, lines: seq<Line>, c: Candidate)
    ensures (exists i, d :: Gives(o, lines, i, d)) ==> (c in FromLines(o, stem, lines) <==> exists i :: Gives(o, lines, i, c))
    ensures !(exists i, d :: Gives(o, lines, i, d)) ==>
      (c in FromLines(o, stem, lines) <==> exists s, t ::
         s != "" && StatusBefore(lines, |lines|, s) && TitleIs(lines, stem, t) && c == MakeCandidate(o, DocumentStatus, PlanningDocument, t, s, None))
  {
    var r := ReadLines(o, stem, lines);
    ReadingIs(o, stem, lines);
    forall d ensures d in r.found <==> exists i :: Gives(o, lines, i, d) { FoundIff(o, stem, lines, d); }
    if r.found != [] { assert r.found[0] in r.found; }
    if i, d :| Gives(o, lines, i, d) { assert d in r.found; }
    forall s | StatusBefore(lines, |lines|, s) ensures s == r.status { StatusUnique(lines, |lines|, s, r.status); }
    forall t | TitleIs(lines, stem, t) ensures t == r.first { TitleUnique(lines, stem, t, r.first); }
  }

  lemma TitleUnique(lines: seq<Line>, stem: Title, t: Title, u: Title)
    requires TitleIs(lines, stem, t) && TitleIs(lines, stem, u)
    ensures t == u
  {
  }

  /* ---- JSON ---- */

  /** A task list gives a candidate for exactly its active entries with a title, named by their own
      identifier or else by their position. */
  lemma {:induction false} JsonGives(o: Origin, items: seq<Item>, c: Candidate)
    ensures c in FromItems(o, items) <==> exists i :: 0 <= i < |items| && FromEntry(o, items, i, c)
  {
    if items != [] {
      var n := |items| - 1;
      JsonGives(o, items[..n], c);
      assert FromEntry(o, items, n, c) <==> FromItem(o, n, items[n]) == Some(c);
      if i :| 0 <= i < n && FromEntry(o, items[..n], i, c) { assert FromEntry(o, items, i, c); }
      if i :| 0 <= i < n && FromEntry(o, items, i, c) { assert FromEntry(o, items[..n], i, c); }
    }
  }

  predicate FromEntry(o: Origin, items: seq<Item>, i: int, c: Candidate)
    requires 0 <= i < |items|
  {
    && items[i].Item? && items[i].active && items[i].title.Some?
    && c == MakeCandidate(o, if items[i].identifier.Some? then ItemAnchor(items[i].identifier.value) else IndexAnchor(i), StructuredTask,
                          items[i].title.value, items[i].status, items[i].identifier)
  }

  /* ---- fingerprints ---- */

  /** Two candidates share a fingerprint if and only if they come from the same source and path with the
      same folded title and the same identifier, or, without identifiers, from the same place. */
  lemma SameFingerprintIff(o: Origin, p: Origin, a: Anchor, b: Anchor, k: CandidateKind, l: CandidateKind,
                           t: Title, u: Title, s: string, r: string, x: Option<string>, y: Option<string>)
    ensures var named, also := x.Some? && x.value != "", y.Some? && y.value != "";
      MakeCandidate(o, a, k, t, s, x).fingerprint == MakeCandidate(p, b, l, u, r, y).fingerprint
      <==> (&& o.source == p.source && o.path == p.path && t.folded == u.folded && named == also
            && if named then x == y else a == b)
  {
  }

  /** The summary is the title, cut after a thousand characters. */
  lemma SummaryIs(o: Origin, a: Anchor, k: CandidateKind, t: Title, s: string, x: Option<string>)
    ensures var c := MakeCandidate(o, a, k, t, s, x);
      && c.summary <= t.normal && |c.summary| == Min(|t.normal|, 1000)
      && (c.origin, c.anchor, c.kind, c.status, c.externalId) == (o, a, k, s, x)
  {
  }
}
