/** Canonical task ids of the registry, such as `BUREAU-12` (src/bureau/closure.py:88). */
module TaskIds {

  /** Where the pattern's automaton stands: before the first letter, in the first group, right
      after a dash, or inside a later group. */
  datatype Place = AtStart | InHead | AfterDash | InGroup | Rejected

  predicate Upper(ch: char) { 'A' <= ch <= 'Z' }

  predicate Alnum(ch: char) { Upper(ch) || '0' <= ch <= '9' }

  function Next(p: Place, ch: char): Place {
    match p
    case AtStart => if Upper(ch) then InHead else Rejected
    case InHead => if Alnum(ch) then InHead else if ch == '-' then AfterDash else Rejected
    case AfterDash => if Alnum(ch) then InGroup else Rejected
    case InGroup => if Alnum(ch) then InGroup else if ch == '-' then AfterDash else Rejected
    case Rejected => Rejected
  }

  function Walk(s: string): Place {
    if s == [] then AtStart else Next(Walk(s[..|s| - 1]), s[|s| - 1])
  }

  /** A full match of the pattern: an upper-case letter, letters and digits, then one or more
      groups of a dash and letters or digits. */
  predicate IsCanonicalTaskId(s: string) { Walk(s).InGroup? }

  ghost predicate Shaped(s: string) {
    && s != [] && Upper(s[0])
    && (forall i :: 0 <= i < |s| ==> Alnum(s[i]) || s[i] == '-')
    && (forall i :: 0 <= i < |s| - 1 && s[i] == '-' ==> s[i + 1] != '-')
  }

  lemma ShapedStep(t: string, ch: char)
    requires t != []
    ensures Shaped(t + [ch]) <==> Shaped(t) && (Alnum(ch) || (ch == '-' && t[|t| - 1] != '-'))
    ensures '-' in t + [ch] <==> '-' in t || ch == '-'
  {
    var s := t + [ch];
    assert forall i :: 0 <= i < |t| ==> s[i] == t[i];
    assert s[|t|] == ch && s[|t| - 1] == t[|t| - 1];
    if Shaped(s) {
      assert forall i :: 0 <= i < |t| - 1 && t[i] == '-' ==> s[i + 1] != '-';
    }
  }

  lemma {:induction false} WalkMeans(s: string)
    requires s != []
    ensures !Walk(s).AtStart?
    ensures Walk(s).Rejected? <==> !Shaped(s)
    ensures Walk(s).AfterDash? <==> Shaped(s) && s[|s| - 1] == '-'
    ensures Walk(s).InHead? <==> Shaped(s) && '-' !in s
  {
    var n := |s| - 1;
    var t := s[..n];
    assert s == t + [s[n]];
    if t == [] {
      assert s == [s[0]];
    } else {
      WalkMeans(t);
      ShapedStep(t, s[n]);
    }
  }

  /** A canonical id starts with a letter, uses letters, digits and single dashes, contains a
      dash and does not end with one. */
  lemma CanonicalShape(s: string)
    ensures IsCanonicalTaskId(s) <==> Shaped(s) && '-' in s && s[|s| - 1] != '-'
  {
    if s != [] { WalkMeans(s); }
  }
}
