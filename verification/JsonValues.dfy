/** JSON documents as the acceptance code reads them. */
module JsonValues {

  /** Object keys the acceptance code reads, and any other key. */
  datatype Key =
    | AcceptanceList | Id | Verifier | EvidenceType | VerifierConfig | SchemaVersion | KindKey | CriterionId | Source | Authority
    | Reference | ObservedAt | Validity | NotAfter | Revision | Facts | Status
    | Repository | PullRequest | HeadSha | BaseRef | RequiredChecks | DeploymentRevision | RequiredCommit
    | RuntimeRevision | ProbeId | ObservationScope | RequiredSeconds | ScopeSha256 | ArtifactSha256
    | TaskSha256 | PlanSha256 | MergeCommitSha | ObservedCommit
    | MergedFlag | Checks | Complete | Name | State | FailedFlag | Completed | ReceiptSha256 | ContainsRequiredCommit
    | ResultText | Accepted | Observer | Observation | ObservedSeconds | EffectCount | ExpectedSha256 | ObservedSha256
    | Other(name: string)

  /** A parsed document. `NonFinite` stands for the infinities and not-a-number. */
  datatype Json =
    | Null
    | Bool(b: bool)
    | Int(i: int)
    | Float(r: real)
    | NonFinite
    | Str(s: string)
    | List(items: seq<Json>)
    | Obj(fields: map<Key, Json>)

  /** `value.get(key)` of an object; a missing key and a null read alike. */
  function Get(j: Json, k: Key): Json {
    if j.Obj? && k in j.fields then j.fields[k] else Null
  }

  predicate Space(ch: char) {
    ch == ' ' || '\t' <= ch <= '\r' || ch == '\U{001C}' || ch == '\U{001D}' || ch == '\U{001E}' || ch == '\U{001F}'
    || ch == '\U{0085}' || ch == '\U{00A0}'
  }

  predicate Blank(s: string) { forall i :: 0 <= i < |s| ==> Space(s[i]) }

  predicate Text(j: Json) { j.Str? && j.s != [] }

  predicate NonBlank(j: Json) { j.Str? && !Blank(j.s) }

  predicate Hex(ch: char) { '0' <= ch <= '9' || 'a' <= ch <= 'f' }

  predicate HexText(s: string) { forall i :: 0 <= i < |s| ==> Hex(s[i]) }

  /** A Git object name: 40 to 64 lower-case hexadecimal digits. */
  predicate Sha(j: Json) { j.Str? && 40 <= |j.s| <= 64 && HexText(j.s) }

  predicate Sha256Text(s: string) { |s| == 64 && HexText(s) }

  predicate Sha256Json(j: Json) { j.Str? && Sha256Text(j.s) }

  /** Python compares numbers and booleans by value. */
  predicate IsOne(j: Json) { j == Int(1) || j == Float(1.0) || j == Bool(true) }

  function Number(j: Json): real
    requires j.Int? || j.Float?
  {
    if j.Int? then j.i as real else j.r
  }

  function LowerChar(ch: char): char {
    if 'A' <= ch <= 'Z' then ch - 'A' + 'a' else ch
  }

  function Lower(s: string): string { seq(|s|, i requires 0 <= i < |s| => LowerChar(s[i])) }
}
