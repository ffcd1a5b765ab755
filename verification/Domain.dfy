/** What the parser proposes: rule candidates and where they came from
    (`src/domain.rs`). */
module Domain {
  import opened Sequences

  /** A UUID as its 32 hexadecimal digits. */
  type Uuid = u: seq<int> | |u| == 32 && forall i :: 0 <= i < 32 ==> 0 <= u[i] < 16
    witness seq(32, _ => 0)

  type Byte = b: int | 0 <= b < 256

  /** A 32-byte content digest. */
  type Digest = d: seq<Byte> | |d| == 32 witness seq(32, _ => 0)

  /** Rust's `i64`. */
  type Int64 = n: int | -0x8000_0000_0000_0000 <= n < 0x8000_0000_0000_0000

  /** What the `confidence` column's CHECK admits. */
  type Confidence = c: real | 0.0 <= c <= 1.0

  datatype RuleType = Action | Reaction | FreeAction | Feat | Condition | Unclassified {
    function AsStr(): string {
      match this
      case Action => "action"
      case Reaction => "reaction"
      case FreeAction => "free-action"
      case Feat => "feat"
      case Condition => "condition"
      case Unclassified => "unclassified"
    }

    static function Parse(value: string): RuleType {
      match value
      case "action" => Action
      case "reaction" => Reaction
      case "free-action" => FreeAction
      case "feat" => Feat
      case "condition" => Condition
      case _ => Unclassified
    }
  }

  datatype SourceReference = SourceReference(
    documentId: Uuid, documentVersion: Int64, contentDigest: Digest,
    location: string, sourceText: string)

  /** One block's reading, before it is given an id. */
  datatype Draft = Draft(
    ruleType: RuleType, name: Option<string>, traits: seq<string>, trigger: Option<string>,
    requirements: seq<string>, prerequisites: seq<string>, effect: Option<string>,
    references: seq<string>, sourceText: string, inferences: seq<string>, confidence: Confidence)

  datatype Candidate = Candidate(id: Uuid, draft: Draft)

  /** What identifies one logical parse: the primary key of `parse_runs`. */
  datatype Key = Key(documentId: Uuid, documentVersion: Int64, contentDigest: Digest, parserVersion: string)

  function KeyOf(source: SourceReference, parserVersion: string): Key {
    Key(source.documentId, source.documentVersion, source.contentDigest, parserVersion)
  }

  /** The database's text for a rule type reads back as that rule type. */
  lemma RuleTypeRoundTrip(t: RuleType)
    ensures RuleType.Parse(t.AsStr()) == t
    ensures forall u: RuleType :: t.AsStr() == u.AsStr() ==> t == u
    ensures Unclassified.AsStr() == "unclassified" && FreeAction.AsStr() == "free-action"
  {
  }
}
