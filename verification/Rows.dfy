/** Candidates as rows of `parsed_candidates`
    (`src/postgres_candidate_repository.rs`, `migrations/0001_init.sql`). */
module Rows {
  import opened Sequences
  import opened Domain
  import opened Uuids
  import opened JsonLists

  /** A row: the id and the rule type as text, the lists as JSON text. */
  datatype CandidateRow = CandidateRow(
    candidateId: string, key: Key, ruleType: string, name: Option<string>, traits: string,
    trigger: Option<string>, requirements: string, prerequisites: string, effect: Option<string>,
    relatedReferences: string, sourceText: string, inferences: string, confidence: Confidence)

  function RowOf(key: Key, candidate: Candidate): CandidateRow
  {
    var d := candidate.draft;
    CandidateRow(
      PrintUuid(candidate.id), key, d.ruleType.AsStr(), d.name, EncodeList(d.traits), d.trigger,
      EncodeList(d.requirements), EncodeList(d.prerequisites), d.effect, EncodeList(d.references),
      d.sourceText, EncodeList(d.inferences), d.confidence)
  }

  /** A row read back; `None` when its id is not a UUID. */
  function CandidateOf(row: CandidateRow): Option<Candidate>
  {
    match ReadUuid(row.candidateId)
    case None => None
    case Some(id) =>
      Some(Candidate(id, Draft(
        RuleType.Parse(row.ruleType), row.name, DecodeList(row.traits), row.trigger,
        DecodeList(row.requirements), DecodeList(row.prerequisites), row.effect,
        DecodeList(row.relatedReferences), row.sourceText, DecodeList(row.inferences), row.confidence)))
  }

  function LoadCandidates(rows: seq<CandidateRow>): Option<seq<Candidate>>
  {
    if rows == [] then Some([])
    else
      match CandidateOf(rows[0])
      case None => None
      case Some(c) =>
        match LoadCandidates(rows[1..])
        case None => None
        case Some(cs) => Some([c] + cs)
  }

  /** Store then load is the identity on every field. */
  lemma RowRoundTrip(key: Key, candidate: Candidate)
    ensures CandidateOf(RowOf(key, candidate)) == Some(candidate)
  {
    var d := candidate.draft;
    ReadPrintUuid(candidate.id);
    RuleTypeRoundTrip(d.ruleType);
    DecodeEncodeList(d.traits);
    DecodeEncodeList(d.requirements);
    DecodeEncodeList(d.prerequisites);
    DecodeEncodeList(d.references);
    DecodeEncodeList(d.inferences);
    hide ReadUuid, PrintUuid, DecodeList, EncodeList, RuleType.AsStr, RuleType.Parse;
  }

  /** Each column alone holds its own field. */
  lemma RowColumns(key: Key, candidate: Candidate)
    ensures var row, d := RowOf(key, candidate), candidate.draft;
      && ReadUuid(row.candidateId) == Some(candidate.id) && row.key == key && row.ruleType == d.ruleType.AsStr()
      && row.name == d.name && row.trigger == d.trigger && row.effect == d.effect
      && DecodeList(row.traits) == d.traits && DecodeList(row.requirements) == d.requirements
      && DecodeList(row.prerequisites) == d.prerequisites && DecodeList(row.relatedReferences) == d.references
      && DecodeList(row.inferences) == d.inferences
      && row.sourceText == d.sourceText && row.confidence == d.confidence
  {
    var d := candidate.draft;
    ReadPrintUuid(candidate.id);
    DecodeEncodeList(d.traits);
    DecodeEncodeList(d.requirements);
    DecodeEncodeList(d.prerequisites);
    DecodeEncodeList(d.references);
    DecodeEncodeList(d.inferences);
    hide ReadUuid, PrintUuid, DecodeList, EncodeList, RuleType.AsStr;
  }

  function RowsOf(key: Key, candidates: seq<Candidate>): (rows: seq<CandidateRow>)
    ensures |rows| == |candidates| && forall i :: 0 <= i < |rows| ==> rows[i] == RowOf(key, candidates[i])
  {
    seq(|candidates|, i requires 0 <= i < |candidates| => RowOf(key, candidates[i]))
  }

  lemma {:induction false} LoadRows(key: Key, candidates: seq<Candidate>)
    ensures LoadCandidates(RowsOf(key, candidates)) == Some(candidates)
  {
    hide RowOf, CandidateOf;
    if candidates != [] {
      RowRoundTrip(key, candidates[0]);
      LoadRows(key, candidates[1..]);
      assert RowsOf(key, candidates)[1..] == RowsOf(key, candidates[1..]);
      assert candidates == [candidates[0]] + candidates[1..];
    }
  }
}
