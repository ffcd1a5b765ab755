/** The two scope texts of `src/dispatch.rs`: the one received with a
    `pf2e.parse` request and the one submitted with `pf2e.rules.admit`. */
module Scopes {
  import opened Sequences
  import opened Text
  import opened Domain
  import opened Decimals
  import opened Uuids
  import opened Base64Url

  const PARSE_ACTION := "pf2e.parse"
  const ADMIT_ACTION := "pf2e.rules.admit"
  const PARSER_VERSION := "pf2e-parser-0.1.0"

  /** The kernel's bound on a request's scope. */
  const SCOPE_LIMIT := 200

  // ---------- the input scope ----------

  datatype ScopeError =
    | NoBar | NoBang | NoHash | NoAt
    | BadDocumentId | BadVersion | EmptyLocation | DigestNotBase64Url | DigestNot32Bytes

  function DecodeDigest(value: string): Result<Digest, ScopeError>
  {
    match Decode(value)
    case None => Err(DigestNotBase64Url)
    case Some(bytes) => if |bytes| == 32 then Ok(bytes) else Err(DigestNot32Bytes)
  }

  function ParseInputScope(scope: string): Result<SourceReference, ScopeError>
  {
    match SplitOnce(scope, '|')
    case None => Err(NoBar)
    case Some((header, sourceText)) =>
      match SplitOnce(header, '!')
      case None => Err(NoBang)
      case Some((idVersionLocation, digestText)) =>
        match SplitOnce(idVersionLocation, '#')
        case None => Err(NoHash)
        case Some((idVersion, location)) =>
          match SplitOnce(idVersion, '@')
          case None => Err(NoAt)
          case Some((documentId, version)) => ReadSource(documentId, version, location, digestText, sourceText)
  }

  /** The five parts of an input scope as a source, checked in the order the code checks them. */
  function ReadSource(documentId: string, version: string, location: string, digestText: string, sourceText: string):
    (r: Result<SourceReference, ScopeError>)
    ensures r.Err? ==> r.error !in [NoBar, NoBang, NoHash, NoAt]
  {
    match ReadUuid(documentId)
    case None => Err(BadDocumentId)
    case Some(id) =>
      match ReadInt64(version)
      case None => Err(BadVersion)
      case Some(v) =>
        if location == "" then Err(EmptyLocation)
        else
          match DecodeDigest(digestText)
          case Err(e) => Err(e)
          case Ok(digest) => Ok(SourceReference(id, v, digest, location, sourceText))
  }

  /** An input scope with this spelling of its document id and version. */
  function Spelled(documentId: string, version: string, source: SourceReference): string
  {
    documentId + ['@'] + version + ['#'] + source.location + ['!'] + Encode(source.contentDigest)
    + ['|'] + source.sourceText
  }

  function PrintInputScope(source: SourceReference): string
  {
    Spelled(PrintUuid(source.documentId), PrintInt(source.documentVersion), source)
  }

  predicate AcceptedLocation(location: string)
  {
    location != "" && '!' !in location && '|' !in location
  }

  lemma Base64Free(b: seq<Byte>)
    ensures '|' !in Encode(b) && '~' !in Encode(b)
  {
    EncodeShape(b);
  }

  /** The document id and version hold no delimiter. */
  lemma NoDelimiters(documentId: string, version: string)
    requires ReadUuid(documentId).Some? && ReadInt64(version).Some?
    ensures '@' !in documentId
    ensures forall c :: c in documentId + ['@'] + version ==> c != '#' && c != '!' && c != '|'
  {
    ReadUuidChars(documentId);
    ReadInt64Chars(version);
    hide ReadUuid, ReadInt64;
  }

  lemma SpelledParts(documentId: string, version: string, source: SourceReference)
    requires ReadUuid(documentId).Some? && ReadInt64(version).Some?
    requires '!' !in source.location && '|' !in source.location
    ensures ParseInputScope(Spelled(documentId, version, source))
            == ReadSource(documentId, version, source.location, Encode(source.contentDigest), source.sourceText)
  {
    NoDelimiters(documentId, version);
    Base64Free(source.contentDigest);
    hide ReadUuid, ReadInt64, ReadSource, Encode, SplitOnce;
    var idVersion := documentId + ['@'] + version;
    var idVersionLocation := idVersion + ['#'] + source.location;
    var header := idVersionLocation + ['!'] + Encode(source.contentDigest);
    SplitOnceAt(header, '|', source.sourceText);
    SplitOnceAt(idVersionLocation, '!', Encode(source.contentDigest));
    SplitOnceAt(idVersion, '#', source.location);
    SplitOnceAt(documentId, '@', version);
  }

  lemma ReadSourceIff(documentId: string, version: string, location: string, digestText: string, sourceText: string,
                      source: SourceReference)
    ensures ReadSource(documentId, version, location, digestText, sourceText) == Ok(source) <==>
            && ReadUuid(documentId) == Some(source.documentId)
            && ReadInt64(version) == Some(source.documentVersion)
            && location == source.location != ""
            && digestText == Encode(source.contentDigest)
            && sourceText == source.sourceText
  {
    DecodeIff(digestText, source.contentDigest);
    hide Encode, Decode, ReadUuid, ReadInt64;
  }

  lemma ParsedParts(scope: string)
    returns (documentId: string, version: string, digestText: string)
    requires ParseInputScope(scope).Ok?
    ensures var source := ParseInputScope(scope).value;
      && '!' !in source.location && '|' !in source.location
      && scope == documentId + ['@'] + version + ['#'] + source.location + ['!'] + digestText
                  + ['|'] + source.sourceText
      && ReadSource(documentId, version, source.location, digestText, source.sourceText) == Ok(source)
  {
    hide ReadUuid, ReadInt64, DecodeDigest, SplitOnce;
    SplitOnceIff(scope, '|');
    var (header, sourceText) := SplitOnce(scope, '|').value;
    SplitOnceIff(header, '!');
    var (idVersionLocation, digest) := SplitOnce(header, '!').value;
    SplitOnceIff(idVersionLocation, '#');
    var (idVersion, location) := SplitOnce(idVersionLocation, '#').value;
    SplitOnceIff(idVersion, '@');
    var (id, v) := SplitOnce(idVersion, '@').value;
    documentId, version, digestText := id, v, digest;
  }

  /** The scope spells this source, with this readable document id and version
      and the one encoding of the digest, and the location is one a scope can carry. */
  ghost predicate SpelledSource(scope: string, documentId: string, version: string, source: SourceReference)
  {
    && scope == Spelled(documentId, version, source)
    && ReadUuid(documentId) == Some(source.documentId) && ReadInt64(version) == Some(source.documentVersion)
    && AcceptedLocation(source.location)
  }

  /** What the reader accepts, exactly. */
  lemma ParseInputScopeIff(scope: string, source: SourceReference)
    ensures ParseInputScope(scope) == Ok(source)
            <==> exists documentId, version :: SpelledSource(scope, documentId, version, source)
  {
    if ParseInputScope(scope) == Ok(source) {
      var documentId, version, digestText := ParsedParts(scope);
      ReadSourceIff(documentId, version, source.location, digestText, source.sourceText, source);
      hide ReadSource, Encode, ParseInputScope, ReadUuid, ReadInt64;
      assert scope == Spelled(documentId, version, source);
      assert SpelledSource(scope, documentId, version, source);
    }
    if documentId, version :| SpelledSource(scope, documentId, version, source) {
      SpelledParts(documentId, version, source);
      ReadSourceIff(documentId, version, source.location, Encode(source.contentDigest), source.sourceText, source);
    }
  }

  /** Round trip: printing a source and reading it back gives that source
      exactly when its location is not empty and holds no `!` and no `|`;
      locations may hold `#` and `@`, and the text anything. */
  lemma InputScopeRoundTrip(source: SourceReference)
    ensures ParseInputScope(PrintInputScope(source)) == Ok(source) <==> AcceptedLocation(source.location)
  {
    ReadPrintUuid(source.documentId);
    ReadPrintInt(source.documentVersion);
    ParseInputScopeIff(PrintInputScope(source), source);
    assert AcceptedLocation(source.location) ==>
        SpelledSource(PrintInputScope(source), PrintUuid(source.documentId), PrintInt(source.documentVersion), source);
    hide ReadUuid, ReadInt64, PrintUuid, PrintInt, Encode, ParseInputScope;
  }

  /** A scope is refused for a missing delimiter exactly when it has no bar, or
      no `!` before the first bar, or no `#` before the first `!`, or no `@`
      before the first `#`. */
  lemma MissingDelimiter(scope: string)
    ensures ParseInputScope(scope) == Err(NoBar) <==> '|' !in scope
    ensures forall header, text :: Cut(scope, '|', header, text) ==>
      && (ParseInputScope(scope) == Err(NoBang) <==> '!' !in header)
      && forall before, digest :: Cut(header, '!', before, digest) ==>
           && (ParseInputScope(scope) == Err(NoHash) <==> '#' !in before)
           && forall idVersion, location :: Cut(before, '#', idVersion, location) ==>
                (ParseInputScope(scope) == Err(NoAt) <==> '@' !in idVersion)
  {
    hide ReadSource, SplitOnce, Cut;
    SplitOnceCut(scope, '|');
    if SplitOnce(scope, '|').Some? {
      var header := SplitOnce(scope, '|').value.0;
      SplitOnceCut(header, '!');
      if SplitOnce(header, '!').Some? {
        var before := SplitOnce(header, '!').value.0;
        SplitOnceCut(before, '#');
        if SplitOnce(before, '#').Some? {
          SplitOnceCut(SplitOnce(before, '#').value.0, '@');
        }
      }
    }
  }

  /** With every delimiter in place a scope is refused for exactly one thing:
      the first of document id, version, location and digest that is bad. */
  lemma BadPart(scope: string, documentId: string, version: string, location: string, digest: string, text: string)
    requires Cut(scope, '|', documentId + "@" + version + "#" + location + "!" + digest, text)
    requires '!' !in documentId + version + location && '#' !in documentId + version && '@' !in documentId
    ensures var r := ParseInputScope(scope);
      && (r == Err(BadDocumentId) <==> ReadUuid(documentId).None?)
      && (r == Err(BadVersion) <==> ReadUuid(documentId).Some? && ReadInt64(version).None?)
      && (r == Err(EmptyLocation) <==> ReadUuid(documentId).Some? && ReadInt64(version).Some? && location == "")
      && (r == Err(DigestNotBase64Url)
          <==> ReadUuid(documentId).Some? && ReadInt64(version).Some? && location != "" && Decode(digest).None?)
      && (r == Err(DigestNot32Bytes)
          <==> ReadUuid(documentId).Some? && ReadInt64(version).Some? && location != ""
               && Decode(digest).Some? && |Decode(digest).value| != 32)
  {
    hide ReadUuid, ReadInt64, Decode, SplitOnce;
    var idVersion := documentId + "@" + version;
    var before := idVersion + "#" + location;
    SplitOnceCut(scope, '|');
    SplitOnceAt(before, '!', digest);
    SplitOnceAt(idVersion, '#', location);
    SplitOnceAt(documentId, '@', version);
    assert before + ['!'] + digest == documentId + "@" + version + "#" + location + "!" + digest;
    assert idVersion + ['#'] + location == before && documentId + ['@'] + version == idVersion;
  }

  // ---------- the admit scope ----------

  /** Hundredths of a confidence, rounded to nearest, ties to even. */
  function Hundredths(c: Confidence): (h: nat)
    ensures h <= 100
  {
    var scaled := c * 100.0;
    var down := scaled.Floor;
    var rest := scaled - down as real;
    if rest < 0.5 || (rest == 0.5 && down % 2 == 0) then down else down + 1
  }

  /** `{:.2}`. */
  function Format2(c: Confidence): (s: string)
    ensures |s| == 4 && forall x :: x in s ==> IsDigit(x) || x == '.'
  {
    var h := Hundredths(c);
    [DigitChar(h / 100), '.', DigitChar(h / 10 % 10), DigitChar(h % 10)]
  }

  function DigitValue(c: char): real
    requires IsDigit(c)
  {
    (c as int - '0' as int) as real
  }

  /** The number a digit, a point and two digits write. */
  function ReadConfidence(s: string): Option<real>
  {
    if |s| == 4 && IsDigit(s[0]) && s[1] == '.' && IsDigit(s[2]) && IsDigit(s[3]) then
      Some(DigitValue(s[0]) + DigitValue(s[2]) / 10.0 + DigitValue(s[3]) / 100.0)
    else None
  }

  /** A confidence as it is submitted. */
  function Rounded(c: Confidence): real { Hundredths(c) as real / 100.0 }

  lemma HundredthsNear(c: Confidence)
    ensures -0.005 <= Rounded(c) - c <= 0.005
    ensures Rounded(c) - c == 0.005 || Rounded(c) - c == -0.005 ==> Hundredths(c) % 2 == 0
  {
  }

  lemma DigitsOf(h: nat)
    requires h <= 100
    ensures h == 100 * (h / 100) + 10 * (h / 10 % 10) + h % 10
  {
  }

  lemma Format2Reads(c: Confidence)
    ensures ReadConfidence(Format2(c)) == Some(Rounded(c))
    ensures Format2(c)[3] as int % 2 == Hundredths(c) % 2
  {
    var h := Hundredths(c);
    DigitsOf(h);
    hide Hundredths;
    assert DigitValue(DigitChar(h / 100)) == (h / 100) as real;
    assert DigitValue(DigitChar(h / 10 % 10)) == (h / 10 % 10) as real;
    assert DigitValue(DigitChar(h % 10)) == (h % 10) as real;
  }

  /** The submitted text writes a number within half a hundredth of the
      confidence; of two that are equally near, the one with an even last digit. */
  lemma ConfidenceText(c: Confidence)
    ensures ReadConfidence(Format2(c)).Some?
    ensures var r := ReadConfidence(Format2(c)).value;
      && -0.005 <= r - c <= 0.005
      && (r - c == 0.005 || r - c == -0.005 ==> Format2(c)[3] in "02468")
  {
    Format2Reads(c);
    HundredthsNear(c);
    hide Hundredths, ReadConfidence, Rounded;
    var last := Format2(c)[3];
    assert last in Format2(c);
  }

  lemma SameRounded(c: Confidence, d: Confidence)
    ensures Rounded(c) == Rounded(d) ==> Format2(c) == Format2(d)
  {
    hide Hundredths;
  }

  /** What the parser's five confidences are submitted as. */
  lemma ConfidenceTexts()
    ensures Format2(0.9) == "0.90" && Format2(0.75) == "0.75" && Format2(0.7) == "0.70"
    ensures Format2(0.55) == "0.55" && Format2(0.2) == "0.20"
  {
    assert Hundredths(0.9) == 90 && Hundredths(0.75) == 75 && Hundredths(0.7) == 70;
    assert Hundredths(0.55) == 55 && Hundredths(0.2) == 20;
    hide Hundredths;
  }

  function NameOrEmpty(name: Option<string>): string
  {
    match name case None => "" case Some(n) => n
  }

  /** What the admit scope says before the location. */
  datatype AdmitHeader = AdmitHeader(
    candidateId: Uuid, parserVersion: string, ruleType: RuleType, confidence: real,
    documentId: Uuid, documentVersion: Int64, contentDigest: Digest)

  function HeaderOf(source: SourceReference, candidate: Candidate): AdmitHeader
  {
    AdmitHeader(candidate.id, PARSER_VERSION, candidate.draft.ruleType, Rounded(candidate.draft.confidence),
                source.documentId, source.documentVersion, source.contentDigest)
  }

  function AdmitScopeFor(source: SourceReference, candidate: Candidate): string
  {
    PrintUuid(candidate.id) + ['@'] + (
      PARSER_VERSION + ['#'] + (
        candidate.draft.ruleType.AsStr() + ['!'] + (
          Format2(candidate.draft.confidence) + ['|'] + ProvenanceText(source, candidate.draft.name))))
  }

  /** The part of an admit scope after the bar. */
  function ProvenanceText(source: SourceReference, name: Option<string>): string
  {
    PrintUuid(source.documentId) + ['~'] + (
      PrintInt(source.documentVersion) + ['~'] + (
        Encode(source.contentDigest) + ['~'] + (
          source.location + ['~'] + NameOrEmpty(name))))
  }

  /** An admit scope's fields, as texts. */
  datatype Fields = Fields(
    candidateId: string, parserVersion: string, ruleType: string, confidence: string,
    documentId: string, documentVersion: string, contentDigest: string, tail: string)

  /** A reader for the admit scope as its grammar is documented: each field ends
      at the first of its delimiter. */
  function AdmitFields(scope: string): Option<Fields>
  {
    match SplitOnce(scope, '@') case None => None case Some((id, s1)) =>
    match SplitOnce(s1, '#') case None => None case Some((version, s2)) =>
    match SplitOnce(s2, '!') case None => None case Some((ruleType, s3)) =>
    match SplitOnce(s3, '|') case None => None case Some((confidence, s4)) =>
    match ProvenanceFields(s4) case None => None case Some(p) =>
    Some(p.(candidateId := id, parserVersion := version, ruleType := ruleType, confidence := confidence))
  }

  function ProvenanceFields(s: string): Option<Fields>
  {
    match SplitOnce(s, '~') case None => None case Some((documentId, s1)) =>
    match SplitOnce(s1, '~') case None => None case Some((documentVersion, s2)) =>
    match SplitOnce(s2, '~') case None => None case Some((digest, tail)) =>
    Some(Fields("", "", "", "", documentId, documentVersion, digest, tail))
  }

  /** The header, the location and the name an admit scope is read as. */
  function ReadAdmitScope(scope: string): Option<(AdmitHeader, string, string)>
  {
    match AdmitFields(scope)
    case None => None
    case Some(f) =>
      match SplitOnce(f.tail, '~')
      case None => None
      case Some((location, name)) =>
        match ReadHeader(f)
        case None => None
        case Some(header) => Some((header, location, name))
  }

  function ReadHeader(f: Fields): Option<AdmitHeader>
  {
    var u, d, v, b :=
      ReadUuid(f.candidateId), ReadUuid(f.documentId), ReadInt64(f.documentVersion), DecodeDigest(f.contentDigest);
    var c := ReadConfidence(f.confidence);
    if u.Some? && c.Some? && d.Some? && v.Some? && b.Ok? then
      Some(AdmitHeader(u.value, f.parserVersion, RuleType.Parse(f.ruleType), c.value,
                       d.value, v.value, b.value))
    else None
  }

  function FieldsOf(source: SourceReference, candidate: Candidate): Fields
  {
    Fields(PrintUuid(candidate.id), PARSER_VERSION, candidate.draft.ruleType.AsStr(),
           Format2(candidate.draft.confidence), PrintUuid(source.documentId), PrintInt(source.documentVersion),
           Encode(source.contentDigest), source.location + ['~'] + NameOrEmpty(candidate.draft.name))
  }

  lemma ProvenanceFieldsOf(source: SourceReference, name: Option<string>)
    ensures ProvenanceFields(ProvenanceText(source, name))
            == Some(Fields("", "", "", "", PrintUuid(source.documentId), PrintInt(source.documentVersion),
                           Encode(source.contentDigest), source.location + ['~'] + NameOrEmpty(name)))
  {
    ReadPrintInt(source.documentVersion);
    Base64Free(source.contentDigest);
    hide SplitOnce, PrintUuid, PrintInt, Encode, NameOrEmpty;
    var tail := source.location + ['~'] + NameOrEmpty(name);
    var s2 := Encode(source.contentDigest) + ['~'] + tail;
    var s1 := PrintInt(source.documentVersion) + ['~'] + s2;
    SplitOnceAt(PrintUuid(source.documentId), '~', s1);
    SplitOnceAt(PrintInt(source.documentVersion), '~', s2);
    SplitOnceAt(Encode(source.contentDigest), '~', tail);
  }

  lemma NoHashOrBang(t: RuleType)
    ensures '#' !in PARSER_VERSION && '!' !in t.AsStr()
  {
  }

  lemma AdmitFieldsOf(source: SourceReference, candidate: Candidate)
    ensures AdmitFields(AdmitScopeFor(source, candidate)) == Some(FieldsOf(source, candidate))
  {
    NoHashOrBang(candidate.draft.ruleType);
    ProvenanceFieldsOf(source, candidate.draft.name);
    hide SplitOnce, PrintUuid, Format2, ProvenanceText, ProvenanceFields, RuleType.AsStr;
    var s4 := ProvenanceText(source, candidate.draft.name);
    var s3 := Format2(candidate.draft.confidence) + ['|'] + s4;
    var s2 := candidate.draft.ruleType.AsStr() + ['!'] + s3;
    var s1 := PARSER_VERSION + ['#'] + s2;
    SplitOnceAt(PrintUuid(candidate.id), '@', s1);
    SplitOnceAt(PARSER_VERSION, '#', s2);
    SplitOnceAt(candidate.draft.ruleType.AsStr(), '!', s3);
    SplitOnceAt(Format2(candidate.draft.confidence), '|', s4);
  }

  lemma ReadHeaderOf(source: SourceReference, candidate: Candidate)
    ensures ReadHeader(FieldsOf(source, candidate)) == Some(HeaderOf(source, candidate))
  {
    ReadPrintUuid(candidate.id);
    ReadPrintUuid(source.documentId);
    ReadPrintInt(source.documentVersion);
    DecodeEncode(source.contentDigest);
    RuleTypeRoundTrip(candidate.draft.ruleType);
    Format2Reads(candidate.draft.confidence);
    hide ReadUuid, PrintUuid, PrintInt, ReadInt64, Encode, Decode, Format2, ReadConfidence, Rounded, RuleType.Parse,
         RuleType.AsStr;
  }

  /** The receiver always reads the candidate's id, type and confidence, the
      parser's version and the document, version and digest; it reads the
      location and the name exactly when the location holds no `~`. */
  lemma AdmitScopeReads(source: SourceReference, candidate: Candidate)
    ensures var read := ReadAdmitScope(AdmitScopeFor(source, candidate));
      && read.Some? && read.value.0 == HeaderOf(source, candidate)
      && (read == Some((HeaderOf(source, candidate), source.location, NameOrEmpty(candidate.draft.name)))
          <==> '~' !in source.location)
    ensures var h := HeaderOf(source, candidate);
      && h.candidateId == candidate.id && h.parserVersion == "pf2e-parser-0.1.0"
      && h.ruleType == candidate.draft.ruleType && -0.005 <= h.confidence - candidate.draft.confidence <= 0.005
      && h.documentId == source.documentId && h.documentVersion == source.documentVersion
      && h.contentDigest == source.contentDigest
  {
    AdmitFieldsOf(source, candidate);
    ReadHeaderOf(source, candidate);
    HundredthsNear(candidate.draft.confidence);
    hide AdmitFields, ReadHeader, AdmitScopeFor, SplitOnce, NameOrEmpty, Rounded, Hundredths;
    var name := NameOrEmpty(candidate.draft.name);
    SplitOnceIff(source.location + ['~'] + name, '~');
    if '~' !in source.location {
      SplitOnceAt(source.location, '~', name);
    }
  }

  /** Two admit scopes are equal exactly when every field before the location
      is equal and the location-and-name tails are. */
  lemma AdmitScopesEqualIff(s1: SourceReference, c1: Candidate, s2: SourceReference, c2: Candidate)
    ensures AdmitScopeFor(s1, c1) == AdmitScopeFor(s2, c2) <==>
            && HeaderOf(s1, c1) == HeaderOf(s2, c2)
            && s1.location + ['~'] + NameOrEmpty(c1.draft.name) == s2.location + ['~'] + NameOrEmpty(c2.draft.name)
  {
    AdmitFieldsOf(s1, c1);
    AdmitFieldsOf(s2, c2);
    ReadHeaderOf(s1, c1);
    ReadHeaderOf(s2, c2);
    SameRounded(c1.draft.confidence, c2.draft.confidence);
    hide AdmitFields, ReadHeader, PrintUuid, PrintInt, Encode, Format2, Rounded, NameOrEmpty, RuleType.AsStr;
  }

  /** Unique decoding: scopes of sources whose locations hold no `~` are equal
      only if everything they print is. */
  lemma AdmitScopeInjective(s1: SourceReference, c1: Candidate, s2: SourceReference, c2: Candidate)
    requires '~' !in s1.location && '~' !in s2.location
    requires AdmitScopeFor(s1, c1) == AdmitScopeFor(s2, c2)
    ensures HeaderOf(s1, c1) == HeaderOf(s2, c2) && s1.location == s2.location
    ensures NameOrEmpty(c1.draft.name) == NameOrEmpty(c2.draft.name)
  {
    AdmitScopeReads(s1, c1);
    AdmitScopeReads(s2, c2);
    hide *;
  }

  /** Some other accepted location prints this candidate's scope. */
  ghost predicate Collides(source: SourceReference, candidate: Candidate)
  {
    exists other: SourceReference, twin: Candidate ::
      AcceptedLocation(other.location) && other.location != source.location
      && AdmitScopeFor(other, twin) == AdmitScopeFor(source, candidate)
  }

  /** What a scope can carry up to the name's first `~` could belong to a location. */
  predicate NameExtendsLocation(name: string)
  {
    match SplitOnce(name, '~')
    case None => false
    case Some((before, _)) => '!' !in before && '|' !in before
  }

  /** Exactly which scopes are ambiguous: those whose location holds a `~` after
      its first character, or whose name has one with no `!` or `|` before it. */
  lemma AdmitScopesCollideIff(source: SourceReference, candidate: Candidate)
    requires AcceptedLocation(source.location)
    ensures Collides(source, candidate)
            <==> '~' in source.location[1..] || NameExtendsLocation(NameOrEmpty(candidate.draft.name))
  {
    hide AdmitScopeFor, HeaderOf, SplitOnce;
    var location, name := source.location, NameOrEmpty(candidate.draft.name);
    if '~' in location[1..] {
      var i :| 1 <= i < |location| && location[i] == '~';
      assert location == location[..i] + ['~'] + location[i + 1..];
      Twin(source, candidate, location[..i], location[i + 1..] + ['~'] + name);
    }
    SplitOnceIff(name, '~');
    if NameExtendsLocation(name) {
      var (before, after) := SplitOnce(name, '~').value;
      assert location + ['~'] + before + ['~'] + after == location + ['~'] + name;
      assert |location + ['~'] + before| > |location|;
      Twin(source, candidate, location + ['~'] + before, after);
    }
    if Collides(source, candidate) {
      var other: SourceReference, twin: Candidate :|
        AcceptedLocation(other.location) && other.location != location
        && AdmitScopeFor(other, twin) == AdmitScopeFor(source, candidate);
      AdmitScopesEqualIff(other, twin, source, candidate);
      TailsOverlap(location, name, other.location, NameOrEmpty(twin.draft.name));
    }
  }

  /** Another way to cut the tail is another source and name with the same scope. */
  lemma Twin(source: SourceReference, candidate: Candidate, location: string, name: string)
    requires AcceptedLocation(location) && location != source.location
    requires location + ['~'] + name == source.location + ['~'] + NameOrEmpty(candidate.draft.name)
    ensures Collides(source, candidate)
  {
    var other := source.(location := location);
    var twin := candidate.(draft := candidate.draft.(name := Some(name)));
    AdmitScopesEqualIff(other, twin, source, candidate);
    hide AdmitScopeFor, Format2;
  }

  /** Two cuts of one tail: the longer location continues the shorter after a `~`. */
  lemma TailsOverlap(location: string, name: string, other: string, twin: string)
    requires location + ['~'] + name == other + ['~'] + twin
    requires location != other && location != "" && AcceptedLocation(other)
    ensures '~' in location[1..] || NameExtendsLocation(name)
  {
    var tail := location + ['~'] + name;
    var n, m := |location|, |other|;
    SameCut(location, name, other, twin);
    assert tail[..n] == location && tail[..m] == other && tail[n] == '~' && tail[m] == '~';
    if m < n {
      assert location[m] == tail[m] && location[1..][m - 1] == location[m];
    } else {
      assert tail[n + 1..] == name;
      assert name[m - n - 1] == tail[m];
      FirstBefore(name, m - n - 1);
      var before := SplitOnce(name, '~').value.0;
      assert forall i :: 0 <= i < |before| ==> before[i] == name[i] == tail[n + 1 + i] == other[n + 1 + i];
    }
  }

  lemma SameCut(location: string, name: string, other: string, twin: string)
    requires location + ['~'] + name == other + ['~'] + twin
    ensures |location| == |other| ==> location == other
  {
    var tail := location + ['~'] + name;
    assert tail[..|location|] == location && tail[..|other|] == other;
  }

  /** The first `~` is no later than any other. */
  lemma FirstBefore(name: string, k: nat)
    requires k < |name| && name[k] == '~'
    ensures SplitOnce(name, '~').Some?
    ensures var before := SplitOnce(name, '~').value.0; |before| <= k && before == name[..|before|]
  {
    SplitOnceIff(name, '~');
    var (before, after) := SplitOnce(name, '~').value;
    hide SplitOnce;
    assert forall i :: 0 <= i < |before| ==> name[i] == before[i] && before[i] in before;
  }

  /** One admission, spelled out. */
  lemma AdmitScopeExample(source: SourceReference, candidate: Candidate)
    requires source.documentVersion == -7 && source.location == "p12"
    requires candidate.draft.ruleType == FreeAction && candidate.draft.confidence == 0.75
    requires candidate.draft.name == Some("Release")
    ensures AdmitScopeFor(source, candidate)
            == PrintUuid(candidate.id) + "@pf2e-parser-0.1.0#free-action!0.75|" + PrintUuid(source.documentId)
               + "~-7~" + Encode(source.contentDigest) + "~p12~Release"
  {
    ExampleHeader();
    ExampleTail();
    hide *;
    Assembled(source, candidate, "@pf2e-parser-0.1.0#free-action!0.75|", "~-7~", "~p12~Release");
  }

  lemma Assembled(source: SourceReference, candidate: Candidate, kind: string, version: string, tail: string)
    requires kind == ['@'] + PARSER_VERSION + ['#'] + candidate.draft.ruleType.AsStr() + ['!']
                     + Format2(candidate.draft.confidence) + ['|']
    requires version == ['~'] + PrintInt(source.documentVersion) + ['~']
    requires tail == ['~'] + source.location + ['~'] + NameOrEmpty(candidate.draft.name)
    ensures AdmitScopeFor(source, candidate)
            == PrintUuid(candidate.id) + kind + PrintUuid(source.documentId) + version + Encode(source.contentDigest)
               + tail
  {
    hide PrintUuid, Encode, Format2, PrintInt, PARSER_VERSION, RuleType.AsStr, NameOrEmpty;
  }

  lemma ExampleHeader()
    ensures ['@'] + PARSER_VERSION + ['#'] + FreeAction.AsStr() + ['!'] + Format2(0.75) + ['|']
            == "@pf2e-parser-0.1.0#free-action!0.75|"
  {
    ConfidenceTexts();
    hide Format2;
    assert ['@'] + PARSER_VERSION + ['#'] == "@pf2e-parser-0.1.0#";
    assert "free-action" + ['!'] + "0.75" + ['|'] == "free-action!0.75|";
  }

  lemma ExampleTail()
    ensures ['~'] + PrintInt(-7) + ['~'] == "~-7~"
    ensures ['~'] + "p12" + ['~'] + NameOrEmpty(Some("Release")) == "~p12~Release"
  {
  }

  // ---------- the length of an admit scope ----------

  lemma EncodedDigestLength(digest: Digest)
    ensures |Encode(digest)| == 43
  {
    EncodeShape(digest);
  }

  lemma AdmitScopeLengthIs(source: SourceReference, candidate: Candidate)
    ensures |AdmitScopeFor(source, candidate)|
            == 144 + |candidate.draft.ruleType.AsStr()| + |PrintInt(source.documentVersion)|
               + |source.location| + |NameOrEmpty(candidate.draft.name)|
  {
    EncodedDigestLength(source.contentDigest);
    hide PrintUuid, PrintInt, Encode, Format2, NameOrEmpty, RuleType.AsStr;
  }

  /** An admit scope takes at most 176 characters beside the location and the
      name, so it fits the kernel's 200 whenever those take at most 24; for some
      rule type and version they may take no more. */
  lemma AdmitScopeLength(source: SourceReference, candidate: Candidate)
    ensures |AdmitScopeFor(source, candidate)| <= 176 + |source.location| + |NameOrEmpty(candidate.draft.name)|
    ensures |source.location| + |NameOrEmpty(candidate.draft.name)| <= 24 ==>
              |AdmitScopeFor(source, candidate)| <= 200
    ensures candidate.draft.ruleType == Unclassified && source.documentVersion == -0x8000_0000_0000_0000 ==>
              (|AdmitScopeFor(source, candidate)| <= 200
               <==> |source.location| + |NameOrEmpty(candidate.draft.name)| <= 24)
  {
    AdmitScopeLengthIs(source, candidate);
    PrintInt64Length(source.documentVersion);
    hide AdmitScopeFor, NameOrEmpty;
  }

  /** The kernel can accept this candidate of this source. */
  predicate Fits(source: SourceReference, draft: Draft)
  {
    144 + |draft.ruleType.AsStr()| + |PrintInt(source.documentVersion)| + |source.location| + |NameOrEmpty(draft.name)|
    <= SCOPE_LIMIT
  }

  lemma FitsIff(source: SourceReference, candidate: Candidate)
    ensures |AdmitScopeFor(source, candidate)| <= 200 <==> Fits(source, candidate.draft)
  {
    AdmitScopeLengthIs(source, candidate);
    hide AdmitScopeFor, PrintInt, NameOrEmpty, RuleType.AsStr;
  }

  lemma InputScopeLength(source: SourceReference)
    ensures |PrintInputScope(source)|
            == 83 + |PrintInt(source.documentVersion)| + |source.location| + |source.sourceText|
  {
    EncodedDigestLength(source.contentDigest);
    hide PrintUuid, PrintInt, Encode;
  }
}
