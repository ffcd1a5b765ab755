/** `src/parser.rs`: labelled text blocks read as rule candidates. */
module Parser {
  import opened Sequences
  import opened Text
  import opened Domain
  import opened Decimals

  const BLOCK_SEPARATOR := "---"
  const BASE_CONFIDENCE := 0.9
  const UNCLASSIFIED_CONFIDENCE := 0.2
  const MISSING_TYPE_PENALTY := 0.2
  const LEFTOVER_PENALTY := 0.15

  // ---------- lines ----------

  predicate NonEmpty(s: string) { s != "" }

  function DashSpace(c: char): char { if c == ' ' then '-' else c }

  function NormalizeType(value: string): string
  {
    Map(DashSpace, Lower(Trim(value)))
  }

  function DetectBareType(line: string): Option<RuleType>
  {
    var detected := RuleType.Parse(NormalizeType(line));
    if detected == Unclassified then None else Some(detected)
  }

  function SplitLabel(line: string): Option<(string, string)>
  {
    match SplitOnce(line, ':')
    case None => None
    case Some((before, after)) =>
      var tag := Trim(before);
      if tag == "" || |tag| > 32 then None else Some((Lower(tag), Trim(after)))
  }

  function SplitList(value: string): seq<string>
  {
    Filter(NonEmpty, Map(Trim, Split(value, ",")))
  }

  /** The names between `[[` and `]]`, left to right. */
  function BracketedReferences(text: string): seq<string>
    decreases |text|
  {
    match Find(text, "[[")
    case None => []
    case Some(start) =>
      var afterOpen := text[start + 2..];
      match Find(afterOpen, "]]")
      case None => []
      case Some(end) =>
        var name := Trim(afterOpen[..end]);
        (if name == "" then [] else [name]) + BracketedReferences(afterOpen[end + 2..])
  }

  /** `str::find`: the first position where `sub` stands. */
  function Find(s: string, sub: string): (r: Option<nat>)
    ensures r.Some? ==> r.value + |sub| <= |s|
  {
    if sub <= s then Some(0)
    else if s == "" then None
    else match Find(s[1..], sub) case None => None case Some(i) => Some(i + 1)
  }

  /** `Find` finds an occurrence when there is one, and the first. */
  lemma {:induction false} FindFirst(s: string, sub: string)
    ensures Find(s, sub).Some? ==> At(sub, s, Find(s, sub).value)
    ensures forall i :: At(sub, s, i) ==> Find(s, sub).Some? && Find(s, sub).value <= i
  {
    assert sub <= s <==> At(sub, s, 0);
    if !(sub <= s) && s != "" {
      FindFirst(s[1..], sub);
      forall i | At(sub, s, i) ensures At(sub, s[1..], i - 1) {
      }
      forall i | At(sub, s[1..], i) ensures At(sub, s, i + 1) {
      }
    }
  }

  // ---------- a block, line by line ----------

  datatype Label =
    | Type | Name | Traits | Trigger | Requirements | Prerequisites | Effect | References

  /** What the parser makes of one line. */
  datatype Reading = Labelled(tag: Label, value: string) | Leftover

  function KnownLabel(tag: string): Option<Label>
  {
    match tag
    case "type" => Some(Type)
    case "name" => Some(Name)
    case "traits" => Some(Traits)
    case "trigger" => Some(Trigger)
    case "requirements" => Some(Requirements)
    case "prerequisites" => Some(Prerequisites)
    case "effect" => Some(Effect)
    case "see also" => Some(References)
    case "references" => Some(References)
    case _ => None
  }

  function ReadLine(line: string): Reading
  {
    match SplitLabel(line)
    case None => Leftover
    case Some((tag, value)) =>
      match KnownLabel(tag)
      case None => Leftover
      case Some(known) => Labelled(known, value)
  }

  function ContentLines(block: string): seq<string>
  {
    Filter(NonEmpty, TrimmedLines(block))
  }

  /** The value of the last line with this label. */
  function LastValue(readings: seq<Reading>, tag: Label): Option<string>
  {
    if readings == [] then None
    else
      var last := readings[|readings| - 1];
      if last.Labelled? && last.tag == tag then Some(last.value)
      else LastValue(readings[..|readings| - 1], tag)
  }

  function ListedItems(r: Reading): seq<string>
  {
    if r.Labelled? && r.tag == References then SplitList(r.value) else []
  }

  /** The items of every labelled list of references, in order. */
  function ListedReferences(readings: seq<Reading>): seq<string>
  {
    Flatten(Map(ListedItems, readings))
  }

  function LeftoverCount(readings: seq<Reading>): nat
  {
    |Filter((r: Reading) => r.Leftover?, readings)|
  }

  function ListOf(value: Option<string>): seq<string>
  {
    match value case None => [] case Some(v) => SplitList(v)
  }

  function BareType(lines: seq<string>): Option<RuleType>
  {
    if lines == [] then None else DetectBareType(lines[0])
  }

  /** The readings of a block's lines, without the bare type line when it opens with one. */
  function Readings(lines: seq<string>): seq<Reading>
  {
    Map(ReadLine, if BareType(lines).Some? then lines[1..] else lines)
  }

  /** What a block's readings say, field by field. */
  datatype Fields = Fields(
    typeValue: Option<string>, name: Option<string>, traits: seq<string>, trigger: Option<string>,
    requirements: seq<string>, prerequisites: seq<string>, effect: Option<string>,
    references: seq<string>, leftovers: nat)

  function Collect(readings: seq<Reading>): Fields
  {
    Fields(LastValue(readings, Type), LastValue(readings, Name), ListOf(LastValue(readings, Traits)),
           LastValue(readings, Trigger), ListOf(LastValue(readings, Requirements)),
           ListOf(LastValue(readings, Prerequisites)), LastValue(readings, Effect),
           ListedReferences(readings), LeftoverCount(readings))
  }

  /** The rule type a block states: by its last `Type:` line, else by its bare type line. */
  function StatedType(lines: seq<string>): Option<RuleType>
  {
    TypeFrom(Collect(Readings(lines)).typeValue, BareType(lines))
  }

  function TypeFrom(typeValue: Option<string>, bare: Option<RuleType>): Option<RuleType>
  {
    match typeValue
    case Some(value) => Some(RuleType.Parse(NormalizeType(value)))
    case None => bare
  }

  function UntaggedNote(count: nat): string
  {
    PrintNat(count) + " untagged line(s) present in source, not mapped to a known field"
  }

  /** Confidence by what the block states, before the wholly unclassified case. */
  function Grade(typed: bool, leftovers: bool): Confidence
  {
    BASE_CONFIDENCE - (if typed then 0.0 else MISSING_TYPE_PENALTY)
    - (if leftovers then LEFTOVER_PENALTY else 0.0)
  }

  /** No field and no type came out of the block. */
  predicate SaysNothing(draft: Draft)
  {
    draft.name.None? && draft.trigger.None? && draft.effect.None?
    && draft.traits == [] && draft.requirements == [] && draft.prerequisites == []
    && draft.ruleType == Unclassified
  }

  /** A block as a draft, stated field by field rather than by the order of assignments. */
  function ReadBlock(block: string): Draft
  {
    var lines := ContentLines(block);
    Assemble(block, Collect(Readings(lines)), StatedType(lines))
  }

  function Assemble(block: string, fields: Fields, stated: Option<RuleType>): Draft
  {
    var draft := Draft(
      if stated.Some? then stated.value else Unclassified,
      fields.name, fields.traits, fields.trigger, fields.requirements, fields.prerequisites, fields.effect,
      fields.references + BracketedReferences(block), block,
      if fields.leftovers > 0 then [UntaggedNote(fields.leftovers)] else [],
      Grade(stated.Some?, fields.leftovers > 0));
    if SaysNothing(draft) then
      draft.(inferences := [], confidence := UNCLASSIFIED_CONFIDENCE)
    else
      draft
  }

  function Blocks(sourceText: string): seq<string>
  {
    Filter(NonEmpty, Map(Trim, Split(sourceText, BLOCK_SEPARATOR)))
  }

  function ParseCandidates(sourceText: string): seq<Draft>
  {
    Map(ReadBlock, Blocks(sourceText))
  }

  // ---------- the loops ----------

  method ParseBlock(block: string) returns (draft: Draft)
    ensures draft == ReadBlock(block)
  {
    hide ContentLines, Collect, SplitList, ReadLine, NormalizeType, BracketedReferences, UntaggedNote;
    var lines := ContentLines(block);
    var ruleType: Option<RuleType> := None;
    var name: Option<string> := None;
    var traits: seq<string> := [];
    var trigger: Option<string> := None;
    var requirements: seq<string> := [];
    var prerequisites: seq<string> := [];
    var effect: Option<string> := None;
    var references: seq<string> := [];
    var leftoverLines: seq<string> := [];
    ghost var bare := if BareType(lines).Some? then 1 else 0;
    ghost var readings := Readings(lines);
    ghost var fields := Fields(None, None, [], None, [], [], None, [], 0);
    CollectNone();
    assert readings[..0] == [];

    for index := 0 to |lines|
      invariant fields == Collect(if bare <= index then readings[..index - bare] else [])
      invariant ruleType == TypeFrom(fields.typeValue, if index > 0 then BareType(lines) else None)
      invariant name == fields.name && traits == fields.traits && trigger == fields.trigger
                && requirements == fields.requirements && prerequisites == fields.prerequisites
                && effect == fields.effect && references == fields.references
                && |leftoverLines| == fields.leftovers
    {
      var line := lines[index];
      if index == 0 {
        var detected := DetectBareType(line);
        if detected.Some? {
          ruleType := detected;
          continue;
        }
      }
      CollectSnoc(readings[..index - bare], readings[index - bare]);
      assert readings[..index + 1 - bare] == readings[..index - bare] + [readings[index - bare]];
      fields := Add(fields, readings[index - bare]);
      match ReadLine(line)
      case Labelled(Type, value) => ruleType := Some(RuleType.Parse(NormalizeType(value)));
      case Labelled(Name, value) => name := Some(value);
      case Labelled(Traits, value) => traits := SplitList(value);
      case Labelled(Trigger, value) => trigger := Some(value);
      case Labelled(Requirements, value) => requirements := SplitList(value);
      case Labelled(Prerequisites, value) => prerequisites := SplitList(value);
      case Labelled(Effect, value) => effect := Some(value);
      case Labelled(References, value) => references := references + SplitList(value);
      case Leftover => leftoverLines := leftoverLines + [line];
    }
    assert readings[..|lines| - bare] == readings;
    hide Readings, BareType;

    var bracketed := ExtractBracketedReferences(block);
    references := references + bracketed;

    var inferences: seq<string> := [];
    var confidence := BASE_CONFIDENCE;
    var finalType := Unclassified;
    if ruleType.Some? {
      finalType := ruleType.value;
    } else {
      confidence := confidence - MISSING_TYPE_PENALTY;
    }
    if leftoverLines != [] {
      inferences := [UntaggedNote(|leftoverLines|)];
      confidence := confidence - LEFTOVER_PENALTY;
    }
    if name.None? && trigger.None? && effect.None? && traits == [] && requirements == []
       && prerequisites == [] && finalType == Unclassified {
      return Draft(Unclassified, None, [], None, [], [], None, references, block, [], UNCLASSIFIED_CONFIDENCE);
    }
    var clamped := if confidence < 0.0 then 0.0 else if confidence > 1.0 then 1.0 else confidence;
    return Draft(finalType, name, traits, trigger, requirements, prerequisites, effect,
                 references, block, inferences, clamped);
  }

  method ExtractBracketedReferences(block: string) returns (references: seq<string>)
    ensures references == BracketedReferences(block)
  {
    hide Find, Trim, BracketedReferences;
    references := [];
    var remainder := block;
    while true
      invariant references + BracketedReferences(remainder) == BracketedReferences(block)
      decreases |remainder|
    {
      ReferencesFromFirst(remainder);
      var start := Find(remainder, "[[");
      if start.None? {
        break;
      }
      var afterOpen := remainder[start.value + 2..];
      var end := Find(afterOpen, "]]");
      if end.None? {
        break;
      }
      var reference := Trim(afterOpen[..end.value]);
      if reference != "" {
        references := references + [reference];
      }
      remainder := afterOpen[end.value + 2..];
    }
  }

  /** What is read is the first bracketed name, then what is read after it. */
  lemma ReferencesFromFirst(text: string)
    ensures var start := Find(text, "[[");
      if start.None? then BracketedReferences(text) == []
      else
        var afterOpen := text[start.value + 2..];
        var end := Find(afterOpen, "]]");
        BracketedReferences(text)
        == if end.None? then []
           else (if Trim(afterOpen[..end.value]) == "" then [] else [Trim(afterOpen[..end.value])])
                + BracketedReferences(afterOpen[end.value + 2..])
  {
    hide Find, Trim;
  }

  lemma CollectNone()
    ensures Collect([]) == Fields(None, None, [], None, [], [], None, [], 0)
  {
  }

  /** What one more line changes. */
  function Add(fields: Fields, r: Reading): Fields
  {
    match r
    case Leftover => fields.(leftovers := fields.leftovers + 1)
    case Labelled(tag, value) =>
      match tag
      case Type => fields.(typeValue := Some(value))
      case Name => fields.(name := Some(value))
      case Traits => fields.(traits := SplitList(value))
      case Trigger => fields.(trigger := Some(value))
      case Requirements => fields.(requirements := SplitList(value))
      case Prerequisites => fields.(prerequisites := SplitList(value))
      case Effect => fields.(effect := Some(value))
      case References => fields.(references := fields.references + SplitList(value))
  }

  lemma LastValueSnoc(readings: seq<Reading>, r: Reading, tag: Label)
    ensures LastValue(readings + [r], tag)
            == if r.Labelled? && r.tag == tag then Some(r.value) else LastValue(readings, tag)
  {
    assert (readings + [r])[..|readings|] == readings;
  }

  lemma ListedReferencesSnoc(readings: seq<Reading>, r: Reading)
    ensures ListedReferences(readings + [r])
            == if r.Labelled? && r.tag == References then ListedReferences(readings) + SplitList(r.value)
               else ListedReferences(readings)
  {
    hide SplitList;
    MapConcat(ListedItems, readings, [r]);
    FlattenConcat(Map(ListedItems, readings), Map(ListedItems, [r]));
    assert Map(ListedItems, [r]) == [ListedItems(r)];
    assert Flatten([ListedItems(r)]) == ListedItems(r);
  }

  lemma LeftoverCountSnoc(readings: seq<Reading>, r: Reading)
    ensures LeftoverCount(readings + [r]) == LeftoverCount(readings) + if r.Leftover? then 1 else 0
  {
    FilterConcat((r: Reading) => r.Leftover?, readings, [r]);
  }

  lemma CollectSnoc(readings: seq<Reading>, r: Reading)
    ensures Collect(readings + [r]) == Add(Collect(readings), r)
  {
    hide LastValue, ListedReferences, LeftoverCount, SplitList, ListedItems;
    LastValueSnoc(readings, r, Type);
    LastValueSnoc(readings, r, Name);
    LastValueSnoc(readings, r, Traits);
    LastValueSnoc(readings, r, Trigger);
    LastValueSnoc(readings, r, Requirements);
    LastValueSnoc(readings, r, Prerequisites);
    LastValueSnoc(readings, r, Effect);
    ListedReferencesSnoc(readings, r);
    LeftoverCountSnoc(readings, r);
  }
}
