/** Actions, reactions and free actions: `convert_page` of
    `src/book_adapter.rs`, from page to candidates. */
module BookActions {
  import opened Sequences
  import opened Text
  import opened Domain
  import opened Parser
  import opened BookBlocks

  const ACTION_COST_MARKERS: seq<(string, string)> := [
    ("[one-action]", "Action"),
    ("[two-actions]", "Action"),
    ("[three-actions]", "Action"),
    ("[free-action]", "Free Action"),
    ("[reaction]", "Reaction")
  ]

  datatype ActionHeading = ActionHeading(name: string, ruleTypeLabel: string)

  /** An action entry: its heading with name and type label, and its body lines. */
  type RawEntry = Section<ActionHeading>

  // ---------- headings ----------

  function StripSuffix(s: string, suffix: string): Option<string>
  {
    if |suffix| <= |s| && s[|s| - |suffix|..] == suffix then Some(s[..|s| - |suffix|]) else None
  }

  /** The heading a line is under one marker. */
  function HeadingUnder(line: string, marker: (string, string)): Option<ActionHeading>
  {
    match StripSuffix(line, marker.0)
    case None => None
    case Some(prefix) =>
      if Trim(prefix) != "" && IsShouty(Trim(prefix)) then Some(ActionHeading(TitleCase(Trim(prefix)), marker.1))
      else None
  }

  function FirstHeading(line: string, markers: seq<(string, string)>): Option<ActionHeading>
  {
    if markers == [] then None
    else
      var h := HeadingUnder(line, markers[0]);
      if h.Some? then h else FirstHeading(line, markers[1..])
  }

  function HeadingOf(line: string): Option<ActionHeading> { FirstHeading(line, ACTION_COST_MARKERS) }

  method DetectHeading(line: string) returns (heading: Option<ActionHeading>)
    ensures heading == HeadingOf(line)
  {
    for i := 0 to |ACTION_COST_MARKERS|
      invariant HeadingOf(line) == FirstHeading(line, ACTION_COST_MARKERS[i..])
    {
      var (marker, ruleTypeLabel) := ACTION_COST_MARKERS[i];
      var prefix := StripSuffix(line, marker);
      if prefix.Some? {
        var name := Trim(prefix.value);
        if name != "" && IsShouty(name) {
          return Some(ActionHeading(TitleCase(name), ruleTypeLabel));
        }
      }
    }
    return None;
  }

  /** No marker ends in another, so no line ends in two. */
  ghost predicate Exclusive(markers: seq<(string, string)>)
  {
    forall i, j :: 0 <= i < j < |markers| ==>
      StripSuffix(markers[i].0, markers[j].0).None? && StripSuffix(markers[j].0, markers[i].0).None?
  }

  /** Two markers that differ at the same distance from their ends. */
  lemma EndsDiffer(a: string, b: string, k: nat)
    requires 0 < k <= |a| && k <= |b| && a[|a| - k] != b[|b| - k]
    ensures StripSuffix(a, b).None? && StripSuffix(b, a).None?
  {
    if |b| <= |a| {
      assert a[|a| - |b|..][|b| - k] == a[|a| - k];
    }
    if |a| <= |b| {
      assert b[|b| - |a|..][|a| - k] == b[|b| - k];
    }
  }

  lemma OneActionDiffers()
    ensures forall m :: m in ["[two-actions]", "[three-actions]", "[free-action]", "[reaction]"] ==>
              StripSuffix("[one-action]", m).None? && StripSuffix(m, "[one-action]").None?
  {
    hide StripSuffix;
    EndsDiffer("[one-action]", "[two-actions]", 2);
    EndsDiffer("[one-action]", "[three-actions]", 2);
    EndsDiffer("[one-action]", "[free-action]", 10);
    EndsDiffer("[one-action]", "[reaction]", 8);
  }

  lemma TwoActionsDiffers()
    ensures forall m :: m in ["[three-actions]", "[free-action]", "[reaction]"] ==>
              StripSuffix("[two-actions]", m).None? && StripSuffix(m, "[two-actions]").None?
  {
    hide StripSuffix;
    EndsDiffer("[two-actions]", "[three-actions]", 10);
    EndsDiffer("[two-actions]", "[free-action]", 2);
    EndsDiffer("[two-actions]", "[reaction]", 2);
  }

  lemma LastActionsDiffer()
    ensures forall m :: m in ["[free-action]", "[reaction]"] ==>
              StripSuffix("[three-actions]", m).None? && StripSuffix(m, "[three-actions]").None?
    ensures StripSuffix("[free-action]", "[reaction]").None? && StripSuffix("[reaction]", "[free-action]").None?
  {
    hide StripSuffix;
    EndsDiffer("[three-actions]", "[free-action]", 2);
    EndsDiffer("[three-actions]", "[reaction]", 2);
    EndsDiffer("[free-action]", "[reaction]", 8);
  }

  lemma MarkersExclusive()
    ensures Exclusive(ACTION_COST_MARKERS)
  {
    hide StripSuffix;
    OneActionDiffers();
    TwoActionsDiffers();
    LastActionsDiffer();
  }

  lemma SuffixesNest(line: string, a: string, b: string)
    requires |a| <= |b|
    ensures StripSuffix(line, a).Some? && StripSuffix(line, b).Some? ==> StripSuffix(b, a).Some?
  {
    if |b| <= |line| {
      assert line[|line| - |b|..][|b| - |a|..] == line[|line| - |a|..];
    }
  }

  lemma {:induction false} FirstHeadingIff(line: string, markers: seq<(string, string)>, h: ActionHeading)
    requires Exclusive(markers)
    ensures FirstHeading(line, markers) == Some(h) <==> exists m :: m in markers && HeadingUnder(line, m) == Some(h)
  {
    if markers != [] {
      FirstHeadingIff(line, markers[1..], h);
      forall j | 0 < j < |markers|
        ensures HeadingUnder(line, markers[0]).Some? ==> HeadingUnder(line, markers[j]).None?
      {
        var a, b := markers[0].0, markers[j].0;
        if |a| <= |b| { SuffixesNest(line, a, b); } else { SuffixesNest(line, b, a); }
      }
    }
  }

  /** A line is a heading exactly when it is a shouty name before one of the
      markers; that marker alone fixes the name and the type. */
  lemma HeadingIff(line: string, h: ActionHeading)
    ensures HeadingOf(line) == Some(h) <==>
            exists m :: m in ACTION_COST_MARKERS && HeadingUnder(line, m) == Some(h)
  {
    MarkersExclusive();
    FirstHeadingIff(line, ACTION_COST_MARKERS, h);
  }

  // ---------- entries ----------

  /** A page's entries: its sections at action headings. */
  function Entries(text: string): seq<RawEntry>
  {
    Sections(HeadingOf, TrimmedLines(text)).sections
  }

  /** What the scan still has to put out. */
  ghost function Pending(current: Option<RawEntry>, lines: seq<string>): seq<RawEntry>
  {
    Remaining(current, Sections(HeadingOf, lines))
  }

  lemma PendingStep(current: Option<RawEntry>, line: string, lines: seq<string>)
    ensures Pending(current, [line] + lines)
            == match HeadingOf(line)
               case Some(h) => Closed(current) + Pending(Some(Section([line], h, [])), lines)
               case None => Pending(WithLine(current, line), lines)
  {
    hide HeadingOf, Remaining, Sections, WithLine;
    var later := Sections(HeadingOf, lines);
    SectionsStep(HeadingOf, line, lines);
    match HeadingOf(line)
    case Some(h) => RemainingAtHeading(current, Section([line], h, []), later);
    case None => RemainingAtLine(current, line, later);
  }

  lemma PendingEnds(current: Option<RawEntry>, text: string)
    ensures Pending(current, []) == Closed(current)
    ensures Pending(None, TrimmedLines(text)) == Entries(text)
  {
    RemainingAtEnds(current, Sections(HeadingOf, TrimmedLines(text)));
  }

  method SplitEntries(text: string) returns (entries: seq<RawEntry>)
    ensures entries == Entries(text)
  {
    hide HeadingOf, TrimmedLines, Pending, Entries;
    entries := [];
    var current: Option<RawEntry> := None;
    var lines := TrimmedLines(text);
    assert lines[0..] == lines;
    PendingEnds(None, text);
    for index := 0 to |lines|
      invariant Entries(text) == entries + Pending(current, lines[index..])
    {
      var line := lines[index];
      assert lines[index..] == [line] + lines[index + 1..];
      PendingStep(current, line, lines[index + 1..]);
      var heading := DetectHeading(line);
      if heading.Some? {
        if current.Some? {
          entries := entries + [current.value];
        }
        current := Some(Section([line], heading.value, []));
        continue;
      }
      if current.Some? {
        current := Some(current.value.(body := current.value.body + [line]));
      }
    }
    PendingEnds(current, text);
    if current.Some? {
      entries := entries + [current.value];
    }
  }

  // ---------- paragraphs ----------

  function StripPrefix(s: string, prefix: string): Option<string>
  {
    if prefix <= s then Some(s[|prefix|..]) else None
  }

  /** A label's value, up to and including the first sentence's full stop, and what follows it. */
  datatype Clause = Clause(value: string, leftover: Option<string>)

  function Sentence(rest: string): Clause
  {
    match Find(rest, ". ")
    case Some(index) =>
      var remainder := Trim(rest[index + 1..]);
      Clause(Trim(rest[..index + 1]), if remainder == "" then None else Some(remainder))
    case None => Clause(Trim(rest), None)
  }

  function ExtractBookLabel(paragraph: string, tag: string): Option<Clause>
  {
    match StripPrefix(paragraph, tag)
    case None => None
    case Some(afterLabel) =>
      match StripPrefix(afterLabel, " ")
      case None => None
      case Some(rest) => Some(Sentence(rest))
  }

  /** What a paragraph of an entry is: its trait line, a labelled clause with the prose run on after it, or prose. */
  datatype Part =
    | TraitPart(text: string)
    | LabelPart(word: string, value: string, leftover: Option<string>)
    | EffectPart(text: string)

  function PartOf(first: bool, paragraph: string): Part
  {
    if first && IsShouty(paragraph) && |Words(paragraph)| <= 2 then TraitPart(paragraph)
    else
      match ExtractBookLabel(paragraph, "Requirements")
      case Some(clause) => LabelPart("Requirements", clause.value, clause.leftover)
      case None =>
        match ExtractBookLabel(paragraph, "Trigger")
        case Some(clause) => LabelPart("Trigger", clause.value, clause.leftover)
        case None => EffectPart(paragraph)
  }

  function Parts(paragraphs: seq<string>): seq<Part>
  {
    seq(|paragraphs|, i requires 0 <= i < |paragraphs| => PartOf(i == 0, paragraphs[i]))
  }

  function TraitsOf(parts: seq<Part>): Option<string>
  {
    if parts != [] && parts[0].TraitPart? then Some(Lower(parts[0].text)) else None
  }

  /** The value of the last clause with this label word. */
  function LastClause(parts: seq<Part>, word: string): Option<string>
  {
    if parts == [] then None
    else
      var last := parts[|parts| - 1];
      if last.LabelPart? && last.word == word then Some(last.value)
      else LastClause(parts[..|parts| - 1], word)
  }

  function LeftoverTexts(leftover: Option<string>): seq<string>
  {
    match leftover case None => [] case Some(text) => [text]
  }

  function EffectTexts(part: Part): seq<string>
  {
    match part
    case TraitPart(_) => []
    case LabelPart(_, _, leftover) => LeftoverTexts(leftover)
    case EffectPart(text) => [text]
  }

  function EffectOf(parts: seq<Part>): Option<string>
  {
    var texts := Flatten(Map(EffectTexts, parts));
    if texts == [] then None else Some(JoinSpace(texts))
  }

  function EntryParts(entry: RawEntry): seq<Part> { Parts(Paragraphs(entry.body)) }

  /** An entry as the block it is printed as. */
  function PrintedEntry(entry: RawEntry): Printed
  {
    var parts := EntryParts(entry);
    Printed(entry.heading.ruleTypeLabel, entry.heading.name, TraitsOf(parts), LastClause(parts, "Trigger"),
            LastClause(parts, "Requirements"), EffectOf(parts))
  }

  /** What the paragraphs met so far say. */
  datatype Rendering = Rendering(
    traits: Option<string>, trigger: Option<string>, requirements: Option<string>, effectParts: seq<string>)

  function RenderingOf(parts: seq<Part>): Rendering
  {
    Rendering(TraitsOf(parts), LastClause(parts, "Trigger"), LastClause(parts, "Requirements"),
              Flatten(Map(EffectTexts, parts)))
  }

  lemma RenderingStep(paragraphs: seq<string>, i: nat)
    requires i < |paragraphs|
    ensures RenderingOf([]) == Rendering(None, None, None, [])
    ensures var r, wider := RenderingOf(Parts(paragraphs)[..i]), RenderingOf(Parts(paragraphs)[..i + 1]);
      match PartOf(i == 0, paragraphs[i])
      case TraitPart(text) => i == 0 && wider == r.(traits := Some(Lower(text)))
      case LabelPart(word, value, leftover) =>
        && (word == "Requirements" ==>
              wider == r.(requirements := Some(value), effectParts := r.effectParts + LeftoverTexts(leftover)))
        && (word == "Trigger" ==>
              wider == r.(trigger := Some(value), effectParts := r.effectParts + LeftoverTexts(leftover)))
      case EffectPart(text) => wider == r.(effectParts := r.effectParts + [text])
  {
    var parts := Parts(paragraphs);
    var p := parts[i];
    assert parts[..i + 1] == parts[..i] + [p];
    assert parts[..i + 1][..i] == parts[..i];
    FlattenMapSnoc(EffectTexts, parts[..i], p);
    hide Words, IsShouty, ExtractBookLabel, Flatten, Map;
  }

  method RenderBlock(entry: RawEntry) returns (block: string)
    ensures block == PrintBlock(PrintedEntry(entry))
  {
    hide Paragraphs, Words, IsShouty, ExtractBookLabel, RenderingOf, PrintedEntry;
    var paragraphs := GroupParagraphs(entry.body);
    var traits: seq<string> := [];
    var trigger: Option<string> := None;
    var requirements: Option<string> := None;
    var effectParts: seq<string> := [];
    ghost var r := Rendering(None, None, None, []);
    RenderingEnds(entry);
    assert Parts(paragraphs)[..0] == [];

    for index := 0 to |paragraphs|
      invariant r == RenderingOf(Parts(paragraphs)[..index])
      invariant traits == (match r.traits case None => [] case Some(t) => [t])
      invariant index == 0 ==> traits == []
      invariant trigger == r.trigger && requirements == r.requirements && effectParts == r.effectParts
    {
      var paragraph := paragraphs[index];
      RenderingStep(paragraphs, index);
      r := RenderingOf(Parts(paragraphs)[..index + 1]);
      if index == 0 && IsShouty(paragraph) && |Words(paragraph)| <= 2 {
        traits := traits + [Lower(paragraph)];
        continue;
      }
      var requirement := ExtractBookLabel(paragraph, "Requirements");
      if requirement.Some? {
        var clause := requirement.value;
        requirements := Some(clause.value);
        effectParts := effectParts + LeftoverTexts(clause.leftover);
        continue;
      }
      var triggered := ExtractBookLabel(paragraph, "Trigger");
      if triggered.Some? {
        var clause := triggered.value;
        trigger := Some(clause.value);
        effectParts := effectParts + LeftoverTexts(clause.leftover);
        continue;
      }
      effectParts := effectParts + [paragraph];
    }
    assert Parts(paragraphs)[..|paragraphs|] == Parts(paragraphs);
    block := PrintFields(entry, traits, trigger, requirements, effectParts);
  }

  lemma RenderingEnds(entry: RawEntry)
    ensures RenderingOf([]) == Rendering(None, None, None, [])
    ensures var r := RenderingOf(Parts(Paragraphs(entry.body)));
            PrintedEntry(entry)
            == Printed(entry.heading.ruleTypeLabel, entry.heading.name, r.traits, r.trigger, r.requirements,
                       if r.effectParts == [] then None else Some(JoinSpace(r.effectParts)))
  {
    hide Paragraphs, Parts, JoinSpace;
  }

  /** The end of `RenderBlock`: the lines that are present, in print order. */
  method PrintFields(entry: RawEntry, traits: seq<string>, trigger: Option<string>, requirements: Option<string>,
                     effectParts: seq<string>)
    returns (block: string)
    requires |traits| <= 1
    ensures block == PrintBlock(Printed(
      entry.heading.ruleTypeLabel, entry.heading.name, if traits == [] then None else Some(traits[0]),
      trigger, requirements, if effectParts == [] then None else Some(JoinSpace(effectParts))))
  {
    hide Join, JoinSpace, LabelLine;
    ghost var b := Printed(
      entry.heading.ruleTypeLabel, entry.heading.name, if traits == [] then None else Some(traits[0]),
      trigger, requirements, if effectParts == [] then None else Some(JoinSpace(effectParts)));
    var lines := [entry.heading.ruleTypeLabel, LabelLine("Name", entry.heading.name)];
    ghost var fixed := lines;
    if traits != [] {
      JoinOne(traits[0], ", ");
      assert traits == [traits[0]];
      lines := lines + [LabelLine("Traits", Join(traits, ", "))];
    }
    assert lines == fixed + OptionalLine("Traits", b.traits);
    if trigger.Some? {
      lines := lines + [LabelLine("Trigger", trigger.value)];
    }
    assert lines == fixed + OptionalLine("Traits", b.traits) + OptionalLine("Trigger", b.trigger);
    if requirements.Some? {
      lines := lines + [LabelLine("Requirements", requirements.value)];
    }
    assert lines == fixed + OptionalLine("Traits", b.traits) + OptionalLine("Trigger", b.trigger)
                    + OptionalLine("Requirements", b.requirements);
    if effectParts != [] {
      lines := lines + [LabelLine("Effect", JoinSpace(effectParts))];
    }
    assert lines == BlockLines(b);
    block := Join(lines, "\n");
  }

  lemma JoinOne(s: string, sep: string)
    ensures Join([s], sep) == s
  {
  }

  lemma EffectOfTexts(parts: seq<Part>)
    ensures var texts := Flatten(Map(EffectTexts, parts));
            EffectOf(parts) == if texts == [] then None else Some(JoinSpace(texts))
  {
  }

  // ---------- pages to candidates ----------

  function RenderedEntry(entry: RawEntry): string { PrintBlock(PrintedEntry(entry)) }

  function ConvertPage(text: string): string
  {
    Join(Map(RenderedEntry, Entries(text)), "\n---\n")
  }

  /** What a candidate should say about an entry. */
  function EntryMeaning(entry: RawEntry): Draft { Meaning(PrintedEntry(entry)) }

  /** A clause of a paragraph: its texts are values that occur in it, and with
      the label word they hold its words, each once and in order. */
  ghost predicate ClauseFits(paragraph: string, prefix: seq<string>, c: Clause)
  {
    && IsValue(c.value) && Occurs(c.value, paragraph)
    && (c.leftover.Some? ==> IsValue(c.leftover.value) && Occurs(c.leftover.value, paragraph))
    && Words(paragraph) == prefix + Words(c.value) + (if c.leftover.Some? then Words(c.leftover.value) else [])
    && IsFirstSentence(c)
  }

  /** The value is one sentence: it goes on past no sentence end, and stops at
      one whenever something follows it. */
  ghost predicate IsFirstSentence(c: Clause)
  {
    && !Occurs(". ", c.value)
    && (c.leftover.Some? ==> c.value != "" && c.value[|c.value| - 1] == '.')
  }

  lemma ClauseOf(paragraph: string, word: string)
    requires IsValue(paragraph) && IsWord(word)
    ensures var c := ExtractBookLabel(paragraph, word); c.Some? ==> ClauseFits(paragraph, [word], c.value)
  {
    if ExtractBookLabel(paragraph, word).Some? {
      var n := |word|;
      var rest := paragraph[n + 1..];
      assert paragraph[..n] == word && paragraph[n] == ' ';
      assert rest[|rest| - 1] == paragraph[|paragraph| - 1];
      assert At(rest, paragraph, n + 1);
      hide ExtractBookLabel, Sentence, Words, Occurs, IsWord;
      WordsCut(paragraph, n);
      WordsSingle(word);
      if Occurs("\n", rest) { OccursTrans("\n", rest, paragraph); }
      SentenceFits(rest);
      assert paragraph == word + [' '] + rest;
      ClauseIsSentence(paragraph, word, rest);
      ClauseWidens(rest, paragraph, word, Sentence(rest));
    }
  }

  lemma ClauseWidens(rest: string, paragraph: string, word: string, c: Clause)
    requires ClauseFits(rest, [], c) && Occurs(rest, paragraph) && Words(paragraph) == [word] + Words(rest)
    ensures ClauseFits(paragraph, [word], c)
  {
    hide Words, Occurs, IsValue;
    OccursTrans(c.value, rest, paragraph);
    if c.leftover.Some? {
      OccursTrans(c.leftover.value, rest, paragraph);
    }
  }

  lemma ClauseIsSentence(paragraph: string, word: string, rest: string)
    requires paragraph == word + [' '] + rest
    ensures ExtractBookLabel(paragraph, word) == Some(Sentence(rest))
  {
    assert word <= paragraph && paragraph[|word|..] == " " + rest;
    assert (" " + rest)[1..] == rest;
  }

  lemma SentenceFits(rest: string)
    requires rest != "" && !IsSpace(rest[|rest| - 1]) && !Occurs("\n", rest)
    ensures ClauseFits(rest, [], Sentence(rest))
  {
    FindFirst(rest, ". ");
    assert Find(rest, ". ").None? ==> !Occurs(". ", rest);
    hide Words, Occurs, Find, IsValue, Trim, ClauseFits;
    match Find(rest, ". ")
    case None => WholeFits(rest);
    case Some(i) => CutFits(rest, i);
  }

  lemma WholeFits(rest: string)
    requires rest != "" && !IsSpace(rest[|rest| - 1]) && !Occurs("\n", rest) && !Occurs(". ", rest)
    ensures ClauseFits(rest, [], Clause(Trim(rest), None))
  {
    hide Words, Occurs, IsValue;
    TrimmedPiece(rest, rest, 0);
    if Occurs(". ", Trim(rest)) { OccursTrans(". ", Trim(rest), rest); }
  }

  /** The text before the first sentence end, with its full stop, is a first sentence. */
  lemma CutEnds(rest: string, i: nat)
    requires At(". ", rest, i) && forall j :: At(". ", rest, j) ==> i <= j
    ensures !Occurs(". ", Trim(rest[..i + 1]))
    ensures Trim(rest[..i + 1]) != "" && Trim(rest[..i + 1])[|Trim(rest[..i + 1])| - 1] == '.'
  {
    var head := rest[..i + 1];
    assert rest[i] == rest[i..i + 2][0];
    assert head[i] == '.';
    if Occurs(". ", Trim(head)) {
      TrimFacts(head);
      OccursTrans(". ", Trim(head), head);
      var j :| At(". ", head, j);
      assert At(". ", rest, j);
    }
    TrimKeepsEnd(head);
  }

  lemma TrimKeepsEnd(s: string)
    requires s != "" && !IsSpace(s[|s| - 1])
    ensures Trim(s) != "" && Trim(s)[|Trim(s)| - 1] == s[|s| - 1]
  {
    hide Trim;
    var lead, trail := TrimParts(s);
    LastOf(lead + Trim(s), trail);
    LastOf(lead, Trim(s));
    TrimFacts(s);
  }

  lemma LastOf(a: string, b: string)
    ensures b != "" ==> (a + b)[|a + b| - 1] == b[|b| - 1]
  {
  }

  lemma CutPieces(rest: string, i: nat)
    requires At(". ", rest, i) && !IsSpace(rest[|rest| - 1])
    ensures IsSpace(rest[i + 1])
    ensures !Blank(rest[..i + 1]) && At(rest[..i + 1], rest, 0)
    ensures !Blank(rest[i + 1..]) && At(rest[i + 1..], rest, i + 1)
  {
    var head, tail := rest[..i + 1], rest[i + 1..];
    assert rest[i] == rest[i..i + 2][0] && rest[i + 1] == rest[i..i + 2][1];
    assert head[i] == '.' && tail[|tail| - 1] == rest[|rest| - 1];
  }

  /** Two values that split a text's words, the first a first sentence, are a clause of it. */
  lemma TwoPiecesFit(rest: string, value: string, leftover: string)
    requires IsValue(value) && Occurs(value, rest) && IsValue(leftover) && Occurs(leftover, rest)
    requires Words(rest) == Words(value) + Words(leftover)
    requires IsFirstSentence(Clause(value, Some(leftover)))
    ensures ClauseFits(rest, [], Clause(value, Some(leftover)))
  {
    hide Words, Occurs, IsValue, IsFirstSentence;
    assert [] + Words(value) + Words(leftover) == Words(value) + Words(leftover);
  }

  lemma CutFits(rest: string, i: nat)
    requires At(". ", rest, i) && !IsSpace(rest[|rest| - 1]) && !Occurs("\n", rest)
    requires forall j :: At(". ", rest, j) ==> i <= j
    ensures Trim(rest[i + 1..]) != ""
    ensures ClauseFits(rest, [], Clause(Trim(rest[..i + 1]), Some(Trim(rest[i + 1..]))))
  {
    CutPieces(rest, i);
    CutEnds(rest, i);
    hide Words, Occurs, Trim, Blank, IsValue, ClauseFits;
    WordsCut(rest, i + 1);
    TrimmedPiece(rest, rest[..i + 1], 0);
    TrimmedPiece(rest, rest[i + 1..], i + 1);
    ValueIsNotEmpty(Trim(rest[i + 1..]));
    TwoPiecesFit(rest, Trim(rest[..i + 1]), Trim(rest[i + 1..]));
  }

  lemma ValueIsNotEmpty(s: string)
    requires IsValue(s)
    ensures s != ""
  {
  }

  /** A non-blank piece of a line, trimmed, is a value with the piece's words. */
  lemma TrimmedPiece(line: string, piece: string, i: nat)
    requires !Occurs("\n", line) && At(piece, line, i) && !Blank(piece)
    ensures IsValue(Trim(piece)) && Occurs(Trim(piece), line) && Words(Trim(piece)) == Words(piece)
  {
    hide Words, Trim;
    TrimFacts(piece);
    WordsTrim(piece);
    OccursTrans(Trim(piece), piece, line);
    if Occurs("\n", Trim(piece)) { OccursTrans("\n", Trim(piece), line); }
  }

  function PartTexts(part: Part): seq<string>
  {
    match part
    case TraitPart(text) => [text]
    case LabelPart(_, value, leftover) => [value] + LeftoverTexts(leftover)
    case EffectPart(text) => [text]
  }

  /** Every text of a part is a value that occurs in its paragraph. */
  lemma PartValues(first: bool, paragraph: string)
    requires IsValue(paragraph)
    ensures forall t :: t in PartTexts(PartOf(first, paragraph)) ==> IsValue(t) && Occurs(t, paragraph)
  {
    assert At(paragraph, paragraph, 0);
    hide ExtractBookLabel, IsValue, Occurs, Words, IsShouty;
    ClauseOf(paragraph, "Requirements");
    ClauseOf(paragraph, "Trigger");
  }

  lemma PartOrigin(paragraphs: seq<string>, part: Part, text: string) returns (paragraph: string)
    requires part in Parts(paragraphs) && text in PartTexts(part)
    requires forall p :: p in paragraphs ==> IsValue(p)
    ensures paragraph in paragraphs && IsValue(text) && Occurs(text, paragraph)
  {
    hide PartOf, IsValue, Occurs, PartTexts;
    var i :| 0 <= i < |paragraphs| && part == PartOf(i == 0, paragraphs[i]);
    paragraph := paragraphs[i];
    PartValues(i == 0, paragraph);
  }

  lemma MarkerTypes()
    ensures forall m :: m in ACTION_COST_MARKERS ==> TypeOf(m.1) != Unclassified
  {
  }

  /** The shouty text a heading's name was made from, before the marker. */
  lemma HeadingUnderOrigin(line: string, m: (string, string)) returns (name: string)
    requires HeadingUnder(line, m).Some?
    ensures HeadingUnder(line, m) == Some(ActionHeading(TitleCase(name), m.1))
    ensures IsShouty(name) && Occurs(name, line)
  {
    hide TitleCase, IsShouty, Trim;
    var prefix := StripSuffix(line, m.0).value;
    name := Trim(prefix);
    assert At(prefix, line, 0);
    TrimFacts(prefix);
    OccursTrans(name, prefix, line);
  }

  lemma HeadingOrigin(line: string) returns (name: string)
    requires HeadingOf(line).Some?
    ensures TypeOf(HeadingOf(line).value.ruleTypeLabel) != Unclassified
    ensures HeadingOf(line).value.name == TitleCase(name) && IsShouty(name) && Occurs(name, line)
  {
    hide *;
    var h := HeadingOf(line).value;
    HeadingIff(line, h);
    var m :| m in ACTION_COST_MARKERS && HeadingUnder(line, m) == Some(h);
    MarkerTypes();
    name := HeadingUnderOrigin(line, m);
  }

  lemma HeadingFacts(line: string)
    requires HeadingOf(line).Some?
    ensures TypeOf(HeadingOf(line).value.ruleTypeLabel) != Unclassified && IsValue(HeadingOf(line).value.name)
    ensures !Occurs("---", line) ==> !Occurs("---", HeadingOf(line).value.name)
  {
    hide HeadingOf, TitleCase, TypeOf;
    var name := HeadingOrigin(line);
    assert !Blank(name);
    TitleCaseValue(name);
    if !Occurs("---", line) {
      if Occurs("---", name) {
        OccursTrans("---", name, line);
      }
      TitleCaseDashes(name);
    }
  }

  lemma {:induction false} LastClauseIn(parts: seq<Part>, word: string)
    ensures LastClause(parts, word).Some? ==>
            exists p :: p in parts && p.LabelPart? && p.word == word && LastClause(parts, word) == Some(p.value)
  {
    if parts != [] {
      LastClauseIn(parts[..|parts| - 1], word);
      assert parts[|parts| - 1] in parts;
    }
  }

  lemma {:induction false} FlattenIn<A(!new)>(xss: seq<seq<A>>)
    ensures forall x :: x in Flatten(xss) <==> exists xs :: xs in xss && x in xs
  {
    if xss != [] {
      FlattenIn(xss[1..]);
      assert xss == [xss[0]] + xss[1..];
    }
  }

  lemma PartsPrintable(parts: seq<Part>)
    requires forall p, t :: p in parts && t in PartTexts(p) ==> IsValue(t)
    ensures OptionalValue(TraitsOf(parts)) && OptionalValue(EffectOf(parts))
    ensures OptionalValue(LastClause(parts, "Trigger")) && OptionalValue(LastClause(parts, "Requirements"))
  {
    hide IsValue, LastClause, Flatten;
    LastClauseIn(parts, "Trigger");
    LastClauseIn(parts, "Requirements");
    if TraitsOf(parts).Some? {
      assert parts[0] in parts && parts[0].text in PartTexts(parts[0]);
      LowerValue(parts[0].text);
    }
    var texts := Flatten(Map(EffectTexts, parts));
    FlattenIn(Map(EffectTexts, parts));
    forall t | t in texts ensures IsValue(t) {
      var p :| p in parts && t in EffectTexts(p);
    }
    if texts != [] {
      JoinValues(texts);
    }
  }

  lemma EntryPrintable(entry: RawEntry)
    requires TypeOf(entry.heading.ruleTypeLabel) != Unclassified && IsValue(entry.heading.name)
    requires forall l :: l in entry.body ==> Trimmed(l) && !Occurs("\n", l)
    ensures Printable(PrintedEntry(entry))
  {
    hide IsValue, PartTexts, Paragraphs, Parts, TraitsOf, EffectOf, LastClause, Trimmed, Occurs;
    var paragraphs := Paragraphs(entry.body);
    ParagraphsAreValues(entry.body);
    forall p, t | p in EntryParts(entry) && t in PartTexts(p) ensures IsValue(t) {
      var paragraph := PartOrigin(paragraphs, p, t);
    }
    PartsPrintable(EntryParts(entry));
  }

  lemma EntriesFacts(text: string)
    ensures forall e :: e in Entries(text) ==>
      && TypeOf(e.heading.ruleTypeLabel) != Unclassified && IsValue(e.heading.name)
      && (forall l :: l in e.body ==> Trimmed(l) && !Occurs("\n", l))
      && (!Occurs("---", text) ==> !Occurs("---", e.heading.name) && forall l :: l in e.body ==> !Occurs("---", l))
  {
    var lines := TrimmedLines(text);
    TrimmedLinesFacts(text);
    SectionsAtHeadings(HeadingOf, lines);
    SectionsLines(HeadingOf, lines);
    forall l | l in lines && !Occurs("---", text) ensures !Occurs("---", l) {
      if Occurs("---", l) { OccursTrans("---", l, text); }
    }
    forall e | e in Entries(text)
      ensures TypeOf(e.heading.ruleTypeLabel) != Unclassified && IsValue(e.heading.name)
      ensures !Occurs("---", text) ==> !Occurs("---", e.heading.name)
    {
      HeadingFacts(e.span[0]);
    }
  }

  /** No text that reaches the entry's block holds `---`: not its name, its
      trait paragraph, its last clause of either kind, or any effect text. */
  ghost predicate DashFreeEntry(entry: RawEntry)
  {
    var parts := EntryParts(entry);
    && NoDashes(entry.heading.name)
    && (parts != [] && parts[0].TraitPart? ==> NoDashes(parts[0].text))
    && (LastClause(parts, "Trigger").Some? ==> NoDashes(LastClause(parts, "Trigger").value))
    && (LastClause(parts, "Requirements").Some? ==> NoDashes(LastClause(parts, "Requirements").value))
    && (forall p, t :: p in parts && t in EffectTexts(p) ==> NoDashes(t))
  }

  lemma EffectDashes(parts: seq<Part>)
    ensures (EffectOf(parts).Some? ==> NoDashes(EffectOf(parts).value))
            <==> forall p, t :: p in parts && t in EffectTexts(p) ==> NoDashes(t)
  {
    var texts := Flatten(Map(EffectTexts, parts));
    FlattenIn(Map(EffectTexts, parts));
    JoinedDashes(texts, " ");
    hide NoDashes, Flatten, Join, EffectTexts;
    forall p, t | p in parts && t in EffectTexts(p) ensures t in texts {
      var i :| 0 <= i < |parts| && parts[i] == p;
      assert Map(EffectTexts, parts)[i] == EffectTexts(p);
    }
    forall t | t in texts ensures exists p :: p in parts && t in EffectTexts(p) {
      var xs :| xs in Map(EffectTexts, parts) && t in xs;
      var i :| 0 <= i < |parts| && Map(EffectTexts, parts)[i] == xs;
      assert parts[i] in parts;
    }
  }

  lemma TraitDashes(parts: seq<Part>)
    ensures (TraitsOf(parts).Some? ==> NoDashes(TraitsOf(parts).value))
            <==> (parts != [] && parts[0].TraitPart? ==> NoDashes(parts[0].text))
  {
    if parts != [] && parts[0].TraitPart? {
      LowerDashes(parts[0].text);
    }
  }

  lemma PrintedDashes(entry: RawEntry)
    ensures DashFree(PrintedEntry(entry)) <==> DashFreeEntry(entry)
  {
    EffectDashes(EntryParts(entry));
    TraitDashes(EntryParts(entry));
    hide NoDashes, EntryParts, TraitsOf, EffectOf, LastClause, EffectTexts;
  }

  /** Converting a page and parsing the result gives one candidate per entry,
      in order, with the entry's type, name, trait list, trigger, requirement
      list and effect and nothing else, exactly when no text of an entry that
      reaches its block holds `---`. */
  lemma ActionsPreservedIff(text: string)
    ensures ParseCandidates(ConvertPage(text)) == Map(EntryMeaning, Entries(text))
            <==> forall e :: e in Entries(text) ==> DashFreeEntry(e)
  {
    EntriesFacts(text);
    hide Entries, Meaning, ParseCandidates, TypeOf, IsValue, Trimmed, Occurs, PrintBlock, DashFreeEntry, DashFree,
         NoDashes, Printable, PrintedEntry;
    var entries := Entries(text);
    var printed := Map(PrintedEntry, entries);
    forall e | e in entries
      ensures Printable(PrintedEntry(e)) && (NoDashes(PrintBlock(PrintedEntry(e))) <==> DashFreeEntry(e))
    {
      EntryPrintable(e);
      EntryType(e);
      BlockDashes(PrintedEntry(e));
      PrintedDashes(e);
    }
    assert Map(PrintBlock, printed) == Map(RenderedEntry, entries);
    assert Map(Meaning, printed) == Map(EntryMeaning, entries);
    SeparatorFree(printed);
    BlocksMeaning(printed);
    assert forall e :: e in entries ==> PrintedEntry(e) in printed;
  }

  lemma EntryType(entry: RawEntry)
    ensures PrintedEntry(entry).typeLine == entry.heading.ruleTypeLabel
  {
  }

  lemma DashFreeParagraphs(lines: seq<string>)
    requires forall l :: l in lines ==> Trimmed(l) && !Occurs("\n", l) && NoDashes(l)
    ensures forall p :: p in Paragraphs(lines) ==> IsValue(p) && NoDashes(p)
  {
    hide Paragraphs, IsValue, Occurs, Trimmed;
    ParagraphsAreValues(lines);
    ParagraphsWithoutDashes(lines);
  }

  lemma EntryTextsDashFree(entry: RawEntry)
    requires forall l :: l in entry.body ==> Trimmed(l) && !Occurs("\n", l) && NoDashes(l)
    ensures forall p, t :: p in EntryParts(entry) && t in PartTexts(p) ==> NoDashes(t)
  {
    var paragraphs := Paragraphs(entry.body);
    DashFreeParagraphs(entry.body);
    hide IsValue, Trimmed, Occurs, NoDashes, PartTexts, Paragraphs, Parts;
    forall p, t | p in EntryParts(entry) && t in PartTexts(p) ensures NoDashes(t) {
      var paragraph := PartOrigin(paragraphs, p, t);
      NoDashesWithin(t, paragraph);
    }
  }

  lemma EntryDashFree(entry: RawEntry)
    requires NoDashes(entry.heading.name)
    requires forall l :: l in entry.body ==> Trimmed(l) && !Occurs("\n", l) && NoDashes(l)
    ensures DashFreeEntry(entry)
  {
    EntryTextsDashFree(entry);
    var parts := EntryParts(entry);
    LastClauseIn(parts, "Trigger");
    LastClauseIn(parts, "Requirements");
    hide NoDashes, EntryParts, LastClause;
    if parts != [] && parts[0].TraitPart? {
      assert parts[0] in parts && parts[0].text in PartTexts(parts[0]);
    }
    forall w | LastClause(parts, w).Some? && w in {"Trigger", "Requirements"}
      ensures NoDashes(LastClause(parts, w).value)
    {
      var p :| p in parts && p.LabelPart? && LastClause(parts, w) == Some(p.value);
      assert p.value in PartTexts(p);
    }
    forall p, t | p in parts && t in EffectTexts(p) ensures NoDashes(t) {
      assert t in PartTexts(p);
    }
  }

  /** For every page with no `---` in it, converting and parsing loses and invents nothing. */
  lemma ActionsPreserved(text: string)
    requires !Occurs("---", text)
    ensures ParseCandidates(ConvertPage(text)) == Map(EntryMeaning, Entries(text))
  {
    EntriesFacts(text);
    forall e | e in Entries(text) ensures DashFreeEntry(e) {
      assert NoDashes(e.heading.name) && forall l :: l in e.body ==> NoDashes(l);
      hide Entries, NoDashes, Occurs, Trimmed, IsValue, TypeOf;
      EntryDashFree(e);
    }
    hide Entries, EntryMeaning, ConvertPage, DashFreeEntry;
    ActionsPreservedIff(text);
  }

  /** A page whose effect line holds a separator: what it says is lost. */
  lemma ActionsLost() returns (text: string)
    ensures ParseCandidates(ConvertPage(text)) != Map(EntryMeaning, Entries(text))
  {
    hide Entries, EntryParts, NoDashes, ConvertPage, EntryMeaning, Join, IsValue, IsWord;
    text := Join(["AID [reaction]", "a---b"], "\n");
    var e := Section(["AID [reaction]"], ActionHeading("Aid", "Reaction"), ["a---b"]);
    LostEntry(text, ["AID [reaction]", "a---b"], e);
    LostParts(e);
    DashedLine();
    assert EffectPart("a---b") in EntryParts(e) && "a---b" in EffectTexts(EffectPart("a---b"));
    assert e in Entries(text);
    hide EffectTexts;
    assert !DashFreeEntry(e);
    hide DashFreeEntry;
    ActionsPreservedIff(text);
  }

  lemma LostName()
    ensures Trim("AID ") == "AID" && IsShouty("AID") && TitleCase("AID") == "Aid"
  {
    assert "" + "AID" + " " == "AID ";
    TrimPadded("", "AID", " ");
    assert "AID"[0] == 'A' && IsShouty("AID");
    WordsSingle("AID");
    hide Words, Trim, IsShouty;
    assert Capitalize("AID") == "Aid";
    assert Map(Capitalize, ["AID"]) == ["Aid"];
  }

  lemma LostHeading()
    ensures HeadingOf("AID [reaction]") == Some(ActionHeading("Aid", "Reaction"))
    ensures HeadingOf("a---b") == None
  {
    var m := ("[reaction]", "Reaction");
    assert "AID [reaction]"[4..] == "[reaction]" && "AID [reaction]"[..4] == "AID ";
    assert m in ACTION_COST_MARKERS;
    LostName();
    hide Trim, IsShouty, TitleCase;
    assert HeadingUnder("AID [reaction]", m) == Some(ActionHeading("Aid", "Reaction"));
    hide HeadingUnder, HeadingOf;
    HeadingIff("AID [reaction]", ActionHeading("Aid", "Reaction"));
    TooShortForMarker("a---b");
  }

  lemma TooShortForMarker(line: string)
    requires |line| < 10
    ensures HeadingOf(line) == None
  {
    assert forall m :: m in ACTION_COST_MARKERS ==> |m.0| >= 10;
    hide HeadingOf, Trim, IsShouty, TitleCase;
    if HeadingOf(line).Some? {
      HeadingIff(line, HeadingOf(line).value);
      assert false;
    }
  }

  lemma LostEntry(text: string, lines: seq<string>, e: RawEntry)
    requires lines == ["AID [reaction]", "a---b"] && text == Join(lines, "\n")
    requires e == Section(["AID [reaction]"], ActionHeading("Aid", "Reaction"), ["a---b"])
    ensures Entries(text) == [e]
  {
    forall l | l in lines ensures Trimmed(l) && !Occurs("\n", l) {
      OccursOne('\n', l);
    }
    TrimmedLinesJoin(lines);
    LostHeading();
    hide HeadingOf, Trimmed, Occurs, TrimmedLines, Join;
    SectionsStep(HeadingOf, "a---b", []);
    SectionsStep(HeadingOf, "AID [reaction]", ["a---b"]);
    assert ["AID [reaction]"] + ["a---b"] == lines && ["a---b"] + [] == ["a---b"];
  }

  lemma LostParts(e: RawEntry)
    requires e.body == ["a---b"]
    ensures EntryParts(e) == [EffectPart("a---b")]
  {
    OccursOne("", e.body);
    SplitWhole(e.body, [""]);
    FilterAll(HasLines, [e.body]);
    assert Map(JoinSpace, [e.body]) == ["a---b"];
    assert Paragraphs(e.body) == ["a---b"];
    hide Paragraphs, Words;
    assert "a---b"[0] == 'a' && !IsShouty("a---b");
    assert ExtractBookLabel("a---b", "Requirements") == None && ExtractBookLabel("a---b", "Trigger") == None;
    hide ExtractBookLabel, IsShouty;
    assert PartOf(true, "a---b") == EffectPart("a---b");
  }
}
