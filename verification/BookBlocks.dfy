/** What the three converters of `src/book_adapter.rs` share: cutting a page
    into sections at its headings, gathering lines into paragraphs, and
    printing the labelled blocks the parser reads. */
module BookBlocks {
  import opened Sequences
  import opened Text
  import opened Domain
  import opened Parser
  import opened ParserLaws

  // ---------- sections ----------

  /** An entry as it is gathered: the lines of its heading, what they announce,
      and the lines up to the next heading. */
  datatype Section<H> = Section(span: seq<string>, heading: H, body: seq<string>)

  datatype Sectioned<H> = Sectioned(preamble: seq<string>, sections: seq<Section<H>>)

  /** Lines cut at the headings; what stands before the first is the preamble. */
  function Sections<H>(heading: string -> Option<H>, lines: seq<string>): Sectioned<H>
  {
    if lines == [] then Sectioned([], [])
    else
      var rest := Sections(heading, lines[1..]);
      match heading(lines[0])
      case Some(h) => Sectioned([], [Section([lines[0]], h, rest.preamble)] + rest.sections)
      case None => Sectioned([lines[0]] + rest.preamble, rest.sections)
  }

  lemma SectionsStep<H>(heading: string -> Option<H>, line: string, lines: seq<string>)
    ensures var later := Sections(heading, lines);
            Sections(heading, [line] + lines)
            == match heading(line)
               case Some(h) => Sectioned([], [Section([line], h, later.preamble)] + later.sections)
               case None => Sectioned([line] + later.preamble, later.sections)
    ensures Sections(heading, []) == Sectioned([], [])
  {
    assert ([line] + lines)[1..] == lines;
  }

  function SectionLines<H>(s: Section<H>): seq<string> { s.span + s.body }

  /** The sections hold every line once, in order. */
  lemma {:induction false} SectionsPartition<H(!new)>(heading: string -> Option<H>, lines: seq<string>)
    ensures var cut := Sections(heading, lines);
            lines == cut.preamble + Flatten(Map(SectionLines, cut.sections))
  {
    if lines != [] {
      SectionsPartition(heading, lines[1..]);
      var rest := Sections(heading, lines[1..]);
      assert lines == [lines[0]] + (rest.preamble + Flatten(Map(SectionLines, rest.sections)));
      if heading(lines[0]).Some? {
        var first := Section([lines[0]], heading(lines[0]).value, rest.preamble);
        FlattenMapCons(SectionLines, first, rest.sections);
      }
      hide Map, Flatten;
    }
  }

  /** Headings open sections; preamble and bodies hold none. */
  lemma {:induction false} SectionsAtHeadings<H(!new)>(heading: string -> Option<H>, lines: seq<string>)
    ensures var cut := Sections(heading, lines);
      && (forall l :: l in cut.preamble ==> heading(l).None?)
      && forall s :: s in cut.sections ==>
           |s.span| == 1 && heading(s.span[0]) == Some(s.heading) && forall l :: l in s.body ==> heading(l).None?
  {
    if lines != [] {
      SectionsAtHeadings(heading, lines[1..]);
    }
  }

  /** Every line of a section is a line that was cut. */
  lemma {:induction false} SectionsLines<H(!new)>(heading: string -> Option<H>, lines: seq<string>)
    ensures var cut := Sections(heading, lines);
      && (forall l :: l in cut.preamble ==> l in lines)
      && forall s :: s in cut.sections ==>
           (forall l :: l in s.span ==> l in lines) && forall l :: l in s.body ==> l in lines
  {
    if lines != [] {
      SectionsLines(heading, lines[1..]);
      assert forall l :: l in lines[1..] ==> l in lines;
    }
  }

  /** What a gathering loop still has to put out: the open entry, extended by
      the lines that belong to it, and the sections after it. */
  ghost function Remaining<H>(current: Option<Section<H>>, rest: Sectioned<H>): seq<Section<H>>
  {
    Extended(current, rest.preamble) + rest.sections
  }

  ghost function Extended<H>(current: Option<Section<H>>, lines: seq<string>): seq<Section<H>>
  {
    match current
    case None => []
    case Some(s) => [s.(body := s.body + lines)]
  }

  /** The open entry, put out. */
  function Closed<H>(current: Option<Section<H>>): seq<Section<H>>
  {
    match current case None => [] case Some(s) => [s]
  }

  /** The open entry with one more body line; a line before the first heading is dropped. */
  function WithLine<H>(current: Option<Section<H>>, line: string): Option<Section<H>>
  {
    match current case None => None case Some(s) => Some(s.(body := s.body + [line]))
  }

  lemma RemainingAtHeading<H>(current: Option<Section<H>>, s: Section<H>, later: Sectioned<H>)
    requires s.body == []
    ensures Remaining(current, Sectioned([], [s.(body := later.preamble)] + later.sections))
            == Closed(current) + Remaining(Some(s), later)
  {
    assert [] + later.preamble == later.preamble;
    if current.Some? {
      assert current.value.body + [] == current.value.body;
    }
  }

  lemma RemainingAtLine<H>(current: Option<Section<H>>, line: string, later: Sectioned<H>)
    ensures Remaining(current, Sectioned([line] + later.preamble, later.sections))
            == Remaining(WithLine(current, line), later)
  {
    if current.Some? {
      assert current.value.body + ([line] + later.preamble) == current.value.body + [line] + later.preamble;
    }
  }

  lemma RemainingAtEnds<H>(current: Option<Section<H>>, cut: Sectioned<H>)
    ensures Remaining(current, Sectioned([], [])) == Closed(current)
    ensures Remaining(None, cut) == cut.sections
  {
    if current.Some? {
      assert current.value.body + [] == current.value.body;
    }
  }

  // ---------- paragraphs ----------

  function JoinSpace(lines: seq<string>): string { Join(lines, " ") }

  predicate HasLines(group: seq<string>) { group != [] }

  /** Paragraphs are the runs of lines between blank ones, each joined by spaces. */
  function Paragraphs(lines: seq<string>): seq<string>
  {
    Map(JoinSpace, Filter(HasLines, Split(lines, [""])))
  }

  /** Lines without a blank one are one paragraph, and a blank line after them
      keeps what follows out of it. */
  lemma FirstParagraph(group: seq<string>, rest: seq<string>)
    requires group != [] && "" !in group
    ensures Paragraphs(group) == [Join(group, " ")]
    ensures Paragraphs(group + [""] + rest) == [Join(group, " ")] + Paragraphs(rest)
    ensures Paragraphs([""] + rest) == Paragraphs(rest)
  {
    OccursOne("", group);
    SplitWhole(group, [""]);
    SplitConcat(group, [""], rest);
    SplitMatch(rest, [""]);
    hide Split, Join;
    FilterConcat(HasLines, [group], Split(rest, [""]));
    FilterConcat(HasLines, [[]], Split(rest, [""]));
    assert Filter(HasLines, [group]) == [group] && Filter(HasLines, [[]]) == [];
    MapConcat(JoinSpace, [group], Filter(HasLines, Split(rest, [""])));
    assert Map(JoinSpace, [group]) == [Join(group, " ")];
  }

  method GroupParagraphs(lines: seq<string>) returns (paragraphs: seq<string>)
    ensures paragraphs == Paragraphs(lines)
  {
    hide Split, JoinSpace;
    paragraphs := [];
    var current: seq<string> := [];
    SplitWhole([], [""]);
    assert !Occurs([""], []);
    assert lines[..0] == [];
    for index := 0 to |lines|
      invariant Split(lines[..index], [""])[|Split(lines[..index], [""])| - 1] == current
      invariant paragraphs == ClosedGroups(Split(lines[..index], [""]))
    {
      var line := lines[index];
      assert lines[..index + 1] == lines[..index] + [line];
      if line == "" {
        ClosedBlank(lines[..index]);
        if current != [] {
          paragraphs := paragraphs + [JoinSpace(current)];
          current := [];
        }
      } else {
        ClosedLine(lines[..index], line);
        current := current + [line];
      }
    }
    assert lines[..|lines|] == lines;
    ClosedAll(Split(lines, [""]));
    if current != [] {
      paragraphs := paragraphs + [JoinSpace(current)];
    }
  }

  lemma ClosedAll(groups: seq<seq<string>>)
    requires groups != []
    ensures Map(JoinSpace, Filter(HasLines, groups))
            == ClosedGroups(groups) + if groups[|groups| - 1] == [] then [] else [JoinSpace(groups[|groups| - 1])]
  {
    hide *;
    var n := |groups| - 1;
    assert groups == groups[..n] + [groups[n]];
    FilterConcat(HasLines, groups[..n], [groups[n]]);
    MapConcat(JoinSpace, Filter(HasLines, groups[..n]), Filter(HasLines, [groups[n]]));
    LastGroup(groups[n]);
    ClosedAre(groups);
  }

  lemma ClosedAre(groups: seq<seq<string>>)
    requires groups != []
    ensures ClosedGroups(groups) == Map(JoinSpace, Filter(HasLines, groups[..|groups| - 1]))
  {
  }

  lemma LastGroup(group: seq<string>)
    ensures Map(JoinSpace, Filter(HasLines, [group])) == if group == [] then [] else [JoinSpace(group)]
  {
    hide JoinSpace;
  }

  /** The paragraphs of all groups but the last, which is still open. */
  function ClosedGroups(groups: seq<seq<string>>): seq<string>
    requires groups != []
  {
    Map(JoinSpace, Filter(HasLines, groups[..|groups| - 1]))
  }

  lemma ClosedBlank(lines: seq<string>)
    ensures var groups := Split(lines, [""]);
            var last, wider := groups[|groups| - 1], Split(lines + [""], [""]);
      wider[|wider| - 1] == []
      && ClosedGroups(wider) == ClosedGroups(groups) + if last == [] then [] else [JoinSpace(last)]
  {
    var groups := Split(lines, [""]);
    SplitConcat(lines, [""], []);
    assert lines + [""] + [] == lines + [""];
    hide Split, JoinSpace;
    assert (groups + [[]])[..|groups|] == groups;
    ClosedAll(groups);
  }

  lemma ClosedLine(lines: seq<string>, line: string)
    requires line != ""
    ensures var groups := Split(lines, [""]);
            var last, wider := groups[|groups| - 1], Split(lines + [line], [""]);
      wider[|wider| - 1] == last + [line] && ClosedGroups(wider) == ClosedGroups(groups)
  {
    var groups := Split(lines, [""]);
    var n := |groups| - 1;
    SplitExtendLast(lines, line, [""]);
    hide Split, JoinSpace, Filter;
    assert (groups[..n] + [groups[n] + [line]])[..n] == groups[..n];
  }

  /** The lines of a group are non-blank lines of the list it was split from. */
  lemma GroupLines(lines: seq<string>, group: seq<string>)
    requires group in Split(lines, [""])
    ensures forall l :: l in group ==> l in lines && l != ""
  {
    SplitPartsFree(lines, [""]);
    SplitPartsOccur(lines, [""]);
    OccursOne("", group);
    var i :| At(group, lines, i);
    forall k | 0 <= k < |group| ensures group[k] in lines {
      assert lines[i..i + |group|][k] == lines[i + k];
    }
  }

  lemma ParagraphOrigin(lines: seq<string>, p: string) returns (group: seq<string>)
    requires p in Paragraphs(lines)
    ensures group in Split(lines, [""]) && group != [] && p == JoinSpace(group)
  {
    hide JoinSpace, Split;
    group :| group in Filter(HasLines, Split(lines, [""])) && p == JoinSpace(group);
  }

  /** Paragraphs of trimmed one-line texts are values. */
  lemma ParagraphsAreValues(lines: seq<string>)
    requires forall l :: l in lines ==> Trimmed(l) && !Occurs("\n", l)
    ensures forall p :: p in Paragraphs(lines) ==> IsValue(p)
  {
    hide *;
    forall p | p in Paragraphs(lines) ensures IsValue(p) {
      var group := ParagraphOrigin(lines, p);
      ParagraphIsValue(lines, group);
    }
  }

  lemma ParagraphsWithoutDashes(lines: seq<string>)
    requires forall l :: l in lines ==> !Occurs("---", l)
    ensures forall p :: p in Paragraphs(lines) ==> !Occurs("---", p)
  {
    forall p | p in Paragraphs(lines) ensures !Occurs("---", p) {
      var group := ParagraphOrigin(lines, p);
      GroupLines(lines, group);
      hide Occurs;
      OccursJoin("---", group, " ");
    }
  }

  lemma ParagraphIsValue(lines: seq<string>, group: seq<string>)
    requires forall l :: l in lines ==> Trimmed(l) && !Occurs("\n", l)
    requires group in Split(lines, [""]) && group != []
    ensures IsValue(JoinSpace(group))
  {
    GroupLines(lines, group);
    hide Occurs, Join, Split;
    JoinValues(group);
  }

  // ---------- lists ----------

  lemma OneItem(item: string)
    requires IsValue(item) && ',' !in item
    ensures SplitList(item) == [item]
  {
    OccursOne(',', item);
    SplitWhole(item, ",");
    TrimFacts(item);
    hide Split, Trim;
    assert Map(Trim, [item]) == [item];
    FilterAll(NonEmpty, [item]);
  }

  // ---------- printing a block ----------

  function LabelLine(name: string, value: string): string { name + ": " + value }

  function OptionalLine(name: string, value: Option<string>): seq<string>
  {
    match value case None => [] case Some(v) => [LabelLine(name, v)]
  }

  /** A block before it is printed: the bare type line and the labelled values under it. */
  datatype Printed = Printed(
    typeLine: string, name: string, traits: Option<string>, trigger: Option<string>,
    requirements: Option<string>, effect: Option<string>)

  function BlockLines(b: Printed): seq<string>
  {
    [b.typeLine, LabelLine("Name", b.name)]
    + OptionalLine("Traits", b.traits)
    + OptionalLine("Trigger", b.trigger)
    + OptionalLine("Requirements", b.requirements)
    + OptionalLine("Effect", b.effect)
  }

  function PrintBlock(b: Printed): string { Join(BlockLines(b), "\n") }

  /** A block with every field, spelled out. */
  lemma PrintBlockText(b: Printed)
    requires b.traits.Some? && b.trigger.Some? && b.requirements.Some? && b.effect.Some?
    ensures PrintBlock(b) == Join([b.typeLine, "Name: " + b.name, "Traits: " + b.traits.value,
                                   "Trigger: " + b.trigger.value, "Requirements: " + b.requirements.value,
                                   "Effect: " + b.effect.value], "\n")
  {
    LabelTexts();
    hide Join;
    assert LabelLine("Name", b.name) == ("Name" + ": ") + b.name;
    assert LabelLine("Traits", b.traits.value) == ("Traits" + ": ") + b.traits.value;
    assert LabelLine("Trigger", b.trigger.value) == ("Trigger" + ": ") + b.trigger.value;
    assert LabelLine("Requirements", b.requirements.value) == ("Requirements" + ": ") + b.requirements.value;
    assert LabelLine("Effect", b.effect.value) == ("Effect" + ": ") + b.effect.value;
    assert BlockLines(b) == [b.typeLine, "Name: " + b.name, "Traits: " + b.traits.value, "Trigger: " + b.trigger.value,
                             "Requirements: " + b.requirements.value, "Effect: " + b.effect.value];
  }

  lemma LabelTexts()
    ensures "Name" + ": " == "Name: " && "Traits" + ": " == "Traits: " && "Trigger" + ": " == "Trigger: "
    ensures "Requirements" + ": " == "Requirements: " && "Effect" + ": " == "Effect: "
  {
  }

  /** The rule type a bare type line of a converter announces. */
  function TypeOf(typeLine: string): RuleType
  {
    match typeLine
    case "Action" => Action
    case "Reaction" => Reaction
    case "Free Action" => FreeAction
    case "Feat" => Feat
    case "Condition" => Condition
    case _ => Unclassified
  }

  /** What a reader should learn from the block. */
  function Meaning(b: Printed): Draft
  {
    Draft(TypeOf(b.typeLine), Some(b.name), ListOf(b.traits), b.trigger, ListOf(b.requirements), [], b.effect,
          BracketedReferences(PrintBlock(b)), PrintBlock(b), [], BASE_CONFIDENCE)
  }

  ghost predicate OptionalValue(value: Option<string>) { value.Some? ==> IsValue(value.value) }

  ghost predicate Printable(b: Printed)
  {
    TypeOf(b.typeLine) != Unclassified && IsValue(b.name)
    && OptionalValue(b.traits) && OptionalValue(b.trigger)
    && OptionalValue(b.requirements) && OptionalValue(b.effect)
  }

  // ---------- reading it back ----------

  lemma LabelLineReads(name: string, tag: Label, value: string)
    requires ':' !in name && name != "" && |name| <= 32 && Trimmed(name)
    requires KnownLabel(Lower(name)) == Some(tag) && IsValue(value)
    ensures ReadLine(LabelLine(name, value)) == Labelled(tag, value)
  {
    assert LabelLine(name, value) == name + [':'] + (" " + value);
    SplitOnceAt(name, ':', " " + value);
    TrimFacts(name);
    TrimPadded(" ", value, "");
    assert " " + value + "" == " " + value;
  }

  lemma LabelLineIsValue(name: string, value: string)
    requires IsValue(name) && IsValue(value)
    ensures IsValue(LabelLine(name, value))
  {
    OccursAround("\n", name, ": ", value);
  }

  lemma BookLabels()
    ensures KnownLabel(Lower("Name")) == Some(Name) && KnownLabel(Lower("Traits")) == Some(Traits)
    ensures KnownLabel(Lower("Trigger")) == Some(Trigger) && KnownLabel(Lower("Effect")) == Some(Effect)
    ensures KnownLabel(Lower("Requirements")) == Some(Requirements)
    ensures IsValue("Name") && IsValue("Traits") && IsValue("Trigger") && IsValue("Effect") && IsValue("Requirements")
    ensures Trimmed("Name")
  {
    BookLabelValues();
    hide IsValue;
    assert Lower("Name") == "name" && Lower("Traits") == "traits" && Lower("Trigger") == "trigger";
    assert Lower("Effect") == "effect" && Lower("Requirements") == "requirements";
  }

  lemma BookLabelValues()
    ensures IsValue("Name") && IsValue("Traits") && IsValue("Trigger") && IsValue("Effect") && IsValue("Requirements")
  {
    OccursOne('\n', "Name");
    OccursOne('\n', "Traits");
    OccursOne('\n', "Trigger");
    OccursOne('\n', "Effect");
    OccursOne('\n', "Requirements");
    hide Occurs;
  }

  lemma BareTypeReads(line: string, normal: string)
    requires IsValue(line) && |line| == |normal|
    requires forall i :: 0 <= i < |line| ==> normal[i] == DashSpace(LowerChar(line[i]))
    requires RuleType.Parse(normal) != Unclassified
    ensures DetectBareType(line) == Some(RuleType.Parse(normal))
  {
    TrimFacts(line);
    assert NormalizeType(line) == normal;
  }

  lemma BareTypes(typeLine: string)
    requires TypeOf(typeLine) != Unclassified
    ensures DetectBareType(typeLine) == Some(TypeOf(typeLine)) && IsValue(typeLine)
  {
    OccursOne('\n', typeLine);
    hide DetectBareType, Occurs;
    match typeLine
    case "Action" => BareTypeReads(typeLine, "action");
    case "Reaction" => BareTypeReads(typeLine, "reaction");
    case "Free Action" => BareTypeReads(typeLine, "free-action");
    case "Feat" => BareTypeReads(typeLine, "feat");
    case "Condition" => BareTypeReads(typeLine, "condition");
    case _ => assert false;
  }

  function OptionalReading(tag: Label, value: Option<string>): seq<Reading>
  {
    match value case None => [] case Some(v) => [Labelled(tag, v)]
  }

  lemma OptionalLineReads(name: string, tag: Label, value: Option<string>)
    requires name in {"Traits", "Trigger", "Requirements", "Effect"} && KnownLabel(Lower(name)) == Some(tag)
    requires IsValue(name) && OptionalValue(value)
    ensures Map(ReadLine, OptionalLine(name, value)) == OptionalReading(tag, value)
    ensures forall l :: l in OptionalLine(name, value) ==> IsValue(l)
  {
    if value.Some? {
      LabelLineReads(name, tag, value.value);
      LabelLineIsValue(name, value.value);
    }
  }

  /** The lines of a printable block are values. */
  lemma BlockLinesAreValues(b: Printed)
    requires Printable(b)
    ensures forall l :: l in BlockLines(b) ==> IsValue(l)
  {
    BookLabels();
    BareTypes(b.typeLine);
    LabelLineIsValue("Name", b.name);
    OptionalLineReads("Traits", Traits, b.traits);
    OptionalLineReads("Trigger", Trigger, b.trigger);
    OptionalLineReads("Requirements", Requirements, b.requirements);
    OptionalLineReads("Effect", Effect, b.effect);
    hide IsValue, OptionalLine, LabelLine;
  }

  /** The readings of a printable block's lines are its fields in print order. */
  lemma BlockLinesRead(b: Printed)
    requires Printable(b)
    ensures BareType(BlockLines(b)) == Some(TypeOf(b.typeLine))
    ensures Readings(BlockLines(b))
            == [Labelled(Name, b.name)] + OptionalReading(Traits, b.traits) + OptionalReading(Trigger, b.trigger)
               + OptionalReading(Requirements, b.requirements) + OptionalReading(Effect, b.effect)
  {
    hide IsValue, ReadLine, DetectBareType, OptionalLine, OptionalReading, LabelLine, Map, Lower, TypeOf, KnownLabel,
         Trimmed;
    BookLabels();
    BareTypes(b.typeLine);
    LabelLineReads("Name", Name, b.name);
    OptionalLineReads("Traits", Traits, b.traits);
    OptionalLineReads("Trigger", Trigger, b.trigger);
    OptionalLineReads("Requirements", Requirements, b.requirements);
    OptionalLineReads("Effect", Effect, b.effect);
    var l0 := [LabelLine("Name", b.name)];
    var l1 := l0 + OptionalLine("Traits", b.traits);
    var l2 := l1 + OptionalLine("Trigger", b.trigger);
    var l3 := l2 + OptionalLine("Requirements", b.requirements);
    var l4 := l3 + OptionalLine("Effect", b.effect);
    assert Map(ReadLine, l0) == [Labelled(Name, b.name)];
    MapConcat(ReadLine, l0, OptionalLine("Traits", b.traits));
    MapConcat(ReadLine, l1, OptionalLine("Trigger", b.trigger));
    MapConcat(ReadLine, l2, OptionalLine("Requirements", b.requirements));
    MapConcat(ReadLine, l3, OptionalLine("Effect", b.effect));
    assert BlockLines(b) == [b.typeLine] + l4;
    assert BlockLines(b)[1..] == l4;
  }

  lemma CollectOption(readings: seq<Reading>, tag: Label, value: Option<string>)
    ensures Collect(readings + OptionalReading(tag, value))
            == if value.Some? then Add(Collect(readings), Labelled(tag, value.value)) else Collect(readings)
  {
    if value.Some? {
      CollectSnoc(readings, Labelled(tag, value.value));
    } else {
      assert readings + [] == readings;
    }
  }

  lemma BlockContent(b: Printed)
    requires Printable(b)
    ensures ContentLines(PrintBlock(b)) == BlockLines(b) && IsBlock(PrintBlock(b))
  {
    BlockLinesAreValues(b);
    var lines := BlockLines(b);
    hide TrimmedLines, Printable, Readings, BareType, OptionalReading, Occurs, Trimmed;
    assert lines != [];
    hide BlockLines;
    TrimmedLinesJoin(lines);
    FilterAll(NonEmpty, lines);
    JoinedLinesAreBlock(lines);
  }

  lemma BlockCollects(b: Printed)
    ensures Collect([Labelled(Name, b.name)] + OptionalReading(Traits, b.traits) + OptionalReading(Trigger, b.trigger)
                    + OptionalReading(Requirements, b.requirements) + OptionalReading(Effect, b.effect))
            == Fields(None, Some(b.name), ListOf(b.traits), b.trigger, ListOf(b.requirements), [], b.effect, [], 0)
  {
    hide Collect, OptionalReading, SplitList;
    var r0 := [Labelled(Name, b.name)];
    var r1 := r0 + OptionalReading(Traits, b.traits);
    var r2 := r1 + OptionalReading(Trigger, b.trigger);
    var r3 := r2 + OptionalReading(Requirements, b.requirements);
    CollectNone();
    CollectSnoc([], Labelled(Name, b.name));
    assert [] + r0 == r0;
    CollectOption(r0, Traits, b.traits);
    CollectOption(r1, Trigger, b.trigger);
    CollectOption(r2, Requirements, b.requirements);
    CollectOption(r3, Effect, b.effect);
  }

  /** Reading a printed block gives exactly the fields that were printed, at full confidence. */
  lemma BlockReads(b: Printed)
    requires Printable(b)
    ensures ReadBlock(PrintBlock(b)) == Meaning(b)
    ensures IsBlock(PrintBlock(b))
  {
    hide Printable, ContentLines, Readings, BareType, Collect, OptionalReading, BlockLines, SplitList,
         BracketedReferences, PrintBlock;
    BlockContent(b);
    BlockLinesRead(b);
    BlockCollects(b);
    assert [] + BracketedReferences(PrintBlock(b)) == BracketedReferences(PrintBlock(b));
  }

  /** Trimmed and not empty: what the parser takes whole, when no separator stands in it. */
  ghost predicate IsBlock(s: string) { s != "" && Trimmed(s) }

  lemma {:induction false} JoinedLinesAreBlock(lines: seq<string>)
    requires lines != [] && forall l :: l in lines ==> IsValue(l)
    ensures IsBlock(Join(lines, "\n"))
  {
    assert lines[0] in lines;
    if |lines| > 1 {
      JoinedLinesAreBlock(lines[1..]);
      var rest, s := Join(lines[1..], "\n"), Join(lines, "\n");
      assert s[0] == lines[0][0] && s[|s| - 1] == rest[|rest| - 1];
    }
  }

  // ---------- many blocks ----------

  lemma BlockAlone(block: string)
    requires IsBlock(block) && !Occurs(BLOCK_SEPARATOR, block)
    ensures Blocks(block) == [block]
  {
    SplitWhole(block, BLOCK_SEPARATOR);
    TrimFacts(block);
    hide Split, Trim, Occurs;
    assert Map(Trim, [block]) == [block];
    FilterAll(NonEmpty, [block]);
  }

  lemma NoBlocks()
    ensures Blocks("") == []
  {
    assert Split("", BLOCK_SEPARATOR) == [""];
    TrimFacts("");
    hide Trim;
    assert Map(Trim, [""]) == [""];
  }

  /** Blocks joined by separator lines are the blocks the parser finds. */
  lemma {:induction false} BlocksOfJoin(blocks: seq<string>)
    requires forall b :: b in blocks ==> IsBlock(b) && !Occurs(BLOCK_SEPARATOR, b)
    ensures Blocks(Join(blocks, "\n---\n")) == blocks
  {
    hide Blocks, IsBlock, Occurs;
    if blocks == [] {
      NoBlocks();
    } else {
      BlockAlone(blocks[0]);
      if |blocks| > 1 {
        BlocksOfJoin(blocks[1..]);
        ParseCandidatesConcat(blocks[0], Join(blocks[1..], "\n---\n"));
      }
    }
  }

  /** Parsing converted blocks gives each block's meaning in order, exactly
      when no block holds a separator. */
  lemma BlocksMeaning(printed: seq<Printed>)
    requires forall b :: b in printed ==> Printable(b)
    ensures ParseCandidates(Join(Map(PrintBlock, printed), "\n---\n")) == Map(Meaning, printed)
            <==> forall b :: b in printed ==> !Occurs(BLOCK_SEPARATOR, PrintBlock(b))
  {
    hide *;
    if forall b :: b in printed ==> !Occurs(BLOCK_SEPARATOR, PrintBlock(b)) {
      BlocksReadBack(printed);
    }
    if ParseCandidates(Join(Map(PrintBlock, printed), "\n---\n")) == Map(Meaning, printed) {
      MeaningSources(printed);
      BlocksHoldNoSeparator(Join(Map(PrintBlock, printed), "\n---\n"), printed);
    }
  }

  lemma BlocksReadBack(printed: seq<Printed>)
    requires forall b :: b in printed ==> Printable(b) && !Occurs(BLOCK_SEPARATOR, PrintBlock(b))
    ensures ParseCandidates(Join(Map(PrintBlock, printed), "\n---\n")) == Map(Meaning, printed)
  {
    hide PrintBlock, ReadBlock, Blocks, IsBlock, Occurs, Join, Printable, Meaning;
    forall b | b in printed ensures ReadBlock(PrintBlock(b)) == Meaning(b) && IsBlock(PrintBlock(b)) {
      BlockReads(b);
    }
    var blocks := Map(PrintBlock, printed);
    BlocksOfJoin(blocks);
    assert Map(ReadBlock, blocks) == Map(Meaning, printed);
  }

  /** When the candidates' source texts are the printed blocks, none of those holds a separator. */
  lemma BlocksHoldNoSeparator(text: string, printed: seq<Printed>)
    requires |ParseCandidates(text)| == |printed|
    requires forall i :: 0 <= i < |printed| ==> ParseCandidates(text)[i].sourceText == PrintBlock(printed[i])
    ensures forall b :: b in printed ==> !Occurs(BLOCK_SEPARATOR, PrintBlock(b))
  {
    hide PrintBlock, Blocks, Occurs, ParseCandidates;
    BlocksFacts(text);
    forall b | b in printed ensures !Occurs(BLOCK_SEPARATOR, PrintBlock(b)) {
      var i :| 0 <= i < |printed| && printed[i] == b;
      SourceTextIsBlock(text, i);
    }
  }

  lemma MeaningSources(printed: seq<Printed>)
    ensures |Map(Meaning, printed)| == |printed|
    ensures forall i :: 0 <= i < |printed| ==> Map(Meaning, printed)[i].sourceText == PrintBlock(printed[i])
  {
    hide PrintBlock;
  }

  lemma SourceTextIsBlock(text: string, i: nat)
    requires i < |ParseCandidates(text)|
    ensures ParseCandidates(text)[i].sourceText in Blocks(text)
  {
    assert ParseCandidates(text)[i] == ReadBlock(Blocks(text)[i]);
  }

  // ---------- separators ----------

  ghost predicate NoDashes(s: string) { !Occurs("---", s) }

  ghost predicate DashFree(b: Printed)
  {
    NoDashes(b.name) && (b.traits.Some? ==> NoDashes(b.traits.value)) && (b.trigger.Some? ==> NoDashes(b.trigger.value))
    && (b.requirements.Some? ==> NoDashes(b.requirements.value)) && (b.effect.Some? ==> NoDashes(b.effect.value))
  }

  /** A text joined around dash-free separators holds `---` exactly when one of its parts does. */
  lemma JoinedDashes(parts: seq<string>, sep: string)
    requires sep != "" && '-' !in sep
    ensures NoDashes(Join(parts, sep)) <==> forall p :: p in parts ==> NoDashes(p)
  {
    if forall p :: p in parts ==> NoDashes(p) {
      OccursJoin("---", parts, sep);
    }
    hide NoDashes;
    if NoDashes(Join(parts, sep)) {
      forall p | p in parts ensures NoDashes(p) {
        OccursInJoin(p, parts, sep);
        NoDashesWithin(p, Join(parts, sep));
      }
    }
  }

  lemma LabelLineDashes(name: string, value: string)
    requires name in {"Name", "Traits", "Trigger", "Requirements", "Effect"}
    ensures NoDashes(LabelLine(name, value)) <==> NoDashes(value)
  {
    OccursHead("---", name);
    OccursAround("---", name, ": ", value);
    assert At(value, name + ": " + value, |name| + 2);
    hide NoDashes;
    if NoDashes(LabelLine(name, value)) {
      NoDashesWithin(value, name + ": " + value);
    }
  }

  lemma TypeLineWithoutDashes(typeLine: string)
    requires TypeOf(typeLine) != Unclassified
    ensures NoDashes(typeLine)
  {
    assert forall i :: 0 <= i < |typeLine| ==> typeLine[i] != "---"[0];
    OccursHead("---", typeLine);
  }

  ghost predicate LinesDashFree(lines: seq<string>) { forall l :: l in lines ==> NoDashes(l) }

  lemma LinesDashFreeConcat(a: seq<string>, b: seq<string>)
    ensures LinesDashFree(a + b) <==> LinesDashFree(a) && LinesDashFree(b)
  {
    hide NoDashes;
    assert forall l :: l in a + b <==> l in a || l in b;
  }

  lemma OptionalLineDashes(name: string, value: Option<string>)
    requires name in {"Name", "Traits", "Trigger", "Requirements", "Effect"}
    ensures LinesDashFree(OptionalLine(name, value)) <==> (value.Some? ==> NoDashes(value.value))
  {
    if value.Some? {
      LabelLineDashes(name, value.value);
      assert OptionalLine(name, value) == [LabelLine(name, value.value)];
    }
    hide NoDashes, LabelLine;
  }

  /** A block holds a separator exactly when one of its values does. */
  lemma BlockDashes(b: Printed)
    requires TypeOf(b.typeLine) != Unclassified
    ensures NoDashes(PrintBlock(b)) <==> DashFree(b)
  {
    TypeLineWithoutDashes(b.typeLine);
    JoinedDashes(BlockLines(b), "\n");
    hide NoDashes, OptionalLine, TypeOf, Join;
    var l1 := [b.typeLine, LabelLine("Name", b.name)];
    LabelLineDashes("Name", b.name);
    assert LinesDashFree(l1) <==> NoDashes(b.name) by {
      assert l1[0] in l1 && l1[1] in l1;
    }
    hide LabelLine;
    BlockLinesDashes(b, l1);
  }

  lemma BlockLinesDashes(b: Printed, l1: seq<string>)
    requires l1 == [b.typeLine, LabelLine("Name", b.name)]
    requires LinesDashFree(l1) <==> NoDashes(b.name)
    ensures LinesDashFree(BlockLines(b)) <==> DashFree(b)
  {
    OptionalLineDashes("Traits", b.traits);
    OptionalLineDashes("Trigger", b.trigger);
    OptionalLineDashes("Requirements", b.requirements);
    OptionalLineDashes("Effect", b.effect);
    hide NoDashes, OptionalLine, LinesDashFree, LabelLine;
    var l2 := l1 + OptionalLine("Traits", b.traits);
    var l3 := l2 + OptionalLine("Trigger", b.trigger);
    var l4 := l3 + OptionalLine("Requirements", b.requirements);
    LinesDashFreeConcat(l1, OptionalLine("Traits", b.traits));
    LinesDashFreeConcat(l2, OptionalLine("Trigger", b.trigger));
    LinesDashFreeConcat(l3, OptionalLine("Requirements", b.requirements));
    LinesDashFreeConcat(l4, OptionalLine("Effect", b.effect));
    assert BlockLines(b) == l4 + OptionalLine("Effect", b.effect);
  }

  /** The line the pages that lose something hold. */
  lemma DashedLine()
    ensures !NoDashes("a---b") && IsWord("a---b") && IsValue("a---b")
  {
    assert At("---", "a---b", 1);
    OccursOne('\n', "a---b");
  }

  lemma SeparatorFree(printed: seq<Printed>)
    ensures (forall b :: b in printed ==> !Occurs(BLOCK_SEPARATOR, PrintBlock(b)))
            <==> forall b :: b in printed ==> NoDashes(PrintBlock(b))
  {
    hide PrintBlock, Occurs;
  }

  lemma NoDashesWithin(part: string, whole: string)
    requires NoDashes(whole) && Occurs(part, whole)
    ensures NoDashes(part)
  {
    if Occurs("---", part) { OccursTrans("---", part, whole); }
  }

  // ---------- plain pages ----------

  /** A trimmed line without line feeds and without two dashes in a row. */
  predicate Plain(l: string)
  {
    Trimmed(l) && forall i :: 0 <= i < |l| ==> l[i] != '\n' && (i + 1 < |l| ==> l[i] != '-' || l[i + 1] != '-')
  }

  lemma DoubleDash(s: string)
    ensures Occurs("---", s) ==> exists i :: 0 <= i < |s| - 1 && s[i] == '-' && s[i + 1] == '-'
  {
    if i :| At("---", s, i) {
      assert s[i] == s[i..i + 3][0] && s[i + 1] == s[i..i + 3][1];
    }
  }

  lemma PlainFacts(l: string)
    requires Plain(l)
    ensures '\n' !in l && Trim(l) == l && NoDashes(l)
  {
    TrimFacts(l);
    DoubleDash(l);
    hide Occurs, Trim;
  }

  /** Plain lines, printed one under another, are the lines of a page without separators. */
  lemma PlainPage(lines: seq<string>)
    requires lines != [] && lines[|lines| - 1] != "" && forall l :: l in lines ==> Plain(l)
    ensures TrimmedLines(Join(lines, "\n")) == lines && !Occurs("---", Join(lines, "\n"))
  {
    hide Plain, Trim, Join, TrimmedLines;
    forall l | l in lines ensures '\n' !in l && Trim(l) == l && NoDashes(l) {
      PlainFacts(l);
    }
    TrimmedLinesOf(lines);
    JoinedDashes(lines, "\n");
    assert Map(Trim, lines) == lines;
  }
}
