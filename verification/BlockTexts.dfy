/** What the parser reads, in terms of the text of a block's lines alone. */
module BlockTexts {
  import opened Sequences
  import opened Text
  import opened Domain
  import opened Decimals
  import opened Parser
  import opened ParserLaws

  // ---------- rule types ----------

  /** The words that name a rule type, as a line or as the value of a `Type:` line. */
  predicate TypeWord(word: string, t: RuleType)
  {
    match t
    case Action => word == "action"
    case Reaction => word == "reaction"
    case FreeAction => word == "free action" || word == "free-action"
    case Feat => word == "feat"
    case Condition => word == "condition"
    case Unclassified => false
  }

  lemma NormalizedWord(value: string, word: string)
    requires '-' !in word && ' ' !in word
    ensures NormalizeType(value) == word <==> Lower(Trim(value)) == word
  {
    hide Trim;
    var lower := Lower(Trim(value));
    assert forall i :: 0 <= i < |lower| ==> NormalizeType(value)[i] == DashSpace(lower[i]);
  }

  lemma NormalizedFreeAction(value: string)
    ensures NormalizeType(value) == "free-action" <==> Lower(Trim(value)) in ["free action", "free-action"]
  {
    hide Trim;
    var lower := Lower(Trim(value));
    assert forall i :: 0 <= i < |lower| ==> NormalizeType(value)[i] == DashSpace(lower[i]);
    if NormalizeType(value) == "free-action" {
      assert lower[4] == '-' || lower[4] == ' ';
      if lower[4] == '-' {
        assert lower == "free-action";
      } else {
        assert lower == "free action";
      }
    }
  }

  /** A value names a rule type exactly when, trimmed and in lower case, it is one of its words. */
  lemma TypeWordIff(value: string, t: RuleType)
    requires t != Unclassified
    ensures RuleType.Parse(NormalizeType(value)) == t <==> TypeWord(Lower(Trim(value)), t)
  {
    hide NormalizeType, Trim, Lower;
    NormalizedWord(value, "action");
    NormalizedWord(value, "reaction");
    NormalizedFreeAction(value);
    NormalizedWord(value, "feat");
    NormalizedWord(value, "condition");
  }

  // ---------- labels ----------

  /** The line's text before its first colon is `word`, whatever its case and
      the space around it, and its trimmed text after the colon is `value`. */
  ghost predicate Says(line: string, word: string, value: string)
  {
    exists before, after :: Cut(line, ':', before, after) && Lower(Trim(before)) == word && value == Trim(after)
  }

  /** A line says at most one word, with one value. */
  lemma SaysOnce(line: string, word: string, value: string, other: string, otherValue: string)
    requires Says(line, word, value) && Says(line, other, otherValue)
    ensures word == other && value == otherValue
  {
    hide Trim, Cut;
    SplitOnceCut(line, ':');
  }

  ghost function WordsOf(tag: Label): seq<string>
  {
    match tag
    case Type => ["type"]
    case Name => ["name"]
    case Traits => ["traits"]
    case Trigger => ["trigger"]
    case Requirements => ["requirements"]
    case Prerequisites => ["prerequisites"]
    case Effect => ["effect"]
    case References => ["see also", "references"]
  }

  ghost predicate SaysOf(line: string, tag: Label, value: string)
  {
    exists word :: word in WordsOf(tag) && Says(line, word, value)
  }

  lemma KnownLabelIff(tag: string, known: Label)
    ensures KnownLabel(tag) == Some(known) <==> tag in WordsOf(known)
    ensures tag in WordsOf(known) ==> 0 < |tag| <= 32
  {
  }

  lemma SplitLabelSays(line: string, word: string, value: string)
    requires 0 < |word| <= 32
    ensures SplitLabel(line) == Some((word, value)) <==> Says(line, word, value)
  {
    hide SplitOnce, Trim, Cut;
    SplitOnceCut(line, ':');
  }

  lemma ReadLineSays(line: string, tag: Label, value: string)
    ensures ReadLine(line) == Labelled(tag, value) <==> SaysOf(line, tag, value)
  {
    hide SplitLabel, KnownLabel, Says, WordsOf;
    if ReadLine(line) == Labelled(tag, value) {
      var word := SplitLabel(line).value.0;
      KnownLabelIff(word, tag);
      SplitLabelSays(line, word, value);
    }
    if word :| word in WordsOf(tag) && Says(line, word, value) {
      KnownLabelIff(word, tag);
      SplitLabelSays(line, word, value);
    }
  }

  // ---------- the fields of a block ----------

  predicate NamesType(line: string) { exists t :: TypeWord(Lower(Trim(line)), t) }

  /** The lines that can set fields: all content lines but a first one that names a rule type. */
  function FieldLines(lines: seq<string>): seq<string>
  {
    if lines != [] && NamesType(lines[0]) then lines[1..] else lines
  }

  /** Line `i` says `word` with this value, and no later line says it. */
  ghost predicate LastSaying(lines: seq<string>, word: string, i: int, value: string)
  {
    && 0 <= i < |lines| && Says(lines[i], word, value)
    && forall j, v :: i < j < |lines| ==> !Says(lines[j], word, v)
  }

  /** The value of the last line that says `word`; none when no line does. */
  ghost predicate SetBy(value: Option<string>, lines: seq<string>, word: string)
  {
    forall v :: value == Some(v) <==> exists i :: LastSaying(lines, word, i, v)
  }

  lemma BareTypeIff(lines: seq<string>, t: RuleType)
    ensures BareType(lines) == Some(t) <==> lines != [] && TypeWord(Lower(Trim(lines[0])), t)
    ensures FieldLines(lines) == if BareType(lines).Some? then lines[1..] else lines
  {
    hide NormalizeType, Trim, Lower, TypeWord, RuleType.Parse;
    if lines != [] {
      forall u | u != Unclassified
        ensures RuleType.Parse(NormalizeType(lines[0])) == u <==> TypeWord(Lower(Trim(lines[0])), u)
      {
        TypeWordIff(lines[0], u);
      }
      var word := Lower(Trim(lines[0]));
      NoWord(word);
      assert BareType(lines).Some? ==> TypeWord(word, BareType(lines).value);
      if t :| TypeWord(word, t) {
        assert t != Unclassified && RuleType.Parse(NormalizeType(lines[0])) == t;
      }
    }
  }

  lemma NoWord(word: string)
    ensures !TypeWord(word, Unclassified)
  {
  }

  lemma ReadFieldLines(lines: seq<string>)
    ensures Readings(lines) == Map(ReadLine, FieldLines(lines))
  {
    hide ReadLine, BareType, FieldLines, Map;
    BareTypeIff(lines, Unclassified);
  }

  lemma LabelledSays(line: string, tag: Label, word: string)
    requires WordsOf(tag) == [word]
    ensures forall v :: ReadLine(line) == Labelled(tag, v) <==> Says(line, word, v)
    ensures ReadLine(line).Labelled? && ReadLine(line).tag == tag <==> exists v :: Says(line, word, v)
  {
    hide ReadLine, Says, WordsOf;
    forall v ensures ReadLine(line) == Labelled(tag, v) <==> Says(line, word, v) {
      ReadLineSays(line, tag, v);
    }
    if ReadLine(line).Labelled? && ReadLine(line).tag == tag {
      assert Says(line, word, ReadLine(line).value);
    }
  }

  /** The last reading with a label is the last line that says its word. */
  lemma LastSays(lines: seq<string>, tag: Label, word: string, i: int, value: string)
    requires WordsOf(tag) == [word]
    ensures var r := Map(ReadLine, lines);
      IsLast(r, tag, i) && r[i].value == value <==> LastSaying(lines, word, i, value)
  {
    var r := Map(ReadLine, lines);
    hide ReadLine, Says, WordsOf, Map;
    forall j | 0 <= j < |lines|
      ensures r[j] == Labelled(tag, value) <==> Says(lines[j], word, value)
      ensures r[j].Labelled? && r[j].tag == tag <==> exists v :: Says(lines[j], word, v)
    {
      LabelledSays(lines[j], tag, word);
    }
  }

  lemma SetByText(lines: seq<string>, tag: Label, word: string)
    requires WordsOf(tag) == [word]
    ensures SetBy(LastValue(Map(ReadLine, lines), tag), lines, word)
  {
    var r := Map(ReadLine, lines);
    LastValueIsLast(r, tag);
    forall i, v ensures IsLast(r, tag, i) && r[i].value == v <==> LastSaying(lines, word, i, v) {
      LastSays(lines, tag, word, i, v);
    }
    hide IsLast, LastSaying, LastValue, ReadLine, WordsOf;
    forall v ensures LastValue(r, tag) == Some(v) <==> exists i :: LastSaying(lines, word, i, v) {
      if i :| IsLast(r, tag, i) && r[i].value == v {
        assert LastSaying(lines, word, i, v);
      }
    }
  }

  /** The items of the value of the last line that says `word`; none when no line does. */
  ghost predicate ListSetBy(items: seq<string>, lines: seq<string>, word: string)
  {
    && (forall i, v :: LastSaying(lines, word, i, v) ==> items == SplitList(v))
    && ((forall i, v :: !LastSaying(lines, word, i, v)) ==> items == [])
  }

  lemma ListSetByText(value: Option<string>, lines: seq<string>, word: string)
    requires SetBy(value, lines, word)
    ensures ListSetBy(ListOf(value), lines, word)
  {
    hide LastSaying, SplitList;
    forall i, v | LastSaying(lines, word, i, v) ensures ListOf(value) == SplitList(v) {
      assert value == Some(v);
    }
    if forall i, v :: !LastSaying(lines, word, i, v) {
      assert value == None;
    }
  }

  /** A list is its items between commas, trimmed, in order, blank ones left out. */
  lemma ListItems(items: seq<string>)
    requires items != [] && forall i :: i in items ==> ',' !in i
    ensures SplitList(Join(items, ",")) == Filter(NonEmpty, Map(Trim, items))
  {
    hide Trim, Filter, Split, Join;
    forall i | i in items ensures !Occurs(",", i) {
      OccursOne(',', i);
    }
    SplitJoin(items, ",");
  }

  /** Each field is set by the last line that says its own word, and by nothing
      else: a line that says another word, or none, leaves it alone. */
  lemma FieldsByText(block: string)
    ensures var lines, d := FieldLines(ContentLines(block)), ReadBlock(block);
      && SetBy(d.name, lines, "name")
      && SetBy(d.trigger, lines, "trigger")
      && SetBy(d.effect, lines, "effect")
      && ListSetBy(d.traits, lines, "traits")
      && ListSetBy(d.requirements, lines, "requirements")
      && ListSetBy(d.prerequisites, lines, "prerequisites")
  {
    LabelWords();
    hide *;
    var lines := FieldLines(ContentLines(block));
    DraftFields(block);
    SetByText(lines, Name, "name");
    SetByText(lines, Trigger, "trigger");
    SetByText(lines, Effect, "effect");
    ListByText(lines, Traits, "traits");
    ListByText(lines, Requirements, "requirements");
    ListByText(lines, Prerequisites, "prerequisites");
  }

  lemma LabelWords()
    ensures WordsOf(Name) == ["name"] && WordsOf(Trigger) == ["trigger"] && WordsOf(Effect) == ["effect"]
    ensures WordsOf(Traits) == ["traits"] && WordsOf(Requirements) == ["requirements"]
    ensures WordsOf(Prerequisites) == ["prerequisites"] && WordsOf(Type) == ["type"]
  {
  }

  lemma ListByText(lines: seq<string>, tag: Label, word: string)
    requires WordsOf(tag) == [word]
    ensures ListSetBy(ListOf(LastValue(Map(ReadLine, lines), tag)), lines, word)
  {
    hide *;
    SetByText(lines, tag, word);
    ListSetByText(LastValue(Map(ReadLine, lines), tag), lines, word);
  }

  lemma DraftFields(block: string)
    ensures var r, d := Map(ReadLine, FieldLines(ContentLines(block))), ReadBlock(block);
      && d.name == LastValue(r, Name) && d.trigger == LastValue(r, Trigger) && d.effect == LastValue(r, Effect)
      && d.traits == ListOf(LastValue(r, Traits))
      && d.requirements == ListOf(LastValue(r, Requirements))
      && d.prerequisites == ListOf(LastValue(r, Prerequisites))
      && d.references == ListedReferences(r) + BracketedReferences(block)
  {
    ReadFieldLines(ContentLines(block));
    hide ContentLines, FieldLines, Readings, ReadLine, Map, LastValue, ListOf, StatedType, ListedReferences,
         LeftoverCount, SaysNothing, UntaggedNote, BracketedReferences, Grade;
  }

  /** The rule type is the one named by the last line that says `type`, else the
      one a first line names by itself, else none. */
  lemma TypeByText(block: string, t: RuleType)
    requires t != Unclassified
    ensures var first, d := ContentLines(block), ReadBlock(block);
            var lines := FieldLines(first);
      && (forall i, v :: LastSaying(lines, "type", i, v) ==> (d.ruleType == t <==> TypeWord(Lower(v), t)))
      && ((forall i, v :: !LastSaying(lines, "type", i, v)) ==>
            (d.ruleType == t <==> first != [] && TypeWord(Lower(Trim(first[0])), t)))
  {
    var first := ContentLines(block);
    var lines := FieldLines(first);
    var r := Map(ReadLine, lines);
    ReadFieldLines(first);
    SetByText(lines, Type, "type");
    BareTypeIff(first, t);
    DraftType(block);
    hide ContentLines, FieldLines, Readings, ReadLine, Map, LastValue, TypeWord, RuleType.Parse, NormalizeType, Trim,
         BareType, ReadBlock, StatedType;
    forall i, v | LastSaying(lines, "type", i, v) ensures ReadBlock(block).ruleType == t <==> TypeWord(Lower(v), t) {
      TypeWordIff(v, t);
      assert LastValue(r, Type) == Some(v);
      SaidTrimmed(lines[i], "type", v);
    }
    if forall i, v :: !LastSaying(lines, "type", i, v) {
      assert LastValue(r, Type) == None;
    }
  }

  lemma SaidTrimmed(line: string, word: string, value: string)
    requires Says(line, word, value)
    ensures Trim(value) == value
  {
    var before, after :| Cut(line, ':', before, after) && Lower(Trim(before)) == word && value == Trim(after);
    TrimFacts(after);
    TrimFacts(value);
  }

  lemma DraftType(block: string)
    ensures var lines := ContentLines(block);
            var stated := TypeFrom(LastValue(Readings(lines), Type), BareType(lines));
      ReadBlock(block).ruleType == if stated.Some? then stated.value else Unclassified
  {
    hide ContentLines, Readings, LastValue, BareType, ListOf, ListedReferences, LeftoverCount, UntaggedNote,
         BracketedReferences, Grade, RuleType.Parse, NormalizeType;
  }

  // ---------- references, left-over lines and confidence ----------

  /** The items of this line's value when the line says `see also` or `references`, else none. */
  ghost predicate ListedBy(items: seq<string>, line: string)
  {
    && (forall v :: Says(line, "see also", v) || Says(line, "references", v) ==> items == SplitList(v))
    && ((forall v :: !Says(line, "see also", v) && !Says(line, "references", v)) ==> items == [])
  }

  lemma ListedByText(line: string)
    ensures ListedBy(ListedItems(ReadLine(line)), line)
  {
    hide ReadLine, Says, SplitList;
    forall v
      ensures ReadLine(line) == Labelled(References, v) <==> Says(line, "see also", v) || Says(line, "references", v)
    {
      ReadLineSays(line, References, v);
      assert WordsOf(References) == ["see also", "references"];
      assert SaysOf(line, References, v) <==> Says(line, "see also", v) || Says(line, "references", v);
    }
  }

  /** The references are the items of the lines that list some, line by line,
      and then what is bracketed anywhere in the block. */
  lemma ReferencesByText(block: string)
    ensures var lines, d := FieldLines(ContentLines(block)), ReadBlock(block);
      exists lists: seq<seq<string>> ::
        && |lists| == |lines| && (forall i :: 0 <= i < |lines| ==> ListedBy(lists[i], lines[i]))
        && d.references == Flatten(lists) + BracketedReferences(block)
  {
    var lines := FieldLines(ContentLines(block));
    DraftFields(block);
    var r := Map(ReadLine, lines);
    var lists := Map(ListedItems, r);
    hide ListedBy, ReadLine, ListedItems, FieldLines, ContentLines, Flatten, BracketedReferences, ReadBlock;
    forall i | 0 <= i < |lines| ensures ListedBy(lists[i], lines[i]) {
      ListedByText(lines[i]);
    }
  }

  /** The words of the documented grammar. */
  const GRAMMAR :=
    ["type", "name", "traits", "trigger", "requirements", "prerequisites", "effect", "see also", "references"]

  ghost predicate SaysNoLabel(line: string) { forall word, v :: word in GRAMMAR ==> !Says(line, word, v) }

  ghost function LeftOver(lines: seq<string>): set<int> { set i | 0 <= i < |lines| && SaysNoLabel(lines[i]) }

  lemma LeftoverByText(line: string)
    ensures ReadLine(line).Leftover? <==> SaysNoLabel(line)
  {
    hide ReadLine, Says, WordsOf;
    if ReadLine(line).Labelled? {
      var tag := ReadLine(line).tag;
      ReadLineSays(line, tag, ReadLine(line).value);
      GrammarWords();
    }
    if !SaysNoLabel(line) {
      GrammarWords();
      var word, v :| word in GRAMMAR && Says(line, word, v);
      var tag :| word in WordsOf(tag);
      ReadLineSays(line, tag, v);
    }
  }

  lemma GrammarWords()
    ensures forall tag, word :: word in WordsOf(tag) ==> word in GRAMMAR
    ensures forall word :: word in GRAMMAR ==> exists tag :: word in WordsOf(tag)
  {
    forall word | word in GRAMMAR ensures exists tag :: word in WordsOf(tag) {
      if word == "type" { assert word in WordsOf(Type); }
      if word == "name" { assert word in WordsOf(Name); }
      if word == "traits" { assert word in WordsOf(Traits); }
      if word == "trigger" { assert word in WordsOf(Trigger); }
      if word == "requirements" { assert word in WordsOf(Requirements); }
      if word == "prerequisites" { assert word in WordsOf(Prerequisites); }
      if word == "effect" { assert word in WordsOf(Effect); }
      if word in ["see also", "references"] { assert word in WordsOf(References); }
    }
  }

  /** No field and no type came out of the block. */
  predicate NothingRead(d: Draft)
  {
    d.name == None && d.trigger == None && d.effect == None && d.traits == [] && d.requirements == []
    && d.prerequisites == [] && d.ruleType == Unclassified
  }

  /** The block names its type in its first line, or some line says `type`. */
  ghost predicate Typed(first: seq<string>)
  {
    || (first != [] && NamesType(first[0]))
    || exists i, v :: 0 <= i < |first| && Says(first[i], "type", v)
  }

  lemma {:induction false} LastValueNone(r: seq<Reading>, tag: Label)
    ensures LastValue(r, tag).Some? <==> exists i :: 0 <= i < |r| && r[i].Labelled? && r[i].tag == tag
  {
    if r != [] {
      LastValueNone(r[..|r| - 1], tag);
      assert r[|r| - 1] == r[..][|r| - 1];
    }
  }

  lemma TypedByText(first: seq<string>)
    ensures StatedType(first).Some? <==> Typed(first)
  {
    var r := Map(ReadLine, first);
    BareTypeIff(first, Unclassified);
    ReadFieldLines(first);
    LastValueNone(r, Type);
    LabelWords();
    hide ReadLine, Says, WordsOf, Readings, BareType, LastValue, NormalizeType;
    NamesFirst(first);
    forall i, v | 0 <= i < |r| ensures r[i] == Labelled(Type, v) <==> Says(first[i], "type", v) {
      ReadLineSays(first[i], Type, v);
    }
    if i :| 0 <= i < |r| && r[i].Labelled? && r[i].tag == Type {
      assert Says(first[i], "type", r[i].value);
    }
    if i, v :| 0 <= i < |first| && Says(first[i], "type", v) {
      assert r[i] == Labelled(Type, v);
    }
    if BareType(first).None? {
      assert StatedType(first).Some? <==> LastValue(r, Type).Some?;
    }
  }

  lemma NamesFirst(first: seq<string>)
    ensures BareType(first).Some? <==> first != [] && NamesType(first[0])
  {
    hide TypeWord;
    if first != [] {
      if BareType(first).Some? {
        BareTypeIff(first, BareType(first).value);
      }
      if t :| TypeWord(Lower(Trim(first[0])), t) {
        BareTypeIff(first, t);
      }
    }
  }

  /** Confidence and inferences by what the lines say: whether anything was read,
      whether a type is stated, and how many lines say no word of the grammar. */
  lemma GradeByText(block: string)
    ensures var first, d := ContentLines(block), ReadBlock(block);
            var n := |LeftOver(FieldLines(first))|;
      && d.confidence == (if NothingRead(d) then 0.2
                          else if Typed(first) then if n == 0 then 0.9 else 0.75
                          else if n == 0 then 0.7 else 0.55)
      && d.inferences == if NothingRead(d) || n == 0 then []
                         else [PrintNat(n) + " untagged line(s) present in source, not mapped to a known field"]
  {
    var first := ContentLines(block);
    var lines := FieldLines(first);
    ConfidenceValues(block);
    NoteCounts(block);
    TypedByText(first);
    LeftoversByText(first);
    hide ContentLines, StatedType, Typed, LeftOver, FieldLines, LeftoverCount, Readings, ReadBlock, PrintNat;
  }

  lemma LeftoversByText(first: seq<string>)
    ensures |LeftOver(FieldLines(first))| == LeftoverCount(Readings(first))
  {
    var lines := FieldLines(first);
    ReadFieldLines(first);
    hide SaysNoLabel, ReadLine, LeftoverCount, Readings, FieldLines;
    var r := Map(ReadLine, lines);
    forall i | 0 <= i < |lines| ensures r[i].Leftover? <==> SaysNoLabel(lines[i]) {
      LeftoverByText(lines[i]);
    }
    CountLeftovers(r);
    assert LeftoverAt(r) == LeftOver(lines);
  }
}
