/** The Conditions Appendix: `convert_condition_page` of
    `src/book_adapter.rs`, from page to candidates. */
module BookConditions {
  import opened Sequences
  import opened Text
  import opened Domain
  import opened Parser
  import opened BookBlocks

  const ANCHOR := "List of Conditions"

  /** A condition entry; its heading is the line itself. */
  type RawConditionEntry = Section<string>

  predicate IsAnchor(line: string) { Lower(line) == Lower(ANCHOR) }

  predicate IsPageNumber(line: string) { line != "" && forall i :: 0 <= i < |line| ==> IsDigit(line[i]) }

  predicate IsStrictTitleCase(word: string)
  {
    word != "" && IsUpper(word[0]) && forall i :: 0 < i < |word| && IsLetter(word[i]) ==> IsLower(word[i])
  }

  predicate IsConditionHeading(line: string)
  {
    var words := Words(line);
    0 < |words| <= 2 && forall i :: 0 <= i < |words| ==> IsStrictTitleCase(words[i])
  }

  function ConditionHeading(line: string): Option<string>
  {
    if IsConditionHeading(line) then Some(line) else None
  }

  predicate IsKept(line: string) { line != "" && !IsPageNumber(line) }

  /** The lines after the first anchor line; none when there is no anchor. */
  function AfterAnchor(lines: seq<string>): seq<string>
  {
    if lines == [] then [] else if IsAnchor(lines[0]) then lines[1..] else AfterAnchor(lines[1..])
  }

  /** The lines the glossary scan looks at. */
  function GlossaryLines(text: string): seq<string> { Filter(IsKept, AfterAnchor(TrimmedLines(text))) }

  function ConditionEntries(text: string): seq<RawConditionEntry>
  {
    Sections(ConditionHeading, GlossaryLines(text)).sections
  }

  /** The lines the scan will still look at. */
  ghost function Ahead(pastAnchor: bool, lines: seq<string>): seq<string>
  {
    Filter(IsKept, if pastAnchor then lines else AfterAnchor(lines))
  }

  lemma AheadStep(pastAnchor: bool, lines: seq<string>)
    requires lines != []
    ensures !pastAnchor ==> Ahead(pastAnchor, lines) == Ahead(IsAnchor(lines[0]), lines[1..])
    ensures pastAnchor ==> Ahead(pastAnchor, lines)
                           == (if IsKept(lines[0]) then [lines[0]] else []) + Ahead(pastAnchor, lines[1..])
  {
  }

  /** What the scan still has to put out. */
  ghost function Pending(current: Option<RawConditionEntry>, pastAnchor: bool, lines: seq<string>):
    seq<RawConditionEntry>
  {
    Remaining(current, Sections(ConditionHeading, Ahead(pastAnchor, lines)))
  }

  lemma PendingStep(current: Option<RawConditionEntry>, pastAnchor: bool, line: string, lines: seq<string>)
    ensures Pending(current, pastAnchor, [line] + lines)
            == if !pastAnchor then Pending(current, IsAnchor(line), lines)
               else if !IsKept(line) then Pending(current, true, lines)
               else if IsConditionHeading(line) then
                 Closed(current) + Pending(Some(Section([line], line, [])), true, lines)
               else Pending(WithLine(current, line), true, lines)
  {
    assert ([line] + lines)[1..] == lines;
    AheadStep(pastAnchor, [line] + lines);
    hide Remaining, Sections, WithLine, IsConditionHeading, IsKept, IsAnchor, Ahead;
    var later := Ahead(true, lines);
    SectionsStep(ConditionHeading, line, later);
    RemainingAtHeading(current, Section([line], line, []), Sections(ConditionHeading, later));
    RemainingAtLine(current, line, Sections(ConditionHeading, later));
    assert [] + later == later;
  }

  lemma PendingEnds(current: Option<RawConditionEntry>, pastAnchor: bool, text: string)
    ensures Pending(current, pastAnchor, []) == Closed(current)
    ensures Pending(None, false, TrimmedLines(text)) == ConditionEntries(text)
  {
    hide TrimmedLines, Remaining, IsConditionHeading;
    RemainingAtEnds(current, Sections(ConditionHeading, GlossaryLines(text)));
    assert Ahead(pastAnchor, []) == [];
  }

  method SplitConditionEntries(text: string) returns (entries: seq<RawConditionEntry>)
    ensures entries == ConditionEntries(text)
  {
    hide TrimmedLines, Pending, IsConditionHeading, IsPageNumber, IsAnchor, ConditionEntries;
    entries := [];
    var current: Option<RawConditionEntry> := None;
    var pastAnchor := false;
    var lines := TrimmedLines(text);
    assert lines[0..] == lines;
    PendingEnds(None, false, text);
    for index := 0 to |lines|
      invariant ConditionEntries(text) == entries + Pending(current, pastAnchor, lines[index..])
    {
      var line := lines[index];
      assert lines[index..] == [line] + lines[index + 1..];
      PendingStep(current, pastAnchor, line, lines[index + 1..]);
      if !pastAnchor {
        pastAnchor := IsAnchor(line);
        continue;
      }
      if line == "" || IsPageNumber(line) {
        continue;
      }
      if IsConditionHeading(line) {
        if current.Some? {
          entries := entries + [current.value];
        }
        current := Some(Section([line], line, []));
        continue;
      }
      if current.Some? {
        current := Some(current.value.(body := current.value.body + [line]));
      }
    }
    PendingEnds(current, pastAnchor, text);
    if current.Some? {
      entries := entries + [current.value];
    }
  }

  // ---------- pages to candidates ----------

  function PrintedCondition(entry: RawConditionEntry): Printed
  {
    var effect := Trim(JoinSpace(entry.body));
    Printed("Condition", entry.heading, None, None, None, if effect == "" then None else Some(effect))
  }

  function RenderedCondition(entry: RawConditionEntry): string { PrintBlock(PrintedCondition(entry)) }

  function ConvertConditionPage(text: string): string
  {
    Join(Map(RenderedCondition, ConditionEntries(text)), "\n---\n")
  }

  /** What a candidate should say about a condition: the heading line as its
      name and the body lines as its effect. */
  function ConditionMeaning(entry: RawConditionEntry): Draft
  {
    Draft(Condition, Some(entry.heading), [], None, [], [],
          if entry.body == [] then None else Some(JoinSpace(entry.body)),
          BracketedReferences(RenderedCondition(entry)), RenderedCondition(entry), [], 0.9)
  }

  ghost predicate SoundEntry(entry: RawConditionEntry)
  {
    IsValue(entry.heading) && forall l :: l in entry.body ==> IsValue(l)
  }

  ghost predicate DashFreeEntry(entry: RawConditionEntry)
  {
    NoDashes(entry.heading) && forall l :: l in entry.body ==> NoDashes(l)
  }

  lemma {:induction false} AfterAnchorLines(lines: seq<string>)
    ensures forall l :: l in AfterAnchor(lines) ==> l in lines
    ensures AfterAnchor(lines) != [] ==>
            exists i :: 0 <= i < |lines| && IsAnchor(lines[i]) && AfterAnchor(lines) == lines[i + 1..]
  {
    if lines != [] && !IsAnchor(lines[0]) {
      AfterAnchorLines(lines[1..]);
      assert forall l :: l in lines[1..] ==> l in lines;
      if AfterAnchor(lines) != [] {
        var i :| 0 <= i < |lines[1..]| && IsAnchor(lines[1..][i]) && AfterAnchor(lines[1..]) == lines[1..][i + 1..];
        assert IsAnchor(lines[i + 1]) && AfterAnchor(lines) == lines[i + 2..];
      }
    } else if lines != [] {
      assert IsAnchor(lines[0]) && AfterAnchor(lines) == lines[0 + 1..];
    }
  }

  ghost predicate FirstAnchor(lines: seq<string>, i: int)
  {
    0 <= i < |lines| && IsAnchor(lines[i]) && forall j :: 0 <= j < i ==> !IsAnchor(lines[j])
  }

  /** The kept lines after the first anchor line, in order; none when there is no anchor. */
  ghost predicate IsGlossary(kept: seq<string>, lines: seq<string>)
  {
    || (exists i :: FirstAnchor(lines, i) && kept == Filter(IsKept, lines[i + 1..]))
    || (kept == [] && forall i :: 0 <= i < |lines| ==> !IsAnchor(lines[i]))
  }

  lemma {:induction false} GlossaryAfterAnchor(lines: seq<string>)
    ensures IsGlossary(Filter(IsKept, AfterAnchor(lines)), lines)
  {
    hide IsAnchor, Filter, IsKept;
    if lines != [] {
      var tail := lines[1..];
      assert forall j :: 0 < j < |lines| ==> lines[j] == tail[j - 1];
      if IsAnchor(lines[0]) {
        assert FirstAnchor(lines, 0) && lines[0 + 1..] == tail;
      } else {
        GlossaryAfterAnchor(tail);
        if i :| FirstAnchor(tail, i) && Filter(IsKept, AfterAnchor(tail)) == Filter(IsKept, tail[i + 1..]) {
          assert lines[i + 2..] == tail[i + 1..];
          assert FirstAnchor(lines, i + 1);
        }
      }
    } else {
      EmptyFilter();
    }
  }

  lemma EmptyFilter()
    ensures Filter(IsKept, []) == []
  {
  }

  /** What reaches an entry stands after the first anchor line and is neither blank
      nor a page number; and the entries hold every such line from the first
      heading on, once and in order. */
  lemma GlossaryPartition(text: string)
    ensures var lines := GlossaryLines(text);
            var cut := Sections(ConditionHeading, lines);
      && lines == cut.preamble + Flatten(Map(SectionLines, ConditionEntries(text)))
      && (forall l :: l in cut.preamble ==> !IsConditionHeading(l))
      && IsGlossary(lines, TrimmedLines(text))
      && (forall e :: e in ConditionEntries(text) ==>
            e.span == [e.heading] && IsConditionHeading(e.heading)
            && forall l :: l in e.body ==> l in lines && !IsConditionHeading(l))
  {
    var lines := GlossaryLines(text);
    SectionsPartition(ConditionHeading, lines);
    SectionsAtHeadings(ConditionHeading, lines);
    SectionsLines(ConditionHeading, lines);
    hide GlossaryLines, IsConditionHeading, SectionLines, Sections, IsPageNumber, AfterAnchor;
    GlossaryIs(text);
  }

  lemma GlossaryIs(text: string)
    ensures IsGlossary(GlossaryLines(text), TrimmedLines(text))
  {
    GlossaryAfterAnchor(TrimmedLines(text));
    hide IsGlossary, AfterAnchor, IsKept;
  }

  lemma ConditionEntriesFacts(text: string)
    ensures forall e :: e in ConditionEntries(text) ==> SoundEntry(e)
    ensures NoDashes(text) ==> forall e :: e in ConditionEntries(text) ==> DashFreeEntry(e)
  {
    TrimmedLinesFacts(text);
    AfterAnchorLines(TrimmedLines(text));
    SectionsLines(ConditionHeading, GlossaryLines(text));
    SectionsAtHeadings(ConditionHeading, GlossaryLines(text));
    hide AfterAnchor, TrimmedLines, Sections, IsConditionHeading, IsPageNumber, Trimmed, Occurs;
    forall l | l in GlossaryLines(text) ensures IsValue(l) && (NoDashes(text) ==> NoDashes(l)) {
      if NoDashes(text) {
        NoDashesWithin(l, text);
      }
    }
    hide GlossaryLines, IsValue, NoDashes;
  }

  lemma ConditionReads(entry: RawConditionEntry)
    requires SoundEntry(entry)
    ensures Printable(PrintedCondition(entry)) && Meaning(PrintedCondition(entry)) == ConditionMeaning(entry)
    ensures DashFree(PrintedCondition(entry)) <==> DashFreeEntry(entry)
  {
    JoinedDashes(entry.body, " ");
    var effect := JoinSpace(entry.body);
    TrimFacts(effect);
    if entry.body != [] {
      JoinValues(entry.body);
    } else {
      assert effect == "" && Trim(effect) == "";
    }
    hide PrintBlock, BracketedReferences, NoDashes, Trim, Join;
  }

  lemma ConditionsPrinted(entries: seq<RawConditionEntry>)
    requires forall e :: e in entries ==> SoundEntry(e)
    ensures Map(PrintBlock, Map(PrintedCondition, entries)) == Map(RenderedCondition, entries)
    ensures Map(Meaning, Map(PrintedCondition, entries)) == Map(ConditionMeaning, entries)
    ensures forall b :: b in Map(PrintedCondition, entries) ==> Printable(b)
    ensures (forall b :: b in Map(PrintedCondition, entries) ==> NoDashes(PrintBlock(b)))
            <==> forall e :: e in entries ==> DashFreeEntry(e)
  {
    hide PrintBlock, PrintedCondition, SoundEntry, Printable, Meaning, ConditionMeaning, NoDashes, DashFreeEntry,
         DashFree;
    var printed := Map(PrintedCondition, entries);
    forall e | e in entries
      ensures Printable(PrintedCondition(e)) && Meaning(PrintedCondition(e)) == ConditionMeaning(e)
      ensures PrintedCondition(e) in printed && (NoDashes(PrintBlock(PrintedCondition(e))) <==> DashFreeEntry(e))
    {
      ConditionReads(e);
      ConditionType(e);
      BlockDashes(PrintedCondition(e));
      var i :| 0 <= i < |entries| && entries[i] == e;
      assert printed[i] == PrintedCondition(e);
    }
    forall b | b in printed ensures exists e :: e in entries && b == PrintedCondition(e) {
      var i :| 0 <= i < |printed| && printed[i] == b;
      assert entries[i] in entries;
    }
  }

  lemma ConditionType(entry: RawConditionEntry)
    ensures TypeOf(PrintedCondition(entry).typeLine) != Unclassified
  {
  }

  /** Converting a glossary page and parsing the result gives one condition per
      entry, in order, with its exact name and its body lines as effect,
      exactly when no heading or body line of an entry holds `---`. */
  lemma ConditionsPreservedIff(text: string)
    ensures ParseCandidates(ConvertConditionPage(text)) == Map(ConditionMeaning, ConditionEntries(text))
            <==> forall e :: e in ConditionEntries(text) ==> DashFreeEntry(e)
  {
    ConditionEntriesFacts(text);
    ConvertedConditions(text);
    var entries := ConditionEntries(text);
    var printed := Map(PrintedCondition, entries);
    SeparatorFree(printed);
    hide *;
    ConditionsPrinted(entries);
    BlocksMeaning(printed);
  }

  lemma ConvertedConditions(text: string)
    ensures ConvertConditionPage(text) == Join(Map(RenderedCondition, ConditionEntries(text)), "\n---\n")
  {
  }

  /** For every page with no `---` in it, nothing is lost or invented. */
  lemma ConditionsPreserved(text: string)
    requires !Occurs("---", text)
    ensures ParseCandidates(ConvertConditionPage(text)) == Map(ConditionMeaning, ConditionEntries(text))
  {
    ConditionEntriesFacts(text);
    ConditionsPreservedIff(text);
    hide ConditionEntries, ConditionMeaning, ConvertConditionPage, Occurs, DashFreeEntry;
  }

  /** A glossary page whose body line holds a separator: what it says is lost. */
  lemma ConditionsLost() returns (text: string)
    ensures ParseCandidates(ConvertConditionPage(text)) != Map(ConditionMeaning, ConditionEntries(text))
  {
    hide ConditionEntries, NoDashes, ConvertConditionPage, ConditionMeaning, Join, IsValue, IsWord;
    text := Join([ANCHOR, "Blinded", "a---b"], "\n");
    var e := Section(["Blinded"], "Blinded", ["a---b"]);
    LostEntry(text, [ANCHOR, "Blinded", "a---b"]);
    DashedLine();
    assert "a---b" in e.body && !DashFreeEntry(e);
    assert e in ConditionEntries(text);
    hide DashFreeEntry;
    ConditionsPreservedIff(text);
  }

  lemma OneWordHeading(w: string)
    requires IsWord(w)
    ensures ConditionHeading(w) == if IsStrictTitleCase(w) then Some(w) else None
  {
    WordsSingle(w);
    hide Words, IsStrictTitleCase;
    assert IsConditionHeading(w) <==> IsStrictTitleCase([w][0]);
  }

  lemma LostLinesRead()
    ensures IsAnchor(ANCHOR) && IsKept("Blinded") && IsKept("a---b")
    ensures ConditionHeading("Blinded") == Some("Blinded") && ConditionHeading("a---b") == None
  {
    hide ConditionHeading, IsStrictTitleCase, IsPageNumber;
    LostWords();
    OneWordHeading("Blinded");
    OneWordHeading("a---b");
  }

  lemma LostWords()
    ensures !IsStrictTitleCase("a---b") && !IsPageNumber("a---b") && IsWord("a---b")
    ensures IsStrictTitleCase("Blinded") && !IsPageNumber("Blinded") && IsWord("Blinded")
  {
    assert "a---b"[0] == 'a' && "Blinded"[0] == 'B';
  }

  lemma LostEntry(text: string, lines: seq<string>)
    requires lines == [ANCHOR, "Blinded", "a---b"] && text == Join(lines, "\n")
    ensures ConditionEntries(text) == [Section(["Blinded"], "Blinded", ["a---b"])]
  {
    forall l | l in lines ensures Trimmed(l) && !Occurs("\n", l) {
      OccursOne('\n', l);
    }
    TrimmedLinesJoin(lines);
    LostLinesRead();
    hide IsAnchor, IsKept, ConditionHeading, Trimmed, Occurs, TrimmedLines, Join;
    assert lines[1..] == ["Blinded", "a---b"];
    assert GlossaryLines(text) == Filter(IsKept, ["Blinded", "a---b"]);
    FilterAll(IsKept, ["Blinded", "a---b"]);
    SectionsStep(ConditionHeading, "a---b", []);
    SectionsStep(ConditionHeading, "Blinded", ["a---b"]);
    assert ["Blinded"] + ["a---b"] == ["Blinded", "a---b"] && ["a---b"] + [] == ["a---b"];
  }
}
