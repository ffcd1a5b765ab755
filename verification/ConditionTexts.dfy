/** What `convert_condition_page` makes of a page, in terms of the page's own lines. */
module ConditionTexts {
  import opened Sequences
  import opened Text
  import opened Domain
  import opened Decimals
  import opened Parser
  import opened BookBlocks
  import opened BookConditions

  // ---------- lines ----------

  lemma AnchorByText(line: string)
    ensures IsAnchor(line) <==> Lower(line) == "list of conditions"
  {
    assert Lower(ANCHOR) == "list of conditions";
  }

  /** A line is dropped exactly when it is blank or a number. */
  lemma KeptByText(line: string)
    ensures IsKept(line) <==> line != "" && ReadDigits(line).None?
  {
    ReadDigitsIff(line);
  }

  /** A capital first, and no other. */
  predicate Capitalized(word: string)
  {
    word != "" && IsUpper(word[0]) && Lower(word[1..]) == word[1..]
  }

  lemma StrictTitleCaseIff(word: string)
    ensures IsStrictTitleCase(word) <==> Capitalized(word)
  {
    if word != "" {
      var rest := word[1..];
      assert forall i :: 0 < i < |word| ==> word[i] == rest[i - 1];
      if Lower(rest) == rest {
        forall i | 0 < i < |word| && IsLetter(word[i]) ensures IsLower(word[i]) {
          assert Lower(rest)[i - 1] == rest[i - 1];
        }
      }
    }
  }

  /** A condition's heading is one or two capitalized words. */
  lemma ConditionHeadingByText(line: string)
    ensures ConditionHeading(line) == Some(line)
            <==> |Words(line)| in {1, 2} && forall w :: w in Words(line) ==> Capitalized(w)
    ensures ConditionHeading(line) in {None, Some(line)}
  {
    hide Words, IsStrictTitleCase, Capitalized;
    forall w ensures IsStrictTitleCase(w) <==> Capitalized(w) {
      StrictTitleCaseIff(w);
    }
  }

  // ---------- a page, spelled out ----------

  const GLOSSARY_LINES :=
    ["Persistent Damage", "LIST OF CONDITIONS", "Persistent Damage", "you take damage", "443", "each turn."]

  lemma LowerCaseLine(line: string)
    requires line != "" && IsLower(line[0])
    ensures ConditionHeading(line) == None
  {
    WordsOccur(line);
    hide Words, ConditionHeading;
    ConditionHeadingByText(line);
    assert |Words(line)| > 0 ==> Words(line)[0] in Words(line);
    WordsBlank(line);
    assert !Blank(line);
  }

  lemma TwoWordHeading(a: string, b: string)
    requires IsWord(a) && IsWord(b) && Capitalized(a) && Capitalized(b)
    ensures ConditionHeading(a + [' '] + b) == Some(a + [' '] + b)
  {
    hide IsWord, Words, ConditionHeading, Capitalized;
    WordsConcat(a, ' ', b);
    WordsSingle(a);
    WordsSingle(b);
    ConditionHeadingByText(a + [' '] + b);
  }

  lemma TwoWords()
    ensures ConditionHeading("Persistent Damage") == Some("Persistent Damage")
  {
    hide Words, ConditionHeading;
    assert "Persistent"[1..] == "ersistent" && "Damage"[1..] == "amage";
    TwoWordHeading("Persistent", "Damage");
    assert "Persistent" + [' '] + "Damage" == "Persistent Damage";
  }

  lemma GlossaryLinesPlain()
    ensures forall l :: l in GLOSSARY_LINES ==> Plain(l)
    ensures |GLOSSARY_LINES| == 6 && GLOSSARY_LINES[5] != ""
  {
    assert Plain("Persistent Damage") && Plain("LIST OF CONDITIONS");
    assert Plain("you take damage") && Plain("443") && Plain("each turn.");
    hide Plain;
  }

  lemma GlossaryAnchors()
    ensures !IsAnchor("Persistent Damage") && IsAnchor("LIST OF CONDITIONS")
  {
    assert Lower("LIST OF CONDITIONS") == "list of conditions";
    hide IsAnchor;
    AnchorByText("Persistent Damage");
    AnchorByText("LIST OF CONDITIONS");
  }

  lemma GlossaryKept()
    ensures Filter(IsKept, ["Persistent Damage", "you take damage", "443", "each turn."])
            == ["Persistent Damage", "you take damage", "each turn."]
  {
    KeptLines();
    hide IsKept;
    assert ["you take damage", "443", "each turn."][1..] == ["443", "each turn."];
    assert Filter(IsKept, ["443", "each turn."]) == ["each turn."];
    assert Filter(IsKept, ["you take damage", "443", "each turn."]) == ["you take damage"] + ["each turn."];
  }

  lemma KeptLines()
    ensures IsKept("Persistent Damage") && IsKept("you take damage") && !IsKept("443") && IsKept("each turn.")
  {
    assert !IsDigit("Persistent Damage"[0]) && !IsDigit("you take damage"[0]) && !IsDigit("each turn."[0]);
  }

  lemma GlossaryAfter()
    ensures AfterAnchor(GLOSSARY_LINES) == ["Persistent Damage", "you take damage", "443", "each turn."]
  {
    GlossaryAnchors();
    hide IsAnchor, AfterAnchor;
    var later := ["Persistent Damage", "you take damage", "443", "each turn."];
    AfterStep("Persistent Damage", ["LIST OF CONDITIONS"] + later);
    AfterStep("LIST OF CONDITIONS", later);
    assert GLOSSARY_LINES == ["Persistent Damage"] + (["LIST OF CONDITIONS"] + later);
  }

  lemma EntriesFrom(text: string)
    ensures ConditionEntries(text)
            == Sections(ConditionHeading, Filter(IsKept, AfterAnchor(TrimmedLines(text)))).sections
  {
  }

  lemma GlossaryEntries(text: string)
    requires text == Join(GLOSSARY_LINES, "\n")
    ensures ConditionEntries(text)
            == [Section(["Persistent Damage"], "Persistent Damage", ["you take damage", "each turn."])]
    ensures !Occurs("---", text)
  {
    hide *;
    GlossaryLinesPlain();
    GlossaryAfter();
    GlossaryKept();
    TwoWords();
    NotHeadings();
    PlainPage(GLOSSARY_LINES);
    EntriesFrom(text);
    OneCondition("Persistent Damage", "you take damage", "each turn.");
  }

  lemma NotHeadings()
    ensures ConditionHeading("you take damage") == None && ConditionHeading("each turn.") == None
  {
    hide ConditionHeading;
    LowerCaseLine("you take damage");
    LowerCaseLine("each turn.");
  }

  lemma AfterStep(line: string, lines: seq<string>)
    ensures AfterAnchor([line] + lines) == if IsAnchor(line) then lines else AfterAnchor(lines)
  {
    assert ([line] + lines)[1..] == lines;
  }

  lemma OneCondition(head: string, first: string, second: string)
    requires ConditionHeading(head) == Some(head)
    requires ConditionHeading(first) == None && ConditionHeading(second) == None
    ensures Sections(ConditionHeading, [head, first, second]).sections == [Section([head], head, [first, second])]
  {
    hide ConditionHeading, Sections;
    SectionsStep(ConditionHeading, second, []);
    SectionsStep(ConditionHeading, first, [second]);
    SectionsStep(ConditionHeading, head, [first, second]);
    assert [second] + [] == [second] && [first] + [second] == [first, second];
    assert [head] + [first, second] == [head, first, second];
  }

  /** One glossary, from its lines to the candidate: nothing before the anchor
      is read, whatever its case, and no page number. */
  lemma GlossaryPage(text: string)
    requires text == Join(GLOSSARY_LINES, "\n")
    ensures var drafts := ParseCandidates(ConvertConditionPage(text));
      && |drafts| == 1 && drafts[0].ruleType == Condition && drafts[0].name == Some("Persistent Damage")
      && drafts[0].effect == Some("you take damage each turn.")
  {
    EffectJoined();
    hide *;
    GlossaryEntries(text);
    ConditionsPreserved(text);
    GlossaryMeaning(ConditionEntries(text)[0]);
  }

  lemma EffectJoined()
    ensures JoinSpace(["you take damage", "each turn."]) == "you take damage each turn."
  {
    assert "you take damage" + " " + "each turn." == "you take damage each turn.";
  }

  lemma GlossaryMeaning(e: RawConditionEntry)
    requires e.heading == "Persistent Damage" && e.body == ["you take damage", "each turn."]
    ensures var d := ConditionMeaning(e);
      && d.ruleType == Condition && d.name == Some("Persistent Damage") && d.effect == Some(JoinSpace(e.body))
  {
    hide JoinSpace, RenderedCondition, BracketedReferences;
  }
}
