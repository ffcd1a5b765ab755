/** What `convert_page` makes of a page, in terms of the page's own lines. */
module ActionTexts {
  import opened Sequences
  import opened Text
  import opened Domain
  import opened Parser
  import opened BookBlocks
  import opened BookActions

  // ---------- headings ----------

  /** The line is `before` and then one of the markers of this type. */
  predicate Announces(line: string, before: string, typeLabel: string)
  {
    || (typeLabel == "Action" && line == before + "[one-action]")
    || (typeLabel == "Action" && line == before + "[two-actions]")
    || (typeLabel == "Action" && line == before + "[three-actions]")
    || (typeLabel == "Free Action" && line == before + "[free-action]")
    || (typeLabel == "Reaction" && line == before + "[reaction]")
  }

  lemma StripSuffixIff(line: string, suffix: string, before: string)
    ensures StripSuffix(line, suffix) == Some(before) <==> line == before + suffix
  {
    if line == before + suffix {
      assert line[|line| - |suffix|..] == suffix && line[..|line| - |suffix|] == before;
    }
  }

  lemma HeadingUnderIff(line: string, m: (string, string), h: ActionHeading)
    ensures HeadingUnder(line, m) == Some(h) <==>
            exists before :: line == before + m.0 && IsShouty(Trim(before))
                             && h == ActionHeading(TitleCase(Trim(before)), m.1)
  {
    hide StripSuffix, Trim, TitleCase;
    forall before ensures StripSuffix(line, m.0) == Some(before) <==> line == before + m.0 {
      StripSuffixIff(line, m.0, before);
    }
  }

  /** A line is a heading exactly when it is a name in upper case and one of the
      five markers, each of which announces its own type. */
  lemma HeadingByText(line: string, h: ActionHeading)
    ensures HeadingOf(line) == Some(h) <==>
            exists before :: Announces(line, before, h.ruleTypeLabel) && IsShouty(Trim(before))
                             && h.name == TitleCase(Trim(before))
  {
    HeadingIff(line, h);
    hide HeadingOf, HeadingUnder, Trim, TitleCase, IsShouty;
    if HeadingOf(line) == Some(h) {
      var m :| m in ACTION_COST_MARKERS && HeadingUnder(line, m) == Some(h);
      HeadingUnderIff(line, m, h);
      var before :| line == before + m.0 && IsShouty(Trim(before))
                    && h == ActionHeading(TitleCase(Trim(before)), m.1);
      assert Announces(line, before, h.ruleTypeLabel);
    }
    if before :| Announces(line, before, h.ruleTypeLabel) && IsShouty(Trim(before)) && h.name == TitleCase(Trim(before))
    {
      var m := MarkerOf(line, before, h.ruleTypeLabel);
      HeadingUnderIff(line, m, h);
    }
  }

  lemma MarkerOf(line: string, before: string, typeLabel: string) returns (m: (string, string))
    requires Announces(line, before, typeLabel)
    ensures m in ACTION_COST_MARKERS && line == before + m.0 && m.1 == typeLabel
  {
    var marker :=
      if line == before + "[one-action]" then "[one-action]"
      else if line == before + "[two-actions]" then "[two-actions]"
      else if line == before + "[three-actions]" then "[three-actions]"
      else if line == before + "[free-action]" then "[free-action]"
      else "[reaction]";
    MarkersDiffer(before);
    m := (marker, typeLabel);
    assert m == ACTION_COST_MARKERS[0] || m == ACTION_COST_MARKERS[1] || m == ACTION_COST_MARKERS[2]
        || m == ACTION_COST_MARKERS[3] || m == ACTION_COST_MARKERS[4];
  }

  lemma MarkersDiffer(before: string)
    ensures |before + "[one-action]"| == |before| + 12 && |before + "[two-actions]"| == |before| + 13
    ensures |before + "[three-actions]"| == |before| + 15 && |before + "[free-action]"| == |before| + 13
    ensures |before + "[reaction]"| == |before| + 10 && before + "[two-actions]" != before + "[free-action]"
  {
    assert (before + "[two-actions]")[|before| + 1] == 't' && (before + "[free-action]")[|before| + 1] == 'f';
  }

  // ---------- entries ----------

  /** The entries hold every line of the page from the first heading on, once
      and in order; each opens with a heading and holds no other. */
  lemma EntriesByText(text: string) returns (preamble: seq<string>)
    ensures TrimmedLines(text) == preamble + Flatten(Map(SectionLines, Entries(text)))
    ensures forall l :: l in preamble ==> HeadingOf(l).None?
    ensures forall e :: e in Entries(text) ==>
              && |e.span| == 1 && HeadingOf(e.span[0]) == Some(e.heading)
              && forall l :: l in e.body ==> HeadingOf(l).None?
  {
    hide HeadingOf, TrimmedLines, Sections, SectionLines, Flatten, Map;
    var lines := TrimmedLines(text);
    SectionsPartition(HeadingOf, lines);
    SectionsAtHeadings(HeadingOf, lines);
    preamble := Sections(HeadingOf, lines).preamble;
  }

  // ---------- clauses ----------

  /** `sentence` is the text up to its first full stop before a space, and
      `rest` what follows; without one it is the whole text. */
  ghost predicate Sentences(text: string, sentence: string, rest: string)
  {
    || (&& sentence == Trim(text) && rest == "" && !Occurs(". ", text))
    || (exists i :: At(". ", text, i) && (forall j :: At(". ", text, j) ==> i <= j)
                    && sentence == Trim(text[..i + 1]) && rest == Trim(text[i + 1..]))
  }

  /** The paragraph opens with this word, a space and then this sentence. */
  ghost predicate Opens(paragraph: string, word: string, sentence: string, rest: string)
  {
    exists text :: paragraph == word + " " + text && Sentences(text, sentence, rest)
  }

  function NonBlank(rest: string): Option<string> { if rest == "" then None else Some(rest) }

  lemma SentenceIs(text: string, sentence: string, rest: string)
    requires Sentences(text, sentence, rest)
    ensures Sentence(text) == Clause(sentence, NonBlank(rest))
  {
    FindFirst(text, ". ");
    hide Trim, Find;
    assert Find(text, ". ").None? <==> !Occurs(". ", text);
  }

  lemma SentenceReads(text: string)
    ensures Sentences(text, Sentence(text).value, match Sentence(text).leftover case None => "" case Some(r) => r)
    ensures Sentence(text).leftover != Some("")
  {
    FindFirst(text, ". ");
    hide Trim, Find;
    assert Find(text, ". ").None? <==> !Occurs(". ", text);
  }

  lemma OpensIff(paragraph: string, word: string, sentence: string, leftover: Option<string>)
    ensures ExtractBookLabel(paragraph, word) == Some(Clause(sentence, leftover))
            <==> exists rest :: Opens(paragraph, word, sentence, rest) && leftover == NonBlank(rest)
  {
    hide Sentence, Sentences, ExtractBookLabel;
    if ExtractBookLabel(paragraph, word) == Some(Clause(sentence, leftover)) {
      var text := AfterWord(paragraph, word);
      SentenceReads(text);
      var rest := match leftover case None => "" case Some(r) => r;
      assert Opens(paragraph, word, sentence, rest);
    }
    if rest :| Opens(paragraph, word, sentence, rest) && leftover == NonBlank(rest) {
      var text :| paragraph == word + " " + text && Sentences(text, sentence, rest);
      SentenceIs(text, sentence, rest);
      assert paragraph == word + [' '] + text;
      ClauseIsSentence(paragraph, word, text);
    }
  }

  lemma AfterWord(paragraph: string, word: string) returns (text: string)
    requires ExtractBookLabel(paragraph, word).Some?
    ensures paragraph == word + " " + text && ExtractBookLabel(paragraph, word) == Some(Sentence(text))
  {
    text := paragraph[|word| + 1..];
    assert paragraph[|word|..][0] == " "[0];
    assert paragraph == word + [' '] + text;
    ClauseIsSentence(paragraph, word, text);
  }

  // ---------- the parts of an entry ----------

  /** The paragraph is a trait line: the first one, in upper case, of at most two words. */
  predicate IsTrait(first: bool, paragraph: string) { first && IsShouty(paragraph) && |Words(paragraph)| <= 2 }

  lemma ShoutyOpensNothing(paragraph: string)
    requires IsShouty(paragraph)
    ensures ExtractBookLabel(paragraph, "Requirements") == None && ExtractBookLabel(paragraph, "Trigger") == None
  {
    if |paragraph| > 1 && IsLetter(paragraph[1]) {
      assert IsUpper(paragraph[1]) && "Requirements"[1] == 'e' && "Trigger"[1] == 'r';
    }
  }

  lemma OneWordOnly(paragraph: string)
    ensures ExtractBookLabel(paragraph, "Requirements") == None || ExtractBookLabel(paragraph, "Trigger") == None
  {
    assert "Requirements"[0] != "Trigger"[0];
  }

  lemma PartIff(first: bool, paragraph: string)
    ensures var part := PartOf(first, paragraph);
      && (part.TraitPart? <==> IsTrait(first, paragraph))
      && (part.TraitPart? || part.EffectPart? ==> part.text == paragraph)
      && (forall word, v, l :: word in ["Requirements", "Trigger"] ==>
            (part == LabelPart(word, v, l) <==> ExtractBookLabel(paragraph, word) == Some(Clause(v, l))))
      && (part.LabelPart? ==> part.word in ["Requirements", "Trigger"])
  {
    OneWordOnly(paragraph);
    hide ExtractBookLabel, Words, IsShouty;
    if IsShouty(paragraph) {
      ShoutyOpensNothing(paragraph);
    }
  }

  /** The last paragraph that opens with `word` opens with this sentence. */
  ghost predicate LastOpening(paragraphs: seq<string>, word: string, i: int, sentence: string)
  {
    && 0 <= i < |paragraphs| && (exists rest :: Opens(paragraphs[i], word, sentence, rest))
    && forall j, v, rest :: i < j < |paragraphs| ==> !Opens(paragraphs[j], word, v, rest)
  }

  /** The sentence of the last paragraph that opens with `word`; none when no paragraph does. */
  ghost predicate ClauseBy(value: Option<string>, paragraphs: seq<string>, word: string)
  {
    forall v :: value == Some(v) <==> exists i :: LastOpening(paragraphs, word, i, v)
  }

  /** What a paragraph leaves for the effect: nothing when it is the trait line,
      what follows the sentence of a clause, and otherwise the whole of it. */
  ghost predicate LeavesFor(texts: seq<string>, first: bool, paragraph: string)
  {
    if IsTrait(first, paragraph) then texts == []
    else
      && (forall word, v, rest :: word in ["Requirements", "Trigger"] && Opens(paragraph, word, v, rest) ==>
            texts == if rest == "" then [] else [rest])
      && ((forall word, v, rest :: word in ["Requirements", "Trigger"] ==> !Opens(paragraph, word, v, rest)) ==>
            texts == [paragraph])
  }

  lemma PartLeaves(first: bool, paragraph: string)
    ensures LeavesFor(EffectTexts(PartOf(first, paragraph)), first, paragraph)
  {
    var part := PartOf(first, paragraph);
    PartIff(first, paragraph);
    hide Opens, PartOf, IsTrait, ExtractBookLabel;
    if part.LabelPart? {
      OpensIff(paragraph, part.word, part.value, part.leftover);
    }
    forall word, v, rest | word in ["Requirements", "Trigger"] && Opens(paragraph, word, v, rest)
      ensures part == LabelPart(word, v, NonBlank(rest))
    {
      OpensIff(paragraph, word, v, NonBlank(rest));
    }
  }

  lemma PartOpens(first: bool, paragraph: string, word: string)
    requires word in ["Requirements", "Trigger"]
    ensures var part := PartOf(first, paragraph);
      && (part.LabelPart? && part.word == word <==> exists v, rest :: Opens(paragraph, word, v, rest))
      && (part.LabelPart? && part.word == word ==> exists rest :: Opens(paragraph, word, part.value, rest))
      && (forall v, rest :: Opens(paragraph, word, v, rest) ==> part.LabelPart? && part.value == v)
  {
    var part := PartOf(first, paragraph);
    PartIff(first, paragraph);
    hide Opens, PartOf, IsTrait, ExtractBookLabel;
    forall v, rest | Opens(paragraph, word, v, rest) ensures part == LabelPart(word, v, NonBlank(rest)) {
      OpensIff(paragraph, word, v, NonBlank(rest));
    }
    if part.LabelPart? {
      OpensIff(paragraph, part.word, part.value, part.leftover);
    }
  }

  lemma PartsFront(paragraphs: seq<string>)
    requires paragraphs != []
    ensures var n := |paragraphs| - 1;
      Parts(paragraphs) == Parts(paragraphs[..n]) + [PartOf(n == 0, paragraphs[n])]
  {
    hide PartOf;
  }

  lemma {:induction false} ClausesByText(paragraphs: seq<string>, word: string)
    requires word in ["Requirements", "Trigger"]
    ensures ClauseBy(LastClause(Parts(paragraphs), word), paragraphs, word)
  {
    hide Opens, PartOf, Parts, LastClause;
    if paragraphs == [] {
      NoParts(word);
    } else {
      var n := |paragraphs| - 1;
      PartsFront(paragraphs);
      PartOpens(n == 0, paragraphs[n], word);
      ClausesByText(paragraphs[..n], word);
      LastClauseSnoc(Parts(paragraphs[..n]), PartOf(n == 0, paragraphs[n]), word);
      OpeningFront(paragraphs, word);
      var opens := exists v, rest :: Opens(paragraphs[n], word, v, rest);
      assert forall v :: !LastOpening(paragraphs[..n], word, n, v);
      hide LastOpening;
      if opens {
        assert LastOpening(paragraphs, word, n, PartOf(n == 0, paragraphs[n]).value);
      }
    }
  }

  lemma NoParts(word: string)
    ensures LastClause(Parts([]), word) == None
  {
  }

  lemma LastClauseSnoc(parts: seq<Part>, part: Part, word: string)
    ensures LastClause(parts + [part], word)
            == if part.LabelPart? && part.word == word then Some(part.value) else LastClause(parts, word)
  {
    assert (parts + [part])[..|parts|] == parts;
  }

  lemma OpeningFront(paragraphs: seq<string>, word: string)
    requires paragraphs != []
    ensures var n := |paragraphs| - 1;
            var opens := exists v, rest :: Opens(paragraphs[n], word, v, rest);
      && (forall v :: LastOpening(paragraphs, word, n, v) <==> exists rest :: Opens(paragraphs[n], word, v, rest))
      && (forall i, v :: i != n ==>
            (LastOpening(paragraphs, word, i, v) <==> !opens && LastOpening(paragraphs[..n], word, i, v)))
  {
    hide Opens;
    var n := |paragraphs| - 1;
    forall i, v | i != n && LastOpening(paragraphs, word, i, v) ensures LastOpening(paragraphs[..n], word, i, v) {
    }
    forall i, v | LastOpening(paragraphs[..n], word, i, v)
      ensures LastOpening(paragraphs, word, i, v) <==> !exists w, rest :: Opens(paragraphs[n], word, w, rest)
    {
    }
  }

  /** An entry's traits, clauses and effect, by its paragraphs' own text. */
  lemma EntryByText(entry: RawEntry)
    ensures var paragraphs, b := Paragraphs(entry.body), PrintedEntry(entry);
      && b.typeLine == entry.heading.ruleTypeLabel && b.name == entry.heading.name
      && b.traits == (if paragraphs != [] && IsTrait(true, paragraphs[0]) then Some(Lower(paragraphs[0])) else None)
      && ClauseBy(b.trigger, paragraphs, "Trigger") && ClauseBy(b.requirements, paragraphs, "Requirements")
      && exists texts: seq<seq<string>> ::
           && |texts| == |paragraphs|
           && (forall i :: 0 <= i < |texts| ==> LeavesFor(texts[i], i == 0, paragraphs[i]))
           && b.effect == if Flatten(texts) == [] then None else Some(Join(Flatten(texts), " "))
  {
    var paragraphs := Paragraphs(entry.body);
    PrintedIs(entry);
    FirstTrait(paragraphs);
    hide *;
    ClausesByText(paragraphs, "Trigger");
    ClausesByText(paragraphs, "Requirements");
    var texts := EffectByText(paragraphs);
  }

  lemma PrintedIs(entry: RawEntry)
    ensures var parts := Parts(Paragraphs(entry.body));
      PrintedEntry(entry)
      == Printed(entry.heading.ruleTypeLabel, entry.heading.name, TraitsOf(parts), LastClause(parts, "Trigger"),
                 LastClause(parts, "Requirements"), EffectOf(parts))
  {
    hide Paragraphs, Parts, TraitsOf, LastClause, EffectOf;
  }

  lemma FirstTrait(paragraphs: seq<string>)
    ensures TraitsOf(Parts(paragraphs))
            == if paragraphs != [] && IsTrait(true, paragraphs[0]) then Some(Lower(paragraphs[0])) else None
  {
    hide PartOf, IsTrait, Lower;
    if paragraphs != [] {
      PartIff(true, paragraphs[0]);
    }
  }

  lemma EffectByText(paragraphs: seq<string>) returns (texts: seq<seq<string>>)
    ensures |texts| == |paragraphs|
    ensures forall i :: 0 <= i < |texts| ==> LeavesFor(texts[i], i == 0, paragraphs[i])
    ensures EffectOf(Parts(paragraphs)) == if Flatten(texts) == [] then None else Some(Join(Flatten(texts), " "))
  {
    hide LeavesFor, EffectTexts, Flatten, PartOf, Join;
    texts := Map(EffectTexts, Parts(paragraphs));
    forall i | 0 <= i < |texts| ensures LeavesFor(texts[i], i == 0, paragraphs[i]) {
      PartLeaves(i == 0, paragraphs[i]);
    }
  }

  // ---------- the trait line ----------

  /** A paragraph that opens with neither clause word. */
  predicate Prose(paragraph: string) { !("Requirements " <= paragraph) && !("Trigger " <= paragraph) }

  lemma OpensStarts(paragraph: string, word: string, sentence: string, rest: string)
    ensures Opens(paragraph, word, sentence, rest) ==> word + " " <= paragraph
  {
    hide Sentences;
  }

  lemma ProseOpensNothing(paragraph: string, word: string, sentence: string, rest: string)
    requires Prose(paragraph) && word in ["Requirements", "Trigger"]
    ensures !Opens(paragraph, word, sentence, rest)
  {
    OpensStarts(paragraph, word, sentence, rest);
    assert "Requirements" + " " == "Requirements " && "Trigger" + " " == "Trigger ";
    hide Opens;
  }

  lemma {:induction false} FlattenSingles(texts: seq<seq<string>>, xs: seq<string>)
    requires |texts| == |xs| && forall i :: 0 <= i < |xs| ==> texts[i] == [xs[i]]
    ensures Flatten(texts) == xs
  {
    if xs != [] {
      FlattenSingles(texts[1..], xs[1..]);
    }
  }

  /** Lines under a heading, set off by a blank one, are the entry's trait line
      exactly when they are in upper case and of at most two words; and then
      prose after the blank line is the effect, and nothing else is. */
  lemma TraitParagraph(entry: RawEntry, group: seq<string>, rest: seq<string>)
    requires entry.body == group + [""] + rest && group != [] && "" !in group
    ensures var p, b := Join(group, " "), PrintedEntry(entry);
      && b.traits == (if IsShouty(p) && |Words(p)| <= 2 then Some(Lower(p)) else None)
      && (b.traits.Some? && (forall q :: q in Paragraphs(rest) ==> Prose(q)) ==>
            && b.effect == (if Paragraphs(rest) == [] then None else Some(Join(Paragraphs(rest), " ")))
            && b.trigger == None && b.requirements == None)
  {
    var p, later := Join(group, " "), Paragraphs(rest);
    var b := PrintedEntry(entry);
    FirstParagraph(group, rest);
    EntryByText(entry);
    TraitIs(p);
    hide *;
    if b.traits.Some? && forall q :: q in later ==> Prose(q) {
      ProseOnly(p, later, b.trigger, "Trigger");
      ProseOnly(p, later, b.requirements, "Requirements");
      var texts: seq<seq<string>> :| && |texts| == |[p] + later|
        && (forall i :: 0 <= i < |texts| ==> LeavesFor(texts[i], i == 0, ([p] + later)[i]))
        && b.effect == if Flatten(texts) == [] then None else Some(Join(Flatten(texts), " "));
      ProseIsEffect(p, later, texts);
    }
  }

  lemma TraitIs(p: string)
    ensures IsTrait(true, p) <==> IsShouty(p) && |Words(p)| <= 2
  {
  }

  lemma ProseIsEffect(p: string, later: seq<string>, texts: seq<seq<string>>)
    requires IsTrait(true, p) && (forall q :: q in later ==> Prose(q)) && |texts| == |[p] + later|
    requires forall i :: 0 <= i < |texts| ==> LeavesFor(texts[i], i == 0, ([p] + later)[i])
    ensures Flatten(texts) == later
  {
    hide LeavesFor, Prose, IsTrait;
    TraitLeavesNothing(texts[0], p);
    forall i | 0 <= i < |later| ensures texts[1..][i] == [later[i]] {
      assert ([p] + later)[i + 1] == later[i];
      ProseLeavesAll(texts[i + 1], later[i]);
    }
    FlattenSingles(texts[1..], later);
  }

  lemma TraitLeavesNothing(texts: seq<string>, paragraph: string)
    requires IsTrait(true, paragraph) && LeavesFor(texts, true, paragraph)
    ensures texts == []
  {
  }

  lemma ProseLeavesAll(texts: seq<string>, paragraph: string)
    requires Prose(paragraph) && LeavesFor(texts, false, paragraph)
    ensures texts == [paragraph]
  {
    hide Opens, Prose;
    forall word, v, rest | word in ["Requirements", "Trigger"] ensures !Opens(paragraph, word, v, rest) {
      ProseOpensNothing(paragraph, word, v, rest);
    }
  }

  lemma ProseOnly(p: string, later: seq<string>, value: Option<string>, word: string)
    requires IsTrait(true, p) && (forall q :: q in later ==> Prose(q)) && word in ["Requirements", "Trigger"]
    requires ClauseBy(value, [p] + later, word)
    ensures value == None
  {
    hide Opens, Prose, IsTrait;
    var paragraphs := [p] + later;
    TraitIsProse(p);
    forall i, v, rest | 0 <= i < |paragraphs| ensures !Opens(paragraphs[i], word, v, rest) {
      assert Prose(paragraphs[i]);
      ProseOpensNothing(paragraphs[i], word, v, rest);
    }
  }

  lemma TraitIsProse(p: string)
    requires IsTrait(true, p)
    ensures Prose(p)
  {
    assert "Requirements "[1] == 'e' && "Trigger "[1] == 'r';
    assert |p| > 1 && IsLetter(p[1]) ==> IsUpper(p[1]);
  }

  // ---------- a page ----------

  lemma {:induction false} NoHeadings(lines: seq<string>)
    requires forall l :: l in lines ==> HeadingOf(l).None?
    ensures Sections(HeadingOf, lines) == Sectioned(lines, [])
  {
    hide HeadingOf;
    if lines != [] {
      NoHeadings(lines[1..]);
      SectionsStep(HeadingOf, lines[0], lines[1..]);
      assert lines == [lines[0]] + lines[1..];
    }
  }

  /** A page of one heading and the lines under it is one entry. */
  lemma OneSection(text: string, head: string, body: seq<string>, h: ActionHeading)
    requires TrimmedLines(text) == [head] + body && HeadingOf(head) == Some(h)
    requires forall l :: l in body ==> HeadingOf(l).None?
    ensures Entries(text) == [Section([head], h, body)]
  {
    hide HeadingOf, TrimmedLines, Sections;
    NoHeadings(body);
    SectionsStep(HeadingOf, head, body);
  }

  // ---------- a page, spelled out ----------

  const STAND_LINES := ["STAND [one-action]", "MOVE", "", "You stand up from being prone."]

  lemma NoMarkerEnd(line: string)
    requires line == "" || line[|line| - 1] != ']'
    ensures HeadingOf(line) == None
  {
    hide HeadingOf, Trim, TitleCase, IsShouty;
    if HeadingOf(line).Some? {
      HeadingByText(line, HeadingOf(line).value);
      assert false;
    }
  }

  lemma StandName()
    ensures Trim("STAND ") == "STAND" && IsShouty("STAND") && TitleCase("STAND") == "Stand"
  {
    assert "" + "STAND" + " " == "STAND ";
    TrimPadded("", "STAND", " ");
    assert "STAND"[0] == 'S' && IsShouty("STAND");
    WordsSingle("STAND");
    hide Words, Trim, IsShouty;
    assert Capitalize("STAND") == "Stand";
    assert Map(Capitalize, ["STAND"]) == ["Stand"];
  }

  lemma StandHeading()
    ensures HeadingOf("STAND [one-action]") == Some(ActionHeading("Stand", "Action"))
  {
    assert "STAND [one-action]" == "STAND " + "[one-action]";
    StandName();
    hide *;
    HeadingByText("STAND [one-action]", ActionHeading("Stand", "Action"));
    StandAnnounces();
  }

  lemma StandAnnounces()
    ensures Announces("STAND [one-action]", "STAND ", "Action")
  {
    assert "STAND [one-action]" == "STAND " + "[one-action]";
  }

  lemma StandLinesPlain()
    ensures forall l :: l in STAND_LINES ==> Plain(l)
  {
    assert Plain("STAND [one-action]");
    assert Plain("MOVE") && Plain("");
    assert Plain("You stand up from being prone.");
    hide Plain;
  }

  lemma StandShape()
    ensures STAND_LINES == ["STAND [one-action]"] + STAND_LINES[1..] && STAND_LINES[|STAND_LINES| - 1] != ""
    ensures forall l :: l in STAND_LINES[1..] ==> HeadingOf(l) == None
  {
    hide HeadingOf;
    NoMarkerEnd("MOVE");
    NoMarkerEnd("");
    NoMarkerEnd("You stand up from being prone.");
  }

  lemma StandEntry(text: string)
    requires text == Join(STAND_LINES, "\n")
    ensures Entries(text) == [Section(["STAND [one-action]"], ActionHeading("Stand", "Action"), STAND_LINES[1..])]
    ensures !Occurs("---", text)
  {
    StandShape();
    StandLinesPlain();
    StandHeading();
    hide *;
    PlainPage(STAND_LINES);
    OneSection(text, "STAND [one-action]", STAND_LINES[1..], ActionHeading("Stand", "Action"));
  }

  lemma StandPrinted(e: RawEntry)
    requires e.body == ["MOVE", "", "You stand up from being prone."]
    ensures var b := PrintedEntry(e);
      && b.traits == Some("move") && b.trigger == None && b.requirements == None
      && b.effect == Some("You stand up from being prone.")
  {
    var rest := ["You stand up from being prone."];
    StandFacts();
    hide *;
    assert e.body == ["MOVE"] + [""] + rest;
    FirstParagraph(rest, []);
    JoinOne("MOVE", " ");
    JoinOne(rest[0], " ");
    TraitParagraph(e, ["MOVE"], rest);
  }

  lemma StandFacts()
    ensures IsShouty("MOVE") && |Words("MOVE")| <= 2 && Lower("MOVE") == "move"
    ensures Prose("You stand up from being prone.") && "You stand up from being prone." != ""
  {
    assert "MOVE"[0] == 'M';
    WordsSingle("MOVE");
    assert "You stand up from being prone."[0] == 'Y';
    hide Words;
  }

  /** One page, from its lines to the candidate: the line under the heading is
      the trait, and the paragraph after the blank line the effect. */
  lemma StandPage(text: string)
    requires text == Join(STAND_LINES, "\n")
    ensures var drafts := ParseCandidates(ConvertPage(text));
      && |drafts| == 1 && drafts[0].ruleType == Action && drafts[0].name == Some("Stand")
      && drafts[0].traits == ["move"] && drafts[0].effect == Some("You stand up from being prone.")
      && drafts[0].trigger == None && drafts[0].requirements == []
  {
    StandEntry(text);
    var e := Entries(text)[0];
    StandPrinted(e);
    MoveListed();
    hide Entries, PrintedEntry, ConvertPage, ParseCandidates, PrintBlock, BracketedReferences, SplitList, Join, Occurs;
    ActionsPreserved(text);
    assert Map(EntryMeaning, Entries(text))[0] == EntryMeaning(e);
  }

  lemma MoveListed()
    ensures SplitList("move") == ["move"]
  {
    OccursOne('\n', "move");
    hide SplitList, Occurs;
    OneItem("move");
  }
}
