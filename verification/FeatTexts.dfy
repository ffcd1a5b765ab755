/** What `convert_feat_page` makes of a page, in terms of the page's own lines. */
module FeatTexts {
  import opened Sequences
  import opened Text
  import opened Domain
  import opened Decimals
  import opened Parser
  import opened BookBlocks
  import opened BookFeats

  // ---------- level markers ----------

  /** A level marker is the word FEAT, a space and a number. */
  lemma MarkerByText(line: string)
    ensures IsFeatLevelMarker(line) <==> exists level :: line == "FEAT " + level && ReadDigits(level).Some?
  {
    hide ReadDigits;
    if "FEAT " <= line {
      var level := line[5..];
      assert line == "FEAT " + level;
      ReadDigitsIff(level);
      assert forall i :: 5 <= i < |line| ==> line[i] == level[i - 5];
    }
  }

  // ---------- the bound ----------

  lemma NamesGrow(lines: seq<string>, i: nat, j: nat)
    requires i <= j <= |lines|
    ensures |NameLines(lines[..i])| <= |NameLines(lines[..j])|
  {
    hide IsNameLine;
    assert lines[..j] == lines[..i] + lines[i..j];
    FilterConcat(IsNameLine, lines[..i], lines[i..j]);
  }

  /** Lines that can stand in a heading, opened by a name, are a heading exactly
      when at most eight names stand before the first level marker. */
  lemma MarkerBound(lines: seq<string>, m: nat)
    requires m < |lines| && IsNameLine(lines[0]) && IsFeatLevelMarker(lines[m])
    requires forall i :: 0 <= i < m ==> IsRunLine(lines[i]) && !IsFeatLevelMarker(lines[i])
    ensures AtHeading(lines) <==> |NameLines(lines[..m])| <= 8
  {
    HeadingIff(lines);
    var n := RunLength(lines, 0);
    hide IsNameLine, IsFeatLevelMarker, RunLength, ReadHeading, NameLines, IsShouty;
    if n <= m {
      NamesGrow(lines, n, m);
      assert n < |lines| && IsRunLine(lines[n]);
    } else {
      assert lines[..n][m] == lines[m];
    }
  }

  /** Line `m` is the first level marker, after lines in upper case and blank ones only. */
  predicate FirstMarker(lines: seq<string>, m: int)
  {
    && 0 <= m < |lines| && IsFeatLevelMarker(lines[m])
    && forall i :: 0 <= i < m ==> !IsFeatLevelMarker(lines[i]) && (lines[i] == "" || IsShouty(lines[i]))
  }

  /** Exactly where a feat starts: at a line in upper case, itself no level marker,
      that is followed by lines in upper case and blank ones up to a level
      marker, with at most eight names before it. */
  lemma HeadingByText(lines: seq<string>)
    ensures AtHeading(lines)
            <==> exists m :: FirstMarker(lines, m) && m > 0 && IsShouty(lines[0]) && |NameLines(lines[..m])| <= 8
  {
    hide IsFeatLevelMarker, RunLength, ReadHeading, NameLines, IsShouty;
    if AtHeading(lines) {
      var m := MarkerOf(lines);
    }
    if m :| FirstMarker(lines, m) && m > 0 && IsShouty(lines[0]) && |NameLines(lines[..m])| <= 8 {
      NotBlank(lines[0]);
      MarkerBound(lines, m);
    }
  }

  lemma NotBlank(line: string)
    requires IsShouty(line)
    ensures line != ""
  {
  }

  lemma {:induction false} FirstBefore(lines: seq<string>, n: nat) returns (m: nat)
    requires n <= |lines| && HasMarker(lines[..n])
    ensures m < n && IsFeatLevelMarker(lines[m]) && forall i :: 0 <= i < m ==> !IsFeatLevelMarker(lines[i])
  {
    hide IsFeatLevelMarker;
    if IsFeatLevelMarker(lines[n - 1]) && !HasMarker(lines[..n - 1]) {
      m := n - 1;
      assert forall i :: 0 <= i < m ==> lines[i] == lines[..n - 1][i];
    } else {
      m := FirstBefore(lines, n - 1);
    }
  }

  lemma MarkerOf(lines: seq<string>) returns (m: nat)
    requires AtHeading(lines)
    ensures FirstMarker(lines, m) && m > 0 && IsShouty(lines[0]) && |NameLines(lines[..m])| <= 8
  {
    HeadingIff(lines);
    hide IsFeatLevelMarker, RunLength, ReadHeading, NameLines, IsShouty, HasMarker;
    m := FirstBefore(lines, RunLength(lines, 0));
    assert forall i :: 0 <= i < m ==> IsRunLine(lines[i]);
  }

  // ---------- a page, spelled out ----------

  const LORE_PROSE := "Your knowledge has expanded."

  const LORE_LINES := [
    "ADDITIONAL LORE", "GENERAL", "", "FEAT 1", "", "SKILL", "", "FEAT 1", "", "GENERAL", "", LORE_PROSE]

  lemma NamesGap(line: string, lines: seq<string>)
    requires line in ["", "FEAT 1"]
    ensures IsRunLine(line) && NameLines([line] + lines) == NameLines(lines)
  {
    assert "FEAT 1"[..5] == "FEAT " && "FEAT 1"[5] == '1';
    hide IsShouty;
    NamesCons(line, lines);
  }

  lemma NamesName(line: string, lines: seq<string>)
    requires line in ["ADDITIONAL LORE", "GENERAL", "SKILL"]
    ensures IsNameLine(line) && IsRunLine(line) && NameLines([line] + lines) == [line] + NameLines(lines)
  {
    LoreShouty();
    hide IsShouty, IsFeatLevelMarker;
    NamesCons(line, lines);
  }

  lemma LoreShouty()
    ensures forall l :: l in ["ADDITIONAL LORE", "GENERAL", "SKILL"] ==> IsShouty(l) && !IsFeatLevelMarker(l) && l != ""
  {
    assert "ADDITIONAL LORE"[0] == 'A' && IsShouty("ADDITIONAL LORE");
    assert "GENERAL"[0] == 'G' && IsShouty("GENERAL");
    assert "SKILL"[0] == 'S' && IsShouty("SKILL");
    hide IsShouty;
  }

  lemma LoreProse()
    ensures !IsNameLine(LORE_PROSE) && !IsRunLine(LORE_PROSE)
  {
    assert LORE_PROSE[0] == 'Y' && LORE_PROSE[1] == 'o' && IsLetter(LORE_PROSE[1]) && !IsUpper(LORE_PROSE[1]);
  }

  lemma NamesConcat(a: seq<string>, b: seq<string>)
    ensures NameLines(a + b) == NameLines(a) + NameLines(b)
  {
    FilterConcat(IsNameLine, a, b);
  }

  lemma LoreGap()
    ensures NameLines(["", "FEAT 1", ""]) == [] && NameLines([""]) == []
  {
    hide IsNameLine, IsRunLine, NameLines;
    NoNames();
    NamesGap("", []);
    NamesGap("FEAT 1", [""]);
    NamesGap("", ["FEAT 1", ""]);
    assert [""] + [] == [""] && ["FEAT 1"] + [""] == ["FEAT 1", ""] && [""] + ["FEAT 1", ""] == ["", "FEAT 1", ""];
  }

  lemma LoreNames()
    ensures NameLines(LORE_LINES[..11]) == ["ADDITIONAL LORE", "GENERAL", "SKILL", "GENERAL"]
  {
    hide IsNameLine, IsRunLine, NameLines;
    var gap := ["", "FEAT 1", ""];
    LoreGap();
    var t3 := ["GENERAL"] + [""];
    NamesName("GENERAL", [""]);
    NamesConcat(gap, t3);
    var t2 := ["SKILL"] + (gap + t3);
    NamesName("SKILL", gap + t3);
    NamesConcat(gap, t2);
    var t1 := ["GENERAL"] + (gap + t2);
    NamesName("GENERAL", gap + t2);
    NamesName("ADDITIONAL LORE", t1);
    assert LORE_LINES[..11] == ["ADDITIONAL LORE"] + t1;
  }

  lemma LoreRunLines()
    ensures forall i :: 0 <= i < 11 ==> IsRunLine(LORE_LINES[i])
  {
    hide IsNameLine, IsRunLine, NameLines;
    NamesGap("", []);
    NamesGap("FEAT 1", []);
    NamesName("ADDITIONAL LORE", []);
    NamesName("GENERAL", []);
    NamesName("SKILL", []);
  }

  lemma LoreRun()
    ensures RunLength(LORE_LINES, 0) == 11 && LORE_LINES[11..] == [LORE_PROSE]
    ensures IsNameLine(LORE_LINES[0]) && HasMarker(LORE_LINES[..11])
  {
    hide IsNameLine, IsRunLine, NameLines, RunLength, IsFeatLevelMarker;
    LoreNames();
    LoreRunLines();
    LoreProse();
    NamesName("ADDITIONAL LORE", []);
    forall i | 0 <= i < 11 ensures |NameLines(LORE_LINES[..i])| <= 8 {
      NamesGrow(LORE_LINES, i, 11);
    }
    RunLengthIff(LORE_LINES, 11, 0);
    LevelOne();
    assert LORE_LINES[..11][3] == "FEAT 1";
  }

  lemma LevelOne()
    ensures IsFeatLevelMarker("FEAT 1")
  {
    assert "FEAT 1"[..5] == "FEAT " && "FEAT 1"[5] == '1';
  }

  lemma LoreWords()
    ensures Words("ADDITIONAL LORE") == ["ADDITIONAL", "LORE"]
  {
    assert "ADDITIONAL LORE" == "ADDITIONAL" + [' '] + "LORE";
    assert IsWord("ADDITIONAL") && IsWord("LORE");
    hide IsWord, Words;
    WordsConcat("ADDITIONAL", ' ', "LORE");
    WordsSingle("ADDITIONAL");
    WordsSingle("LORE");
  }

  lemma LoreCapitals()
    ensures Capitalize("ADDITIONAL") == "Additional" && Capitalize("LORE") == "Lore"
  {
    assert "ADDITIONAL"[1..] == "DDITIONAL" && Lower("DDITIONAL") == "dditional";
  }

  lemma LoreTitle()
    ensures TitleCase("ADDITIONAL LORE") == "Additional Lore"
  {
    LoreWords();
    LoreCapitals();
    hide Words, Capitalize;
    var capitals := Map(Capitalize, ["ADDITIONAL", "LORE"]);
    assert capitals == ["Additional", "Lore"];
    assert Join(["Lore"], " ") == "Lore" && capitals[1..] == ["Lore"];
    assert "Additional" + " " + "Lore" == "Additional Lore";
  }

  lemma DistinctSnoc(xs: seq<string>, x: string)
    ensures Distinct(xs + [x]) == if x in Distinct(xs) then Distinct(xs) else Distinct(xs) + [x]
  {
    assert (xs + [x])[..|xs|] == xs;
  }

  lemma LoreLower()
    ensures Map(Lower, ["GENERAL", "SKILL", "GENERAL"]) == ["general", "skill", "general"] && "general" != "skill"
  {
    assert Lower("GENERAL") == "general" && Lower("SKILL") == "skill";
    hide Lower;
  }

  lemma DistinctThree(a: string, b: string)
    requires a != b
    ensures Distinct([a, b, a]) == [a, b]
  {
    assert Distinct([]) == [];
    hide Distinct;
    DistinctSnoc([], a);
    DistinctSnoc([a], b);
    DistinctSnoc([a, b], a);
    assert [] + [a] == [a] && [a] + [b] == [a, b] && [a, b] + [a] == [a, b, a];
  }

  lemma LoreTraits()
    ensures Distinct(Map(Lower, ["GENERAL", "SKILL", "GENERAL"])) == ["general", "skill"]
  {
    LoreLower();
    DistinctThree("general", "skill");
    hide *;
  }

  lemma LoreHeading()
    ensures AtHeading(LORE_LINES)
    ensures ReadHeading(LORE_LINES) == Some(FeatHeading("Additional Lore", ["general", "skill"]))
  {
    hide IsNameLine, NameLines, RunLength, HasMarker, TitleCase, Distinct, Map;
    LoreRun();
    LoreNames();
    LoreTitle();
    LoreTraits();
    var names := ["ADDITIONAL LORE", "GENERAL", "SKILL", "GENERAL"];
    assert names[1..] == ["GENERAL", "SKILL", "GENERAL"];
  }

  lemma LoreLinesPlain()
    ensures forall l :: l in LORE_LINES ==> Plain(l)
    ensures LORE_LINES[|LORE_LINES| - 1] != ""
  {
    assert Plain("ADDITIONAL LORE") && Plain("GENERAL") && Plain("");
    assert Plain("FEAT 1") && Plain("SKILL");
    assert Plain(LORE_PROSE);
    hide Plain;
  }

  lemma LoreEntries(text: string)
    requires text == Join(LORE_LINES, "\n")
    ensures FeatEntries(text)
            == [Section(LORE_LINES[..11], FeatHeading("Additional Lore", ["general", "skill"]), [LORE_PROSE])]
    ensures !Occurs("---", text)
  {
    LoreLinesPlain();
    LoreRun();
    LoreHeading();
    LoreProse();
    hide RunLength, IsNameLine, ReadHeading, TrimmedLines, Plain, Occurs, Join, HasMarker, NameLines, LORE_LINES,
         LORE_PROSE;
    PlainPage(LORE_LINES);
    assert !AtHeading([LORE_PROSE]);
    OneBodyLine(LORE_PROSE);
  }

  lemma LoreMeaning(e: RawFeatEntry)
    requires e.heading == FeatHeading("Additional Lore", ["general", "skill"]) && e.body == [LORE_PROSE]
    ensures var d := FeatMeaning(e);
      && d.ruleType == Feat && d.name == Some("Additional Lore") && d.traits == ["general", "skill"]
      && d.effect == Some("Your knowledge has expanded.")
    ensures NoCommas(e.heading.traits)
  {
    hide RenderedFeat, BracketedReferences;
  }

  /** The documented page, from its lines to the candidate: the first line is the
      name, and every other distinct line of the run a trait. */
  lemma LorePage(text: string)
    requires text == Join(LORE_LINES, "\n")
    ensures var drafts := ParseCandidates(ConvertFeatPage(text));
      && |drafts| == 1 && drafts[0].ruleType == Feat && drafts[0].name == Some("Additional Lore")
      && drafts[0].traits == ["general", "skill"] && drafts[0].effect == Some("Your knowledge has expanded.")
  {
    hide *;
    LoreEntries(text);
    LoreMeaning(FeatEntries(text)[0]);
    FeatsPreserved(text);
  }
}
