/** Rendering an action entry neither loses nor invents a word, except where a
    later clause overwrites an earlier one with the same label. */
module BookWords {
  import opened Sequences
  import opened Text
  import opened BookBlocks
  import opened BookActions

  function WordsOf(texts: seq<string>): seq<string> { Flatten(Map(Words, texts)) }

  function WordBag(text: Option<string>): multiset<string>
  {
    match text case None => multiset{} case Some(t) => multiset(Words(t))
  }

  // ---------- from lines to parts ----------

  lemma {:induction false} WordsOfConcat(a: seq<string>, b: seq<string>)
    ensures WordsOf(a + b) == WordsOf(a) + WordsOf(b)
  {
    MapConcat(Words, a, b);
    FlattenConcat(Map(Words, a), Map(Words, b));
  }

  /** The words of the lines are the words of the paragraphs, in order. */
  lemma ParagraphsKeepWords(lines: seq<string>)
    ensures WordsOf(lines) == WordsOf(Paragraphs(lines))
  {
    JoinSplit(lines, [""]);
    hide Split, WordsOf;
    GroupsKeepWords(Split(lines, [""]));
  }

  lemma WordsOfOne(t: string)
    ensures WordsOf([t]) == Words(t) && WordsOf([]) == []
  {
    hide Words;
    assert Map(Words, [t]) == [Words(t)];
    assert Flatten([Words(t)]) == Words(t);
  }

  /** The paragraph made of one group. */
  function ParagraphOf(group: seq<string>): seq<string> { if group == [] then [] else [JoinSpace(group)] }

  lemma GroupKeepsWords(group: seq<string>)
    ensures WordsOf(group) == WordsOf(ParagraphOf(group)) == WordsOf(group + [""])
  {
    WordsJoin(group);
    WordsOfConcat(group, [""]);
    WordsOfOne("");
    assert Words("") == [];
    if group != [] {
      WordsOfOne(JoinSpace(group));
    }
  }

  lemma ParagraphsCons(group: seq<string>, groups: seq<seq<string>>)
    ensures Map(JoinSpace, Filter(HasLines, [group] + groups))
            == ParagraphOf(group) + Map(JoinSpace, Filter(HasLines, groups))
  {
    hide JoinSpace;
    FilterConcat(HasLines, [group], groups);
    MapConcat(JoinSpace, Filter(HasLines, [group]), Filter(HasLines, groups));
    assert group != [] ==> Map(JoinSpace, [group]) == [JoinSpace(group)];
  }

  lemma {:induction false} GroupsKeepWords(groups: seq<seq<string>>)
    ensures WordsOf(Join(groups, [""])) == WordsOf(Map(JoinSpace, Filter(HasLines, groups)))
  {
    hide WordsOf, JoinSpace, Filter, ParagraphOf;
    if groups != [] {
      var group := groups[0];
      var rest := Join(groups[1..], [""]);
      GroupsKeepWords(groups[1..]);
      GroupKeepsWords(group);
      assert groups == [group] + groups[1..];
      ParagraphsCons(group, groups[1..]);
      WordsOfConcat(ParagraphOf(group), Map(JoinSpace, Filter(HasLines, groups[1..])));
      WordsOfConcat(group + [""], rest);
      if |groups| == 1 {
        NoParagraphs();
        WordsOfOne("");
      }
    } else {
      NoParagraphs();
    }
  }

  lemma NoParagraphs()
    ensures WordsOf(Map(JoinSpace, Filter(HasLines, []))) == [] == WordsOf([])
  {
  }

  /** A part's words, each field's in turn. */
  function TraitWords(p: Part): seq<string> { if p.TraitPart? then Words(p.text) else [] }

  function LabelWords(p: Part): seq<string> { if p.LabelPart? then [p.word] else [] }

  function ClauseWords(p: Part): seq<string> { if p.LabelPart? then Words(p.value) else [] }

  function EffectWords(p: Part): seq<string> { WordsOf(EffectTexts(p)) }

  function PartWords(p: Part): seq<string> { TraitWords(p) + LabelWords(p) + ClauseWords(p) + EffectWords(p) }

  lemma PartWordsCases(p: Part)
    ensures p.TraitPart? || p.EffectPart? ==> PartWords(p) == Words(p.text)
    ensures p.LabelPart? ==>
      PartWords(p) == [p.word] + Words(p.value) + (if p.leftover.Some? then Words(p.leftover.value) else [])
  {
    hide Words, WordsOf;
    match p
    case TraitPart(text) => WordsOfOne(text);
    case LabelPart(_, _, leftover) => WordsOfOne(if leftover.Some? then leftover.value else "");
    case EffectPart(text) => WordsOfOne(text);
  }

  lemma PartKeepsWords(first: bool, paragraph: string)
    requires IsValue(paragraph)
    ensures PartWords(PartOf(first, paragraph)) == Words(paragraph)
  {
    ClauseOf(paragraph, "Requirements");
    ClauseOf(paragraph, "Trigger");
    PartWordsCases(PartOf(first, paragraph));
    hide Words, ExtractBookLabel, Occurs, IsValue, IsShouty, PartWords;
  }

  lemma PartsKeepWords(paragraphs: seq<string>)
    requires forall p :: p in paragraphs ==> IsValue(p)
    ensures Flatten(Map(PartWords, Parts(paragraphs))) == WordsOf(paragraphs)
  {
    hide PartOf, PartWords, Words, Flatten, IsValue;
    forall i | 0 <= i < |paragraphs| ensures PartWords(PartOf(i == 0, paragraphs[i])) == Words(paragraphs[i]) {
      PartKeepsWords(i == 0, paragraphs[i]);
    }
    assert Map(PartWords, Parts(paragraphs)) == Map(Words, paragraphs);
  }

  // ---------- bags of words ----------

  function Bag(f: Part -> seq<string>, parts: seq<Part>): multiset<string>
  {
    multiset(Flatten(Map(f, parts)))
  }

  lemma BagSnoc(f: Part -> seq<string>, parts: seq<Part>, p: Part)
    ensures Bag(f, parts + [p]) == Bag(f, parts) + multiset(f(p))
  {
    FlattenMapSnoc(f, parts, p);
  }

  predicate IsClause(p: Part, word: string) { p.LabelPart? && p.word == word }

  /** The words of the clauses with this label that a later one overwrote. */
  function Overwritten(parts: seq<Part>, word: string): multiset<string>
  {
    if parts == [] then multiset{}
    else
      var front := parts[..|parts| - 1];
      Overwritten(front, word)
      + if IsClause(parts[|parts| - 1], word) then WordBag(LastClause(front, word)) else multiset{}
  }

  function ClauseCount(parts: seq<Part>, word: string): nat
  {
    if parts == [] then 0
    else ClauseCount(parts[..|parts| - 1], word) + if IsClause(parts[|parts| - 1], word) then 1 else 0
  }

  predicate KnownClauses(parts: seq<Part>)
  {
    forall p :: p in parts && p.LabelPart? ==> p.word in {"Requirements", "Trigger"}
  }

  lemma {:induction false} ClausesAccounted(parts: seq<Part>)
    requires KnownClauses(parts)
    ensures Bag(ClauseWords, parts)
            == WordBag(LastClause(parts, "Requirements")) + Overwritten(parts, "Requirements")
               + WordBag(LastClause(parts, "Trigger")) + Overwritten(parts, "Trigger")
  {
    if parts != [] {
      var front, last := parts[..|parts| - 1], parts[|parts| - 1];
      assert parts == front + [last];
      ClausesAccounted(front);
      BagSnoc(ClauseWords, front, last);
      hide Words, Bag, Flatten, Map;
    } else {
      assert Map(ClauseWords, parts) == [];
    }
  }

  lemma {:induction false} PartsAccounted(parts: seq<Part>)
    ensures Bag(PartWords, parts)
            == Bag(TraitWords, parts) + Bag(LabelWords, parts) + Bag(ClauseWords, parts) + Bag(EffectWords, parts)
  {
    if parts != [] {
      var front, last := parts[..|parts| - 1], parts[|parts| - 1];
      assert parts == front + [last];
      PartsAccounted(front);
      BagSnoc(PartWords, front, last);
      BagSnoc(TraitWords, front, last);
      BagSnoc(LabelWords, front, last);
      BagSnoc(ClauseWords, front, last);
      BagSnoc(EffectWords, front, last);
      hide Bag, TraitWords, LabelWords, ClauseWords, EffectWords;
    }
  }

  /** Something is overwritten exactly when a label is used twice. */
  lemma {:induction false} OverwrittenIff(parts: seq<Part>, word: string)
    requires forall p :: p in parts && p.LabelPart? ==> Words(p.value) != []
    ensures Overwritten(parts, word) == multiset{} <==> ClauseCount(parts, word) <= 1
    ensures LastClause(parts, word).Some? <==> ClauseCount(parts, word) >= 1
    ensures LastClause(parts, word).Some? ==> Words(LastClause(parts, word).value) != []
  {
    if parts != [] {
      var front, last := parts[..|parts| - 1], parts[|parts| - 1];
      assert forall p :: p in front ==> p in parts;
      assert last in parts;
      OverwrittenIff(front, word);
      hide Words;
      if IsClause(last, word) && LastClause(front, word).Some? {
        var ws := Words(LastClause(front, word).value);
        assert ws[0] in multiset(ws);
      }
    }
  }

  /** The effect's words are the parts' effect words in source order. */
  lemma {:induction false} EffectInOrder(parts: seq<Part>)
    ensures WordsOf(Flatten(Map(EffectTexts, parts))) == Flatten(Map(EffectWords, parts))
  {
    if parts != [] {
      EffectInOrder(parts[1..]);
      assert parts == [parts[0]] + parts[1..];
      FlattenMapCons(EffectTexts, parts[0], parts[1..]);
      FlattenMapCons(EffectWords, parts[0], parts[1..]);
      WordsOfConcat(EffectTexts(parts[0]), Flatten(Map(EffectTexts, parts[1..])));
      hide WordsOf, EffectTexts;
    }
  }

  lemma {:induction false} OnlyFirstTraits(parts: seq<Part>)
    requires forall i :: 0 < i < |parts| ==> !parts[i].TraitPart?
    ensures Flatten(Map(TraitWords, parts)) == if parts != [] && parts[0].TraitPart? then Words(parts[0].text) else []
  {
    if parts != [] {
      var front, last := parts[..|parts| - 1], parts[|parts| - 1];
      OnlyFirstTraits(front);
      assert parts == front + [last];
      FlattenMapSnoc(TraitWords, front, last);
      hide Words, Map, Flatten;
    }
  }

  /** The words of an entry's body are exactly: its trait words (which the
      block holds lower-cased), one label word for each clause, the words of
      the requirements, trigger and effect it is printed with, and the words
      of overwritten clauses; and none is overwritten exactly when there is at
      most one clause of each kind.  Effect words keep their order. */
  lemma WordsConserved(text: string, entry: RawEntry)
    requires entry in Entries(text)
    ensures var b, parts := PrintedEntry(entry), EntryParts(entry);
      && multiset(WordsOf(entry.body))
         == Bag(TraitWords, parts) + Bag(LabelWords, parts)
            + WordBag(b.requirements) + WordBag(b.trigger) + WordBag(b.effect)
            + Overwritten(parts, "Requirements") + Overwritten(parts, "Trigger")
      && (Overwritten(parts, "Requirements") == multiset{} <==> ClauseCount(parts, "Requirements") <= 1)
      && (Overwritten(parts, "Trigger") == multiset{} <==> ClauseCount(parts, "Trigger") <= 1)
      && (b.traits.Some? ==> Words(b.traits.value) == Map(Lower, Flatten(Map(TraitWords, parts))))
      && (b.traits.None? ==> Bag(TraitWords, parts) == multiset{})
      && (b.effect.Some? ==> Words(b.effect.value) == Flatten(Map(EffectWords, parts)))
  {
    hide *;
    EntryLinesFacts(text, entry);
    WordsBalance(entry);
    WordsOverwritten(entry);
    WordsOfFields(entry);
  }

  lemma EntryLinesFacts(text: string, entry: RawEntry)
    requires entry in Entries(text)
    ensures forall l :: l in entry.body ==> Trimmed(l) && !Occurs("\n", l)
  {
    hide Entries, Trimmed, Occurs;
    EntriesFacts(text);
  }

  lemma WordsBalance(entry: RawEntry)
    requires forall l :: l in entry.body ==> Trimmed(l) && !Occurs("\n", l)
    ensures var b, parts := PrintedEntry(entry), EntryParts(entry);
      multiset(WordsOf(entry.body))
      == Bag(TraitWords, parts) + Bag(LabelWords, parts)
         + WordBag(b.requirements) + WordBag(b.trigger) + WordBag(b.effect)
         + Overwritten(parts, "Requirements") + Overwritten(parts, "Trigger")
  {
    var parts := EntryParts(entry);
    BodyWordsInParts(entry);
    PartsAccounted(parts);
    EntryPartsShape(entry);
    ClausesAccounted(parts);
    EffectBag(parts);
    hide EntryParts, Words, WordBag, Overwritten, LastClause, KnownClauses, Bag, TraitsOf, EffectOf;
  }

  lemma EffectBag(parts: seq<Part>)
    ensures WordBag(EffectOf(parts)) == Bag(EffectWords, parts)
    ensures EffectOf(parts).Some? ==> Words(EffectOf(parts).value) == Flatten(Map(EffectWords, parts))
  {
    var texts := Flatten(Map(EffectTexts, parts));
    EffectInOrder(parts);
    WordsJoin(texts);
    hide Words, EffectTexts, EffectWords, Flatten, Map;
    EffectOfTexts(parts);
    WordsOfOne("");
    hide EffectOf;
  }

  lemma WordsOverwritten(entry: RawEntry)
    requires forall l :: l in entry.body ==> Trimmed(l) && !Occurs("\n", l)
    ensures var parts := EntryParts(entry);
      && (Overwritten(parts, "Requirements") == multiset{} <==> ClauseCount(parts, "Requirements") <= 1)
      && (Overwritten(parts, "Trigger") == multiset{} <==> ClauseCount(parts, "Trigger") <= 1)
  {
    EntryPartsShape(entry);
    hide EntryParts, Words, Overwritten, ClauseCount, LastClause, KnownClauses, Trimmed, Occurs;
    OverwrittenIff(EntryParts(entry), "Requirements");
    OverwrittenIff(EntryParts(entry), "Trigger");
  }

  lemma WordsOfFields(entry: RawEntry)
    requires forall l :: l in entry.body ==> Trimmed(l) && !Occurs("\n", l)
    ensures var b, parts := PrintedEntry(entry), EntryParts(entry);
      && (b.traits.Some? ==> Words(b.traits.value) == Map(Lower, Flatten(Map(TraitWords, parts))))
      && (b.traits.None? ==> Bag(TraitWords, parts) == multiset{})
      && (b.effect.Some? ==> Words(b.effect.value) == Flatten(Map(EffectWords, parts)))
  {
    var parts := EntryParts(entry);
    EntryPartsShape(entry);
    OnlyFirstTraits(parts);
    EffectBag(parts);
    if parts != [] && parts[0].TraitPart? {
      WordsLower(parts[0].text);
    }
    hide EntryParts, Words, LastClause, Flatten, TraitWords, EffectWords, Map, Lower, KnownClauses, EffectOf,
         Trimmed, Occurs;
  }

  lemma BodyWordsInParts(entry: RawEntry)
    requires forall l :: l in entry.body ==> Trimmed(l) && !Occurs("\n", l)
    ensures multiset(WordsOf(entry.body)) == Bag(PartWords, EntryParts(entry))
  {
    hide *;
    ParagraphsAreValues(entry.body);
    ParagraphsKeepWords(entry.body);
    PartsKeepWords(Paragraphs(entry.body));
    EntryBag(entry);
  }

  lemma EntryBag(entry: RawEntry)
    ensures Bag(PartWords, EntryParts(entry)) == multiset(Flatten(Map(PartWords, Parts(Paragraphs(entry.body)))))
  {
  }

  lemma EntryPartsShape(entry: RawEntry)
    requires forall l :: l in entry.body ==> Trimmed(l) && !Occurs("\n", l)
    ensures var parts := EntryParts(entry);
      && KnownClauses(parts)
      && (forall i :: 0 < i < |parts| ==> !parts[i].TraitPart?)
      && (forall p :: p in parts && p.LabelPart? ==> Words(p.value) != [])
  {
    var parts, paragraphs := EntryParts(entry), Paragraphs(entry.body);
    ParagraphsAreValues(entry.body);
    hide Paragraphs, Words, ExtractBookLabel, IsShouty, Occurs, Trimmed, IsValue;
    forall p | p in parts && p.LabelPart? ensures Words(p.value) != [] {
      hide PartOf;
      assert p.value in PartTexts(p);
      var paragraph := PartOrigin(paragraphs, p, p.value);
      ValueHasWords(p.value);
    }
  }

  lemma ValueHasWords(s: string)
    requires IsValue(s)
    ensures Words(s) != []
  {
    WordsBlank(s);
  }
}
