/** What the parser promises: blocks are read independently, nothing of the
    source text is lost between them, each field is the last line that sets
    it, and confidence takes one of five values. */
module ParserLaws {
  import opened Sequences
  import opened Text
  import opened Domain
  import opened Parser

  // ---------- blocks ----------

  /** Parsing two texts set apart by a separator line is parsing each of them. */
  lemma ParseCandidatesConcat(a: string, b: string)
    ensures Blocks(a + "\n---\n" + b) == Blocks(a) + Blocks(b)
    ensures ParseCandidates(a + "\n---\n" + b) == ParseCandidates(a) + ParseCandidates(b)
  {
    hide Split, Trim, Filter, ReadBlock;
    var x, y := a + "\n", "\n" + b;
    assert a + "\n---\n" + b == x + BLOCK_SEPARATOR + y;
    SplitConcat(x, BLOCK_SEPARATOR, y);
    NewlineAfter(a);
    NewlineBefore(b);
    MapConcat(Trim, Split(x, BLOCK_SEPARATOR), Split(y, BLOCK_SEPARATOR));
    FilterConcat(NonEmpty, Map(Trim, Split(x, BLOCK_SEPARATOR)), Map(Trim, Split(y, BLOCK_SEPARATOR)));
    MapConcat(ReadBlock, Blocks(a), Blocks(b));
  }

  lemma NewlineAfter(a: string)
    ensures Map(Trim, Split(a + "\n", BLOCK_SEPARATOR)) == Map(Trim, Split(a, BLOCK_SEPARATOR))
  {
    hide Split, Trim;
    SplitExtendLast(a, '\n', BLOCK_SEPARATOR);
    var parts := Split(a, BLOCK_SEPARATOR);
    var last := parts[|parts| - 1];
    TrimBetween("", last, "\n");
    assert "" + last + "\n" == last + ['\n'] && a + "\n" == a + ['\n'];
  }

  lemma NewlineBefore(b: string)
    ensures Map(Trim, Split("\n" + b, BLOCK_SEPARATOR)) == Map(Trim, Split(b, BLOCK_SEPARATOR))
  {
    assert BLOCK_SEPARATOR[0] != '\n';
    SplitStep('\n', b, BLOCK_SEPARATOR);
    hide Split, Trim;
    var parts := Split(b, BLOCK_SEPARATOR);
    TrimBetween("\n", parts[0], "");
    assert ['\n'] + parts[0] == "\n" + parts[0] + "";
    assert ['\n'] + b == "\n" + b;
  }

  lemma TrimBetween(lead: string, s: string, trail: string)
    requires Blank(lead) && Blank(trail)
    ensures Trim(lead + s + trail) == Trim(s)
  {
    var before, after := TrimParts(s);
    assert lead + s + trail == (lead + before) + Trim(s) + (after + trail);
    TrimPadded(lead + before, Trim(s), after + trail);
  }

  /** Blocks are trimmed, non-empty and free of separators. */
  lemma BlocksFacts(text: string)
    ensures forall block :: block in Blocks(text) ==> block != "" && Trimmed(block) && !Occurs(BLOCK_SEPARATOR, block)
  {
    SplitPartsFree(text, BLOCK_SEPARATOR);
    forall block | block in Blocks(text)
      ensures block != "" && Trimmed(block) && !Occurs(BLOCK_SEPARATOR, block)
    {
      var part :| part in Split(text, BLOCK_SEPARATOR) && block == Trim(part);
      TrimFacts(part);
      if Occurs(BLOCK_SEPARATOR, block) {
        OccursTrans(BLOCK_SEPARATOR, block, part);
      }
    }
  }

  /** `gaps` and `blocks` alternating, a gap first and last. */
  function Interleave(gaps: seq<string>, blocks: seq<string>): string
    requires |gaps| == |blocks| + 1
  {
    if blocks == [] then gaps[0] else gaps[0] + blocks[0] + Interleave(gaps[1..], blocks[1..])
  }

  /** Whitespace and separators only. */
  predicate IsGap(s: string)
  {
    forall part :: part in Split(s, BLOCK_SEPARATOR) ==> Blank(part)
  }

  /** `text` is the blocks in order, with gaps around them and a separator in every gap between two. */
  ghost predicate Covers(gaps: seq<string>, blocks: seq<string>, text: string)
  {
    && |gaps| == |blocks| + 1
    && text == Interleave(gaps, blocks)
    && (forall g :: g in gaps ==> IsGap(g))
    && (forall i :: 0 < i < |blocks| ==> Occurs(BLOCK_SEPARATOR, gaps[i]))
  }

  /** The source texts of the candidates are disjoint slices of the text, in
      order, with nothing but whitespace and separators around them. */
  lemma SourceTextsCover(text: string) returns (gaps: seq<string>)
    ensures Covers(gaps, Map((d: Draft) => d.sourceText, ParseCandidates(text)), text)
  {
    JoinSplit(text, BLOCK_SEPARATOR);
    gaps := PiecesCover(Split(text, BLOCK_SEPARATOR));
    hide Blocks;
    assert Map((d: Draft) => d.sourceText, ParseCandidates(text)) == Blocks(text);
  }

  function Cores(parts: seq<string>): seq<string>
  {
    Filter(NonEmpty, Map(Trim, parts))
  }

  lemma CoresCons(part: string, parts: seq<string>)
    ensures Cores([part] + parts) == (if Trim(part) == "" then [] else [Trim(part)]) + Cores(parts)
  {
    hide Trim;
    MapConcat(Trim, [part], parts);
    FilterConcat(NonEmpty, Map(Trim, [part]), Map(Trim, parts));
    assert Map(Trim, [part]) == [Trim(part)];
  }

  lemma GapCons(lead: string, gap: string)
    requires Blank(lead) && IsGap(gap)
    ensures IsGap(lead + BLOCK_SEPARATOR + gap) && Occurs(BLOCK_SEPARATOR, lead + BLOCK_SEPARATOR + gap)
  {
    SplitConcat(lead, BLOCK_SEPARATOR, gap);
    BlankIsGap(lead);
    var s := lead + BLOCK_SEPARATOR + gap;
    assert s[|lead|..|lead| + 3] == BLOCK_SEPARATOR;
    assert At(BLOCK_SEPARATOR, s, |lead|);
  }

  lemma BlankIsGap(s: string)
    requires Blank(s)
    ensures IsGap(s)
  {
    OccursHead(BLOCK_SEPARATOR, s);
    SplitWhole(s, BLOCK_SEPARATOR);
  }

  lemma {:induction false} PiecesCover(parts: seq<string>) returns (gaps: seq<string>)
    requires parts != []
    ensures Covers(gaps, Cores(parts), Join(parts, BLOCK_SEPARATOR))
  {
    var lead, trail := TrimParts(parts[0]);
    var core := Trim(parts[0]);
    CoresCons(parts[0], parts[1..]);
    assert parts == [parts[0]] + parts[1..];
    BlankIsGap(lead + trail);
    if |parts| == 1 {
      BlankIsGap(lead);
      BlankIsGap(trail);
      assert Cores(parts[1..]) == [];
      if core == "" {
        gaps := [lead + trail];
        assert Cores(parts) == [];
      } else {
        gaps := [lead] + [trail];
        assert Cores(parts) == [core] + [];
        InterleaveCons(lead, core, [trail], []);
      }
    } else {
      hide Trim, Cores;
      gaps := PiecesCover(parts[1..]);
      var cores, text := Cores(parts[1..]), Join(parts[1..], BLOCK_SEPARATOR);
      if core == "" {
        assert Cores(parts) == cores && parts[0] == lead + trail;
        gaps := CoverBlank(lead + trail, gaps, cores, text);
      } else {
        gaps := CoverCore(lead, core, trail, gaps, cores, text);
      }
    }
  }

  lemma CoverBlank(lead: string, gaps: seq<string>, cores: seq<string>, text: string) returns (wider: seq<string>)
    requires Blank(lead) && Covers(gaps, cores, text)
    ensures Covers(wider, cores, lead + BLOCK_SEPARATOR + text) && Occurs(BLOCK_SEPARATOR, wider[0])
  {
    hide IsGap, Interleave, Occurs, Blank;
    GapCons(lead, gaps[0]);
    InterleaveHead(lead + BLOCK_SEPARATOR, gaps, cores);
    wider := [lead + BLOCK_SEPARATOR + gaps[0]] + gaps[1..];
  }

  lemma CoverCore(lead: string, core: string, trail: string, gaps: seq<string>, cores: seq<string>, text: string)
    returns (wider: seq<string>)
    requires Blank(lead) && Blank(trail) && Covers(gaps, cores, text)
    ensures Covers(wider, [core] + cores, lead + core + trail + BLOCK_SEPARATOR + text)
  {
    hide IsGap, Interleave, Occurs, Blank;
    BlankIsGap(lead);
    var later := CoverBlank(trail, gaps, cores, text);
    InterleaveCons(lead, core, later, cores);
    wider := [lead] + later;
    assert lead + core + (trail + BLOCK_SEPARATOR + text) == lead + core + trail + BLOCK_SEPARATOR + text;
  }

  lemma InterleaveCons(lead: string, core: string, gaps: seq<string>, blocks: seq<string>)
    requires |gaps| == |blocks| + 1
    ensures Interleave([lead] + gaps, [core] + blocks) == lead + core + Interleave(gaps, blocks)
  {
    assert ([lead] + gaps)[1..] == gaps && ([core] + blocks)[1..] == blocks;
  }

  lemma InterleaveHead(x: string, gaps: seq<string>, blocks: seq<string>)
    requires |gaps| == |blocks| + 1
    ensures Interleave([x + gaps[0]] + gaps[1..], blocks) == x + Interleave(gaps, blocks)
  {
    assert ([x + gaps[0]] + gaps[1..])[1..] == gaps[1..];
    if blocks != [] {
      assert x + gaps[0] + blocks[0] + Interleave(gaps[1..], blocks[1..])
          == x + (gaps[0] + blocks[0] + Interleave(gaps[1..], blocks[1..]));
    }
  }

  // ---------- fields and confidence ----------

  /** Position `i` holds the last reading with this label. */
  ghost predicate IsLast(readings: seq<Reading>, tag: Label, i: int)
  {
    0 <= i < |readings| && readings[i].Labelled? && readings[i].tag == tag
    && forall j :: i < j < |readings| ==> !(readings[j].Labelled? && readings[j].tag == tag)
  }

  /** A field's value is the value of the last line with its label. */
  lemma {:induction false} LastValueIsLast(readings: seq<Reading>, tag: Label)
    ensures forall v :: LastValue(readings, tag) == Some(v)
                        <==> exists i :: IsLast(readings, tag, i) && readings[i].value == v
  {
    if readings != [] {
      var front := readings[..|readings| - 1];
      LastValueIsLast(front, tag);
      var last := readings[|readings| - 1];
      if last.Labelled? && last.tag == tag {
        assert IsLast(readings, tag, |readings| - 1);
      } else {
        forall i ensures IsLast(readings, tag, i) <==> IsLast(front, tag, i) {
        }
      }
    }
  }

  /** Confidence takes five values: which one is fixed by whether a type is
      stated, whether a line is left over, and whether anything was read at
      all; so it always lies in the range the table checks. */
  lemma ConfidenceValues(block: string)
    ensures var lines := ContentLines(block);
            var typed, leftovers := StatedType(lines).Some?, LeftoverCount(Readings(lines)) > 0;
            var d := ReadBlock(block);
      && (d.confidence == 0.2 <==> SaysNothing(d))
      && (d.confidence == 0.9 <==> !SaysNothing(d) && typed && !leftovers)
      && (d.confidence == 0.75 <==> !SaysNothing(d) && typed && leftovers)
      && (d.confidence == 0.7 <==> !SaysNothing(d) && !typed && !leftovers)
      && (d.confidence == 0.55 <==> !SaysNothing(d) && !typed && leftovers)
      && d.confidence in {0.9, 0.75, 0.7, 0.55, 0.2}
      && (d.inferences == [] <==> SaysNothing(d) || !leftovers)
  {
    hide ContentLines, LastValue, ListedReferences, LeftoverCount, SplitList, BracketedReferences, UntaggedNote;
  }

  ghost function LeftoverAt(r: seq<Reading>): set<int> { set i | 0 <= i < |r| && r[i].Leftover? }

  lemma NoteCounts(block: string)
    ensures ReadBlock(block).inferences == []
            || ReadBlock(block).inferences == [UntaggedNote(LeftoverCount(Readings(ContentLines(block))))]
  {
    hide ContentLines, LastValue, ListedReferences, LeftoverCount, SplitList, BracketedReferences, UntaggedNote;
  }

  lemma {:induction false} CountLeftovers(r: seq<Reading>)
    ensures |LeftoverAt(r)| == LeftoverCount(r)
  {
    if r != [] {
      var front, last := r[..|r| - 1], r[|r| - 1];
      assert r == front + [last];
      hide LeftoverCount, LeftoverAt;
      CountLeftovers(front);
      LeftoverCountSnoc(front, last);
      LeftoverAtSnoc(front, last);
    } else {
      assert LeftoverAt(r) == {};
    }
  }

  lemma LeftoverAtSnoc(front: seq<Reading>, last: Reading)
    ensures LeftoverAt(front + [last]) == LeftoverAt(front) + if last.Leftover? then {|front|} else {}
    ensures |front| !in LeftoverAt(front)
  {
  }

  // ---------- bracketed references ----------

  /** Plain segments with a bracketed name between each two. */
  function PrintReferences(segments: seq<string>, names: seq<string>): string
    requires |segments| == |names| + 1
  {
    if names == [] then segments[0]
    else segments[0] + "[[" + names[0] + "]]" + PrintReferences(segments[1..], names[1..])
  }

  lemma FindBefore(before: string, sub: string, rest: string)
    requires sub != "" && sub[0] !in before
    ensures Find(before + sub + rest, sub) == Some(|before|)
  {
    var s := before + sub + rest;
    FindFirst(s, sub);
    assert At(sub, s, |before|);
    var i := Find(s, sub).value;
    assert s[i..i + |sub|][0] == s[i];
    forall j | 0 <= j < |before| ensures s[j] != sub[0] {
      assert before[j] in before;
    }
  }

  lemma ReferencesStep(segment: string, name: string, rest: string)
    requires '[' !in segment && ']' !in name
    ensures BracketedReferences(segment + "[[" + name + "]]" + rest)
            == (if Trim(name) == "" then [] else [Trim(name)]) + BracketedReferences(rest)
  {
    hide Find, Trim;
    var text := segment + "[[" + name + "]]" + rest;
    var afterOpen := name + "]]" + rest;
    FindBefore(segment, "[[", afterOpen);
    assert text == segment + "[[" + afterOpen;
    assert text[|segment| + 2..] == afterOpen;
    FindBefore(name, "]]", rest);
    assert afterOpen[..|name|] == name && afterOpen[|name| + 2..] == rest;
  }

  lemma NoReferences(segment: string)
    requires '[' !in segment
    ensures BracketedReferences(segment) == []
  {
    FindFirst(segment, "[[");
    OccursHead("[[", segment);
    assert Find(segment, "[[").Some? ==> Occurs("[[", segment);
  }

  /** The extractor returns what was bracketed, trimmed and in order, blanks left out. */
  lemma {:induction false} ReferencesRead(segments: seq<string>, names: seq<string>)
    requires |segments| == |names| + 1
    requires forall s :: s in segments ==> '[' !in s
    requires forall n :: n in names ==> ']' !in n
    ensures BracketedReferences(PrintReferences(segments, names)) == Filter(NonEmpty, Map(Trim, names))
  {
    if names == [] {
      NoReferences(segments[0]);
    } else {
      ReferencesRead(segments[1..], names[1..]);
      ReferencesStep(segments[0], names[0], PrintReferences(segments[1..], names[1..]));
      assert Map(Trim, names)[1..] == Map(Trim, names[1..]);
      hide BracketedReferences, Trim, Map;
    }
  }

  /** Trimmed, non-empty names come back exactly. */
  lemma ReferencesRoundTrip(segments: seq<string>, names: seq<string>)
    requires |segments| == |names| + 1
    requires forall s :: s in segments ==> '[' !in s
    requires forall n :: n in names ==> ']' !in n && n != "" && Trimmed(n)
    ensures BracketedReferences(PrintReferences(segments, names)) == names
  {
    ReferencesRead(segments, names);
    forall n | n in names ensures Trim(n) == n {
      TrimFacts(n);
    }
    assert Map(Trim, names) == names;
    FilterAll(NonEmpty, names);
  }

  /** Nothing is read from an opening bracket that is never closed. */
  lemma UnclosedReference(segment: string, rest: string)
    requires '[' !in segment && !Occurs("]]", rest)
    ensures BracketedReferences(segment + "[[" + rest) == []
  {
    hide Trim, Find;
    var text := segment + "[[" + rest;
    FindBefore(segment, "[[", rest);
    FindFirst(rest, "]]");
    assert text[|segment| + 2..] == rest;
  }
}
