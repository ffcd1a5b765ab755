/** Feats: `convert_feat_page` of `src/book_adapter.rs`, from page to candidates. */
module BookFeats {
  import opened Sequences
  import opened Text
  import opened Domain
  import opened Parser
  import opened ParserLaws
  import opened BookBlocks

  const MAX_HEADING_BLOCK_LINES := 8

  datatype FeatHeading = FeatHeading(name: string, traits: seq<string>)

  type RawFeatEntry = Section<FeatHeading>

  // ---------- heading blocks ----------

  predicate IsFeatLevelMarker(line: string)
  {
    "FEAT " <= line && |line| > 5 && forall i :: 5 <= i < |line| ==> IsDigit(line[i])
  }

  /** A line that can name a feat or one of its traits. */
  predicate IsNameLine(line: string) { line != "" && !IsFeatLevelMarker(line) && IsShouty(line) }

  predicate IsRunLine(line: string) { line == "" || IsFeatLevelMarker(line) || IsShouty(line) }

  function NameLines(lines: seq<string>): seq<string> { Filter(IsNameLine, lines) }

  predicate HasMarker(lines: seq<string>) { exists i :: 0 <= i < |lines| && IsFeatLevelMarker(lines[i]) }

  /** How many lines a heading scan consumes, having met `names` name lines already. */
  function RunLength(lines: seq<string>, names: nat): (n: nat)
    ensures n <= |lines|
  {
    if lines == [] || names > MAX_HEADING_BLOCK_LINES || !IsRunLine(lines[0]) then 0
    else 1 + RunLength(lines[1..], names + if IsNameLine(lines[0]) then 1 else 0)
  }

  /** The first occurrences, in order. */
  function Distinct(xs: seq<string>): seq<string>
  {
    if xs == [] then []
    else
      var front := Distinct(xs[..|xs| - 1]);
      if xs[|xs| - 1] in front then front else front + [xs[|xs| - 1]]
  }

  /** The heading block standing at the front of `lines`, if its run holds a level marker. */
  function ReadHeading(lines: seq<string>): Option<FeatHeading>
  {
    var run := lines[..RunLength(lines, 0)];
    var names := NameLines(run);
    if !HasMarker(run) || names == [] then None
    else Some(FeatHeading(TitleCase(names[0]), Distinct(Map(Lower, names[1..]))))
  }

  /** What the scan has seen between `start` and `index`. */
  ghost predicate Scanned(lines: seq<string>, start: nat, index: nat, shoutyLines: seq<string>, sawFeatMarker: bool)
  {
    && start <= index <= |lines|
    && shoutyLines == NameLines(lines[start..index])
    && (sawFeatMarker <==> HasMarker(lines[start..index]))
    && RunLength(lines[start..], 0) == index - start + RunLength(lines[index..], |shoutyLines|)
  }

  lemma ScanStarts(lines: seq<string>, start: nat)
    requires start <= |lines|
    ensures Scanned(lines, start, start, [], false)
  {
    NoNames();
    assert lines[start..start] == [];
  }

  lemma ScanStep(lines: seq<string>, start: nat, index: nat, shoutyLines: seq<string>, sawFeatMarker: bool)
    requires Scanned(lines, start, index, shoutyLines, sawFeatMarker)
    requires index < |lines| && |shoutyLines| <= MAX_HEADING_BLOCK_LINES
    ensures var line := lines[index];
      if IsRunLine(line) then
        Scanned(lines, start, index + 1, if IsNameLine(line) then shoutyLines + [line] else shoutyLines,
                sawFeatMarker || IsFeatLevelMarker(line))
      else RunLength(lines[start..], 0) == index - start
  {
    hide IsShouty, IsFeatLevelMarker, NameLines, HasMarker;
    var line := lines[index];
    NoNames();
    NamesSnoc(lines[start..index], line);
    assert lines[index..][1..] == lines[index + 1..];
    assert lines[start..index + 1] == lines[start..index] + [line];
  }

  method TryReadHeadingBlock(lines: seq<string>, start: nat) returns (heading: Option<FeatHeading>, next: nat)
    requires start <= |lines|
    ensures heading == ReadHeading(lines[start..])
    ensures next == start + RunLength(lines[start..], 0)
  {
    hide IsShouty, IsFeatLevelMarker, NameLines, HasMarker, TitleCase, RunLength, Scanned;
    var index := start;
    var shoutyLines: seq<string> := [];
    var sawFeatMarker := false;
    ScanStarts(lines, start);
    NoNames();
    while index < |lines| && |shoutyLines| <= MAX_HEADING_BLOCK_LINES
      invariant start <= index <= |lines|
      invariant Scanned(lines, start, index, shoutyLines, sawFeatMarker)
    {
      var line := lines[index];
      ScanStep(lines, start, index, shoutyLines, sawFeatMarker);
      if line == "" {
        index := index + 1;
        continue;
      }
      if IsFeatLevelMarker(line) {
        sawFeatMarker := true;
        index := index + 1;
        continue;
      }
      if IsShouty(line) {
        shoutyLines := shoutyLines + [line];
        index := index + 1;
        continue;
      }
      break;
    }
    next := index;
    ScanStops(lines, start, index, shoutyLines, sawFeatMarker);
    if !sawFeatMarker || shoutyLines == [] {
      return None, next;
    }
    var traits: seq<string> := [];
    var traitLines := shoutyLines[1..];
    for i := 0 to |traitLines|
      invariant traits == Distinct(Map(Lower, traitLines[..i]))
    {
      var traitWord := Lower(traitLines[i]);
      var soFar := Map(Lower, traitLines[..i + 1]);
      assert soFar[..i] == Map(Lower, traitLines[..i]) && soFar[i] == traitWord;
      if traitWord !in traits {
        traits := traits + [traitWord];
      }
    }
    assert traitLines[..|traitLines|] == traitLines;
    return Some(FeatHeading(TitleCase(shoutyLines[0]), traits)), next;
  }

  /** Where the loop stops, the run stops, and what was seen is what the run holds. */
  lemma ScanStops(lines: seq<string>, start: nat, index: nat, shoutyLines: seq<string>, sawFeatMarker: bool)
    requires Scanned(lines, start, index, shoutyLines, sawFeatMarker)
    requires index == |lines| || |shoutyLines| > MAX_HEADING_BLOCK_LINES || !IsRunLine(lines[index])
    ensures RunLength(lines[start..], 0) == index - start
    ensures var run := lines[start..][..index - start];
      shoutyLines == NameLines(run) && (sawFeatMarker <==> HasMarker(run))
  {
    hide IsRunLine, NameLines, HasMarker;
    assert lines[start..][..index - start] == lines[start..index];
  }

  lemma NoNames()
    ensures NameLines([]) == [] && !HasMarker([]) && !IsFeatLevelMarker("")
  {
  }

  lemma NamesSnoc(lines: seq<string>, line: string)
    ensures NameLines(lines + [line]) == if IsNameLine(line) then NameLines(lines) + [line] else NameLines(lines)
    ensures HasMarker(lines + [line]) <==> HasMarker(lines) || IsFeatLevelMarker(line)
  {
    hide IsFeatLevelMarker, IsShouty;
    FilterConcat(IsNameLine, lines, [line]);
    var wider := lines + [line];
    assert wider[|lines|] == line;
    assert forall i :: 0 <= i < |lines| ==> wider[i] == lines[i];
  }

  // ---------- entries ----------

  /** A heading starts at a name line whose run is a heading block. */
  predicate AtHeading(lines: seq<string>)
  {
    lines != [] && IsNameLine(lines[0]) && ReadHeading(lines).Some?
  }

  function FeatSections(lines: seq<string>): Sectioned<FeatHeading>
    decreases |lines|
  {
    if lines == [] then Sectioned([], [])
    else if AtHeading(lines) then
      var n := RunLength(lines, 0);
      var rest := FeatSections(lines[n..]);
      Sectioned([], [Section(lines[..n], ReadHeading(lines).value, rest.preamble)] + rest.sections)
    else
      var rest := FeatSections(lines[1..]);
      if lines[0] == "" then rest else Sectioned([lines[0]] + rest.preamble, rest.sections)
  }

  function FeatEntries(text: string): seq<RawFeatEntry> { FeatSections(TrimmedLines(text)).sections }

  /** What the scan still has to put out. */
  ghost function Pending(current: Option<RawFeatEntry>, lines: seq<string>): seq<RawFeatEntry>
  {
    Remaining(current, FeatSections(lines))
  }

  lemma PendingStep(current: Option<RawFeatEntry>, lines: seq<string>)
    requires lines != []
    ensures Pending(current, lines)
            == if AtHeading(lines) then
                 var n := RunLength(lines, 0);
                 Closed(current) + Pending(Some(Section(lines[..n], ReadHeading(lines).value, [])), lines[n..])
               else if lines[0] == "" then Pending(current, lines[1..])
               else Pending(WithLine(current, lines[0]), lines[1..])
  {
    if AtHeading(lines) { HeadingHasLines(lines); }
    hide ReadHeading, IsNameLine, Remaining, WithLine, RunLength;
    if AtHeading(lines) {
      var n := RunLength(lines, 0);
      RemainingAtHeading(current, Section(lines[..n], ReadHeading(lines).value, []), FeatSections(lines[n..]));
    } else {
      RemainingAtLine(current, lines[0], FeatSections(lines[1..]));
    }
  }

  lemma PendingEnds(current: Option<RawFeatEntry>, text: string)
    ensures Pending(current, []) == Closed(current)
    ensures Pending(None, TrimmedLines(text)) == FeatEntries(text)
  {
    RemainingAtEnds(current, FeatSections(TrimmedLines(text)));
  }

  method SplitFeatEntries(text: string) returns (entries: seq<RawFeatEntry>)
    ensures entries == FeatEntries(text)
  {
    hide TrimmedLines, Pending, ReadHeading, IsShouty, IsFeatLevelMarker, FeatEntries, RunLength;
    var lines := TrimmedLines(text);
    entries := [];
    var current: Option<RawFeatEntry> := None;
    var index := 0;
    assert lines[0..] == lines;
    PendingEnds(None, text);
    while index < |lines|
      invariant 0 <= index <= |lines|
      invariant FeatEntries(text) == entries + Pending(current, lines[index..])
    {
      var line := lines[index];
      assert lines[index..][1..] == lines[index + 1..];
      PendingStep(current, lines[index..]);
      if line == "" {
        index := index + 1;
        continue;
      }
      if IsShouty(line) && !IsFeatLevelMarker(line) {
        var heading, nextIndex := TryReadHeadingBlock(lines, index);
        if heading.Some? {
          assert lines[index..][..nextIndex - index] == lines[index..nextIndex];
          assert lines[index..][nextIndex - index..] == lines[nextIndex..];
          if current.Some? {
            entries := entries + [current.value];
          }
          current := Some(Section(lines[index..nextIndex], heading.value, []));
          HeadingHasLines(lines[index..]);
          index := nextIndex;
          continue;
        }
      }
      if current.Some? {
        current := Some(current.value.(body := current.value.body + [line]));
      }
      index := index + 1;
    }
    assert lines[index..] == [];
    PendingEnds(current, text);
    if current.Some? {
      entries := entries + [current.value];
    }
  }

  lemma HeadingHasLines(lines: seq<string>)
    requires AtHeading(lines)
    ensures RunLength(lines, 0) > 0
  {
  }

  // ---------- what the splitter promises ----------

  function FeatSectionLines(s: RawFeatEntry): seq<string> { Filter(NonEmpty, s.span) + s.body }

  /** The page's non-blank lines are a dropped prefix, then heading spans and
      bodies alternating: nothing is lost, reordered or used twice. */
  lemma {:induction false} FeatPartition(lines: seq<string>)
    ensures var cut := FeatSections(lines);
            Filter(NonEmpty, lines) == cut.preamble + Flatten(Map(FeatSectionLines, cut.sections))
    decreases |lines|
  {
    if lines != [] {
      if AtHeading(lines) {
        HeadingHasLines(lines);
        var n := RunLength(lines, 0);
        var rest := FeatSections(lines[n..]);
        var first := Section(lines[..n], ReadHeading(lines).value, rest.preamble);
        assert FeatSections(lines) == Sectioned([], [first] + rest.sections);
        hide *;
        FeatPartition(lines[n..]);
        FilterConcat(NonEmpty, lines[..n], lines[n..]);
        FlattenMapCons(FeatSectionLines, first, rest.sections);
        FeatPartitionStep(lines, n, first, rest);
      } else {
        FeatPartition(lines[1..]);
        hide AtHeading, Flatten, Map;
      }
    }
  }

  lemma FeatPartitionStep(lines: seq<string>, n: nat, first: RawFeatEntry, rest: Sectioned<FeatHeading>)
    requires n <= |lines| && first.span == lines[..n] && first.body == rest.preamble
    requires Filter(NonEmpty, lines[..n] + lines[n..]) == Filter(NonEmpty, lines[..n]) + Filter(NonEmpty, lines[n..])
    requires Filter(NonEmpty, lines[n..]) == rest.preamble + Flatten(Map(FeatSectionLines, rest.sections))
    ensures Filter(NonEmpty, lines) == FeatSectionLines(first) + Flatten(Map(FeatSectionLines, rest.sections))
  {
    hide Filter, Flatten, Map;
    assert lines == lines[..n] + lines[n..];
  }

  /** Where the heading run that starts here ends. */
  function RunEnd(lines: seq<string>, start: nat): (end: nat)
    requires start <= |lines|
    ensures start <= end <= |lines|
  {
    start + RunLength(lines[start..], 0)
  }

  /** Where the entry after the first `k` starts; the end of the page after the last. */
  function StartOf(lines: seq<string>, starts: seq<nat>, k: nat): nat
  {
    if k < |starts| then starts[k] else |lines|
  }

  /** Entry `k` starts at a heading: its span is that heading's run, its heading
      what the run reads as, and its body the non-blank lines up to the next entry. */
  ghost predicate EntryAt(lines: seq<string>, starts: seq<nat>, k: nat, entry: RawFeatEntry)
    requires k < |starts|
  {
    var start, next := starts[k], StartOf(lines, starts, k + 1);
    && start < |lines| && AtHeading(lines[start..])
    && RunEnd(lines, start) <= next <= |lines|
    && entry == Section(lines[start..RunEnd(lines, start)], ReadHeading(lines[start..]).value,
                        Filter(NonEmpty, lines[RunEnd(lines, start)..next]))
  }

  ghost predicate InSpan(lines: seq<string>, starts: seq<nat>, j: nat)
  {
    exists k :: 0 <= k < |starts| && starts[k] <= |lines| && starts[k] <= j < RunEnd(lines, starts[k])
  }

  /** The page from `from` on is cut at exactly these starts. */
  ghost predicate CutAt(lines: seq<string>, from: nat, cut: Sectioned<FeatHeading>, starts: seq<nat>)
    requires from <= |lines|
  {
    && |starts| == |cut.sections|
    && from <= StartOf(lines, starts, 0) <= |lines|
    && cut.preamble == Filter(NonEmpty, lines[from..StartOf(lines, starts, 0)])
    && (forall k :: 0 <= k < |starts| ==> EntryAt(lines, starts, k, cut.sections[k]))
    && (forall j :: from <= j < |lines| && AtHeading(lines[j..]) ==> InSpan(lines, starts, j))
  }

  /** The splitter neither invents nor misses an entry: every entry is a heading
      block of the page with the lines up to the next one, and a heading starts
      nowhere outside the entries' spans. */
  lemma FeatsAtHeadings(lines: seq<string>) returns (starts: seq<nat>)
    ensures CutAt(lines, 0, FeatSections(lines), starts)
  {
    assert lines[0..] == lines;
    starts := HeadingsFrom(lines, 0);
  }

  lemma {:induction false} HeadingsFrom(lines: seq<string>, from: nat) returns (starts: seq<nat>)
    requires from <= |lines|
    ensures CutAt(lines, from, FeatSections(lines[from..]), starts)
    decreases |lines| - from
  {
    hide CutAt, AtHeading, ReadHeading, RunLength;
    if from == |lines| {
      starts := [];
      NothingCut(lines, from);
    } else if AtHeading(lines[from..]) {
      HeadingHasLines(lines[from..]);
      var end := RunEnd(lines, from);
      assert lines[from..][end - from..] == lines[end..] && lines[from..][..end - from] == lines[from..end];
      var later := HeadingsFrom(lines, end);
      starts := [from] + later;
      CutAtHeading(lines, from, FeatSections(lines[end..]), later);
    } else {
      assert lines[from..][1..] == lines[from + 1..];
      starts := HeadingsFrom(lines, from + 1);
      CutAfterLine(lines, from, FeatSections(lines[from + 1..]), starts);
    }
  }

  lemma NothingCut(lines: seq<string>, from: nat)
    requires from == |lines|
    ensures CutAt(lines, from, FeatSections(lines[from..]), [])
  {
    hide AtHeading;
  }

  lemma CutAtHeading(lines: seq<string>, from: nat, rest: Sectioned<FeatHeading>, later: seq<nat>)
    requires from < |lines| && AtHeading(lines[from..]) && RunEnd(lines, from) > from
    requires CutAt(lines, RunEnd(lines, from), rest, later)
    ensures var first := Section(lines[from..RunEnd(lines, from)], ReadHeading(lines[from..]).value, rest.preamble);
      CutAt(lines, from, Sectioned([], [first] + rest.sections), [from] + later)
  {
    assert ReadHeading(lines[from..]).Some?;
    hide AtHeading, ReadHeading, RunEnd, Filter, EntryAt, InSpan, StartOf;
    var first := Section(lines[from..RunEnd(lines, from)], ReadHeading(lines[from..]).value, rest.preamble);
    FirstEntryAt(lines, from, rest, later);
    EntriesShift(lines, from, [first] + rest.sections, later);
    HeadingsSpanned(lines, from, later);
    StartsAt(lines, from, later);
    EmptyFilter(lines[from..from]);
  }

  lemma StartsAt(lines: seq<string>, from: nat, later: seq<nat>)
    ensures StartOf(lines, [from] + later, 0) == from
  {
  }

  lemma FirstEntryAt(lines: seq<string>, from: nat, rest: Sectioned<FeatHeading>, later: seq<nat>)
    requires from < |lines| && AtHeading(lines[from..]) && ReadHeading(lines[from..]).Some?
    requires CutAt(lines, RunEnd(lines, from), rest, later)
    ensures EntryAt(lines, [from] + later, 0,
                    Section(lines[from..RunEnd(lines, from)], ReadHeading(lines[from..]).value, rest.preamble))
  {
    hide AtHeading, ReadHeading, RunEnd, Filter, InSpan;
    assert StartOf(lines, [from] + later, 1) == StartOf(lines, later, 0);
  }

  lemma EntriesShift(lines: seq<string>, from: nat, sections: seq<RawFeatEntry>, later: seq<nat>)
    requires |sections| == |later| + 1 && EntryAt(lines, [from] + later, 0, sections[0])
    requires forall k :: 0 <= k < |later| ==> EntryAt(lines, later, k, sections[1..][k])
    ensures forall k :: 0 <= k < |sections| ==> EntryAt(lines, [from] + later, k, sections[k])
  {
    hide AtHeading, ReadHeading, RunEnd, Filter;
    var starts := [from] + later;
    forall k | 0 <= k < |sections| ensures EntryAt(lines, starts, k, sections[k]) {
      if k > 0 {
        assert starts[k] == later[k - 1] && StartOf(lines, starts, k + 1) == StartOf(lines, later, k);
        assert EntryAt(lines, later, k - 1, sections[1..][k - 1]);
      }
    }
  }

  lemma HeadingsSpanned(lines: seq<string>, from: nat, later: seq<nat>)
    requires from <= |lines|
    requires forall j :: RunEnd(lines, from) <= j < |lines| && AtHeading(lines[j..]) ==> InSpan(lines, later, j)
    ensures forall j :: from <= j < |lines| && AtHeading(lines[j..]) ==> InSpan(lines, [from] + later, j)
  {
    hide RunEnd, AtHeading;
    var starts := [from] + later;
    assert starts[0] == from;
    forall j | from <= j < |lines| && AtHeading(lines[j..]) ensures InSpan(lines, starts, j) {
      if j >= RunEnd(lines, from) {
        var k :| 0 <= k < |later| && later[k] <= |lines| && later[k] <= j < RunEnd(lines, later[k]);
        assert starts[k + 1] == later[k];
      }
    }
  }

  lemma EmptyFilter(none: seq<string>)
    requires none == []
    ensures Filter(NonEmpty, none) == []
  {
  }

  lemma CutAfterLine(lines: seq<string>, from: nat, rest: Sectioned<FeatHeading>, starts: seq<nat>)
    requires from < |lines| && !AtHeading(lines[from..])
    requires CutAt(lines, from + 1, rest, starts)
    ensures CutAt(lines, from,
                  if lines[from] == "" then rest else Sectioned([lines[from]] + rest.preamble, rest.sections), starts)
  {
    hide AtHeading, ReadHeading, RunLength;
    var next := StartOf(lines, starts, 0);
    assert lines[from..next] == [lines[from]] + lines[from + 1..next];
    FilterConcat(NonEmpty, [lines[from]], lines[from + 1..next]);
    hide EntryAt, InSpan;
  }

  /** Where a heading scan must stop: `n` lines that can stand in a heading,
      at most eight names before the last of them, and no reason to go on. */
  ghost predicate IsRun(lines: seq<string>, n: nat, names: nat)
  {
    && n <= |lines|
    && (forall i :: 0 <= i < n ==> IsRunLine(lines[i]) && names + |NameLines(lines[..i])| <= 8)
    && (n < |lines| && IsRunLine(lines[n]) ==> names + |NameLines(lines[..n])| >= 9)
  }

  /** The scan stops at the end of input, at the first line that cannot stand
      in a heading, or right after the ninth name; and only there. */
  lemma {:induction false} RunLengthIff(lines: seq<string>, n: nat, names: nat)
    ensures n == RunLength(lines, names) <==> IsRun(lines, n, names)
  {
    hide IsRunLine, IsNameLine, NameLines;
    NoNames();
    assert lines[..0] == [];
    if lines != [] && names <= 8 && IsRunLine(lines[0]) {
      var now := if IsNameLine(lines[0]) then 1 else 0;
      forall i | 0 < i <= |lines| ensures |NameLines(lines[..i])| == now + |NameLines(lines[1..][..i - 1])| {
        NamesCons(lines[0], lines[1..][..i - 1]);
        assert lines[..i] == [lines[0]] + lines[1..][..i - 1];
      }
      if n > 0 {
        RunLengthIff(lines[1..], n - 1, names + now);
        RunShift(lines, n, names, now);
      }
    }
  }

  lemma NamesCons(line: string, lines: seq<string>)
    ensures NameLines([line] + lines) == (if IsNameLine(line) then [line] else []) + NameLines(lines)
  {
    FilterConcat(IsNameLine, [line], lines);
  }

  lemma RunShift(lines: seq<string>, n: nat, names: nat, now: nat)
    requires lines != [] && names <= 8 && IsRunLine(lines[0]) && n > 0
    requires NameLines(lines[..0]) == []
    requires forall i :: 0 < i <= |lines| ==> |NameLines(lines[..i])| == now + |NameLines(lines[1..][..i - 1])|
    ensures IsRun(lines, n, names) <==> IsRun(lines[1..], n - 1, names + now)
  {
    hide IsRunLine, NameLines;
    var tail := lines[1..];
    if IsRun(lines, n, names) {
      forall i | 0 <= i < n - 1
        ensures IsRunLine(tail[i]) && names + now + |NameLines(tail[..i])| <= 8
      {
        assert lines[1..][..i + 1 - 1] == tail[..i];
        assert IsRunLine(lines[i + 1]);
      }
      assert lines[1..][..n - 1] == tail[..n - 1];
    }
    if IsRun(tail, n - 1, names + now) {
      forall i | 0 <= i < n
        ensures IsRunLine(lines[i]) && names + |NameLines(lines[..i])| <= 8
      {
        if i > 0 {
          assert IsRunLine(tail[i - 1]);
          assert lines[1..][..i - 1] == tail[..i - 1];
        }
      }
      assert lines[1..][..n - 1] == tail[..n - 1];
    }
  }

  /** A heading block is recognised exactly when its run holds a level marker.
      The name is the first line's; the traits are the run's other name lines,
      lower-cased, each once, in the order first seen; no marker becomes either. */
  lemma HeadingIff(lines: seq<string>)
    requires lines != [] && IsNameLine(lines[0])
    ensures var n := RunLength(lines, 0);
            var names := NameLines(lines[..n]);
      && IsRun(lines, n, 0) && n > 0 && names != [] && names[0] == lines[0]
      && (ReadHeading(lines).Some? <==> HasMarker(lines[..n]))
      && (ReadHeading(lines).Some? ==>
            var h := ReadHeading(lines).value;
            h.name == TitleCase(lines[0]) && FirstsOf(h.traits, Map(Lower, names[1..])))
      && (forall l :: l in names <==> l in lines[..n] && IsNameLine(l))
  {
    var n := RunLength(lines, 0);
    RunLengthIff(lines, n, 0);
    assert lines[..n] == [lines[0]] + lines[1..n];
    NamesCons(lines[0], lines[1..n]);
    DistinctFirsts(Map(Lower, NameLines(lines[..n])[1..]));
    hide IsNameLine, IsRun, RunLength, HasMarker, TitleCase;
  }

  /** `firsts` lists the elements of `all` in the order of their first
      occurrences, hence each of them once. */
  ghost predicate FirstsOf(firsts: seq<string>, all: seq<string>)
  {
    && (forall x :: x in firsts <==> x in all)
    && InOrder(firsts, all)
  }

  ghost predicate InOrder(firsts: seq<string>, all: seq<string>)
  {
    forall i, j :: 0 <= i < j < |firsts| ==> FirstIndex(all, firsts[i]) < FirstIndex(all, firsts[j])
  }

  /** Where `x` first stands in `xs`; their length when it does not. */
  function FirstIndex(xs: seq<string>, x: string): (i: nat)
    ensures i <= |xs| && (i < |xs| ==> xs[i] == x)
  {
    if xs == [] || xs[0] == x then 0 else 1 + FirstIndex(xs[1..], x)
  }

  lemma {:induction false} FirstIndexSnoc(xs: seq<string>, y: string, x: string)
    ensures FirstIndex(xs + [y], x) == if x in xs then FirstIndex(xs, x) else if x == y then |xs| else |xs| + 1
  {
    if xs == [] {
      assert [y][1..] == [];
    } else {
      assert (xs + [y])[1..] == xs[1..] + [y];
      FirstIndexSnoc(xs[1..], y, x);
      assert xs == [xs[0]] + xs[1..];
    }
  }

  lemma {:induction false} FirstIndexIn(xs: seq<string>, x: string)
    ensures x in xs <==> FirstIndex(xs, x) < |xs|
  {
    if xs != [] {
      FirstIndexIn(xs[1..], x);
    }
  }

  /** One more element moves no earlier first occurrence. */
  lemma InOrderSnoc(firsts: seq<string>, front: seq<string>, last: string)
    requires InOrder(firsts, front) && forall x :: x in firsts ==> x in front
    ensures InOrder(firsts, front + [last])
  {
    forall i | 0 <= i < |firsts| ensures FirstIndex(front + [last], firsts[i]) == FirstIndex(front, firsts[i]) {
      FirstIndexSnoc(front, last, firsts[i]);
    }
    hide FirstIndex;
  }

  /** An element not seen before comes after all the others. */
  lemma InOrderWider(firsts: seq<string>, front: seq<string>, last: string)
    requires InOrder(firsts, front) && last !in front && forall x :: x in firsts ==> x in front
    ensures InOrder(firsts + [last], front + [last])
  {
    InOrderSnoc(firsts, front, last);
    FirstIndexSnoc(front, last, last);
    forall i | 0 <= i < |firsts| ensures FirstIndex(front + [last], firsts[i]) < |front| {
      FirstIndexSnoc(front, last, firsts[i]);
      FirstIndexIn(front, firsts[i]);
    }
    hide FirstIndex;
  }

  lemma FirstsSnoc(firsts: seq<string>, front: seq<string>, last: string)
    requires FirstsOf(firsts, front)
    ensures FirstsOf(if last in firsts then firsts else firsts + [last], front + [last])
  {
    hide InOrder;
    assert forall x :: x in front + [last] <==> x in front || x == last;
    if last in firsts {
      InOrderSnoc(firsts, front, last);
    } else {
      InOrderWider(firsts, front, last);
      assert forall x :: x in firsts + [last] <==> x in firsts || x == last;
    }
  }

  lemma {:induction false} DistinctFirsts(xs: seq<string>)
    ensures FirstsOf(Distinct(xs), xs)
  {
    if xs != [] {
      var front, last := xs[..|xs| - 1], xs[|xs| - 1];
      assert xs == front + [last];
      DistinctFirsts(front);
      FirstsSnoc(Distinct(front), front, last);
      hide FirstsOf;
    }
  }

  // ---------- pages to candidates ----------

  function PrintedFeat(entry: RawFeatEntry): Printed
  {
    var effectParts := Paragraphs(entry.body);
    Printed("Feat", entry.heading.name,
            if entry.heading.traits == [] then None else Some(Join(entry.heading.traits, ", ")),
            None, None,
            if effectParts == [] then None else Some(JoinSpace(effectParts)))
  }

  function RenderedFeat(entry: RawFeatEntry): string { PrintBlock(PrintedFeat(entry)) }

  function ConvertFeatPage(text: string): string
  {
    Join(Map(RenderedFeat, FeatEntries(text)), "\n---\n")
  }

  /** What a candidate should say about a feat entry: its traits exactly, and
      its body lines joined by single spaces. */
  function FeatMeaning(entry: RawFeatEntry): Draft
  {
    Draft(Feat, Some(entry.heading.name), entry.heading.traits, None, [], [],
          if entry.body == [] then None else Some(JoinSpace(entry.body)),
          BracketedReferences(RenderedFeat(entry)), RenderedFeat(entry), [], 0.9)
  }

  predicate NoCommas(traits: seq<string>) { forall t :: t in traits ==> ',' !in t }

  /** What the splitter guarantees of an entry. */
  ghost predicate SoundEntry(entry: RawFeatEntry)
  {
    && IsValue(entry.heading.name)
    && (forall t :: t in entry.heading.traits ==> IsValue(t))
    && (forall l :: l in entry.body ==> IsValue(l))
  }

  ghost predicate DashFreeEntry(entry: RawFeatEntry)
  {
    && NoDashes(entry.heading.name)
    && (forall t :: t in entry.heading.traits ==> NoDashes(t))
    && (forall l :: l in entry.body ==> NoDashes(l))
  }

  lemma NamesFacts(lines: seq<string>)
    requires forall l :: l in lines ==> Trimmed(l) && !Occurs("\n", l)
    requires ReadHeading(lines).Some?
    ensures var h := ReadHeading(lines).value;
      && IsValue(h.name) && (forall t :: t in h.traits ==> IsValue(t))
      && ((forall l :: l in lines ==> NoDashes(l)) ==> NoDashes(h.name) && forall t :: t in h.traits ==> NoDashes(t))
  {
    var run := lines[..RunLength(lines, 0)];
    var names := NameLines(run);
    var traits := Map(Lower, names[1..]);
    DistinctFirsts(traits);
    assert forall l :: l in names ==> l in run && l in lines && IsNameLine(l);
    hide HasMarker, NameLines, RunLength, Distinct;
    assert names[0] in names && !Blank(names[0]);
    TitleCaseValue(names[0]);
    forall t | t in traits
      ensures IsValue(t) && ((forall l :: l in lines ==> NoDashes(l)) ==> NoDashes(t))
    {
      var i :| 0 <= i < |names| - 1 && t == Lower(names[1..][i]);
      var l := names[i + 1];
      assert l in names;
      LowerValue(l);
      LowerDashes(l);
    }
    if forall l :: l in lines ==> NoDashes(l) {
      assert NoDashes(names[0]);
      TitleCaseDashes(names[0]);
    }
  }

  lemma {:induction false} FeatSectionsSound(lines: seq<string>)
    requires forall l :: l in lines ==> Trimmed(l) && !Occurs("\n", l)
    ensures var cut := FeatSections(lines);
      && (forall l :: l in cut.preamble ==> l in lines && IsValue(l))
      && (forall e :: e in cut.sections ==> SoundEntry(e) && forall l :: l in e.body ==> l in lines)
      && ((forall l :: l in lines ==> NoDashes(l)) ==> forall e :: e in cut.sections ==> DashFreeEntry(e))
    decreases |lines|
  {
    if AtHeading(lines) { HeadingHasLines(lines); }
    hide ReadHeading, IsNameLine, Occurs, Trimmed;
    if lines != [] {
      var n := if AtHeading(lines) then RunLength(lines, 0) else 1;
      assert forall l :: l in lines[n..] ==> l in lines;
      FeatSectionsSound(lines[n..]);
      if AtHeading(lines) {
        NamesFacts(lines);
      }
      hide NoDashes;
    }
  }

  lemma FeatEntriesFacts(text: string)
    ensures forall e :: e in FeatEntries(text) ==> SoundEntry(e)
    ensures NoDashes(text) ==> forall e :: e in FeatEntries(text) ==> DashFreeEntry(e)
  {
    var lines := TrimmedLines(text);
    TrimmedLinesFacts(text);
    forall l | l in lines && NoDashes(text) ensures NoDashes(l) {
      NoDashesWithin(l, text);
    }
    hide TrimmedLines, FeatSections, SoundEntry, DashFreeEntry;
    FeatSectionsSound(lines);
  }

  /** Without blank lines a body is one paragraph. */
  lemma OneParagraph(body: seq<string>)
    requires forall l :: l in body ==> l != ""
    ensures Paragraphs(body) == if body == [] then [] else [JoinSpace(body)]
  {
    OccursOne("", body);
    SplitWhole(body, [""]);
    hide JoinSpace, Split;
    FilterAll(HasLines, if body == [] then [] else [body]);
    assert body != [] ==> Map(JoinSpace, [body]) == [JoinSpace(body)];
  }

  lemma FeatPrintable(entry: RawFeatEntry)
    requires SoundEntry(entry)
    ensures Printable(PrintedFeat(entry))
    ensures PrintedFeat(entry).effect == if entry.body == [] then None else Some(JoinSpace(entry.body))
    ensures DashFree(PrintedFeat(entry)) <==> DashFreeEntry(entry)
  {
    OneParagraph(entry.body);
    assert JoinSpace([JoinSpace(entry.body)]) == JoinSpace(entry.body);
    hide IsValue, Paragraphs, NoDashes;
    if entry.body != [] {
      JoinValues(entry.body);
    }
    TraitsAreValue(entry.heading.traits);
    FieldsDashes(entry);
  }

  lemma FieldsDashes(entry: RawFeatEntry)
    ensures NoDashes(JoinSpace(entry.body)) <==> forall l :: l in entry.body ==> NoDashes(l)
    ensures NoDashes(Join(entry.heading.traits, ", ")) <==> forall t :: t in entry.heading.traits ==> NoDashes(t)
  {
    JoinedDashes(entry.body, " ");
    JoinedDashes(entry.heading.traits, ", ");
    hide NoDashes, Join;
  }

  lemma {:induction false} TraitsAreValue(traits: seq<string>)
    requires forall t :: t in traits ==> IsValue(t)
    ensures traits != [] ==> IsValue(Join(traits, ", "))
  {
    if traits != [] {
      assert traits[0] in traits;
      OccursJoin("\n", traits, ", ");
      if |traits| > 1 {
        TraitsAreValue(traits[1..]);
        var rest, s := Join(traits[1..], ", "), Join(traits, ", ");
        assert s[0] == traits[0][0] && s[|s| - 1] == rest[|rest| - 1];
      }
    }
  }

  // ---------- trait lists ----------

  lemma SpaceBefore(s: string)
    ensures SplitList(" " + s) == SplitList(s)
  {
    hide Trim;
    assert [' '] + s == " " + s && ","[0] != ' ';
    SplitStep(' ', s, ",");
    hide Split;
    var parts := Split(s, ",");
    TrimBetween(" ", parts[0], "");
    assert " " + parts[0] + "" == [' '] + parts[0];
    assert Map(Trim, Split(" " + s, ",")) == Map(Trim, parts);
  }

  lemma CommaBetween(a: string, b: string)
    ensures SplitList(a + "," + b) == SplitList(a) + SplitList(b)
  {
    SplitConcat(a, ",", b);
    hide Split, Trim;
    MapConcat(Trim, Split(a, ","), Split(b, ","));
    FilterConcat(NonEmpty, Map(Trim, Split(a, ",")), Map(Trim, Split(b, ",")));
  }

  lemma {:induction false} ItemsReadBack(items: seq<string>)
    requires items != [] && forall t :: t in items ==> IsValue(t) && ',' !in t
    ensures SplitList(Join(items, ", ")) == items
  {
    hide SplitList, IsValue;
    OneItem(items[0]);
    if |items| > 1 {
      var rest := Join(items[1..], ", ");
      ItemsReadBack(items[1..]);
      CommaBetween(items[0], " " + rest);
      SpaceBefore(rest);
      assert items[0] + ", " + rest == items[0] + "," + (" " + rest);
    }
  }

  lemma ItemsHoldNoComma(value: string)
    ensures NoCommas(SplitList(value))
  {
    SplitPartsFree(value, ",");
    forall t | t in SplitList(value) ensures ',' !in t {
      var part :| part in Split(value, ",") && t == Trim(part);
      TrimFacts(part);
      OccursOne(',', part);
      OccursOne(',', t);
      if ',' in t {
        OccursTrans(",", t, part);
      }
    }
  }

  /** A printed trait list reads back exactly when no trait holds a comma. */
  lemma TraitsReadBackIff(traits: seq<string>)
    requires forall t :: t in traits ==> IsValue(t)
    ensures ListOf(if traits == [] then None else Some(Join(traits, ", "))) == traits <==> NoCommas(traits)
  {
    hide SplitList, IsValue, Join;
    if traits != [] {
      if NoCommas(traits) {
        ItemsReadBack(traits);
      }
      ItemsHoldNoComma(Join(traits, ", "));
    }
  }

  // ---------- meaning ----------

  lemma FeatReads(entry: RawFeatEntry)
    requires SoundEntry(entry)
    ensures Meaning(PrintedFeat(entry)) == FeatMeaning(entry) <==> NoCommas(entry.heading.traits)
  {
    FeatPrintable(entry);
    TraitsReadBackIff(entry.heading.traits);
    hide ListOf, Paragraphs, JoinSpace, PrintBlock, BracketedReferences, SoundEntry, Join, NoCommas;
  }

  lemma FeatsPrinted(entries: seq<RawFeatEntry>)
    requires forall e :: e in entries ==> SoundEntry(e)
    ensures Map(PrintBlock, Map(PrintedFeat, entries)) == Map(RenderedFeat, entries)
    ensures forall b :: b in Map(PrintedFeat, entries) ==> Printable(b)
    ensures forall i :: 0 <= i < |entries| ==>
              Map(FeatMeaning, entries)[i].sourceText == PrintBlock(Map(PrintedFeat, entries)[i])
  {
    hide PrintBlock, PrintedFeat, SoundEntry, Printable, Paragraphs;
    forall e | e in entries ensures Printable(PrintedFeat(e)) {
      FeatPrintable(e);
    }
  }

  lemma FeatsSeparated(entries: seq<RawFeatEntry>)
    requires forall e :: e in entries ==> SoundEntry(e)
    ensures (forall b :: b in Map(PrintedFeat, entries) ==> NoDashes(PrintBlock(b)))
            <==> forall e :: e in entries ==> DashFreeEntry(e)
  {
    hide PrintBlock, PrintedFeat, NoDashes, DashFreeEntry, SoundEntry, Printable, DashFree;
    var printed := Map(PrintedFeat, entries);
    forall e | e in entries
      ensures PrintedFeat(e) in printed && (NoDashes(PrintBlock(PrintedFeat(e))) <==> DashFreeEntry(e))
    {
      FeatPrintable(e);
      FeatType(e);
      BlockDashes(PrintedFeat(e));
      var i :| 0 <= i < |entries| && entries[i] == e;
      assert printed[i] == PrintedFeat(e);
    }
    forall b | b in printed ensures exists e :: e in entries && b == PrintedFeat(e) {
      var i :| 0 <= i < |printed| && printed[i] == b;
      assert entries[i] in entries;
    }
  }

  lemma FeatType(entry: RawFeatEntry)
    ensures TypeOf(PrintedFeat(entry).typeLine) != Unclassified
  {
  }

  lemma FeatMeanings(entries: seq<RawFeatEntry>)
    requires forall e :: e in entries ==> SoundEntry(e)
    ensures Map(Meaning, Map(PrintedFeat, entries)) == Map(FeatMeaning, entries)
            <==> forall e :: e in entries ==> NoCommas(e.heading.traits)
  {
    hide Meaning, FeatMeaning, PrintedFeat, SoundEntry, NoCommas;
    forall e | e in entries ensures Meaning(PrintedFeat(e)) == FeatMeaning(e) <==> NoCommas(e.heading.traits) {
      FeatReads(e);
    }
    var meant := Map(Meaning, Map(PrintedFeat, entries));
    assert forall i :: 0 <= i < |entries| ==> meant[i] == Meaning(PrintedFeat(entries[i]));
    if meant == Map(FeatMeaning, entries) {
      forall e | e in entries ensures NoCommas(e.heading.traits) {
        var i :| 0 <= i < |entries| && entries[i] == e;
        assert meant[i] == Map(FeatMeaning, entries)[i];
      }
    }
  }

  /** Converting a feat page and parsing the result gives one feat per entry,
      in order, with its exact name, exact trait list and its body lines as
      effect, exactly when no name, trait or body line of an entry holds `---`
      and no trait a comma. */
  lemma FeatsPreservedIff(text: string)
    ensures ParseCandidates(ConvertFeatPage(text)) == Map(FeatMeaning, FeatEntries(text))
            <==> forall e :: e in FeatEntries(text) ==> DashFreeEntry(e) && NoCommas(e.heading.traits)
  {
    FeatEntriesFacts(text);
    var entries := FeatEntries(text);
    var printed := Map(PrintedFeat, entries);
    SeparatorFree(printed);
    hide *;
    FeatsPrinted(entries);
    FeatsSeparated(entries);
    FeatMeanings(entries);
    ConvertedFeats(text);
    if ParseCandidates(ConvertFeatPage(text)) == Map(FeatMeaning, entries) {
      BlocksHoldNoSeparator(ConvertFeatPage(text), printed);
    }
    if forall b :: b in printed ==> !Occurs(BLOCK_SEPARATOR, PrintBlock(b)) {
      BlocksReadBack(printed);
    }
  }

  lemma ConvertedFeats(text: string)
    ensures ConvertFeatPage(text) == Join(Map(RenderedFeat, FeatEntries(text)), "\n---\n")
  {
  }

  /** For every page with no `---` in it and no comma in a trait line, nothing is lost or invented. */
  lemma FeatsPreserved(text: string)
    requires !Occurs("---", text)
    requires forall e :: e in FeatEntries(text) ==> NoCommas(e.heading.traits)
    ensures ParseCandidates(ConvertFeatPage(text)) == Map(FeatMeaning, FeatEntries(text))
  {
    FeatEntriesFacts(text);
    FeatsPreservedIff(text);
    hide FeatEntries, FeatMeaning, ConvertFeatPage, NoCommas, Occurs, DashFreeEntry;
  }

  /** A page whose body line holds a separator: what it says is lost. */
  lemma FeatsLost() returns (text: string)
    ensures ParseCandidates(ConvertFeatPage(text)) != Map(FeatMeaning, FeatEntries(text))
  {
    hide FeatEntries, NoDashes, ConvertFeatPage, FeatMeaning, Join, IsValue, IsWord;
    text := Join(["AID", "FEAT 1", "a---b"], "\n");
    LostEntry(text, ["AID", "FEAT 1", "a---b"]);
    var e := FeatEntries(text)[0];
    DashedLine();
    assert "a---b" in e.body && !DashFreeEntry(e);
    hide DashFreeEntry;
    FeatsPreservedIff(text);
  }

  lemma LostLinesRead()
    ensures IsNameLine("AID") && !IsNameLine("FEAT 1") && IsFeatLevelMarker("FEAT 1")
    ensures IsRunLine("AID") && IsRunLine("FEAT 1") && !IsRunLine("a---b") && !IsNameLine("a---b")
  {
    assert "FEAT 1"[..5] == "FEAT " && "FEAT 1"[5] == '1';
    assert IsFeatLevelMarker("FEAT 1");
    assert "AID"[0] == 'A' && IsShouty("AID") && !IsFeatLevelMarker("AID");
    assert "a---b"[0] == 'a' && IsLetter("a---b"[0]) && !IsUpper("a---b"[0]);
    assert !IsShouty("a---b");
    assert !IsFeatLevelMarker("a---b");
    hide IsShouty, IsFeatLevelMarker;
    assert "a---b" != "" && "AID" != "";
  }

  lemma LostEntry(text: string, lines: seq<string>)
    requires lines == ["AID", "FEAT 1", "a---b"] && text == Join(lines, "\n")
    ensures |FeatEntries(text)| == 1 && FeatEntries(text)[0].body == ["a---b"]
  {
    forall l | l in lines ensures Trimmed(l) && !Occurs("\n", l) {
      OccursOne('\n', l);
    }
    TrimmedLinesJoin(lines);
    LostRun(lines);
    hide Trimmed, Occurs, TrimmedLines, Join, RunLength, IsNameLine, ReadHeading, AtHeading;
    OneBodyLine("a---b");
    assert lines[2..] == ["a---b"];
  }

  lemma OneBodyLine(line: string)
    requires line != "" && !AtHeading([line])
    ensures FeatSections([line]) == Sectioned([line], [])
  {
    hide AtHeading;
    assert [line][1..] == [];
    assert FeatSections([]) == Sectioned([], []);
  }

  lemma LostRun(lines: seq<string>)
    requires lines == ["AID", "FEAT 1", "a---b"]
    ensures RunLength(lines, 0) == 2 && AtHeading(lines) && !AtHeading(["a---b"])
  {
    LostLinesRead();
    hide IsNameLine, IsFeatLevelMarker, IsRunLine, TitleCase, Distinct;
    assert NameLines([]) == [];
    NamesCons("AID", []);
    NamesCons("AID", ["FEAT 1"]);
    NamesCons("FEAT 1", []);
    assert ["FEAT 1"] + [] == ["FEAT 1"] && ["AID"] + ["FEAT 1"] == lines[..2] && ["AID"] + [] == lines[..1];
    assert lines[..0] == [];
    hide NameLines;
    assert IsRun(lines, 2, 0);
    RunLengthIff(lines, 2, 0);
    assert lines[..2][1] == "FEAT 1" && HasMarker(lines[..2]);
  }
}
