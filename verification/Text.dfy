/** The string operations the service takes from Rust's standard library, on
    strings of characters with ASCII letters, case and whitespace. */
module Text {
  import opened Sequences

  // ---------- characters ----------

  /** Space, and tab through carriage return. */
  predicate IsSpace(c: char) { c == ' ' || '\t' <= c <= '\r' }

  predicate IsUpper(c: char) { 'A' <= c <= 'Z' }

  predicate IsLower(c: char) { 'a' <= c <= 'z' }

  predicate IsLetter(c: char) { IsUpper(c) || IsLower(c) }

  predicate IsDigit(c: char) { '0' <= c <= '9' }

  function LowerChar(c: char): char {
    if IsUpper(c) then (c as int + 32) as char else c
  }

  /** Space, tab, line feed, vertical tab, form feed and carriage return. */
  lemma Whitespace(c: char)
    ensures IsSpace(c) <==> c in [' ', '\t', '\n', 11 as char, 12 as char, '\r']
  {
  }

  function UpperChar(c: char): char {
    if IsLower(c) then (c as int - 32) as char else c
  }

  function Lower(s: string): (t: string)
    ensures |t| == |s| && forall i :: 0 <= i < |s| ==> t[i] == LowerChar(s[i])
  {
    Map(LowerChar, s)
  }

  // ---------- trimming ----------

  predicate Blank(s: string) { forall i :: 0 <= i < |s| ==> IsSpace(s[i]) }

  predicate Trimmed(s: string) {
    s == "" || (!IsSpace(s[0]) && !IsSpace(s[|s| - 1]))
  }

  function TrimStart(s: string): string
  {
    if s != "" && IsSpace(s[0]) then TrimStart(s[1..]) else s
  }

  function TrimEnd(s: string): string
  {
    if s != "" && IsSpace(s[|s| - 1]) then TrimEnd(s[..|s| - 1]) else s
  }

  function Trim(s: string): string { TrimEnd(TrimStart(s)) }

  /** A line's content: a non-empty trimmed string on one line. */
  ghost predicate IsValue(s: string) {
    s != "" && Trimmed(s) && !Occurs("\n", s)
  }

  // ---------- lines and words ----------

  /** What `str::lines` takes off a line that a line feed ended. */
  function DropCarriageReturn(line: string): string
  {
    if line != "" && line[|line| - 1] == '\r' then line[..|line| - 1] else line
  }

  /** `str::lines`: a final line feed does not start another line. */
  function Lines(text: string): seq<string>
  {
    var parts := Split(text, "\n");
    var n := |parts| - 1;
    Map(DropCarriageReturn, parts[..n]) + (if parts[n] == "" then [] else [parts[n]])
  }

  function TrimmedLines(text: string): seq<string> { Map(Trim, Lines(text)) }

  predicate IsWord(w: string) { w != "" && forall i :: 0 <= i < |w| ==> !IsSpace(w[i]) }

  /** `str::split_whitespace`. */
  function Words(s: string): (words: seq<string>)
    ensures s != "" && !IsSpace(s[0]) ==> |words| > 0
  {
    if s == "" then []
    else if IsSpace(s[0]) then Words(s[1..])
    else if |s| == 1 || IsSpace(s[1]) then [[s[0]]] + Words(s[1..])
    else
      var rest := Words(s[1..]);
      [[s[0]] + rest[0]] + rest[1..]
  }

  /** A letter is present and every letter is upper case. */
  predicate IsShouty(s: string) {
    (exists i :: 0 <= i < |s| && IsLetter(s[i]))
    && forall i :: 0 <= i < |s| && IsLetter(s[i]) ==> IsUpper(s[i])
  }

  function Upper(s: string): string { Map(UpperChar, s) }

  /** Upper-casing leaves the text alone and lower-casing does not. */
  lemma ShoutyIff(s: string)
    ensures IsShouty(s) <==> Upper(s) == s && Lower(s) != s
  {
    if IsShouty(s) {
      var i :| 0 <= i < |s| && IsLetter(s[i]);
      assert Lower(s)[i] != s[i];
    }
    if Upper(s) == s {
      forall i | 0 <= i < |s| && IsLetter(s[i]) ensures IsUpper(s[i]) {
        assert Upper(s)[i] == s[i];
      }
    }
  }

  function Capitalize(word: string): string
  {
    if word == "" then "" else [UpperChar(word[0])] + Lower(word[1..])
  }

  function TitleCase(s: string): string { Join(Map(Capitalize, Words(s)), " ") }

  /** The first letter of a word upper case, the others lower case, the case of nothing else changed. */
  lemma CapitalizeLetters(word: string, i: nat)
    requires i < |word|
    ensures |Capitalize(word)| == |word| && Lower(Capitalize(word)) == Lower(word)
    ensures IsLetter(word[i]) ==> if i == 0 then IsUpper(Capitalize(word)[i]) else IsLower(Capitalize(word)[i])
  {
    assert word == [word[0]] + word[1..];
  }

  // ---------- what trimming does ----------

  lemma {:induction false} TrimStartBlank(lead: string, s: string)
    requires Blank(lead)
    ensures TrimStart(lead + s) == TrimStart(s)
  {
    if lead == "" {
      assert lead + s == s;
    } else {
      assert (lead + s)[1..] == lead[1..] + s;
      TrimStartBlank(lead[1..], s);
    }
  }

  lemma {:induction false} TrimEndBlank(s: string, trail: string)
    requires Blank(trail)
    ensures TrimEnd(s + trail) == TrimEnd(s)
  {
    if trail == "" {
      assert s + trail == s;
    } else {
      var front := trail[..|trail| - 1];
      assert (s + trail)[..|s + trail| - 1] == s + front;
      TrimEndBlank(s, front);
    }
  }

  /** Trimming finds the trimmed core of any text padded with whitespace. */
  lemma TrimPadded(lead: string, core: string, trail: string)
    requires Blank(lead) && Blank(trail) && Trimmed(core)
    ensures Trim(lead + core + trail) == core
  {
    assert lead + core + trail == lead + (core + trail);
    TrimStartBlank(lead, core + trail);
    if core == "" {
      assert core + trail == trail + "";
      TrimStartBlank(trail, "");
    } else {
      TrimEndBlank(core, trail);
    }
  }

  /** Every text is its trimmed core between two runs of whitespace. */
  lemma TrimParts(s: string) returns (lead: string, trail: string)
    ensures Blank(lead) && Blank(trail) && Trimmed(Trim(s)) && s == lead + Trim(s) + trail
  {
    lead := TrimStartParts(s);
    trail := TrimEndParts(TrimStart(s));
  }

  lemma TrimStartStep(s: string)
    ensures TrimStart(s) == if s != "" && IsSpace(s[0]) then TrimStart(s[1..]) else s
  {
  }

  lemma {:induction false} TrimStartParts(s: string) returns (lead: string)
    ensures Blank(lead) && s == lead + TrimStart(s)
    ensures TrimStart(s) == "" || !IsSpace(TrimStart(s)[0])
  {
    hide TrimStart;
    TrimStartStep(s);
    lead := "";
    if s != "" && IsSpace(s[0]) {
      lead := TrimStartParts(s[1..]);
      assert s == [s[0]] + s[1..];
      lead := [s[0]] + lead;
    }
  }

  lemma {:induction false} TrimEndParts(s: string) returns (trail: string)
    ensures Blank(trail) && s == TrimEnd(s) + trail
    ensures TrimEnd(s) == "" || (TrimEnd(s)[0] == s[0] && !IsSpace(TrimEnd(s)[|TrimEnd(s)| - 1]))
  {
    if s != "" && IsSpace(s[|s| - 1]) {
      trail := TrimEndParts(s[..|s| - 1]);
      trail := trail + [s[|s| - 1]];
    } else {
      trail := "";
    }
  }

  /** Trimming leaves exactly the trimmed texts alone, and empties exactly the blank ones. */
  lemma TrimFacts(s: string)
    ensures Trimmed(Trim(s))
    ensures Trimmed(s) ==> Trim(s) == s
    ensures Trim(s) == "" <==> Blank(s)
    ensures Occurs(Trim(s), s)
  {
    var lead, trail := TrimParts(s);
    assert At(Trim(s), s, |lead|);
    if Trimmed(s) {
      TrimPadded("", s, "");
      assert "" + s + "" == s;
    }
    assert Trim(s) != "" ==> Trim(s)[0] in s;
    if Blank(s) {
      TrimPadded(s, "", "");
      assert s + "" + "" == s;
    }
  }

  // ---------- occurrences ----------

  lemma OccursTrans<T>(a: seq<T>, b: seq<T>, c: seq<T>)
    requires Occurs(a, b) && Occurs(b, c)
    ensures Occurs(a, c)
  {
    var i :| At(a, b, i);
    var j :| At(b, c, j);
    forall k | 0 <= k < |a| ensures c[j + i + k] == a[k] {
      assert c[j..j + |b|][i + k] == b[i + k] && b[i..i + |a|][k] == a[k];
    }
    assert c[j + i..j + i + |a|] == a;
    assert At(a, c, j + i);
  }

  lemma OccursHead(sub: string, s: string)
    ensures sub != "" && Occurs(sub, s) ==> exists i :: 0 <= i < |s| && s[i] == sub[0]
  {
    if i :| sub != "" && At(sub, s, i) {
      assert s[i] == s[i..i + |sub|][0];
    }
  }

  lemma OccursOne<T>(x: T, s: seq<T>)
    ensures Occurs([x], s) <==> x in s
  {
    if i :| At([x], s, i) {
      assert s[i..i + 1][0] == x;
    }
    if x in s {
      var i :| 0 <= i < |s| && s[i] == x;
      assert At([x], s, i);
    }
  }

  lemma Overlap<T>(sub: seq<T>, s: seq<T>, i: int, lo: int, hi: int)
    requires At(sub, s, i) && 0 <= lo < hi <= |s| && i < hi && lo < i + |sub| && sub != []
    ensures exists k :: lo <= k < hi && s[k] in sub
  {
    var k := if i < lo then lo else i;
    assert s[i..i + |sub|][k - i] == s[k];
  }

  /** Text put around a separator that shares no character with `sub` makes no new occurrence. */
  lemma OccursAround<T>(sub: seq<T>, a: seq<T>, sep: seq<T>, b: seq<T>)
    requires sub != [] && sep != [] && forall c :: c in sep ==> c !in sub
    ensures Occurs(sub, a + sep + b) ==> Occurs(sub, a) || Occurs(sub, b)
  {
    var s := a + sep + b;
    forall k | |a| <= k < |a| + |sep| ensures s[k] !in sub {
      assert s[k] in sep;
    }
    if i :| At(sub, s, i) {
      if i + |sub| <= |a| {
        assert At(sub, a, i);
      } else if i >= |a| + |sep| {
        assert At(sub, b, i - |a| - |sep|);
      } else {
        Overlap(sub, s, i, |a|, |a| + |sep|);
      }
    }
  }

  lemma {:induction false} OccursJoin(sub: string, parts: seq<string>, sep: string)
    requires sep != "" && sub != "" && forall c :: c in sep ==> c !in sub
    requires forall p :: p in parts ==> !Occurs(sub, p)
    ensures !Occurs(sub, Join(parts, sep))
  {
    if |parts| > 1 {
      OccursJoin(sub, parts[1..], sep);
      OccursAround(sub, parts[0], sep, Join(parts[1..], sep));
    }
  }

  lemma {:induction false} OccursInJoin(p: string, parts: seq<string>, sep: string)
    requires p in parts
    ensures Occurs(p, Join(parts, sep))
  {
    if |parts| == 1 {
      assert At(p, p, 0);
    } else if p == parts[0] {
      assert At(p, Join(parts, sep), 0);
    } else {
      OccursInJoin(p, parts[1..], sep);
      var rest := Join(parts[1..], sep);
      assert At(rest, parts[0] + sep + rest, |parts[0] + sep|);
      OccursTrans(p, rest, Join(parts, sep));
    }
  }

  /** Rewriting characters, but none into a character of `sub`, makes no new occurrence. */
  lemma OccursRewrite(sub: string, t: string, s: string)
    requires |t| == |s| && forall i :: 0 <= i < |t| && t[i] in sub ==> t[i] == s[i]
    ensures Occurs(sub, t) ==> Occurs(sub, s)
  {
    if i :| At(sub, t, i) {
      forall k | 0 <= k < |sub| ensures s[i + k] == sub[k] {
        assert t[i..i + |sub|][k] == t[i + k];
      }
      assert s[i..i + |sub|] == sub;
      assert At(sub, s, i);
    }
  }

  lemma LowerDashes(s: string)
    ensures Occurs("---", Lower(s)) <==> Occurs("---", s)
  {
    OccursRewrite("---", Lower(s), s);
    OccursRewrite("---", s, Lower(s));
  }

  lemma {:induction false} SplitPartsOccur<T>(s: seq<T>, sep: seq<T>)
    requires |sep| > 0
    ensures forall p :: p in Split(s, sep) ==> Occurs(p, s)
  {
    if |s| < |sep| {
      assert At(s, s, 0);
    } else if s[..|sep|] == sep {
      SplitPartsOccur(s[|sep|..], sep);
      assert At(s[|sep|..], s, |sep|);
      assert At([], s, 0);
      forall p | p in Split(s[|sep|..], sep) ensures Occurs(p, s) {
        OccursTrans(p, s[|sep|..], s);
      }
    } else {
      SplitPartsOccur(s[1..], sep);
      SplitHeadPrefix(s, sep);
      assert At(s[1..], s, 1);
      assert At(Split(s, sep)[0], s, 0);
      forall p | p in Split(s[1..], sep) ensures Occurs(p, s) {
        OccursTrans(p, s[1..], s);
      }
    }
  }

  lemma {:induction false} WordsOccur(s: string)
    ensures forall w :: w in Words(s) ==> Occurs(w, s)
    ensures Words(s) != [] && !IsSpace(s[0]) ==> Words(s)[0] <= s
  {
    if s != "" {
      WordsOccur(s[1..]);
      assert At(s[1..], s, 1);
      forall w | w in Words(s[1..]) ensures Occurs(w, s) {
        OccursTrans(w, s[1..], s);
      }
      if !IsSpace(s[0]) {
        assert Words(s)[0] <= s;
        assert At(Words(s)[0], s, 0);
      }
    }
  }

  // ---------- words ----------

  lemma {:induction false} WordsAreWords(s: string)
    ensures forall w :: w in Words(s) ==> IsWord(w)
  {
    if s != "" {
      WordsAreWords(s[1..]);
      assert Words(s[1..]) != [] ==> IsWord(Words(s[1..])[0]);
    }
  }

  /** Whitespace separates words. */
  lemma {:induction false} WordsConcat(a: string, c: char, b: string)
    requires IsSpace(c)
    ensures Words(a + [c] + b) == Words(a) + Words(b)
  {
    var s := a + [c] + b;
    if a == "" {
      assert s[1..] == b;
    } else {
      assert s[1..] == a[1..] + [c] + b;
      WordsConcat(a[1..], c, b);
    }
  }

  /** A text can be cut before any whitespace without cutting a word. */
  lemma WordsCut(s: string, i: nat)
    requires i < |s| && IsSpace(s[i])
    ensures Words(s) == Words(s[..i]) + Words(s[i + 1..]) == Words(s[..i]) + Words(s[i..])
  {
    hide Words;
    assert s == s[..i] + [s[i]] + s[i + 1..];
    assert s[i..][1..] == s[i + 1..];
    WordsAfterSpace(s[i..]);
    WordsConcat(s[..i], s[i], s[i + 1..]);
  }

  lemma WordsAfterSpace(s: string)
    requires s != "" && IsSpace(s[0])
    ensures Words(s) == Words(s[1..])
  {
  }

  lemma {:induction false} WordsBlank(s: string)
    ensures Words(s) == [] <==> Blank(s)
  {
    if s != "" {
      WordsBlank(s[1..]);
    }
  }

  lemma {:induction false} WordsSingle(w: string)
    requires IsWord(w)
    ensures Words(w) == [w]
  {
    if |w| > 1 {
      WordsSingle(w[1..]);
      assert w == [w[0]] + w[1..];
    } else {
      assert w == [w[0]] && w[1..] == "";
    }
  }

  /** Trimming keeps the words. */
  lemma WordsTrim(s: string)
    ensures Words(Trim(s)) == Words(s)
  {
    var lead, trail := TrimParts(s);
    WordsPadded(lead, Trim(s), trail);
  }

  lemma {:induction false} WordsPadded(lead: string, core: string, trail: string)
    requires Blank(lead) && Blank(trail)
    ensures Words(lead + core + trail) == Words(core)
  {
    var s := lead + core + trail;
    if lead != "" {
      assert s[1..] == lead[1..] + core + trail;
      WordsPadded(lead[1..], core, trail);
    } else if trail != "" {
      assert s == core + [trail[0]] + trail[1..];
      WordsConcat(core, trail[0], trail[1..]);
      WordsBlank(trail[1..]);
    } else {
      assert s == core;
    }
  }

  /** One step of `Words`. */
  lemma WordsStep(c: char, s: string)
    ensures IsSpace(c) ==> Words([c] + s) == Words(s)
    ensures !IsSpace(c) && (s == "" || IsSpace(s[0])) ==> Words([c] + s) == [[c]] + Words(s)
    ensures !IsSpace(c) && s != "" && !IsSpace(s[0])
            ==> |Words(s)| > 0 && Words([c] + s) == [[c] + Words(s)[0]] + Words(s)[1..]
  {
    assert ([c] + s)[1..] == s;
  }

  lemma LowerConcat(a: string, b: string)
    ensures Lower(a + b) == Lower(a) + Lower(b)
  {
  }

  /** Lower-casing a text lower-cases its words. */
  lemma {:induction false} WordsLower(s: string)
    ensures Words(Lower(s)) == Map(Lower, Words(s))
  {
    if s != "" {
      var c, t := s[0], s[1..];
      var rest := Words(t);
      WordsLower(t);
      WordsStep(c, t);
      WordsStep(LowerChar(c), Lower(t));
      LowerConcat([c], t);
      assert s == [c] + t && Lower([c]) == [LowerChar(c)];
      hide Words, Lower, Map;
      if IsSpace(c) {
      } else if t == "" || IsSpace(t[0]) {
        MapConcat(Lower, [[c]], rest);
        MapConcat(Lower, [], [[c]]);
      } else {
        LowerConcat([c], rest[0]);
        MapConcat(Lower, [[c] + rest[0]], rest[1..]);
      }
    }
  }

  lemma {:induction false} WordsJoin(parts: seq<string>)
    ensures Words(Join(parts, " ")) == Flatten(Map(Words, parts))
  {
    if parts == [] {
    } else {
      assert Map(Words, parts)[1..] == Map(Words, parts[1..]);
      WordsJoin(parts[1..]);
      if |parts| > 1 {
        WordsConcat(parts[0], ' ', Join(parts[1..], " "));
      }
    }
  }

  // ---------- values ----------

  lemma {:induction false} JoinValues(parts: seq<string>)
    requires parts != [] && forall p :: p in parts ==> IsValue(p)
    ensures IsValue(Join(parts, " "))
  {
    OccursJoin("\n", parts, " ");
    assert parts[0] in parts;
    if |parts| > 1 {
      var rest := Join(parts[1..], " ");
      JoinValues(parts[1..]);
      var s := Join(parts, " ");
      assert s[0] == parts[0][0] && s[|s| - 1] == rest[|rest| - 1];
    }
  }

  lemma LowerValue(s: string)
    requires IsValue(s)
    ensures IsValue(Lower(s))
  {
    OccursRewrite("\n", Lower(s), s);
    assert !IsSpace(Lower(s)[0]) && !IsSpace(Lower(s)[|s| - 1]);
  }

  lemma TitleCaseValue(s: string)
    requires !Blank(s)
    ensures IsValue(TitleCase(s))
  {
    WordsBlank(s);
    WordsAreWords(s);
    forall w | w in Words(s) ensures IsValue(Capitalize(w)) {
      var t := Capitalize(w);
      assert forall i :: 0 <= i < |t| ==> !IsSpace(t[i]);
      OccursOne('\n', t);
    }
    JoinValues(Map(Capitalize, Words(s)));
  }

  lemma {:induction false} WordsOfWords(words: seq<string>)
    requires forall w :: w in words ==> IsWord(w)
    ensures Flatten(Map(Words, words)) == words
  {
    if words != [] {
      WordsSingle(words[0]);
      WordsOfWords(words[1..]);
      hide Words;
      assert Map(Words, words)[1..] == Map(Words, words[1..]);
      assert words == [words[0]] + words[1..];
    }
  }

  /** A title has the words of the text, each capitalized, in order, with one space between. */
  lemma TitleCaseWords(s: string)
    ensures Words(TitleCase(s)) == Map(Capitalize, Words(s))
    ensures TitleCase(s) == Join(Words(TitleCase(s)), " ")
  {
    var words := Map(Capitalize, Words(s));
    WordsAreWords(s);
    forall w | w in Words(s) ensures IsWord(Capitalize(w)) {
    }
    hide Words, IsWord, Capitalize;
    WordsJoin(words);
    WordsOfWords(words);
  }

  lemma TitleCaseDashes(s: string)
    requires !Occurs("---", s)
    ensures !Occurs("---", TitleCase(s))
  {
    WordsOccur(s);
    forall w | w in Words(s) ensures !Occurs("---", Capitalize(w)) {
      if Occurs("---", w) {
        OccursTrans("---", w, s);
      }
      OccursRewrite("---", Capitalize(w), w);
    }
    OccursJoin("---", Map(Capitalize, Words(s)), " ");
  }

  // ---------- lines ----------

  /** Every trimmed line is trimmed, holds no line feed, and occurs in the text. */
  lemma TrimmedLinesFacts(text: string)
    ensures forall l :: l in TrimmedLines(text) ==> Trimmed(l) && !Occurs("\n", l) && Occurs(l, text)
  {
    var parts := Split(text, "\n");
    SplitPartsOccur(text, "\n");
    SplitPartsFree(text, "\n");
    forall l | l in TrimmedLines(text)
      ensures Trimmed(l) && !Occurs("\n", l) && Occurs(l, text)
    {
      var p :| p in parts && (l == Trim(p) || l == Trim(DropCarriageReturn(p)));
      TrimCarriageReturn(p);
      TrimFacts(p);
      OccursTrans(l, p, text);
      if Occurs("\n", l) {
        OccursTrans("\n", l, p);
      }
    }
  }

  /** Since the callers trim, the carriage return `lines` drops makes no difference. */
  lemma TrimCarriageReturn(p: string)
    ensures Trim(DropCarriageReturn(p)) == Trim(p)
  {
    var front := DropCarriageReturn(p);
    if front != p {
      var lead, trail := TrimParts(front);
      TrimPadded(lead, Trim(front), trail + "\r");
      assert p == front + "\r" == lead + Trim(front) + (trail + "\r");
    }
  }

  /** The trimmed lines of a text are the texts between its line feeds, trimmed
      and in order, blank ones included; only a last empty one is no line. */
  lemma TrimmedLinesOf(parts: seq<string>)
    requires parts != [] && forall p :: p in parts ==> '\n' !in p
    ensures var n := |parts| - 1;
      TrimmedLines(Join(parts, "\n")) == Map(Trim, if parts[n] == "" then parts[..n] else parts)
  {
    LinesSplit(parts);
    hide *;
    LinesTrimmed(Join(parts, "\n"));
  }

  lemma LinesSplit(parts: seq<string>)
    requires parts != [] && forall p :: p in parts ==> '\n' !in p
    ensures Split(Join(parts, "\n"), "\n") == parts
  {
    hide Split, Join;
    forall p | p in parts ensures !Occurs("\n", p) {
      OccursOne('\n', p);
    }
    SplitJoin(parts, "\n");
  }

  lemma LinesTrimmed(text: string)
    ensures var parts := Split(text, "\n");
            var n := |parts| - 1;
      TrimmedLines(text) == Map(Trim, if parts[n] == "" then parts[..n] else parts)
  {
    hide Split, Trim, DropCarriageReturn;
    var parts := Split(text, "\n");
    var n := |parts| - 1;
    TrimDropped(parts[..n]);
    assert parts == parts[..n] + [parts[n]];
  }

  lemma TrimDropped(parts: seq<string>)
    ensures Map(Trim, Map(DropCarriageReturn, parts)) == Map(Trim, parts)
  {
    hide Trim, DropCarriageReturn;
    forall p | p in parts ensures Trim(DropCarriageReturn(p)) == Trim(p) {
      TrimCarriageReturn(p);
    }
  }

  /** Lines printed one under another read back as those lines. */
  lemma TrimmedLinesJoin(lines: seq<string>)
    requires lines != [] && forall l :: l in lines ==> IsValue(l)
    ensures TrimmedLines(Join(lines, "\n")) == lines
  {
    hide Join, Trim, TrimmedLines;
    forall l | l in lines ensures '\n' !in l && l != "" && Trim(l) == l {
      OccursOne('\n', l);
      TrimFacts(l);
    }
    TrimmedLinesOf(lines);
    assert lines[|lines| - 1] in lines;
    assert Map(Trim, lines) == lines;
  }

  // ---------- the first delimiter ----------

  /** `str::split_once`: what stands before and after the first `c`. */
  function SplitOnce(s: string, c: char): Option<(string, string)>
  {
    if s == "" then None
    else if s[0] == c then Some(("", s[1..]))
    else
      match SplitOnce(s[1..], c)
      case None => None
      case Some((before, after)) => Some(([s[0]] + before, after))
  }

  /** The first `c` is the one with no `c` before it. */
  lemma {:induction false} SplitOnceAt(before: string, c: char, after: string)
    requires c !in before
    ensures SplitOnce(before + [c] + after, c) == Some((before, after))
  {
    var s := before + [c] + after;
    if before == "" {
      assert s[1..] == after;
    } else {
      assert s[0] in before && s[1..] == before[1..] + [c] + after;
      SplitOnceAt(before[1..], c, after);
      assert before == [s[0]] + before[1..];
    }
  }

  lemma {:induction false} SplitOnceIff(s: string, c: char)
    ensures SplitOnce(s, c).None? <==> c !in s
    ensures SplitOnce(s, c).Some? ==>
              var (before, after) := SplitOnce(s, c).value;
              s == before + [c] + after && c !in before
  {
    if s != "" {
      SplitOnceIff(s[1..], c);
      assert s == [s[0]] + s[1..];
    }
  }

  /** The text before and after its first `c`. */
  predicate Cut(s: string, c: char, before: string, after: string)
  {
    s == before + [c] + after && c !in before
  }

  lemma SplitOnceCut(s: string, c: char)
    ensures forall before, after :: Cut(s, c, before, after) <==> SplitOnce(s, c) == Some((before, after))
    ensures SplitOnce(s, c).None? <==> c !in s
  {
    SplitOnceIff(s, c);
    forall before, after | Cut(s, c, before, after) ensures SplitOnce(s, c) == Some((before, after)) {
      SplitOnceAt(before, c, after);
    }
  }
}
