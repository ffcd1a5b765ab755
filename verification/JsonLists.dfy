/** String lists as JSON arrays, the way `serde_json` writes and reads them: the
    text the list columns of `parsed_candidates` hold. */
module JsonLists {
  import opened Sequences
  import opened Uuids

  // ---------- writing ----------

  function EscapeChar(c: char): string
  {
    if c == '"' then "\\\""
    else if c == '\\' then "\\\\"
    else if c == 8 as char then "\\b"
    else if c == '\t' then "\\t"
    else if c == '\n' then "\\n"
    else if c == 12 as char then "\\f"
    else if c == '\r' then "\\r"
    else if c < ' ' then "\\u00" + [HexChar(c as int / 16), HexChar(c as int % 16)]
    else [c]
  }

  function Escape(s: string): string
  {
    if s == "" then "" else EscapeChar(s[0]) + Escape(s[1..])
  }

  function EncodeString(s: string): string { "\"" + Escape(s) + "\"" }

  function EncodeList(xs: seq<string>): string { "[" + Join(Map(EncodeString, xs), ",") + "]" }

  // ---------- reading ----------

  predicate IsJsonSpace(c: char) { c == ' ' || c == '\t' || c == '\n' || c == '\r' }

  function SkipSpace(s: string): (t: string)
    ensures |t| <= |s|
    ensures s != "" && !IsJsonSpace(s[0]) ==> t == s
  {
    if s != "" && IsJsonSpace(s[0]) then SkipSpace(s[1..]) else s
  }

  /** The number four hexadecimal digits write. */
  function ReadHex4(s: string): (n: Option<nat>)
    ensures n.Some? ==> |s| >= 4 && n.value < 0x1_0000
  {
    if |s| >= 4 && IsHexDigit(s[0]) && IsHexDigit(s[1]) && IsHexDigit(s[2]) && IsHexDigit(s[3]) then
      Some(HexValue(s[0]) * 4096 + HexValue(s[1]) * 256 + HexValue(s[2]) * 16 + HexValue(s[3]))
    else None
  }

  /** The character a `\u` escape stands for, pairing surrogates. */
  function ReadUnicode(s: string): (r: Option<(char, string)>)
    ensures r.Some? ==> |r.value.1| < |s|
  {
    match ReadHex4(s)
    case None => None
    case Some(n) =>
      if n < 0xD800 || n >= 0xE000 then Some((n as char, s[4..]))
      else if n >= 0xDC00 || |s| < 6 || s[4] != '\\' || s[5] != 'u' then None
      else
        match ReadHex4(s[6..])
        case None => None
        case Some(m) =>
          if 0xDC00 <= m < 0xE000 then
            Some(((0x1_0000 + (n - 0xD800) * 0x400 + (m - 0xDC00)) as char, s[10..]))
          else None
  }

  /** The character an escape stands for, after its backslash. */
  function ReadEscape(s: string): (r: Option<(char, string)>)
    ensures r.Some? ==> |r.value.1| < |s|
  {
    if s == "" then None
    else
      match s[0]
      case '"' => Some(('"', s[1..]))
      case '\\' => Some(('\\', s[1..]))
      case '/' => Some(('/', s[1..]))
      case 'b' => Some((8 as char, s[1..]))
      case 'f' => Some((12 as char, s[1..]))
      case 'n' => Some(('\n', s[1..]))
      case 'r' => Some(('\r', s[1..]))
      case 't' => Some(('\t', s[1..]))
      case 'u' => ReadUnicode(s[1..])
      case _ => None
  }

  /** The rest of a string literal after its opening quote, and what follows it. */
  function ReadString(s: string): (r: Option<(string, string)>)
    ensures r.Some? ==> |r.value.1| < |s|
    decreases |s|
  {
    if s == "" || s[0] < ' ' then None
    else if s[0] == '"' then Some(("", s[1..]))
    else
      var next := if s[0] == '\\' then ReadEscape(s[1..]) else Some((s[0], s[1..]));
      match next
      case None => None
      case Some((c, rest)) =>
        match ReadString(rest)
        case None => None
        case Some((value, after)) => Some(([c] + value, after))
  }

  /** One or more elements and the closing bracket. */
  function ReadElements(s: string): Option<(seq<string>, string)>
    decreases |s|
  {
    var t := SkipSpace(s);
    if t == "" || t[0] != '"' then None
    else
      match ReadString(t[1..])
      case None => None
      case Some((x, rest)) =>
        var u := SkipSpace(rest);
        if u == "" then None
        else if u[0] == ']' then Some(([x], u[1..]))
        else if u[0] != ',' then None
        else
          match ReadElements(u[1..])
          case None => None
          case Some((xs, after)) => Some(([x] + xs, after))
  }

  function ReadArray(s: string): Option<(seq<string>, string)>
  {
    var t := SkipSpace(s);
    if t == "" || t[0] != '[' then None
    else
      var u := SkipSpace(t[1..]);
      if u != "" && u[0] == ']' then Some(([], u[1..])) else ReadElements(u)
  }

  /** A text that is not an array of strings reads as no strings at all. */
  function DecodeList(s: string): seq<string>
  {
    match ReadArray(s)
    case None => []
    case Some((xs, rest)) => if SkipSpace(rest) == "" then xs else []
  }

  // ---------- round trip ----------

  lemma ReadEscapedChar(c: char, rest: string)
    ensures var s := EscapeChar(c) + rest;
      && s[0] >= ' ' && s[0] != '"'
      && (s[0] == '\\' ==> ReadEscape(s[1..]) == Some((c, rest)))
      && (s[0] != '\\' ==> s[0] == c && s[1..] == rest)
  {
    var s := EscapeChar(c) + rest;
    if c < ' ' && s[1] == 'u' {
      var hex := s[2..];
      assert hex[..4] == ['0', '0', HexChar(c as int / 16), HexChar(c as int % 16)];
      assert hex[0] == hex[..4][0] && hex[1] == hex[..4][1] && hex[2] == hex[..4][2] && hex[3] == hex[..4][3];
      assert hex[4..] == rest && s[1..][1..] == hex;
    } else if s[0] == '\\' {
      assert s[1..][1..] == rest;
    }
  }

  lemma {:induction false} ReadEscaped(s: string, rest: string)
    ensures ReadString(Escape(s) + ['"'] + rest) == Some((s, rest))
  {
    hide EscapeChar, ReadEscape;
    if s == "" {
      assert Escape(s) + ['"'] + rest == ['"'] + rest;
    } else {
      var later := Escape(s[1..]) + ['"'] + rest;
      ReadEscaped(s[1..], rest);
      ReadEscapedChar(s[0], later);
      assert Escape(s) + ['"'] + rest == EscapeChar(s[0]) + later;
      assert s == [s[0]] + s[1..];
    }
  }

  lemma LastElement(x: string, rest: string)
    ensures ReadElements(EncodeString(x) + [']'] + rest) == Some(([x], rest))
  {
    hide ReadString, Escape;
    var s := EncodeString(x) + [']'] + rest;
    ReadEscaped(x, [']'] + rest);
    assert s[1..] == Escape(x) + ['"'] + ([']'] + rest);
  }

  lemma NextElement(x: string, later: string, xs: seq<string>, rest: string)
    requires ReadElements(later) == Some((xs, rest))
    ensures ReadElements(EncodeString(x) + "," + later) == Some(([x] + xs, rest))
  {
    hide ReadString, Escape;
    var s := EncodeString(x) + "," + later;
    ReadEscaped(x, [','] + later);
    assert s[1..] == Escape(x) + ['"'] + ([','] + later);
  }

  lemma {:induction false} ReadEncodedElements(xs: seq<string>, rest: string)
    requires xs != []
    ensures ReadElements(Join(Map(EncodeString, xs), ",") + [']'] + rest) == Some((xs, rest))
  {
    hide ReadElements, EncodeString;
    var texts, x := Map(EncodeString, xs), xs[0];
    if |xs| == 1 {
      assert texts == [EncodeString(x)] && xs == [x];
      LastElement(x, rest);
    } else {
      var later := Join(Map(EncodeString, xs[1..]), ",") + [']'] + rest;
      ReadEncodedElements(xs[1..], rest);
      assert texts[1..] == Map(EncodeString, xs[1..]);
      assert Join(texts, ",") + [']'] + rest == EncodeString(x) + "," + later;
      NextElement(x, later, xs[1..], rest);
      assert xs == [x] + xs[1..];
    }
  }

  /** What is written is read back, whatever characters the strings hold. */
  lemma DecodeEncodeList(xs: seq<string>)
    ensures DecodeList(EncodeList(xs)) == xs
  {
    hide ReadElements, Escape;
    var s := EncodeList(xs);
    if xs == [] {
      assert s == "[]";
    } else {
      ReadEncodedElements(xs, "");
      var inner := Join(Map(EncodeString, xs), ",") + [']'];
      assert inner + "" == inner && s[1..] == inner;
      assert Map(EncodeString, xs)[0][0] == '"';
      assert Join(Map(EncodeString, xs), ",")[0] == '"';
    }
  }

  /** Two lists as written, and two texts that are not lists. */
  lemma JsonExamples()
    ensures EncodeList([]) == "[]" && EncodeList(["a", "\"\n"]) == "[\"a\",\"\\\"\\n\"]"
    ensures DecodeList("") == [] && DecodeList("[\"a\"") == []
  {
    EscapeExamples();
    UnclosedList();
    hide Escape, EscapeChar, DecodeList;
    assert EncodeString("a") == "\"a\"" && EncodeString("\"\n") == "\"\\\"\\n\"";
    hide EncodeString;
    var texts := Map(EncodeString, ["a", "\"\n"]);
    assert texts == [EncodeString("a"), EncodeString("\"\n")] && texts[1..] == [EncodeString("\"\n")];
    assert Join(texts, ",") == texts[0] + "," + texts[1];
    assert Map(EncodeString, []) == [];
  }

  lemma EscapeExamples()
    ensures Escape("a") == "a" && Escape("\"\n") == "\\\"\\n"
  {
    assert Escape("") == "";
    assert "\"\n"[1..] == "\n" && "\n"[1..] == "" && "a"[1..] == "";
    assert Escape("\n") == "\\n" + "";
  }

  lemma UnclosedList()
    ensures DecodeList("") == [] && DecodeList("[\"a\"") == []
  {
    EscapeExamples();
    ReadEscaped("a", "");
    assert "a" + ['"'] + "" == "a\"";
    hide Escape, ReadString;
    var s := "[\"a\"";
    assert s[1..] == "\"a\"" && s[1..][1..] == "a\"";
  }
}
