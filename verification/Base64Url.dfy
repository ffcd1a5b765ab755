/** Unpadded base64url: sections 3.2, 3.5 and 5 of RFC 4648, as the `base64`
    crate's URL_SAFE_NO_PAD engine reads and writes it. */
module Base64Url {
  import opened Sequences
  import opened Text
  import opened Domain

  predicate IsBase64Char(c: char) { IsLetter(c) || IsDigit(c) || c == '-' || c == '_' }

  function CharOf(v: int): (c: char)
    requires 0 <= v < 64
    ensures IsBase64Char(c) && ValueOf(c) == v
  {
    if v < 26 then (65 + v) as char
    else if v < 52 then (71 + v) as char
    else if v < 62 then (v - 4) as char
    else if v == 62 then '-'
    else '_'
  }

  function ValueOf(c: char): (v: int)
    requires IsBase64Char(c)
    ensures 0 <= v < 64
  {
    if IsUpper(c) then c as int - 65
    else if IsLower(c) then c as int - 71
    else if IsDigit(c) then c as int + 4
    else if c == '-' then 62
    else 63
  }

  /** The four 6-bit groups of three bytes. */
  function Sextet0(a: Byte): (v: int) ensures 0 <= v < 64 { a / 4 }
  function Sextet1(a: Byte, b: Byte): (v: int) ensures 0 <= v < 64 { a % 4 * 16 + b / 16 }
  function Sextet2(b: Byte, c: Byte): (v: int) ensures 0 <= v < 64 { b % 16 * 4 + c / 64 }
  function Sextet3(c: Byte): (v: int) ensures 0 <= v < 64 { c % 64 }

  /** The three bytes of four 6-bit groups. */
  function Byte0(v0: int, v1: int): Byte requires 0 <= v0 < 64 && 0 <= v1 < 64 { v0 * 4 + v1 / 16 }
  function Byte1(v1: int, v2: int): Byte requires 0 <= v1 < 64 && 0 <= v2 < 64 { v1 % 16 * 16 + v2 / 4 }
  function Byte2(v2: int, v3: int): Byte requires 0 <= v2 < 64 && 0 <= v3 < 64 { v2 % 4 * 64 + v3 }

  lemma Packed(a: Byte, b: Byte, c: Byte)
    ensures Byte0(Sextet0(a), Sextet1(a, b)) == a && Byte1(Sextet1(a, b), Sextet2(b, c)) == b
    ensures Byte2(Sextet2(b, c), Sextet3(c)) == c
    ensures Sextet1(a, 0) % 16 == 0 && Sextet2(b, 0) % 4 == 0
  {
  }

  lemma Unpacked(v0: int, v1: int, v2: int, v3: int)
    requires 0 <= v0 < 64 && 0 <= v1 < 64 && 0 <= v2 < 64 && 0 <= v3 < 64
    ensures Sextet0(Byte0(v0, v1)) == v0 && Sextet1(Byte0(v0, v1), Byte1(v1, v2)) == v1
    ensures Sextet2(Byte1(v1, v2), Byte2(v2, v3)) == v2 && Sextet3(Byte2(v2, v3)) == v3
    ensures v1 % 16 == 0 ==> Sextet1(Byte0(v0, v1), 0) == v1
    ensures v2 % 4 == 0 ==> Sextet2(Byte1(v1, v2), 0) == v2
  {
  }

  function Encode(b: seq<Byte>): string
  {
    if b == [] then ""
    else if |b| == 1 then [CharOf(Sextet0(b[0])), CharOf(Sextet1(b[0], 0))]
    else if |b| == 2 then [CharOf(Sextet0(b[0])), CharOf(Sextet1(b[0], b[1])), CharOf(Sextet2(b[1], 0))]
    else
      [CharOf(Sextet0(b[0])), CharOf(Sextet1(b[0], b[1])), CharOf(Sextet2(b[1], b[2])), CharOf(Sextet3(b[2]))]
      + Encode(b[3..])
  }

  /** Refuses a character outside the alphabet (so any padding), a lone last
      character, and spare bits that are not zero. */
  function Decode(s: string): Option<seq<Byte>>
  {
    if s == "" then Some([])
    else if |s| == 1 || !IsBase64Char(s[0]) || !IsBase64Char(s[1]) then None
    else
      var v0, v1 := ValueOf(s[0]), ValueOf(s[1]);
      if |s| == 2 then
        if v1 % 16 == 0 then Some([Byte0(v0, v1)]) else None
      else if !IsBase64Char(s[2]) then None
      else
        var v2 := ValueOf(s[2]);
        if |s| == 3 then
          if v2 % 4 == 0 then Some([Byte0(v0, v1), Byte1(v1, v2)]) else None
        else if !IsBase64Char(s[3]) then None
        else
          match Decode(s[4..])
          case None => None
          case Some(rest) => Some([Byte0(v0, v1), Byte1(v1, v2), Byte2(v2, ValueOf(s[3]))] + rest)
  }

  lemma {:induction false} EncodeShape(b: seq<Byte>)
    ensures |Encode(b)| == (4 * |b| + 2) / 3
    ensures forall c :: c in Encode(b) ==> IsBase64Char(c)
  {
    if |b| >= 3 {
      EncodeShape(b[3..]);
    }
  }

  /** The table of section 5 of RFC 4648: upper case, lower case and digits in
      order, then `-` and `_`. */
  lemma Alphabet()
    ensures CharOf(0) == 'A' && CharOf(25) == 'Z' && CharOf(26) == 'a' && CharOf(51) == 'z'
    ensures CharOf(52) == '0' && CharOf(61) == '9' && CharOf(62) == '-' && CharOf(63) == '_'
    ensures forall v, w :: 0 <= v < 61 && v !in {25, 51} && w == v + 1 ==> CharOf(w) as int == CharOf(v) as int + 1
  {
  }

  /** In base 64 these four characters write the number that these three bytes write. */
  ghost predicate Writes(s: string, a: int, b: int, c: int)
  {
    exists v0: int, v1: int, v2: int, v3: int ::
      && 0 <= v0 < 64 && 0 <= v1 < 64 && 0 <= v2 < 64 && 0 <= v3 < 64
      && s == [CharOf(v0), CharOf(v1), CharOf(v2), CharOf(v3)]
      && ((v0 * 64 + v1) * 64 + v2) * 64 + v3 == (a * 256 + b) * 256 + c
  }

  /** Each three bytes are written as one number; one or two last bytes as if
      zeros followed, without the characters that only zeros make. */
  ghost predicate IsEncoding(s: string, b: seq<Byte>)
    decreases |b|
  {
    if |b| == 0 then s == ""
    else if |b| == 1 then Writes(s + "AA", b[0], 0, 0)
    else if |b| == 2 then Writes(s + "A", b[0], b[1], 0)
    else |s| >= 4 && Writes(s[..4], b[0], b[1], b[2]) && IsEncoding(s[4..], b[3..])
  }

  function Group(a: Byte, b: Byte, c: Byte): string
  {
    [CharOf(Sextet0(a)), CharOf(Sextet1(a, b)), CharOf(Sextet2(b, c)), CharOf(Sextet3(c))]
  }

  lemma GroupWrites(a: Byte, b: Byte, c: Byte)
    ensures Writes(Group(a, b, c), a, b, c)
  {
    hide CharOf;
    var v0, v1, v2, v3 := Sextet0(a), Sextet1(a, b), Sextet2(b, c), Sextet3(c);
    var n: int := (a as int * 256 + b as int) * 256 + c as int;
    assert n == ((v0 * 64 + v1) * 64 + v2) * 64 + v3;
  }

  lemma ZeroSextets()
    ensures CharOf(Sextet2(0, 0)) == 'A' && CharOf(Sextet3(0)) == 'A'
  {
  }

  lemma EncodeGroups(b: seq<Byte>)
    requires b != []
    ensures |b| == 1 ==> Encode(b) + "AA" == Group(b[0], 0, 0)
    ensures |b| == 2 ==> Encode(b) + "A" == Group(b[0], b[1], 0)
    ensures |b| >= 3 ==> Encode(b) == Group(b[0], b[1], b[2]) + Encode(b[3..])
  {
    ZeroSextets();
    hide CharOf, Sextet0, Sextet1, Sextet2, Sextet3;
    if |b| == 1 {
      assert Encode(b) == [CharOf(Sextet0(b[0])), CharOf(Sextet1(b[0], 0))];
      hide Encode;
    } else if |b| == 2 {
      assert Encode(b) == [CharOf(Sextet0(b[0])), CharOf(Sextet1(b[0], b[1])), CharOf(Sextet2(b[1], 0))];
      hide Encode;
    }
  }

  /** The encoding writes the bytes in base 64. */
  lemma {:induction false} EncodeWrites(b: seq<Byte>)
    ensures IsEncoding(Encode(b), b)
  {
    hide CharOf, Sextet0, Sextet1, Sextet2, Sextet3, Writes;
    if b != [] {
      EncodeGroups(b);
      hide Encode, Group;
      var group := Group(b[0], if |b| > 1 then b[1] else 0, if |b| > 2 then b[2] else 0);
      GroupWrites(b[0], if |b| > 1 then b[1] else 0, if |b| > 2 then b[2] else 0);
      if |b| >= 3 {
        EncodeWrites(b[3..]);
        assert Encode(b)[..4] == group && Encode(b)[4..] == Encode(b[3..]);
      }
    }
  }

  lemma {:induction false} DecodeEncode(b: seq<Byte>)
    ensures Decode(Encode(b)) == Some(b)
  {
    hide Sextet0, Sextet1, Sextet2, Sextet3, Byte0, Byte1, Byte2, CharOf, IsBase64Char;
    if b != [] {
      Packed(b[0], if |b| > 1 then b[1] else 0, if |b| > 2 then b[2] else 0);
      if |b| >= 3 {
        DecodeEncode(b[3..]);
        assert Encode(b)[4..] == Encode(b[3..]);
        assert b == [b[0], b[1], b[2]] + b[3..];
      } else if |b| == 2 {
        assert Decode(Encode(b)).value == [b[0], b[1]] == b;
      } else {
        assert Decode(Encode(b)).value == [b[0]] == b;
      }
    }
  }

  /** A text decodes to some bytes exactly when it is their encoding: no two
      spellings of one digest are accepted. */
  lemma DecodeIff(s: string, b: seq<Byte>)
    ensures Decode(s) == Some(b) <==> s == Encode(b)
  {
    DecodeEncode(b);
    if Decode(s) == Some(b) {
      DecodeCanonical(s);
    }
  }

  lemma ValueOfChar(c: char)
    requires IsBase64Char(c)
    ensures CharOf(ValueOf(c)) == c
  {
  }

  lemma {:induction false} DecodeCanonical(s: string)
    requires Decode(s).Some?
    ensures Encode(Decode(s).value) == s
  {
    hide Sextet0, Sextet1, Sextet2, Sextet3, Byte0, Byte1, Byte2, CharOf, ValueOf, IsBase64Char;
    if s != "" {
      ValueOfChar(s[0]);
      ValueOfChar(s[1]);
      if |s| == 2 {
        Unpacked(ValueOf(s[0]), ValueOf(s[1]), 0, 0);
      } else {
        ValueOfChar(s[2]);
        if |s| == 3 {
          Unpacked(ValueOf(s[0]), ValueOf(s[1]), ValueOf(s[2]), 0);
        } else {
          ValueOfChar(s[3]);
          Unpacked(ValueOf(s[0]), ValueOf(s[1]), ValueOf(s[2]), ValueOf(s[3]));
          DecodeCanonical(s[4..]);
          assert Decode(s).value[3..] == Decode(s[4..]).value;
          assert s == [s[0], s[1], s[2], s[3]] + s[4..];
        }
      }
    }
  }
}
