/** UUID text as the `uuid` crate prints and reads it: RFC 9562, section 4,
    with the reader's alternative spellings. */
module Uuids {
  import opened Sequences
  import opened Text
  import opened Domain

  predicate IsHexDigit(c: char) { IsDigit(c) || 'a' <= c <= 'f' || 'A' <= c <= 'F' }

  function HexChar(d: int): (c: char)
    requires 0 <= d < 16
    ensures IsHexDigit(c) && !IsUpper(c) && HexValue(c) == d
  {
    if d < 10 then (48 + d) as char else (87 + d) as char
  }

  function HexValue(c: char): (d: int)
    requires IsHexDigit(c)
    ensures 0 <= d < 16
  {
    if IsDigit(c) then c as int - 48 else if IsUpper(c) then c as int - 55 else c as int - 87
  }

  function HexText(digits: seq<int>): (s: string)
    requires forall i :: 0 <= i < |digits| ==> 0 <= digits[i] < 16
    ensures |s| == |digits| && forall i :: 0 <= i < |s| ==> s[i] == HexChar(digits[i])
  {
    seq(|digits|, i requires 0 <= i < |digits| => HexChar(digits[i]))
  }

  /** Lower-case hexadecimal in groups of 8, 4, 4, 4 and 12. */
  function PrintUuid(u: Uuid): (s: string)
    ensures |s| == 36 && forall c :: c in s ==> (IsHexDigit(c) && !IsUpper(c)) || c == '-'
  {
    HexText(u[..8]) + "-" + HexText(u[8..12]) + "-" + HexText(u[12..16]) + "-" + HexText(u[16..20]) + "-"
    + HexText(u[20..])
  }

  function ReadSimple(s: string): (u: Option<Uuid>)
    requires |s| == 32
  {
    if forall i :: 0 <= i < 32 ==> IsHexDigit(s[i]) then
      Some(seq(32, i requires 0 <= i < 32 && IsHexDigit(s[i]) => HexValue(s[i])))
    else None
  }

  function ReadHyphenated(s: string): Option<Uuid>
    requires |s| == 36
  {
    if s[8] == '-' && s[13] == '-' && s[18] == '-' && s[23] == '-' then
      ReadSimple(s[..8] + s[9..13] + s[14..18] + s[19..23] + s[24..])
    else None
  }

  /** `Uuid::parse_str`: 32 digits, the hyphenated form, that form in braces, or
      that form after `urn:uuid:`; either case. */
  function ReadUuid(s: string): Option<Uuid>
  {
    if |s| == 32 then ReadSimple(s)
    else if |s| == 36 then ReadHyphenated(s)
    else if |s| == 38 && s[0] == '{' && s[37] == '}' then ReadHyphenated(s[1..37])
    else if |s| == 45 && s[..9] == "urn:uuid:" then ReadHyphenated(s[9..])
    else None
  }

  lemma ReadPrintUuid(u: Uuid)
    ensures ReadUuid(PrintUuid(u)) == Some(u)
  {
    var s := PrintUuid(u);
    assert s[..8] == HexText(u[..8]) && s[9..13] == HexText(u[8..12]) && s[14..18] == HexText(u[12..16]);
    assert s[19..23] == HexText(u[16..20]) && s[24..] == HexText(u[20..]);
    var digits := s[..8] + s[9..13] + s[14..18] + s[19..23] + s[24..];
    assert forall i :: 0 <= i < 32 ==> digits[i] == HexChar(u[i]);
    assert ReadSimple(digits).value == u;
  }

  /** The hexadecimal digits, by their values, are 0 to 9 and a to f. */
  lemma HexDigits(d: int)
    requires 0 <= d < 16
    ensures HexChar(d) == "0123456789abcdef"[d]
    ensures HexValue("0123456789abcdef"[d]) == d == HexValue("0123456789ABCDEF"[d])
  {
  }

  /** The character is this digit, in either case. */
  predicate IsDigitOf(c: char, d: int)
    requires 0 <= d < 16
  {
    c == "0123456789abcdef"[d] || c == "0123456789ABCDEF"[d]
  }

  lemma HexValueIff(c: char, d: int)
    requires 0 <= d < 16
    ensures IsDigitOf(c, d) <==> IsHexDigit(c) && HexValue(c) == d
  {
    HexDigits(d);
  }

  /** These 32 characters write this UUID's digits, each in either case. */
  predicate Digits(t: string, u: Uuid)
  {
    |t| == 32 && forall i :: 0 <= i < 32 ==> IsDigitOf(t[i], u[i])
  }

  function Hyphenated(t: string): string
    requires |t| == 32
  {
    t[..8] + "-" + t[8..12] + "-" + t[12..16] + "-" + t[16..20] + "-" + t[20..]
  }

  /** One of the four spellings of a UUID. */
  predicate Spells(s: string, t: string, u: Uuid)
  {
    Digits(t, u) && s in [t, Hyphenated(t), "{" + Hyphenated(t) + "}", "urn:uuid:" + Hyphenated(t)]
  }

  lemma ReadSimpleIff(t: string, u: Uuid)
    requires |t| == 32
    ensures ReadSimple(t) == Some(u) <==> Digits(t, u)
  {
    hide HexValue, IsHexDigit, IsDigitOf;
    forall i | 0 <= i < 32 ensures IsDigitOf(t[i], u[i]) <==> IsHexDigit(t[i]) && HexValue(t[i]) == u[i] {
      HexValueIff(t[i], u[i]);
    }
    if ReadSimple(t).Some? {
      assert forall i :: 0 <= i < 32 ==> ReadSimple(t).value[i] == HexValue(t[i]);
    }
    if Digits(t, u) {
      assert ReadSimple(t).value == u;
    }
  }

  lemma HyphensBack(s: string, t: string)
    requires |s| == 36 && s[8] == '-' && s[13] == '-' && s[18] == '-' && s[23] == '-'
    requires t == s[..8] + s[9..13] + s[14..18] + s[19..23] + s[24..]
    ensures s == Hyphenated(t)
  {
    assert t[..8] == s[..8] && t[8..12] == s[9..13] && t[12..16] == s[14..18];
    assert t[16..20] == s[19..23] && t[20..] == s[24..];
    assert s == s[..8] + [s[8]] + s[9..13] + [s[13]] + s[14..18] + [s[18]] + s[19..23] + [s[23]] + s[24..];
  }

  lemma HyphensOut(s: string, t: string)
    requires |t| == 32 && s == Hyphenated(t)
    ensures |s| == 36 && s[8] == '-' && s[13] == '-' && s[18] == '-' && s[23] == '-'
    ensures t == s[..8] + s[9..13] + s[14..18] + s[19..23] + s[24..]
  {
    assert s[..8] == t[..8] && s[9..13] == t[8..12] && s[14..18] == t[12..16];
    assert s[19..23] == t[16..20] && s[24..] == t[20..];
    assert t == t[..8] + t[8..12] + t[12..16] + t[16..20] + t[20..];
  }

  lemma HyphenatedIff(s: string, u: Uuid)
    requires |s| == 36
    ensures ReadHyphenated(s) == Some(u) <==> exists t :: Digits(t, u) && s == Hyphenated(t)
  {
    hide ReadSimple, IsDigitOf, Hyphenated;
    var digits := s[..8] + s[9..13] + s[14..18] + s[19..23] + s[24..];
    ReadSimpleIff(digits, u);
    if ReadHyphenated(s) == Some(u) {
      HyphensBack(s, digits);
    }
    if t :| Digits(t, u) && s == Hyphenated(t) {
      HyphensOut(s, t);
    }
  }

  /** A text reads as a UUID exactly when it is one of its spellings: 32 digits,
      hyphenated, braced, or as a URN. */
  lemma ReadUuidIff(s: string, u: Uuid)
    ensures ReadUuid(s) == Some(u) <==> exists t :: Spells(s, t, u)
  {
    hide ReadSimple, ReadHyphenated, IsDigitOf;
    if |s| == 32 { ReadSimpleIff(s, u); }
    if |s| == 36 { HyphenatedIff(s, u); }
    if |s| == 38 { HyphenatedIff(s[1..37], u); }
    if |s| == 45 { HyphenatedIff(s[9..], u); }
    if ReadUuid(s) == Some(u) {
      if |s| == 32 {
        assert Spells(s, s, u);
      } else if |s| == 36 {
        var t :| Digits(t, u) && s == Hyphenated(t);
        assert Spells(s, t, u);
      } else if |s| == 38 {
        var t :| Digits(t, u) && s[1..37] == Hyphenated(t);
        assert s == "{" + s[1..37] + "}";
        assert Spells(s, t, u);
      } else {
        var t :| Digits(t, u) && s[9..] == Hyphenated(t);
        assert s == "urn:uuid:" + s[9..];
        assert Spells(s, t, u);
      }
    }
    if t :| Spells(s, t, u) {
      assert |s| == 38 ==> s[1..37] == Hyphenated(t);
      assert |s| == 45 ==> s[9..] == Hyphenated(t) && s[..9] == "urn:uuid:";
    }
  }

  lemma PrintUuidInjective(u: Uuid, v: Uuid)
    requires PrintUuid(u) == PrintUuid(v)
    ensures u == v
  {
    ReadPrintUuid(u);
    ReadPrintUuid(v);
  }

  /** No delimiter of a scope is read as part of a UUID. */
  lemma ReadUuidChars(s: string)
    requires ReadUuid(s).Some?
    ensures forall c :: c in s ==> IsHexDigit(c) || c in "-{}urnid:"
  {
    if |s| == 36 {
      HyphenatedChars(s);
    } else if |s| == 38 {
      HyphenatedChars(s[1..37]);
      assert s == [s[0]] + s[1..37] + [s[37]];
    } else if |s| == 45 {
      HyphenatedChars(s[9..]);
      assert s == "urn:uuid:" + s[9..];
    }
  }

  lemma HyphenatedChars(s: string)
    requires |s| == 36 && ReadHyphenated(s).Some?
    ensures forall c :: c in s ==> IsHexDigit(c) || c == '-'
  {
    assert s == s[..8] + "-" + s[9..13] + "-" + s[14..18] + "-" + s[19..23] + "-" + s[24..];
    var digits := s[..8] + s[9..13] + s[14..18] + s[19..23] + s[24..];
    assert forall i :: 0 <= i < 32 ==> IsHexDigit(digits[i]);
    assert forall c :: c in s ==> c in digits || c == '-';
  }
}
