/** Decimal text of integers, as Rust's `Display` prints them and
    `i64::from_str` reads them. */
module Decimals {
  import opened Sequences
  import opened Text
  import opened Domain

  function DigitChar(d: nat): (c: char)
    requires d < 10
    ensures IsDigit(c) && c as int == 48 + d
  {
    (48 + d) as char
  }

  function PrintNat(n: nat): (s: string)
    ensures s != "" && forall i :: 0 <= i < |s| ==> IsDigit(s[i])
  {
    if n < 10 then [DigitChar(n)] else PrintNat(n / 10) + [DigitChar(n % 10)]
  }

  function PrintInt(n: int): string
  {
    if n < 0 then "-" + PrintNat(-n) else PrintNat(n)
  }

  /** The number a run of digits writes; `None` when it is empty or holds another character. */
  function ReadDigits(s: string): Option<nat>
  {
    if s == "" || !IsDigit(s[|s| - 1]) then None
    else
      var last := s[|s| - 1] as int - 48;
      if |s| == 1 then Some(last)
      else match ReadDigits(s[..|s| - 1]) case None => None case Some(n) => Some(10 * n + last)
  }

  /** `i64::from_str`: an optional sign, at least one digit, and a value in range. */
  function ReadInt64(s: string): Option<Int64>
  {
    var negative := s != "" && s[0] == '-';
    var digits := if s != "" && (s[0] == '-' || s[0] == '+') then s[1..] else s;
    match ReadDigits(digits)
    case None => None
    case Some(n) =>
      var value: int := if negative then -(n as int) else n;
      if -0x8000_0000_0000_0000 <= value < 0x8000_0000_0000_0000 then Some(value) else None
  }

  lemma {:induction false} ReadPrintNat(n: nat)
    ensures ReadDigits(PrintNat(n)) == Some(n)
  {
    if n >= 10 {
      ReadPrintNat(n / 10);
    }
  }

  /** Every `i64` prints to a text that reads back as it, made of digits and at most a leading minus. */
  lemma ReadPrintInt(n: Int64)
    ensures ReadInt64(PrintInt(n)) == Some(n)
    ensures forall c :: c in PrintInt(n) ==> IsDigit(c) || c == '-'
  {
    var digits := PrintNat(if n < 0 then -(n as int) else n as int);
    ReadPrintNat(if n < 0 then -(n as int) else n as int);
    hide PrintNat, ReadDigits;
    if n < 0 {
      assert PrintInt(n)[1..] == digits;
    } else {
      assert PrintInt(n) == digits && IsDigit(digits[0]);
    }
  }

  /** What is read is exactly the non-empty runs of digits. */
  lemma {:induction false} ReadDigitsIff(s: string)
    ensures ReadDigits(s).Some? <==> s != "" && forall i :: 0 <= i < |s| ==> IsDigit(s[i])
  {
    if s != "" {
      ReadDigitsIff(s[..|s| - 1]);
    }
  }

  /** Only signs and digits are read. */
  lemma ReadInt64Chars(s: string)
    requires ReadInt64(s).Some?
    ensures forall c :: c in s ==> IsDigit(c) || c == '-' || c == '+'
  {
    var digits := if s[0] == '-' || s[0] == '+' then s[1..] else s;
    ReadDigitsIff(digits);
    assert s == [s[0]] + s[1..];
  }

  function Zeros(k: nat): string { seq(k, _ => '0') }

  lemma {:induction false} ReadPadded(k: nat, n: nat)
    ensures ReadDigits(Zeros(k) + PrintNat(n)) == Some(n)
  {
    var s := Zeros(k) + PrintNat(n);
    if n >= 10 {
      ReadPadded(k, n / 10);
      assert s[..|s| - 1] == Zeros(k) + PrintNat(n / 10);
    } else if k > 0 {
      assert PrintNat(0) == "0";
      ReadPadded(k - 1, 0);
      assert s[..|s| - 1] == Zeros(k - 1) + "0";
    }
  }

  lemma PrintNatSnoc(m: nat, d: nat)
    requires d < 10
    ensures m > 0 ==> PrintNat(10 * m + d) == PrintNat(m) + [DigitChar(d)]
    ensures PrintNat(d) == [DigitChar(d)]
  {
  }

  lemma ReadDigitsSnoc(s: string)
    requires ReadDigits(s).Some?
    ensures s != "" && IsDigit(s[|s| - 1])
    ensures var last := s[|s| - 1] as int - 48;
      if |s| == 1 then ReadDigits(s) == Some(last)
      else ReadDigits(s[..|s| - 1]).Some? && ReadDigits(s) == Some(10 * ReadDigits(s[..|s| - 1]).value + last)
  {
  }

  lemma {:induction false} ReadIsPadded(s: string) returns (k: nat)
    requires ReadDigits(s).Some?
    ensures s == Zeros(k) + PrintNat(ReadDigits(s).value)
  {
    ReadDigitsSnoc(s);
    hide ReadDigits, PrintNat;
    var front, last: nat := s[..|s| - 1], s[|s| - 1] as int - 48;
    assert s == front + [DigitChar(last)];
    k := 0;
    PrintNatSnoc(0, last);
    if |s| > 1 {
      k := ReadIsPadded(front);
      var m := ReadDigits(front).value;
      PrintNatSnoc(m, last);
      if m == 0 {
        PrintNatSnoc(0, 0);
        assert front == Zeros(k + 1);
        k := k + 1;
      }
    }
  }

  /** The sign, the leading zeros and the digits of a number. */
  predicate SpellsInt(s: string, n: int, sign: string, zeros: nat)
  {
    && s == sign + Zeros(zeros) + PrintNat(if n < 0 then -n else n)
    && (sign == "-" ==> n <= 0) && (sign != "-" ==> n >= 0)
    && sign in ["", "+", "-"]
  }

  /** A text reads as an `i64` exactly when it is that number's digits after any
      leading zeros and a sign, which only a negative number needs. */
  lemma ReadInt64Iff(s: string, n: Int64)
    ensures ReadInt64(s) == Some(n) <==> exists sign, zeros :: SpellsInt(s, n, sign, zeros)
  {
    hide ReadDigits, PrintNat, Zeros;
    if ReadInt64(s) == Some(n) {
      var sign, digits := SignAndDigits(s);
      var k := ReadIsPadded(digits);
      assert SpellsInt(s, n, sign, k);
    }
    if sign: string, zeros: nat :| SpellsInt(s, n, sign, zeros) {
      SpelledReads(s, n, sign, zeros);
    }
  }

  lemma SignAndDigits(s: string) returns (sign: string, digits: string)
    requires ReadInt64(s).Some?
    ensures s == sign + digits && sign in ["", "+", "-"]
    ensures ReadDigits(digits).Some?
    ensures var n: int := ReadDigits(digits).value;
      ReadInt64(s).value as int == if sign == "-" then -n else n
  {
    hide ReadDigits;
    if s != "" && (s[0] == '-' || s[0] == '+') {
      sign, digits := [s[0]], s[1..];
    } else {
      sign, digits := "", s;
    }
  }

  lemma SpelledReads(s: string, n: Int64, sign: string, zeros: nat)
    requires SpellsInt(s, n, sign, zeros)
    ensures ReadInt64(s) == Some(n)
  {
    var m: nat := if n < 0 then -(n as int) else n;
    ReadPadded(zeros, m);
    ReadSigned(sign, Zeros(zeros) + PrintNat(m), m);
    hide ReadDigits, PrintNat, Zeros, ReadInt64;
    assert s == sign + (Zeros(zeros) + PrintNat(m));
  }

  lemma ReadSigned(sign: string, digits: string, m: nat)
    requires ReadDigits(digits) == Some(m) && sign in ["", "+", "-"]
    requires m < 0x8000_0000_0000_0000 || (sign == "-" && m == 0x8000_0000_0000_0000)
    ensures ReadInt64(sign + digits) == Some(if sign == "-" then -(m as int) else m)
  {
    ReadDigitsIff(digits);
    hide ReadDigits;
    var s := sign + digits;
    if sign == "" {
      assert s == digits;
    } else {
      assert s[1..] == digits;
    }
  }

  /** The digits by their values, most significant first. */
  lemma PrintNatDigits()
    ensures PrintNat(1234567890) == "1234567890"
  {
    assert PrintNat(12345) == "12345";
  }

  function PowerOfTen(k: nat): nat
  {
    if k == 0 then 1 else 10 * PowerOfTen(k - 1)
  }

  lemma {:induction false} PowerOfTenSum(a: nat, b: nat)
    ensures PowerOfTen(a + b) == PowerOfTen(a) * PowerOfTen(b)
  {
    if b > 0 {
      PowerOfTenSum(a, b - 1);
      assert PowerOfTen(a + b) == 10 * PowerOfTen(a + b - 1);
    }
  }

  /** Exactly the numbers below 10^k print in at most k digits. */
  lemma {:induction false} PrintNatLength(n: nat, k: nat)
    requires k > 0
    ensures |PrintNat(n)| >= 1
    ensures |PrintNat(n)| <= k <==> n < PowerOfTen(k)
  {
    if n >= 10 && k > 1 {
      PrintNatLength(n / 10, k - 1);
    } else if n >= 10 {
      assert PowerOfTen(1) == 10;
      assert |PrintNat(n / 10)| >= 1;
    } else {
      PowerOfTenGrows(k);
    }
  }

  lemma {:induction false} PowerOfTenGrows(k: nat)
    requires k > 0
    ensures PowerOfTen(k) >= 10
  {
    if k > 1 {
      PowerOfTenGrows(k - 1);
    }
  }

  /** An `i64` takes at most 20 characters, and the least one takes that many. */
  lemma PrintInt64Length(n: Int64)
    ensures 1 <= |PrintInt(n)| <= 20
    ensures n == -0x8000_0000_0000_0000 ==> |PrintInt(n)| == 20
  {
    assert PowerOfTen(1) == 10 && PowerOfTen(2) == 100 && PowerOfTen(3) == 1000;
    PowerOfTenSum(3, 3);
    PowerOfTenSum(6, 3);
    PowerOfTenSum(9, 9);
    PowerOfTenSum(18, 1);
    hide PowerOfTen;
    PrintNatLength(if n < 0 then -(n as int) else n as int, 19);
    PrintNatLength(0x8000_0000_0000_0000, 18);
    hide PrintNat;
  }
}
