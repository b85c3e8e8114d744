/** Numbers as text: the shell's validators and the C library's strtoul with base 0. */
module Numerals {
  import opened Common

  predicate IsDecimal(c: char) {
    '0' <= c <= '9'
  }

  /** Value of a digit or letter; 36 for anything else. */
  function Digit(c: char): (d: nat)
    ensures d <= 36
    ensures d < 10 <==> IsDecimal(c)
  {
    if '0' <= c <= '9' then c as int - '0' as int
    else if 'a' <= c <= 'z' then c as int - 'a' as int + 10
    else if 'A' <= c <= 'Z' then c as int - 'A' as int + 10
    else 36
  }

  predicate AllDigits(s: string, base: nat) {
    forall i | 0 <= i < |s| :: Digit(s[i]) < base
  }

  /** The number a digit string stands for. */
  function Value(s: string, base: nat): nat {
    if s == "" then 0 else Value(s[..|s| - 1], base) * base + Digit(s[|s| - 1])
  }

  /** A decimal number without needless leading zeros. */
  predicate Canonical(s: string) {
    s != "" && AllDigits(s, 10) && (|s| > 1 ==> s[0] != '0')
  }

  function Decimal(s: string): nat {
    Value(s, 10)
  }

  // ------------------------------------------------------------------- the shell's validators

  predicate ValidUint(s: string, minimum: nat, maximum: nat) {
    Canonical(s) && |s| <= 10 && minimum <= Decimal(s) <= maximum
  }

  /** The validator as written, with its zero-stripping loop (which has nothing left to strip). */
  method ValidUintRange(s: string, minimum: nat, maximum: nat) returns (ok: bool)
    ensures ok <==> ValidUint(s, minimum, maximum)
  {
    var i := 0;
    while i < |s|
      invariant 0 <= i <= |s| && AllDigits(s[..i], 10)
    {
      if !IsDecimal(s[i]) {
        assert !AllDigits(s, 10);
        return false;
      }
      i := i + 1;
    }
    assert s[..i] == s;
    if s == "" || (|s| > 1 && s[0] == '0') { return false; }
    if |s| > 10 { return false; }
    var normalized := s;
    while |normalized| > 1 && normalized[0] == '0'
      invariant normalized != "" && Decimal(normalized) == Decimal(s)
      decreases |normalized|
    {
      DropZero(normalized, 10);
      normalized := normalized[1..];
    }
    var number := ReadDecimal(normalized);
    ok := minimum <= number <= maximum;
  }

  lemma {:induction false} DropZero(s: string, base: nat)
    requires |s| > 1 && s[0] == '0'
    ensures Value(s[1..], base) == Value(s, base)
  {
    var init := s[..|s| - 1];
    assert s[1..][..|s| - 2] == init[1..];
    if |s| > 2 {
      DropZero(init, base);
    } else {
      assert init == "0" && init[..0] == "";
      assert Value("", base) == 0 && Value(init, base) == Value(init[..0], base) * base + Digit(init[0]) == 0;
    }
  }

  /** Shell arithmetic on a decimal number. */
  method ReadDecimal(s: string) returns (n: nat)
    ensures n == Decimal(s)
  {
    n := 0;
    var i := 0;
    while i < |s|
      invariant 0 <= i <= |s| && n == Decimal(s[..i])
    {
      assert s[..i + 1][..i] == s[..i];
      n := n * 10 + Digit(s[i]);
      i := i + 1;
    }
    assert s[..i] == s;
  }

  predicate HexPrefixed(s: string) {
    |s| >= 2 && s[0] == '0' && (s[1] == 'x' || s[1] == 'X')
  }

  /** What a 32-bit option stands for. */
  function Number32(s: string): nat {
    if HexPrefixed(s) then Value(s[2..], 16) else Decimal(s)
  }

  const U32_MAX := 0xFFFF_FFFF

  predicate ValidU32(s: string) {
    if HexPrefixed(s) then 1 <= |s| - 2 <= 8 && AllDigits(s[2..], 16) && Number32(s) > 0
    else Canonical(s) && |s| <= 10 && 0 < Number32(s) <= U32_MAX
  }

  lemma {:induction false} ValueBound(s: string, base: nat)
    requires base > 1 && AllDigits(s, base)
    ensures Value(s, base) < Power(base, |s|)
  {
    if s != "" {
      var init, d := s[..|s| - 1], Digit(s[|s| - 1]);
      ValueBound(init, base);
      ShiftIn(Value(init, base), Power(base, |init|), base, d);
    }
  }

  lemma ShiftIn(v: nat, p: nat, base: nat, d: nat)
    requires v < p && d < base
    ensures v * base + d < p * base
  {
    MulMono(base, v + 1, p);
    assert (v + 1) * base == v * base + base;
  }

  lemma MulMono(n: nat, x: nat, y: nat)
    requires x <= y
    ensures x * n <= y * n
  {
  }

  function Power(base: nat, n: nat): nat {
    if n == 0 then 1 else Power(base, n - 1) * base
  }

  lemma {:induction false} PowerMono(base: nat, m: nat, n: nat)
    requires base > 0 && m <= n
    ensures Power(base, m) <= Power(base, n)
    ensures Power(base, m) > 0
    decreases n
  {
    if m < n {
      PowerMono(base, m, n - 1);
      MulMono(Power(base, n - 1), 1, base);
    } else if m > 0 {
      PowerMono(base, m - 1, m - 1);
    }
  }

  /** Eight hexadecimal digits fit 32 bits. */
  lemma {:induction false} ValidU32Range(s: string)
    requires ValidU32(s)
    ensures 0 < Number32(s) <= U32_MAX
  {
    if HexPrefixed(s) {
      ValueBound(s[2..], 16);
      PowerMono(16, |s| - 2, 8);
      assert Power(16, 4) == 0x10000 && Power(16, 8) == 0x1_0000_0000;
    }
  }

  // ------------------------------------------------------------------- strtoul with base 0

  predicate IsSpace(c: char) {
    c == ' ' || '\t' <= c <= '\r'
  }

  function SkipSpace(s: string, i: nat): (j: nat)
    requires i <= |s|
    ensures i <= j <= |s|
    decreases |s| - i
  {
    if i < |s| && IsSpace(s[i]) then SkipSpace(s, i + 1) else i
  }

  function DigitsEnd(s: string, i: nat, base: nat): (j: nat)
    requires i <= |s|
    ensures i <= j <= |s| && AllDigits(s[i..j], base)
    decreases |s| - i
  {
    if i < |s| && Digit(s[i]) < base then DigitsEnd(s, i + 1, base) else i
  }

  /** Value and end position. With no digits at all the end is 0. Values beyond `max` saturate; a
      minus sign negates modulo max + 1. "0x" counts as a prefix only before a hexadecimal digit. */
  function Strtoul(s: string, max: nat): (r: (nat, nat))
    ensures r.1 <= |s|
  {
    var i := SkipSpace(s, 0);
    var negative := i < |s| && s[i] == '-';
    var j := if i < |s| && (s[i] == '-' || s[i] == '+') then i + 1 else i;
    var hex := j + 2 < |s| && s[j] == '0' && (s[j + 1] == 'x' || s[j + 1] == 'X') && Digit(s[j + 2]) < 16;
    var base := if hex then 16 else if j < |s| && s[j] == '0' then 8 else 10;
    var from := if hex then j + 2 else j;
    var to := DigitsEnd(s, from, base);
    if to == from then (0, 0)
    else
      var v := Value(s[from..to], base);
      (if v > max then max else if negative && v > 0 then max + 1 - v else v, to)
  }

  lemma {:induction false} DigitsEndIsAll(s: string, i: nat, base: nat)
    requires i <= |s| && AllDigits(s[i..], base)
    ensures DigitsEnd(s, i, base) == |s|
    decreases |s| - i
  {
    if i < |s| {
      assert s[i..][0] == s[i] && s[i + 1..] == s[i..][1..];
      DigitsEndIsAll(s, i + 1, base);
    }
  }

  /** A canonical decimal is read in base ten, never as octal, to its very end. */
  lemma {:induction false} ReadsCanonical(s: string, max: nat)
    requires Canonical(s) && Decimal(s) <= max
    ensures Strtoul(s, max) == (Decimal(s), |s|)
  {
    assert IsDecimal(s[0]) && SkipSpace(s, 0) == 0;
    assert s[0..] == s && s[0..|s|] == s;
    if s[0] == '0' {
      assert s == "0" && DigitsEnd(s, 1, 8) == 1 && DigitsEnd(s, 0, 8) == 1;
      assert s[..0] == "" && Value("", 8) == 0 && Value("", 10) == 0;
      assert Value(s, 8) == 0 && Value(s, 10) == 0;
    } else {
      DigitsEndIsAll(s, 0, 10);
    }
  }

  /** Everything the 32-bit validator accepts is read with the same value, to its very end. */
  lemma {:induction false} ReadsValidU32(s: string, max: nat)
    requires ValidU32(s) && max >= U32_MAX
    ensures Strtoul(s, max) == (Number32(s), |s|)
  {
    ValidU32Range(s);
    if HexPrefixed(s) {
      assert SkipSpace(s, 0) == 0;
      assert s[2..][0] == s[2];
      DigitsEndIsAll(s, 2, 16);
      assert s[2..|s|] == s[2..];
    } else {
      ReadsCanonical(s, max);
    }
  }

  /** Nothing but zeros before the last character. */
  predicate ZerosBeforeLast(s: string) {
    forall i | 0 <= i < |s| - 1 :: s[i] == '0'
  }

  lemma {:induction false} ZeroValue(s: string, base: nat)
    requires base > 0 && AllDigits(s, base)
    ensures Value(s, base) == 0 <==> forall i | 0 <= i < |s| :: s[i] == '0'
  {
    if s != "" {
      var init := s[..|s| - 1];
      ZeroValue(init, base);
      if Value(init, base) > 0 { MulMono(base, 1, Value(init, base)); }
      assert forall i | 0 <= i < |s| :: Digit(s[i]) == 0 ==> s[i] == '0';
      assert forall i | 0 <= i < |init| :: s[i] == init[i];
    }
  }

  /** Read as octal a number is never larger, and it is the same only when all its weight is in the last digit. */
  lemma {:induction false} OctalIsSmaller(s: string)
    requires s != "" && AllDigits(s, 8)
    ensures Value(s, 8) <= Value(s, 10)
    ensures Value(s, 8) == Value(s, 10) <==> ZerosBeforeLast(s)
  {
    var init := s[..|s| - 1];
    ZeroValue(init, 8);
    ZeroValue(init, 10);
    assert forall i | 0 <= i < |init| :: s[i] == init[i];
    if init != "" { OctalIsSmaller(init); }
  }

  /** Exactly which digit strings the C library reads in decimal and to their end: the canonical ones,
      and octal digits that are all zero up to the last. */
  lemma {:induction false} ReadsDecimalExactly(s: string, max: nat)
    requires s != "" && AllDigits(s, 10) && Decimal(s) <= max
    ensures Strtoul(s, max) == (Decimal(s), |s|) <==> Canonical(s) || (AllDigits(s, 8) && ZerosBeforeLast(s))
  {
    if Canonical(s) {
      ReadsCanonical(s, max);
    } else {
      assert s[0] == '0' && IsDecimal(s[1]) && SkipSpace(s, 0) == 0;
      assert s[0..] == s && s[0..|s|] == s;
      if AllDigits(s, 8) {
        DigitsEndIsAll(s, 0, 8);
        OctalIsSmaller(s);
      } else {
        assert DigitsEnd(s, 0, 8) < |s|;
      }
    }
  }

  lemma ValuesOf010()
    ensures Value("010", 8) == 8 && Value("010", 10) == 10
  {
    assert "010"[..2] == "01" && "01"[..1] == "0" && "0"[..0] == "";
    assert Value("0", 8) == 0 && Value("0", 10) == 0;
    assert Value("01", 8) == 1 && Value("01", 10) == 1;
  }

  /** One of the others: a leading zero means octal. */
  lemma OctalIsDifferent()
    ensures Strtoul("010", U32_MAX) == (8, 3) && Decimal("010") == 10 && !Canonical("010")
  {
    ValuesOf010();
    hide Value;
    assert "010"[0..3] == "010";
    DigitsEndIsAll("010", 0, 8);
  }

  // ------------------------------------------------------------------- printf

  function DigitChar(d: nat): char
    requires d < 16
  {
    if d < 10 then ('0' as int + d) as char else ('a' as int + d - 10) as char
  }

  /** %lu and %lx. */
  function Format(n: nat, base: nat): (s: string)
    requires 2 <= base <= 16
    ensures s != ""
  {
    if n < base then [DigitChar(n)] else Format(n / base, base) + [DigitChar(n % base)]
  }

  lemma DigitCharReads(d: nat)
    requires d < 16
    ensures Digit(DigitChar(d)) == d && (DigitChar(d) == '0' <==> d == 0)
  {
  }

  lemma ValueSnoc(s: string, c: char, base: nat)
    ensures Value(s + [c], base) == Value(s, base) * base + Digit(c)
  {
    assert (s + [c])[..|s|] == s;
  }

  lemma DivMod(n: nat, base: nat)
    requires base > 0
    ensures n == n / base * base + n % base && n % base < base && (n < base ==> n % base == n)
    ensures n >= base ==> n / base > 0
    ensures n >= base > 1 ==> n / base < n
  {
    var q := n / base;
    if base > 1 { MulMono(q, 2, base); }
    assert n == base * q + n % base;
  }

  lemma {:induction false} FormatReads(n: nat, base: nat)
    requires 2 <= base <= 16
    ensures AllDigits(Format(n, base), base) && Value(Format(n, base), base) == n
    ensures n > 0 ==> Format(n, base)[0] != '0'
    ensures n == 0 ==> Format(n, base) == "0"
  {
    hide DigitChar, Digit, Value;
    DivMod(n, base);
    var d, q := n % base, n / base;
    DigitCharReads(d);
    if n < base {
      OneDigit(DigitChar(n), base);
      DigitCharReads(0);
    } else {
      FormatReads(q, base);
      ValueSnoc(Format(q, base), DigitChar(d), base);
    }
  }

  lemma OneDigit(c: char, base: nat)
    ensures Value([c], base) == Digit(c)
  {
    assert [c][..0] == "" && Value("", base) == 0;
  }

  /** k digits suffice below base to the k. */
  lemma {:induction false} FormatLength(n: nat, base: nat, k: nat)
    requires 2 <= base <= 16 && k > 0 && n < Power(base, k)
    ensures |Format(n, base)| <= k
  {
    if n >= base {
      assert Power(base, 0) == 1 && Power(base, 1) == base;
      var q := n / base;
      DivMod(n, base);
      if q >= Power(base, k - 1) {
        MulMono(base, Power(base, k - 1), q);
        assert false;
      }
      FormatLength(q, base, k - 1);
    }
  }

  lemma {:induction false} DecimalTextIsCanonical(n: nat)
    ensures Canonical(Format(n, 10)) && Decimal(Format(n, 10)) == n
  {
    FormatReads(n, 10);
  }

  /** ...and every canonical text is the decimal text of its value, so equal values mean equal texts. */
  lemma {:induction false} CanonicalIsDecimalText(s: string)
    requires Canonical(s)
    ensures Format(Decimal(s), 10) == s
  {
    var init, c := s[..|s| - 1], s[|s| - 1];
    assert s == init + [c];
    DigitReadsBack(c);
    if |s| == 1 {
      OneDigit(c, 10);
    } else {
      assert init[0] == s[0] && AllDigits(init, 10);
      CanonicalIsDecimalText(init);
      LeadingDigitCounts(init);
      var q, d := Decimal(init), Digit(c);
      assert Decimal(s) == q * 10 + d;
      assert Decimal(s) / 10 == q && Decimal(s) % 10 == d;
    }
  }

  lemma DigitReadsBack(c: char)
    requires Digit(c) < 10
    ensures DigitChar(Digit(c)) == c
  {
  }

  lemma {:induction false} LeadingDigitCounts(s: string)
    requires s != "" && AllDigits(s, 10) && s[0] != '0'
    ensures Value(s, 10) > 0
  {
    if |s| == 1 {
      OneDigit(s[0], 10);
      assert s == [s[0]];
    } else {
      LeadingDigitCounts(s[..|s| - 1]);
    }
  }

  /** The 32-bit validator accepts exactly the numbers from 1 to 2^32-1, in decimal and, with either
      prefix, in hexadecimal, and takes them for what they are. */
  lemma {:induction false} U32Exactly(n: nat)
    ensures ValidU32(Format(n, 10)) <==> 1 <= n <= 0xFFFF_FFFF
    ensures Number32(Format(n, 10)) == n
    ensures ValidU32("0x" + Format(n, 16)) <==> 1 <= n <= 0xFFFF_FFFF
    ensures ValidU32("0X" + Format(n, 16)) <==> 1 <= n <= 0xFFFF_FFFF
    ensures Number32("0x" + Format(n, 16)) == Number32("0X" + Format(n, 16)) == n
  {
    DecimalTextIsCanonical(n);
    FormatReads(n, 16);
    Powers();
    assert Power(16, 4) == 0x10000 && Power(16, 8) == 0x1_0000_0000;
    if n <= 0xFFFF_FFFF {
      FormatLength(n, 10, 10);
      FormatLength(n, 16, 8);
    } else {
      LongEnough(n, 16, 8);
    }
    var s := Format(n, 10);
    assert !HexPrefixed(s) by { assert |s| > 1 ==> s[0] != '0'; }
    assert ("0x" + Format(n, 16))[2..] == Format(n, 16) && ("0X" + Format(n, 16))[2..] == Format(n, 16);
    hide Format, Canonical, AllDigits, Value, Power;
  }

  lemma LongEnough(n: nat, base: nat, k: nat)
    requires 2 <= base <= 16 && n >= Power(base, k)
    ensures |Format(n, base)| > k
  {
    FormatReads(n, base);
    var s := Format(n, base);
    ValueBound(s, base);
    if |s| <= k {
      PowerMono(base, |s|, k);
      assert false;
    }
  }

  lemma Powers()
    ensures Power(10, 3) == 1000 && Power(10, 10) == 10_000_000_000 && Power(16, 16) == 0x1_0000_0000_0000_0000
  {
    assert Power(10, 0) == 1 && Power(10, 1) == 10 && Power(10, 2) == 100 && Power(10, 3) == 1000;
    assert Power(10, 5) == 100_000 && Power(10, 7) == 10_000_000 && Power(10, 9) == 1_000_000_000;
    assert Power(16, 0) == 1 && Power(16, 2) == 0x100 && Power(16, 4) == 0x1_0000 && Power(16, 6) == 0x100_0000;
    assert Power(16, 8) == 0x1_0000_0000 && Power(16, 10) == 0x100_0000_0000 && Power(16, 12) == 0x1_0000_0000_0000;
    assert Power(16, 14) == 0x100_0000_0000_0000;
  }
}
