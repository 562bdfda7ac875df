/** Decimal digit strings: the fixed-width zero-padded fields of the two
    timestamp layouts and Go's `%d` rendering of an integer. */
module Digits {

  predicate IsDigit(c: char) {
    '0' <= c <= '9'
  }

  predicate AllDigits(s: string) {
    forall i :: 0 <= i < |s| ==> IsDigit(s[i])
  }

  function DigitValue(c: char): (d: nat)
    requires IsDigit(c)
    ensures d < 10
  {
    c as int - '0' as int
  }

  function DigitChar(d: nat): (c: char)
    requires d < 10
    ensures IsDigit(c) && DigitValue(c) == d
  {
    ('0' as int + d) as char
  }

  function Pow10(n: nat): (p: nat)
    ensures p >= 1
  {
    if n == 0 then 1 else 10 * Pow10(n - 1)
  }

  /** The number a string of decimal digits denotes (leading zeros allowed). */
  function Value(s: string): nat
    requires AllDigits(s)
  {
    if s == [] then 0 else Value(s[..|s| - 1]) * 10 + DigitValue(s[|s| - 1])
  }

  /** `n` written with exactly `width` digits, zero-padded on the left. */
  function Pad(n: nat, width: nat): string
  {
    if width == 0 then [] else Pad(n / 10, width - 1) + [DigitChar(n % 10)]
  }

  /** `n` written with as few digits as possible (Go's `%d` for n >= 0). */
  function NatDigits(n: nat): string
  {
    if n < 10 then [DigitChar(n)] else NatDigits(n / 10) + [DigitChar(n % 10)]
  }

  /** Go's `%d` verb for a signed integer: a minus sign, then the digits. */
  function Decimal(n: int): string
  {
    if n < 0 then "-" + NatDigits(-n) else NatDigits(n)
  }

  /** The canonical rendering of a natural number: digits only, no leading zero
      unless the number is zero itself. */
  predicate Canonical(s: string) {
    |s| > 0 && AllDigits(s) && (s[0] == '0' ==> |s| == 1)
  }

  /** Reads back what `Decimal` writes: an optional minus sign, then digits. */
  function SignedValue(s: string): int
    requires |s| > 0
    requires s[0] == '-' ==> AllDigits(s[1..])
    requires s[0] != '-' ==> AllDigits(s)
  {
    if s[0] == '-' then 0 - Value(s[1..]) as int else Value(s)
  }

  /** Padding to `width` digits loses nothing when the number fits. */
  lemma {:induction false} PadValue(n: nat, width: nat)
    requires n < Pow10(width)
    ensures |Pad(n, width)| == width
    ensures AllDigits(Pad(n, width))
    ensures Value(Pad(n, width)) == n
  {
    if width > 0 {
      PadValue(n / 10, width - 1);
      var p := Pad(n / 10, width - 1);
      var r := Pad(n, width);
      assert r == p + [DigitChar(n % 10)];
      assert r[..|r| - 1] == p;
    }
  }

  /** A digit string is the padding of its own value to its own width. */
  lemma {:induction false} ValuePad(s: string)
    requires AllDigits(s)
    ensures Value(s) < Pow10(|s|)
    ensures Pad(Value(s), |s|) == s
  {
    if s != [] {
      var init := s[..|s| - 1];
      ValuePad(init);
      var v := Value(s);
      assert v / 10 == Value(init) && v % 10 == DigitValue(s[|s| - 1]);
      assert s == init + [s[|s| - 1]];
    }
  }

  /** `NatDigits` is canonical and denotes its argument. */
  lemma {:induction false} NatDigitsValue(n: nat)
    ensures Canonical(NatDigits(n))
    ensures Value(NatDigits(n)) == n
  {
    if n >= 10 {
      NatDigitsValue(n / 10);
      var p := NatDigits(n / 10);
      var r := NatDigits(n);
      assert r == p + [DigitChar(n % 10)];
      assert r[..|r| - 1] == p;
      assert r[0] == p[0];
    }
  }

  /** `%d` rendering is read back exactly by `SignedValue`, and its digits are
      canonical. */
  lemma DecimalValue(n: int)
    ensures |Decimal(n)| > 0
    ensures n < 0 <==> Decimal(n)[0] == '-'
    ensures n < 0 ==> Decimal(n) == "-" + NatDigits(-n) && Canonical(Decimal(n)[1..])
    ensures n >= 0 ==> Canonical(Decimal(n))
    ensures SignedValue(Decimal(n)) == n
  {
    if n < 0 {
      NatDigitsValue(-n);
      assert Decimal(n)[1..] == NatDigits(-n);
    } else {
      NatDigitsValue(n);
    }
  }
}
