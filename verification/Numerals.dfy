/** Numbers as text, in decimal and in hexadecimal, and back.  They are printed without
    leading zeros, or padded with zeros to a width, in either case of letter, which is
    all the layout file, the requests to the guardian, the PIN replies and the terminal's
    own sequences ask for; and they are read by the value of their digits, to which
    leading zeros and the case of a letter make no difference whatsoever. */
module Numerals {
  /** Only ASCII digits: what the wire and the files carry. */
  predicate IsDigit(c: char) { '0' <= c <= '9' }

  predicate IsHexDigit(c: char) { IsDigit(c) || 'a' <= c <= 'f' || 'A' <= c <= 'F' }

  function DigitValue(c: char): (d: nat)
    requires IsHexDigit(c)
    ensures d < 16 && (IsDigit(c) ==> d < 10)
  {
    if IsDigit(c) then c as int - '0' as int
    else if 'a' <= c <= 'f' then c as int - 'a' as int + 10
    else c as int - 'A' as int + 10
  }

  predicate AllDigits(s: string) {
    forall i :: 0 <= i < |s| ==> IsDigit(s[i])
  }

  predicate AllHexDigits(s: string) {
    forall i :: 0 <= i < |s| ==> IsHexDigit(s[i])
  }

  datatype Base = Decimal | Hex

  function Radix(base: Base): nat { if base.Decimal? then 10 else 16 }

  function Times(n: nat, base: Base): nat { if base.Decimal? then n * 10 else n * 16 }

  function Quotient(n: nat, base: Base): (q: nat)
    ensures q <= n && (n >= Radix(base) ==> q < n)
  {
    if base.Decimal? then n / 10 else n / 16
  }

  function Remainder(n: nat, base: Base): (r: nat)
    ensures r < Radix(base)
    ensures Times(Quotient(n, base), base) + r == n
  {
    if base.Decimal? then n % 10 else n % 16
  }

  /** The value of a run of digits; an empty run is 0. */
  function Value(s: string, base: Base): nat
    requires AllHexDigits(s)
  {
    if s == [] then 0 else Times(Value(s[..|s| - 1], base), base) + DigitValue(s[|s| - 1])
  }

  function DigitChar(d: nat, upper: bool): (c: char)
    requires d < 16
    ensures IsHexDigit(c) && DigitValue(c) == d
    ensures d < 10 ==> IsDigit(c)
  {
    if d < 10 then '0' + d as char
    else if upper then 'A' + (d - 10) as char
    else 'a' + (d - 10) as char
  }

  /** A number without leading zeros, as %d, %x and %X print it. */
  function Digits(n: nat, base: Base, upper: bool): (s: string)
    ensures s != [] && AllHexDigits(s)
    ensures base.Decimal? ==> AllDigits(s)
    decreases n
  {
    if n < Radix(base) then [DigitChar(n, upper)]
    else Digits(Quotient(n, base), base, upper) + [DigitChar(Remainder(n, base), upper)]
  }

  lemma ValueSnoc(s: string, c: char, base: Base)
    requires AllHexDigits(s) && IsHexDigit(c)
    ensures Value(s + [c], base) == Times(Value(s, base), base) + DigitValue(c)
  {
    assert (s + [c])[..|s|] == s;
  }

  lemma {:induction false} DigitsValue(n: nat, base: Base, upper: bool)
    ensures Value(Digits(n, base, upper), base) == n
    decreases n
  {
    if n < Radix(base) {
      ValueSnoc([], DigitChar(n, upper), base);
      assert [] + [DigitChar(n, upper)] == [DigitChar(n, upper)];
    } else {
      DigitsValue(Quotient(n, base), base, upper);
      ValueSnoc(Digits(Quotient(n, base), base, upper), DigitChar(Remainder(n, base), upper), base);
    }
  }

  /** The zeros that bring `have` digits up to `width`. */
  function Zeros(width: nat, have: nat): (s: string)
    ensures forall i :: 0 <= i < |s| ==> s[i] == '0'
    decreases width
  {
    if width <= have then [] else Zeros(width - 1, have) + ['0']
  }

  /** A number padded with zeros to a width, as %04X prints it. */
  function Padded(n: nat, base: Base, upper: bool, width: nat): (s: string)
    ensures s != [] && AllHexDigits(s)
    ensures base.Decimal? ==> AllDigits(s)
  {
    Zeros(width, |Digits(n, base, upper)|) + Digits(n, base, upper)
  }

  lemma {:induction false} ZerosAreNothing(zeros: string, base: Base)
    requires forall i :: 0 <= i < |zeros| ==> zeros[i] == '0'
    ensures Value(zeros, base) == 0
  {
    if zeros != [] {
      ZerosAreNothing(zeros[..|zeros| - 1], base);
    }
  }

  lemma {:induction false} LeadingZeros(zeros: string, s: string, base: Base)
    requires AllHexDigits(s) && forall i :: 0 <= i < |zeros| ==> zeros[i] == '0'
    ensures Value(zeros + s, base) == Value(s, base)
    decreases |s|
  {
    if s == [] {
      assert zeros + s == zeros;
      ZerosAreNothing(zeros, base);
    } else {
      assert (zeros + s)[..|zeros + s| - 1] == zeros + s[..|s| - 1];
      LeadingZeros(zeros, s[..|s| - 1], base);
    }
  }

  lemma PaddedValue(n: nat, base: Base, upper: bool, width: nat)
    ensures Value(Padded(n, base, upper, width), base) == n
  {
    DigitsValue(n, base, upper);
    LeadingZeros(Zeros(width, |Digits(n, base, upper)|), Digits(n, base, upper), base);
  }
}
