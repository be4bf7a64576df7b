/** Digit strings and the numbers they denote: what the printer has to build and the parsers
    have to read. */
module Numerals {

  const LL_MAX: int := 0x7FFF_FFFF_FFFF_FFFF
  const LL_MIN: int := -LL_MAX - 1
  const ULL_MAX: int := 0xFFFF_FFFF_FFFF_FFFF

  /** The value of a digit or letter, -1 for any other character. */
  function DigitOf(c: char): int {
    if '0' <= c <= '9' then c as int - '0' as int
    else if 'a' <= c <= 'z' then c as int - 'a' as int + 10
    else if 'A' <= c <= 'Z' then c as int - 'A' as int + 10
    else -1
  }

  predicate IsDigit(c: char, base: int) { 0 <= DigitOf(c) < base }

  ghost predicate AllDigits(t: string, base: int) { forall i :: 0 <= i < |t| ==> IsDigit(t[i], base) }

  /** The number a string of digits denotes. */
  function Value(t: string, base: nat): (v: int)
    requires AllDigits(t, base)
    ensures v >= 0
  {
    if t == "" then 0 else Value(t[..|t| - 1], base) * base + DigitOf(t[|t| - 1])
  }

  /** The digit character of a number below 16. */
  function DigitChar(d: nat, upper: bool): (c: char)
    requires d < 16
    ensures DigitOf(c) == d
    ensures c != 'x' && c != 'X' && c != '-' && c != '+'
  {
    if d < 10 then ('0' as int + d) as char else if upper then ('A' as int + d - 10) as char else ('a' as int + d - 10) as char
  }

  /** The digits of a number, without leading zeroes. */
  function Text(v: nat, base: nat, upper: bool): (t: string)
    requires 2 <= base <= 16
    ensures |t| >= 1
    ensures AllDigits(t, base)
    ensures forall i :: 0 <= i < |t| ==> t[i] !in "xX-+"
    decreases v
  {
    if v < base then [DigitChar(v, upper)]
    else
      Smaller(v, base);
      Text(v / base, base, upper) + [DigitChar(v % base, upper)]
  }

  lemma Smaller(v: nat, base: nat)
    requires 2 <= base <= v
    ensures v / base < v && v == v / base * base + v % base
  {
  }

  /** Digits denote the number they were made from. */
  lemma {:induction false} ValueOfText(v: nat, base: nat, upper: bool)
    requires 2 <= base <= 16
    ensures Value(Text(v, base, upper), base) == v
    decreases v
  {
    var t := Text(v, base, upper);
    if v < base {
      assert t[..0] == "";
    } else {
      Smaller(v, base);
      ValueOfText(v / base, base, upper);
      assert t[..|t| - 1] == Text(v / base, base, upper);
    }
  }

  /** Only one digit string without leading zeroes denotes a number. */
  lemma {:induction false} TextOfValue(t: string, base: nat)
    requires 2 <= base <= 16 && |t| >= 1 && AllDigits(t, base) && (|t| > 1 ==> DigitOf(t[0]) != 0)
    requires forall i :: 0 <= i < |t| ==> !('A' <= t[i] <= 'Z')
    ensures Text(Value(t, base), base, false) == t
  {
    var d := DigitOf(t[|t| - 1]);
    if |t| == 1 {
      assert t[..0] == "";
      assert Value(t, base) == d;
    } else {
      var h := t[..|t| - 1];
      TextOfValue(h, base);
      Leading(h, base);
      Split(Value(h, base), base, d);
      assert t == h + [t[|t| - 1]];
    }
  }

  lemma {:induction false} Leading(t: string, base: nat)
    requires base >= 2 && |t| >= 1 && AllDigits(t, base) && DigitOf(t[0]) != 0
    ensures Value(t, base) >= 1
  {
    if |t| > 1 {
      Leading(t[..|t| - 1], base);
      Grows(Value(t[..|t| - 1], base), base);
    }
  }

  lemma Grows(v: int, base: nat)
    requires v >= 0 && base >= 1
    ensures v * base >= v
  {
  }

  lemma Split(h: int, base: nat, d: int)
    requires h >= 1 && base >= 2 && 0 <= d < base
    ensures (h * base + d) / base == h && (h * base + d) % base == d && h * base + d >= base
  {
    var v := h * base + d;
    assert v == (v / base) * base + v % base;
    assert (v / base - h) * base == d - v % base;
    Multiple(v / base - h, base, d - v % base);
  }

  lemma Multiple(q: int, base: int, r: int)
    requires base >= 2 && q * base == r && -base < r < base
    ensures q == 0
  {
    Order(1, q, base);
    Order(q, -1, base);
  }

  lemma Order(m: int, q: int, base: int)
    requires base >= 0
    ensures m <= q ==> m * base <= q * base
  {
  }

  // ----- how long digits can be -----

  function Power(base: nat, n: nat): nat { if n == 0 then 1 else base * Power(base, n - 1) }

  lemma {:induction false} TextLength(v: nat, base: nat, upper: bool, n: nat)
    requires 2 <= base <= 16 && n >= 1 && v < Power(base, n)
    ensures |Text(v, base, upper)| <= n
    decreases v
  {
    if v >= base {
      Smaller(v, base);
      assert Power(base, n) == base * Power(base, n - 1);
      Quotient(v, base, Power(base, n - 1));
      TextLength(v / base, base, upper, n - 1);
    }
  }

  lemma Quotient(v: nat, base: nat, m: nat)
    requires base >= 2 && v < base * m
    ensures v / base < m
  {
    Order(m, v / base, base);
  }

  /** No 64-bit number needs more than 22 digits in base 8, 10 or 16. */
  lemma Window(v: nat, base: nat, upper: bool)
    requires v <= ULL_MAX && (base == 8 || base == 10 || base == 16)
    ensures |Text(v, base, upper)| <= 22
  {
    PowerAtLeast(base, 22);
    TextLength(v, base, upper, 22);
  }

  lemma PowerAtLeast(base: nat, n: nat)
    requires base >= 8 && n == 22
    ensures Power(base, n) > ULL_MAX
  {
    PowerGrows(base, 22);
    PowerSum(8, 11, 11);
    PowerSum(8, 5, 6);
    PowerSum(8, 3, 3);
    PowerSum(8, 2, 3);
    assert Power(8, 2) == 64 && Power(8, 3) == 512;
  }

  lemma {:induction false} PowerGrows(base: nat, n: nat)
    requires base >= 8
    ensures Power(base, n) >= Power(8, n)
  {
    if n > 0 {
      PowerGrows(base, n - 1);
      assert base * Power(base, n - 1) >= 8 * Power(base, n - 1);
    }
  }

  lemma {:induction false} PowerSum(base: nat, m: nat, n: nat)
    ensures Power(base, m + n) == Power(base, m) * Power(base, n)
  {
    if m > 0 {
      PowerSum(base, m - 1, n);
      assert base * (Power(base, m - 1) * Power(base, n)) == base * Power(base, m - 1) * Power(base, n);
    }
  }
}
