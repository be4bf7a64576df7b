/** The integer conversions of the portable vsprintf: digits are written backwards into a buffer
    and then laid out in a field. */
module NumberPrinter {
  import opened Numerals

  const MAXDIGS: nat := 22
  const TWO32: int := 0x1_0000_0000
  const TWO64: int := 0x1_0000_0000_0000_0000
  const LOWER: string := "0123456789abcdef"
  const UPPER: string := "0123456789ABCDEF"

  /** The letters d (or n), u, o, x (or p) and X. */
  datatype Conv = Signed | Unsigned | Octal | LowerHex | UpperHex

  function Base(conv: Conv): nat {
    match conv
    case Signed | Unsigned => 10
    case Octal => 8
    case LowerHex | UpperHex => 16
  }

  /** The values an argument of a conversion can have. */
  predicate InRange(conv: Conv, v: int) { if conv == Signed then LL_MIN <= v <= LL_MAX else 0 <= v <= ULL_MAX }

  // ----- what a field holds -----

  function Repeat(c: char, n: nat): (t: string)
    ensures |t| == n && forall i :: 0 <= i < n ==> t[i] == c
  {
    seq(n, _ => c)
  }

  function Prefix(v: int): string { if v < 0 then "-" else "" }

  function Magnitude(v: int): nat { if v < 0 then -v else v }

  /** Zeroes go between the sign and the digits, blanks before the sign. */
  function Field(prefix: string, digits: string, width: nat, zeroes: bool): string {
    var k := |prefix| + |digits|;
    if width <= k then prefix + digits
    else if zeroes then prefix + Repeat('0', width - k) + digits
    else Repeat(' ', width - k) + prefix + digits
  }

  function Printed(conv: Conv, v: int, width: nat, zeroes: bool): string {
    Field(Prefix(v), Text(Magnitude(v), Base(conv), conv == UpperHex), width, zeroes)
  }

  // ----- machine arithmetic -----

  /** A value converted to a 32-bit int. */
  function Int32(x: int): int { (x + TWO32 / 2) % TWO32 - TWO32 / 2 }

  /** A 64-bit pattern read as signed, and as unsigned. */
  function Signed64(u: int): int { if u > LL_MAX then u - TWO64 else u }
  function Unsigned64(x: int): (u: int)
    ensures x >= LL_MIN ==> u >= 0
  {
    if x < 0 then x + TWO64 else x
  }

  /** The digit step in 32-bit arithmetic. */
  function DigitStep(q: int): int { Int32(Int32(q) - Int32(Int32(q / 10) * 10)) }

  lemma Int32Unique(x: int, k: int, y: int)
    requires x == y + k * TWO32 && -TWO32 / 2 <= y < TWO32 / 2
    ensures Int32(x) == y
  {
    var z := y + TWO32 / 2;
    assert x + TWO32 / 2 == z + k * TWO32 && 0 <= z < TWO32;
  }

  /** Although every intermediate value may wrap around, the digit is right. */
  lemma DigitStepIsDigit(q: int)
    requires 0 <= q
    ensures DigitStep(q) == q % 10
  {
    var n := q / 10;
    var a := (q + TWO32 / 2) / TWO32;
    var b := (n + TWO32 / 2) / TWO32;
    var c := (Int32(n) * 10 + TWO32 / 2) / TWO32;
    assert Int32(q) == q - a * TWO32;
    assert Int32(n) == n - b * TWO32;
    assert Int32(Int32(n) * 10) == Int32(n) * 10 - c * TWO32;
    assert Int32(q) - Int32(Int32(n) * 10) == q % 10 + (10 * b + c - a) * TWO32;
    Int32Unique(Int32(q) - Int32(Int32(n) * 10), 10 * b + c - a, q % 10);
  }

  lemma HalfDigit(val: int)
    requires LL_MIN <= val < 0
    ensures var u := Unsigned64(val);
      u / 2 / 5 == u / 10 && u / 2 % 5 * 2 + val % 2 == u % 10
  {
    var u := Unsigned64(val);
    assert u % 2 == val % 2;
    assert u == u / 2 * 2 + u % 2;
    assert u / 2 == u / 2 / 5 * 5 + u / 2 % 5;
  }

  /** The low digit of a number whose top bit is set, without a signed division. */
  method LowDigit(val: int) returns (c: char, rest: int)
    requires LL_MIN <= val < 0
    ensures c == DigitChar(Unsigned64(val) % 10, false) && rest == Unsigned64(val) / 10
  {
    HalfDigit(val);
    var lowbit := val % 2;
    var value := Unsigned64(val) / 2;
    rest := value / 5;
    hide Unsigned64;
    c := (value % 5 * 2 + lowbit + '0' as int) as char;
  }

  // ----- digits -----

  lemma TextStep(q: nat, base: nat, upper: bool)
    requires 2 <= base <= 16 && q >= base
    ensures q / base >= 1 && q % base < 16
    ensures Text(q, base, upper) == Text(q / base, base, upper) + [DigitChar(q % base, upper)]
  {
    Smaller(q, base);
  }

  /** The digits of a value below 2^63, backwards from `end`. */
  method DecimalDigits(buf: array<char>, end: nat, val: int) returns (bp: nat)
    requires 0 <= val <= LL_MAX && |Text(val, 10, false)| <= end <= buf.Length
    modifies buf
    ensures bp <= end && buf[bp..end] == Text(val, 10, false)
    ensures buf[end..] == old(buf[end..])
  {
    var qval := val;
    bp := end;
    if qval > 9 {
      TextStep(qval, 10, false);
      var more := true;
      while more
        invariant 0 < qval <= LL_MAX && (more ==> qval > 9)
        invariant more || qval <= 9
        invariant bp <= end && Text(val, 10, false) == Text(qval, 10, false) + buf[bp..end]
        invariant buf[end..] == old(buf[end..])
        decreases qval
      {
        DigitStepIsDigit(qval);
        TextStep(qval, 10, false);
        var n := Int32(qval);
        var q := qval / 10;
        bp := bp - 1;
        buf[bp] := (Int32(n - Int32(Int32(q) * 10)) + '0' as int) as char;
        assert buf[bp..end] == [buf[bp]] + buf[bp + 1..end];
        qval := q;
        more := qval > 9;
      }
    }
    bp := bp - 1;
    buf[bp] := (qval + '0' as int) as char;
    assert buf[bp..end] == [buf[bp]] + buf[bp + 1..end];
  }

  /** The digits of a nonzero value in base 8 or 16, by shifting. */
  method ShiftDigits(buf: array<char>, val: int, base: nat, upper: bool) returns (bp: nat)
    requires LL_MIN <= val <= LL_MAX && val != 0 && (base == 8 || base == 16)
    requires |Text(Unsigned64(val), base, upper)| <= MAXDIGS <= buf.Length
    modifies buf
    ensures bp <= MAXDIGS && buf[bp..MAXDIGS] == Text(Unsigned64(val), base, upper)
  {
    hide Text, Unsigned64, DigitChar;
    var tab := if upper then UPPER else LOWER;
    var qval := val;
    var more := true;
    bp := MAXDIGS;
    while more
      invariant LL_MIN <= qval <= LL_MAX && (more <==> qval != 0) && bp <= MAXDIGS
      invariant Text(Unsigned64(val), base, upper) ==
        (if more then Text(Unsigned64(qval), base, upper) else "") + buf[bp..MAXDIGS]
      decreases Unsigned64(qval)
    {
      ShiftStep(qval, base, upper);
      bp := bp - 1;
      buf[bp] := tab[qval % base];
      assert buf[bp..MAXDIGS] == [buf[bp]] + buf[bp + 1..MAXDIGS];
      qval := Shifted(qval, base);
      more := qval != 0;
    }
  }

  lemma TabDigit(d: int, upper: bool)
    requires 0 <= d < 16
    ensures (if upper then UPPER else LOWER)[d] == DigitChar(d, upper)
  {
  }

  /** What is left of a pattern after its low digit is shifted out. */
  function Shifted(x: int, base: nat): int
    requires base >= 2
  {
    (Unsigned64(x) / 2) / (base / 2)
  }

  /** Taking the low digit off the pattern of `x` takes it off its unsigned value. */
  lemma ShiftStep(x: int, base: nat, upper: bool)
    requires LL_MIN <= x <= LL_MAX && x != 0 && (base == 8 || base == 16)
    ensures 0 <= x % base < base && 0 <= Shifted(x, base) <= LL_MAX
    ensures Unsigned64(Shifted(x, base)) == Shifted(x, base) < Unsigned64(x)
    ensures var d := (if upper then UPPER else LOWER)[x % base];
      Text(Unsigned64(x), base, upper) == (if Shifted(x, base) != 0 then Text(Shifted(x, base), base, upper) else "") + [d]
  {
    Pattern(x, base);
    TabDigit(x % base, upper);
    var u := Unsigned64(x);
    hide Unsigned64, DigitChar;
    if u >= base { TextStep(u, base, upper); }
  }

  lemma Pattern(x: int, base: nat)
    requires LL_MIN <= x <= LL_MAX && x != 0 && (base == 8 || base == 16)
    ensures var u := Unsigned64(x);
      && 0 < u && x % base == u % base && Shifted(x, base) == u / base <= LL_MAX && u / base < u
      && (u < base ==> u / base == 0 && u % base == u) && (u >= base ==> u / base > 0)
  {
    var u := Unsigned64(x);
    if base == 8 {
      Remainder(x, 8, 0x2000_0000_0000_0000);
    } else {
      Remainder(x, 16, 0x1000_0000_0000_0000);
    }
  }

  lemma Remainder(x: int, base: nat, k: int)
    requires LL_MIN <= x <= LL_MAX && (base == 8 || base == 16) && k * base == TWO64
    ensures x % base == Unsigned64(x) % base
    ensures Shifted(x, base) == Unsigned64(x) / base
  {
  }

  // ----- the field -----

  method Pad(out: string, c: char, n: int) returns (r: string)
    ensures r == out + Repeat(c, if n > 0 then n else 0)
  {
    r := out;
    var nn := n;
    while nn > 0
      invariant nn > 0 || n <= 0 || nn == 0
      invariant n > 0 ==> 0 <= nn <= n && r == out + Repeat(c, n - nn)
      invariant n <= 0 ==> nn == n && r == out
    {
      r := r + [c];
      nn := nn - 1;
    }
  }

  method Put(out: string, buf: array<char>, bp: nat, n: nat) returns (r: string)
    requires bp + n <= buf.Length
    ensures r == out + buf[bp..bp + n]
  {
    r := out;
    var nn := 0;
    while nn < n
      invariant nn <= n && r == out + buf[bp..bp + nn]
    {
      r := r + [buf[bp + nn]];
      nn := nn + 1;
    }
  }

  /** Digits of a conversion: where they start, and the zeroes that stand in for no digits. */
  method Digits(buf: array<char>, conv: Conv, v: int) returns (bp: nat, lzero: nat)
    requires buf.Length == MAXDIGS * 4 && InRange(conv, v)
    modifies buf
    ensures bp <= MAXDIGS && lzero <= 1
    ensures Text(Magnitude(v), Base(conv), conv == UpperHex) == Repeat('0', lzero) + buf[bp..MAXDIGS]
  {
    Window(Magnitude(v), Base(conv), conv == UpperHex);
    hide Text, DigitChar, Power;
    var val := Signed64(v);
    bp, lzero := MAXDIGS, 0;
    if conv == Signed || conv == Unsigned {
      if val < 0 && (conv == Unsigned || val == LL_MIN) {
        TextStep(Magnitude(v), 10, false);
        var c, rest := LowDigit(val);
        bp := bp - 1;
        buf[bp] := c;
        assert buf[bp..MAXDIGS] == [c];
        assert buf[bp..][..1] == [c];
        bp := DecimalDigits(buf, bp, rest);
        assert buf[bp..MAXDIGS] == buf[bp..MAXDIGS - 1] + buf[MAXDIGS - 1..][..1];
      } else {
        if val < 0 {
          val := -val;
        }
        bp := DecimalDigits(buf, bp, val);
      }
    } else if val == 0 {
      lzero := 1;
      assert buf[bp..MAXDIGS] == [];
    } else {
      bp := ShiftDigits(buf, val, Base(conv), conv == UpperHex);
    }
  }

  /** The pieces of a field, when the digits come with `lz` zeroes of their own. */
  lemma Layout(prefix: string, lz: nat, d: string, width: nat, zeroes: bool)
    ensures var k := |prefix| + lz + |d|;
      Field(prefix, Repeat('0', lz) + d, width, zeroes) ==
        Repeat(' ', if width > k && !zeroes then width - k else 0) + prefix
        + Repeat('0', if width > k && zeroes then lz + (width - k) else lz) + d
  {
    var k := |prefix| + lz + |d|;
    assert Repeat(' ', 0) == "";
    assert prefix + (Repeat('0', lz) + d) == prefix + Repeat('0', lz) + d;
    if width > k && zeroes {
      assert Repeat('0', lz + width - k) == Repeat('0', width - k) + Repeat('0', lz);
    }
  }

  /** One integer conversion: digits, padding, sign. */
  method PrintInteger(buf: array<char>, out: string, conv: Conv, v: int, width: nat, zeroes: bool) returns (r: string)
    requires buf.Length == MAXDIGS * 4 && InRange(conv, v)
    modifies buf
    ensures r == out + Printed(conv, v, width, zeroes)
  {
    hide Text, Field, Base;
    var bp, lzero := Digits(buf, conv, v);
    var prefix := if conv == Signed && v < 0 then "-" else "";
    var n := MAXDIGS - bp;
    var k := n + |prefix| + lzero;
    Layout(prefix, lzero, buf[bp..MAXDIGS], width, zeroes);
    hide Repeat;
    if width > k && zeroes {
      lzero := lzero + (width - k);
    }
    var left := if width > k && !zeroes then width - k else 0;
    r := Emit(buf, out, left, prefix, lzero, bp, n);
  }

  /** Blanks, sign, zeroes and digits go out one after the other. */
  method Emit(buf: array<char>, out: string, left: nat, prefix: string, lzero: nat, bp: nat, n: nat) returns (r: string)
    requires bp + n <= buf.Length
    ensures r == out + (Repeat(' ', left) + prefix + Repeat('0', lzero) + buf[bp..bp + n])
  {
    hide Repeat;
    var a := Pad(out, ' ', left);
    var b := a + prefix;
    var c := Pad(b, '0', lzero);
    r := Put(c, buf, bp, n);
    assert c == out + (Repeat(' ', left) + prefix + Repeat('0', lzero));
  }
}
