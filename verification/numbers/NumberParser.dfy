/** The string to 64-bit integer conversions, loop by loop, against the value of the digits. */
module NumberParser {
  import opened Numerals

  /** Null or empty strings and bases outside 2 to 36 panic; a string without digits converts to
      zero and leaves the end at its start; `range` is ERANGE. */
  datatype Outcome = Panic | NoNumber | Number(value: int, end: nat, range: bool)

  // ----- what a string says -----

  predicate IsSpace(c: char) { c == ' ' || 9 <= c as int <= 13 }

  /** The first character that is not white space. */
  function Skip(s: string, i: nat): (j: nat)
    requires i <= |s|
    ensures i <= j <= |s|
    decreases |s| - i
  {
    if i < |s| && IsSpace(s[i]) then Skip(s, i + 1) else i
  }

  predicate HexPrefix(s: string, i: nat): (hex: bool)
    ensures hex ==> i + 1 < |s|
  {
    i + 1 < |s| && s[i] == '0' && (s[i + 1] == 'x' || s[i + 1] == 'X')
  }

  /** Where the digits that start at `i` end. */
  function DigitsEnd(s: string, i: nat, base: int): (j: nat)
    requires i <= |s|
    ensures i <= j <= |s|
    ensures AllDigits(s[i..j], base)
    ensures j < |s| ==> !IsDigit(s[j], base)
    decreases |s| - i
  {
    if i < |s| && IsDigit(s[i], base) then
      var j := DigitsEnd(s, i + 1, base);
      assert s[i..j] == [s[i]] + s[i + 1..j];
      j
    else i
  }

  function BaseFor(s: string, i: nat, base: int): int {
    if base == 0 then (if HexPrefix(s, i) then 16 else 10) else base
  }

  /** The answer for the digits from `j` on, negated or not, saturating at the type's limits. */
  function Answer(s: string, j: nat, base: nat, max: int, negative: bool): Outcome
    requires j <= |s|
  {
    var e := DigitsEnd(s, j, base);
    if e == j then NoNumber
    else
      var v := Value(s[j..e], base);
      if v > max then Number(if negative then -max - 1 else max, e, true)
      else Number(if negative then -v else v, e, false)
  }

  function AfterPrefix(s: string, j: nat, base: int): (k: nat)
    ensures j <= k && (j <= |s| ==> k <= |s|)
  {
    if base == 16 && HexPrefix(s, j) then j + 2 else j
  }

  function SignedAnswer(s: string, base: int): Outcome {
    var i := Skip(s, 0);
    var b := BaseFor(s, i, base);
    if s == "" then Panic
    else if i == |s| then NoNumber
    else if b <= 1 || b > 36 then Panic
    else Answer(s, AfterPrefix(s, if s[i] in "-+" then i + 1 else i, b), b, LL_MAX, s[i] == '-')
  }

  function UnsignedAnswer(s: string, base: int): Outcome {
    var i := Skip(s, 0);
    var b := BaseFor(s, i, base);
    if s == "" then Panic
    else if i == |s| then NoNumber
    else if b <= 1 || b > 36 then Panic
    else Answer(s, AfterPrefix(s, i, b), b, ULL_MAX, false)
  }

  // ----- the range flag -----

  /** The base a parse of `s` ends up in, and where its digits start. */
  function BaseOf(s: string, base: int): int { BaseFor(s, Skip(s, 0), base) }

  function StartOf(s: string, base: int, signed: bool): nat {
    var i := Skip(s, 0);
    AfterPrefix(s, if signed && i < |s| && s[i] in "-+" then i + 1 else i, BaseOf(s, base))
  }

  /** A number is called out of range if and only if the number that all its digits denote exceeds
      the maximum, however many digits follow the first one too many. */
  ghost predicate FlagExact(s: string, base: int, signed: bool, max: int, r: Outcome) {
    r.Number? ==>
      var j, b := StartOf(s, base, signed), BaseOf(s, base);
      && j < r.end <= |s| && b >= 2 && AllDigits(s[j..r.end], b)
      && (r.range <==> Value(s[j..r.end], b) > max)
  }

  // ----- the loops -----

  method SkipSpace(s: string) returns (i: nat)
    ensures i == Skip(s, 0)
  {
    i := 0;
    while i < |s| && IsSpace(s[i])
      invariant i <= |s| && Skip(s, i) == Skip(s, 0)
    {
      i := i + 1;
    }
  }

  /** A further digit exceeds the limit exactly if the cutoff test says so. */
  lemma Cutoff(v: int, d: int, base: nat, max: nat)
    requires 2 <= base && 0 <= d < base && v >= 0
    ensures v > max / base || (v == max / base && d > max % base) <==> v * base + d > max
  {
    var q, r := max / base, max % base;
    assert max == q * base + r;
    Order(q + 1, v, base);
    Order(v, q - 1, base);
    assert (q + 1) * base == q * base + base;
    assert (q - 1) * base == q * base - base;
  }

  /** One more digit keeps the flag telling whether the whole number is over the limit. */
  lemma FlagKeeps(v: int, value: int, overflow: bool, d: int, base: nat, max: nat)
    requires 2 <= base && 0 <= d < base && v >= 0 && 0 <= value <= max
    requires (overflow <==> v > max) && (!overflow ==> value == v)
    ensures var over := value > max / base || (value == max / base && d > max % base);
      && (overflow || over <==> v * base + d > max)
      && (!over ==> 0 <= value * base + d <= max)
  {
    Cutoff(value, d, base, max);
    Cutoff(v, d, base, max);
    Grows(v, base);
    Grows(value, base);
  }

  lemma MoreDigits(s: string, j: nat, k: nat, base: nat)
    requires j <= k < |s| && AllDigits(s[j..k], base) && IsDigit(s[k], base)
    ensures AllDigits(s[j..k + 1], base)
    ensures Value(s[j..k + 1], base) == Value(s[j..k], base) * base + DigitOf(s[k])
  {
    var t := s[j..k + 1];
    assert t[..|t| - 1] == s[j..k];
    assert t == s[j..k] + [s[k]];
  }

  /** The digit loop: the value so far, and whether it ever went over `max`. */
  method Scan(s: string, j: nat, base: nat, max: nat) returns (value: nat, end: nat, overflow: bool)
    requires j <= |s| && 2 <= base <= 36
    ensures end == DigitsEnd(s, j, base)
    ensures overflow <==> Value(s[j..end], base) > max
    ensures value <= max && (!overflow ==> value == Value(s[j..end], base))
  {
    var cutoff, cutlim := max / base, max % base;
    value, end, overflow := 0, j, false;
    assert Value(s[j..j], base) == 0;
    hide Value;
    while end < |s| && IsDigit(s[end], base)
      invariant j <= end <= |s| && AllDigits(s[j..end], base)
      invariant DigitsEnd(s, end, base) == DigitsEnd(s, j, base)
      invariant overflow <==> Value(s[j..end], base) > max
      invariant value <= max && (!overflow ==> value == Value(s[j..end], base))
    {
      var c := DigitOf(s[end]);
      MoreDigits(s, j, end, base);
      FlagKeeps(Value(s[j..end], base), value, overflow, c, base, max);
      if value > cutoff || (value == cutoff && c > cutlim) {
        overflow := true;
      } else {
        value := value * base + c;
      }
      end := end + 1;
    }
  }

  method Myatosq(s: string, base: int) returns (r: Outcome)
    ensures r == SignedAnswer(s, base) && FlagExact(s, base, true, LL_MAX, r)
  {
    hide Value, AllDigits, DigitsEnd, Skip, HexPrefix;
    if s == "" { return Panic; }
    var i := SkipSpace(s);
    if i == |s| { return NoNumber; }
    var b := base;
    if b == 0 {
      b := if HexPrefix(s, i) then 16 else 10;
    }
    if b <= 1 || b > 36 { return Panic; }
    var negative := s[i] == '-';
    var j := if s[i] == '-' || s[i] == '+' then i + 1 else i;
    if b == 16 && HexPrefix(s, j) {
      j := j + 2;
    }
    var value, end, overflow := Scan(s, j, b, LL_MAX);
    if end == j { return NoNumber; }
    var answer: int := value;
    if overflow {
      r := Number(if negative then LL_MIN else LL_MAX, end, true);
    } else {
      r := Number(if negative then -answer else answer, end, false);
    }
  }

  method Myatoq(s: string, base: int) returns (r: Outcome)
    ensures r == UnsignedAnswer(s, base) && FlagExact(s, base, false, ULL_MAX, r)
  {
    hide Value, AllDigits, DigitsEnd, Skip, HexPrefix;
    if s == "" { return Panic; }
    var i := SkipSpace(s);
    if i == |s| { return NoNumber; }
    var b := base;
    if b == 0 {
      b := if HexPrefix(s, i) then 16 else 10;
    }
    if b <= 1 || b > 36 { return Panic; }
    var j := i;
    if b == 16 && HexPrefix(s, j) {
      j := j + 2;
    }
    var value, end, overflow := Scan(s, j, b, ULL_MAX);
    if end == j { return NoNumber; }
    if overflow {
      r := Number(ULL_MAX, end, true);
    } else {
      r := Number(value, end, false);
    }
  }
}
