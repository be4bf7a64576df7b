/** What the printer writes, the parsers read back. */
module NumberRoundTrip {
  import opened Numerals
  import opened NumberPrinter
  import opened NumberParser

  // ----- zeroes in front -----

  lemma {:induction false} ZeroValue(n: nat, base: nat)
    requires base >= 1
    ensures AllDigits(Repeat('0', n), base) && Value(Repeat('0', n), base) == 0
  {
    if n > 0 {
      ZeroValue(n - 1, base);
      assert Repeat('0', n)[..n - 1] == Repeat('0', n - 1);
    }
  }

  /** Zeroes in front of the digits do not change the number. */
  lemma {:induction false} LeadingZeroes(n: nat, t: string, base: nat)
    requires base >= 1 && AllDigits(t, base)
    ensures AllDigits(Repeat('0', n) + t, base) && Value(Repeat('0', n) + t, base) == Value(t, base)
    decreases |t|
  {
    var z := Repeat('0', n) + t;
    if t == "" {
      ZeroValue(n, base);
      assert z == Repeat('0', n);
    } else {
      LeadingZeroes(n, t[..|t| - 1], base);
      assert z[..|z| - 1] == Repeat('0', n) + t[..|t| - 1];
    }
  }

  // ----- reading a run of digits -----

  /** Digits up to the end of a string, or to a character that is none, are all read. */
  lemma {:induction false} ReadsAll(s: string, i: nat, j: nat, base: int)
    requires i <= j <= |s| && AllDigits(s[i..j], base) && (j < |s| ==> !IsDigit(s[j], base))
    ensures DigitsEnd(s, i, base) == j
    decreases j - i
  {
    if i < j {
      var t := s[i..j];
      assert s[i] == t[0];
      assert s[i + 1..j] == t[1..];
      ReadsAll(s, i + 1, j, base);
    }
  }

  lemma {:induction false} SkipsBlanks(s: string, i: nat, j: nat)
    requires i <= j <= |s| && (forall k :: i <= k < j ==> s[k] == ' ') && (j < |s| ==> !IsSpace(s[j]))
    ensures Skip(s, i) == j
    decreases j - i
  {
    if i < j { SkipsBlanks(s, i + 1, j); }
  }

  /** Every field is blanks, a sign if the value is negative, zeroes and the digits. */
  lemma FieldParts(conv: Conv, v: int, width: nat, zeroes: bool) returns (blanks: nat, zeros: nat)
    ensures Printed(conv, v, width, zeroes) ==
      Repeat(' ', blanks) + Prefix(v) + Repeat('0', zeros) + Text(Magnitude(v), Base(conv), conv == UpperHex)
  {
    hide Text;
    var t := Text(Magnitude(v), Base(conv), conv == UpperHex);
    Layout(Prefix(v), 0, t, width, zeroes);
    assert Repeat('0', 0) + t == t;
    var k := |Prefix(v)| + |t|;
    blanks := if width > k && !zeroes then width - k else 0;
    zeros := if width > k && zeroes then width - k else 0;
  }

  /** In `s`, `blanks` blanks are followed by an optional minus sign, digits from `j` on, and
      perhaps something else from `e` on. */
  ghost predicate Laid(s: string, blanks: nat, j: nat, e: nat, base: int) {
    && blanks <= j <= blanks + 1 && j < e <= |s|
    && (forall k :: 0 <= k < blanks ==> s[k] == ' ')
    && (j == blanks + 1 ==> s[blanks] == '-')
    && AllDigits(s[j..e], base)
    && (forall k :: j <= k < e ==> s[k] !in "xX-+")
    && (e < |s| ==> !IsDigit(s[e], base) && s[e] !in "xX")
  }

  lemma LaidIsRead(s: string, blanks: nat, j: nat, e: nat, base: nat)
    requires Laid(s, blanks, j, e, base)
    ensures Skip(s, 0) == blanks && DigitsEnd(s, j, base) == e
    ensures !HexPrefix(s, j) && !HexPrefix(s, blanks) && s[j] !in "-+"
  {
    var z := s[j..e];
    assert s[j] == z[0];
    ReadsAll(s, j, e, base);
    SkipsBlanks(s, 0, blanks);
  }

  lemma PiecesLaid(b: string, prefix: string, z: string, tail: string, base: nat)
    requires (forall i :: 0 <= i < |b| ==> b[i] == ' ') && (prefix == "" || prefix == "-")
    requires |z| >= 1 && AllDigits(z, base) && forall i :: 0 <= i < |z| ==> z[i] !in "xX-+"
    requires tail != "" ==> !IsDigit(tail[0], base) && tail[0] !in "xX"
    ensures var s := b + prefix + z + tail;
      var j := |b| + |prefix|;
      Laid(s, |b|, j, j + |z|, base) && s[j..j + |z|] == z
  {
    hide IsDigit, AllDigits;
    var s, j := b + prefix + z + tail, |b| + |prefix|;
    assert s[j..j + |z|] == z;
    forall k | j <= k < j + |z| ensures s[k] !in "xX-+" { assert s[k] == z[k - j]; }
  }

  lemma Parts(blanks: nat, prefix: string, zeros: nat, t: string, tail: string, base: nat)
    requires 2 <= base <= 16 && |t| >= 1 && AllDigits(t, base) && (prefix == "" || prefix == "-")
    requires (forall i :: 0 <= i < |t| ==> t[i] !in "xX-+") && (tail != "" ==> !IsDigit(tail[0], base) && tail[0] !in "xX")
    ensures var p := Repeat(' ', blanks) + prefix + Repeat('0', zeros) + t;
      var j := blanks + |prefix|;
      && j <= |p| && Laid(p + tail, blanks, j, |p|, base)
      && Value((p + tail)[j..|p|], base) == Value(t, base)
  {
    hide AllDigits, IsDigit, Value, Laid, Repeat;
    var p := Repeat(' ', blanks) + prefix + Repeat('0', zeros) + t;
    var z := Repeat('0', zeros) + t;
    LeadingZeroes(zeros, t, base);
    PiecesLaid(Repeat(' ', blanks), prefix, z, tail, base);
    assert p + tail == Repeat(' ', blanks) + prefix + z + tail;
  }

  /** Reading text laid out so gives the number, negated after a minus sign. */
  lemma LaidAnswer(s: string, blanks: nat, j: nat, e: nat, base: nat, from: int, v: int)
    requires 2 <= base <= 36 && Laid(s, blanks, j, e, base) && Value(s[j..e], base) == v
    requires from == base || (from == 0 && base == 10)
    ensures SignedAnswer(s, from) ==
      if v > LL_MAX then Number(if j > blanks then LL_MIN else LL_MAX, e, true)
      else Number(if j > blanks then -v else v, e, false)
    ensures UnsignedAnswer(s, from) ==
      if j > blanks then NoNumber else if v > ULL_MAX then Number(ULL_MAX, e, true) else Number(v, e, false)
  {
    LaidIsRead(s, blanks, j, e, base);
    LaidSign(s, blanks, j, e, base);
    hide Laid, Value, DigitsEnd, Skip, HexPrefix;
  }

  lemma LaidSign(s: string, blanks: nat, j: nat, e: nat, base: nat)
    requires Laid(s, blanks, j, e, base)
    ensures blanks < |s| && j < e <= |s| && blanks <= j <= blanks + 1
    ensures (s[blanks] == '-' <==> j > blanks) && s[blanks] != '+'
    ensures j > blanks ==> DigitsEnd(s, blanks, base) == blanks
  {
    assert !IsDigit('-', base);
  }

  /** A printed number, followed by anything that does not go on with it. */
  lemma PrintedIsLaid(conv: Conv, v: int, width: nat, zeroes: bool, tail: string) returns (blanks: nat, j: nat)
    requires tail != "" ==> !IsDigit(tail[0], Base(conv)) && tail[0] !in "xX"
    ensures var p := Printed(conv, v, width, zeroes);
      && j == (if v < 0 then blanks + 1 else blanks)
      && Laid(p + tail, blanks, j, |p|, Base(conv)) && j <= |p|
      && Value((p + tail)[j..|p|], Base(conv)) == Magnitude(v)
  {
    var zeros;
    blanks, zeros := FieldParts(conv, v, width, zeroes);
    j := blanks + |Prefix(v)|;
    var t, base := Text(Magnitude(v), Base(conv), conv == UpperHex), Base(conv);
    ValueOfText(Magnitude(v), base, conv == UpperHex);
    Parts(blanks, Prefix(v), zeros, t, tail, base);
    PrefixIs(v);
    hide Text, Value, Printed, Laid, AllDigits, Base, Repeat, Prefix;
  }

  lemma PrefixIs(v: int)
    ensures Prefix(v) == (if v < 0 then "-" else "") && |Prefix(v)| == if v < 0 then 1 else 0
  {
  }

  /** A signed number printed in any field reads back as itself, as decimal or with the base left
      open, and all of it is read; only the most negative number is also called out of range. */
  lemma SignedRoundTrip(v: int, width: nat, zeroes: bool, tail: string, base: int)
    requires InRange(Signed, v) && (base == 10 || base == 0)
    requires tail != "" ==> !IsDigit(tail[0], 10) && tail[0] !in "xX"
    ensures var s := Printed(Signed, v, width, zeroes);
      SignedAnswer(s + tail, base) == Number(v, |s|, v == LL_MIN)
  {
    hide IsDigit, Value, Laid, AllDigits, Printed, SignedAnswer;
    var blanks, j := PrintedIsLaid(Signed, v, width, zeroes, tail);
    var p := Printed(Signed, v, width, zeroes);
    LaidAnswer(p + tail, blanks, j, |p|, 10, base, Magnitude(v));
  }

  /** An unsigned number printed in base 8, 10 or 16 reads back as itself in that base. */
  lemma UnsignedRoundTrip(conv: Conv, v: int, width: nat, zeroes: bool, tail: string)
    requires conv != Signed && InRange(conv, v)
    requires tail != "" ==> !IsDigit(tail[0], Base(conv)) && tail[0] !in "xX"
    ensures var s := Printed(conv, v, width, zeroes);
      UnsignedAnswer(s + tail, Base(conv)) == Number(v, |s|, false)
  {
    hide IsDigit, Value, Laid, AllDigits, Printed, UnsignedAnswer;
    var blanks, j := PrintedIsLaid(conv, v, width, zeroes, tail);
    var p := Printed(conv, v, width, zeroes);
    LaidAnswer(p + tail, blanks, j, |p|, Base(conv), Base(conv), v);
  }

  /** The unsigned parser has no signs: a negative number printed is no number to it. */
  lemma UnsignedReadsNoSign(v: int, width: nat, zeroes: bool)
    requires InRange(Signed, v) && v < 0
    ensures UnsignedAnswer(Printed(Signed, v, width, zeroes), 10) == NoNumber
  {
    hide IsDigit, Value, Laid, AllDigits, Printed, UnsignedAnswer;
    var blanks, j := PrintedIsLaid(Signed, v, width, zeroes, "");
    var p := Printed(Signed, v, width, zeroes);
    assert p + "" == p;
    LaidAnswer(p, blanks, j, |p|, 10, 10, Magnitude(v));
  }

  /** Both parsers read the same digits of a string, and agree where neither saturates. */
  lemma ParsersAgree(s: string, base: int)
    requires SignedAnswer(s, base).Number? && UnsignedAnswer(s, base).Number?
    ensures SignedAnswer(s, base).end == UnsignedAnswer(s, base).end
    ensures UnsignedAnswer(s, base).range ==> SignedAnswer(s, base).range
    ensures SignedAnswer(s, base).range || SignedAnswer(s, base).value == UnsignedAnswer(s, base).value
  {
    var i := Skip(s, 0);
    var b := BaseFor(s, i, base);
    assert i < |s| && s[i] in "-+" ==> !IsDigit(s[i], b);
  }
}
