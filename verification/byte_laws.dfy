/** The bytes of a text in UTF-8, and the bytes that each runtime reads in a hexadecimal text. */
module ByteLaws {
  import opened Wrappers
  import opened JsString
  import opened Json
  import opened Utf8
  import opened Hex

  // ----- UTF-8 ---------------------------------------------------------------

  predicate Trails(b: Byte) {
    0x80 <= b <= 0xBF
  }

  predicate TwoBytes(b: Bytes, c: nat) {
    |b| == 2 && 0xC2 <= b[0] <= 0xDF && Trails(b[1]) && c == (b[0] as int - 0xC0) * 64 + (b[1] as int - 0x80)
  }

  predicate ThreeBytes(b: Bytes, c: nat) {
    && |b| == 3 && 0xE0 <= b[0] <= 0xEF && Trails(b[1]) && Trails(b[2]) && (b[0] == 0xE0 ==> b[1] >= 0xA0)
    && c == (b[0] as int - 0xE0) * 4096 + (b[1] as int - 0x80) * 64 + (b[2] as int - 0x80)
  }

  predicate FourBytes(b: Bytes, c: nat) {
    && |b| == 4 && 0xF0 <= b[0] <= 0xF4 && Trails(b[1]) && Trails(b[2]) && Trails(b[3])
    && (b[0] == 0xF0 ==> b[1] >= 0x90)
    && c == (b[0] as int - 0xF0) * 262144 + (b[1] as int - 0x80) * 4096 + (b[2] as int - 0x80) * 64 +
         (b[3] as int - 0x80)
  }

  /** The code point of an encoding by RFC 3629, section 3, with the ranges of section 4: none is longer than it need
      be. */
  predicate Encodes(b: Bytes, c: nat) {
    (|b| == 1 && b[0] <= 0x7F && c == b[0] as int) || TwoBytes(b, c) || ThreeBytes(b, c) || FourBytes(b, c)
  }

  lemma SixBits(c: nat) returns (high: nat, low: nat)
    ensures high == c / 64 && low == c % 64 && c == high * 64 + low && low < 64
  {
    high, low := c / 64, c % 64;
  }

  lemma Nested(c: nat)
    ensures c / 64 / 64 == c / 4096 && c / 4096 / 64 == c / 262144
  {
  }

  lemma TwoIs(c: nat)
    requires 0x80 <= c < 0x800
    ensures TwoBytes(EncodePoint(c), c)
  {
    var high, low := SixBits(c);
  }

  lemma ThreeIs(c: nat)
    requires 0x800 <= c < 0x1_0000
    ensures ThreeBytes(EncodePoint(c), c)
  {
    var high, low := SixBits(c);
    var top, middle := SixBits(high);
    Nested(c);
    assert EncodePoint(c) == [(0xE0 + top) as Byte, (0x80 + middle) as Byte, (0x80 + low) as Byte];
  }

  lemma FourIs(c: nat)
    requires 0x1_0000 <= c < 0x11_0000
    ensures FourBytes(EncodePoint(c), c)
  {
    var high, low := SixBits(c);
    var upper, middle := SixBits(high);
    var top, next := SixBits(upper);
    Nested(c);
    assert EncodePoint(c) ==
      [(0xF0 + top) as Byte, (0x80 + next) as Byte, (0x80 + middle) as Byte, (0x80 + low) as Byte];
  }

  lemma PointIs(c: nat)
    requires c < 0x11_0000
    ensures Encodes(EncodePoint(c), c)
  {
    if c < 0x80 {
    } else if c < 0x800 {
      TwoIs(c);
    } else if c < 0x1_0000 {
      ThreeIs(c);
    } else {
      FourIs(c);
    }
  }

  /** One code unit's bytes: those of its code point, or of the replacement character for half of a pair. */
  lemma UnitIs(u: CodeUnit)
    ensures Encodes(Encode([u]), if 0xD800 <= u <= 0xDFFF then 0xFFFD else u as int)
  {
    PointIs(if 0xD800 <= u <= 0xDFFF then 0xFFFD else u as int);
  }

  /** A surrogate pair's bytes are those of the one code point it stands for. */
  lemma PairIs(high: CodeUnit, low: CodeUnit)
    requires 0xD800 <= high <= 0xDBFF && 0xDC00 <= low <= 0xDFFF
    ensures Encodes(Encode([high, low]), 0x1_0000 + (high as int - 0xD800) * 1024 + (low as int - 0xDC00))
  {
    PointIs(PairPoint(high, low));
    assert [high, low][2..] == [];
  }

  // ----- hexadecimal ---------------------------------------------------------

  const LOWER_DIGITS := "0123456789abcdef"

  const UPPER_DIGITS := "0123456789ABCDEF"

  ghost predicate IsDigitOf(u: CodeUnit, n: nat) {
    n < 16 && (u as int == LOWER_DIGITS[n] as int || u as int == UPPER_DIGITS[n] as int)
  }

  lemma DigitIs(u: CodeUnit, n: nat)
    ensures IsDigitOf(u, n) <==> HexValue(u) == Some(n)
  {
  }

  ghost predicate NoDigit(u: CodeUnit) {
    forall n: nat :: !IsDigitOf(u, n)
  }

  lemma NoDigitIs(u: CodeUnit)
    ensures NoDigit(u) <==> HexValue(u) == None
  {
    forall n: nat ensures IsDigitOf(u, n) <==> HexValue(u) == Some(n) { DigitIs(u, n); }
    if HexValue(u).Some? { assert IsDigitOf(u, HexValue(u).value); }
  }

  /** Two digits of either case are one byte to both runtimes. */
  lemma DigitsRead(a: CodeUnit, b: CodeUnit, x: nat, y: nat)
    requires IsDigitOf(a, x) && IsDigitOf(b, y)
    ensures NodeFromHex([a, b]) == BrowserFromHex([a, b]) && |NodeFromHex([a, b])| == 1
    ensures NodeFromHex([a, b])[0] as int == 16 * x + y
  {
    DigitIs(a, x);
    DigitIs(b, y);
    assert [a, b][2..] == [];
  }

  /** A pair that is not two digits ends Node's reading. To the browser it is the digit it starts with; or the digit
      after a plus or white space, or that digit below 256 after a minus; or zero. */
  lemma OthersRead(a: CodeUnit, b: CodeUnit, x: nat)
    requires NoDigit(a) || NoDigit(b)
    requires !IsLineTerminator(a) && !IsLineTerminator(b)
    ensures NodeFromHex([a, b]) == [] && |BrowserFromHex([a, b])| == 1
    ensures IsDigitOf(a, x) ==> BrowserFromHex([a, b])[0] as int == x
    ensures (a as int == '+' as int || IsWhiteSpace(a)) && IsDigitOf(b, x) ==> BrowserFromHex([a, b])[0] as int == x
    ensures a as int == '-' as int && IsDigitOf(b, x) ==> BrowserFromHex([a, b])[0] as int == (256 - x) % 256
    ensures NoDigit(a) && (NoDigit(b) || !(a as int == '+' as int || a as int == '-' as int || IsWhiteSpace(a))) ==>
      BrowserFromHex([a, b])[0] == 0
  {
    NoDigitIs(a);
    NoDigitIs(b);
    DigitIs(a, x);
    DigitIs(b, x);
    assert [a, b][2..] == [];
  }

  lemma PairSplits(a: CodeUnit, b: CodeUnit, rest: Str)
    ensures ([a, b] + rest)[2..] == rest && ([a, b] + rest)[1..] == [b] + rest && [a, b][2..] == []
  {
  }

  /** Node stops at the first pair that is not two digits. */
  lemma NodeStops(a: CodeUnit, b: CodeUnit, rest: Str)
    requires NoDigit(a) || NoDigit(b)
    ensures NodeFromHex([a, b] + rest) == []
  {
    NoDigitIs(a);
    NoDigitIs(b);
  }

  lemma NodeReadsOn(a: CodeUnit, b: CodeUnit, x: nat, y: nat, rest: Str)
    requires IsDigitOf(a, x) && IsDigitOf(b, y)
    ensures NodeFromHex([a, b] + rest) == NodeFromHex([a, b]) + NodeFromHex(rest)
  {
    DigitIs(a, x);
    DigitIs(b, y);
    PairSplits(a, b, rest);
  }

  predicate EndsLine(u: CodeUnit) {
    u as int in {10, 13, 0x2028, 0x2029}
  }

  /** The browser reads on, and passes over the ends of lines. */
  lemma BrowserReadsOn(a: CodeUnit, b: CodeUnit, rest: Str)
    ensures BrowserFromHex([a, b] + rest) ==
      if EndsLine(a) || EndsLine(b) then BrowserFromHex([b] + rest)
      else BrowserFromHex([a, b]) + BrowserFromHex(rest)
  {
    PairSplits(a, b, rest);
    assert EndsLine(a) == IsLineTerminator(a) && EndsLine(b) == IsLineTerminator(b);
  }
}
