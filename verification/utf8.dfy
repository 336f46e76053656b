/** UTF-8 encoding of JavaScript strings, and why no two JSON texts share their bytes.

    A surrogate outside a pair is encoded as U+FFFD, so arbitrary strings do collide. JSON texts do
    not: the serialiser escapes such surrogates, so its texts are well formed, and well-formed strings
    come back from their bytes. */
module Utf8 {
  import opened JsString
  import opened Json

  newtype Byte = b: int | 0 <= b < 256

  type Bytes = seq<Byte>

  /** The encoding of one code point. */
  function EncodePoint(c: nat): Bytes
    requires c < 0x11_0000
  {
    if c < 0x80 then [c as Byte]
    else if c < 0x800 then [(0xC0 + c / 64) as Byte, (0x80 + c % 64) as Byte]
    else if c < 0x1_0000 then [(0xE0 + c / 4096) as Byte, (0x80 + c / 64 % 64) as Byte, (0x80 + c % 64) as Byte]
    else [(0xF0 + c / 262144) as Byte, (0x80 + c / 4096 % 64) as Byte, (0x80 + c / 64 % 64) as Byte,
      (0x80 + c % 64) as Byte]
  }

  function PairPoint(high: CodeUnit, low: CodeUnit): (c: nat)
    requires IsHigh(high) && IsLow(low)
    ensures 0x1_0000 <= c < 0x11_0000
  {
    0x1_0000 + (high as int - 0xD800) * 1024 + (low as int - 0xDC00)
  }

  /** A surrogate outside a pair becomes U+FFFD. */
  function Encode(s: Str): Bytes {
    if s == [] then []
    else if StartsWithPair(s) then EncodePoint(PairPoint(s[0], s[1])) + Encode(s[2..])
    else if IsHigh(s[0]) || IsLow(s[0]) then EncodePoint(0xFFFD) + Encode(s[1..])
    else EncodePoint(s[0] as int) + Encode(s[1..])
  }

  /** The surrogates of a code point beyond U+FFFF. */
  function HighOf(c: int): CodeUnit { (0xD800 + (c - 0x1_0000) / 1024 % 1024) as CodeUnit }

  function LowOf(c: int): CodeUnit { (0xDC00 + c % 1024) as CodeUnit }

  /** Reads the encoding back; on bytes that are no encoding its result is of no interest. */
  function Decode(b: Bytes): Str {
    if b == [] then []
    else if b[0] < 0x80 then [b[0] as CodeUnit] + Decode(b[1..])
    else if b[0] < 0xE0 && |b| >= 2 then
      [(b[0] as int % 32 * 64 + b[1] as int % 64) as CodeUnit] + Decode(b[2..])
    else if b[0] < 0xF0 && |b| >= 3 then
      [(b[0] as int % 16 * 4096 + b[1] as int % 64 * 64 + b[2] as int % 64) as CodeUnit] + Decode(b[3..])
    else if |b| >= 4 then
      var c := b[0] as int % 8 * 262144 + b[1] as int % 64 * 4096 + b[2] as int % 64 * 64 + b[3] as int % 64;
      [HighOf(c), LowOf(c)] + Decode(b[4..])
    else []
  }

  /** Every surrogate stands in a pair. */
  predicate WellFormed(s: Str) {
    s == [] ||
    if StartsWithPair(s) then WellFormed(s[2..])
    else !IsHigh(s[0]) && !IsLow(s[0]) && WellFormed(s[1..])
  }

  lemma DecodeTwo(b: Bytes, rest: Bytes)
    requires |b| >= 2 && 0x80 <= b[0] < 0xE0 && b[2..] == rest
    ensures Decode(b) == [(b[0] as int % 32 * 64 + b[1] as int % 64) as CodeUnit] + Decode(rest)
  {
  }

  lemma DecodeThree(b: Bytes, rest: Bytes)
    requires |b| >= 3 && 0xE0 <= b[0] < 0xF0 && b[3..] == rest
    ensures Decode(b) ==
      [(b[0] as int % 16 * 4096 + b[1] as int % 64 * 64 + b[2] as int % 64) as CodeUnit] + Decode(rest)
  {
  }

  lemma TwoBytes(c: nat)
    requires c < 0x800
    ensures (0xC0 + c / 64) % 32 * 64 + (0x80 + c % 64) % 64 == c
  {
  }

  lemma ThreeBytes(c: nat)
    requires c < 0x1_0000
    ensures (0xE0 + c / 4096) % 16 == c / 4096
    ensures (0x80 + c / 64 % 64) % 64 == c / 64 % 64 && (0x80 + c % 64) % 64 == c % 64
    ensures c / 4096 * 4096 + c / 64 % 64 * 64 + c % 64 == c
  {
    assert c / 64 == c / 4096 * 64 + c / 64 % 64;
  }

  lemma DecodeShort(c: nat, rest: Bytes)
    requires c < 0x1_0000
    ensures Decode(EncodePoint(c) + rest) == [c as CodeUnit] + Decode(rest)
  {
    var b := EncodePoint(c) + rest;
    assert b[|EncodePoint(c)|..] == rest;
    if c < 0x80 {
    } else if c < 0x800 {
      TwoBytes(c);
      DecodeTwo(b, rest);
    } else {
      ThreeBytes(c);
      DecodeThree(b, rest);
    }
  }

  lemma SplitPoint(c: nat)
    requires c < 0x11_0000
    ensures c == c / 262144 * 262144 + c / 4096 % 64 * 4096 + c / 64 % 64 * 64 + c % 64
    ensures c / 262144 <= 4
  {
    assert c / 64 == c / 4096 * 64 + c / 64 % 64;
    assert c / 4096 == c / 262144 * 64 + c / 4096 % 64;
  }

  lemma PairFromPoint(high: CodeUnit, low: CodeUnit)
    requires IsHigh(high) && IsLow(low)
    ensures HighOf(PairPoint(high, low)) == high && LowOf(PairPoint(high, low)) == low
  {
    HighAndLow(high as int - 0xD800, low as int - 0xDC00);
  }

  lemma HighAndLow(a: int, b: int)
    requires 0 <= a < 1024 && 0 <= b < 1024
    ensures (a * 1024 + b) / 1024 % 1024 == a && (0x1_0000 + a * 1024 + b) % 1024 == b
  {
  }

  lemma FourBytes(c: nat)
    requires 0x1_0000 <= c < 0x11_0000
    ensures (0xF0 + c / 262144) % 8 == c / 262144 && (0x80 + c / 4096 % 64) % 64 == c / 4096 % 64
    ensures (0x80 + c / 64 % 64) % 64 == c / 64 % 64 && (0x80 + c % 64) % 64 == c % 64
  {
    SplitPoint(c);
  }

  lemma DecodeFour(b: Bytes, c: nat, rest: Bytes)
    requires |b| >= 4 && b[0] >= 0xF0 && b[4..] == rest
    requires c == b[0] as int % 8 * 262144 + b[1] as int % 64 * 4096 + b[2] as int % 64 * 64 + b[3] as int % 64
    ensures Decode(b) ==
      [HighOf(c), LowOf(c)] + Decode(rest)
  {
  }

  lemma DecodePoint(c: nat, rest: Bytes)
    requires 0x1_0000 <= c < 0x11_0000
    ensures Decode(EncodePoint(c) + rest) ==
      [HighOf(c), LowOf(c)] + Decode(rest)
  {
    var b := EncodePoint(c) + rest;
    assert b[4..] == rest;
    SplitPoint(c);
    FourBytes(c);
    DecodeFour(b, c, rest);
  }

  lemma DecodeLong(high: CodeUnit, low: CodeUnit, rest: Bytes)
    requires IsHigh(high) && IsLow(low)
    ensures Decode(EncodePoint(PairPoint(high, low)) + rest) == [high, low] + Decode(rest)
  {
    PairFromPoint(high, low);
    DecodePoint(PairPoint(high, low), rest);
  }

  /** Well-formed strings come back from their bytes. */
  lemma {:induction false} DecodeEncode(s: Str)
    requires WellFormed(s)
    ensures Decode(Encode(s)) == s
    decreases |s|
  {
    if s == [] {
    } else if StartsWithPair(s) {
      DecodeEncode(s[2..]);
      DecodeLong(s[0], s[1], Encode(s[2..]));
      assert s == [s[0], s[1]] + s[2..];
    } else {
      DecodeEncode(s[1..]);
      DecodeShort(s[0] as int, Encode(s[1..]));
      assert s == [s[0]] + s[1..];
    }
  }

  // ----- JSON texts are well formed, whatever surrogates their strings hold ---

  lemma {:induction false} WellFormedConcat(s: Str, t: Str)
    requires WellFormed(s) && WellFormed(t)
    ensures WellFormed(s + t)
    decreases |s|
  {
    if s == [] {
      assert s + t == t;
    } else if StartsWithPair(s) {
      WellFormedConcat(s[2..], t);
      assert (s + t)[2..] == s[2..] + t;
    } else {
      WellFormedConcat(s[1..], t);
      assert (s + t)[1..] == s[1..] + t;
    }
  }

  lemma {:induction false} AsciiWellFormed(s: Str)
    requires forall i :: 0 <= i < |s| ==> s[i] < 128
    ensures WellFormed(s)
  {
    if s != [] { AsciiWellFormed(s[1..]); }
  }

  lemma EscapeUnitWellFormed(u: CodeUnit)
    ensures WellFormed(EscapeUnit(u))
  {
    var t := EscapeUnit(u);
    if |t| == 1 && t[0] >= 128 {
      assert t[1..] == [];
    } else {
      AsciiWellFormed(t);
    }
  }

  lemma {:induction false} QuoteWellFormed(s: Str)
    ensures WellFormed(Escape(s)) && WellFormed(Quote(s))
    decreases |s|
  {
    if s == [] {
    } else if StartsWithPair(s) {
      QuoteWellFormed(s[2..]);
      assert WellFormed(s[..2]);
      WellFormedConcat(s[..2], Escape(s[2..]));
    } else {
      QuoteWellFormed(s[1..]);
      EscapeUnitWellFormed(s[0]);
      WellFormedConcat(EscapeUnit(s[0]), Escape(s[1..]));
    }
    AsciiWellFormed([QUOTE]);
    WellFormedConcat([QUOTE], Escape(s));
    WellFormedConcat([QUOTE] + Escape(s), [QUOTE]);
  }

  lemma {:induction false} DigitsWellFormed(n: nat)
    ensures WellFormed(Digits(n))
  {
    if n >= 10 {
      DigitsWellFormed(n / 10);
      WellFormedConcat(Digits(n / 10), [(48 + n % 10) as CodeUnit]);
    }
  }

  lemma {:induction false} JoinWellFormed(parts: seq<Str>)
    requires forall i :: 0 <= i < |parts| ==> WellFormed(parts[i])
    ensures WellFormed(JoinComma(parts))
  {
    if |parts| > 1 {
      JoinWellFormed(parts[1..]);
      WellFormedConcat(parts[0], [COMMA]);
      WellFormedConcat(parts[0] + [COMMA], JoinComma(parts[1..]));
    }
  }

  lemma {:induction false} MembersWellFormed(fields: seq<(Str, Str)>)
    requires forall i :: 0 <= i < |fields| ==> WellFormed(fields[i].1)
    ensures forall i :: 0 <= i < |Members(fields)| ==> WellFormed(Members(fields)[i])
  {
    if fields != [] {
      MembersWellFormed(fields[1..]);
      QuoteWellFormed(fields[0].0);
      WellFormedConcat(Quote(fields[0].0), [COLON]);
      WellFormedConcat(Quote(fields[0].0) + [COLON], fields[0].1);
    }
  }

  lemma BracketsWellFormed(open: CodeUnit, body: Str, close: CodeUnit)
    requires open < 128 && close < 128 && WellFormed(body)
    ensures WellFormed([open] + body + [close])
  {
    AsciiWellFormed([open]);
    AsciiWellFormed([close]);
    WellFormedConcat([open], body);
    WellFormedConcat([open] + body, [close]);
  }

  lemma {:induction false} StringifyWellFormed(j: Json)
    ensures WellFormed(Stringify(j))
  {
    match j
    case Null => AsciiWellFormed(NULL_TEXT);
    case Num(n) =>
      DigitsWellFormed(if n < 0 then -n else n);
      AsciiWellFormed([MINUS]);
      if n < 0 { WellFormedConcat([MINUS], Digits(-n)); }
    case Text(s) => QuoteWellFormed(s);
    case Arr(items) =>
      forall i | 0 <= i < |items| { StringifyWellFormed(items[i]); }
      JoinWellFormed(StringifyItems(items));
      BracketsWellFormed(OPEN_BRACKET, JoinComma(StringifyItems(items)), CLOSE_BRACKET);
    case Obj(keys, values) =>
      forall i | 0 <= i < |values| { StringifyWellFormed(values[i]); }
      var entries := Zip(keys, StringifyItems(values));
      SortByKeyMembers(entries);
      var sorted := SortByKey(entries);
      forall i | 0 <= i < |sorted| ensures WellFormed(sorted[i].1) {
        assert sorted[i] in entries;
        var k :| 0 <= k < |entries| && entries[k] == sorted[i];
      }
      MembersWellFormed(sorted);
      JoinWellFormed(Members(sorted));
      BracketsWellFormed(OPEN_BRACE, JoinComma(Members(sorted)), CLOSE_BRACE);
  }

  /** Two JSON texts with the same bytes are the same text. */
  lemma TextFromBytes(a: Json, b: Json)
    ensures Encode(Stringify(a)) == Encode(Stringify(b)) <==> Stringify(a) == Stringify(b)
  {
    StringifyWellFormed(a);
    StringifyWellFormed(b);
    DecodeEncode(Stringify(a));
    DecodeEncode(Stringify(b));
  }
}
