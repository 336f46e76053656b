/** Hexadecimal text: what both runtimes write, and how differently they read malformed text. */
module Hex {
  import opened Wrappers
  import opened JsString
  import opened Json
  import opened Utf8

  /** Two lower-case digits a byte. */
  function ToHex(b: Bytes): (s: Str)
    ensures |s| == 2 * |b|
  {
    if b == [] then [] else [HexDigit(b[0] as int / 16), HexDigit(b[0] as int % 16)] + ToHex(b[1..])
  }

  predicate IsHexPair(a: CodeUnit, b: CodeUnit) {
    HexValue(a).Some? && HexValue(b).Some?
  }

  /** Node's `Buffer.from(s, "hex")`: stops at the first pair that is not hexadecimal. */
  function NodeFromHex(s: Str): Bytes {
    if |s| >= 2 && IsHexPair(s[0], s[1]) then
      [(16 * HexValue(s[0]).value + HexValue(s[1]).value) as Byte] + NodeFromHex(s[2..])
    else []
  }

  /** The characters that `.` in a regular expression does not match. */
  predicate IsLineTerminator(u: CodeUnit) {
    u == 10 || u == 13 || u == 0x2028 || u == 0x2029
  }

  /** `parseInt(pair, 16)` stored in a byte array: a missing number becomes 0, a sign wraps. */
  function ParsePair(a: CodeUnit, b: CodeUnit): Byte {
    match (HexValue(a), HexValue(b))
    case (Some(x), Some(y)) => (16 * x + y) as Byte
    case (Some(x), None) => x as Byte
    case (None, Some(y)) =>
      if a == 45 && y > 0 then (256 - y) as Byte
      else if a == 45 || a == 43 || IsWhiteSpace(a) then y as Byte
      else 0
    case (None, None) => 0
  }

  /** The browser verifier's `hexToBytes`: every match of `.{2}`, whatever it holds. */
  function BrowserFromHex(s: Str): Bytes {
    if |s| < 2 then []
    else if IsLineTerminator(s[0]) || IsLineTerminator(s[1]) then BrowserFromHex(s[1..])
    else [ParsePair(s[0], s[1])] + BrowserFromHex(s[2..])
  }

  /** Both readers undo the writer. */
  lemma {:induction false} HexRoundTrip(b: Bytes)
    ensures NodeFromHex(ToHex(b)) == b && BrowserFromHex(ToHex(b)) == b
  {
    if b != [] {
      HexRoundTrip(b[1..]);
      var n := b[0] as int;
      assert HexValue(HexDigit(n / 16)) == Some(n / 16) && HexValue(HexDigit(n % 16)) == Some(n % 16);
      assert ToHex(b)[2..] == ToHex(b[1..]);
      assert b == [b[0]] + b[1..];
    }
  }

  /** No two neighbouring characters that the browser would read as a pair. */
  predicate NothingToRead(s: Str) {
    forall i :: 0 <= i < |s| - 1 ==> IsLineTerminator(s[i]) || IsLineTerminator(s[i + 1])
  }

  lemma {:induction false} NothingReadIff(s: Str)
    ensures BrowserFromHex(s) == [] <==> NothingToRead(s)
  {
    if |s| >= 2 && (IsLineTerminator(s[0]) || IsLineTerminator(s[1])) {
      NothingReadIff(s[1..]);
      if NothingToRead(s[1..]) {
        forall i | 0 <= i < |s| - 1 ensures IsLineTerminator(s[i]) || IsLineTerminator(s[i + 1]) {
          if i > 0 { assert s[i] == s[1..][i - 1] && s[i + 1] == s[1..][i]; }
        }
      }
      if NothingToRead(s) {
        forall i | 0 <= i < |s[1..]| - 1 ensures IsLineTerminator(s[1..][i]) || IsLineTerminator(s[1..][i + 1]) {
          assert s[1..][i] == s[i + 1] && s[1..][i + 1] == s[i + 2];
        }
      }
    } else if |s| >= 2 {
      assert !NothingToRead(s);
    }
  }

  /** What is left after the leading hexadecimal pairs. */
  function AfterHexPairs(s: Str): Str {
    if |s| >= 2 && IsHexPair(s[0], s[1]) then AfterHexPairs(s[2..]) else s
  }

  /** The two readers agree exactly on texts whose malformed tail gives the browser nothing to read. */
  lemma {:induction false} ReadersAgreeIff(s: Str)
    ensures NodeFromHex(s) == BrowserFromHex(s) <==> NothingToRead(AfterHexPairs(s))
  {
    if |s| >= 2 && IsHexPair(s[0], s[1]) {
      ReadersAgreeIff(s[2..]);
      assert ParsePair(s[0], s[1]) == (16 * HexValue(s[0]).value + HexValue(s[1]).value) as Byte;
      assert NodeFromHex(s)[1..] == NodeFromHex(s[2..]) && BrowserFromHex(s)[1..] == BrowserFromHex(s[2..]);
    } else {
      NothingReadIff(s);
    }
  }

  /** They do differ: on "zz" Node reads nothing and the browser reads a zero byte. */
  lemma ReadersDiffer()
    ensures NodeFromHex([122, 122]) == [] && BrowserFromHex([122, 122]) == [0]
  {
    assert BrowserFromHex([122, 122]) == [0] + BrowserFromHex([122, 122][2..]);
  }
}
