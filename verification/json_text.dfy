/** Reading back what the serialiser writes: the string, number and value layers.

    The texts are those of section 7 of RFC 8259 and of integers. Every lemma here is about one step of
    the parser on a text that starts with something printed: the step reads exactly that and leaves the
    rest. The value layer puts the steps together by recursion over the value. */
module JsonText {
  import opened Wrappers
  import opened JsString
  import opened Json

  // ----- strings -------------------------------------------------------------

  lemma HexDigitValue(d: nat)
    requires d < 16
    ensures HexValue(HexDigit(d)) == Some(d)
  {
  }

  lemma FourDigits(n: nat)
    requires n < 0x1_0000
    ensures n / 4096 < 16 && n == 4096 * (n / 4096) + 256 * (n / 256 % 16) + 16 * (n / 16 % 16) + n % 16
  {
    assert n / 16 == (n / 256) * 16 + n / 16 % 16;
    assert n / 256 == (n / 4096) * 16 + n / 256 % 16;
  }

  lemma Hex4RoundTrip(u: CodeUnit)
    ensures ParseHex4(Hex4(u)) == Some(u)
  {
    var n := u as int;
    FourDigits(n);
    HexDigitValue(n / 4096);
    HexDigitValue(n / 256 % 16);
    HexDigitValue(n / 16 % 16);
    HexDigitValue(n % 16);
  }

  lemma HexUnitRoundTrip(u: CodeUnit, rest: Str)
    ensures ParseUnit([BACKSLASH, 117] + Hex4(u) + rest) == Some((u, rest))
  {
    var t := [BACKSLASH, 117] + Hex4(u) + rest;
    assert t[0] == BACKSLASH && t[1] == 117;
    assert t[2..6] == Hex4(u) && t[6..] == rest;
    Hex4RoundTrip(u);
  }

  lemma ShortUnitRoundTrip(u: CodeUnit, rest: Str)
    requires |EscapeUnit(u)| <= 2
    ensures ParseUnit(EscapeUnit(u) + rest) == Some((u, rest))
  {
    var t := EscapeUnit(u) + rest;
    assert t[|EscapeUnit(u)|..] == rest;
    assert t[0] == EscapeUnit(u)[0];
    assert |EscapeUnit(u)| == 2 ==> t[1] == EscapeUnit(u)[1];
  }

  lemma UnitRoundTrip(u: CodeUnit, rest: Str)
    ensures ParseUnit(EscapeUnit(u) + rest) == Some((u, rest))
    ensures EscapeUnit(u)[0] != QUOTE
  {
    if |EscapeUnit(u)| <= 2 {
      ShortUnitRoundTrip(u, rest);
    } else {
      HexUnitRoundTrip(u, rest);
    }
  }

  lemma PlainUnit(u: CodeUnit, tail: Str)
    requires u >= 32 && u != QUOTE && u != BACKSLASH
    ensures ParseUnit([u] + tail) == Some((u, tail))
  {
    assert ([u] + tail)[1..] == tail;
  }

  /** One character read, then the rest of the body. */
  lemma ReadUnit(t: Str, u: CodeUnit, tail: Str, s: Str, rest: Str)
    requires t != [] && t[0] != QUOTE && ParseUnit(t) == Some((u, tail)) && ParseBody(tail) == Some((s, rest))
    ensures ParseBody(t) == Some(([u] + s, rest))
  {
  }

  lemma EscapedPair(s: Str, rest: Str)
    requires StartsWithPair(s)
    ensures Escape(s) + rest == [s[0]] + ([s[1]] + (Escape(s[2..]) + rest))
  {
  }

  lemma EscapedUnit(s: Str, rest: Str)
    requires s != [] && !StartsWithPair(s)
    ensures Escape(s) + rest == EscapeUnit(s[0]) + (Escape(s[1..]) + rest)
  {
  }

  lemma PairBody(s: Str, rest: Str)
    requires StartsWithPair(s) && ParseBody(Escape(s[2..]) + ([QUOTE] + rest)) == Some((s[2..], rest))
    ensures ParseBody(Escape(s) + ([QUOTE] + rest)) == Some((s, rest))
  {
    assert s == [s[0]] + ([s[1]] + s[2..]);
    var tail := Escape(s[2..]) + ([QUOTE] + rest);
    EscapedPair(s, [QUOTE] + rest);
    PlainUnit(s[1], tail);
    ReadUnit([s[1]] + tail, s[1], tail, s[2..], rest);
    PlainUnit(s[0], [s[1]] + tail);
    ReadUnit([s[0]] + ([s[1]] + tail), s[0], [s[1]] + tail, [s[1]] + s[2..], rest);
  }

  lemma UnitBody(s: Str, rest: Str)
    requires s != [] && !StartsWithPair(s) && ParseBody(Escape(s[1..]) + ([QUOTE] + rest)) == Some((s[1..], rest))
    ensures ParseBody(Escape(s) + ([QUOTE] + rest)) == Some((s, rest))
  {
    assert s == [s[0]] + s[1..];
    var tail := Escape(s[1..]) + ([QUOTE] + rest);
    EscapedUnit(s, [QUOTE] + rest);
    UnitRoundTrip(s[0], tail);
    ReadUnit(EscapeUnit(s[0]) + tail, s[0], tail, s[1..], rest);
  }

  lemma EmptyBody(rest: Str)
    ensures ParseBody(Escape([]) + ([QUOTE] + rest)) == Some(([], rest))
  {
    assert Escape([]) + ([QUOTE] + rest) == [QUOTE] + rest && ([QUOTE] + rest)[1..] == rest;
  }

  /** Escaping a string and reading it up to the closing quote gives the string back. */
  lemma {:induction false} BodyRoundTrip(s: Str, rest: Str)
    ensures ParseBody(Escape(s) + ([QUOTE] + rest)) == Some((s, rest))
    decreases |s|
  {
    if s == [] {
      EmptyBody(rest);
    } else if StartsWithPair(s) {
      BodyRoundTrip(s[2..], rest);
      PairBody(s, rest);
    } else {
      BodyRoundTrip(s[1..], rest);
      UnitBody(s, rest);
    }
  }

  // ----- integers ------------------------------------------------------------

  lemma {:induction false} DigitsRoundTrip(n: nat)
    ensures Digits(n) != []
    ensures forall i :: 0 <= i < |Digits(n)| ==> IsDigit(Digits(n)[i])
    ensures DigitsValue(Digits(n)) == n
  {
    if n < 10 {
      assert Digits(n)[..0] == [];
    } else {
      DigitsRoundTrip(n / 10);
      var ds := Digits(n);
      assert ds[..|ds| - 1] == Digits(n / 10);
    }
  }

  lemma {:induction false} TakeDigitsStops(ds: Str, rest: Str)
    requires forall i :: 0 <= i < |ds| ==> IsDigit(ds[i])
    requires rest != [] ==> !IsDigit(rest[0])
    ensures TakeDigits(ds + rest) == ds
  {
    if ds == [] {
      assert ds + rest == rest;
    } else {
      TakeDigitsStops(ds[1..], rest);
      assert (ds + rest)[1..] == ds[1..] + rest;
    }
  }

  lemma NatRoundTrip(n: nat, rest: Str)
    requires rest != [] ==> !IsDigit(rest[0])
    ensures ParseNat(Digits(n) + rest) == Some((n, rest))
  {
    DigitsRoundTrip(n);
    TakeDigitsStops(Digits(n), rest);
    assert (Digits(n) + rest)[|Digits(n)|..] == rest;
  }

  // ----- values --------------------------------------------------------------

  /** Printing in the stored order, without the key sort. */
  function Print(j: Json): Str {
    match j
    case Null => NULL_TEXT
    case Num(n) => IntText(n)
    case Text(s) => Quote(s)
    case Arr(items) => [OPEN_BRACKET] + JoinComma(PrintItems(items)) + [CLOSE_BRACKET]
    case Obj(keys, values) => [OPEN_BRACE] + JoinComma(Members(Zip(keys, PrintItems(values)))) + [CLOSE_BRACE]
  }

  function PrintItems(items: seq<Json>): seq<Str> {
    seq(|items|, i requires 0 <= i < |items| => Print(items[i]))
  }

  /** Every object pairs each key with one value. */
  ghost predicate Aligned(j: Json) {
    match j
    case Arr(items) => forall i :: 0 <= i < |items| ==> Aligned(items[i])
    case Obj(keys, values) => |keys| == |values| && forall i :: 0 <= i < |values| ==> Aligned(values[i])
    case _ => true
  }

  /** What may follow a value inside a text. */
  predicate Delimited(rest: Str) {
    rest == [] || rest[0] == COMMA || rest[0] == CLOSE_BRACKET || rest[0] == CLOSE_BRACE
  }

  lemma PrintHead(j: Json)
    ensures Print(j) != [] && Print(j)[0] != CLOSE_BRACKET
  {
    if j.Num? {
      DigitsRoundTrip(if j.n < 0 then -j.n else j.n);
    }
  }

  // One step of the parser, seen from the text it has to read.

  lemma ReadText(s: Str, rest: Str)
    ensures ParseValue(Quote(s) + rest) == Some((Text(s), rest))
  {
    BodyRoundTrip(s, rest);
    assert (Quote(s) + rest)[1..] == Escape(s) + ([QUOTE] + rest);
  }

  lemma ReadPositive(t: Str, n: int, rest: Str)
    requires t != [] && IsDigit(t[0]) && ParseNat(t) == Some((n, rest))
    ensures ParseValue(t) == Some((Num(n), rest))
  {
    assert t[0] != 110 && t[0] != QUOTE && t[0] != OPEN_BRACKET && t[0] != OPEN_BRACE && t[0] != MINUS;
  }

  lemma ReadNegative(t: Str, n: int, rest: Str)
    requires t != [] && t[0] == MINUS && ParseNat(t[1..]) == Some((n, rest))
    ensures ParseValue(t) == Some((Num(-n), rest))
  {
  }

  lemma NegativeText(n: int, rest: Str)
    requires n < 0
    ensures var t := IntText(n) + rest; t != [] && t[0] == MINUS && t[1..] == Digits(-n) + rest
  {
    assert (IntText(n) + rest)[1..] == Digits(-n) + rest;
  }

  lemma PositiveText(n: int, rest: Str)
    requires n >= 0
    ensures var t := IntText(n) + rest; t != [] && IsDigit(t[0]) && t == Digits(n) + rest
  {
    DigitsRoundTrip(n);
    assert (Digits(n) + rest)[0] == Digits(n)[0];
  }

  lemma ReadNum(n: int, rest: Str)
    requires Delimited(rest)
    ensures ParseValue(IntText(n) + rest) == Some((Num(n), rest))
  {
    if n < 0 {
      NegativeText(n, rest);
      NatRoundTrip(-n, rest);
      ReadNegative(IntText(n) + rest, -n, rest);
    } else {
      PositiveText(n, rest);
      NatRoundTrip(n, rest);
      ReadPositive(IntText(n) + rest, n, rest);
    }
  }

  lemma ReadEmpty(rest: Str)
    ensures ParseValue(NULL_TEXT + rest) == Some((Null, rest))
    ensures ParseValue([OPEN_BRACKET] + [] + [CLOSE_BRACKET] + rest) == Some((Arr([]), rest))
    ensures ParseValue([OPEN_BRACE] + [] + [CLOSE_BRACE] + rest) == Some((Obj([], []), rest))
  {
    var n, a, o := NULL_TEXT + rest, [OPEN_BRACKET] + [] + [CLOSE_BRACKET] + rest,
      [OPEN_BRACE] + [] + [CLOSE_BRACE] + rest;
    assert n[..4] == NULL_TEXT && n[4..] == rest;
    assert a[1] == CLOSE_BRACKET && a[2..] == rest;
    assert o[1] == CLOSE_BRACE && o[2..] == rest;
  }

  lemma ReadArr(body: Str, items: seq<Json>, rest: Str)
    requires body != [] && body[0] != CLOSE_BRACKET && ParseItems(body) == Some((items, rest))
    ensures ParseValue([OPEN_BRACKET] + body) == Some((Arr(items), rest))
  {
    assert ([OPEN_BRACKET] + body)[1..] == body;
  }

  lemma ReadObj(body: Str, keys: seq<Str>, values: seq<Json>, rest: Str)
    requires body != [] && body[0] != CLOSE_BRACE && ParseFields(body) == Some((keys, values, rest))
    ensures ParseValue([OPEN_BRACE] + body) == Some((Obj(keys, values), rest))
  {
    assert ([OPEN_BRACE] + body)[1..] == body;
  }

  lemma ReadLastItem(t: Str, j: Json, rest: Str)
    requires ParseValue(t) == Some((j, [CLOSE_BRACKET] + rest))
    ensures ParseItems(t) == Some(([j], rest))
  {
    assert ([CLOSE_BRACKET] + rest)[1..] == rest;
  }

  lemma ReadItem(t: Str, j: Json, tail: Str, items: seq<Json>, rest: Str)
    requires ParseValue(t) == Some((j, [COMMA] + tail)) && ParseItems(tail) == Some((items, rest))
    ensures ParseItems(t) == Some(([j] + items, rest))
  {
    assert ([COMMA] + tail)[1..] == tail;
  }

  lemma ReadMember(key: Str, text: Str)
    ensures var t := Quote(key) + [COLON] + text;
      t[0] == QUOTE && ParseBody(t[1..]) == Some((key, [COLON] + text))
  {
    var t := Quote(key) + [COLON] + text;
    assert t[1..] == Escape(key) + ([QUOTE] + ([COLON] + text));
    BodyRoundTrip(key, [COLON] + text);
  }

  lemma ReadLastField(key: Str, text: Str, j: Json, rest: Str)
    requires ParseValue(text) == Some((j, [CLOSE_BRACE] + rest))
    ensures ParseFields(Quote(key) + [COLON] + text) == Some(([key], [j], rest))
  {
    ReadMember(key, text);
    assert ([COLON] + text)[1..] == text;
    assert ([CLOSE_BRACE] + rest)[1..] == rest;
  }

  lemma ReadField(key: Str, text: Str, j: Json, tail: Str, keys: seq<Str>, values: seq<Json>, rest: Str)
    requires ParseValue(text) == Some((j, [COMMA] + tail)) && ParseFields(tail) == Some((keys, values, rest))
    ensures ParseFields(Quote(key) + [COLON] + text) == Some(([key] + keys, [j] + values, rest))
  {
    ReadMember(key, text);
    assert ([COLON] + text)[1..] == text;
    assert ([COMMA] + tail)[1..] == tail;
  }

  // How the text of a list splits at its first element.

  function ItemsText(items: seq<Json>, rest: Str): Str {
    JoinComma(PrintItems(items)) + [CLOSE_BRACKET] + rest
  }

  function FieldsText(keys: seq<Str>, values: seq<Json>, rest: Str): Str {
    JoinComma(Members(Zip(keys, PrintItems(values)))) + [CLOSE_BRACE] + rest
  }

  lemma SplitItems(items: seq<Json>, rest: Str)
    requires items != []
    ensures ItemsText(items, rest) ==
      Print(items[0]) + (if |items| == 1 then [CLOSE_BRACKET] + rest else [COMMA] + ItemsText(items[1..], rest))
    ensures ItemsText(items, rest)[0] != CLOSE_BRACKET
  {
    assert PrintItems(items)[1..] == PrintItems(items[1..]);
    PrintHead(items[0]);
    assert ItemsText(items, rest)[0] == Print(items[0])[0];
  }

  lemma SplitFields(keys: seq<Str>, values: seq<Json>, rest: Str)
    requires keys != [] && |keys| == |values|
    ensures FieldsText(keys, values, rest) == Quote(keys[0]) + [COLON] + (Print(values[0]) +
      (if |keys| == 1 then [CLOSE_BRACE] + rest else [COMMA] + FieldsText(keys[1..], values[1..], rest)))
    ensures FieldsText(keys, values, rest)[0] == QUOTE
  {
    var fields := Zip(keys, PrintItems(values));
    assert fields[1..] == Zip(keys[1..], PrintItems(values[1..]));
    assert Members(fields) == [Quote(keys[0]) + [COLON] + Print(values[0])] + Members(fields[1..]);
    assert |keys| == 1 ==> Members(fields[1..]) == [];
    assert |keys| > 1 ==> Members(fields[1..]) != [];
    assert Members(fields)[1..] == Members(fields[1..]);
  }

  lemma ArrText(items: seq<Json>, rest: Str)
    requires items != []
    ensures ItemsText(items, rest) != [] && ItemsText(items, rest)[0] != CLOSE_BRACKET
    ensures Print(Arr(items)) + rest == [OPEN_BRACKET] + ItemsText(items, rest)
  {
    SplitItems(items, rest);
  }

  lemma ArrRoundTrip(items: seq<Json>, rest: Str)
    requires items != [] ==> ParseItems(ItemsText(items, rest)) == Some((items, rest))
    ensures ParseValue(Print(Arr(items)) + rest) == Some((Arr(items), rest))
  {
    if items == [] {
      ReadEmpty(rest);
    } else {
      ArrText(items, rest);
      ReadArr(ItemsText(items, rest), items, rest);
    }
  }

  lemma ObjRoundTrip(keys: seq<Str>, values: seq<Json>, rest: Str)
    requires |keys| == |values|
    requires keys != [] ==> ParseFields(FieldsText(keys, values, rest)) == Some((keys, values, rest))
    ensures ParseValue(Print(Obj(keys, values)) + rest) == Some((Obj(keys, values), rest))
  {
    if keys == [] {
      ReadEmpty(rest);
    } else {
      SplitFields(keys, values, rest);
      ReadObj(FieldsText(keys, values, rest), keys, values, rest);
      assert Print(Obj(keys, values)) + rest == [OPEN_BRACE] + FieldsText(keys, values, rest);
    }
  }

  /** The parser reads a printed value and leaves exactly what follows it. */
  lemma {:induction false} ValueRoundTrip(j: Json, rest: Str)
    requires Aligned(j) && Delimited(rest)
    ensures ParseValue(Print(j) + rest) == Some((j, rest))
    decreases j, 0
  {
    match j
    case Null => ReadEmpty(rest);
    case Num(n) => ReadNum(n, rest);
    case Text(s) => ReadText(s, rest);
    case Arr(items) =>
      if items != [] { ItemsRoundTrip(items, rest); }
      ArrRoundTrip(items, rest);
    case Obj(keys, values) =>
      if keys != [] { FieldsRoundTrip(keys, values, rest); }
      ObjRoundTrip(keys, values, rest);
  }

  lemma {:induction false} ItemsRoundTrip(items: seq<Json>, rest: Str)
    requires items != [] && forall i :: 0 <= i < |items| ==> Aligned(items[i])
    ensures ParseItems(ItemsText(items, rest)) == Some((items, rest))
    decreases items, 1
  {
    SplitItems(items, rest);
    if |items| == 1 {
      ValueRoundTrip(items[0], [CLOSE_BRACKET] + rest);
      ReadLastItem(ItemsText(items, rest), items[0], rest);
      assert items == [items[0]];
    } else {
      var tail := ItemsText(items[1..], rest);
      ValueRoundTrip(items[0], [COMMA] + tail);
      ItemsRoundTrip(items[1..], rest);
      ReadItem(ItemsText(items, rest), items[0], tail, items[1..], rest);
      assert items == [items[0]] + items[1..];
    }
  }

  lemma LastFieldRoundTrip(key: Str, j: Json, rest: Str)
    requires ParseValue(Print(j) + ([CLOSE_BRACE] + rest)) == Some((j, [CLOSE_BRACE] + rest))
    ensures ParseFields(FieldsText([key], [j], rest)) == Some(([key], [j], rest))
  {
    SplitFields([key], [j], rest);
    ReadLastField(key, Print(j) + ([CLOSE_BRACE] + rest), j, rest);
  }

  lemma MoreFieldsRoundTrip(keys: seq<Str>, values: seq<Json>, rest: Str)
    requires |keys| == |values| > 1
    requires var tail := FieldsText(keys[1..], values[1..], rest);
      ParseValue(Print(values[0]) + ([COMMA] + tail)) == Some((values[0], [COMMA] + tail)) &&
      ParseFields(tail) == Some((keys[1..], values[1..], rest))
    ensures ParseFields(FieldsText(keys, values, rest)) ==
      Some(([keys[0]] + keys[1..], [values[0]] + values[1..], rest))
  {
    var tail := FieldsText(keys[1..], values[1..], rest);
    SplitFields(keys, values, rest);
    ReadField(keys[0], Print(values[0]) + ([COMMA] + tail), values[0], tail, keys[1..], values[1..], rest);
  }

  lemma {:induction false} FieldsRoundTrip(keys: seq<Str>, values: seq<Json>, rest: Str)
    requires keys != [] && |keys| == |values| && forall i :: 0 <= i < |values| ==> Aligned(values[i])
    ensures ParseFields(FieldsText(keys, values, rest)) == Some((keys, values, rest))
    decreases values, 1
  {
    if |keys| == 1 {
      ValueRoundTrip(values[0], [CLOSE_BRACE] + rest);
      LastFieldRoundTrip(keys[0], values[0], rest);
      assert keys == [keys[0]] && values == [values[0]];
    } else {
      ValueRoundTrip(values[0], [COMMA] + FieldsText(keys[1..], values[1..], rest));
      FieldsRoundTrip(keys[1..], values[1..], rest);
      MoreFieldsRoundTrip(keys, values, rest);
      assert keys == [keys[0]] + keys[1..] && values == [values[0]] + values[1..];
    }
  }
}
