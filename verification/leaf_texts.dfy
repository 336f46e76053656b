/** The text of every committed leaf, name by name and column by column. */
module LeafTexts {
  // That two leaves have one text exactly when they have one meaning would also hold of a leaf whose columns were
  // exchanged. Here the texts themselves are given, with the characters between the columns as literals.

  import opened Wrappers
  import opened JsString
  import opened Json
  import JsonCanonical
  import opened Merkle
  import opened MerkleCore

  // ----- how an object is written --------------------------------------------

  ghost function Commas(parts: seq<Str>): Str {
    if parts == [] then [] else if |parts| == 1 then parts[0] else parts[0] + Ascii(",") + Commas(parts[1..])
  }

  /** A name in quotation marks, a colon, the text of its value. */
  ghost function Field(name: Str, text: Str): Str {
    Ascii("\"") + name + Ascii("\"") + Ascii(":") + text
  }

  ghost function Fields(entries: seq<(Str, Str)>): seq<Str> {
    seq(|entries|, i requires 0 <= i < |entries| => Field(entries[i].0, entries[i].1))
  }

  /** Printable ASCII without quotation mark and backslash. */
  predicate Plain(s: string) {
    forall i :: 0 <= i < |s| ==> ' ' <= s[i] <= '~' && s[i] != '\"' && s[i] != '\\'
  }

  predicate AllPlain(names: seq<string>) {
    forall i :: 0 <= i < |names| ==> Plain(names[i])
  }

  function Chars(name: string): Str {
    if Plain(name) then Ascii(name) else []
  }

  ghost function Named(names: seq<string>, values: seq<Json>): seq<(Str, Str)>
    requires |names| == |values|
  {
    seq(|names|, i requires 0 <= i < |names| => (Chars(names[i]), Stringify(values[i])))
  }

  /** The text of an object: these names with these values. */
  ghost function Braced(names: seq<string>, values: seq<Json>): Str
    requires |names| == |values|
  {
    Ascii("{") + Commas(Fields(Named(names, values))) + Ascii("}")
  }

  lemma {:induction false} PlainUnescaped(s: Str)
    requires forall i :: 0 <= i < |s| ==> 32 <= s[i] < 127 && s[i] != 34 && s[i] != 92
    ensures Escape(s) == s
  {
    if s != [] {
      PlainUnescaped(s[1..]);
      assert EscapeUnit(s[0]) == [s[0]];
      assert s == [s[0]] + s[1..];
    }
  }

  /** A plain text is written as it is, between quotation marks. */
  lemma PlainQuoted(s: string)
    requires Plain(s)
    ensures Quote(Ascii(s)) == Ascii("\"") + Ascii(s) + Ascii("\"")
  {
    PlainUnescaped(Ascii(s));
    assert Ascii("\"") == [34];
  }

  /** Two characters are escaped by a backslash, five have a letter. */
  lemma ShortEscapes()
    ensures EscapeUnit(34) == Ascii("\\\"") && EscapeUnit(92) == Ascii("\\\\")
    ensures EscapeUnit(8) == Ascii("\\b") && EscapeUnit(9) == Ascii("\\t") && EscapeUnit(10) == Ascii("\\n")
    ensures EscapeUnit(12) == Ascii("\\f") && EscapeUnit(13) == Ascii("\\r")
  {
  }

  const DIGITS: Str := Ascii("0123456789abcdef")

  ghost function FourHexDigits(n: int): Str
    requires 0 <= n < 0x1_0000
  {
    [DIGITS[n / 4096], DIGITS[n / 256 % 16], DIGITS[n / 16 % 16], DIGITS[n % 16]]
  }

  lemma DigitIs(n: nat)
    requires n < 16
    ensures HexDigit(n) == DIGITS[n]
  {
    var digits := "0123456789abcdef";
    assert DIGITS[n] == digits[n] as CodeUnit;
  }

  /** The remaining controls and lone surrogates are written as four lower-case hexadecimal digits; all else stands for
      itself. */
  lemma LongEscapes(u: CodeUnit)
    ensures (u < 32 && u !in {8, 9, 10, 12, 13}) || 0xD800 <= u < 0xE000 ==>
      EscapeUnit(u) == Ascii("\\u") + FourHexDigits(u as int)
    ensures 32 <= u && u != 34 && u != 92 && !(0xD800 <= u < 0xE000) ==> EscapeUnit(u) == [u]
  {
    assert Ascii("\\u") == [92, 117];
    DigitIs(u as int / 4096);
    DigitIs(u as int / 256 % 16);
    DigitIs(u as int / 16 % 16);
    DigitIs(u as int % 16);
  }

  lemma {:induction false} CommasAre(parts: seq<Str>)
    ensures JoinComma(parts) == Commas(parts)
  {
    assert Ascii(",") == [44];
    if |parts| > 1 { CommasAre(parts[1..]); }
  }

  lemma FieldIs(name: string, text: Str)
    requires Plain(name)
    ensures Quote(Ascii(name)) + [COLON] + text == Field(Ascii(name), text)
  {
    PlainQuoted(name);
    assert Ascii(":") == [COLON];
  }

  lemma {:induction false} FieldsAre(names: seq<string>, values: seq<Json>)
    requires |names| == |values| && AllPlain(names)
    ensures Members(Named(names, values)) == Fields(Named(names, values))
  {
    if names != [] {
      FieldsAre(names[1..], values[1..]);
      FieldIs(names[0], Stringify(values[0]));
      var entries := Named(names, values);
      assert entries[1..] == Named(names[1..], values[1..]);
      assert Fields(entries) == [Field(entries[0].0, entries[0].1)] + Fields(entries[1..]);
    }
  }

  // ----- the order of the names ----------------------------------------------

  predicate SmallerName(a: string, b: string, i: nat) {
    i < |a| && i < |b| && a[..i] == b[..i] && a[i] < b[i]
  }

  lemma NameLess(a: string, b: string, i: nat)
    requires Plain(a) && Plain(b) && SmallerName(a, b, i)
    ensures Less(Ascii(a), Ascii(b))
  {
    assert Ascii(a)[..i] == Ascii(b)[..i];
    assert FirstSmallerAt(Ascii(a), Ascii(b), i);
    LessIff(Ascii(a), Ascii(b));
  }

  /** Neighbours are in ascending order: they differ first where `at` says. */
  predicate InOrder(names: seq<string>, at: seq<nat>) {
    |names| == |at| + 1 && forall i :: 0 <= i < |at| ==> SmallerName(names[i], names[i + 1], at[i])
  }

  lemma {:induction false} NamesAscend(names: seq<string>, at: seq<nat>, i: nat, j: nat)
    requires AllPlain(names) && InOrder(names, at) && i < j < |names|
    ensures Less(Ascii(names[i]), Ascii(names[j]))
  {
    NameLess(names[j - 1], names[j], at[j - 1]);
    if i + 1 < j {
      NamesAscend(names, at, i, j - 1);
      LessTransitive(Ascii(names[i]), Ascii(names[j - 1]), Ascii(names[j]));
    }
  }

  lemma NamedAscends(names: seq<string>, at: seq<nat>, values: seq<Json>)
    requires |names| == |values| && AllPlain(names) && InOrder(names, at)
    ensures Ascending(Named(names, values))
  {
    forall i, j | 0 <= i < j < |names| ensures Less(Named(names, values)[i].0, Named(names, values)[j].0) {
      NamesAscend(names, at, i, j);
    }
  }

  lemma {:induction false} AscendingSorted<V(!new)>(entries: seq<(Str, V)>)
    requires Ascending(entries)
    ensures SortByKey(entries) == entries && DistinctKeys(entries)
  {
    forall i, j | 0 <= i < j < |entries| ensures entries[i].0 != entries[j].0 {
      LessAsymmetric(entries[i].0, entries[j].0);
    }
    if entries != [] {
      var rest := entries[1..];
      AscendingSorted(rest);
      if rest != [] { LessAsymmetric(entries[0].0, rest[0].0); }
      assert entries == [entries[0]] + rest;
    }
  }

  /** Entry j of the second list is entry from[j] of the first, and back. */
  ghost predicate Rearranged<V(!new)>(s: seq<(Str, V)>, t: seq<(Str, V)>, from: seq<nat>, back: seq<nat>) {
    && |s| == |t| == |from| == |back|
    && (forall j :: 0 <= j < |t| ==> from[j] < |s| && t[j] == s[from[j]])
    && (forall i :: 0 <= i < |s| ==> back[i] < |s| && from[back[i]] == i)
  }

  lemma RearrangedSorted(s: seq<(Str, Str)>, t: seq<(Str, Str)>, from: seq<nat>, back: seq<nat>)
    requires DistinctKeys(s) && Ascending(t) && Rearranged(s, t, from, back)
    ensures SortByKey(s) == t
  {
    forall e ensures e in s <==> e in t {
      if e in s {
        var i :| 0 <= i < |s| && s[i] == e;
        assert t[back[i]] == e;
      }
    }
    AscendingSorted(t);
    SortByKeyUnique(s, t);
  }

  /** The names of an object in ascending order, and where its keys have them. */
  ghost predicate Ordered(keys: seq<Str>, names: seq<string>, at: seq<nat>, from: seq<nat>, back: seq<nat>) {
    && |keys| == |names| == |from| == |back| && AllPlain(names) && InOrder(names, at) && NoRepeats(keys)
    && (forall j :: 0 <= j < |names| ==> from[j] < |keys| && keys[from[j]] == Chars(names[j]))
    && (forall i :: 0 <= i < |keys| ==> back[i] < |keys| && from[back[i]] == i)
  }

  /** An object is written with its names in ascending order. */
  lemma ObjectText(keys: seq<Str>, values: seq<Json>, names: seq<string>, sorted: seq<Json>, at: seq<nat>,
                   from: seq<nat>, back: seq<nat>)
    requires Ordered(keys, names, at, from, back) && |keys| == |values| == |sorted|
    requires forall j :: 0 <= j < |sorted| ==> values[from[j]] == sorted[j]
    ensures Stringify(Obj(keys, values)) == Braced(names, sorted)
  {
    var s, t := Zip(keys, StringifyItems(values)), Named(names, sorted);
    NamedAscends(names, at, sorted);
    forall i, j | 0 <= i < j < |s| ensures s[i].0 != s[j].0 {
      assert keys[i] != keys[j];
    }
    assert Rearranged(s, t, from, back);
    RearrangedSorted(s, t, from, back);
    FieldsAre(names, sorted);
    CommasAre(Fields(t));
    BracesAre(Commas(Fields(t)));
  }

  /** The texts of the values that are not objects. */
  lemma ValueTexts(s: Str, kind: string)
    ensures Stringify(Null) == Ascii("null") && Stringify(Text(s)) == Quote(s) && Stringify(Num(1)) == Ascii("1")
    ensures Plain(kind) ==> Stringify(Text(Ascii(kind))) == Ascii("\"") + Ascii(kind) + Ascii("\"")
  {
    assert NULL_TEXT == Ascii("null");
    if Plain(kind) { PlainQuoted(kind); }
  }

  lemma BracesAre(text: Str)
    ensures [OPEN_BRACE] + text + [CLOSE_BRACE] == Ascii("{") + text + Ascii("}")
  {
    assert Ascii("{") == [123] && Ascii("}") == [125];
  }

  // ----- the three objects ---------------------------------------------------

  const TOKEN_NAMES: seq<string> := ["chain", "coingeckoCoinId", "contractAddress", "name", "symbol"]

  ghost function TokenValues(t: TokenCommitment): seq<Json> {
    [Text(t.chain), Text(t.coingeckoCoinId), Text(t.contractAddress), Text(t.name), Text(t.symbol)]
  }

  const TOKEN_FROM: seq<nat> := [0, 4, 3, 2, 1]

  const TOKEN_BACK: seq<nat> := [0, 4, 3, 2, 1]

  const TOKEN_AT: seq<nat> := [1, 2, 0, 0]

  lemma TokenNamesPlain()
    ensures AllPlain(TOKEN_NAMES)
  {
    assert Plain("chain") && Plain("coingeckoCoinId") && Plain("contractAddress");
    assert Plain("name") && Plain("symbol");
  }

  lemma TokenNamesInOrder()
    ensures InOrder(TOKEN_NAMES, TOKEN_AT)
  {
    assert SmallerName("chain", "coingeckoCoinId", 1);
    assert SmallerName("coingeckoCoinId", "contractAddress", 2);
    assert SmallerName("contractAddress", "name", 0);
    assert SmallerName("name", "symbol", 0);
  }

  lemma TokenKeysPlaced()
    ensures forall j :: 0 <= j < 5 ==> TOKEN_KEYS[TOKEN_FROM[j]] == Chars(TOKEN_NAMES[j])
  {
    TokenNamesPlain();
  }

  lemma TokenPlacesBack()
    ensures |TOKEN_KEYS| == |TOKEN_NAMES| == |TOKEN_FROM| == |TOKEN_BACK| == 5
    ensures forall i :: 0 <= i < 5 ==> TOKEN_FROM[i] < 5 && TOKEN_BACK[i] < 5 && TOKEN_FROM[TOKEN_BACK[i]] == i
  {
  }

  lemma TokenOrdered()
    ensures Ordered(TOKEN_KEYS, TOKEN_NAMES, TOKEN_AT, TOKEN_FROM, TOKEN_BACK)
  {
    TokenPlacesBack();
    TokenKeysDiffer();
    TokenNamesPlain();
    TokenNamesInOrder();
    TokenKeysPlaced();
  }

  /** The text of a token inside a pair's leaf. */
  lemma TokenText(t: TokenCommitment)
    ensures Stringify(TokenJson(Some(t))) == Braced(TOKEN_NAMES, TokenValues(t))
    ensures TokenJson(None) == Null
  {
    TokenOrdered();
    ObjectText(TOKEN_KEYS, TokenJson(Some(t)).values, TOKEN_NAMES, TokenValues(t), TOKEN_AT, TOKEN_FROM,
      TOKEN_BACK);
  }

  const TOKEN_LEAF_NAMES: seq<string> :=
    ["chain", "coingeckoCoinId", "contractAddress", "kind", "name", "status", "symbol", "v"]

  const TOKEN_LEAF_FROM: seq<nat> := [2, 6, 3, 1, 5, 7, 4, 0]

  ghost function TokenLeafValues(t: TokenLeafCommitment): seq<Json> {
    [Text(t.chain), Text(t.coingeckoCoinId), Text(t.contractAddress), Text(Ascii("token")), Text(t.name),
     Text(t.status), Text(t.symbol), Num(1)]
  }

  const TOKEN_LEAF_AT: seq<nat> := [1, 2, 0, 0, 0, 1, 0]

  lemma TokenLeafNamesPlain()
    ensures AllPlain(TOKEN_LEAF_NAMES)
  {
    assert Plain("chain") && Plain("coingeckoCoinId") && Plain("contractAddress");
    assert Plain("kind") && Plain("name") && Plain("status");
    assert Plain("symbol") && Plain("v");
  }

  lemma TokenLeafNamesInOrder()
    ensures InOrder(TOKEN_LEAF_NAMES, TOKEN_LEAF_AT)
  {
    assert SmallerName("chain", "coingeckoCoinId", 1);
    assert SmallerName("coingeckoCoinId", "contractAddress", 2);
    assert SmallerName("contractAddress", "kind", 0);
    assert SmallerName("kind", "name", 0);
    assert SmallerName("name", "status", 0);
    assert SmallerName("status", "symbol", 1);
    assert SmallerName("symbol", "v", 0);
  }

  lemma TokenLeafKeysPlaced()
    ensures forall j :: 0 <= j < 8 ==> TOKEN_LEAF_KEYS[TOKEN_LEAF_FROM[j]] == Chars(TOKEN_LEAF_NAMES[j])
  {
    TokenLeafNamesPlain();
  }

  lemma TokenLeafOrdered()
    ensures Ordered(TOKEN_LEAF_KEYS, TOKEN_LEAF_NAMES, TOKEN_LEAF_AT, TOKEN_LEAF_FROM, [7, 3, 0, 2, 6, 4, 1, 5])
  {
    TokenKeysDiffer();
    TokenLeafNamesPlain();
    TokenLeafNamesInOrder();
    TokenLeafKeysPlaced();
  }

  lemma TokenLeafPlaced(t: TokenLeafCommitment)
    ensures var values, sorted := CanonicalTokenLeaf(t).values, TokenLeafValues(t);
      |values| == 8 && forall j :: 0 <= j < 8 ==> values[TOKEN_LEAF_FROM[j]] == sorted[j]
  {
  }

  /** The text of a token leaf. */
  lemma TokenLeafText(t: TokenLeafCommitment)
    ensures Stringify(CanonicalTokenLeaf(t)) == Braced(TOKEN_LEAF_NAMES, TokenLeafValues(t))
  {
    TokenLeafOrdered();
    TokenLeafPlaced(t);
    ObjectText(TOKEN_LEAF_KEYS, CanonicalTokenLeaf(t).values, TOKEN_LEAF_NAMES, TokenLeafValues(t),
      TOKEN_LEAF_AT, TOKEN_LEAF_FROM, [7, 3, 0, 2, 6, 4, 1, 5]);
  }

  const PAIR_NAMES: seq<string> :=
    ["canonicalKey", "chain", "confidenceE4", "contractAddress", "dex", "kind", "status", "token0", "token1", "v"]

  const PAIR_FROM: seq<nat> := [7, 2, 6, 4, 3, 1, 5, 8, 9, 0]

  /** The committed facts of a pair by name; the tokens are objects of their own. */
  ghost function PairValues(c: PairCommitment, confidence: int, token0: Json, token1: Json): seq<Json> {
    [if c.canonicalKey.Some? then Text(c.canonicalKey.value) else Null, Text(c.chain), Num(confidence),
     Text(c.contractAddress), Text(c.dex), Text(Ascii("pair")), Text(c.status), token0, token1, Num(1)]
  }

  const PAIR_AT: seq<nat> := [1, 1, 3, 0, 0, 0, 0, 5, 0]

  lemma PairNamesPlain()
    ensures AllPlain(PAIR_NAMES)
  {
    assert Plain("canonicalKey") && Plain("chain") && Plain("confidenceE4");
    assert Plain("contractAddress") && Plain("dex") && Plain("kind");
    assert Plain("status") && Plain("token0") && Plain("token1");
    assert Plain("v");
  }

  lemma PairNamesInOrder()
    ensures InOrder(PAIR_NAMES, PAIR_AT)
  {
    assert SmallerName("canonicalKey", "chain", 1);
    assert SmallerName("chain", "confidenceE4", 1);
    assert SmallerName("confidenceE4", "contractAddress", 3);
    assert SmallerName("contractAddress", "dex", 0);
    assert SmallerName("dex", "kind", 0);
    assert SmallerName("kind", "status", 0);
    assert SmallerName("status", "token0", 0);
    assert SmallerName("token0", "token1", 5);
    assert SmallerName("token1", "v", 0);
  }

  lemma PairKeysPlaced()
    ensures forall j :: 0 <= j < 10 ==> PAIR_LEAF_KEYS[PAIR_FROM[j]] == Chars(PAIR_NAMES[j])
  {
    PairNamesPlain();
  }

  lemma PairOrdered()
    ensures Ordered(PAIR_LEAF_KEYS, PAIR_NAMES, PAIR_AT, PAIR_FROM, [9, 5, 1, 4, 3, 6, 2, 0, 7, 8])
  {
    PairLeafKeysDiffer();
    PairNamesPlain();
    PairNamesInOrder();
    PairKeysPlaced();
  }

  lemma PairPlaced(c: PairCommitment)
    ensures var values := CanonicalLeaf(c).values;
      var sorted := PairValues(c, ConfidenceE4(c.confidence), TokenJson(c.token0), TokenJson(c.token1));
      |values| == 10 && forall j :: 0 <= j < 10 ==> values[PAIR_FROM[j]] == sorted[j]
  {
  }

  /** The confidence to four decimals, as an integer: the nearest one, halves going up. */
  lemma FourDecimals(confidence: real)
    ensures var n := ConfidenceE4(confidence) as real;
      confidence * 10000.0 - 0.5 < n <= confidence * 10000.0 + 0.5
  {
  }

  /** The text of a pair's leaf. */
  lemma PairLeafText(c: PairCommitment)
    ensures Stringify(CanonicalLeaf(c)) == Braced(PAIR_NAMES,
      PairValues(c, ConfidenceE4(c.confidence), TokenJson(c.token0), TokenJson(c.token1)))
  {
    PairOrdered();
    PairPlaced(c);
    ObjectText(PAIR_LEAF_KEYS, CanonicalLeaf(c).values, PAIR_NAMES,
      PairValues(c, ConfidenceE4(c.confidence), TokenJson(c.token0), TokenJson(c.token1)),
      PAIR_AT, PAIR_FROM, [9, 5, 1, 4, 3, 6, 2, 0, 7, 8]);
  }

  // ----- the keys of a leaf --------------------------------------------------

  /** The lookup key and the sort key, spelled out. */
  lemma LeafKeysAre(c: PairCommitment, t: TokenLeafCommitment)
    ensures PairLeafInput(c).key == c.chain + Ascii("/") + (c.dex + Ascii("/") + c.contractAddress)
    ensures PairLeafInput(c).sortKey == (if c.canonicalKey.Some? then c.canonicalKey.value else []) + Ascii(" ") +
      c.chain + Ascii(" ") + c.dex + Ascii(" ") + c.contractAddress
    ensures TokenLeafInput(t).key == t.chain + Ascii("/") + t.contractAddress
    ensures TokenLeafInput(t).sortKey == t.coingeckoCoinId + Ascii(" ") + t.chain + Ascii(" ") + t.contractAddress
  {
    assert Ascii("/") == [47] && Ascii(" ") == [32];
    JoinThree(47, c.chain, c.dex, c.contractAddress);
    JoinFour(32, if c.canonicalKey.Some? then c.canonicalKey.value else [], c.chain, c.dex, c.contractAddress);
    JoinTwo(47, t.chain, t.contractAddress);
    JoinThree(32, t.coingeckoCoinId, t.chain, t.contractAddress);
  }
}
