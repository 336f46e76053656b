/** The committed facts of lib/merkleCore.ts: leaf objects for pairs and tokens and their keys. */
module MerkleCore {
  import opened Wrappers
  import opened JsString
  import opened Json
  import JsonCanonical
  import opened Utf8
  import opened Merkle
  import MerkleTree
  import MerkleVerify

  const MERKLE_LEAF_VERSION := 1

  datatype TokenCommitment = TokenCommitment(chain: Str, symbol: Str, name: Str, contractAddress: Str,
    coingeckoCoinId: Str)

  datatype PairCommitment = PairCommitment(
    chain: Str, dex: Str, contractAddress: Str, status: Str, confidence: real,
    canonicalKey: Option<Str>, token0: Option<TokenCommitment>, token1: Option<TokenCommitment>)

  datatype TokenLeafCommitment = TokenLeafCommitment(
    chain: Str, contractAddress: Str, symbol: Str, name: Str, coingeckoCoinId: Str, status: Str)

  const TOKEN_KEYS: seq<Str> :=
    [Ascii("chain"), Ascii("symbol"), Ascii("name"), Ascii("contractAddress"), Ascii("coingeckoCoinId")]

  const PAIR_LEAF_KEYS: seq<Str> :=
    [Ascii("v"), Ascii("kind"), Ascii("chain"), Ascii("dex"), Ascii("contractAddress"), Ascii("status"),
     Ascii("confidenceE4"), Ascii("canonicalKey"), Ascii("token0"), Ascii("token1")]

  const TOKEN_LEAF_KEYS: seq<Str> :=
    [Ascii("v"), Ascii("kind"), Ascii("chain"), Ascii("contractAddress"), Ascii("symbol"), Ascii("name"),
     Ascii("coingeckoCoinId"), Ascii("status")]

  /** `Math.round(confidence * 1e4)`. */
  function ConfidenceE4(confidence: real): int {
    (confidence * 10000.0 + 0.5).Floor
  }

  function TokenJson(t: Option<TokenCommitment>): Json {
    match t
    case None => Null
    case Some(t) =>
      Obj(TOKEN_KEYS, [Text(t.chain), Text(t.symbol), Text(t.name), Text(t.contractAddress), Text(t.coingeckoCoinId)])
  }

  function CanonicalLeaf(c: PairCommitment): Json {
    Obj(PAIR_LEAF_KEYS,
      [Num(MERKLE_LEAF_VERSION), Text(Ascii("pair")), Text(c.chain), Text(c.dex), Text(c.contractAddress),
       Text(c.status), Num(ConfidenceE4(c.confidence)),
       if c.canonicalKey.Some? then Text(c.canonicalKey.value) else Null,
       TokenJson(c.token0), TokenJson(c.token1)])
  }

  function CanonicalTokenLeaf(t: TokenLeafCommitment): Json {
    Obj(TOKEN_LEAF_KEYS,
      [Num(MERKLE_LEAF_VERSION), Text(Ascii("token")), Text(t.chain), Text(t.contractAddress), Text(t.symbol),
       Text(t.name), Text(t.coingeckoCoinId), Text(t.status)])
  }

  ghost predicate NoRepeats(keys: seq<Str>) {
    forall i, k :: 0 <= i < k < |keys| ==> keys[i] != keys[k]
  }

  lemma KeysDiffer()
    ensures NoRepeats(TOKEN_KEYS) && NoRepeats(PAIR_LEAF_KEYS) && NoRepeats(TOKEN_LEAF_KEYS)
  {
    PairLeafKeysDiffer();
    TokenKeysDiffer();
  }

  lemma PairLeafKeysDiffer()
    ensures NoRepeats(PAIR_LEAF_KEYS)
  {
    assert Ascii("token0")[5] == 48 && Ascii("token1")[5] == 49;
    assert Ascii("status")[0] == 115 && Ascii("token0")[0] == 116 && Ascii("token1")[0] == 116;
    assert Ascii("confidenceE4")[1] == 111 && Ascii("canonicalKey")[1] == 97;
  }

  lemma TokenKeysDiffer()
    ensures NoRepeats(TOKEN_KEYS) && NoRepeats(TOKEN_LEAF_KEYS)
  {
    assert Ascii("symbol")[1] == 121 && Ascii("status")[1] == 116;
    assert Ascii("kind")[0] == 107 && Ascii("name")[0] == 110;
    assert Ascii("contractAddress")[1] == 111 && Ascii("coingeckoCoinId")[2] == 105 &&
      Ascii("contractAddress")[2] == 110;
  }

  lemma LeafProper(c: PairCommitment)
    ensures Proper(CanonicalLeaf(c))
  {
    KeysDiffer();
    TokenProper(c.token0);
    TokenProper(c.token1);
  }

  lemma TokenLeafProper(t: TokenLeafCommitment)
    ensures Proper(CanonicalTokenLeaf(t))
  {
    KeysDiffer();
  }

  lemma TokenProper(t: Option<TokenCommitment>)
    ensures Proper(TokenJson(t))
  {
    KeysDiffer();
  }

  /** Objects over one key list denote the same value exactly when their values do, key by key. */
  lemma SameKeysSameValues(keys: seq<Str>, a: seq<Json>, b: seq<Json>)
    requires NoRepeats(keys) && |keys| == |a| == |b|
    ensures Meaning(Obj(keys, a)) == Meaning(Obj(keys, b)) <==>
      forall i :: 0 <= i < |keys| ==> Meaning(a[i]) == Meaning(b[i])
  {
    var s, t := Zip(keys, MeaningItems(a)), Zip(keys, MeaningItems(b));
    JsonCanonical.ToMapEntries(s);
    JsonCanonical.ToMapEntries(t);
    if Meaning(Obj(keys, a)) == Meaning(Obj(keys, b)) {
      forall i | 0 <= i < |keys| ensures Meaning(a[i]) == Meaning(b[i]) {
        assert s[i].0 == t[i].0 == keys[i];
      }
    }
    if forall i :: 0 <= i < |keys| ==> Meaning(a[i]) == Meaning(b[i]) {
      assert s == t;
    }
  }

  lemma TokenJsonDecides(t: Option<TokenCommitment>, u: Option<TokenCommitment>)
    ensures Meaning(TokenJson(t)) == Meaning(TokenJson(u)) <==> t == u
  {
    KeysDiffer();
    if t.Some? && u.Some? {
      var a, b := TokenJson(t).values, TokenJson(u).values;
      SameKeysSameValues(TOKEN_KEYS, a, b);
      if Meaning(TokenJson(t)) == Meaning(TokenJson(u)) {
        assert Meaning(a[0]) == Meaning(b[0]) && Meaning(a[1]) == Meaning(b[1]) && Meaning(a[2]) == Meaning(b[2]);
        assert Meaning(a[3]) == Meaning(b[3]) && Meaning(a[4]) == Meaning(b[4]);
      }
    }
  }

  /** The committed facts: everything in the record, the confidence to four decimals. */
  ghost predicate SameFacts(c: PairCommitment, d: PairCommitment) {
    && c.chain == d.chain && c.dex == d.dex && c.contractAddress == d.contractAddress && c.status == d.status
    && ConfidenceE4(c.confidence) == ConfidenceE4(d.confidence)
    && c.canonicalKey == d.canonicalKey && c.token0 == d.token0 && c.token1 == d.token1
  }

  lemma SameMeaningSameFacts(c: PairCommitment, d: PairCommitment)
    requires var a, b := CanonicalLeaf(c).values, CanonicalLeaf(d).values;
      forall i :: 2 <= i < 10 ==> Meaning(a[i]) == Meaning(b[i])
    ensures SameFacts(c, d)
  {
    var a, b := CanonicalLeaf(c).values, CanonicalLeaf(d).values;
    TokenJsonDecides(c.token0, d.token0);
    TokenJsonDecides(c.token1, d.token1);
    assert Meaning(a[2]) == Meaning(b[2]) && Meaning(a[3]) == Meaning(b[3]) && Meaning(a[4]) == Meaning(b[4]);
    assert Meaning(a[5]) == Meaning(b[5]) && Meaning(a[6]) == Meaning(b[6]) && Meaning(a[7]) == Meaning(b[7]);
    assert Meaning(a[8]) == Meaning(b[8]) && Meaning(a[9]) == Meaning(b[9]);
  }

  lemma PairLeafDecides(c: PairCommitment, d: PairCommitment)
    ensures Meaning(CanonicalLeaf(c)) == Meaning(CanonicalLeaf(d)) <==> SameFacts(c, d)
  {
    KeysDiffer();
    SameKeysSameValues(PAIR_LEAF_KEYS, CanonicalLeaf(c).values, CanonicalLeaf(d).values);
    if Meaning(CanonicalLeaf(c)) == Meaning(CanonicalLeaf(d)) {
      SameMeaningSameFacts(c, d);
    }
    if SameFacts(c, d) {
      assert CanonicalLeaf(c) == CanonicalLeaf(d);
    }
  }

  /** Two pairs hash the same bytes exactly when their committed facts are the same. */
  lemma PairLeafBytesDecide(c: PairCommitment, d: PairCommitment)
    ensures LeafBytes(CanonicalLeaf(c)) == LeafBytes(CanonicalLeaf(d)) <==> SameFacts(c, d)
  {
    LeafProper(c);
    LeafProper(d);
    MerkleVerify.SameBytesSameValue(CanonicalLeaf(c), CanonicalLeaf(d));
    PairLeafDecides(c, d);
  }

  /** Two tokens hash the same bytes exactly when they are the same. */
  lemma TokenLeafBytesDecide(t: TokenLeafCommitment, u: TokenLeafCommitment)
    ensures LeafBytes(CanonicalTokenLeaf(t)) == LeafBytes(CanonicalTokenLeaf(u)) <==> t == u
  {
    KeysDiffer();
    TokenLeafProper(t);
    TokenLeafProper(u);
    MerkleVerify.SameBytesSameValue(CanonicalTokenLeaf(t), CanonicalTokenLeaf(u));
    var a, b := CanonicalTokenLeaf(t).values, CanonicalTokenLeaf(u).values;
    SameKeysSameValues(TOKEN_LEAF_KEYS, a, b);
    if Meaning(CanonicalTokenLeaf(t)) == Meaning(CanonicalTokenLeaf(u)) {
      assert Meaning(a[2]) == Meaning(b[2]) && Meaning(a[3]) == Meaning(b[3]) && Meaning(a[4]) == Meaning(b[4]);
      assert Meaning(a[5]) == Meaning(b[5]) && Meaning(a[6]) == Meaning(b[6]) && Meaning(a[7]) == Meaning(b[7]);
    }
  }

  /** No pair and no token ever hash the same bytes, so the two trees share no leaf. */
  lemma PairAndTokenLeavesDiffer(c: PairCommitment, t: TokenLeafCommitment)
    ensures LeafBytes(CanonicalLeaf(c)) != LeafBytes(CanonicalTokenLeaf(t))
  {
    LeafProper(c);
    TokenLeafProper(t);
    MerkleVerify.SameBytesSameValue(CanonicalLeaf(c), CanonicalTokenLeaf(t));
    KeysDiffer();
    ValueAt(PAIR_LEAF_KEYS, CanonicalLeaf(c).values, 1);
    ValueAt(TOKEN_LEAF_KEYS, CanonicalTokenLeaf(t).values, 1);
    assert |Ascii("pair")| != |Ascii("token")|;
  }

  lemma ValueAt(keys: seq<Str>, values: seq<Json>, i: nat)
    requires NoRepeats(keys) && i < |keys| == |values|
    ensures var v := Meaning(Obj(keys, values)); keys[i] in v.fields && v.fields[keys[i]] == Meaning(values[i])
  {
    var s := Zip(keys, MeaningItems(values));
    JsonCanonical.ToMapEntries(s);
    assert s[i] == (keys[i], Meaning(values[i]));
  }

  function Join(separator: Str, parts: seq<Str>): Str {
    if parts == [] then [] else if |parts| == 1 then parts[0] else parts[0] + separator + Join(separator, parts[1..])
  }

  function PairLeafInput(c: PairCommitment): LeafInput {
    LeafInput(Join(Ascii("/"), [c.chain, c.dex, c.contractAddress]),
      Join(Ascii(" "), [if c.canonicalKey.Some? then c.canonicalKey.value else [], c.chain, c.dex, c.contractAddress]),
      CanonicalLeaf(c))
  }

  function TokenLeafInput(t: TokenLeafCommitment): LeafInput {
    LeafInput(Join(Ascii("/"), [t.chain, t.contractAddress]),
      Join(Ascii(" "), [t.coingeckoCoinId, t.chain, t.contractAddress]),
      CanonicalTokenLeaf(t))
  }

  // ----- the keys ------------------------------------------------------------

  const SLASH: CodeUnit := 47

  const SPACE: CodeUnit := 32

  lemma JoinTwo(separator: CodeUnit, a: Str, b: Str)
    ensures Join([separator], [a, b]) == a + [separator] + b
  {
    assert [a, b][1..] == [b];
  }

  lemma JoinThree(separator: CodeUnit, a: Str, b: Str, c: Str)
    ensures Join([separator], [a, b, c]) == a + [separator] + (b + [separator] + c)
    ensures Join([separator], [a, b, c]) == (a + [separator] + b) + [separator] + c
  {
    assert [a, b, c][1..] == [b, c];
    JoinTwo(separator, b, c);
  }

  lemma JoinFour(separator: CodeUnit, a: Str, b: Str, c: Str, d: Str)
    ensures Join([separator], [a, b, c, d]) == ((a + [separator] + b) + [separator] + c) + [separator] + d
  {
    assert [a, b, c, d][1..] == [b, c, d];
    JoinThree(separator, b, c, d);
  }

  /** The lookup keys are unique: with no slash in a chain or exchange name, whatever the address holds, two
      pairs share one exactly when they are the same pool, and two tokens when they are the same contract. */
  lemma LookupKeysDecide(c: PairCommitment, d: PairCommitment, t: TokenLeafCommitment, u: TokenLeafCommitment)
    requires SLASH !in c.chain && SLASH !in d.chain && SLASH !in c.dex && SLASH !in d.dex && SLASH !in t.chain &&
      SLASH !in u.chain
    ensures PairLeafInput(c).key == PairLeafInput(d).key <==>
      c.chain == d.chain && c.dex == d.dex && c.contractAddress == d.contractAddress
    ensures TokenLeafInput(t).key == TokenLeafInput(u).key <==>
      t.chain == u.chain && t.contractAddress == u.contractAddress
  {
    assert Ascii("/") == [SLASH];
    JoinThree(SLASH, c.chain, c.dex, c.contractAddress);
    JoinThree(SLASH, d.chain, d.dex, d.contractAddress);
    JoinTwo(SLASH, t.chain, t.contractAddress);
    JoinTwo(SLASH, u.chain, u.contractAddress);
    if PairLeafInput(c).key == PairLeafInput(d).key {
      SplitAtSeparator(c.chain, c.dex + [SLASH] + c.contractAddress, d.chain, d.dex + [SLASH] + d.contractAddress,
        SLASH);
      SplitAtSeparator(c.dex, c.contractAddress, d.dex, d.contractAddress, SLASH);
    }
    if TokenLeafInput(t).key == TokenLeafInput(u).key {
      SplitAtSeparator(t.chain, t.contractAddress, u.chain, u.contractAddress, SLASH);
    }
  }

  ghost predicate SpacelessPair(c: PairCommitment) {
    SPACE !in c.chain && SPACE !in c.dex && SPACE !in c.contractAddress
  }

  ghost predicate SpacelessToken(t: TokenLeafCommitment) {
    SPACE !in t.chain && SPACE !in t.contractAddress
  }

  predicate SamePool(c: PairCommitment, d: PairCommitment) {
    c.chain == d.chain && c.dex == d.dex && c.contractAddress == d.contractAddress
  }

  predicate SameContract(t: TokenLeafCommitment, u: TokenLeafCommitment) {
    t.chain == u.chain && t.contractAddress == u.contractAddress
  }

  /** Spaces in the coin ids do no harm: the address, the exchange and the chain are read off from the end. */
  lemma PairSortKeyDecides(c: PairCommitment, d: PairCommitment)
    requires SpacelessPair(c) && SpacelessPair(d) && PairLeafInput(c).sortKey == PairLeafInput(d).sortKey
    ensures SamePool(c, d)
  {
    assert Ascii(" ") == [SPACE];
    var a := if c.canonicalKey.Some? then c.canonicalKey.value else [];
    var b := if d.canonicalKey.Some? then d.canonicalKey.value else [];
    JoinFour(SPACE, a, c.chain, c.dex, c.contractAddress);
    JoinFour(SPACE, b, d.chain, d.dex, d.contractAddress);
    var a2, b2 := a + [SPACE] + c.chain, b + [SPACE] + d.chain;
    SplitAtLastSeparator(a2 + [SPACE] + c.dex, c.contractAddress, b2 + [SPACE] + d.dex, d.contractAddress, SPACE);
    SplitAtLastSeparator(a2, c.dex, b2, d.dex, SPACE);
    SplitAtLastSeparator(a, c.chain, b, d.chain, SPACE);
  }

  lemma TokenSortKeyDecides(t: TokenLeafCommitment, u: TokenLeafCommitment)
    requires SpacelessToken(t) && SpacelessToken(u) && TokenLeafInput(t).sortKey == TokenLeafInput(u).sortKey
    ensures SameContract(t, u)
  {
    assert Ascii(" ") == [SPACE];
    JoinThree(SPACE, t.coingeckoCoinId, t.chain, t.contractAddress);
    JoinThree(SPACE, u.coingeckoCoinId, u.chain, u.contractAddress);
    SplitAtLastSeparator(t.coingeckoCoinId + [SPACE] + t.chain, t.contractAddress,
      u.coingeckoCoinId + [SPACE] + u.chain, u.contractAddress, SPACE);
    SplitAtLastSeparator(t.coingeckoCoinId, t.chain, u.coingeckoCoinId, u.chain, SPACE);
  }

  // ----- the two trees -------------------------------------------------------

  function PairLeafInputs(cs: seq<PairCommitment>): seq<LeafInput> {
    seq(|cs|, i requires 0 <= i < |cs| => PairLeafInput(cs[i]))
  }

  function TokenLeafInputs(ts: seq<TokenLeafCommitment>): seq<LeafInput> {
    seq(|ts|, i requires 0 <= i < |ts| => TokenLeafInput(ts[i]))
  }

  /** The rows of a table: no pool twice, and no space in the columns that tell pools apart. */
  ghost predicate PairRows(cs: seq<PairCommitment>) {
    (forall i :: 0 <= i < |cs| ==> SpacelessPair(cs[i])) && forall i, j :: 0 <= i < j < |cs| ==> !SamePool(cs[i], cs[j])
  }

  ghost predicate TokenRows(ts: seq<TokenLeafCommitment>) {
    (forall i :: 0 <= i < |ts| ==> SpacelessToken(ts[i])) && forall i, j :: 0 <= i < j < |ts| ==>
      !SameContract(ts[i], ts[j])
  }

  lemma PairSortKeysDiffer(cs: seq<PairCommitment>)
    requires PairRows(cs)
    ensures MerkleVerify.SortKeysDiffer(PairLeafInputs(cs))
  {
    forall i, j | 0 <= i < j < |cs| ensures PairLeafInput(cs[i]).sortKey != PairLeafInput(cs[j]).sortKey {
      if PairLeafInput(cs[i]).sortKey == PairLeafInput(cs[j]).sortKey {
        PairSortKeyDecides(cs[i], cs[j]);
      }
    }
  }

  lemma TokenSortKeysDiffer(ts: seq<TokenLeafCommitment>)
    requires TokenRows(ts)
    ensures MerkleVerify.SortKeysDiffer(TokenLeafInputs(ts))
  {
    forall i, j | 0 <= i < j < |ts| ensures TokenLeafInput(ts[i]).sortKey != TokenLeafInput(ts[j]).sortKey {
      if TokenLeafInput(ts[i]).sortKey == TokenLeafInput(ts[j]).sortKey {
        TokenSortKeyDecides(ts[i], ts[j]);
      }
    }
  }

  lemma PairInputsWithin(cs: seq<PairCommitment>, ds: seq<PairCommitment>)
    requires forall c :: c in cs ==> c in ds
    ensures forall x :: x in PairLeafInputs(cs) ==> x in PairLeafInputs(ds)
  {
    forall x | x in PairLeafInputs(cs) ensures x in PairLeafInputs(ds) {
      var i :| 0 <= i < |cs| && PairLeafInputs(cs)[i] == x;
      assert cs[i] in ds;
      var j :| 0 <= j < |ds| && ds[j] == cs[i];
      assert PairLeafInputs(ds)[j] == x;
    }
  }

  lemma TokenInputsWithin(ts: seq<TokenLeafCommitment>, us: seq<TokenLeafCommitment>)
    requires forall t :: t in ts ==> t in us
    ensures forall x :: x in TokenLeafInputs(ts) ==> x in TokenLeafInputs(us)
  {
    forall x | x in TokenLeafInputs(ts) ensures x in TokenLeafInputs(us) {
      var i :| 0 <= i < |ts| && TokenLeafInputs(ts)[i] == x;
      assert ts[i] in us;
      var j :| 0 <= j < |us| && us[j] == ts[i];
      assert TokenLeafInputs(us)[j] == x;
    }
  }

  /** The pair tree depends only on which pairs there are: root, count, leaves and every proof are the same
      for every order in which the query returns them. */
  lemma PairTreeIgnoresOrder(h: MerkleTree.Hash, cs: seq<PairCommitment>, ds: seq<PairCommitment>)
    requires PairRows(cs) && PairRows(ds) && SameMembers(cs, ds)
    ensures BuildResult(h, PairLeafInputs(cs)) == BuildResult(h, PairLeafInputs(ds))
  {
    PairSortKeysDiffer(cs);
    PairSortKeysDiffer(ds);
    PairInputsWithin(cs, ds);
    PairInputsWithin(ds, cs);
    MerkleVerify.InputOrderIrrelevant(h, PairLeafInputs(cs), PairLeafInputs(ds));
  }

  /** And likewise the token tree. */
  lemma TokenTreeIgnoresOrder(h: MerkleTree.Hash, ts: seq<TokenLeafCommitment>, us: seq<TokenLeafCommitment>)
    requires TokenRows(ts) && TokenRows(us) && SameMembers(ts, us)
    ensures BuildResult(h, TokenLeafInputs(ts)) == BuildResult(h, TokenLeafInputs(us))
  {
    TokenSortKeysDiffer(ts);
    TokenSortKeysDiffer(us);
    TokenInputsWithin(ts, us);
    TokenInputsWithin(us, ts);
    MerkleVerify.InputOrderIrrelevant(h, TokenLeafInputs(ts), TokenLeafInputs(us));
  }
}
