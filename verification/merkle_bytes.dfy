/** The bytes that are hashed: what a published root is, digit by digit. */
module MerkleBytes {
  // The binding theorems hold for any two prefixes, any order of the leaves and any spelling of the texts. Here these
  // are given, as literals: a leaf is hashed after the byte 0 and a node after the byte 1 (section 2.1 of RFC 6962),
  // leaves stand in ascending order of their sort keys, digests are written in lower-case hexadecimal.

  import opened Wrappers
  import opened JsString
  import opened Json
  import JsonCanonical
  import opened Utf8
  import opened Hex
  import opened MerkleTree
  import opened Merkle
  import opened MerkleVerify

  // ----- the tree from the root down -----------------------------------------

  /** How many nodes stand k levels above n leaves. */
  ghost function Above(n: nat, k: nat): nat {
    if k == 0 then n else (Above(n, k - 1) + 1) / 2
  }

  /** The second child of node p over n nodes: an odd last node is both. */
  ghost function SecondChild(p: nat, n: nat): nat {
    if 2 * p + 1 < n then 2 * p + 1 else 2 * p
  }

  /** How two digests are hashed into one. */
  type Hashing = (Bytes, Bytes) -> Bytes

  /** Node p, k levels above the given nodes, as the tree is drawn. */
  ghost function NodeAbove(parent: Hashing, level: seq<Bytes>, k: nat, p: nat): Bytes
    requires p < Above(|level|, k)
  {
    if k == 0 then level[p]
    else
      parent(NodeAbove(parent, level, k - 1, 2 * p),
        NodeAbove(parent, level, k - 1, SecondChild(p, Above(|level|, k - 1))))
  }

  /** The byte 1 and the two children. */
  ghost function AfterOne(h: Hash): Hashing {
    (a: Bytes, b: Bytes) => h([1] + a + b)
  }

  lemma {:induction false} AboveUp(n: nat, k: nat)
    ensures Above(n, k + 1) == Above((n + 1) / 2, k)
  {
    if k > 0 { AboveUp(n, k - 1); }
  }

  /** The nodes one level above. */
  ghost predicate IsUp(parent: Hashing, level: seq<Bytes>, up: seq<Bytes>) {
    && |up| == Above(|level|, 1) == (|level| + 1) / 2
    && forall p :: 0 <= p < |up| ==> up[p] == NodeAbove(parent, level, 1, p)
  }

  lemma LevelUpIs(h: Hash, level: seq<Bytes>)
    ensures IsUp(AfterOne(h), level, LevelUp(h, level))
  {
    var parent := AfterOne(h);
    assert Above(|level|, 0) == |level| && Above(|level|, 1) == (|level| + 1) / 2;
    forall p | 0 <= p < Above(|level|, 1) ensures LevelUp(h, level)[p] == NodeAbove(parent, level, 1, p) {
      LevelUpAt(h, level, p);
      assert NodeAbove(parent, level, 0, 2 * p) == level[2 * p];
      assert NodeAbove(parent, level, 0, SecondChild(p, |level|)) == level[RightOf(2 * p, |level|)];
      assert NodeAbove(parent, level, 1, p) == h([1] + level[2 * p] + level[RightOf(2 * p, |level|)]);
    }
  }

  lemma {:induction false} NodeOfUp(parent: Hashing, level: seq<Bytes>, up: seq<Bytes>, k: nat, p: nat)
    requires IsUp(parent, level, up) && p < Above(|level|, k + 1)
    ensures p < Above(|up|, k) && NodeAbove(parent, up, k, p) == NodeAbove(parent, level, k + 1, p)
    decreases k
  {
    AboveUp(|level|, k);
    if k > 0 {
      AboveUp(|level|, k - 1);
      NodeOfUp(parent, level, up, k - 1, 2 * p);
      NodeOfUp(parent, level, up, k - 1, SecondChild(p, Above(|level|, k)));
    }
  }

  /** The root the builder ends with is the one drawn from the top. */
  lemma {:induction false} RootIsTop(h: Hash, level: seq<Bytes>)
    requires level != []
    ensures 0 < Above(|level|, Height(|level|))
    ensures Root(h, level) == NodeAbove(AfterOne(h), level, Height(|level|), 0)
    decreases |level|
  {
    if |level| > 1 {
      RootIsTop(h, LevelUp(h, level));
      AboveUp(|level|, Height(Half(|level|)));
      LevelUpIs(h, level);
      NodeOfUp(AfterOne(h), level, LevelUp(h, level), Height(Half(|level|)), 0);
    }
  }

  /** What is hashed for a leaf: the byte 0, then the text. */
  ghost function LeafDigest(h: Hash, x: LeafInput): Bytes {
    h([0] + Encode(Stringify(x.preimage)))
  }

  ghost function LeafDigests(h: Hash, entries: seq<LeafInput>): seq<Bytes> {
    seq(|entries|, i requires 0 <= i < |entries| => LeafDigest(h, entries[i]))
  }

  /** Sort keys never go down. */
  ghost predicate InKeyOrder(entries: seq<LeafInput>) {
    forall i, j :: 0 <= i < j < |entries| ==> !Less(entries[j].sortKey, entries[i].sortKey)
  }

  ghost predicate KeysInOrder<V(!new)>(s: seq<(Str, V)>) {
    forall i, j :: 0 <= i < j < |s| ==> !Less(s[j].0, s[i].0)
  }

  lemma {:induction false} InsertInOrder<V(!new)>(x: (Str, V), s: seq<(Str, V)>)
    requires KeysInOrder(s)
    ensures KeysInOrder(Insert(x, s))
  {
    if s != [] && Less(s[0].0, x.0) {
      InsertInOrder(x, s[1..]);
      InsertMembers(x, s[1..]);
      var t := Insert(x, s[1..]);
      LessAsymmetric(s[0].0, x.0);
      forall j | 0 <= j < |t| ensures !Less(t[j].0, s[0].0) {
        assert t[j] in t;
        if t[j] != x {
          var k :| 0 <= k < |s[1..]| && s[1..][k] == t[j];
          assert s[k + 1] == t[j];
        }
      }
    } else if s != [] {
      forall j | 0 <= j < |s| ensures !Less(s[j].0, x.0) {
        if j > 0 && Less(s[j].0, x.0) { NotLessChain(s[0].0, s[j].0, x.0); }
      }
    }
  }

  lemma NotLessChain(a: Str, b: Str, c: Str)
    requires !Less(b, a) && Less(b, c)
    ensures Less(a, c)
  {
    LessTotal(a, b);
    if a != b { LessTransitive(a, b, c); }
  }

  lemma {:induction false} SortedInOrder<V(!new)>(s: seq<(Str, V)>)
    ensures KeysInOrder(SortByKey(s))
  {
    if s != [] {
      SortedInOrder(s[1..]);
      InsertInOrder(s[0], SortByKey(s[1..]));
    }
  }

  /** The committed order: the inputs rearranged, their sort keys ascending. */
  lemma CommittedInOrder(inputs: seq<LeafInput>)
    ensures InKeyOrder(Committed(inputs)) && multiset(Committed(inputs)) == multiset(inputs)
  {
    var s := SortByKey(Keyed(inputs));
    SortedInOrder(Keyed(inputs));
    SortByKeyMembers(Keyed(inputs));
    forall i | 0 <= i < |s| ensures s[i].0 == s[i].1.sortKey {
      KeyedMembers(inputs, s[i]);
      assert s[i] in Keyed(inputs);
    }
    ValuesOfSorted(Keyed(inputs));
    assert JsonCanonical.Values(Keyed(inputs)) == inputs;
  }

  lemma {:induction false} ValuesOfInsert(x: (Str, LeafInput), s: seq<(Str, LeafInput)>)
    ensures multiset(JsonCanonical.Values(Insert(x, s))) == multiset(JsonCanonical.Values(s)) + multiset{x.1}
  {
    if s == [] || !Less(s[0].0, x.0) {
      assert JsonCanonical.Values([x] + s) == [x.1] + JsonCanonical.Values(s);
    } else {
      ValuesOfInsert(x, s[1..]);
      assert JsonCanonical.Values([s[0]] + Insert(x, s[1..])) == [s[0].1] + JsonCanonical.Values(Insert(x, s[1..]));
      assert JsonCanonical.Values(s) == [s[0].1] + JsonCanonical.Values(s[1..]);
    }
  }

  lemma {:induction false} ValuesOfSorted(s: seq<(Str, LeafInput)>)
    ensures multiset(JsonCanonical.Values(SortByKey(s))) == multiset(JsonCanonical.Values(s))
  {
    if s != [] {
      ValuesOfSorted(s[1..]);
      ValuesOfInsert(s[0], SortByKey(s[1..]));
      assert JsonCanonical.Values(s) == [s[0].1] + JsonCanonical.Values(s[1..]);
    }
  }

  ghost function Under<V>(s: seq<(Str, V)>, key: Str): seq<V> {
    if s == [] then [] else (if s[0].0 == key then [s[0].1] else []) + Under(s[1..], key)
  }

  lemma {:induction false} UnderInsert<V>(x: (Str, V), s: seq<(Str, V)>, key: Str)
    ensures Under(Insert(x, s), key) == (if x.0 == key then [x.1] else []) + Under(s, key)
  {
    if s == [] || !Less(s[0].0, x.0) {
      assert ([x] + s)[1..] == s;
    } else {
      LessAsymmetric(s[0].0, x.0);
      UnderInsert(x, s[1..], key);
      assert ([s[0]] + Insert(x, s[1..]))[1..] == Insert(x, s[1..]);
    }
  }

  lemma {:induction false} UnderSorted<V>(s: seq<(Str, V)>, key: Str)
    ensures Under(SortByKey(s), key) == Under(s, key)
  {
    if s != [] {
      UnderSorted(s[1..], key);
      UnderInsert(s[0], SortByKey(s[1..]), key);
    }
  }

  ghost function OfKey(entries: seq<LeafInput>, key: Str): seq<LeafInput> {
    if entries == [] then [] else (if entries[0].sortKey == key then [entries[0]] else []) + OfKey(entries[1..], key)
  }

  lemma {:induction false} UnderIs(s: seq<(Str, LeafInput)>, key: Str)
    requires forall i :: 0 <= i < |s| ==> s[i].0 == s[i].1.sortKey
    ensures Under(s, key) == OfKey(JsonCanonical.Values(s), key)
  {
    if s != [] {
      UnderIs(s[1..], key);
      assert JsonCanonical.Values(s)[1..] == JsonCanonical.Values(s[1..]);
    }
  }

  /** Inputs with one sort key stay in the order in which they came. */
  lemma SameKeyKeepsOrder(inputs: seq<LeafInput>, key: Str)
    ensures OfKey(Committed(inputs), key) == OfKey(inputs, key)
  {
    var s := SortByKey(Keyed(inputs));
    SortByKeyMembers(Keyed(inputs));
    forall i | 0 <= i < |s| ensures s[i].0 == s[i].1.sortKey {
      KeyedMembers(inputs, s[i]);
      assert s[i] in Keyed(inputs);
    }
    UnderSorted(Keyed(inputs), key);
    UnderIs(s, key);
    UnderIs(Keyed(inputs), key);
    assert JsonCanonical.Values(Keyed(inputs)) == inputs;
  }

  /** A published root, for any inputs: the inputs in ascending order of their sort keys, each hashed after the byte 0,
      and the tree over these digests with every node hashed after the byte 1. */
  lemma RootIsDrawn(h: Hash, inputs: seq<LeafInput>)
    requires inputs != []
    ensures InKeyOrder(Committed(inputs)) && multiset(Committed(inputs)) == multiset(inputs)
    ensures 0 < Above(|inputs|, Height(|inputs|)) && BuildResult(h, inputs).root ==
      ToHex(NodeAbove(AfterOne(h), LeafDigests(h, Committed(inputs)), Height(|inputs|), 0))
  {
    CommittedInOrder(inputs);
    DigestsAre(h, Committed(inputs));
    RootIsTop(h, LeafDigests(h, Committed(inputs)));
  }

  lemma DigestsAre(h: Hash, entries: seq<LeafInput>)
    ensures Digests(h, LeafBytesOf(entries)) == LeafDigests(h, entries)
  {
  }

  /** Every published leaf has its entry's lookup key and digest, and nothing is published for no inputs. */
  lemma LeavesAre(h: Hash, inputs: seq<LeafInput>, i: nat)
    requires i < |inputs|
    ensures BuildResult(h, []) == MerkleResult([], 0, [])
    ensures var r := BuildResult(h, inputs);
      && r.leafCount == |inputs| && |r.leaves| == |inputs|
      && r.leaves[i].key == Committed(inputs)[i].key && r.leaves[i].leaf == ToHex(LeafDigest(h, Committed(inputs)[i]))
  {
    DigestsAre(h, Committed(inputs));
  }

  lemma CommittedTwo(a: LeafInput, b: LeafInput)
    requires Less(a.sortKey, b.sortKey)
    ensures Committed([a, b]) == [a, b] && Committed([b, a]) == [a, b]
  {
    LessAsymmetric(a.sortKey, b.sortKey);
    SortTwo((a.sortKey, a), (b.sortKey, b));
    assert Keyed([a, b]) == [(a.sortKey, a), (b.sortKey, b)] && Keyed([b, a]) == [(b.sortKey, b), (a.sortKey, a)];
  }

  lemma SortTwo<V>(x: (Str, V), y: (Str, V))
    requires Less(x.0, y.0) && !Less(y.0, x.0)
    ensures SortByKey([x, y]) == [x, y] && SortByKey([y, x]) == [x, y]
  {
    assert [x, y][1..] == [y] && [y, x][1..] == [x] && [y][1..] == [] && [x][1..] == [];
    assert SortByKey([y]) == [y] && SortByKey([x]) == [x];
  }

  lemma TwoLeaves(h: Hash, a: Bytes, b: Bytes)
    ensures Root(h, [a, b]) == h([1] + a + b)
  {
    LevelUpAt(h, [a, b], 0);
    assert LevelUp(h, [a, b]) == [h(NodeBytes(a, b))];
    assert Root(h, [h(NodeBytes(a, b))]) == h(NodeBytes(a, b));
  }

  lemma RootOfTwo(h: Hash, a: LeafInput, b: LeafInput)
    requires Less(a.sortKey, b.sortKey)
    ensures BuildResult(h, [a, b]).root == BuildResult(h, [b, a]).root ==
      ToHex(h([1] + h([0] + Encode(Stringify(a.preimage))) + h([0] + Encode(Stringify(b.preimage)))))
  {
    CommittedTwo(a, b);
    var level := Digests(h, LeafBytesOf([a, b]));
    assert level == [LeafDigest(h, a), LeafDigest(h, b)];
    TwoLeaves(h, LeafDigest(h, a), LeafDigest(h, b));
  }

  // ----- what the verifiers accept -------------------------------------------

  /** With no steps only the leaf's own digest is accepted; with one, the digest of the byte 1 and the two digests, the
      sibling on the side that the step names. */
  lemma BrowserAcceptsShort(h: Hash, preimage: Json, step: ProofStep, root: Str)
    ensures BrowserAccepts(h, preimage, [], root) <==>
      root == ToHex(h([0] + Encode(Stringify(preimage)))) && |root| == 64
    ensures BrowserAccepts(h, preimage, [step], root) <==>
      var leaf, sibling := h([0] + Encode(Stringify(preimage))), BrowserFromHex(step.hash);
      root == ToHex(h(if step.left then [1] + sibling + leaf else [1] + leaf + sibling)) && |root| == 64
  {
    WalkShort(h, h(LeafBytes(preimage)), ReadStep(Browser, step));
    assert ReadSteps(Browser, []) == [] && ReadSteps(Browser, [step]) == [ReadStep(Browser, step)];
  }

  lemma NodeAcceptsShort(h: Hash, leaf: Str, step: ProofStep, root: Str)
    ensures NodeAccepts(h, leaf, [], root) <==> root == ToHex(NodeFromHex(leaf)) && |root| == 64
    ensures NodeAccepts(h, leaf, [step], root) <==>
      var digest, sibling := NodeFromHex(leaf), NodeFromHex(step.hash);
      root == ToHex(h(if step.left then [1] + sibling + digest else [1] + digest + sibling)) && |root| == 64
  {
    WalkShort(h, NodeFromHex(leaf), ReadStep(Node, step));
    assert ReadSteps(Node, []) == [] && ReadSteps(Node, [step]) == [ReadStep(Node, step)];
  }

  lemma WalkShort(h: Hash, digest: Bytes, s: Sibling)
    ensures Walk(h, digest, []) == digest
    ensures Walk(h, digest, [s]) == h(if s.left then [1] + s.bytes + digest else [1] + digest + s.bytes)
  {
    assert [s][1..] == [];
    assert Walk(h, digest, [s]) == Walk(h, h(Combine(s, digest)), []);
  }

  // ----- hexadecimal ---------------------------------------------------------

  const HEX_DIGITS := "0123456789abcdef"

  lemma DigitIs(n: nat)
    requires n < 16
    ensures HexDigit(n) as int == HEX_DIGITS[n] as int
  {
  }

  /** Digit i of a written digest: the high or the low half of its byte, in lower case. */
  lemma {:induction false} HexDigitsAre(b: Bytes, i: nat)
    requires i < |b|
    ensures ToHex(b)[2 * i] as int == HEX_DIGITS[b[i] as int / 16] as int
    ensures ToHex(b)[2 * i + 1] as int == HEX_DIGITS[b[i] as int % 16] as int
  {
    if i == 0 {
      DigitIs(b[0] as int / 16);
      DigitIs(b[0] as int % 16);
    } else {
      HexDigitsAre(b[1..], i - 1);
      assert ToHex(b)[2..] == ToHex(b[1..]);
      assert ToHex(b)[2..][2 * (i - 1)] == ToHex(b)[2 * i] && ToHex(b)[2..][2 * (i - 1) + 1] == ToHex(b)[2 * i + 1];
    }
  }
}
