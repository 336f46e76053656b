/** The tree builder and the Node verifier of lib/merkle.ts. */
module Merkle {
  import opened Wrappers
  import opened JsString
  import opened Json
  import JsonCanonical
  import opened Utf8
  import opened Hex
  import opened MerkleTree

  /** What the builder consumes: a lookup key, a sort key and the object that gets hashed. */
  datatype LeafInput = LeafInput(key: Str, sortKey: Str, preimage: Json)

  datatype ProofStep = ProofStep(hash: Str, left: bool)

  datatype LeafProof = LeafProof(key: Str, leaf: Str, proof: seq<ProofStep>)

  datatype MerkleResult = MerkleResult(root: Str, leafCount: nat, leaves: seq<LeafProof>)

  /** The bytes whose digest is the leaf: the prefix and the canonical text in UTF-8. */
  function LeafBytes(preimage: Json): Bytes {
    [LEAF_PREFIX] + Encode(Stringify(preimage))
  }

  function LeafHashOf(h: Hash, preimage: Json): Str {
    ToHex(h(LeafBytes(preimage)))
  }

  // ----- specification -------------------------------------------------------

  function Keyed(inputs: seq<LeafInput>): seq<(Str, LeafInput)> {
    seq(|inputs|, i requires 0 <= i < |inputs| => (inputs[i].sortKey, inputs[i]))
  }

  /** The inputs in committed order. */
  function Committed(inputs: seq<LeafInput>): (r: seq<LeafInput>)
    ensures |r| == |inputs|
  {
    SortByKeyMembers(Keyed(inputs));
    JsonCanonical.Values(SortByKey(Keyed(inputs)))
  }

  function LeafBytesOf(inputs: seq<LeafInput>): seq<Bytes> {
    seq(|inputs|, i requires 0 <= i < |inputs| => LeafBytes(inputs[i].preimage))
  }

  function HexSteps(proof: seq<Sibling>): seq<ProofStep> {
    seq(|proof|, i requires 0 <= i < |proof| => ProofStep(ToHex(proof[i].bytes), proof[i].left))
  }

  function LeafProofAt(h: Hash, inputs: seq<LeafInput>, level: seq<Bytes>, i: nat): LeafProof
    requires i < |inputs| == |level|
  {
    LeafProof(inputs[i].key, ToHex(level[i]), HexSteps(ProofOf(h, level, i)))
  }

  function AllLeafProofs(h: Hash, inputs: seq<LeafInput>, level: seq<Bytes>): seq<LeafProof>
    requires |inputs| == |level|
  {
    seq(|inputs|, i requires 0 <= i < |inputs| => LeafProofAt(h, inputs, level, i))
  }

  /** What building a tree returns. */
  function BuildResult(h: Hash, inputs: seq<LeafInput>): MerkleResult {
    if inputs == [] then MerkleResult([], 0, [])
    else
      var sorted := Committed(inputs);
      var level := Digests(h, LeafBytesOf(sorted));
      MerkleResult(ToHex(Root(h, level)), |sorted|, AllLeafProofs(h, sorted, level))
  }

  /** The two runtimes, which read hexadecimal text differently. */
  datatype Runtime = Node | Browser

  function FromHex(runtime: Runtime, s: Str): Bytes {
    match runtime
    case Node => NodeFromHex(s)
    case Browser => BrowserFromHex(s)
  }

  function ReadStep(runtime: Runtime, step: ProofStep): Sibling {
    Sibling(FromHex(runtime, step.hash), step.left)
  }

  /** The siblings as one of the two runtimes reads them. */
  function ReadSteps(runtime: Runtime, proof: seq<ProofStep>): seq<Sibling> {
    seq(|proof|, i requires 0 <= i < |proof| => ReadStep(runtime, proof[i]))
  }

  predicate NodeAccepts(h: Hash, leafHex: Str, proof: seq<ProofStep>, rootHex: Str) {
    ToHex(Walk(h, NodeFromHex(leafHex), ReadSteps(Node, proof))) == rootHex && |rootHex| == 64
  }

  predicate BrowserAccepts(h: Hash, preimage: Json, proof: seq<ProofStep>, rootHex: Str) {
    ToHex(Walk(h, h(LeafBytes(preimage)), ReadSteps(Browser, proof))) == rootHex && |rootHex| == 64
  }

  /** The root of one leaf is the digest of a zero byte and its canonical text. */
  lemma RootOfOne(h: Hash, x: LeafInput)
    ensures BuildResult(h, [x]).root == ToHex(h([0] + Encode(Stringify(x.preimage))))
  {
    var one := (x.sortKey, x);
    assert Keyed([x]) == [one] && [one][1..] == [];
    assert SortByKey([one]) == JsString.Insert(one, SortByKey([])) == [one];
    assert Committed([x]) == [x];
    assert Digests(h, LeafBytesOf([x])) == [h([0] + Encode(Stringify(x.preimage)))];
  }

  // ----- operations ----------------------------------------------------------

  method BuildMerkle(h: Hash, inputs: seq<LeafInput>) returns (r: MerkleResult)
    ensures r == BuildResult(h, inputs)
    ensures |inputs| == 1 ==> r.root == ToHex(h([0] + Encode(Stringify(inputs[0].preimage))))
  {
    if |inputs| == 1 { RootOfOne(h, inputs[0]); assert inputs == [inputs[0]]; }
    var entries := Committed(inputs);
    if |entries| == 0 {
      return MerkleResult([], 0, []);
    }
    var bottom := Digests(h, LeafBytesOf(entries));
    var levels := BuildLevels(h, bottom);
    var leaves := BuildProofs(h, entries, bottom, levels);
    r := MerkleResult(ToHex(levels[|levels| - 1][0]), |entries|, leaves);
  }

  /** The leaves with their hashes and proofs. */
  method BuildProofs(h: Hash, entries: seq<LeafInput>, bottom: seq<Bytes>, levels: seq<seq<Bytes>>)
    returns (leaves: seq<LeafProof>)
    requires |entries| == |bottom| && levels != [] && levels[0] == bottom && Chain(h, levels) &&
      |levels[|levels| - 1]| == 1
    ensures leaves == AllLeafProofs(h, entries, bottom)
  {
    leaves := [];
    for idx := 0 to |entries|
      invariant |leaves| == idx
      invariant forall i :: 0 <= i < idx ==> leaves[i] == LeafProofAt(h, entries, bottom, i)
    {
      var proof := ProofForIndex(h, levels, idx);
      leaves := leaves + [LeafProof(entries[idx].key, ToHex(bottom[idx]), proof)];
    }
  }

  /** All levels, bottom-up. */
  method BuildLevels(h: Hash, bottom: seq<Bytes>) returns (levels: seq<seq<Bytes>>)
    requires bottom != []
    ensures levels != [] && levels[0] == bottom && Chain(h, levels)
    ensures levels[|levels| - 1] == [Root(h, bottom)]
  {
    levels := [bottom];
    while |levels[|levels| - 1]| > 1
      invariant levels != [] && levels[0] == bottom && Chain(h, levels)
      invariant levels[|levels| - 1] != [] && Root(h, levels[|levels| - 1]) == Root(h, bottom)
      decreases |levels[|levels| - 1]|
    {
      var next := BuildLevel(h, levels[|levels| - 1]);
      levels := levels + [next];
    }
  }

  /** One level of parents, pairing an odd last node with itself. */
  method BuildLevel(h: Hash, cur: seq<Bytes>) returns (next: seq<Bytes>)
    ensures next == LevelUp(h, cur)
  {
    next := [];
    var i := 0;
    while i < |cur|
      invariant i == 2 * |next| <= |cur| + 1
      invariant forall k :: 0 <= k < |next| ==> next[k] == LevelUp(h, cur)[k]
    {
      var left := cur[i];
      var right := if i + 1 < |cur| then cur[i + 1] else cur[i];
      ghost var k := |next|;
      assert k < Half(|cur|) && left == cur[2 * k] && right == cur[RightOf(2 * k, |cur|)];
      next := next + [h(NodeBytes(left, right))];
      i := i + 2;
    }
  }

  /** Each level holds the parents of the one before. */
  ghost predicate Chain(h: Hash, levels: seq<seq<Bytes>>) {
    forall k :: 0 <= k < |levels| - 1 ==> |levels[k]| > 1 && levels[k + 1] == LevelUp(h, levels[k])
  }

  method ProofForIndex(h: Hash, levels: seq<seq<Bytes>>, index: nat) returns (proof: seq<ProofStep>)
    requires levels != [] && Chain(h, levels) && |levels[|levels| - 1]| == 1
    requires index < |levels[0]|
    ensures proof == HexSteps(ProofOf(h, levels[0], index))
  {
    proof := [];
    var idx: nat := index;
    for lvl := 0 to |levels| - 1
      invariant idx < |levels[lvl]|
      invariant proof + HexSteps(ProofOf(h, levels[lvl], idx)) == HexSteps(ProofOf(h, levels[0], index))
    {
      var cur := levels[lvl];
      var isRightNode := idx % 2 == 1;
      var sibIdx: int := if isRightNode then idx - 1 else idx + 1;
      var sibling := if sibIdx < |cur| then cur[sibIdx] else cur[idx];
      assert levels[lvl + 1] == LevelUp(h, cur);
      ProofHead(h, cur, idx, sibling);
      Regroup(proof, ProofStep(ToHex(sibling), isRightNode), HexSteps(ProofOf(h, levels[lvl + 1], idx / 2)));
      proof := proof + [ProofStep(ToHex(sibling), isRightNode)];
      idx := idx / 2;
    }
    assert ProofOf(h, levels[|levels| - 1], idx) == [];
  }

  lemma Regroup<T>(a: seq<T>, x: T, b: seq<T>)
    ensures a + ([x] + b) == a + [x] + b
  {
  }

  /** The first step of a proof: the sibling, and an odd last node is its own. */
  lemma ProofHead(h: Hash, cur: seq<Bytes>, idx: nat, sibling: Bytes)
    requires |cur| > 1 && idx < |cur|
    requires sibling == if idx % 2 == 1 then cur[idx - 1] else if idx + 1 < |cur| then cur[idx + 1] else cur[idx]
    ensures idx / 2 < |LevelUp(h, cur)|
    ensures HexSteps(ProofOf(h, cur, idx))
      == [ProofStep(ToHex(sibling), idx % 2 == 1)] + HexSteps(ProofOf(h, LevelUp(h, cur), idx / 2))
  {
    var first := Sibling(sibling, idx % 2 == 1);
    assert ProofOf(h, cur, idx) == [first] + ProofOf(h, LevelUp(h, cur), idx / 2);
  }

  method VerifyProof(h: Hash, leafHex: Str, proof: seq<ProofStep>, rootHex: Str) returns (ok: bool)
    ensures ok == NodeAccepts(h, leafHex, proof, rootHex)
  {
    var digest := NodeFromHex(leafHex);
    ghost var steps := ReadSteps(Node, proof);
    for i := 0 to |proof|
      invariant Walk(h, digest, steps[i..]) == Walk(h, NodeFromHex(leafHex), steps)
    {
      var sib := NodeFromHex(proof[i].hash);
      assert steps[i..][0] == Sibling(sib, proof[i].left) && steps[i..][1..] == steps[i + 1..];
      digest := if proof[i].left then h(NodeBytes(sib, digest)) else h(NodeBytes(digest, sib));
    }
    ok := ToHex(digest) == rootHex && |rootHex| == 64;
  }
}
