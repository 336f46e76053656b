/** The browser verifier of lib/merkleVerify.ts, and what either verifier's answer is worth. */
module MerkleVerify {
  import opened Wrappers
  import opened JsString
  import opened Json
  import JsonCanonical
  import opened Utf8
  import opened Hex
  import opened MerkleTree
  import opened Merkle

  // ----- operations ----------------------------------------------------------

  function Flatten(parts: seq<Bytes>): Bytes {
    if parts == [] then [] else Flatten(parts[..|parts| - 1]) + parts[|parts| - 1]
  }

  lemma {:induction false} FlattenPrefix(parts: seq<Bytes>, i: nat)
    requires i < |parts|
    ensures Flatten(parts[..i + 1]) == Flatten(parts[..i]) + parts[i]
    ensures |Flatten(parts[..i + 1])| <= |Flatten(parts)|
    decreases |parts| - i
  {
    assert parts[..i + 1][..i] == parts[..i];
    if i + 1 < |parts| {
      FlattenPrefix(parts, i + 1);
    } else {
      assert parts[..i + 1] == parts;
    }
  }

  /** Copies the parts one after another into a byte array of their total length. */
  method Concat(parts: seq<Bytes>) returns (out: array<Byte>)
    ensures fresh(out) && out[..] == Flatten(parts)
  {
    var total := 0;
    for i := 0 to |parts|
      invariant total == |Flatten(parts[..i])|
    {
      FlattenPrefix(parts, i);
      total := total + |parts[i]|;
    }
    assert parts[..|parts|] == parts;
    out := new Byte[total];
    var off := 0;
    for i := 0 to |parts|
      invariant off == |Flatten(parts[..i])| <= total
      invariant out[..off] == Flatten(parts[..i])
    {
      FlattenPrefix(parts, i);
      var p := parts[i];
      forall j | 0 <= j < |p| {
        out[off + j] := p[j];
      }
      assert out[..off + |p|] == out[..off] + p;
      off := off + |p|;
    }
    assert out[..] == out[..off];
  }

  datatype TraceStep = TraceStep(sibling: Str, left: bool, result: Str)

  datatype VerifyTrace = VerifyTrace(leaf: Str, steps: seq<TraceStep>, computedRoot: Str, ok: bool)

  /** The running digest after the first i steps of the browser's walk. */
  function DigestAfter(h: Hash, preimage: Json, proof: seq<ProofStep>, i: nat): Bytes
    requires i <= |proof|
  {
    Walk(h, h(LeafBytes(preimage)), ReadSteps(Browser, proof[..i]))
  }

  lemma DigestStep(h: Hash, preimage: Json, proof: seq<ProofStep>, i: nat)
    requires i < |proof|
    ensures DigestAfter(h, preimage, proof, i + 1) ==
      h(Combine(ReadStep(Browser, proof[i]), DigestAfter(h, preimage, proof, i)))
  {
    var last := ReadStep(Browser, proof[i]);
    WalkSnoc(h, h(LeafBytes(preimage)), ReadSteps(Browser, proof[..i]), last);
    assert ReadSteps(Browser, proof[..i + 1]) == ReadSteps(Browser, proof[..i]) + [last];
  }

  function TraceStepAt(h: Hash, preimage: Json, proof: seq<ProofStep>, i: nat): TraceStep
    requires i < |proof|
  {
    TraceStep(proof[i].hash, proof[i].left, ToHex(DigestAfter(h, preimage, proof, i + 1)))
  }

  method HashLeaf(h: Hash, preimage: Json) returns (digest: Bytes)
    ensures digest == h(LeafBytes(preimage))
  {
    TwoParts([LEAF_PREFIX], Encode(Stringify(preimage)));
    var input := Concat([[LEAF_PREFIX], Encode(Stringify(preimage))]);
    digest := h(input[..]);
  }

  /** One step up: the sibling goes on its own side. */
  method HashNode(h: Hash, sib: Bytes, left: bool, digest: Bytes) returns (parent: Bytes)
    ensures parent == h(Combine(Sibling(sib, left), digest))
  {
    parent := if left then h(NodeBytes(sib, digest)) else h(NodeBytes(digest, sib));
  }

  /** The walk from the leaf's digest, every step of it kept. */
  method WalkSteps(h: Hash, preimage: Json, proof: seq<ProofStep>, leaf: Bytes)
    returns (digest: Bytes, steps: seq<TraceStep>)
    requires leaf == h(LeafBytes(preimage))
    ensures digest == DigestAfter(h, preimage, proof, |proof|)
    ensures |steps| == |proof| && forall i :: 0 <= i < |proof| ==> steps[i] == TraceStepAt(h, preimage, proof, i)
  {
    assert ReadSteps(Browser, proof[..0]) == [];
    digest, steps := leaf, [];
    for i := 0 to |proof|
      invariant digest == DigestAfter(h, preimage, proof, i)
      invariant |steps| == i && forall k :: 0 <= k < i ==> steps[k] == TraceStepAt(h, preimage, proof, k)
    {
      var sib := BrowserFromHex(proof[i].hash);
      DigestStep(h, preimage, proof, i);
      digest := HashNode(h, sib, proof[i].left, digest);
      steps := steps + [TraceStep(proof[i].hash, proof[i].left, ToHex(digest))];
    }
  }

  method TraceLeafPreimage(h: Hash, preimage: Json, proof: seq<ProofStep>, rootHex: Str) returns (trace: VerifyTrace)
    ensures trace.ok == BrowserAccepts(h, preimage, proof, rootHex)
    ensures trace.leaf == LeafHashOf(h, preimage)
    ensures trace.computedRoot == ToHex(DigestAfter(h, preimage, proof, |proof|))
    ensures |trace.steps| == |proof| && forall i :: 0 <= i < |proof| ==>
      trace.steps[i] == TraceStepAt(h, preimage, proof, i)
  {
    var leaf := HashLeaf(h, preimage);
    var digest, steps := WalkSteps(h, preimage, proof, leaf);
    assert proof[..|proof|] == proof;
    trace := VerifyTrace(ToHex(leaf), steps, ToHex(digest), ToHex(digest) == rootHex && |rootHex| == 64);
  }

  lemma TwoParts(a: Bytes, b: Bytes)
    ensures Flatten([a, b]) == a + b
  {
    assert [a, b][..1] == [a] && [a][..0] == [];
    assert Flatten([a]) == Flatten([]) + a == a;
  }

  lemma {:induction false} WalkSnoc(h: Hash, digest: Bytes, proof: seq<Sibling>, last: Sibling)
    ensures Walk(h, digest, proof + [last]) == h(Combine(last, Walk(h, digest, proof)))
    decreases |proof|
  {
    if proof == [] {
      assert proof + [last] == [last] && [last][1..] == [];
      assert Walk(h, digest, [last]) == Walk(h, h(Combine(last, digest)), []);
    } else {
      WalkSnoc(h, h(Combine(proof[0], digest)), proof[1..], last);
      assert (proof + [last])[1..] == proof[1..] + [last];
    }
  }

  // ----- what a published tree is worth --------------------------------------

  lemma ReadBack(proof: seq<Sibling>)
    ensures ReadSteps(Node, HexSteps(proof)) == proof && ReadSteps(Browser, HexSteps(proof)) == proof
  {
    forall i | 0 <= i < |proof|
      ensures NodeFromHex(ToHex(proof[i].bytes)) == BrowserFromHex(ToHex(proof[i].bytes)) == proof[i].bytes
    {
      HexRoundTrip(proof[i].bytes);
    }
  }

  lemma RootWide(h: Hash, level: seq<Bytes>)
    requires Digests32(h) && level != [] && Wide(level)
    ensures |Root(h, level)| == 32
    decreases |level|
  {
    if |level| > 1 {
      var up := LevelUp(h, level);
      assert |up| == Half(|level|) > 0;
      forall i | 0 <= i < |up| ensures |up[i]| == 32 {
        assert up[i] == h(NodeBytes(level[2 * i], level[RightOf(2 * i, |level|)]));
      }
      RootWide(h, up);
    }
  }

  /** Every published leaf is accepted by both verifiers, with a proof of logarithmic length. */
  lemma PublishedLeavesVerify(h: Hash, inputs: seq<LeafInput>, i: nat)
    requires Digests32(h) && i < |inputs|
    ensures var r := BuildResult(h, inputs);
      && r.leafCount == |r.leaves| == |inputs|
      && r.leaves[i].leaf == LeafHashOf(h, Committed(inputs)[i].preimage)
      && NodeAccepts(h, r.leaves[i].leaf, r.leaves[i].proof, r.root)
      && BrowserAccepts(h, Committed(inputs)[i].preimage, r.leaves[i].proof, r.root)
      && |r.leaves[i].proof| == Height(|inputs|)
  {
    var sorted := Committed(inputs);
    var level := Digests(h, LeafBytesOf(sorted));
    var r := BuildResult(h, inputs);
    assert r.leaves[i] == LeafProofAt(h, sorted, level, i);
    assert level[i] == h(LeafBytes(sorted[i].preimage));
    ProofComplete(h, level, i);
    ReadBack(ProofOf(h, level, i));
    HexRoundTrip(level[i]);
    RootWide(h, level);
  }

  ghost predicate SortKeysDiffer(inputs: seq<LeafInput>) {
    forall i, j :: 0 <= i < j < |inputs| ==> inputs[i].sortKey != inputs[j].sortKey
  }

  /** With distinct sort keys the whole result depends only on which inputs there are. */
  lemma InputOrderIrrelevant(h: Hash, a: seq<LeafInput>, b: seq<LeafInput>)
    requires SortKeysDiffer(a) && SortKeysDiffer(b) && SameMembers(a, b)
    ensures BuildResult(h, a) == BuildResult(h, b)
  {
    assert a == [] <==> b == [] by {
      assert a != [] ==> a[0] in b;
      assert b != [] ==> b[0] in a;
    }
    forall e ensures e in Keyed(a) <==> e in Keyed(b) {
      KeyedMembers(a, e);
      KeyedMembers(b, e);
    }
    SortByKeyUnique(Keyed(a), Keyed(b));
  }

  lemma KeyedMembers(inputs: seq<LeafInput>, e: (Str, LeafInput))
    ensures e in Keyed(inputs) <==> e.1 in inputs && e.0 == e.1.sortKey
  {
    if e.1 in inputs && e.0 == e.1.sortKey {
      var i :| 0 <= i < |inputs| && inputs[i] == e.1;
      assert Keyed(inputs)[i] == e;
    }
  }

  /** Two runtimes, one answer, for every preimage, proof and root whose step hashes both read alike;
      `ReadersAgreeIff` says exactly when they do. */
  lemma VerifiersAgree(h: Hash, preimage: Json, proof: seq<ProofStep>, rootHex: Str)
    requires forall i :: 0 <= i < |proof| ==> NothingToRead(AfterHexPairs(proof[i].hash))
    ensures NodeAccepts(h, LeafHashOf(h, preimage), proof, rootHex) <==> BrowserAccepts(h, preimage, proof, rootHex)
  {
    HexRoundTrip(h(LeafBytes(preimage)));
    forall i | 0 <= i < |proof| ensures NodeFromHex(proof[i].hash) == BrowserFromHex(proof[i].hash) {
      ReadersAgreeIff(proof[i].hash);
    }
    assert ReadSteps(Node, proof) == ReadSteps(Browser, proof);
  }

  ghost function CommittedBytes(inputs: seq<LeafInput>): seq<Bytes> {
    LeafBytesOf(Committed(inputs))
  }

  lemma CommittedAreLeaves(inputs: seq<LeafInput>)
    ensures LeafInputs(CommittedBytes(inputs)) && |CommittedBytes(inputs)| == |inputs|
  {
  }

  ghost predicate ProperInputs(inputs: seq<LeafInput>) {
    forall i :: 0 <= i < |inputs| ==> Proper(inputs[i].preimage)
  }

  lemma SameBytesSameValue(a: Json, b: Json)
    requires Proper(a) && Proper(b)
    ensures LeafBytes(a) == LeafBytes(b) <==> Meaning(a) == Meaning(b)
  {
    assert LeafBytes(a)[1..] == Encode(Stringify(a)) && LeafBytes(b)[1..] == Encode(Stringify(b));
    TextFromBytes(a, b);
    JsonCanonical.StringifyDecidesMeaning(a, b);
  }

  lemma CommittedProper(inputs: seq<LeafInput>)
    requires ProperInputs(inputs)
    ensures ProperInputs(Committed(inputs))
  {
    var entries := Keyed(inputs);
    SortByKeyMembers(entries);
    forall i | 0 <= i < |inputs| ensures Proper(Committed(inputs)[i].preimage) {
      assert SortByKey(entries)[i] in entries;
      var k :| 0 <= k < |entries| && entries[k] == SortByKey(entries)[i];
    }
  }

  /** One published root and leaf count commit to one list of committed values, in order, unless the
      two builds hash a collision. The leaf count may be dropped when no leaf repeats. */
  lemma PublishedRootCommits(h: Hash, a: seq<LeafInput>, b: seq<LeafInput>)
    requires Digests32(h) && a != [] && b != [] && ProperInputs(a) && ProperInputs(b)
    requires BuildResult(h, a).root == BuildResult(h, b).root
    requires BuildResult(h, a).leafCount == BuildResult(h, b).leafCount ||
      (Distinct(CommittedBytes(a)) && Distinct(CommittedBytes(b)))
    ensures Collision(h, BuildInputs(h, CommittedBytes(a)) + BuildInputs(h, CommittedBytes(b))) ||
      (|a| == |b| && forall i :: 0 <= i < |a| ==>
        Meaning(Committed(a)[i].preimage) == Meaning(Committed(b)[i].preimage))
  {
    CommittedAreLeaves(a);
    CommittedAreLeaves(b);
    var x, y := CommittedBytes(a), CommittedBytes(b);
    HexRoundTrip(Root(h, Digests(h, x)));
    HexRoundTrip(Root(h, Digests(h, y)));
    RootCommits(h, x, y);
    if x == y {
      CommittedProper(a);
      CommittedProper(b);
      forall i | 0 <= i < |a| ensures Meaning(Committed(a)[i].preimage) == Meaning(Committed(b)[i].preimage) {
        assert x[i] == LeafBytes(Committed(a)[i].preimage) && y[i] == LeafBytes(Committed(b)[i].preimage);
        SameBytesSameValue(Committed(a)[i].preimage, Committed(b)[i].preimage);
      }
    }
  }

  /** What the browser accepts under a published root denotes a committed value, whatever the proof,
      unless the build and this walk hash a collision. */
  lemma AcceptedIsCommitted(h: Hash, inputs: seq<LeafInput>, preimage: Json, proof: seq<ProofStep>)
    requires Digests32(h) && ProperInputs(inputs) && Proper(preimage)
    requires BrowserAccepts(h, preimage, proof, BuildResult(h, inputs).root)
    ensures
      (exists i :: 0 <= i < |inputs| && Meaning(Committed(inputs)[i].preimage) == Meaning(preimage)) ||
      Collision(h, BuildInputs(h, CommittedBytes(inputs)) + {LeafBytes(preimage)} +
                   WalkInputs(h, h(LeafBytes(preimage)), ReadSteps(Browser, proof)))
  {
    assert inputs != [];
    var leaves := CommittedBytes(inputs);
    CommittedAreLeaves(inputs);
    var steps := ReadSteps(Browser, proof);
    HexRoundTrip(Walk(h, h(LeafBytes(preimage)), steps));
    HexRoundTrip(Root(h, Digests(h, leaves)));
    ProofSound(h, leaves, LeafBytes(preimage), steps);
    if LeafBytes(preimage) in leaves {
      var i :| 0 <= i < |leaves| && leaves[i] == LeafBytes(preimage);
      CommittedProper(inputs);
      SameBytesSameValue(Committed(inputs)[i].preimage, preimage);
    }
  }
}
