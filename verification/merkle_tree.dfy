/** The Merkle tree of lib/merkle.ts: what a root or a proof commits to. */
module MerkleTree {
  // The tree is a function of its hash. A level's odd last node is paired with itself. The hash is a parameter with
  // 32-byte output. Such a function always has collisions, so a theorem that only said "or a collision exists" would
  // say nothing: every theorem here names the finite set of byte strings that the builds and walks at hand really
  // hash, and places the collision inside it.

  import opened Utf8

  type Hash = Bytes -> Bytes

  const LEAF_PREFIX: Byte := 0
  const NODE_PREFIX: Byte := 1

  ghost predicate Digests32(h: Hash) {
    forall x: Bytes :: |h(x)| == 32
  }

  function NodeBytes(a: Bytes, b: Bytes): Bytes {
    [NODE_PREFIX] + a + b
  }

  /** The right child of the pair that starts at i: the node itself when it is the odd last one. */
  function RightOf(i: nat, n: nat): (r: nat)
    requires i < n
    ensures i <= r < n
  {
    if i + 1 < n then i + 1 else i
  }

  /** How many parents n nodes have. */
  function Half(n: nat): (m: nat)
    ensures n <= 2 * m <= n + 1
  {
    (n + 1) / 2
  }

  function LevelUp(h: Hash, level: seq<Bytes>): seq<Bytes> {
    seq(Half(|level|), i requires 0 <= i < Half(|level|) => h(NodeBytes(level[2 * i], level[RightOf(2 * i, |level|)])))
  }

  function Root(h: Hash, level: seq<Bytes>): Bytes
    requires level != []
    decreases |level|
  {
    if |level| == 1 then level[0] else Root(h, LevelUp(h, level))
  }

  function Height(n: nat): nat {
    if n <= 1 then 0 else 1 + Height(Half(n))
  }

  function Digests(h: Hash, inputs: seq<Bytes>): seq<Bytes> {
    seq(|inputs|, i requires 0 <= i < |inputs| => h(inputs[i]))
  }

  // ----- collisions among what is hashed -------------------------------------

  ghost function NodeInputs(h: Hash, level: seq<Bytes>): set<Bytes>
    decreases |level|
  {
    if |level| <= 1 then {}
    else
      (set i | 0 <= i < Half(|level|) :: NodeBytes(level[2 * i], level[RightOf(2 * i, |level|)]))
      + NodeInputs(h, LevelUp(h, level))
  }

  /** Every byte string hashed while a tree is built over the given leaf inputs. */
  ghost function BuildInputs(h: Hash, leaves: seq<Bytes>): set<Bytes> {
    (set x | x in leaves) + NodeInputs(h, Digests(h, leaves))
  }

  ghost predicate Collision(h: Hash, inputs: set<Bytes>) {
    exists x, y :: x in inputs && y in inputs && x != y && h(x) == h(y)
  }

  ghost predicate IsLeafInput(x: Bytes) {
    x != [] && x[0] == LEAF_PREFIX
  }

  ghost predicate LeafInputs(leaves: seq<Bytes>) {
    forall i :: 0 <= i < |leaves| ==> IsLeafInput(leaves[i])
  }

  ghost predicate Distinct<T(!new)>(s: seq<T>) {
    forall i, j :: 0 <= i < j < |s| ==> s[i] != s[j]
  }

  // ----- the duplication made explicit ---------------------------------------

  /** The number of leaf places in the padded tree, 2^height. */
  function Width(n: nat): (w: nat)
    requires n > 0
    ensures w > 0
  {
    if n == 1 then 1 else 2 * Width(Half(n))
  }

  /** Which leaf sits in a place of the padded tree. */
  function Slot(n: nat, place: nat): (leaf: nat)
    requires 0 < n && place < Width(n)
    ensures leaf < n
  {
    if n == 1 then 0
    else
      var parent := Slot(Half(n), place / 2);
      assert 2 * parent < n;
      if place % 2 == 0 then 2 * parent else RightOf(2 * parent, n)
  }

  /** The leaves with every duplicated subtree written out. */
  function Unfold<T>(s: seq<T>): seq<T>
    requires s != []
  {
    seq(Width(|s|), j requires 0 <= j < Width(|s|) => s[Slot(|s|, j)])
  }

  /** The written-out leaves start with the leaves themselves. */
  lemma {:induction false} SlotPrefix(n: nat, place: nat)
    requires place < n
    ensures place < Width(n) && Slot(n, place) == place
  {
    if n > 1 {
      SlotPrefix(Half(n), place / 2);
    }
  }

  lemma UnfoldPrefix<T>(s: seq<T>)
    requires s != []
    ensures |s| <= |Unfold(s)| && forall i :: 0 <= i < |s| ==> Unfold(s)[i] == s[i]
  {
    SlotPrefix(|s|, |s| - 1);
    forall i | 0 <= i < |s| ensures i < |Unfold(s)| && Unfold(s)[i] == s[i] { SlotPrefix(|s|, i); }
  }

  lemma SlotChildren(n: nat, place: nat)
    requires n > 1 && place < Width(Half(n))
    ensures 2 * place + 1 < Width(n)
    ensures Slot(n, 2 * place) == 2 * Slot(Half(n), place)
    ensures Slot(n, 2 * place + 1) == RightOf(2 * Slot(Half(n), place), n)
  {
    assert (2 * place) / 2 == place && (2 * place + 1) / 2 == place;
  }

  lemma LevelUpAt(h: Hash, level: seq<Bytes>, p: nat)
    requires p < Half(|level|)
    ensures 2 * p < |level| && |LevelUp(h, level)| == Half(|level|)
    ensures LevelUp(h, level)[p] == h(NodeBytes(level[2 * p], level[RightOf(2 * p, |level|)]))
  {
  }

  /** The children of a place of the unfolded level above. */
  lemma UnfoldChildren(level: seq<Bytes>, j: nat)
    requires |level| > 1 && j < Width(Half(|level|))
    ensures 2 * Slot(Half(|level|), j) < |level| && 2 * j + 1 < Width(|level|)
    ensures Unfold(level)[2 * j] == level[2 * Slot(Half(|level|), j)]
    ensures Unfold(level)[2 * j + 1] == level[RightOf(2 * Slot(Half(|level|), j), |level|)]
  {
    SlotChildren(|level|, j);
    UnfoldAt(level, 2 * j);
    UnfoldAt(level, 2 * j + 1);
  }

  lemma UnfoldUp(h: Hash, level: seq<Bytes>, j: nat)
    requires |level| > 1 && j < Width(Half(|level|))
    ensures 2 * j + 1 < Width(|level|)
    ensures Unfold(LevelUp(h, level))[j] == h(NodeBytes(Unfold(level)[2 * j], Unfold(level)[2 * j + 1]))
    ensures NodeBytes(Unfold(level)[2 * j], Unfold(level)[2 * j + 1]) in NodeInputs(h, level)
  {
    var p := Slot(Half(|level|), j);
    UnfoldChildren(level, j);
    LevelUpAt(h, level, p);
    UnfoldAt(LevelUp(h, level), j);
    PairHashed(h, level, p);
  }

  lemma UnfoldAt<T>(s: seq<T>, j: nat)
    requires s != [] && j < Width(|s|)
    ensures Unfold(s)[j] == s[Slot(|s|, j)]
  {
  }

  lemma PairHashed(h: Hash, level: seq<Bytes>, i: nat)
    requires |level| > 1 && 2 * i < |level|
    ensures NodeBytes(level[2 * i], level[RightOf(2 * i, |level|)]) in NodeInputs(h, level)
  {
  }

  ghost predicate Wide(level: seq<Bytes>) {
    forall i :: 0 <= i < |level| ==> |level[i]| == 32
  }

  lemma NodeBytesInjective(a: Bytes, b: Bytes, c: Bytes, d: Bytes)
    requires NodeBytes(a, b) == NodeBytes(c, d) && |a| == |c|
    ensures a == c && b == d
  {
    assert NodeBytes(a, b)[1..|a| + 1] == a && NodeBytes(c, d)[1..|c| + 1] == c;
    assert NodeBytes(a, b)[|a| + 1..] == b && NodeBytes(c, d)[|c| + 1..] == d;
  }

  /** Equal written-out parents have equal written-out children. */
  lemma ChildrenBind(h: Hash, x: seq<Bytes>, y: seq<Bytes>, inputs: set<Bytes>)
    requires Digests32(h) && |x| > 1 && |y| > 1 && Wide(x) && Wide(y)
    requires NodeInputs(h, x) <= inputs && NodeInputs(h, y) <= inputs && !Collision(h, inputs)
    requires Unfold(LevelUp(h, x)) == Unfold(LevelUp(h, y))
    ensures Unfold(x) == Unfold(y)
  {
    var m := Width(Half(|x|));
    assert m == |Unfold(LevelUp(h, x))| == |Unfold(LevelUp(h, y))| == Width(Half(|y|));
    forall k | 0 <= k < m
      ensures Unfold(x)[2 * k] == Unfold(y)[2 * k] && Unfold(x)[2 * k + 1] == Unfold(y)[2 * k + 1]
    {
      UnfoldUp(h, x, k);
      UnfoldUp(h, y, k);
      NodeBytesInjective(Unfold(x)[2 * k], Unfold(x)[2 * k + 1], Unfold(y)[2 * k], Unfold(y)[2 * k + 1]);
    }
    forall j | 0 <= j < |Unfold(x)| ensures Unfold(x)[j] == Unfold(y)[j] {
      assert j == 2 * (j / 2) || j == 2 * (j / 2) + 1;
    }
  }

  /** Trees of one height with one root have the same written-out nodes at the bottom. */
  lemma {:induction false} SameHeightBinds(h: Hash, x: seq<Bytes>, y: seq<Bytes>, inputs: set<Bytes>)
    requires Digests32(h) && x != [] && y != [] && Wide(x) && Wide(y)
    requires Height(|x|) == Height(|y|) && Root(h, x) == Root(h, y)
    requires NodeInputs(h, x) <= inputs && NodeInputs(h, y) <= inputs && !Collision(h, inputs)
    ensures Unfold(x) == Unfold(y)
    decreases |x|
  {
    if |x| == 1 {
      assert |y| == 1;
    } else {
      assert |y| > 1;
      SameHeightBinds(h, LevelUp(h, x), LevelUp(h, y), inputs);
      ChildrenBind(h, x, y, inputs);
    }
  }

  /** A leaf digest is no node digest. */
  lemma LeafIsNoNode(h: Hash, leaf: Bytes, y: seq<Bytes>, inputs: set<Bytes>)
    requires IsLeafInput(leaf) && leaf in inputs && |y| > 1
    requires NodeInputs(h, y) <= inputs && !Collision(h, inputs)
    ensures h(leaf) != LevelUp(h, y)[0]
  {
    PairHashed(h, y, 0);
    var node := NodeBytes(y[2 * 0], y[RightOf(2 * 0, |y|)]);
    assert node[0] == NODE_PREFIX && node != leaf;
    assert LevelUp(h, y)[0] == h(node);
  }

  /** A leaf level never has the root of a taller tree. */
  lemma {:induction false} TallerDiffers(h: Hash, x: seq<Bytes>, leaf: Bytes, y: seq<Bytes>, inputs: set<Bytes>)
    requires Digests32(h) && x != [] && y != [] && Wide(x) && Wide(y)
    requires IsLeafInput(leaf) && leaf in inputs && x[0] == h(leaf)
    requires NodeInputs(h, x) <= inputs && NodeInputs(h, y) <= inputs && !Collision(h, inputs)
    requires Height(|x|) < Height(|y|)
    ensures Root(h, x) != Root(h, y)
    decreases |y|
  {
    var up := LevelUp(h, y);
    if Height(|x|) < Height(|up|) {
      TallerDiffers(h, x, leaf, up, inputs);
    } else {
      UnfoldPrefix(x);
      UnfoldPrefix(up);
      LeafIsNoNode(h, leaf, y, inputs);
      if Root(h, x) == Root(h, up) { SameHeightBinds(h, x, up, inputs); }
    }
  }

  lemma {:induction false} UnfoldDigests(h: Hash, leaves: seq<Bytes>)
    requires leaves != []
    ensures Unfold(Digests(h, leaves)) == Digests(h, Unfold(leaves))
  {
  }

  lemma {:induction false} UnfoldFixesRoot(h: Hash, x: seq<Bytes>, y: seq<Bytes>)
    requires x != [] && y != [] && Unfold(x) == Unfold(y)
    ensures Root(h, x) == Root(h, y)
    decreases |x|
  {
    assert Width(|x|) == |Unfold(x)| == |Unfold(y)| == Width(|y|);
    if |x| == 1 {
      assert |y| == 1;
      assert x[0] == Unfold(x)[0] == Unfold(y)[0] == y[0];
    } else {
      assert |y| > 1;
      var x', y' := LevelUp(h, x), LevelUp(h, y);
      forall j | 0 <= j < Width(|x'|) ensures Unfold(x')[j] == Unfold(y')[j] {
        UnfoldUp(h, x, j);
        UnfoldUp(h, y, j);
      }
      UnfoldFixesRoot(h, x', y');
    }
  }

  /** Exactly which leaf lists share a root: those equal once duplication is written out.
      One direction holds outright, the other unless the two builds hash a collision. */
  lemma RootBinding(h: Hash, a: seq<Bytes>, b: seq<Bytes>)
    requires Digests32(h) && a != [] && b != [] && LeafInputs(a) && LeafInputs(b)
    ensures Unfold(a) == Unfold(b) ==> Root(h, Digests(h, a)) == Root(h, Digests(h, b))
    ensures Root(h, Digests(h, a)) == Root(h, Digests(h, b)) ==>
      Unfold(a) == Unfold(b) || Collision(h, BuildInputs(h, a) + BuildInputs(h, b))
  {
    var x, y := Digests(h, a), Digests(h, b);
    UnfoldDigests(h, a);
    UnfoldDigests(h, b);
    if Unfold(a) == Unfold(b) {
      UnfoldFixesRoot(h, x, y);
    }
    var inputs := BuildInputs(h, a) + BuildInputs(h, b);
    if Root(h, x) == Root(h, y) && !Collision(h, inputs) {
      assert a[0] in inputs && b[0] in inputs;
      if Height(|a|) < Height(|b|) {
        TallerDiffers(h, x, a[0], y, inputs);
      } else if Height(|b|) < Height(|a|) {
        TallerDiffers(h, y, b[0], x, inputs);
      } else {
        SameHeightBinds(h, x, y, inputs);
        forall j | 0 <= j < |Unfold(a)| ensures Unfold(a)[j] == Unfold(b)[j] {
          assert h(Unfold(a)[j]) == Digests(h, Unfold(a))[j] == Digests(h, Unfold(b))[j] == h(Unfold(b)[j]);
          assert Unfold(a)[j] in a && Unfold(b)[j] in b;
        }
      }
    }
  }

  lemma LongerRepeats<T(!new)>(a: seq<T>, b: seq<T>)
    requires a != [] && |a| < |b| && Unfold(a) == Unfold(b)
    ensures !Distinct(b)
  {
    UnfoldPrefix(a);
    UnfoldPrefix(b);
    var n := |a|;
    var k := Slot(n, n);
    assert b[n] == Unfold(a)[n] == a[k] == b[k];
  }

  /** Written-out lists determine the list when it has no repeats, or when its length is known. */
  lemma UnfoldInjective<T(!new)>(a: seq<T>, b: seq<T>)
    requires a != [] && b != [] && Unfold(a) == Unfold(b)
    requires (Distinct(a) && Distinct(b)) || |a| == |b|
    ensures a == b
  {
    UnfoldPrefix(a);
    UnfoldPrefix(b);
    if |a| < |b| { LongerRepeats(a, b); }
    if |b| < |a| { LongerRepeats(b, a); }
    forall i | 0 <= i < |a| ensures a[i] == b[i] {
      assert a[i] == Unfold(a)[i];
    }
  }

  /** A root commits to a list without repeats, and with the published leaf count to any list. */
  lemma RootCommits(h: Hash, a: seq<Bytes>, b: seq<Bytes>)
    requires Digests32(h) && a != [] && b != [] && LeafInputs(a) && LeafInputs(b)
    requires (Distinct(a) && Distinct(b)) || |a| == |b|
    ensures Root(h, Digests(h, a)) == Root(h, Digests(h, b)) ==>
      a == b || Collision(h, BuildInputs(h, a) + BuildInputs(h, b))
  {
    RootBinding(h, a, b);
    if Unfold(a) == Unfold(b) {
      UnfoldInjective(a, b);
    }
  }

  /** Without the condition it fails: repeating the last of three leaves keeps the root. */
  lemma RepeatSharesRoot(h: Hash, a: Bytes, b: Bytes, c: Bytes)
    ensures [a, b, c] != [a, b, c, c]
    ensures Root(h, Digests(h, [a, b, c])) == Root(h, Digests(h, [a, b, c, c]))
  {
    var x, y := Digests(h, [a, b, c]), Digests(h, [a, b, c, c]);
    assert RightOf(0, 3) == 1 && RightOf(2, 3) == 2 && RightOf(0, 4) == 1 && RightOf(2, 4) == 3;
    assert LevelUp(h, x) == [h(NodeBytes(h(a), h(b))), h(NodeBytes(h(c), h(c)))];
    assert LevelUp(h, y) == [h(NodeBytes(h(a), h(b))), h(NodeBytes(h(c), h(c)))];
  }

  // ----- proofs --------------------------------------------------------------

  /** A proof step: the sibling's bytes and whether it stands on the left. */
  datatype Sibling = Sibling(bytes: Bytes, left: bool)

  function Combine(s: Sibling, digest: Bytes): Bytes {
    if s.left then NodeBytes(s.bytes, digest) else NodeBytes(digest, s.bytes)
  }

  /** The digest a walk from a leaf digest arrives at. */
  function Walk(h: Hash, digest: Bytes, proof: seq<Sibling>): Bytes
    decreases |proof|
  {
    if proof == [] then digest else Walk(h, h(Combine(proof[0], digest)), proof[1..])
  }

  function ProofOf(h: Hash, level: seq<Bytes>, index: nat): seq<Sibling>
    requires index < |level|
    decreases |level|
  {
    if |level| == 1 then []
    else
      var s := if index % 2 == 1 then Sibling(level[index - 1], true)
        else Sibling(level[RightOf(index, |level|)], false);
      [s] + ProofOf(h, LevelUp(h, level), index / 2)
  }

  function Pow2(k: nat): nat {
    if k == 0 then 1 else 2 * Pow2(k - 1)
  }

  /** The height is the logarithm to base 2, rounded up. */
  lemma {:induction false} HeightIsCeilLog2(n: nat)
    requires n > 0
    ensures Pow2(Height(n)) >= n
    ensures n > 1 ==> Pow2(Height(n) - 1) < n
  {
    if n > 1 {
      HeightIsCeilLog2(Half(n));
    }
  }

  /** Every leaf's own proof leads to the root and has one step a level. */
  lemma {:induction false} ProofComplete(h: Hash, level: seq<Bytes>, index: nat)
    requires index < |level|
    ensures Walk(h, level[index], ProofOf(h, level, index)) == Root(h, level)
    ensures |ProofOf(h, level, index)| == Height(|level|)
    decreases |level|
  {
    if |level| > 1 {
      var up := LevelUp(h, level);
      ProofComplete(h, up, index / 2);
      var proof := ProofOf(h, level, index);
      assert proof[1..] == ProofOf(h, up, index / 2);
      var i := 2 * (index / 2);
      assert i == if index % 2 == 1 then index - 1 else index;
      assert up[index / 2] == h(NodeBytes(level[i], level[RightOf(i, |level|)]));
      assert up[index / 2] == h(Combine(proof[0], level[index]));
    }
  }

  ghost function WalkInputs(h: Hash, digest: Bytes, proof: seq<Sibling>): set<Bytes>
    decreases |proof|
  {
    if proof == [] then {}
    else {Combine(proof[0], digest)} + WalkInputs(h, h(Combine(proof[0], digest)), proof[1..])
  }

  ghost predicate HashedIn(h: Hash, digest: Bytes, inputs: set<Bytes>) {
    exists x :: x in inputs && h(x) == digest
  }

  /** Both children of a hashed node were hashed themselves or stand at the bottom. */
  lemma {:induction false} ChildrenHashed(h: Hash, level: seq<Bytes>, x: Bytes) returns (a: Bytes, b: Bytes)
    requires Digests32(h) && x in NodeInputs(h, level)
    ensures x == NodeBytes(a, b)
    ensures a in level || HashedIn(h, a, NodeInputs(h, level))
    ensures b in level || HashedIn(h, b, NodeInputs(h, level))
    decreases |level|
  {
    var up := LevelUp(h, level);
    if i :| 0 <= i < Half(|level|) && x == NodeBytes(level[2 * i], level[RightOf(2 * i, |level|)]) {
      a, b := level[2 * i], level[RightOf(2 * i, |level|)];
    } else {
      a, b := ChildrenHashed(h, up, x);
      if a in up { UpHashed(h, level, a); }
      if b in up { UpHashed(h, level, b); }
    }
  }

  lemma UpHashed(h: Hash, level: seq<Bytes>, d: Bytes)
    requires |level| > 1 && d in LevelUp(h, level)
    ensures HashedIn(h, d, NodeInputs(h, level))
  {
    var up := LevelUp(h, level);
    var i :| 0 <= i < |up| && up[i] == d;
    PairHashed(h, level, i);
  }

  lemma {:induction false} RootHashed(h: Hash, level: seq<Bytes>)
    requires level != []
    ensures Root(h, level) in level || HashedIn(h, Root(h, level), NodeInputs(h, level))
    decreases |level|
  {
    if |level| > 1 {
      RootHashed(h, LevelUp(h, level));
      if Root(h, level) in LevelUp(h, level) { UpHashed(h, level, Root(h, level)); }
    }
  }

  lemma LevelHashed(h: Hash, leaves: seq<Bytes>, d: Bytes)
    requires d in Digests(h, leaves) || HashedIn(h, d, NodeInputs(h, Digests(h, leaves)))
    ensures HashedIn(h, d, BuildInputs(h, leaves))
  {
    if d in Digests(h, leaves) {
      var i :| 0 <= i < |leaves| && Digests(h, leaves)[i] == d;
      assert leaves[i] in BuildInputs(h, leaves);
    }
  }

  lemma {:induction false} NodePrefixed(h: Hash, level: seq<Bytes>, x: Bytes)
    requires x in NodeInputs(h, level)
    ensures x != [] && x[0] == NODE_PREFIX
    decreases |level|
  {
    if x in NodeInputs(h, LevelUp(h, level)) && |level| > 1 {
      NodePrefixed(h, LevelUp(h, level), x);
    }
  }

  /** A walk that ends inside the tree started inside the tree. */
  lemma {:induction false} WalkBack(h: Hash, leaves: seq<Bytes>, digest: Bytes, proof: seq<Sibling>, inputs: set<Bytes>)
    requires Digests32(h) && LeafInputs(leaves) && |digest| == 32
    requires BuildInputs(h, leaves) <= inputs && WalkInputs(h, digest, proof) <= inputs && !Collision(h, inputs)
    requires HashedIn(h, Walk(h, digest, proof), BuildInputs(h, leaves))
    ensures HashedIn(h, digest, BuildInputs(h, leaves))
    decreases |proof|
  {
    if proof != [] {
      var node := Combine(proof[0], digest);
      WalkBack(h, leaves, h(node), proof[1..], inputs);
      var x :| x in BuildInputs(h, leaves) && h(x) == h(node);
      assert x == node;
      assert x !in leaves;
      var a, b := ChildrenHashed(h, Digests(h, leaves), x);
      LevelHashed(h, leaves, a);
      LevelHashed(h, leaves, b);
      assert |a| == 32 && |b| == 32;
      if proof[0].left {
        assert |node| == 1 + |proof[0].bytes| + 32 && |x| == 65;
        NodeBytesInjective(proof[0].bytes, digest, a, b);
      } else {
        NodeBytesInjective(digest, proof[0].bytes, a, b);
      }
    }
  }

  /** A proof of any length, with siblings of any size, is accepted only for a committed leaf,
      unless the build and the walk between them hash a collision. */
  lemma ProofSound(h: Hash, leaves: seq<Bytes>, leaf: Bytes, proof: seq<Sibling>)
    requires Digests32(h) && leaves != [] && LeafInputs(leaves) && IsLeafInput(leaf)
    requires Walk(h, h(leaf), proof) == Root(h, Digests(h, leaves))
    ensures leaf in leaves ||
      Collision(h, BuildInputs(h, leaves) + {leaf} + WalkInputs(h, h(leaf), proof))
  {
    var inputs := BuildInputs(h, leaves) + {leaf} + WalkInputs(h, h(leaf), proof);
    if !Collision(h, inputs) {
      RootHashed(h, Digests(h, leaves));
      LevelHashed(h, leaves, Root(h, Digests(h, leaves)));
      WalkBack(h, leaves, h(leaf), proof, inputs);
      var x :| x in BuildInputs(h, leaves) && h(x) == h(leaf);
      assert x == leaf;
      if x in NodeInputs(h, Digests(h, leaves)) {
        NodePrefixed(h, Digests(h, leaves), x);
      }
    }
  }
}
