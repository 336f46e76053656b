/** The anchor queue of lib/beaconQueue.ts: rows unique on (stream, hash), anchored oldest first. */
module BeaconQueue {
  import opened Wrappers
  import opened JsString

  datatype Item = Item(stream: Str, refKey: Str, hash: Str, metadata: Str)

  datatype Stamp = Stamp(timestampId: int, txHash: Str, at: int)

  /** A queue row; `anchored` holds timestampId, txHash and anchoredAt, which are written together. */
  datatype Row = Row(id: nat, item: Item, createdAt: int, anchored: Option<Stamp>)

  /** A recorded Merkle root. */
  datatype Anchor = Anchor(tree: Str, root: Str, metadata: Str, submitTime: int)

  /** The table in id order, and the next id. */
  datatype Queue = Queue(rows: seq<Row>, nextId: nat)

  predicate SameKey(a: Item, b: Item) {
    a.stream == b.stream && a.hash == b.hash
  }

  predicate Present(rows: seq<Row>, item: Item) {
    exists i :: 0 <= i < |rows| && SameKey(rows[i].item, item)
  }

  // ----- the statements ------------------------------------------------------

  /** One row of a createMany that skips duplicates. */
  function Insert(q: Queue, item: Item, now: int): Queue {
    if Present(q.rows, item) then q else Queue(q.rows + [Row(q.nextId, item, now, None)], q.nextId + 1)
  }

  function InsertAll(q: Queue, items: seq<Item>, now: int): Queue {
    if items == [] then q else Insert(InsertAll(q, items[..|items| - 1], now), items[|items| - 1], now)
  }

  predicate IsPending(r: Row) {
    r.anchored.None?
  }

  /** What nextPending returns: the unanchored row with the least id. */
  predicate IsNext(rows: seq<Row>, r: Row) {
    r in rows && IsPending(r) && forall s :: s in rows && IsPending(s) ==> r.id <= s.id
  }

  function Marked(rows: seq<Row>, id: nat, stamp: Stamp): seq<Row> {
    seq(|rows|, i requires 0 <= i < |rows| => if rows[i].id == id then rows[i].(anchored := Some(stamp)) else rows[i])
  }

  const REANCHOR: Str := Ascii("reanchor")

  /** The streams whose anchored rows are recorded again. */
  predicate IsReanchored(stream: Str) {
    stream == Ascii("pair-leaf") || stream == Ascii("token-leaf") || stream == Ascii("fulfilment")
  }

  function FromRow(item: Item): Item {
    Item(REANCHOR, item.refKey, item.hash, ReanchorMeta(item.metadata))
  }

  function FromRoot(a: Anchor): Item {
    Item(REANCHOR, Ascii("root:") + a.tree, a.root, ReanchorMeta(a.metadata))
  }

  /** The anchored rows to record again, in table order. */
  function RowSeeds(rows: seq<Row>): seq<Item> {
    if rows == [] then []
    else
      var r := rows[|rows| - 1];
      RowSeeds(rows[..|rows| - 1]) + if r.anchored.Some? && IsReanchored(r.item.stream) then [FromRow(r.item)] else []
  }

  function RootSeeds(roots: seq<Anchor>): seq<Item> {
    seq(|roots|, i requires 0 <= i < |roots| => FromRoot(roots[i]))
  }

  predicate SameRoot(a: Anchor, b: Anchor) {
    a.tree == b.tree && a.root == b.root
  }

  ghost predicate IsFirst(anchors: seq<Anchor>, r: Anchor) {
    r in anchors && forall a :: a in anchors && SameRoot(a, r) ==> r.submitTime <= a.submitTime
  }

  ghost predicate IsSighted(roots: seq<Anchor>, a: Anchor) {
    exists i :: 0 <= i < |roots| && SameRoot(roots[i], a)
  }

  /** One record per (tree, root), the earliest of each, by time: what the query for roots may return. */
  ghost predicate FirstSightings(anchors: seq<Anchor>, roots: seq<Anchor>) {
    && (forall i :: 0 <= i < |roots| ==> IsFirst(anchors, roots[i]))
    && (forall a :: a in anchors ==> IsSighted(roots, a))
    && (forall i, j :: 0 <= i < j < |roots| ==>
      !SameRoot(roots[i], roots[j]) && roots[i].submitTime <= roots[j].submitTime)
  }

  function Seeds(q: Queue, roots: seq<Anchor>): seq<Item> {
    RowSeeds(q.rows) + RootSeeds(roots)
  }

  // ----- the re-anchor tag ---------------------------------------------------

  const TAG: Str := Ascii("reanchor=1")

  const META_LIMIT := 256

  predicate OccursAt(m: Str, tag: Str, i: nat) {
    i + |tag| <= |m| && forall k :: 0 <= k < |tag| ==> m[i + k] == tag[k]
  }

  predicate Includes(m: Str, tag: Str) {
    exists i: nat :: i <= |m| && OccursAt(m, tag, i)
  }

  function Slice(m: Str, n: nat): Str {
    if |m| <= n then m else m[..n]
  }

  function Tagged(m: Str): Str {
    if Includes(m, TAG) then m else m + Ascii(";") + TAG
  }

  function ReanchorMeta(m: Str): (r: Str)
    ensures |r| <= META_LIMIT
  {
    Slice(Tagged(m), META_LIMIT)
  }

  /** Tagging twice is tagging once, also when the tag was cut off. */
  lemma ReanchorMetaIdempotent(m: Str)
    ensures ReanchorMeta(ReanchorMeta(m)) == ReanchorMeta(m)
  {
    var tagged := Tagged(m);
    if |tagged| <= META_LIMIT {
      TaggedIncludes(m);
    }
  }

  lemma TaggedIncludes(m: Str)
    ensures Includes(Tagged(m), TAG)
  {
    if !Includes(m, TAG) { assert OccursAt(Tagged(m), TAG, |m| + 1); }
  }

  /** The marker stands within the first 256 characters. */
  ghost predicate TaggedInTime(m: Str) {
    exists i: nat :: i + |TAG| <= META_LIMIT && OccursAt(m, TAG, i)
  }

  /** The marker is there afterwards exactly when an untagged descriptor leaves eleven characters for it, or a
      tagged one carries it within the limit. */
  lemma MarkerSurvivesIff(m: Str)
    ensures Includes(ReanchorMeta(m), TAG) <==> (!Includes(m, TAG) && |m| + 1 + |TAG| <= META_LIMIT) || TaggedInTime(m)
  {
    if Includes(m, TAG) {
      TagKeptIff(m);
    } else {
      TaggedIncludes(m);
      forall i: nat ensures !OccursAt(m, TAG, i) {
        assert OccursAt(m, TAG, i) ==> i <= |m|;
      }
      if |Tagged(m)| > META_LIMIT {
        forall i: nat | i <= META_LIMIT ensures !OccursAt(ReanchorMeta(m), TAG, i) {
          CutTag(m, i);
        }
      }
    }
  }

  lemma TagKeptIff(m: Str)
    requires Includes(m, TAG)
    ensures Includes(ReanchorMeta(m), TAG) <==> TaggedInTime(m)
  {
    var r := ReanchorMeta(m);
    forall i: nat ensures OccursAt(r, TAG, i) <==> i + |TAG| <= META_LIMIT && OccursAt(m, TAG, i) {
      if OccursAt(r, TAG, i) {
        forall k | 0 <= k < |TAG| ensures m[i + k] == TAG[k] { assert r[i + k] == TAG[k]; }
      }
    }
  }

  /** A cut-off tag does not occur anywhere: it would have to reach across the semicolon. */
  lemma CutTag(m: Str, i: nat)
    requires !Includes(m, TAG) && |m| + 1 + |TAG| > META_LIMIT
    ensures !OccursAt(ReanchorMeta(m), TAG, i)
  {
    var r := ReanchorMeta(m);
    if i + |TAG| <= |r| && i + |TAG| <= |m| {
      assert !OccursAt(m, TAG, i);
      var k: nat :| k < |TAG| && m[i + k] != TAG[k];
      assert r[i + k] != TAG[k];
    } else if i + |TAG| <= |r| {
      var k := |m| - i;
      assert r[i + k] == Ascii(";")[0] && TAG[k] != Ascii(";")[0];
    }
  }

  // ----- the table -----------------------------------------------------------

  function CountPending(rows: seq<Row>): (n: nat)
    ensures n <= |rows|
  {
    if rows == [] then 0 else CountPending(rows[..|rows| - 1]) + if IsPending(rows[|rows| - 1]) then 1 else 0
  }

  class QueueTable {
    var rows: seq<Row>
    var nextId: nat

    ghost function Contents(): Queue
      reads this
    {
      Queue(rows, nextId)
    }

    constructor ()
      ensures Contents() == Queue([], 1)
    {
      rows, nextId := [], 1;
    }

    /** Adds what is not there yet and says how many rows that was. */
    method Enqueue(items: seq<Item>, now: int) returns (count: nat)
      modifies this
      ensures Contents() == InsertAll(old(Contents()), items, now)
      ensures |rows| == |old(rows)| + count
    {
      count := 0;
      for i := 0 to |items|
        invariant Contents() == InsertAll(old(Contents()), items[..i], now)
        invariant |rows| == |old(rows)| + count
      {
        assert items[..i + 1][..i] == items[..i];
        if !Present(rows, items[i]) {
          rows, nextId := rows + [Row(nextId, items[i], now, None)], nextId + 1;
          count := count + 1;
        }
      }
      assert items[..|items|] == items;
    }

    method NextPending() returns (r: Option<Row>)
      ensures r.Some? ==> IsNext(rows, r.value)
      ensures r.None? ==> forall s :: s in rows ==> !IsPending(s)
    {
      r := None;
      for i := 0 to |rows|
        invariant r.Some? ==> IsNext(rows[..i], r.value)
        invariant r.None? ==> forall s :: s in rows[..i] ==> !IsPending(s)
      {
        assert rows[..i + 1] == rows[..i] + [rows[i]];
        if IsPending(rows[i]) && (r.None? || rows[i].id < r.value.id) {
          r := Some(rows[i]);
        }
      }
      assert rows[..|rows|] == rows;
    }

    method MarkAnchored(id: nat, stamp: Stamp)
      modifies this
      ensures Contents() == Queue(Marked(old(rows), id, stamp), old(nextId))
    {
      for i := 0 to |rows|
        invariant |rows| == |old(rows)| && nextId == old(nextId)
        invariant forall j :: 0 <= j < i ==> rows[j] == Marked(old(rows), id, stamp)[j]
        invariant forall j :: i <= j < |rows| ==> rows[j] == old(rows)[j]
      {
        if rows[i].id == id {
          rows := rows[i := rows[i].(anchored := Some(stamp))];
        }
      }
    }

    method QueueStats() returns (pending: nat, anchored: nat)
      ensures pending == CountPending(rows) && pending + anchored == |rows|
    {
      pending, anchored := 0, 0;
      for i := 0 to |rows|
        invariant pending == CountPending(rows[..i]) && pending + anchored == i
      {
        assert rows[..i + 1][..i] == rows[..i];
        if IsPending(rows[i]) {
          pending := pending + 1;
        } else {
          anchored := anchored + 1;
        }
      }
      assert rows[..|rows|] == rows;
    }

    /** `roots` is the answer of the query for recorded roots. */
    method SeedReanchorBacklog(roots: seq<Anchor>, now: int) returns (count: nat)
      modifies this
      ensures Contents() == InsertAll(old(Contents()), Seeds(old(Contents()), roots), now)
      ensures |rows| == |old(rows)| + count
    {
      var leaves := CollectRows(rows);
      var recorded := CollectRoots(roots);
      count := Enqueue(leaves + recorded, now);
    }
  }

  method CollectRows(rows: seq<Row>) returns (items: seq<Item>)
    ensures items == RowSeeds(rows)
  {
    items := [];
    for i := 0 to |rows|
      invariant items == RowSeeds(rows[..i])
    {
      assert rows[..i + 1][..i] == rows[..i];
      if rows[i].anchored.Some? && IsReanchored(rows[i].item.stream) {
        items := items + [FromRow(rows[i].item)];
      }
    }
    assert rows[..|rows|] == rows;
  }

  method CollectRoots(roots: seq<Anchor>) returns (items: seq<Item>)
    ensures items == RootSeeds(roots)
  {
    items := [];
    for i := 0 to |roots|
      invariant items == RootSeeds(roots)[..i]
    {
      items := items + [FromRoot(roots[i])];
    }
  }
}
