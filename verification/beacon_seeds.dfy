/** What the re-anchor backlog of lib/beaconQueue.ts consists of, row by row. */
module BeaconSeeds {
  import opened Wrappers
  import opened JsString
  import opened BeaconQueue
  import opened BeaconRuns

  ghost predicate MarkedAt(m: Str, i: nat) {
    i + 10 <= |m| && m[i..i + 10] == Ascii("reanchor=1")
  }

  /** Somewhere in the descriptor stands the marker. */
  ghost predicate Marked(m: Str) {
    exists i: nat :: MarkedAt(m, i)
  }

  lemma MarkedIs(m: Str)
    ensures Includes(m, TAG) <==> Marked(m)
  {
    if Includes(m, TAG) {
      var i: nat :| i <= |m| && OccursAt(m, TAG, i);
      assert MarkedAt(m, i);
    }
    if Marked(m) {
      var i: nat :| MarkedAt(m, i);
      forall k | 0 <= k < |TAG| ensures m[i + k] == TAG[k] { assert m[i + k] == m[i..i + 10][k]; }
      assert OccursAt(m, TAG, i);
    }
  }

  function First256(m: Str): Str {
    if |m| > 256 then m[..256] else m
  }

  /** A descriptor for the record: the one there was, marked at its end unless it is marked, cut after 256
      characters. */
  ghost predicate IsDescriptor(r: Str, m: Str) {
    r == if Marked(m) then First256(m) else First256(m + Ascii(";reanchor=1"))
  }

  lemma DescriptorIs(m: Str)
    ensures IsDescriptor(ReanchorMeta(m), m)
  {
    MarkedIs(m);
    assert m + Ascii(";") + TAG == m + Ascii(";reanchor=1") by { MarkerText(); }
  }

  lemma MarkerText()
    ensures Ascii(";") + TAG == Ascii(";reanchor=1")
  {
  }

  /** An anchored leaf or fulfilment recorded again under its own key and hash. */
  ghost predicate RecordsRow(x: Item, r: Row) {
    && r.anchored.Some?
    && (r.item.stream == Ascii("pair-leaf") || r.item.stream == Ascii("token-leaf") ||
        r.item.stream == Ascii("fulfilment"))
    && x.stream == Ascii("reanchor") && x.refKey == r.item.refKey && x.hash == r.item.hash
    && IsDescriptor(x.metadata, r.item.metadata)
  }

  /** A tree's root recorded again with what its earliest record says of it. */
  ghost predicate RecordsRoot(x: Item, anchors: seq<Anchor>, a: Anchor) {
    && a in anchors
    && (forall b :: b in anchors && b.tree == a.tree && b.root == a.root ==> a.submitTime <= b.submitTime)
    && x.stream == Ascii("reanchor") && x.refKey == Ascii("root:") + a.tree && x.hash == a.root
    && IsDescriptor(x.metadata, a.metadata)
  }

  ghost predicate RecordsAgain(x: Item, rows: seq<Row>, anchors: seq<Anchor>) {
    (exists r :: r in rows && RecordsRow(x, r)) || (exists a :: RecordsRoot(x, anchors, a))
  }

  lemma SeedRecords(q: Queue, anchors: seq<Anchor>, roots: seq<Anchor>, x: Item)
    requires FirstSightings(anchors, roots) && x in Seeds(q, roots)
    ensures RecordsAgain(x, q.rows, anchors)
  {
    if x in RowSeeds(q.rows) {
      RowSeedsMembers(q.rows, x);
      var i :| 0 <= i < |q.rows| && q.rows[i].anchored.Some? && IsReanchored(q.rows[i].item.stream)
        && x == FromRow(q.rows[i].item);
      DescriptorIs(q.rows[i].item.metadata);
      assert RecordsRow(x, q.rows[i]);
    } else {
      var j :| 0 <= j < |roots| && RootSeeds(roots)[j] == x;
      assert IsFirst(anchors, roots[j]);
      DescriptorIs(roots[j].metadata);
      assert RecordsRoot(x, anchors, roots[j]);
    }
  }

  lemma {:induction false} AddedNow(q: Queue, items: seq<Item>, now: int, i: nat)
    requires |q.rows| <= i < |InsertAll(q, items, now).rows|
    ensures InsertAll(q, items, now).rows[i].createdAt == now
  {
    var front := InsertAll(q, items[..|items| - 1], now);
    InsertAllAdds(q, items[..|items| - 1], now);
    if i < |front.rows| { AddedNow(q, items[..|items| - 1], now, i); }
  }

  /** Seeding leaves every row as it is; each row it adds is pending, stamped with its clock, and records an anchored
      leaf, an anchored fulfilment or a root again. */
  lemma SeededRowsAre(q: Queue, anchors: seq<Anchor>, roots: seq<Anchor>, now: int, i: nat)
    requires FirstSightings(anchors, roots)
    ensures var after := InsertAll(q, Seeds(q, roots), now).rows;
      && |q.rows| <= |after|
      && (i < |q.rows| ==> after[i] == q.rows[i])
      && (|q.rows| <= i < |after| ==>
            after[i].anchored == None && after[i].createdAt == now && RecordsAgain(after[i].item, q.rows, anchors))
  {
    var after := InsertAll(q, Seeds(q, roots), now).rows;
    InsertAllAdds(q, Seeds(q, roots), now);
    if |q.rows| <= i < |after| {
      AddedNow(q, Seeds(q, roots), now, i);
      SeedRecords(q, anchors, roots, after[i].item);
    }
  }

  ghost predicate IsQueuedAgain(rows: seq<Row>, hash: Str) {
    exists i :: 0 <= i < |rows| && rows[i].item.stream == Ascii("reanchor") && rows[i].item.hash == hash
  }

  /** And nothing to be recorded again is left out. */
  lemma NothingLeftOut(q: Queue, anchors: seq<Anchor>, roots: seq<Anchor>, now: int, i: nat, a: Anchor)
    requires FirstSightings(anchors, roots)
    ensures var after := InsertAll(q, Seeds(q, roots), now).rows;
      && (a in anchors ==> IsQueuedAgain(after, a.root))
      && ((i < |q.rows| && q.rows[i].anchored.Some? &&
           (q.rows[i].item.stream == Ascii("pair-leaf") || q.rows[i].item.stream == Ascii("token-leaf") ||
            q.rows[i].item.stream == Ascii("fulfilment"))) ==> IsQueuedAgain(after, q.rows[i].item.hash))
  {
    if a in anchors {
      SeedCoversExactly(q, anchors, roots, now, a.root);
    }
    if i < |q.rows| && q.rows[i].anchored.Some? && IsReanchored(q.rows[i].item.stream) {
      SeedCoversExactly(q, anchors, roots, now, q.rows[i].item.hash);
    }
  }
}
