/** Whole runs of the anchor queue of lib/beaconQueue.ts. */
module BeaconRuns {
  // Uniqueness, order, conservation and re-anchoring.

  import opened Wrappers
  import opened JsString
  import opened BeaconQueue

  // ----- what enqueueing does ------------------------------------------------

  /** Rows are unique on (stream, hash) and stand in id order below the next id. */
  ghost predicate Keyed(q: Queue) {
    && (forall i, j :: 0 <= i < j < |q.rows| ==>
      q.rows[i].id < q.rows[j].id && !SameKey(q.rows[i].item, q.rows[j].item))
    && (forall i :: 0 <= i < |q.rows| ==> q.rows[i].id < q.nextId)
  }

  lemma {:induction false} InsertAllKeyed(q: Queue, items: seq<Item>, now: int)
    requires Keyed(q)
    ensures Keyed(InsertAll(q, items, now))
  {
    if items != [] { InsertAllKeyed(q, items[..|items| - 1], now); }
  }

  /** Nothing already queued changes, and what is added is pending, is one of the items and was not there. */
  lemma {:induction false} InsertAllAdds(q: Queue, items: seq<Item>, now: int)
    ensures q.rows <= InsertAll(q, items, now).rows
    ensures forall i :: |q.rows| <= i < |InsertAll(q, items, now).rows| ==>
      var r := InsertAll(q, items, now).rows[i]; IsPending(r) && r.item in items && !Present(q.rows, r.item)
  {
    if items != [] {
      var front := items[..|items| - 1];
      InsertAllAdds(q, front, now);
      assert items == front + [items[|items| - 1]];
      PrefixPresent(q.rows, InsertAll(q, front, now).rows, items[|items| - 1]);
    }
  }

  lemma PrefixPresent(a: seq<Row>, b: seq<Row>, item: Item)
    requires a <= b
    ensures Present(a, item) ==> Present(b, item)
  {
    if Present(a, item) {
      var i :| 0 <= i < |a| && SameKey(a[i].item, item);
      assert SameKey(b[i].item, item);
    }
  }

  lemma {:induction false} InsertAllPresent(q: Queue, items: seq<Item>, now: int, k: nat)
    requires k < |items|
    ensures Present(InsertAll(q, items, now).rows, items[k])
  {
    var front := InsertAll(q, items[..|items| - 1], now);
    if k < |items| - 1 {
      InsertAllPresent(q, items[..|items| - 1], now, k);
      PrefixPresent(front.rows, BeaconQueue.Insert(front, items[|items| - 1], now).rows, items[k]);
    } else if !Present(front.rows, items[k]) {
      var r := Row(front.nextId, items[k], now, None);
      assert (front.rows + [r])[|front.rows|] == r;
    }
  }

  /** Queueing what is already there changes nothing. */
  lemma {:induction false} InsertAllAgain(q: Queue, items: seq<Item>, now: int)
    requires forall k :: 0 <= k < |items| ==> Present(q.rows, items[k])
    ensures InsertAll(q, items, now) == q
  {
    if items != [] { InsertAllAgain(q, items[..|items| - 1], now); }
  }

  /** Enqueueing is idempotent. */
  lemma EnqueueTwice(q: Queue, items: seq<Item>, now: int, later: int)
    ensures InsertAll(InsertAll(q, items, now), items, later) == InsertAll(q, items, now)
  {
    forall k | 0 <= k < |items| ensures Present(InsertAll(q, items, now).rows, items[k]) {
      InsertAllPresent(q, items, now, k);
    }
    InsertAllAgain(InsertAll(q, items, now), items, later);
  }

  // ----- the drip, over every run --------------------------------------------

  /** The drip's two statements are separate: enqueues fall between them, and a restart loses the pick. */
  datatype Event =
    | Enqueue(items: seq<Item>, now: int)
    | Seed(roots: seq<Anchor>, now: int)
    | Pick
    | Mark(stamp: Stamp)
    | Restart

  datatype State = State(queue: Queue, picked: Option<nat>, history: seq<nat>)

  function FirstPending(rows: seq<Row>): Option<Row> {
    if rows == [] then None
    else if IsPending(rows[0]) then Some(rows[0])
    else FirstPending(rows[1..])
  }

  function Apply(s: State, e: Event): State {
    match e
    case Enqueue(items, now) => s.(queue := InsertAll(s.queue, items, now))
    case Seed(roots, now) => s.(queue := InsertAll(s.queue, Seeds(s.queue, roots), now))
    case Pick => s.(picked := match FirstPending(s.queue.rows) case Some(r) => Some(r.id) case None => None)
    case Mark(stamp) =>
      (match s.picked
       case Some(id) => State(s.queue.(rows := Marked(s.queue.rows, id, stamp)), None, s.history + [id])
       case None => s)
    case Restart => s.(picked := None)
  }

  const EMPTY := State(Queue([], 1), None, [])

  function Run(events: seq<Event>): State {
    if events == [] then EMPTY else Apply(Run(events[..|events| - 1]), events[|events| - 1])
  }

  /** In id order the first unanchored row is the one nextPending returns. */
  lemma {:induction false} FirstPendingIsNext(q: Queue, n: nat)
    requires Keyed(q) && n <= |q.rows| && forall i :: 0 <= i < n ==> !IsPending(q.rows[i])
    ensures match FirstPending(q.rows[n..])
      case Some(r) => IsNext(q.rows, r)
      case None => forall r :: r in q.rows ==> !IsPending(r)
    decreases |q.rows| - n
  {
    if n < |q.rows| && !IsPending(q.rows[n]) {
      FirstPendingIsNext(q, n + 1);
      assert q.rows[n..][1..] == q.rows[n + 1..];
    }
  }

  /** The anchored rows come first, in the order in which they were anchored; the picked row comes next. */
  ghost predicate InOrder(s: State) {
    && Keyed(s.queue) && |s.history| <= |s.queue.rows|
    && (forall i :: 0 <= i < |s.history| ==> s.queue.rows[i].id == s.history[i] && !IsPending(s.queue.rows[i]))
    && (forall i :: |s.history| <= i < |s.queue.rows| ==> IsPending(s.queue.rows[i]))
    && (s.picked.Some? ==> |s.history| < |s.queue.rows| && s.picked.value == s.queue.rows[|s.history|].id)
  }

  lemma EnqueueInOrder(s: State, items: seq<Item>, now: int)
    requires InOrder(s)
    ensures InOrder(s.(queue := InsertAll(s.queue, items, now)))
  {
    InsertAllKeyed(s.queue, items, now);
    InsertAllAdds(s.queue, items, now);
  }

  lemma {:induction false} FirstPendingAt(rows: seq<Row>, n: nat)
    requires n <= |rows|
    requires (forall i :: 0 <= i < n ==> !IsPending(rows[i])) && (n < |rows| ==> IsPending(rows[n]))
    ensures FirstPending(rows) == if n < |rows| then Some(rows[n]) else None
  {
    if n > 0 { FirstPendingAt(rows[1..], n - 1); }
  }

  lemma MarkInOrder(s: State, stamp: Stamp)
    requires InOrder(s) && s.picked.Some?
    ensures InOrder(Apply(s, Mark(stamp)))
  {
    var n, t := |s.history|, Apply(s, Mark(stamp));
    assert forall i :: 0 <= i < |s.queue.rows| && i != n ==> t.queue.rows[i] == s.queue.rows[i];
    assert t.queue.rows[n] == s.queue.rows[n].(anchored := Some(stamp));
  }

  lemma StepInOrder(s: State, e: Event)
    requires InOrder(s)
    ensures InOrder(Apply(s, e))
  {
    match e
    case Enqueue(items, now) => EnqueueInOrder(s, items, now);
    case Seed(roots, now) => EnqueueInOrder(s, Seeds(s.queue, roots), now);
    case Pick => FirstPendingAt(s.queue.rows, |s.history|);
    case Mark(stamp) => if s.picked.Some? { MarkInOrder(s, stamp); }
    case Restart =>
  }

  lemma {:induction false} RunInOrder(events: seq<Event>)
    ensures InOrder(Run(events))
  {
    if events != [] {
      RunInOrder(events[..|events| - 1]);
      StepInOrder(Run(events[..|events| - 1]), events[|events| - 1]);
    }
  }

  lemma {:induction false} CountSplit(rows: seq<Row>, n: nat)
    requires n <= |rows|
    requires (forall i :: 0 <= i < n ==> !IsPending(rows[i])) && (forall i :: n <= i < |rows| ==> IsPending(rows[i]))
    ensures CountPending(rows) == |rows| - n
  {
    if rows != [] { CountSplit(rows[..|rows| - 1], if n == |rows| then n - 1 else n); }
  }

  /** Over every run the drip anchors rows in strictly ascending id order, so each row once; the history is
      exactly the anchored rows, and pending and anchored rows together are all the rows. */
  lemma AnchoredOnceInOrder(events: seq<Event>)
    ensures var s := Run(events);
      && (forall i, j :: 0 <= i < j < |s.history| ==> s.history[i] < s.history[j])
      && (forall r :: r in s.queue.rows ==> (r.id in s.history <==> r.anchored.Some?))
      && CountPending(s.queue.rows) + |s.history| == |s.queue.rows|
  {
    RunInOrder(events);
    var s := Run(events);
    CountSplit(s.queue.rows, |s.history|);
    HistoryAscends(s);
    forall r | r in s.queue.rows ensures r.id in s.history <==> r.anchored.Some? {
      var k :| 0 <= k < |s.queue.rows| && s.queue.rows[k] == r;
      HistoryHas(s, k);
    }
  }

  lemma HistoryAscends(s: State)
    requires InOrder(s)
    ensures forall i, j :: 0 <= i < j < |s.history| ==> s.history[i] < s.history[j]
  {
    forall i, j | 0 <= i < j < |s.history| ensures s.history[i] < s.history[j] {
      assert s.queue.rows[i].id < s.queue.rows[j].id;
    }
  }

  lemma HistoryHas(s: State, k: nat)
    requires InOrder(s) && k < |s.queue.rows|
    ensures s.queue.rows[k].id in s.history <==> s.queue.rows[k].anchored.Some?
  {
    if k < |s.history| {
      assert s.history[k] == s.queue.rows[k].id;
    } else {
      forall i | 0 <= i < |s.history| ensures s.history[i] != s.queue.rows[k].id {
        assert s.queue.rows[i].id < s.queue.rows[k].id;
      }
    }
  }

  function Drain(s: State, stamps: seq<Stamp>): State
    decreases |stamps|
  {
    if stamps == [] then s else Drain(Apply(Apply(s, Pick), Mark(stamps[0])), stamps[1..])
  }

  /** The rows with the next ones anchored by the given stamps. */
  function Stamped(rows: seq<Row>, n: nat, stamps: seq<Stamp>): seq<Row> {
    seq(|rows|, i requires 0 <= i < |rows| =>
      if n <= i < n + |stamps| then rows[i].(anchored := Some(stamps[i - n])) else rows[i])
  }

  lemma DrainOne(s: State, stamp: Stamp)
    requires InOrder(s) && |s.history| < |s.queue.rows|
    ensures var t := Apply(Apply(s, Pick), Mark(stamp));
      InOrder(t) && |t.history| == |s.history| + 1 && t.queue.rows == Stamped(s.queue.rows, |s.history|, [stamp])
  {
    StepInOrder(s, Pick);
    FirstPendingAt(s.queue.rows, |s.history|);
    StepInOrder(Apply(s, Pick), Mark(stamp));
    var t := Apply(Apply(s, Pick), Mark(stamp));
    assert forall i :: 0 <= i < |s.queue.rows| && i != |s.history| ==> t.queue.rows[i] == s.queue.rows[i];
  }

  /** Draining stamps the oldest pending rows one after the other and touches nothing else. */
  lemma {:induction false} DrainStampsOldest(s: State, stamps: seq<Stamp>)
    requires InOrder(s) && |s.history| + |stamps| <= |s.queue.rows|
    ensures InOrder(Drain(s, stamps)) && |Drain(s, stamps).history| == |s.history| + |stamps|
    ensures Drain(s, stamps).queue.rows == Stamped(s.queue.rows, |s.history|, stamps)
    decreases |stamps|
  {
    if stamps != [] {
      DrainOne(s, stamps[0]);
      var t := Apply(Apply(s, Pick), Mark(stamps[0]));
      DrainStampsOldest(t, stamps[1..]);
      assert Stamped(t.queue.rows, |t.history|, stamps[1..]) == Stamped(s.queue.rows, |s.history|, stamps);
    }
  }

  /** The drip never goes back on a row: an anchored row stays exactly as it is. */
  lemma AnchoredRowsStay(events: seq<Event>, e: Event, i: nat)
    requires i < |Run(events).queue.rows| && Run(events).queue.rows[i].anchored.Some?
    ensures i < |Run(events + [e]).queue.rows| && Run(events + [e]).queue.rows[i] == Run(events).queue.rows[i]
  {
    RunInOrder(events);
    var s := Run(events);
    assert (events + [e])[..|events|] == events;
    match e
    case Enqueue(items, now) => InsertAllAdds(s.queue, items, now);
    case Seed(roots, now) => InsertAllAdds(s.queue, Seeds(s.queue, roots), now);
    case Pick =>
    case Mark(stamp) =>
    case Restart =>
  }

  // ----- re-anchoring --------------------------------------------------------

  ghost predicate Reanchors(rows: seq<Row>, hash: Str) {
    exists i :: 0 <= i < |rows| && rows[i].item.stream == REANCHOR && rows[i].item.hash == hash
  }

  /** A hash that re-anchoring is for: an anchored leaf or fulfilment, or a recorded root. */
  ghost predicate IsSource(rows: seq<Row>, anchors: seq<Anchor>, hash: Str) {
    || (exists i ::
          0 <= i < |rows| && rows[i].anchored.Some? && IsReanchored(rows[i].item.stream) && rows[i].item.hash == hash)
    || (exists a :: a in anchors && a.root == hash)
  }

  lemma {:induction false} RowSeedsMembers(rows: seq<Row>, item: Item)
    ensures item in RowSeeds(rows) <==>
      exists i :: 0 <= i < |rows| && rows[i].anchored.Some? && IsReanchored(rows[i].item.stream) &&
        item == FromRow(rows[i].item)
  {
    if rows != [] {
      var front := rows[..|rows| - 1];
      RowSeedsMembers(front, item);
      if item in RowSeeds(front) {
        var i :| 0 <= i < |front| && front[i].anchored.Some? && IsReanchored(front[i].item.stream) &&
          item == FromRow(front[i].item);
        assert rows[i] == front[i];
      }
      forall i | 0 <= i < |rows| && rows[i].anchored.Some? && IsReanchored(rows[i].item.stream) &&
        item == FromRow(rows[i].item)
        ensures item in RowSeeds(rows)
      {
        if i < |rows| - 1 { assert front[i] == rows[i]; }
      }
    }
  }

  lemma RowSource(rows: seq<Row>, anchors: seq<Anchor>, item: Item)
    requires item in RowSeeds(rows)
    ensures item.stream == REANCHOR && IsSource(rows, anchors, item.hash)
  {
    RowSeedsMembers(rows, item);
  }

  lemma RootSeedAt(q: Queue, roots: seq<Anchor>, j: nat)
    requires j < |roots|
    ensures |RowSeeds(q.rows)| + j < |Seeds(q, roots)|
    ensures var seed := Seeds(q, roots)[|RowSeeds(q.rows)| + j]; seed.stream == REANCHOR && seed.hash == roots[j].root
  {
    var seeds, k := Seeds(q, roots), |RowSeeds(q.rows)| + j;
    assert seeds[k] == RootSeeds(roots)[j];
  }

  /** Every seed is a re-anchor row of a source. */
  lemma SeedIsSource(q: Queue, anchors: seq<Anchor>, roots: seq<Anchor>, k: nat)
    requires FirstSightings(anchors, roots) && k < |Seeds(q, roots)|
    ensures Seeds(q, roots)[k].stream == REANCHOR && IsSource(q.rows, anchors, Seeds(q, roots)[k].hash)
  {
    if k < |RowSeeds(q.rows)| {
      RowSource(q.rows, anchors, RowSeeds(q.rows)[k]);
    } else {
      RootSeedAt(q, roots, k - |RowSeeds(q.rows)|);
      assert IsFirst(anchors, roots[k - |RowSeeds(q.rows)|]);
    }
  }

  ghost predicate HasSeed(seeds: seq<Item>, hash: Str) {
    exists k :: 0 <= k < |seeds| && seeds[k].hash == hash
  }

  lemma AnchoredRowSeeded(q: Queue, roots: seq<Anchor>, i: nat)
    requires i < |q.rows| && q.rows[i].anchored.Some? && IsReanchored(q.rows[i].item.stream)
    ensures HasSeed(Seeds(q, roots), q.rows[i].item.hash)
  {
    var item := FromRow(q.rows[i].item);
    RowSeedsMembers(q.rows, item);
    var k :| 0 <= k < |RowSeeds(q.rows)| && RowSeeds(q.rows)[k] == item;
    assert Seeds(q, roots)[k].hash == q.rows[i].item.hash;
  }

  lemma RecordedRootSeeded(q: Queue, anchors: seq<Anchor>, roots: seq<Anchor>, a: Anchor)
    requires FirstSightings(anchors, roots) && a in anchors
    ensures HasSeed(Seeds(q, roots), a.root)
  {
    assert IsSighted(roots, a);
    var j :| 0 <= j < |roots| && SameRoot(roots[j], a);
    RootSeedAt(q, roots, j);
  }

  lemma SourceIsSeeded(q: Queue, anchors: seq<Anchor>, roots: seq<Anchor>, hash: Str)
    requires FirstSightings(anchors, roots) && IsSource(q.rows, anchors, hash)
    ensures HasSeed(Seeds(q, roots), hash)
  {
    if i :| (0 <= i < |q.rows| && q.rows[i].anchored.Some? && IsReanchored(q.rows[i].item.stream)
             && q.rows[i].item.hash == hash) {
      AnchoredRowSeeded(q, roots, i);
    } else {
      var a :| a in anchors && a.root == hash;
      RecordedRootSeeded(q, anchors, roots, a);
    }
  }

  /** After seeding, what is queued for re-anchoring is what was, every source, and nothing else. */
  lemma SeedCoversExactly(q: Queue, anchors: seq<Anchor>, roots: seq<Anchor>, now: int, hash: Str)
    requires FirstSightings(anchors, roots)
    ensures Reanchors(InsertAll(q, Seeds(q, roots), now).rows, hash) <==>
      Reanchors(q.rows, hash) || IsSource(q.rows, anchors, hash)
  {
    var seeds, after := Seeds(q, roots), InsertAll(q, Seeds(q, roots), now);
    InsertAllAdds(q, seeds, now);
    if i :| 0 <= i < |q.rows| && q.rows[i].item.stream == REANCHOR && q.rows[i].item.hash == hash {
      assert after.rows[i] == q.rows[i];
    }
    if IsSource(q.rows, anchors, hash) {
      SourceIsReanchored(q, anchors, roots, now, hash);
    }
    if i :| 0 <= i < |after.rows| && after.rows[i].item.stream == REANCHOR && after.rows[i].item.hash == hash {
      if i < |q.rows| {
        assert q.rows[i] == after.rows[i];
      } else {
        var k :| 0 <= k < |seeds| && seeds[k] == after.rows[i].item;
        SeedIsSource(q, anchors, roots, k);
      }
    }
  }

  lemma SourceIsReanchored(q: Queue, anchors: seq<Anchor>, roots: seq<Anchor>, now: int, hash: Str)
    requires FirstSightings(anchors, roots) && IsSource(q.rows, anchors, hash)
    ensures Reanchors(InsertAll(q, Seeds(q, roots), now).rows, hash)
  {
    var seeds := Seeds(q, roots);
    SourceIsSeeded(q, anchors, roots, hash);
    var k :| 0 <= k < |seeds| && seeds[k].hash == hash;
    SeedIsSource(q, anchors, roots, k);
    InsertAllPresent(q, seeds, now, k);
  }

  /** Only re-anchor rows have been drained, and only re-anchor rows are new. */
  ghost predicate OwnStreamOnly(a: seq<Row>, b: seq<Row>) {
    && |a| <= |b|
    && (forall i :: 0 <= i < |a| ==> b[i].item == a[i].item && (b[i] == a[i] || a[i].item.stream == REANCHOR))
    && (forall i :: |a| <= i < |b| ==> b[i].item.stream == REANCHOR)
  }

  /** Rows of its own stream never seed, anchored or not. */
  lemma {:induction false} OwnStreamNeverSeeds(a: seq<Row>, b: seq<Row>)
    requires OwnStreamOnly(a, b)
    ensures RowSeeds(b) == RowSeeds(a)
    decreases |b|
  {
    if |b| > |a| {
      OwnStreamNeverSeeds(a, b[..|b| - 1]);
      OwnRowNeverSeeds(b[|b| - 1]);
    } else if b != [] {
      OwnStreamNeverSeeds(a[..|a| - 1], b[..|b| - 1]);
      if b[|b| - 1] != a[|a| - 1] {
        OwnRowNeverSeeds(a[|a| - 1]);
        OwnRowNeverSeeds(b[|b| - 1]);
      }
    }
  }

  lemma OwnRowNeverSeeds(r: Row)
    requires r.item.stream == REANCHOR
    ensures !IsReanchored(r.item.stream)
  {
    StreamNames();
  }

  lemma StreamNames()
    ensures !IsReanchored(REANCHOR)
  {
    assert REANCHOR[0] == 'r' as CodeUnit && Ascii("pair-leaf")[0] == 'p' as CodeUnit;
    assert Ascii("token-leaf")[0] == 't' as CodeUnit && Ascii("fulfilment")[0] == 'f' as CodeUnit;
  }

  lemma SeededRows(q: Queue, anchors: seq<Anchor>, roots: seq<Anchor>, now: int)
    requires FirstSightings(anchors, roots)
    ensures OwnStreamOnly(q.rows, InsertAll(q, Seeds(q, roots), now).rows)
  {
    var seeds, after := Seeds(q, roots), InsertAll(q, Seeds(q, roots), now);
    InsertAllAdds(q, seeds, now);
    forall i | |q.rows| <= i < |after.rows| ensures after.rows[i].item.stream == REANCHOR {
      var k :| 0 <= k < |seeds| && seeds[k] == after.rows[i].item;
      SeedIsSource(q, anchors, roots, k);
    }
  }

  /** A seed of a later table with the same leaf rows is a source of the first. */
  lemma SourcesSame(q: Queue, q2: Queue, anchors: seq<Anchor>, roots: seq<Anchor>, k: nat)
    requires FirstSightings(anchors, roots) && RowSeeds(q.rows) == RowSeeds(q2.rows) && k < |Seeds(q2, roots)|
    ensures Seeds(q2, roots)[k].stream == REANCHOR && IsSource(q.rows, anchors, Seeds(q2, roots)[k].hash)
  {
    assert Seeds(q, roots) == Seeds(q2, roots);
    SeedIsSource(q, anchors, roots, k);
  }

  lemma StillReanchored(a: seq<Row>, b: seq<Row>, item: Item)
    requires OwnStreamOnly(a, b) && item.stream == REANCHOR && Reanchors(a, item.hash)
    ensures Present(b, item)
  {
    var i :| 0 <= i < |a| && a[i].item.stream == REANCHOR && a[i].item.hash == item.hash;
    assert SameKey(b[i].item, item);
  }

  /** Seeding again adds nothing, at once or after any number of seeded rows have been drained, whichever
      records of each root the query returns. */
  lemma SeedAgainAddsNothing(q: Queue, anchors: seq<Anchor>, roots: seq<Anchor>, now: int, q2: Queue,
                             roots2: seq<Anchor>, later: int)
    requires FirstSightings(anchors, roots) && FirstSightings(anchors, roots2)
    requires OwnStreamOnly(InsertAll(q, Seeds(q, roots), now).rows, q2.rows)
    ensures InsertAll(q2, Seeds(q2, roots2), later) == q2
  {
    var after := InsertAll(q, Seeds(q, roots), now);
    SeededRows(q, anchors, roots, now);
    OwnStreamNeverSeeds(q.rows, after.rows);
    OwnStreamNeverSeeds(after.rows, q2.rows);
    var seeds := Seeds(q2, roots2);
    forall k | 0 <= k < |seeds| ensures Present(q2.rows, seeds[k]) {
      SourcesSame(q, q2, anchors, roots2, k);
      SourceIsReanchored(q, anchors, roots, now, seeds[k].hash);
      StillReanchored(after.rows, q2.rows, seeds[k]);
    }
    InsertAllAgain(q2, seeds, later);
  }
}
