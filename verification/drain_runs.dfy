/** Building complete runs of the batch drain. */
module DrainRuns {
  // Which batches a query may return is open, so a claim that some run exists has to construct one: here are its parts.

  import opened Wrappers
  import opened JsString
  import opened Verdict
  import opened Tables
  import opened Passes
  import opened Drain

  // ----- sets as sequences ---------------------------------------------------

  ghost function ListAll(ids: set<Id>): seq<Id> {
    if ids == {} then []
    else
      var id :| id in ids;
      ListAll(ids - {id}) + [id]
  }

  lemma {:induction false} ListAllLists(ids: set<Id>)
    ensures Members(ListAll(ids)) == ids && Distinct(ListAll(ids)) && Lists(ListAll(ids), ids)
  {
    if ids != {} {
      var all := ListAll(ids);
      var id := all[|all| - 1];
      assert all == ListAll(ids - {id}) + [id] && id in ids;
      ListAllLists(ids - {id});
      MembersConcat(ListAll(ids - {id}), [id]);
      assert Members([id]) == {id};
      DistinctJoin(ListAll(ids - {id}), [id]);
    }
    forall id ensures id in ListAll(ids) <==> id in ids {
      assert id in ListAll(ids) <==> id in Members(ListAll(ids));
    }
  }

  lemma SubsetSize(a: set<Id>, b: set<Id>)
    requires a <= b
    ensures |a| <= |b| && |b - a| == |b| - |a|
  {
    assert b == a + (b - a);
  }

  /** A set between two others, of any size between theirs. */
  lemma {:induction false} SetBetween(lo: set<Id>, hi: set<Id>, n: nat) returns (mid: set<Id>)
    requires lo <= hi && |lo| <= n <= |hi|
    ensures lo <= mid <= hi && |mid| == n
    decreases n - |lo|
  {
    mid := lo;
    if |lo| < n {
      assert lo != hi;
      var id :| id in hi && id !in lo;
      assert |lo + {id}| == |lo| + 1;
      mid := SetBetween(lo + {id}, hi, n);
    }
  }

  // ----- fetches -------------------------------------------------------------

  /** So many selected rows as fill a batch, in some order. */
  lemma FullFetch(chosen: set<Id>, selected: set<Id>, batch: nat)
    requires chosen <= selected && |chosen| == batch
    ensures IsFetch(ListAll(chosen), selected, batch) && Members(ListAll(chosen)) == chosen
  {
    ListAllLists(chosen);
    DistinctSize(ListAll(chosen));
    SubsetSize(chosen, selected);
  }

  lemma OneFetch(t: Tables, select: Selection, process: Process, batch: nat, ids: seq<Id>)
    requires ids != [] && IsFetch(ids, select(t), batch)
    ensures Fetched(t, select, process, batch, [ids]) && Flatten([ids]) == ids
  {
    FlattenSnoc([], ids);
    assert [] + [ids] == [ids];
    assert [ids][..0] == [] && Before(t, process, [ids], 0) == t;
    assert FetchedAt(t, select, process, batch, [ids], 0);
  }

  lemma {:induction false} FlattenConcat(a: seq<seq<Id>>, b: seq<seq<Id>>)
    ensures Flatten(a + b) == Flatten(a) + Flatten(b)
  {
    if b == [] {
      assert a + b == a;
    } else {
      FlattenConcat(a, b[..|b| - 1]);
      assert (a + b)[..|a + b| - 1] == a + b[..|b| - 1];
    }
  }

  lemma {:induction false} InFlatten(batches: seq<seq<Id>>, i: nat, k: Id)
    requires i < |batches| && k in batches[i]
    ensures k in Flatten(batches)
  {
    if i < |batches| - 1 { InFlatten(batches[..|batches| - 1], i, k); }
  }

  /** A complete run after some batches completes them. */
  lemma JoinRuns(t: Tables, select: Selection, process: Process, batch: nat, a: seq<seq<Id>>, b: seq<seq<Id>>)
    requires Fetched(t, select, process, batch, a)
    requires Drained(ProcessAll(t, process, Flatten(a)), select, process, batch, b)
    ensures Drained(t, select, process, batch, a + b) && Flatten(a + b) == Flatten(a) + Flatten(b)
  {
    var u, all := ProcessAll(t, process, Flatten(a)), a + b;
    FlattenConcat(a, b);
    ProcessAllConcat(t, process, Flatten(a), Flatten(b));
    forall i | 0 <= i < |all| ensures FetchedAt(t, select, process, batch, all, i) {
      if i < |a| {
        assert all[..i] == a[..i];
        assert FetchedAt(t, select, process, batch, a, i);
      } else {
        assert all[..i] == a + b[..i - |a|];
        FlattenConcat(a, b[..i - |a|]);
        ProcessAllConcat(t, process, Flatten(a), Flatten(b[..i - |a|]));
        assert FetchedAt(u, select, process, batch, b, i - |a|);
      }
    }
  }

  /** Whatever the batch size, a pass that stamps its rows can be completed. */
  lemma Completed(t: Tables, select: Selection, process: Process, pending: Selection, fit: Tables -> bool, batch: nat)
    returns (batches: seq<seq<Id>>)
    requires Stamps(select, process, pending, fit) && fit(t) && batch > 0
    ensures Drained(t, select, process, batch, batches)
    decreases pending(t)
  {
    batches := [];
    if select(t) != {} {
      var size := if |select(t)| <= batch then |select(t)| else batch;
      assert |select(t)| > 0;
      var chosen := SetBetween({}, select(t), size);
      var ids := ListAll(chosen);
      ListAllLists(chosen);
      DistinctSize(ids);
      StampedBatch(t, select, process, pending, fit, ids);
      assert ids[0] in Members(ids);
      OneFetch(t, select, process, batch, ids);
      var rest := Completed(ProcessAll(t, process, ids), select, process, pending, fit, batch);
      JoinRuns(t, select, process, batch, [ids], rest);
      batches := [ids] + rest;
    }
  }
}
