/** The batch drain of lib/pipeline.ts and the five passes that use it. */
module Drain {
  // Processing a row re-judges pairs, so rows enter and leave the selection while it is being drained. What
  // makes the drain end is that every processed row is stamped and stamps never go back. Where the selection
  // reads no status it loses exactly the processed row, and then the rows processed are the rows due; for the
  // passes whose selection reads statuses, `DrainLosses` says which due rows can be lost.

  import opened Wrappers
  import opened JsString
  import opened Verdict
  import opened Tables
  import opened Passes

  type Selection = Tables -> set<Id>

  type Process = (Tables, Id) -> Tables

  function ProcessAll(t: Tables, process: Process, ids: seq<Id>): Tables {
    if ids == [] then t else process(ProcessAll(t, process, ids[..|ids| - 1]), ids[|ids| - 1])
  }

  function Flatten(batches: seq<seq<Id>>): seq<Id> {
    if batches == [] then [] else Flatten(batches[..|batches| - 1]) + batches[|batches| - 1]
  }

  /** What a query for at most `batch` rows may return: rows of the selection, each once, as many as there are. */
  ghost predicate IsFetch(ids: seq<Id>, selected: set<Id>, batch: nat) {
    Distinct(ids) && Members(ids) <= selected && |ids| == if |selected| <= batch then |selected| else batch
  }

  /** The tables when batch i is fetched. */
  function Before(t0: Tables, process: Process, batches: seq<seq<Id>>, i: nat): Tables
    requires i <= |batches|
  {
    ProcessAll(t0, process, Flatten(batches[..i]))
  }

  /** Each batch was fetched from the tables its predecessors left, and was not empty. */
  ghost predicate Fetched(t0: Tables, select: Selection, process: Process, batch: nat, batches: seq<seq<Id>>) {
    forall i :: 0 <= i < |batches| ==> FetchedAt(t0, select, process, batch, batches, i)
  }

  ghost predicate FetchedAt(t0: Tables, select: Selection, process: Process, batch: nat, batches: seq<seq<Id>>, i: nat)
    requires i < |batches|
  {
    batches[i] != [] && IsFetch(batches[i], select(Before(t0, process, batches, i)), batch)
  }

  /** A complete run of the drain: the next query returns nothing. */
  ghost predicate Drained(t0: Tables, select: Selection, process: Process, batch: nat, batches: seq<seq<Id>>) {
    Fetched(t0, select, process, batch, batches) && select(ProcessAll(t0, process, Flatten(batches))) == {}
  }

  /** Processing takes exactly the processed row out of `pending`, which holds everything selected;
      `fit` is a property of the tables that processing keeps. */
  ghost predicate Stamps(select: Selection, process: Process, pending: Selection, fit: Tables -> bool) {
    && (forall t: Tables :: fit(t) ==> select(t) <= pending(t))
    && (forall t: Tables, id: Id :: fit(t) && id in pending(t) ==>
          fit(process(t, id)) && pending(process(t, id)) == pending(t) - {id})
  }

  /** Processing a selected row takes exactly it out of the selection. */
  ghost predicate Exact(select: Selection, process: Process, fit: Tables -> bool) {
    forall t: Tables, id: Id :: fit(t) && id in select(t) ==>
      fit(process(t, id)) && select(process(t, id)) == select(t) - {id}
  }

  // ----- sequences of rows ---------------------------------------------------

  lemma DistinctJoin(a: seq<Id>, b: seq<Id>)
    requires Distinct(a) && Distinct(b) && Members(a) !! Members(b)
    ensures Distinct(a + b)
  {
    forall i, j | 0 <= i < j < |a + b| ensures (a + b)[i] != (a + b)[j] {
      if i < |a| <= j {
        assert (a + b)[i] in Members(a) && b[j - |a|] in Members(b);
      }
    }
  }

  lemma MembersConcat(a: seq<Id>, b: seq<Id>)
    ensures Members(a + b) == Members(a) + Members(b)
  {
  }

  lemma FlattenSnoc(batches: seq<seq<Id>>, ids: seq<Id>)
    ensures Flatten(batches + [ids]) == Flatten(batches) + ids
  {
    assert (batches + [ids])[..|batches|] == batches;
  }

  lemma {:induction false} ProcessAllConcat(t: Tables, process: Process, a: seq<Id>, b: seq<Id>)
    ensures ProcessAll(t, process, a + b) == ProcessAll(ProcessAll(t, process, a), process, b)
  {
    if b == [] {
      assert a + b == a;
    } else {
      ProcessAllConcat(t, process, a, b[..|b| - 1]);
      assert (a + b)[..|a + b| - 1] == a + b[..|b| - 1];
    }
  }

  lemma FetchedSnoc(t0: Tables, select: Selection, process: Process, batch: nat, batches: seq<seq<Id>>, ids: seq<Id>)
    requires Fetched(t0, select, process, batch, batches)
    requires ids != [] && IsFetch(ids, select(ProcessAll(t0, process, Flatten(batches))), batch)
    ensures Fetched(t0, select, process, batch, batches + [ids])
  {
    var all := batches + [ids];
    forall i | 0 <= i < |all| ensures FetchedAt(t0, select, process, batch, all, i) {
      if i < |batches| {
        assert all[..i] == batches[..i];
        assert FetchedAt(t0, select, process, batch, batches, i);
      } else {
        assert all[..i] == batches;
      }
    }
  }

  // ----- the loop ------------------------------------------------------------

  /** At most `batch` rows of a selection, in any order. */
  method Take(ids: set<Id>, batch: nat) returns (taken: seq<Id>)
    ensures IsFetch(taken, ids, batch)
  {
    taken := [];
    var rest := ids;
    while |taken| < batch && rest != {}
      invariant rest <= ids && Distinct(taken) && |taken| + |rest| == |ids| && |taken| <= batch
      invariant forall id :: id in taken ==> id in ids && id !in rest
      decreases rest
    {
      var id :| id in rest;
      rest := rest - {id};
      taken := taken + [id];
    }
  }

  /** One batch: every row of it is processed, whether or not it is still selected by then. */
  method DrainBatch(t0: Tables, ids: seq<Id>, process: Process) returns (t: Tables)
    ensures t == ProcessAll(t0, process, ids)
  {
    t := t0;
    for i := 0 to |ids|
      invariant t == ProcessAll(t0, process, ids[..i])
    {
      assert ids[..i + 1][..i] == ids[..i];
      t := process(t, ids[i]);
    }
    assert ids[..|ids|] == ids;
  }

  lemma {:induction false} StampedBatch(t: Tables, select: Selection, process: Process, pending: Selection,
                                        fit: Tables -> bool, ids: seq<Id>)
    requires Stamps(select, process, pending, fit) && fit(t) && Distinct(ids) && Members(ids) <= pending(t)
    ensures var u := ProcessAll(t, process, ids); fit(u) && pending(u) == pending(t) - Members(ids)
  {
    if ids != [] {
      var front, last := ids[..|ids| - 1], ids[|ids| - 1];
      assert ids == front + [last] && last in Members(ids) && last !in front;
      MembersConcat(front, [last]);
      StampedBatch(t, select, process, pending, fit, front);
    }
  }

  /** Fetches and processes batches until a query returns nothing. It ends. The batches are a complete run, no row
      is processed twice and only rows pending at the start are; a row selected at the start was processed, or
      has dropped out of the selection without its stamp. */
  method DrainBatches(t0: Tables, select: Selection, process: Process, batch: nat, ghost pending: Selection,
                      ghost fit: Tables -> bool)
    returns (t: Tables, processed: seq<Id>, ghost batches: seq<seq<Id>>)
    requires batch > 0 && Stamps(select, process, pending, fit) && fit(t0)
    ensures Drained(t0, select, process, batch, batches)
    ensures processed == Flatten(batches) && t == ProcessAll(t0, process, processed) && fit(t)
    ensures Distinct(processed) && Members(processed) <= pending(t0) && pending(t) == pending(t0) - Members(processed)
    ensures forall id :: id in select(t0) ==> id in processed || (id in pending(t) && id !in select(t))
  {
    t, processed, batches := t0, [], [];
    while true
      invariant processed == Flatten(batches) && t == ProcessAll(t0, process, processed) && fit(t)
      invariant Fetched(t0, select, process, batch, batches)
      invariant Distinct(processed) && Members(processed) <= pending(t0) &&
        pending(t) == pending(t0) - Members(processed)
      decreases pending(t)
    {
      var ids := Take(select(t), batch);
      if |ids| == 0 {
        assert select(t) == {};
        break;
      }
      ghost var start := t;
      FetchedSnoc(t0, select, process, batch, batches, ids);
      FlattenSnoc(batches, ids);
      ProcessAllConcat(t0, process, processed, ids);
      StampedBatch(t, select, process, pending, fit, ids);
      MembersConcat(processed, ids);
      DistinctJoin(processed, ids);
      assert ids[0] in Members(ids) && ids[0] in pending(start);
      t := DrainBatch(t, ids, process);
      processed := processed + ids;
      batches := batches + [ids];
    }
  }

  // ----- complete runs -------------------------------------------------------

  lemma {:induction false} ExactBatch(t: Tables, select: Selection, process: Process, fit: Tables -> bool, ids: seq<Id>)
    requires Exact(select, process, fit) && fit(t) && Distinct(ids) && Members(ids) <= select(t)
    ensures var u := ProcessAll(t, process, ids); fit(u) && select(u) == select(t) - Members(ids)
  {
    if ids != [] {
      var front, last := ids[..|ids| - 1], ids[|ids| - 1];
      assert ids == front + [last] && last in Members(ids) && last !in front;
      MembersConcat(front, [last]);
      ExactBatch(t, select, process, fit, front);
    }
  }

  /** The selection has lost exactly these rows, each of which was in it. */
  ghost predicate Taken(t0: Tables, select: Selection, u: Tables, ids: seq<Id>) {
    select(u) == select(t0) - Members(ids) && Distinct(ids) && Members(ids) <= select(t0)
  }

  lemma TakenMore(t0: Tables, select: Selection, process: Process, fit: Tables -> bool, u: Tables, ids: seq<Id>,
                  more: seq<Id>)
    requires Exact(select, process, fit) && fit(u) && Taken(t0, select, u, ids) && Distinct(more) &&
      Members(more) <= select(u)
    ensures fit(ProcessAll(u, process, more)) && Taken(t0, select, ProcessAll(u, process, more), ids + more)
  {
    ExactBatch(u, select, process, fit, more);
    MembersConcat(ids, more);
    DistinctJoin(ids, more);
  }

  lemma BeforeNext(t0: Tables, process: Process, batches: seq<seq<Id>>, i: nat)
    requires i < |batches|
    ensures Flatten(batches[..i + 1]) == Flatten(batches[..i]) + batches[i]
    ensures Before(t0, process, batches, i + 1) == ProcessAll(Before(t0, process, batches, i), process, batches[i])
  {
    assert batches[..i + 1] == batches[..i] + [batches[i]];
    FlattenSnoc(batches[..i], batches[i]);
    ProcessAllConcat(t0, process, Flatten(batches[..i]), batches[i]);
  }

  lemma {:induction false} ExactPrefix(t0: Tables, select: Selection, process: Process, fit: Tables -> bool,
                                       batch: nat, batches: seq<seq<Id>>, i: nat)
    requires Exact(select, process, fit) && fit(t0) && Fetched(t0, select, process, batch, batches) && i <= |batches|
    ensures fit(Before(t0, process, batches, i)) &&
      Taken(t0, select, Before(t0, process, batches, i), Flatten(batches[..i]))
  {
    if i > 0 {
      ExactPrefix(t0, select, process, fit, batch, batches, i - 1);
      assert FetchedAt(t0, select, process, batch, batches, i - 1);
      BeforeNext(t0, process, batches, i - 1);
      TakenMore(t0, select, process, fit, Before(t0, process, batches, i - 1), Flatten(batches[..i - 1]),
        batches[i - 1]);
    }
  }

  /** Where processing takes exactly the processed row out of the selection, every complete run processes the
      rows that were due, each once. */
  lemma ExactDrain(t0: Tables, select: Selection, process: Process, fit: Tables -> bool, batch: nat,
                   batches: seq<seq<Id>>)
    requires Exact(select, process, fit) && fit(t0) && Drained(t0, select, process, batch, batches)
    ensures Members(Flatten(batches)) == select(t0) && Distinct(Flatten(batches))
  {
    ExactPrefix(t0, select, process, fit, batch, batches, |batches|);
    assert batches[..|batches|] == batches;
  }

  lemma {:induction false} StampedPrefix(t0: Tables, select: Selection, process: Process, pending: Selection,
                                         fit: Tables -> bool, batch: nat, batches: seq<seq<Id>>, i: nat)
    requires Stamps(select, process, pending, fit) && fit(t0) && Fetched(t0, select, process, batch, batches) &&
      i <= |batches|
    ensures fit(Before(t0, process, batches, i)) &&
      Taken(t0, pending, Before(t0, process, batches, i), Flatten(batches[..i]))
  {
    if i > 0 {
      var u, ids := Before(t0, process, batches, i - 1), Flatten(batches[..i - 1]);
      StampedPrefix(t0, select, process, pending, fit, batch, batches, i - 1);
      assert FetchedAt(t0, select, process, batch, batches, i - 1);
      BeforeNext(t0, process, batches, i - 1);
      StampedBatch(u, select, process, pending, fit, batches[i - 1]);
      MembersConcat(ids, batches[i - 1]);
      DistinctJoin(ids, batches[i - 1]);
    }
  }

  /** In any pass, a complete run processes rows that were pending, each once, and stamps exactly those. */
  lemma StampedDrain(t0: Tables, select: Selection, process: Process, pending: Selection, fit: Tables -> bool,
                     batch: nat, batches: seq<seq<Id>>)
    requires Stamps(select, process, pending, fit) && fit(t0) && Drained(t0, select, process, batch, batches)
    ensures Taken(t0, pending, ProcessAll(t0, process, Flatten(batches)), Flatten(batches))
  {
    StampedPrefix(t0, select, process, pending, fit, batch, batches, |batches|);
    assert batches[..|batches|] == batches;
  }

  /** In any pass, rows that all fit into one batch are all processed. */
  lemma OneBatchTakesAll(t0: Tables, select: Selection, process: Process, batch: nat, batches: seq<seq<Id>>)
    requires Drained(t0, select, process, batch, batches) && |select(t0)| <= batch
    ensures select(t0) <= Members(Flatten(batches))
  {
    assert batches[..0] == [];
    assert Before(t0, process, batches, 0) == t0;
    if batches != [] {
      assert FetchedAt(t0, select, process, batch, batches, 0);
      DistinctSize(batches[0]);
      FullSubset(Members(batches[0]), select(t0));
      FirstBatchWithin(batches);
    }
  }

  lemma {:induction false} DistinctSize(ids: seq<Id>)
    requires Distinct(ids)
    ensures |Members(ids)| == |ids|
  {
    if ids != [] {
      var front, last := ids[..|ids| - 1], ids[|ids| - 1];
      DistinctSize(front);
      assert ids == front + [last] && last !in front;
      assert Members(ids) == Members(front) + {last};
    }
  }

  lemma FullSubset(a: set<Id>, b: set<Id>)
    requires a <= b && |a| == |b|
    ensures a == b
  {
    assert |b| == |a| + |b - a| by { assert b == a + (b - a); }
  }

  lemma {:induction false} FirstBatchWithin(batches: seq<seq<Id>>)
    requires batches != []
    ensures Members(batches[0]) <= Members(Flatten(batches))
  {
    var front := batches[..|batches| - 1];
    MembersConcat(Flatten(front), batches[|batches| - 1]);
    if front == [] {
      assert Flatten(batches) == Flatten([]) + batches[0];
    } else {
      FirstBatchWithin(front);
    }
  }

  // ----- when a drain can end at all -----------------------------------------

  ghost predicate CanDrain(t: Tables, select: Selection, process: Process) {
    exists ids: seq<Id> :: select(ProcessAll(t, process, ids)) == {}
  }

  lemma {:induction false} StampsCanDrain(t: Tables, select: Selection, process: Process, pending: Selection,
                                          fit: Tables -> bool)
    requires Stamps(select, process, pending, fit) && fit(t)
    ensures CanDrain(t, select, process)
    decreases pending(t)
  {
    if select(t) == {} {
      assert ProcessAll(t, process, []) == t;
    } else {
      var id :| id in select(t);
      var u := process(t, id);
      StampsCanDrain(u, select, process, pending, fit);
      var ids: seq<Id> :| select(ProcessAll(u, process, ids)) == {};
      ProcessAllCons(t, process, id, ids);
    }
  }

  lemma {:induction false} ProcessAllCons(t: Tables, process: Process, id: Id, ids: seq<Id>)
    ensures ProcessAll(t, process, [id] + ids) == ProcessAll(process(t, id), process, ids)
  {
    var all := [id] + ids;
    if ids == [] {
      assert all == [id] && [id][..0] == [];
      assert ProcessAll(t, process, [id]) == process(ProcessAll(t, process, []), id);
    } else {
      ProcessAllCons(t, process, id, ids[..|ids| - 1]);
      assert all[..|all| - 1] == [id] + ids[..|ids| - 1];
    }
  }

  // ----- the passes ----------------------------------------------------------

  /** What the pass needs from outside: the world, the clock, the sources with a threshold row, and the answers
      of the services and queries. */
  datatype Feed = Feed(
    w: World, now: int, cutoff: int, baseS: int, hasThreshold: (Str, Str) -> bool, listing: (Tables, Id) -> seq<Id>,
    security: Id -> Option<Security>, honeypot: Id -> Option<bool>, confirmed: Id -> bool, foundId: Id -> Option<Str>,
    canonical: Id -> Option<Str>, factory: Id -> Option<Str>)

  predicate InPair(t: Tables, token: Id, wanted: set<Status>) {
    exists p :: p in PairsOf(t, token) && t.pairs[p].status in wanted
  }

  function DueForScamCheck(f: Feed): Selection {
    (t: Tables) => set k | k in t.tokens && f.w.evmChain(t.tokens[k].chain) && t.tokens[k].scamCheckedAt < f.cutoff
                       && InPair(t, k, {ManualVerified, AutoVerified})
  }

  function ScamProcess(f: Feed): Process {
    (t: Tables, k: Id) => ScamCheck(t, f.w, k, f.now, f.security(k), f.honeypot(k), f.listing(t, k))
  }

  ghost function ScamPending(f: Feed): Selection {
    (t: Tables) => set k | k in t.tokens && f.w.evmChain(t.tokens[k].chain) && t.tokens[k].scamCheckedAt < f.cutoff
  }

  /** The tokens in review pairs, scanned by the scam check and stamped by their own column. */
  function DueForReviewScan(f: Feed): Selection {
    (t: Tables) => set k | k in t.tokens && f.w.evmChain(t.tokens[k].chain) && t.tokens[k].securityCheckedAt < f.cutoff
                       && InPair(t, k, {NeedsReview})
  }

  function ReviewProcess(f: Feed): Process {
    (t: Tables, k: Id) => ReviewScan(t, f.w, k, f.now, f.security(k), f.honeypot(k), f.listing(t, k))
  }

  ghost function ReviewPending(f: Feed): Selection {
    (t: Tables) => set k | k in t.tokens && f.w.evmChain(t.tokens[k].chain) && t.tokens[k].securityCheckedAt < f.cutoff
  }

  /** Whether an identity result can affect the pair: it is in review, or at least as deep as its source's floor;
      a source without a threshold row has none. */
  predicate IdentityRelevant(f: Feed, p: PairRow) {
    || p.status == NeedsReview
    || !f.hasThreshold(p.chain, p.dex)
    || p.reserveUsd >= f.w.config(p.chain, p.dex).minLiquidityUsd
  }

  function DueForIdentityCheck(f: Feed): Selection {
    (t: Tables) => set k | k in t.tokens && t.tokens[k].coingeckoCoinId == [] && f.w.evmChain(t.tokens[k].chain)
                       && t.tokens[k].identityCheckedAt < f.now && t.tokens[k].identityNextCheckAt <= f.now
                       && exists p :: p in PairsOf(t, k) && IdentityRelevant(f, t.pairs[p])
  }

  function IdentityProcess(f: Feed): Process {
    (t: Tables, k: Id) => IdentityCheck(t, f.w, k, f.now, f.baseS, f.confirmed(k), f.foundId(k), f.listing(t, k))
  }

  ghost function IdentityPending(f: Feed): Selection {
    (t: Tables) => set k | k in t.tokens && t.tokens[k].identityCheckedAt < f.now
  }

  function DueForFactoryCheck(f: Feed): Selection {
    (t: Tables) => set p | p in t.pairs && f.w.evmChain(t.pairs[p].chain) && t.pairs[p].factoryAddress.None?
                       && t.pairs[p].factoryCheckedAt < f.cutoff
  }

  function FactoryProcess(f: Feed): Process {
    (t: Tables, p: Id) => FactoryCheck(t, f.w, p, f.now, f.factory(p))
  }

  ghost function FactoryPending(f: Feed): Selection {
    (t: Tables) => set p | p in t.pairs && t.pairs[p].factoryCheckedAt < f.cutoff
  }

  function DueForCanonicalCheck(f: Feed): Selection {
    (t: Tables) => set k | k in t.tokens && t.tokens[k].coingeckoCoinId != [] && f.w.coinGeckoChain(t.tokens[k].chain)
                       && t.tokens[k].canonicalCheckedAt < f.cutoff && PairsOf(t, k) != {}
  }

  function CanonicalProcess(f: Feed): Process {
    (t: Tables, k: Id) => CanonicalCheck(t, f.w, k, f.now, f.canonical(k), f.listing(t, k))
  }

  ghost function CanonicalPending(f: Feed): Selection {
    (t: Tables) => set k | k in t.tokens && HasCgId(Some(t.tokens[k].coingeckoCoinId)) &&
      f.w.coinGeckoChain(t.tokens[k].chain)
                       && t.tokens[k].canonicalCheckedAt < f.cutoff
  }

  /** Rows the canonical pass selects but its check returns from without stamping. */
  function StuckRows(f: Feed): Selection {
    (t: Tables) => set k | k in t.tokens && IsStuck(f, t, k)
  }

  predicate IsStuck(f: Feed, t: Tables, k: Id) {
    k in t.tokens && t.tokens[k].coingeckoCoinId != [] && IsBlank(t.tokens[k].coingeckoCoinId)
    && f.w.coinGeckoChain(t.tokens[k].chain) && t.tokens[k].canonicalCheckedAt < f.cutoff && PairsOf(t, k) != {}
  }

  // ----- what processing one row leaves alone --------------------------------

  /** Only this token's own columns may differ, statuses apart. */
  ghost predicate OthersKept(t: Tables, u: Tables, k: Id) {
    && u.tokens.Keys == t.tokens.Keys && u.pairs.Keys == t.pairs.Keys
    && (forall j :: j in t.tokens && j != k ==> SameTokenInputs(t.tokens[j], u.tokens[j]))
    && (forall p :: p in t.pairs ==> SamePairInputs(t.pairs[p], u.pairs[p]))
  }

  lemma SamePairsOf(t: Tables, u: Tables, k: Id)
    requires u.pairs.Keys == t.pairs.Keys && forall p :: p in t.pairs ==> SamePairInputs(t.pairs[p], u.pairs[p])
    ensures PairsOf(u, k) == PairsOf(t, k)
  {
    forall p | p in t.pairs ensures u.pairs[p].token0 == t.pairs[p].token0 && u.pairs[p].token1 == t.pairs[p].token1 {
      assert SamePairInputs(t.pairs[p], u.pairs[p]);
    }
  }

  /** A row is stored, then pairs are judged and tokens promoted or demoted. */
  lemma StoredThenJudged(t: Tables, k: Id, r: TokenRow, u: Tables)
    requires k in t.tokens && SameInputs(t.(tokens := t.tokens[k := r]), u)
    ensures OthersKept(t, u, k) && SameTokenInputs(r, u.tokens[k])
  {
    var stored := t.(tokens := t.tokens[k := r]);
    forall j | j in t.tokens && j != k ensures SameTokenInputs(t.tokens[j], u.tokens[j]) {
      assert SameTokenInputs(stored.tokens[j], u.tokens[j]);
    }
    forall p | p in t.pairs ensures SamePairInputs(t.pairs[p], u.pairs[p]) {
      assert SamePairInputs(stored.pairs[p], u.pairs[p]);
    }
    assert SameTokenInputs(stored.tokens[k], u.tokens[k]);
  }

  lemma NothingChanged(t: Tables, k: Id)
    ensures OthersKept(t, t, k)
  {
    forall j | j in t.tokens ensures SameTokenInputs(t.tokens[j], t.tokens[j]) {
    }
    forall p | p in t.pairs ensures SamePairInputs(t.pairs[p], t.pairs[p]) {
    }
  }

  /** A scam check stamps its row; what it re-judges and demotes changes no other input. */
  lemma ScamCheckRow(f: Feed, t: Tables, k: Id)
    ensures var u := ScamProcess(f)(t, k);
      && OthersKept(t, u, k)
      && (k in t.tokens && f.w.evmChain(t.tokens[k].chain) ==>
            SameTokenInputs(WithScamAnswer(t.tokens[k], f.now, f.security(k), f.honeypot(k)), u.tokens[k]))
      && (k in t.tokens && !f.w.evmChain(t.tokens[k].chain) ==> u == t)
  {
    if k in t.tokens && f.w.evmChain(t.tokens[k].chain) {
      var r := WithScamAnswer(t.tokens[k], f.now, f.security(k), f.honeypot(k));
      var stored := t.(tokens := t.tokens[k := r]);
      FlaggedKeepsInputs(stored, f.w, f.listing(t, k), k, f.now);
      RunAllKeepsInputs(stored, f.w, [], f.now);
      StoredThenJudged(t, k, r, ScamProcess(f)(t, k));
    } else {
      assert ScamCheck(t, f.w, k, f.now, f.security(k), f.honeypot(k), f.listing(t, k)) == t;
      NothingChanged(t, k);
    }
  }

  lemma FlaggedKeepsInputs(t: Tables, w: World, order: seq<Id>, k: Id, now: int)
    ensures SameInputs(t, Demote(RunAll(t, w, order, now), Some({k}), now))
  {
    var judged := RunAll(t, w, order, now);
    RunAllKeepsInputs(t, w, order, now);
    DemoteKeepsInputs(judged, Some({k}), now);
    SameInputsTransitive(t, judged, Demote(judged, Some({k}), now));
  }

  lemma ReviewScanRow(f: Feed, t: Tables, k: Id)
    ensures var u, s := ReviewProcess(f)(t, k), ScamProcess(f)(t, k);
      && OthersKept(t, u, k) && u.pairs == s.pairs
      && (k in t.tokens ==> k in s.tokens && u.tokens[k] == s.tokens[k].(securityCheckedAt := f.now))
  {
    ScamCheckRow(f, t, k);
    var order := f.listing(t, k);
    var s := ScamCheck(t, f.w, k, f.now, f.security(k), f.honeypot(k), order);
    if k in t.tokens {
      assert ReviewScan(t, f.w, k, f.now, f.security(k), f.honeypot(k), order)
        == s.(tokens := s.tokens[k := s.tokens[k].(securityCheckedAt := f.now)]);
      RestampedKept(t, s, k, f.now);
    } else {
      assert ReviewScan(t, f.w, k, f.now, f.security(k), f.honeypot(k), order) == t && s == t;
    }
  }

  lemma RestampedKept(t: Tables, s: Tables, k: Id, now: int)
    requires OthersKept(t, s, k) && k in s.tokens
    ensures OthersKept(t, s.(tokens := s.tokens[k := s.tokens[k].(securityCheckedAt := now)]), k)
  {
  }

  /** The row an identity check stores. */
  function WithIdentity(f: Feed, r: TokenRow, k: Id): TokenRow {
    if HasCgId(Some(r.coingeckoCoinId)) || !f.w.evmChain(r.chain) then r.(identityCheckedAt := f.now)
    else
      r.(identityConfirmed := f.confirmed(k), identityCheckedAt := f.now,
         identityNextCheckAt := NextIdentityCheckAt(r, f.confirmed(k), f.now, f.baseS),
         coingeckoCoinId := if Known(f.foundId(k)) then f.foundId(k).value else r.coingeckoCoinId)
  }

  lemma IdentityCheckRow(f: Feed, t: Tables, k: Id)
    ensures var u := IdentityProcess(f)(t, k);
      OthersKept(t, u, k) && (k in t.tokens ==> SameTokenInputs(WithIdentity(f, t.tokens[k], k), u.tokens[k]))
  {
    if k in t.tokens {
      var r := WithIdentity(f, t.tokens[k], k);
      var stored := t.(tokens := t.tokens[k := r]);
      RunAllKeepsInputs(stored, f.w, f.listing(t, k), f.now);
      RunAllKeepsInputs(stored, f.w, [], f.now);
      StoredThenJudged(t, k, r, IdentityProcess(f)(t, k));
    } else {
      assert IdentityCheck(t, f.w, k, f.now, f.baseS, f.confirmed(k), f.foundId(k), f.listing(t, k)) == t;
      NothingChanged(t, k);
    }
  }

  lemma CanonicalCheckRow(f: Feed, t: Tables, k: Id)
    ensures var u := CanonicalProcess(f)(t, k);
      && OthersKept(t, u, k)
      && (k in t.tokens ==>
            SameTokenInputs(if HasCgId(Some(t.tokens[k].coingeckoCoinId)) && f.w.coinGeckoChain(t.tokens[k].chain)
                            then t.tokens[k].(canonicalCheckedAt := f.now) else t.tokens[k], u.tokens[k]))
  {
    if k in t.tokens && HasCgId(Some(t.tokens[k].coingeckoCoinId)) && f.w.coinGeckoChain(t.tokens[k].chain) {
      var r := t.tokens[k].(canonicalCheckedAt := f.now);
      var stored := t.(tokens := t.tokens[k := r]);
      RunAllKeepsInputs(stored, f.w, f.listing(t, k), f.now);
      RunAllKeepsInputs(stored, f.w, [], f.now);
      StoredThenJudged(t, k, r, CanonicalProcess(f)(t, k));
    } else {
      assert CanonicalCheck(t, f.w, k, f.now, f.canonical(k), f.listing(t, k)) == t;
      NothingChanged(t, k);
    }
  }

  /** The row a factory check stores. */
  function WithFactory(f: Feed, r: PairRow, p: Id): PairRow {
    r.(factoryAddress := f.factory(p), factoryCheckedAt := f.now)
  }

  lemma FactoryCheckRow(f: Feed, t: Tables, p: Id)
    ensures var u := FactoryProcess(f)(t, p);
      && u.pairs.Keys == t.pairs.Keys
      && (p in t.pairs ==> SamePairInputs(WithFactory(f, t.pairs[p], p), u.pairs[p]))
      && (forall q :: q in t.pairs && q != p ==> SamePairInputs(t.pairs[q], u.pairs[q]))
  {
    if p in t.pairs {
      var stored := t.(pairs := t.pairs[p := WithFactory(f, t.pairs[p], p)]);
      var u := FactoryProcess(f)(t, p);
      RunVerdictKeepsInputs(stored, f.w, p, f.now);
      RunAllKeepsInputs(stored, f.w, [], f.now);
      assert SameInputs(stored, u);
      assert SamePairInputs(stored.pairs[p], u.pairs[p]);
      forall q | q in t.pairs && q != p ensures SamePairInputs(t.pairs[q], u.pairs[q]) {
        assert SamePairInputs(stored.pairs[q], u.pairs[q]);
      }
    } else {
      assert FactoryCheck(t, f.w, p, f.now, f.factory(p)) == t;
      NothingChanged(t, p);
    }
  }

  // ----- they stamp ----------------------------------------------------------

  lemma ScamPassStamps(f: Feed)
    requires f.cutoff <= f.now
    ensures Stamps(DueForScamCheck(f), ScamProcess(f), ScamPending(f), _ => true)
  {
    forall t: Tables, k: Id | k in ScamPending(f)(t)
      ensures ScamPending(f)(ScamProcess(f)(t, k)) == ScamPending(f)(t) - {k}
    {
      ScamCheckRow(f, t, k);
      PendingAfter(t, ScamProcess(f)(t, k), k);
    }
  }

  /** The columns the token passes read of the other rows. */
  lemma PendingAfter(t: Tables, u: Tables, k: Id)
    requires OthersKept(t, u, k)
    ensures forall j :: j in t.tokens && j != k ==>
      && u.tokens[j].chain == t.tokens[j].chain && u.tokens[j].coingeckoCoinId == t.tokens[j].coingeckoCoinId
      && u.tokens[j].scamCheckedAt == t.tokens[j].scamCheckedAt
      && u.tokens[j].securityCheckedAt == t.tokens[j].securityCheckedAt
      && u.tokens[j].identityCheckedAt == t.tokens[j].identityCheckedAt
      && u.tokens[j].canonicalCheckedAt == t.tokens[j].canonicalCheckedAt
  {
    forall j | j in t.tokens && j != k ensures SameTokenInputs(t.tokens[j], u.tokens[j]) {
    }
  }

  lemma ReviewPassStamps(f: Feed)
    requires f.cutoff <= f.now
    ensures Stamps(DueForReviewScan(f), ReviewProcess(f), ReviewPending(f), _ => true)
  {
    forall t: Tables, k: Id | k in ReviewPending(f)(t)
      ensures ReviewPending(f)(ReviewProcess(f)(t, k)) == ReviewPending(f)(t) - {k}
    {
      ReviewScanRow(f, t, k);
      PendingAfter(t, ReviewProcess(f)(t, k), k);
    }
  }

  lemma IdentityPassStamps(f: Feed)
    ensures Stamps(DueForIdentityCheck(f), IdentityProcess(f), IdentityPending(f), _ => true)
  {
    forall t: Tables, k: Id | k in IdentityPending(f)(t)
      ensures IdentityPending(f)(IdentityProcess(f)(t, k)) == IdentityPending(f)(t) - {k}
    {
      IdentityCheckRow(f, t, k);
      PendingAfter(t, IdentityProcess(f)(t, k), k);
    }
  }

  lemma FactoryColumns(t: Tables, u: Tables, p: Id)
    requires u.pairs.Keys == t.pairs.Keys && forall q :: q in t.pairs && q != p ==>
      SamePairInputs(t.pairs[q], u.pairs[q])
    ensures forall q :: q in t.pairs && q != p ==>
      && u.pairs[q].chain == t.pairs[q].chain && u.pairs[q].factoryAddress == t.pairs[q].factoryAddress
      && u.pairs[q].factoryCheckedAt == t.pairs[q].factoryCheckedAt
  {
    forall q | q in t.pairs && q != p ensures SamePairInputs(t.pairs[q], u.pairs[q]) {
    }
  }

  lemma FactoryLosesRow(f: Feed, t: Tables, u: Tables, p: Id)
    requires f.cutoff <= f.now && p in t.pairs && u.pairs.Keys == t.pairs.Keys && u.pairs[p].factoryCheckedAt == f.now
    requires forall q :: q in t.pairs && q != p ==> SamePairInputs(t.pairs[q], u.pairs[q])
    ensures FactoryPending(f)(u) == FactoryPending(f)(t) - {p}
    ensures DueForFactoryCheck(f)(u) == DueForFactoryCheck(f)(t) - {p}
  {
    FactoryColumns(t, u, p);
  }

  lemma FactoryPassStamps(f: Feed)
    requires f.cutoff <= f.now
    ensures Stamps(DueForFactoryCheck(f), FactoryProcess(f), FactoryPending(f), _ => true)
  {
    forall t: Tables, p: Id | p in FactoryPending(f)(t)
      ensures FactoryPending(f)(FactoryProcess(f)(t, p)) == FactoryPending(f)(t) - {p}
    {
      FactoryCheckRow(f, t, p);
      FactoryLosesRow(f, t, FactoryProcess(f)(t, p), p);
    }
  }

  /** The factory selection reads no status, so it loses exactly the pair that was read. */
  lemma FactoryPassExact(f: Feed)
    requires f.cutoff <= f.now
    ensures Exact(DueForFactoryCheck(f), FactoryProcess(f), _ => true)
  {
    forall t: Tables, p: Id | p in DueForFactoryCheck(f)(t)
      ensures DueForFactoryCheck(f)(FactoryProcess(f)(t, p)) == DueForFactoryCheck(f)(t) - {p}
    {
      FactoryCheckRow(f, t, p);
      FactoryLosesRow(f, t, FactoryProcess(f)(t, p), p);
    }
  }

  /** Being stuck depends only on columns no check of another row, and no check of this one, changes. */
  lemma StuckUnchanged(f: Feed, t: Tables, k: Id)
    requires f.cutoff <= f.now
    ensures StuckRows(f)(CanonicalProcess(f)(t, k)) == StuckRows(f)(t)
  {
    var u := CanonicalProcess(f)(t, k);
    CanonicalCheckRow(f, t, k);
    PendingAfter(t, u, k);
    forall j ensures j in StuckRows(f)(u) <==> j in StuckRows(f)(t) {
      SamePairsOf(t, u, j);
    }
  }

  ghost function NothingStuck(f: Feed): Tables -> bool {
    (t: Tables) => StuckRows(f)(t) == {}
  }

  /** With nothing stuck, a selected row has a coin id its check acts on. */
  lemma SelectedHasCgId(f: Feed, t: Tables, k: Id)
    requires NothingStuck(f)(t) && k in DueForCanonicalCheck(f)(t)
    ensures k in CanonicalPending(f)(t)
  {
    assert k !in StuckRows(f)(t);
  }

  lemma CanonicalPassStamps(f: Feed)
    requires f.cutoff <= f.now
    ensures Stamps(DueForCanonicalCheck(f), CanonicalProcess(f), CanonicalPending(f), NothingStuck(f))
  {
    forall t: Tables | NothingStuck(f)(t) ensures DueForCanonicalCheck(f)(t) <= CanonicalPending(f)(t) {
      forall k | k in DueForCanonicalCheck(f)(t) ensures k in CanonicalPending(f)(t) {
        SelectedHasCgId(f, t, k);
      }
    }
    forall t: Tables, k: Id | NothingStuck(f)(t) && k in CanonicalPending(f)(t)
      ensures NothingStuck(f)(CanonicalProcess(f)(t, k))
      ensures CanonicalPending(f)(CanonicalProcess(f)(t, k)) == CanonicalPending(f)(t) - {k}
    {
      StuckUnchanged(f, t, k);
      CanonicalCheckRow(f, t, k);
      PendingAfter(t, CanonicalProcess(f)(t, k), k);
    }
  }

  /** Nor does the canonical selection. */
  lemma CanonicalPassExact(f: Feed)
    requires f.cutoff <= f.now
    ensures Exact(DueForCanonicalCheck(f), CanonicalProcess(f), NothingStuck(f))
  {
    forall t: Tables, k: Id | NothingStuck(f)(t) && k in DueForCanonicalCheck(f)(t)
      ensures NothingStuck(f)(CanonicalProcess(f)(t, k))
      ensures DueForCanonicalCheck(f)(CanonicalProcess(f)(t, k)) == DueForCanonicalCheck(f)(t) - {k}
    {
      StuckUnchanged(f, t, k);
      SelectedHasCgId(f, t, k);
      CanonicalLosesRow(f, t, k);
    }
  }

  lemma CanonicalLosesRow(f: Feed, t: Tables, k: Id)
    requires f.cutoff <= f.now && k in CanonicalPending(f)(t)
    ensures DueForCanonicalCheck(f)(CanonicalProcess(f)(t, k)) == DueForCanonicalCheck(f)(t) - {k}
  {
    var u := CanonicalProcess(f)(t, k);
    CanonicalCheckRow(f, t, k);
    PendingAfter(t, u, k);
    forall j ensures j in DueForCanonicalCheck(f)(u) <==> j in DueForCanonicalCheck(f)(t) && j != k {
      SamePairsOf(t, u, j);
    }
  }

  /** A stuck row stays selected whatever is processed. */
  lemma {:induction false} StuckStaysStuck(f: Feed, t: Tables, k: Id, ids: seq<Id>)
    requires f.cutoff <= f.now && k in StuckRows(f)(t)
    ensures k in StuckRows(f)(ProcessAll(t, CanonicalProcess(f), ids))
  {
    if ids != [] {
      StuckStaysStuck(f, t, k, ids[..|ids| - 1]);
      StuckUnchanged(f, ProcessAll(t, CanonicalProcess(f), ids[..|ids| - 1]), ids[|ids| - 1]);
    }
  }

  /** The canonical pass can reach an empty selection exactly when no due token has a coin id of white
      space: with one, it selects the same row for ever. */
  lemma CanonicalPassEndsIff(f: Feed, t: Tables)
    requires f.cutoff <= f.now
    ensures CanDrain(t, DueForCanonicalCheck(f), CanonicalProcess(f)) <==> StuckRows(f)(t) == {}
  {
    if StuckRows(f)(t) == {} {
      CanonicalPassStamps(f);
      StampsCanDrain(t, DueForCanonicalCheck(f), CanonicalProcess(f), CanonicalPending(f), NothingStuck(f));
    } else {
      var k :| k in StuckRows(f)(t);
      forall ids: seq<Id> ensures DueForCanonicalCheck(f)(ProcessAll(t, CanonicalProcess(f), ids)) != {} {
        StuckStaysStuck(f, t, k, ids);
        assert k in DueForCanonicalCheck(f)(ProcessAll(t, CanonicalProcess(f), ids));
      }
    }
  }

  // ----- the five passes -----------------------------------------------------

  const BATCH := 25

  /** Processes each pair due, once, and no other. */
  method FactoryPass(f: Feed, t0: Tables) returns (t: Tables, processed: seq<Id>)
    requires f.cutoff <= f.now
    ensures DueForFactoryCheck(f)(t) == {} && t == ProcessAll(t0, FactoryProcess(f), processed)
    ensures Members(processed) == DueForFactoryCheck(f)(t0) && Distinct(processed)
  {
    FactoryPassStamps(f);
    FactoryPassExact(f);
    ghost var batches;
    t, processed, batches :=
      DrainBatches(t0, DueForFactoryCheck(f), FactoryProcess(f), BATCH, FactoryPending(f), _ => true);
    ExactDrain(t0, DueForFactoryCheck(f), FactoryProcess(f), _ => true, BATCH, batches);
  }

  /** Processes each token due, once, and no other. Its precondition is the exact one: see `CanonicalPassEndsIff`. */
  method CanonicalPass(f: Feed, t0: Tables) returns (t: Tables, processed: seq<Id>)
    requires f.cutoff <= f.now && StuckRows(f)(t0) == {}
    ensures DueForCanonicalCheck(f)(t) == {} && t == ProcessAll(t0, CanonicalProcess(f), processed)
    ensures Members(processed) == DueForCanonicalCheck(f)(t0) && Distinct(processed)
  {
    CanonicalPassStamps(f);
    CanonicalPassExact(f);
    ghost var batches;
    t, processed, batches :=
      DrainBatches(t0, DueForCanonicalCheck(f), CanonicalProcess(f), BATCH, CanonicalPending(f), NothingStuck(f));
    ExactDrain(t0, DueForCanonicalCheck(f), CanonicalProcess(f), NothingStuck(f), BATCH, batches);
  }

  /** What a pass over selected rows promises whatever its selection reads: the batches are a complete run, no row is
      processed twice, and a due row was processed or dropped out. */
  ghost predicate PassDone(t0: Tables, select: Selection, process: Process, t: Tables, processed: seq<Id>,
                           batches: seq<seq<Id>>) {
    && Drained(t0, select, process, BATCH, batches) && processed == Flatten(batches)
    && t == ProcessAll(t0, process, processed) && Distinct(processed)
    && forall id :: id in select(t0) ==> id in processed || id !in select(t)
  }

  method ScamPass(f: Feed, t0: Tables) returns (t: Tables, processed: seq<Id>, ghost batches: seq<seq<Id>>)
    requires f.cutoff <= f.now
    ensures DueForScamCheck(f)(t) == {} && PassDone(t0, DueForScamCheck(f), ScamProcess(f), t, processed, batches)
    ensures ScamPending(f)(t) == ScamPending(f)(t0) - Members(processed) && Members(processed) <= ScamPending(f)(t0)
  {
    ScamPassStamps(f);
    t, processed, batches := DrainBatches(t0, DueForScamCheck(f), ScamProcess(f), BATCH, ScamPending(f), _ => true);
  }

  method ReviewPass(f: Feed, t0: Tables) returns (t: Tables, processed: seq<Id>, ghost batches: seq<seq<Id>>)
    requires f.cutoff <= f.now
    ensures DueForReviewScan(f)(t) == {} && PassDone(t0, DueForReviewScan(f), ReviewProcess(f), t, processed, batches)
    ensures ReviewPending(f)(t) == ReviewPending(f)(t0) - Members(processed) &&
      Members(processed) <= ReviewPending(f)(t0)
  {
    ReviewPassStamps(f);
    t, processed, batches :=
      DrainBatches(t0, DueForReviewScan(f), ReviewProcess(f), BATCH, ReviewPending(f), _ => true);
  }

  method IdentityPass(f: Feed, t0: Tables) returns (t: Tables, processed: seq<Id>, ghost batches: seq<seq<Id>>)
    ensures DueForIdentityCheck(f)(t) == {} &&
      PassDone(t0, DueForIdentityCheck(f), IdentityProcess(f), t, processed, batches)
    ensures IdentityPending(f)(t) == IdentityPending(f)(t0) - Members(processed) &&
      Members(processed) <= IdentityPending(f)(t0)
  {
    IdentityPassStamps(f);
    t, processed, batches :=
      DrainBatches(t0, DueForIdentityCheck(f), IdentityProcess(f), BATCH, IdentityPending(f), _ => true);
  }
}
