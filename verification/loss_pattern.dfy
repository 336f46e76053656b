/** Which rows a drain can lose, for any selection that reads pairs which other rows' checks move. */
module LossPattern {
  // Of a pass only this is used: a row is selected while it is unprocessed and has a wanted pair, and a pair stops or
  // starts being wanted when the check of one of its tokens moves it. The three passes whose selection reads statuses
  // are instances.

  import opened Wrappers
  import opened JsString
  import opened Verdict
  import opened Tables
  import opened Passes
  import opened Drain
  import opened DrainRuns

  /** The rows a pass may process, their pairs, which pairs are wanted at the start, which pairs the check of a row
      moves, and which of those are wanted then. */
  datatype Pattern = Pattern(
    rows: set<Id>, pairsOf: Id -> set<Id>, wanted: Id -> bool, moves: (Id, Id) -> bool, joins: (Id, Id) -> bool)

  /** A check moves pairs of its own row, and no pair has three tokens. */
  ghost predicate WellFormed(x: Pattern) {
    && (forall j: Id, p: Id :: x.moves(j, p) ==> p in x.pairsOf(j))
    && (forall a: Id, b: Id, c: Id, p: Id :: p in x.pairsOf(a) && p in x.pairsOf(b) && p in x.pairsOf(c) ==>
          a == b || b == c || a == c)
  }

  ghost predicate MovedBy(x: Pattern, done: set<Id>, p: Id) {
    exists j: Id :: j in done && x.moves(j, p)
  }

  ghost predicate JoinedBy(x: Pattern, done: set<Id>, p: Id) {
    exists j: Id :: j in done && x.moves(j, p) && x.joins(j, p)
  }

  ghost predicate WantedAfter(x: Pattern, done: set<Id>, p: Id) {
    if MovedBy(x, done, p) then JoinedBy(x, done, p) else x.wanted(p)
  }

  ghost predicate HasWantedAfter(x: Pattern, done: set<Id>, k: Id) {
    exists p: Id :: p in x.pairsOf(k) && WantedAfter(x, done, p)
  }

  ghost predicate Selected(x: Pattern, done: set<Id>, k: Id) {
    k in x.rows && k !in done && HasWantedAfter(x, done, k)
  }

  ghost predicate FollowsAt(t: Tables, select: Selection, process: Process, x: Pattern, ids: seq<Id>) {
    forall k: Id :: k in select(ProcessAll(t, process, ids)) <==> Selected(x, Members(ids), k)
  }

  /** After any rows of the pattern, each once, the selection is what the pattern says. */
  ghost predicate Follows(t: Tables, select: Selection, process: Process, x: Pattern) {
    WellFormed(x) && forall ids: seq<Id> :: Distinct(ids) && Members(ids) <= x.rows ==>
      FollowsAt(t, select, process, x, ids)
  }

  // ----- sealed sets ---------------------------------------------------------

  ghost predicate Outside(x: Pattern, l: set<Id>, j: Id) {
    j in x.rows && j !in l
  }

  /** If the pair is wanted, the check of a row outside moves it; and no row outside moves it to be wanted. */
  ghost predicate SealedPair(x: Pattern, l: set<Id>, p: Id) {
    && (x.wanted(p) ==> exists j: Id :: Outside(x, l, j) && x.moves(j, p))
    && (forall j: Id :: Outside(x, l, j) && x.moves(j, p) ==> !x.joins(j, p))
  }

  /** Rows outside can take every pair of these rows out of what is wanted, and can put none of them in. */
  ghost predicate Sealed(x: Pattern, l: set<Id>) {
    l <= x.rows && forall k: Id, p: Id :: k in l && p in x.pairsOf(k) ==> SealedPair(x, l, p)
  }

  ghost predicate IsPartner(x: Pattern, l: set<Id>, j: Id) {
    j !in l && exists k: Id, p: Id :: k in l && p in x.pairsOf(k) && x.wanted(p) && x.moves(j, p)
  }

  /** The rows outside that move a wanted pair of these. */
  ghost function Partners(x: Pattern, l: set<Id>): set<Id> {
    set j | j in x.rows && IsPartner(x, l, j)
  }

  /** A partner stays selected until it is processed: its pair with the set has no third token. */
  lemma PartnerSelected(x: Pattern, l: set<Id>, done: set<Id>, j: Id)
    requires WellFormed(x) && j in Partners(x, l) && done !! l && j !in done
    ensures Selected(x, done, j)
  {
    var k: Id, p: Id :| k in l && p in x.pairsOf(k) && x.wanted(p) && x.moves(j, p);
    forall i: Id | x.moves(i, p) ensures i == j || i == k {
      assert p in x.pairsOf(i) && p in x.pairsOf(j) && p in x.pairsOf(k);
    }
    assert p in x.pairsOf(j) && WantedAfter(x, done, p);
  }

  /** Once its partners are processed and none of itself, no row of a sealed set is selected. */
  lemma SealedNotSelected(x: Pattern, l: set<Id>, done: set<Id>, k: Id)
    requires Sealed(x, l) && Partners(x, l) <= done <= x.rows && done !! l && k in l
    ensures !Selected(x, done, k)
  {
    forall p: Id | p in x.pairsOf(k) ensures !WantedAfter(x, done, p) {
      assert SealedPair(x, l, p);
      if x.wanted(p) {
        var j: Id :| Outside(x, l, j) && x.moves(j, p);
        assert IsPartner(x, l, j);
        assert j in done;
      }
      forall j: Id | j in done && x.moves(j, p) ensures !x.joins(j, p) {
        assert Outside(x, l, j);
      }
    }
  }

  // ----- runs ----------------------------------------------------------------

  /** Rows processed once each, all of the pattern and none of the set. */
  ghost predicate Avoids(x: Pattern, l: set<Id>, ids: seq<Id>) {
    Distinct(ids) && Members(ids) <= x.rows && Members(ids) !! l
  }

  lemma AvoidsJoin(x: Pattern, l: set<Id>, a: seq<Id>, b: seq<Id>)
    requires Avoids(x, l, a) && Distinct(b) && Members(b) <= x.rows - Members(a) - l
    ensures Avoids(x, l, a + b)
  {
    DistinctJoin(a, b);
    MembersConcat(a, b);
  }

  lemma NextWithin(t: Tables, select: Selection, process: Process, x: Pattern, done: seq<Id>, ids: seq<Id>)
    requires Follows(t, select, process, x) && Avoids(x, {}, done)
    requires Members(ids) <= select(ProcessAll(t, process, done))
    ensures Members(ids) <= x.rows - Members(done)
  {
    assert FollowsAt(t, select, process, x, done);
  }

  /** A run processes rows of the pattern, each once. */
  lemma {:induction false} RunWithin(t: Tables, select: Selection, process: Process, x: Pattern, batch: nat,
                                     batches: seq<seq<Id>>, i: nat)
    requires Follows(t, select, process, x) && Fetched(t, select, process, batch, batches) && i <= |batches|
    ensures Avoids(x, {}, Flatten(batches[..i]))
  {
    if i > 0 {
      RunWithin(t, select, process, x, batch, batches, i - 1);
      assert FetchedAt(t, select, process, batch, batches, i - 1);
      NextWithin(t, select, process, x, Flatten(batches[..i - 1]), batches[i - 1]);
      AvoidsJoin(x, {}, Flatten(batches[..i - 1]), batches[i - 1]);
      BeforeNext(t, process, batches, i - 1);
    }
  }

  lemma AllBatches(batches: seq<seq<Id>>)
    ensures batches[..|batches|] == batches
  {
  }

  /** The rows of the pattern that a complete run leaves unprocessed are a sealed set. */
  lemma LeftIsSealed(t: Tables, select: Selection, process: Process, x: Pattern, batch: nat, batches: seq<seq<Id>>)
    requires Follows(t, select, process, x) && Drained(t, select, process, batch, batches)
    ensures Sealed(x, x.rows - Members(Flatten(batches)))
  {
    RunWithin(t, select, process, x, batch, batches, |batches|);
    AllBatches(batches);
    var done := Members(Flatten(batches));
    var l := x.rows - done;
    assert FollowsAt(t, select, process, x, Flatten(batches));
    forall k: Id, p: Id | k in l && p in x.pairsOf(k) ensures SealedPair(x, l, p) {
      assert !Selected(x, done, k);
      assert !WantedAfter(x, done, p);
      NotWantedIsSealed(x, done, p);
    }
  }

  lemma NotWantedIsSealed(x: Pattern, done: set<Id>, p: Id)
    requires done <= x.rows && !WantedAfter(x, done, p)
    ensures SealedPair(x, x.rows - done, p)
  {
    var l := x.rows - done;
    if x.wanted(p) {
      var j: Id :| j in done && x.moves(j, p);
      assert Outside(x, l, j);
    }
    forall j: Id | Outside(x, l, j) && x.moves(j, p) ensures !x.joins(j, p) {
      assert j in done;
    }
  }

  // ----- losing a sealed set -------------------------------------------------

  /** After its partners, a run never comes to a row of the set. */
  lemma {:induction false} RestAvoids(t: Tables, select: Selection, process: Process, x: Pattern, l: set<Id>,
                                      first: seq<Id>, batch: nat, rest: seq<seq<Id>>, i: nat)
    requires Follows(t, select, process, x) && Sealed(x, l) && Avoids(x, l, first) && Partners(x, l) <= Members(first)
    requires Fetched(ProcessAll(t, process, first), select, process, batch, rest) && i <= |rest|
    ensures Avoids(x, l, first + Flatten(rest[..i]))
  {
    if i == 0 {
      assert first + Flatten(rest[..0]) == first;
    } else {
      RestAvoids(t, select, process, x, l, first, batch, rest, i - 1);
      assert FetchedAt(ProcessAll(t, process, first), select, process, batch, rest, i - 1);
      ProcessAllConcat(t, process, first, Flatten(rest[..i - 1]));
      MembersConcat(first, Flatten(rest[..i - 1]));
      NextAvoids(t, select, process, x, l, first + Flatten(rest[..i - 1]), rest[i - 1]);
      BeforeNext(ProcessAll(t, process, first), process, rest, i - 1);
      assert first + Flatten(rest[..i]) == first + Flatten(rest[..i - 1]) + rest[i - 1];
    }
  }

  lemma NextAvoids(t: Tables, select: Selection, process: Process, x: Pattern, l: set<Id>, done: seq<Id>, ids: seq<Id>)
    requires Follows(t, select, process, x) && Sealed(x, l) && Avoids(x, l, done) && Partners(x, l) <= Members(done)
    requires Distinct(ids) && Members(ids) <= select(ProcessAll(t, process, done))
    ensures Avoids(x, l, done + ids)
  {
    NextWithin(t, select, process, x, done, ids);
    assert FollowsAt(t, select, process, x, done);
    forall k | k in Members(ids) ensures k !in l {
      if k in l { SealedNotSelected(x, l, Members(done), k); }
    }
    AvoidsJoin(x, l, done, ids);
  }

  /** A run's first batches, and the rows they process: none of the set. */
  ghost predicate Leads(t: Tables, select: Selection, process: Process, x: Pattern, l: set<Id>, batch: nat,
                        batches: seq<seq<Id>>, done: set<Id>) {
    && Fetched(t, select, process, batch, batches)
    && Avoids(x, l, Flatten(batches)) && Members(Flatten(batches)) == done
  }

  ghost predicate AllSelected(x: Pattern, done: set<Id>, chosen: set<Id>) {
    forall k: Id :: k in chosen ==> Selected(x, done, k)
  }

  lemma AllWithin(x: Pattern, done: set<Id>, chosen: set<Id>)
    requires AllSelected(x, done, chosen)
    ensures chosen <= x.rows - done
  {
    forall k: Id | k in chosen ensures k in x.rows && k !in done {
      assert Selected(x, done, k);
    }
  }

  lemma SelectedNow(t: Tables, select: Selection, process: Process, x: Pattern, ids: seq<Id>, chosen: set<Id>)
    requires Follows(t, select, process, x) && Avoids(x, {}, ids) && AllSelected(x, Members(ids), chosen)
    ensures chosen <= select(ProcessAll(t, process, ids))
  {
    assert FollowsAt(t, select, process, x, ids);
    forall k: Id | k in chosen ensures k in select(ProcessAll(t, process, ids)) {
      assert Selected(x, Members(ids), k);
    }
  }

  /** One more full batch, of rows that are selected when it is fetched. */
  lemma FullBatch(t: Tables, select: Selection, process: Process, x: Pattern, l: set<Id>, batch: nat,
                  batches: seq<seq<Id>>, done: set<Id>, chosen: set<Id>)
    returns (more: seq<seq<Id>>)
    requires Follows(t, select, process, x) && Leads(t, select, process, x, l, batch, batches, done)
    requires |chosen| == batch > 0 && chosen !! l && AllSelected(x, done, chosen)
    ensures Leads(t, select, process, x, l, batch, more, done + chosen)
  {
    var ids := ListAll(chosen);
    AllWithin(x, done, chosen);
    SelectedNow(t, select, process, x, Flatten(batches), chosen);
    FullFetch(chosen, select(ProcessAll(t, process, Flatten(batches))), batch);
    FetchedSnoc(t, select, process, batch, batches, ids);
    FlattenSnoc(batches, ids);
    AvoidsJoin(x, l, Flatten(batches), ids);
    MembersConcat(Flatten(batches), ids);
    more := batches + [ids];
  }

  /** The rows of n full batches. */
  function Times(n: nat, batch: nat): nat {
    if n == 0 then 0 else Times(n - 1, batch) + batch
  }

  lemma {:induction false} TimesIs(n: nat, batch: nat)
    ensures Times(n, batch) == n * batch
  {
    if n > 0 { TimesIs(n - 1, batch); }
  }

  /** A batch towards a set that is to be done in the end. */
  lemma TakeSome(done: set<Id>, all: set<Id>, batch: nat) returns (chosen: set<Id>, next: set<Id>)
    requires done <= all && batch <= |all - done|
    ensures chosen <= all - done && |chosen| == batch && next == done + chosen
    ensures next <= all && |all - next| == |all - done| - batch
  {
    chosen := SetBetween({}, all - done, batch);
    SubsetSize(chosen, all - done);
    next := done + chosen;
    assert all - next == all - done - chosen;
  }

  lemma PartnersSelected(x: Pattern, l: set<Id>, done: set<Id>, all: set<Id>, chosen: set<Id>)
    requires WellFormed(x) && all - done <= Partners(x, l) && chosen <= all - done && done !! l
    ensures AllSelected(x, done, chosen) && chosen !! l
  {
    forall k: Id | k in chosen ensures Selected(x, done, k) && k !in l {
      PartnerSelected(x, l, done, k);
    }
  }

  lemma PartnerBatch(t: Tables, select: Selection, process: Process, x: Pattern, l: set<Id>, batch: nat,
                     batches: seq<seq<Id>>, done: set<Id>, all: set<Id>)
    returns (more: seq<seq<Id>>, next: set<Id>)
    requires Follows(t, select, process, x) && Leads(t, select, process, x, l, batch, batches, done)
    requires done <= all && all - done <= Partners(x, l) && 0 < batch <= |all - done|
    ensures Leads(t, select, process, x, l, batch, more, next)
    ensures done <= next <= all && |all - next| == |all - done| - batch
  {
    var chosen;
    chosen, next := TakeSome(done, all, batch);
    PartnersSelected(x, l, done, all, chosen);
    more := FullBatch(t, select, process, x, l, batch, batches, done, chosen);
  }

  /** Partners, batch by batch: as many as fill n batches. */
  lemma {:induction false} PartnerBatches(t: Tables, select: Selection, process: Process, x: Pattern, l: set<Id>,
                                          batch: nat, batches: seq<seq<Id>>, done: set<Id>, all: set<Id>, n: nat)
    returns (more: seq<seq<Id>>)
    requires Follows(t, select, process, x) && Leads(t, select, process, x, l, batch, batches, done)
    requires batch > 0 && done <= all && all - done <= Partners(x, l) && |all - done| == Times(n, batch)
    ensures Leads(t, select, process, x, l, batch, more, all)
    decreases n
  {
    if n == 0 {
      more := batches;
      assert all - done == {} && done == all;
    } else {
      var next;
      more, next := PartnerBatch(t, select, process, x, l, batch, batches, done, all);
      assert all - next <= all - done;
      more := PartnerBatches(t, select, process, x, l, batch, more, next, all, n - 1);
    }
  }

  /** The fewest full batches that hold so many rows. */
  lemma {:induction false} FewestBatches(rows: nat, batch: nat, m: nat) returns (n: nat)
    requires rows > 0 && batch > 0 && rows <= Times(m, batch)
    ensures n > 0 && rows <= Times(n, batch) < rows + batch && Times(n, batch) <= Times(m, batch)
  {
    if rows > Times(m - 1, batch) {
      n := m;
    } else {
      n := FewestBatches(rows, batch, m - 1);
    }
  }

  lemma AtStart(t: Tables, select: Selection, process: Process, x: Pattern, k: Id)
    requires Follows(t, select, process, x)
    ensures k in select(t) <==> Selected(x, {}, k)
  {
    assert ProcessAll(t, process, []) == t && Members([]) == {};
    assert FollowsAt(t, select, process, x, []);
  }

  lemma PartnersDue(t: Tables, select: Selection, process: Process, x: Pattern, l: set<Id>)
    requires Follows(t, select, process, x)
    ensures Partners(x, l) <= select(t) - l
  {
    forall j | j in Partners(x, l) ensures j in select(t) && j !in l {
      PartnerSelected(x, l, {}, j);
      AtStart(t, select, process, x, j);
    }
  }

  lemma DueSelected(t: Tables, select: Selection, process: Process, x: Pattern, chosen: set<Id>)
    requires Follows(t, select, process, x) && chosen <= select(t)
    ensures AllSelected(x, {}, chosen)
  {
    forall k: Id | k in chosen ensures Selected(x, {}, k) {
      AtStart(t, select, process, x, k);
    }
  }

  /** Of a set with partners in it: a batch that holds all others, filled up with partners. */
  lemma OthersFirst(partners: set<Id>, all: set<Id>, batch: nat) returns (chosen: set<Id>)
    requires partners <= all && batch <= |all| <= |partners| + batch
    ensures chosen <= all && |chosen| == batch && all - chosen <= partners && |all - chosen| == |all| - batch
  {
    SubsetSize(partners, all);
    SubsetSize(all - partners, all);
    chosen := SetBetween(all - partners, all, batch);
    SubsetSize(chosen, all);
  }

  lemma NoBatches(t: Tables, select: Selection, process: Process, x: Pattern, l: set<Id>, batch: nat)
    ensures Leads(t, select, process, x, l, batch, [], {})
  {
    assert Flatten([]) == [] && Members([]) == {};
  }

  /** The first of these batches. */
  lemma LeadBatch(t: Tables, select: Selection, process: Process, x: Pattern, l: set<Id>, batch: nat, all: set<Id>)
    returns (lead: seq<seq<Id>>, done: set<Id>)
    requires Follows(t, select, process, x) && 0 < batch <= |all| <= |Partners(x, l)| + batch
    requires Partners(x, l) <= all <= select(t) - l
    ensures Leads(t, select, process, x, l, batch, lead, done)
    ensures done <= all && all - done <= Partners(x, l) && |all - done| == |all| - batch
  {
    done := OthersFirst(Partners(x, l), all, batch);
    DueSelected(t, select, process, x, done);
    NoBatches(t, select, process, x, l, batch);
    lead := FullBatch(t, select, process, x, l, batch, [], {}, done);
    assert {} + done == done;
  }

  /** A run's first batches: rows outside the set, all its partners among them, the others in the first batch. */
  lemma Lead(t: Tables, select: Selection, process: Process, x: Pattern, l: set<Id>, batch: nat, n: nat)
    returns (lead: seq<seq<Id>>, all: set<Id>)
    requires Follows(t, select, process, x) && batch > 0 && n > 0
    requires |Partners(x, l)| <= Times(n, batch) < |Partners(x, l)| + batch && Times(n, batch) <= |select(t) - l|
    ensures Leads(t, select, process, x, l, batch, lead, all) && Partners(x, l) <= all
  {
    PartnersDue(t, select, process, x, l);
    all := SetBetween(Partners(x, l), select(t) - l, Times(n, batch));
    var done;
    lead, done := LeadBatch(t, select, process, x, l, batch, all);
    lead := PartnerBatches(t, select, process, x, l, batch, lead, done, all, n - 1);
  }

  lemma DueHasPartner(t: Tables, select: Selection, process: Process, x: Pattern, l: set<Id>, k: Id)
    requires Follows(t, select, process, x) && Sealed(x, l) && k in l && k in select(t)
    ensures |Partners(x, l)| > 0
  {
    AtStart(t, select, process, x, k);
    if Partners(x, l) == {} { SealedNotSelected(x, l, {}, k); }
  }

  /** A due row of a sealed set is lost with any batch size for which its partners, rounded up to whole batches, are no
      more than the due rows outside. */
  lemma SealedIsLost(t: Tables, select: Selection, process: Process, pending: Selection, fit: Tables -> bool,
                     x: Pattern, l: set<Id>, k: Id, batch: nat, m: nat)
    returns (batches: seq<seq<Id>>)
    requires Stamps(select, process, pending, fit) && fit(t) && Follows(t, select, process, x)
    requires Sealed(x, l) && k in l && k in select(t) && batch > 0
    requires |Partners(x, l)| <= m * batch <= |select(t) - l|
    ensures Drained(t, select, process, batch, batches) && k !in Flatten(batches)
  {
    DueHasPartner(t, select, process, x, l, k);
    TimesIs(m, batch);
    var n := FewestBatches(|Partners(x, l)|, batch, m);
    var lead, done := Lead(t, select, process, x, l, batch, n);
    var rest := CompletedAfter(t, select, process, pending, fit, x, l, batch, lead);
    JoinRuns(t, select, process, batch, lead, rest);
    RestAvoids(t, select, process, x, l, Flatten(lead), batch, rest, |rest|);
    AllBatches(rest);
    batches := lead + rest;
    assert k in l && k !in Members(Flatten(batches));
  }

  lemma CompletedAfter(t: Tables, select: Selection, process: Process, pending: Selection, fit: Tables -> bool,
                       x: Pattern, l: set<Id>, batch: nat, lead: seq<seq<Id>>)
    returns (rest: seq<seq<Id>>)
    requires Stamps(select, process, pending, fit) && fit(t) && batch > 0 && Fetched(t, select, process, batch, lead)
    ensures Drained(ProcessAll(t, process, Flatten(lead)), select, process, batch, rest)
  {
    StampedPrefix(t, select, process, pending, fit, batch, lead, |lead|);
    AllBatches(lead);
    rest := Completed(ProcessAll(t, process, Flatten(lead)), select, process, pending, fit, batch);
  }

  // ----- complete whatever the batches ---------------------------------------

  /** Every complete run, of whatever batch size, processes every due row. */
  ghost predicate AlwaysComplete(t: Tables, select: Selection, process: Process) {
    forall batch: nat, batches: seq<seq<Id>> :: batch > 0 && Drained(t, select, process, batch, batches) ==>
      select(t) <= Members(Flatten(batches))
  }

  ghost predicate InSealed(x: Pattern, k: Id) {
    exists l: set<Id> :: k in l && Sealed(x, l)
  }

  /** Exactly when a pass is complete whatever the batches: when no due row lies in a sealed set. */
  lemma CompleteIff(t: Tables, select: Selection, process: Process, pending: Selection, fit: Tables -> bool, x: Pattern)
    requires Stamps(select, process, pending, fit) && fit(t) && Follows(t, select, process, x)
    ensures AlwaysComplete(t, select, process) <==> forall k :: k in select(t) ==> !InSealed(x, k)
  {
    forall k | k in select(t) && InSealed(x, k) ensures !AlwaysComplete(t, select, process) {
      var batches := LostOneByOne(t, select, process, pending, fit, x, k);
    }
    forall batch: nat, batches: seq<seq<Id>>, k | batch > 0 && Drained(t, select, process, batch, batches) &&
      k in select(t) && k !in Flatten(batches)
      ensures InSealed(x, k)
    {
      LostInSealed(t, select, process, x, batch, batches, k);
    }
  }

  lemma LostInSealed(t: Tables, select: Selection, process: Process, x: Pattern, batch: nat, batches: seq<seq<Id>>,
                     k: Id)
    requires Follows(t, select, process, x) && Drained(t, select, process, batch, batches)
    requires k in select(t) && k !in Flatten(batches)
    ensures InSealed(x, k)
  {
    LeftIsSealed(t, select, process, x, batch, batches);
    AtStart(t, select, process, x, k);
    assert k in x.rows - Members(Flatten(batches));
  }

  lemma LostOneByOne(t: Tables, select: Selection, process: Process, pending: Selection, fit: Tables -> bool,
                     x: Pattern, k: Id)
    returns (batches: seq<seq<Id>>)
    requires Stamps(select, process, pending, fit) && fit(t) && Follows(t, select, process, x)
    requires k in select(t) && InSealed(x, k)
    ensures Drained(t, select, process, 1, batches) && k !in Flatten(batches)
  {
    var l: set<Id> :| k in l && Sealed(x, l);
    PartnersDue(t, select, process, x, l);
    SubsetSize(Partners(x, l), select(t) - l);
    batches := SealedIsLost(t, select, process, pending, fit, x, l, k, 1, |Partners(x, l)|);
  }

  // ----- one batch size, where no pair starts to be wanted -------------------

  ghost predicate NothingJoins(x: Pattern) {
    forall j: Id, p: Id :: !x.joins(j, p)
  }

  lemma SelectedEarlier(x: Pattern, done: set<Id>, k: Id)
    requires NothingJoins(x) && Selected(x, done, k)
    ensures Selected(x, {}, k)
  {
    var p: Id :| p in x.pairsOf(k) && WantedAfter(x, done, p);
    assert WantedAfter(x, {}, p);
  }

  /** A row of a sealed set is sealed alone. */
  lemma SealedAlone(x: Pattern, k: Id)
    requires NothingJoins(x) && InSealed(x, k)
    ensures Sealed(x, {k})
  {
    var l: set<Id> :| k in l && Sealed(x, l);
    forall p: Id | p in x.pairsOf(k) ensures SealedPair(x, {k}, p) {
      assert SealedPair(x, l, p);
      if x.wanted(p) {
        var j: Id :| Outside(x, l, j) && x.moves(j, p);
        assert Outside(x, {k}, j);
      }
    }
  }

  lemma BatchWasDue(t: Tables, select: Selection, process: Process, x: Pattern, done: seq<Id>, ids: seq<Id>)
    requires Follows(t, select, process, x) && NothingJoins(x) && Avoids(x, {}, done)
    requires Members(ids) <= select(ProcessAll(t, process, done))
    ensures Members(ids) <= select(t)
  {
    assert FollowsAt(t, select, process, x, done);
    forall k | k in Members(ids) ensures k in select(t) {
      SelectedEarlier(x, Members(done), k);
      AtStart(t, select, process, x, k);
    }
  }

  lemma {:induction false} RunWasDue(t: Tables, select: Selection, process: Process, x: Pattern, batch: nat,
                                     batches: seq<seq<Id>>, i: nat)
    requires Follows(t, select, process, x) && NothingJoins(x)
    requires Fetched(t, select, process, batch, batches) && i <= |batches|
    ensures Members(Flatten(batches[..i])) <= select(t)
  {
    if i > 0 {
      RunWasDue(t, select, process, x, batch, batches, i - 1);
      RunWithin(t, select, process, x, batch, batches, i - 1);
      assert FetchedAt(t, select, process, batch, batches, i - 1);
      BatchWasDue(t, select, process, x, Flatten(batches[..i - 1]), batches[i - 1]);
      BeforeNext(t, process, batches, i - 1);
      MembersConcat(Flatten(batches[..i - 1]), batches[i - 1]);
    }
  }

  /** The row is selected when each of the first i batches is fetched. */
  ghost predicate Remains(t: Tables, select: Selection, process: Process, batches: seq<seq<Id>>, k: Id, i: nat)
    requires i <= |batches|
  {
    forall j :: 0 <= j < i ==> k in select(Before(t, process, batches, j))
  }

  lemma {:induction false} FirstGone(t: Tables, select: Selection, process: Process, batches: seq<seq<Id>>, k: Id,
                                     n: nat)
    returns (i: nat)
    requires n <= |batches| && k !in select(Before(t, process, batches, n))
    ensures i <= n && k !in select(Before(t, process, batches, i)) && Remains(t, select, process, batches, k, i)
  {
    if j: nat :| j < n && k !in select(Before(t, process, batches, j)) {
      i := FirstGone(t, select, process, batches, k, j);
    } else {
      i := n;
    }
  }

  /** A fetch that leaves a selected row out is full. */
  lemma FetchIsFull(ids: seq<Id>, selected: set<Id>, batch: nat, k: Id)
    requires IsFetch(ids, selected, batch) && k in selected && k !in ids
    ensures |ids| == batch
  {
    DistinctSize(ids);
    assert k !in Members(ids) && |Members(ids) + {k}| == |ids| + 1;
    SubsetSize(Members(ids) + {k}, selected);
  }

  lemma {:induction false} FullSoFar(t: Tables, select: Selection, process: Process, batch: nat, batches: seq<seq<Id>>,
                                     k: Id, i: nat)
    requires Fetched(t, select, process, batch, batches) && i <= |batches|
    requires Remains(t, select, process, batches, k, i) && k !in Flatten(batches)
    ensures |Flatten(batches[..i])| == Times(i, batch)
  {
    if i > 0 {
      FullSoFar(t, select, process, batch, batches, k, i - 1);
      assert FetchedAt(t, select, process, batch, batches, i - 1);
      if k in batches[i - 1] { InFlatten(batches, i - 1, k); }
      FetchIsFull(batches[i - 1], select(Before(t, process, batches, i - 1)), batch, k);
      BeforeNext(t, process, batches, i - 1);
    }
  }

  /** Rows that take an unprocessed row out of the selection make it a sealed set and include all its partners. */
  lemma GoneIsSealed(x: Pattern, done: set<Id>, k: Id)
    requires WellFormed(x) && NothingJoins(x) && done <= x.rows && k in x.rows && k !in done && !Selected(x, done, k)
    ensures Sealed(x, {k}) && Partners(x, {k}) <= done
  {
    forall p: Id | p in x.pairsOf(k) && x.wanted(p) ensures MovedBy(x, done, p) {
      assert !WantedAfter(x, done, p);
    }
    forall p: Id | p in x.pairsOf(k) ensures SealedPair(x, {k}, p) {
      if x.wanted(p) {
        var j: Id :| j in done && x.moves(j, p);
        assert Outside(x, {k}, j);
      }
    }
    forall j | j in Partners(x, {k}) ensures j in done {
      var p: Id :| p in x.pairsOf(k) && x.wanted(p) && x.moves(j, p);
      var i: Id :| i in done && x.moves(i, p);
      assert p in x.pairsOf(i) && p in x.pairsOf(j) && p in x.pairsOf(k);
    }
  }

  /** Some number of full batches holds that many of so many rows and leaves one out. */
  ghost predicate FullBatchesHold(some: nat, batch: nat, rows: nat) {
    exists m: nat :: some <= m * batch < rows
  }

  /** Processed rows of which there are so many full batches, and one that was due but is not selected any more. */
  lemma GoneAfterFull(t: Tables, select: Selection, process: Process, x: Pattern, batch: nat, ids: seq<Id>, k: Id,
                      i: nat)
    requires Follows(t, select, process, x) && NothingJoins(x) && Avoids(x, {}, ids) && Members(ids) <= select(t)
    requires k in select(t) && k !in ids && k !in select(ProcessAll(t, process, ids)) && |ids| == Times(i, batch)
    ensures Sealed(x, {k}) && FullBatchesHold(|Partners(x, {k})|, batch, |select(t)|)
  {
    AtStart(t, select, process, x, k);
    assert FollowsAt(t, select, process, x, ids) && k !in Members(ids);
    GoneIsSealed(x, Members(ids), k);
    DistinctSize(ids);
    SubsetSize(Partners(x, {k}), Members(ids));
    SubsetSize(Members(ids) + {k}, select(t));
    TimesIs(i, batch);
    assert |Partners(x, {k})| <= i * batch < |select(t)|;
  }

  lemma LostIsExposed(t: Tables, select: Selection, process: Process, x: Pattern, batch: nat, batches: seq<seq<Id>>,
                      k: Id)
    requires Follows(t, select, process, x) && NothingJoins(x) && Drained(t, select, process, batch, batches)
    requires k in select(t) && k !in Flatten(batches)
    ensures Sealed(x, {k}) && FullBatchesHold(|Partners(x, {k})|, batch, |select(t)|)
  {
    AllBatches(batches);
    var i := FirstGone(t, select, process, batches, k, |batches|);
    FullSoFar(t, select, process, batch, batches, k, i);
    RunWithin(t, select, process, x, batch, batches, i);
    RunWasDue(t, select, process, x, batch, batches, i);
    if k in Flatten(batches[..i]) { InPrefix(batches, i, k); }
    GoneAfterFull(t, select, process, x, batch, Flatten(batches[..i]), k, i);
  }

  lemma {:induction false} InPrefix(batches: seq<seq<Id>>, i: nat, k: Id)
    requires i <= |batches| && k in Flatten(batches[..i])
    ensures k in Flatten(batches)
  {
    if i == |batches| {
      AllBatches(batches);
    } else {
      var front := batches[..|batches| - 1];
      assert front[..i] == batches[..i];
      InPrefix(front, i, k);
    }
  }

  /** Every complete run with this batch size processes exactly the due rows. */
  ghost predicate CompleteWith(t: Tables, select: Selection, process: Process, batch: nat) {
    forall batches: seq<seq<Id>> :: Drained(t, select, process, batch, batches) ==>
      Members(Flatten(batches)) == select(t)
  }

  /** A due row that others can take out of the selection, whose partners fit into full batches that leave it out. */
  ghost predicate LosableWith(x: Pattern, due: set<Id>, batch: nat, k: Id) {
    k in due && Sealed(x, {k}) && FullBatchesHold(|Partners(x, {k})|, batch, |due|)
  }

  lemma LosableIsLost(t: Tables, select: Selection, process: Process, pending: Selection, fit: Tables -> bool,
                      x: Pattern, batch: nat, k: Id)
    requires Stamps(select, process, pending, fit) && fit(t) && Follows(t, select, process, x) && batch > 0
    requires LosableWith(x, select(t), batch, k)
    ensures !CompleteWith(t, select, process, batch)
  {
    var m: nat :| |Partners(x, {k})| <= m * batch < |select(t)|;
    SubsetSize({k}, select(t));
    var batches := SealedIsLost(t, select, process, pending, fit, x, {k}, k, batch, m);
    assert k !in Members(Flatten(batches));
  }

  /** Exactly when a pass in which no pair starts to be wanted is complete with one batch size. */
  lemma BatchCompleteIff(t: Tables, select: Selection, process: Process, pending: Selection, fit: Tables -> bool,
                         x: Pattern, batch: nat)
    requires Stamps(select, process, pending, fit) && fit(t) && Follows(t, select, process, x) && NothingJoins(x)
    requires batch > 0
    ensures CompleteWith(t, select, process, batch) <==> forall k :: !LosableWith(x, select(t), batch, k)
  {
    if k :| LosableWith(x, select(t), batch, k) {
      LosableIsLost(t, select, process, pending, fit, x, batch, k);
    } else {
      forall batches: seq<seq<Id>> | Drained(t, select, process, batch, batches)
        ensures Members(Flatten(batches)) == select(t)
      {
        RunWasDue(t, select, process, x, batch, batches, |batches|);
        AllBatches(batches);
        forall k | k in select(t) ensures k in Members(Flatten(batches)) {
          if k !in Flatten(batches) {
            LostIsExposed(t, select, process, x, batch, batches, k);
            assert LosableWith(x, select(t), batch, k);
          }
        }
      }
    }
  }
}
