/** Exactly which due rows the review pass of lib/pipeline.ts can lose, where the pairs it judges store current keys. */
module ReviewLosses {
  // Judging a pair with a flagged token comes to its scam branch before it asks for a vouching sibling, so the verdict
  // is the same whenever it is judged. A scan that flags a token therefore moves each of its pairs to a status known at
  // the start: out of review, or into it.

  import opened Wrappers
  import opened JsString
  import opened Verdict
  import opened Tables
  import opened Passes
  import opened Drain
  import opened DrainLosses
  import opened LossPattern
  import opened FixedVerdicts
  import opened SettlingTables
  import Trust

  // ----- one scan ------------------------------------------------------------

  /** The verdict of the pair once a token of it is flagged. */
  function FlaggedVerdict(f: Feed, t: Tables, p: Id): Status
    requires Loadable(t, p)
  {
    VerdictGiven(t, f.w, p, f.now, true, t.tokens[t.pairs[p].token0].identityConfirmed,
      t.tokens[t.pairs[p].token1].identityConfirmed)
  }

  /** Scanning the token flags it, and so has the engine judge the pair. */
  predicate Scanned(f: Feed, t: Tables, j: Id, p: Id) {
    p in PairsOf(t, j) && Flags(f, t, j) && !IsManual(t.pairs[p].status)
  }

  /** Every pair that a flagging scan would have the engine judge stores the key its tokens have now. */
  ghost predicate ScansCurrent(f: Feed, t: Tables) {
    forall j, p :: Scanned(f, t, j, p) ==> !IsStale(t, p)
  }

  ghost predicate SameConfirmed(t: Tables, u: Tables) {
    forall k :: k in t.tokens ==> k in u.tokens && t.tokens[k].identityConfirmed == u.tokens[k].identityConfirmed
  }

  lemma FlaggedVerdictSame(f: Feed, t: Tables, u: Tables, p: Id)
    requires SameView(t, u) && SameConfirmed(t, u) && Loadable(t, p)
    ensures Loadable(u, p) && FlaggedVerdict(f, t, p) == FlaggedVerdict(f, u, p)
  {
    assert SamePairFacts(t.pairs[p], u.pairs[p]);
    GivenSame(t, u, f.w, p, f.now, true, t.tokens[t.pairs[p].token0].identityConfirmed,
      t.tokens[t.pairs[p].token1].identityConfirmed);
  }

  lemma ScannedSame(f: Feed, t: Tables, u: Tables, j: Id, p: Id)
    requires SameView(t, u) && p in t.pairs
    ensures Scanned(f, t, j, p) <==> Scanned(f, u, j, p)
  {
    ViewPairsOf(t, u, j);
    assert SamePairFacts(t.pairs[p], u.pairs[p]);
    if j in t.tokens { assert SameFacts(t.tokens[j], u.tokens[j]); }
  }

  /** The tables with the answer stored, before the token's pairs are judged. */
  function Answered(f: Feed, t: Tables, j: Id): Tables
    requires j in t.tokens
  {
    t.(tokens := t.tokens[j := WithScamAnswer(t.tokens[j], f.now, f.security(j), f.honeypot(j))])
  }

  lemma ScanPairs(f: Feed, t: Tables, j: Id)
    ensures Flags(f, t, j) ==>
      ReviewProcess(f)(t, j).pairs == RunAll(Answered(f, t, j), f.w, f.listing(t, j), f.now).pairs
    ensures !Flags(f, t, j) ==> ReviewProcess(f)(t, j).pairs == t.pairs
  {
    ReviewScanRow(f, t, j);
    var order := f.listing(t, j);
    assert ScamProcess(f)(t, j) == ScamCheck(t, f.w, j, f.now, f.security(j), f.honeypot(j), order);
  }

  lemma CurrentSame(f: Feed, t: Tables, u: Tables)
    requires SameView(t, u) && ScansCurrent(f, t)
    ensures ScansCurrent(f, u)
  {
    forall j, p | Scanned(f, u, j, p) ensures !IsStale(u, p) {
      ScannedSame(f, t, u, j, p);
      ViewStale(t, u, p);
    }
  }

  lemma AnsweredView(f: Feed, t: Tables, j: Id)
    requires j in t.tokens
    ensures SameView(t, Answered(f, t, j)) && SameConfirmed(t, Answered(f, t, j))
  {
    forall p | p in t.pairs ensures SamePairFacts(t.pairs[p], t.pairs[p]) {
    }
  }

  /** The pairs judged after a flagging answer store current keys. */
  lemma AnsweredCurrent(f: Feed, t: Tables, j: Id)
    requires ScansCurrent(f, t) && FullListing(f) && Flags(f, t, j)
    ensures forall q :: q in f.listing(t, j) ==> !IsStale(Answered(f, t, j), q)
  {
    var order := f.listing(t, j);
    assert Lists(order, PairsOf(t, j));
    AnsweredView(f, t, j);
    forall q | q in order ensures !IsStale(Answered(f, t, j), q) {
      ViewStale(t, Answered(f, t, j), q);
      if IsStale(t, q) { assert Scanned(f, t, j, q); }
    }
  }

  /** A scan changes no fact and no stored key. */
  lemma ScanView(f: Feed, t: Tables, j: Id)
    requires ScansCurrent(f, t) && FullListing(f)
    ensures SameView(t, ReviewProcess(f)(t, j)) && SameConfirmed(t, ReviewProcess(f)(t, j))
  {
    var u := ReviewProcess(f)(t, j);
    ScanTokens(f, t, j);
    ScanPairs(f, t, j);
    ViewSelf(t);
    if Flags(f, t, j) {
      AnsweredView(f, t, j);
      AnsweredCurrent(f, t, j);
      RunAllView(Answered(f, t, j), f.w, f.listing(t, j), f.now);
      ViewChain(t, Answered(f, t, j), RunAll(Answered(f, t, j), f.w, f.listing(t, j), f.now));
    }
  }

  predicate SameToken(r: TokenRow, s: TokenRow) {
    SameFacts(r, s) && r.identityConfirmed == s.identityConfirmed
  }

  lemma ScannedToken(f: Feed, t: Tables, j: Id)
    ensures var u := ReviewProcess(f)(t, j); j in t.tokens ==> j in u.tokens && SameToken(t.tokens[j], u.tokens[j])
  {
    ReviewScanRow(f, t, j);
    ScamCheckRow(f, t, j);
  }

  lemma OtherToken(t: Tables, u: Tables, j: Id, k: Id)
    requires OthersKept(t, u, j) && k in t.tokens && k != j
    ensures SameToken(t.tokens[k], u.tokens[k])
  {
    assert SameTokenInputs(t.tokens[k], u.tokens[k]);
  }

  lemma ScanTokens(f: Feed, t: Tables, j: Id)
    ensures var u := ReviewProcess(f)(t, j);
      u.tokens.Keys == t.tokens.Keys && forall k :: k in t.tokens ==> SameToken(t.tokens[k], u.tokens[k])
  {
    var u := ReviewProcess(f)(t, j);
    ReviewScanRow(f, t, j);
    ScannedToken(f, t, j);
    forall k | k in t.tokens ensures SameToken(t.tokens[k], u.tokens[k]) {
      if k != j { OtherToken(t, u, j, k); }
    }
  }

  lemma AnsweredVote(f: Feed, t: Tables, j: Id, p: Id)
    requires Trust.Linked(t) && Scanned(f, t, j, p)
    ensures var s := Answered(f, t, j);
      Judgeable(s, p) && VoteIrrelevant(s, f.w, p, f.now) &&
        VerdictWith(s, f.w, p, f.now, false).verdict == FlaggedVerdict(f, t, p)
  {
    var s := Answered(f, t, j);
    assert Loadable(t, p) && s.tokens[j].isScamFlagged;
    AnsweredView(f, t, j);
    ViewLoadable(t, s, p);
    FlaggedVote(s, f.w, p, f.now);
    WithIsGiven(s, f.w, p, f.now);
    FlaggedVerdictSame(f, t, s, p);
  }

  /** One scan: the pairs of a flagged token get the verdict of a pair with a flagged token, operators' pairs apart. */
  lemma ScanEffect(f: Feed, t: Tables, j: Id, p: Id)
    requires Trust.Linked(t) && ScansCurrent(f, t) && FullListing(f) && p in t.pairs
    ensures var u := ReviewProcess(f)(t, j);
      p in u.pairs && u.pairs[p].status == if Scanned(f, t, j, p) then FlaggedVerdict(f, t, p) else t.pairs[p].status
  {
    ScanPairs(f, t, j);
    if Scanned(f, t, j, p) {
      var order := f.listing(t, j);
      assert Lists(order, PairsOf(t, j));
      AnsweredVote(f, t, j, p);
      AnsweredCurrent(f, t, j);
      FixedVerdict(Answered(f, t, j), f.w, order, f.now, p);
    } else if Flags(f, t, j) {
      Untouched(f, Review, t, j, p);
    }
  }

  // ----- any scans -----------------------------------------------------------

  ghost predicate ScannedBy(f: Feed, t: Tables, ids: set<Id>, p: Id) {
    exists j :: j in ids && Scanned(f, t, j, p)
  }

  /** The status of a pair after scans, in terms of the tables before them. */
  ghost function StatusAfter(f: Feed, t: Tables, ids: set<Id>, p: Id): Status
    requires Loadable(t, p)
  {
    if ScannedBy(f, t, ids, p) then FlaggedVerdict(f, t, p) else t.pairs[p].status
  }

  lemma ScannedByMore(f: Feed, t: Tables, ids: set<Id>, last: Id, p: Id)
    ensures ScannedBy(f, t, ids + {last}, p) <==> ScannedBy(f, t, ids, p) || Scanned(f, t, last, p)
  {
  }

  /** After any scans whatever: the facts, and the status of every pair. */
  lemma {:induction false} ScansEffect(f: Feed, t: Tables, ids: seq<Id>, p: Id)
    requires Trust.Linked(t) && ScansCurrent(f, t) && FullListing(f) && p in t.pairs
    ensures var u := ProcessAll(t, ReviewProcess(f), ids);
      && SameView(t, u) && SameConfirmed(t, u) && Loadable(t, p)
      && p in u.pairs && u.pairs[p].status == StatusAfter(f, t, Members(ids), p)
  {
    assert Loadable(t, p);
    if ids == [] {
      ViewSelf(t);
    } else {
      var front, last := ids[..|ids| - 1], ids[|ids| - 1];
      var before := ProcessAll(t, ReviewProcess(f), front);
      assert ids == front + [last];
      MembersConcat(front, [last]);
      assert Members([last]) == {last};
      ScansEffect(f, t, front, p);
      ScansStep(f, t, before, last, p);
      ScannedByMore(f, t, Members(front), last, p);
    }
  }

  lemma ScansStep(f: Feed, t: Tables, before: Tables, last: Id, p: Id)
    requires Trust.Linked(t) && ScansCurrent(f, t) && FullListing(f) && p in t.pairs
    requires SameView(t, before) && SameConfirmed(t, before)
    ensures var u := ReviewProcess(f)(before, last);
      && SameView(t, u) && SameConfirmed(t, u) && Loadable(t, p) && p in u.pairs && p in before.pairs
      && u.pairs[p].status == if Scanned(f, t, last, p) then FlaggedVerdict(f, t, p) else before.pairs[p].status
  {
    var u := ReviewProcess(f)(before, last);
    assert Loadable(t, p);
    CurrentSame(f, t, before);
    ViewLinked(t, before);
    ScanView(f, before, last);
    ViewChain(t, before, u);
    ScanEffect(f, before, last, p);
    ScannedSame(f, t, before, last, p);
    FlaggedVerdictSame(f, t, before, p);
  }

  lemma ReviewPendingAfterOne(f: Feed, t: Tables, j: Id)
    requires f.cutoff <= f.now
    ensures ReviewPending(f)(ReviewProcess(f)(t, j)) == ReviewPending(f)(t) - {j}
  {
    ReviewScanRow(f, t, j);
    PendingAfter(t, ReviewProcess(f)(t, j), j);
  }

  lemma {:induction false} ReviewPendingAfter(f: Feed, t: Tables, ids: seq<Id>)
    requires f.cutoff <= f.now
    ensures ReviewPending(f)(ProcessAll(t, ReviewProcess(f), ids)) == ReviewPending(f)(t) - Members(ids)
  {
    if ids != [] {
      var front, last := ids[..|ids| - 1], ids[|ids| - 1];
      ReviewPendingAfter(f, t, front);
      ReviewPendingAfterOne(f, ProcessAll(t, ReviewProcess(f), front), last);
      assert ids == front + [last];
      MembersConcat(front, [last]);
    }
  }

  ghost predicate InReviewAfter(f: Feed, t: Tables, ids: set<Id>, p: Id) {
    Loadable(t, p) && StatusAfter(f, t, ids, p) == NeedsReview
  }

  lemma WantedAfterScans(f: Feed, t: Tables, ids: seq<Id>, k: Id)
    requires Trust.Linked(t) && ScansCurrent(f, t) && FullListing(f)
    ensures HasWanted(f, Review, ProcessAll(t, ReviewProcess(f), ids), k)
      <==> exists p :: p in PairsOf(t, k) && InReviewAfter(f, t, Members(ids), p)
  {
    var u := ProcessAll(t, ReviewProcess(f), ids);
    SamePairsThroughout(f, Review, t, ids, k);
    assert PairsOf(u, k) == PairsOf(t, k);
    forall p | p in PairsOf(t, k)
      ensures p in u.pairs && (Wanted(f, Review, u.pairs[p]) <==> InReviewAfter(f, t, Members(ids), p))
    {
      ScansEffect(f, t, ids, p);
    }
  }

  /** The review selection after any scans, in terms of the tables before them: the pending rows not among these with a
      pair in review, where a pair that a scan judged is in review when its verdict with a flagged token is. */
  lemma ReviewSelectionAfter(f: Feed, t: Tables, ids: seq<Id>, k: Id)
    requires f.cutoff <= f.now && Trust.Linked(t) && ScansCurrent(f, t) && FullListing(f)
    ensures k in DueForReviewScan(f)(ProcessAll(t, ReviewProcess(f), ids)) <==>
      k in ReviewPending(f)(t) && k !in ids && exists p :: p in PairsOf(t, k) && InReviewAfter(f, t, Members(ids), p)
  {
    var u := ProcessAll(t, ReviewProcess(f), ids);
    ReviewPendingAfter(f, t, ids);
    assert k in ReviewPending(f)(u) <==> k in u.tokens && RowDue(f, Review, u.tokens[k]);
    DueIff(f, Review, u, k);
    assert Due(f, Review)(u) == DueForReviewScan(f)(u);
    WantedAfterScans(f, t, ids, k);
    assert k in Members(ids) <==> k in ids;
  }

  // ----- when the review pass is complete ------------------------------------

  /** A pending token of the pair, none of these, whose scan has the engine judge it. */
  ghost predicate ScannedFromOutside(f: Feed, t: Tables, l: set<Id>, p: Id) {
    exists j :: j in ReviewPending(f)(t) && j !in l && Scanned(f, t, j, p)
  }

  /** If the pair is in review, a scan outside these tokens takes it out; and none brings it in. */
  ghost predicate ReviewSealedPair(f: Feed, t: Tables, l: set<Id>, p: Id) {
    && Loadable(t, p)
    && (t.pairs[p].status == NeedsReview ==> ScannedFromOutside(f, t, l, p) && FlaggedVerdict(f, t, p) != NeedsReview)
    && (FlaggedVerdict(f, t, p) == NeedsReview ==> !ScannedFromOutside(f, t, l, p))
  }

  ghost predicate ReviewSealed(f: Feed, t: Tables, l: set<Id>) {
    l <= ReviewPending(f)(t) && forall k, p :: k in l && p in PairsOf(t, k) ==> ReviewSealedPair(f, t, l, p)
  }

  ghost predicate InReviewSealed(f: Feed, t: Tables, k: Id) {
    exists l :: k in l && ReviewSealed(f, t, l)
  }

  ghost function ReviewPattern(f: Feed, t: Tables): Pattern {
    Pattern(ReviewPending(f)(t), (k: Id) => PairsOf(t, k), (p: Id) => p in t.pairs && t.pairs[p].status == NeedsReview,
      (j: Id, p: Id) => Scanned(f, t, j, p), (j: Id, p: Id) => Loadable(t, p) && FlaggedVerdict(f, t, p) == NeedsReview)
  }

  lemma ReviewPatternFits(f: Feed, t: Tables)
    ensures WellFormed(ReviewPattern(f, t))
  {
  }

  lemma InReviewIsWanted(f: Feed, t: Tables, done: set<Id>, p: Id)
    requires Loadable(t, p)
    ensures InReviewAfter(f, t, done, p) <==> WantedAfter(ReviewPattern(f, t), done, p)
  {
    var x := ReviewPattern(f, t);
    if ScannedBy(f, t, done, p) {
      var j :| j in done && Scanned(f, t, j, p);
      assert x.moves(j, p);
    }
    if MovedBy(x, done, p) {
      var j: Id :| j in done && x.moves(j, p);
      assert Scanned(f, t, j, p);
    }
  }

  lemma AnyInReview(f: Feed, t: Tables, done: set<Id>, k: Id)
    requires Trust.Linked(t)
    ensures HasWantedAfter(ReviewPattern(f, t), done, k) <==>
      exists p :: p in PairsOf(t, k) && InReviewAfter(f, t, done, p)
  {
    var x := ReviewPattern(f, t);
    forall p | p in PairsOf(t, k) ensures InReviewAfter(f, t, done, p) <==> WantedAfter(x, done, p) {
      assert Loadable(t, p);
      InReviewIsWanted(f, t, done, p);
    }
    if HasWantedAfter(x, done, k) {
      var p: Id :| p in x.pairsOf(k) && WantedAfter(x, done, p);
      assert p in PairsOf(t, k) && InReviewAfter(f, t, done, p);
    }
  }

  lemma ReviewFollowsAt(f: Feed, t: Tables, ids: seq<Id>)
    requires f.cutoff <= f.now && Trust.Linked(t) && ScansCurrent(f, t) && FullListing(f)
    ensures FollowsAt(t, DueForReviewScan(f), ReviewProcess(f), ReviewPattern(f, t), ids)
  {
    var x := ReviewPattern(f, t);
    forall k: Id
      ensures k in DueForReviewScan(f)(ProcessAll(t, ReviewProcess(f), ids)) <==> Selected(x, Members(ids), k)
    {
      ReviewSelectionAfter(f, t, ids, k);
      AnyInReview(f, t, Members(ids), k);
    }
  }

  lemma ReviewFollows(f: Feed, t: Tables)
    requires f.cutoff <= f.now && Trust.Linked(t) && ScansCurrent(f, t) && FullListing(f)
    ensures Follows(t, DueForReviewScan(f), ReviewProcess(f), ReviewPattern(f, t))
  {
    ReviewPatternFits(f, t);
    forall ids: seq<Id> ensures FollowsAt(t, DueForReviewScan(f), ReviewProcess(f), ReviewPattern(f, t), ids) {
      ReviewFollowsAt(f, t, ids);
    }
  }

  lemma ReviewSealedPairIs(f: Feed, t: Tables, l: set<Id>, p: Id)
    requires Loadable(t, p)
    ensures ReviewSealedPair(f, t, l, p) <==> SealedPair(ReviewPattern(f, t), l, p)
  {
    var x := ReviewPattern(f, t);
    if ScannedFromOutside(f, t, l, p) {
      var j :| j in ReviewPending(f)(t) && j !in l && Scanned(f, t, j, p);
      assert Outside(x, l, j) && x.moves(j, p);
    }
    if j: Id :| Outside(x, l, j) && x.moves(j, p) {
      assert j in ReviewPending(f)(t) && j !in l && Scanned(f, t, j, p);
    }
  }

  lemma SealedFromReview(f: Feed, t: Tables, l: set<Id>)
    requires ReviewSealed(f, t, l)
    ensures Sealed(ReviewPattern(f, t), l)
  {
    forall k: Id, p: Id | k in l && p in PairsOf(t, k) ensures SealedPair(ReviewPattern(f, t), l, p) {
      assert ReviewSealedPair(f, t, l, p);
      ReviewSealedPairIs(f, t, l, p);
    }
  }

  lemma ReviewFromSealed(f: Feed, t: Tables, l: set<Id>)
    requires Trust.Linked(t) && Sealed(ReviewPattern(f, t), l)
    ensures ReviewSealed(f, t, l)
  {
    forall k, p | k in l && p in PairsOf(t, k) ensures ReviewSealedPair(f, t, l, p) {
      assert p in ReviewPattern(f, t).pairsOf(k) && Loadable(t, p);
      ReviewSealedPairIs(f, t, l, p);
    }
  }

  lemma InReviewSealedIs(f: Feed, t: Tables, k: Id)
    requires Trust.Linked(t)
    ensures InReviewSealed(f, t, k) <==> InSealed(ReviewPattern(f, t), k)
  {
    forall l: set<Id> ensures ReviewSealed(f, t, l) <==> Sealed(ReviewPattern(f, t), l) {
      if ReviewSealed(f, t, l) { SealedFromReview(f, t, l); }
      if Sealed(ReviewPattern(f, t), l) { ReviewFromSealed(f, t, l); }
    }
  }

  /** Exactly when the review pass is complete whatever the batches: when no due token lies in a sealed set. */
  lemma ReviewPassCompleteIff(f: Feed, t: Tables)
    requires f.cutoff <= f.now && Trust.Linked(t) && ScansCurrent(f, t) && FullListing(f)
    ensures AlwaysComplete(t, DueForReviewScan(f), ReviewProcess(f)) <==>
      forall k :: k in DueForReviewScan(f)(t) ==> !InReviewSealed(f, t, k)
  {
    ReviewFollows(f, t);
    ReviewPassStamps(f);
    CompleteIff(t, DueForReviewScan(f), ReviewProcess(f), ReviewPending(f), _ => true, ReviewPattern(f, t));
    forall k ensures InReviewSealed(f, t, k) <==> InSealed(ReviewPattern(f, t), k) {
      InReviewSealedIs(f, t, k);
    }
  }

  // ----- one batch size ------------------------------------------------------

  ghost predicate ScansOut(f: Feed, t: Tables, l: set<Id>, j: Id) {
    exists k, p :: k in l && p in PairsOf(t, k) && t.pairs[p].status == NeedsReview && Scanned(f, t, j, p)
  }

  /** The pending tokens outside these whose scans have the engine judge a pair of theirs in review. */
  ghost function Scanners(f: Feed, t: Tables, l: set<Id>): set<Id> {
    set j | j in ReviewPending(f)(t) && j !in l && ScansOut(f, t, l, j)
  }

  lemma ScannersAre(f: Feed, t: Tables, l: set<Id>)
    ensures Scanners(f, t, l) == Partners(ReviewPattern(f, t), l)
  {
    var x := ReviewPattern(f, t);
    forall j: Id ensures j !in l && ScansOut(f, t, l, j) <==> IsPartner(x, l, j) {
      if j !in l && ScansOut(f, t, l, j) {
        var k, p :| k in l && p in PairsOf(t, k) && t.pairs[p].status == NeedsReview && Scanned(f, t, j, p);
        assert p in x.pairsOf(k) && x.wanted(p) && x.moves(j, p);
      }
      if IsPartner(x, l, j) {
        var k: Id, p: Id :| k in l && p in x.pairsOf(k) && x.wanted(p) && x.moves(j, p);
        assert p in PairsOf(t, k) && t.pairs[p].status == NeedsReview && Scanned(f, t, j, p);
      }
    }
  }

  /** A due token of a sealed set is lost with every batch size for which the set's scanners, rounded up to whole
      batches, are no more than the due tokens outside it. */
  lemma ReviewLostWith(f: Feed, t: Tables, l: set<Id>, k: Id, batch: nat, m: nat) returns (batches: seq<seq<Id>>)
    requires f.cutoff <= f.now && Trust.Linked(t) && ScansCurrent(f, t) && FullListing(f) && batch > 0
    requires ReviewSealed(f, t, l) && k in l && k in DueForReviewScan(f)(t)
    requires |Scanners(f, t, l)| <= m * batch <= |DueForReviewScan(f)(t) - l|
    ensures Drained(t, DueForReviewScan(f), ReviewProcess(f), batch, batches) && k !in Flatten(batches)
  {
    ReviewFollows(f, t);
    ReviewPassStamps(f);
    SealedFromReview(f, t, l);
    ScannersAre(f, t, l);
    batches := SealedIsLost(t, DueForReviewScan(f), ReviewProcess(f), ReviewPending(f), _ => true, ReviewPattern(f, t),
      l, k, batch, m);
  }
}
