/** Exactly which due rows the identity pass of lib/pipeline.ts can lose, where the pairs it judges store current keys
    and no answer carries a coin id. */
module IdentityLosses {
  // A pair at least as deep as its source's floor keeps its tokens selected whatever its status. A shallower pair fails
  // the liquidity fence, so siblings do not matter, and its verdict depends only on which of its tokens are confirmed:
  // while one of them is unchecked, on that token's row and on the other's check.

  import opened Wrappers
  import opened JsString
  import opened Verdict
  import opened Tables
  import opened Passes
  import opened Drain
  import opened DrainLosses
  import opened LossPattern
  import opened FixedVerdicts
  import opened SettlingTables
  import Trust

  ghost predicate NoIdsFound(f: Feed) {
    forall k :: !Known(f.foundId(k))
  }

  // ----- one check -----------------------------------------------------------

  /** The verdict of the pair, by its tokens' rows, once token j is confirmed. */
  function ConfirmedVerdict(f: Feed, t: Tables, p: Id, j: Id): Status
    requires Loadable(t, p)
  {
    var a, b := t.pairs[p].token0, t.pairs[p].token1;
    VerdictGiven(t, f.w, p, f.now, t.tokens[a].isScamFlagged || t.tokens[b].isScamFlagged,
      a == j || t.tokens[a].identityConfirmed, b == j || t.tokens[b].identityConfirmed)
  }

  /** The check of the token confirms it, and so has the engine judge the pair. */
  predicate Checked(f: Feed, t: Tables, j: Id, p: Id) {
    p in PairsOf(t, j) && f.confirmed(j) && !IsManual(t.pairs[p].status)
  }

  /** Every pair that a confirming check would have the engine judge stores the key its tokens have now. */
  ghost predicate ChecksCurrent(f: Feed, t: Tables) {
    forall j, p :: Checked(f, t, j, p) ==> !IsStale(t, p)
  }

  lemma CheckedSame(f: Feed, t: Tables, u: Tables, j: Id, p: Id)
    requires SameView(t, u) && p in t.pairs
    ensures Checked(f, t, j, p) <==> Checked(f, u, j, p)
  {
    ViewPairsOf(t, u, j);
    assert SamePairFacts(t.pairs[p], u.pairs[p]);
  }

  lemma CurrentSame(f: Feed, t: Tables, u: Tables)
    requires SameView(t, u) && ChecksCurrent(f, t)
    ensures ChecksCurrent(f, u)
  {
    forall j, p | Checked(f, u, j, p) ensures !IsStale(u, p) {
      CheckedSame(f, t, u, j, p);
      ViewStale(t, u, p);
    }
  }

  /** The tables with the answer stored, before the token's pairs are judged. */
  function Stored(f: Feed, t: Tables, j: Id): Tables
    requires j in t.tokens
  {
    t.(tokens := t.tokens[j := WithIdentity(f, t.tokens[j], j)])
  }

  lemma CheckPairs(f: Feed, t: Tables, j: Id)
    requires j in t.tokens
    ensures RowDue(f, Identity, t.tokens[j]) && f.confirmed(j) ==>
      IdentityProcess(f)(t, j).pairs == RunAll(Stored(f, t, j), f.w, f.listing(t, j), f.now).pairs
    ensures !f.confirmed(j) ==> IdentityProcess(f)(t, j).pairs == t.pairs
    ensures IdentityProcess(f)(t, j).pairs in {t.pairs, RunAll(Stored(f, t, j), f.w, f.listing(t, j), f.now).pairs}
  {
    var order := f.listing(t, j);
    assert IdentityProcess(f)(t, j) == IdentityCheck(t, f.w, j, f.now, f.baseS, f.confirmed(j), f.foundId(j), order);
    BlankId();
  }

  lemma BlankId()
    ensures !HasCgId(Some([]))
  {
  }

  lemma StoredView(f: Feed, t: Tables, j: Id)
    requires j in t.tokens && NoIdsFound(f)
    ensures SameView(t, Stored(f, t, j))
  {
    ViewSelf(t);
    assert SameFacts(t.tokens[j], WithIdentity(f, t.tokens[j], j));
  }

  /** The pairs judged after a confirmation store current keys. */
  lemma StoredCurrent(f: Feed, t: Tables, j: Id)
    requires j in t.tokens && ChecksCurrent(f, t) && NoIdsFound(f) && FullListing(f) && f.confirmed(j)
    ensures forall q :: q in f.listing(t, j) ==> !IsStale(Stored(f, t, j), q)
  {
    var order := f.listing(t, j);
    assert Lists(order, PairsOf(t, j));
    StoredView(f, t, j);
    forall q | q in order ensures !IsStale(Stored(f, t, j), q) {
      ViewStale(t, Stored(f, t, j), q);
      if IsStale(t, q) { assert Checked(f, t, j, q); }
    }
  }

  lemma CheckedToken(f: Feed, t: Tables, j: Id)
    requires NoIdsFound(f) && j in t.tokens
    ensures var u := IdentityProcess(f)(t, j); j in u.tokens && SameFacts(t.tokens[j], u.tokens[j])
  {
    IdentityCheckRow(f, t, j);
    assert SameFacts(t.tokens[j], WithIdentity(f, t.tokens[j], j));
  }

  lemma OtherToken(t: Tables, u: Tables, j: Id, k: Id)
    requires OthersKept(t, u, j) && k in t.tokens && k != j
    ensures SameFacts(t.tokens[k], u.tokens[k])
  {
    assert SameTokenInputs(t.tokens[k], u.tokens[k]);
  }

  lemma CheckTokens(f: Feed, t: Tables, j: Id)
    requires NoIdsFound(f)
    ensures var u := IdentityProcess(f)(t, j);
      u.tokens.Keys == t.tokens.Keys && forall k :: k in t.tokens ==> SameFacts(t.tokens[k], u.tokens[k])
  {
    var u := IdentityProcess(f)(t, j);
    IdentityCheckRow(f, t, j);
    forall k | k in t.tokens ensures SameFacts(t.tokens[k], u.tokens[k]) {
      if k != j { OtherToken(t, u, j, k); } else { CheckedToken(f, t, j); }
    }
  }

  /** A check changes no fact and no stored key. */
  lemma CheckView(f: Feed, t: Tables, j: Id)
    requires ChecksCurrent(f, t) && NoIdsFound(f) && FullListing(f)
    ensures SameView(t, IdentityProcess(f)(t, j))
  {
    CheckTokens(f, t, j);
    ViewSelf(t);
    if j in t.tokens {
      CheckPairs(f, t, j);
      if f.confirmed(j) {
        StoredView(f, t, j);
        StoredCurrent(f, t, j);
        RunAllView(Stored(f, t, j), f.w, f.listing(t, j), f.now);
        ViewChain(t, Stored(f, t, j), RunAll(Stored(f, t, j), f.w, f.listing(t, j), f.now));
      }
    } else {
      IdentityCheckRow(f, t, j);
      var order := f.listing(t, j);
      assert IdentityProcess(f)(t, j) == IdentityCheck(t, f.w, j, f.now, f.baseS, f.confirmed(j), f.foundId(j), order);
    }
  }

  lemma {:induction false} ChecksView(f: Feed, t: Tables, ids: seq<Id>)
    requires ChecksCurrent(f, t) && NoIdsFound(f) && FullListing(f)
    ensures SameView(t, ProcessAll(t, IdentityProcess(f), ids))
  {
    if ids == [] {
      ViewSelf(t);
    } else {
      var before := ProcessAll(t, IdentityProcess(f), ids[..|ids| - 1]);
      ChecksView(f, t, ids[..|ids| - 1]);
      CurrentSame(f, t, before);
      CheckView(f, before, ids[|ids| - 1]);
      ViewChain(t, before, ProcessAll(t, IdentityProcess(f), ids));
    }
  }

  // ----- a shallow pair of an unchecked token --------------------------------

  predicate Shallow(f: Feed, p: PairRow) {
    p.reserveUsd < f.w.config(p.chain, p.dex).minLiquidityUsd
  }

  /** The pair's verdict in tables where token j has just been confirmed and the other token is still as it was. */
  lemma StoredVerdict(f: Feed, t: Tables, s: Tables, p: Id, j: Id)
    requires SameView(t, s) && Loadable(t, p) && j in s.tokens && p in PairsOf(t, j) && Shallow(f, t.pairs[p])
    requires forall k :: k in {t.pairs[p].token0, t.pairs[p].token1} && k in s.tokens ==>
      s.tokens[k].isScamFlagged == t.tokens[k].isScamFlagged &&
      (s.tokens[k].identityConfirmed <==> k == j || t.tokens[k].identityConfirmed)
    ensures VoteIrrelevant(s, f.w, p, f.now) &&
      VerdictWith(s, f.w, p, f.now, false).verdict == ConfirmedVerdict(f, t, p, j)
  {
    var a, b := t.pairs[p].token0, t.pairs[p].token1;
    ViewLoadable(t, s, p);
    assert SamePairFacts(t.pairs[p], s.pairs[p]);
    ShallowVote(s, f.w, p, f.now);
    WithIsGiven(s, f.w, p, f.now);
    GivenSame(t, s, f.w, p, f.now, t.tokens[a].isScamFlagged || t.tokens[b].isScamFlagged,
      a == j || t.tokens[a].identityConfirmed, b == j || t.tokens[b].identityConfirmed);
  }

  ghost function DueRows(f: Feed, t: Tables): set<Id> {
    set k | k in t.tokens && RowDue(f, Identity, t.tokens[k])
  }

  /** The flags and confirmations of an unprocessed token are the old ones. */
  lemma StillAsItWas(f: Feed, t: Tables, ids: seq<Id>, k: Id)
    requires k in t.tokens && k !in ids
    ensures var u := ProcessAll(t, IdentityProcess(f), ids); k in u.tokens && SameTokenInputs(t.tokens[k], u.tokens[k])
  {
    KeptThroughout(f, Identity, t, ids, k);
  }

  /** When last is the first of a pair's tokens to be checked: the token rows the pair is judged by. */
  lemma FirstTokens(f: Feed, t: Tables, front: seq<Id>, last: Id, k: Id, p: Id)
    requires Trust.Linked(t) && last in DueRows(f, t) && f.confirmed(last) && last !in front && k !in front && k != last
    requires p in PairsOf(t, k) && p in PairsOf(t, last)
    ensures var before := ProcessAll(t, IdentityProcess(f), front);
      && last in before.tokens && RowDue(f, Identity, before.tokens[last]) && Loadable(t, p)
      && forall i :: i in {t.pairs[p].token0, t.pairs[p].token1} && i in Stored(f, before, last).tokens ==>
           Stored(f, before, last).tokens[i].isScamFlagged == t.tokens[i].isScamFlagged &&
           (Stored(f, before, last).tokens[i].identityConfirmed <==> i == last || t.tokens[i].identityConfirmed)
  {
    assert Loadable(t, p);
    StillAsItWas(f, t, front, k);
    StillAsItWas(f, t, front, last);
    assert Stored(f, ProcessAll(t, IdentityProcess(f), front), last).tokens[last].identityConfirmed;
  }

  lemma FirstStored(f: Feed, t: Tables, front: seq<Id>, last: Id, k: Id, p: Id)
    requires Trust.Linked(t) && ChecksCurrent(f, t) && NoIdsFound(f) && FullListing(f)
    requires last in DueRows(f, t) && last !in front && k !in front && k != last
    requires p in PairsOf(t, k) && Checked(f, t, last, p) && Shallow(f, t.pairs[p])
    ensures var before := ProcessAll(t, IdentityProcess(f), front);
      && last in before.tokens && RowDue(f, Identity, before.tokens[last]) && Loadable(t, p)
      && Judgeable(Stored(f, before, last), p) && VoteIrrelevant(Stored(f, before, last), f.w, p, f.now)
      && VerdictWith(Stored(f, before, last), f.w, p, f.now, false).verdict == ConfirmedVerdict(f, t, p, last)
  {
    var before := ProcessAll(t, IdentityProcess(f), front);
    FirstTokens(f, t, front, last, k, p);
    ChecksView(f, t, front);
    StoredView(f, before, last);
    ViewChain(t, before, Stored(f, before, last));
    StoredVerdict(f, t, Stored(f, before, last), p, last);
    ViewLoadable(t, Stored(f, before, last), p);
  }

  lemma FirstCheck(f: Feed, t: Tables, front: seq<Id>, last: Id, k: Id, p: Id)
    requires Trust.Linked(t) && ChecksCurrent(f, t) && NoIdsFound(f) && FullListing(f)
    requires last in DueRows(f, t) && last !in front && k !in front && k != last
    requires p in PairsOf(t, k) && Checked(f, t, last, p) && Shallow(f, t.pairs[p])
    ensures var u := IdentityProcess(f)(ProcessAll(t, IdentityProcess(f), front), last);
      p in u.pairs && Loadable(t, p) && u.pairs[p].status == ConfirmedVerdict(f, t, p, last)
  {
    var before := ProcessAll(t, IdentityProcess(f), front);
    FirstStored(f, t, front, last, k, p);
    var order := f.listing(before, last);
    assert Lists(order, PairsOf(before, last));
    ChecksView(f, t, front);
    ViewPairsOf(t, before, last);
    CurrentSame(f, t, before);
    StoredCurrent(f, before, last);
    CheckPairs(f, before, last);
    FixedVerdict(Stored(f, before, last), f.w, order, f.now, p);
  }

  ghost predicate CheckedBy(f: Feed, t: Tables, ids: set<Id>, p: Id) {
    exists j :: j in ids && Checked(f, t, j, p)
  }

  /** The pair has the verdict that a check gave it, if one did, and is otherwise unchanged. */
  ghost predicate StatusFollows(f: Feed, t: Tables, u: Tables, ids: seq<Id>, p: Id) {
    && p in t.pairs && p in u.pairs && Loadable(t, p)
    && (forall j :: j in ids && Checked(f, t, j, p) ==> u.pairs[p].status == ConfirmedVerdict(f, t, p, j))
    && (!CheckedBy(f, t, Members(ids), p) ==> u.pairs[p] == t.pairs[p])
  }

  /** Of a pair's two tokens one is k: at most one other is checked. */
  lemma OtherTokenOnly(f: Feed, t: Tables, k: Id, i: Id, j: Id, p: Id)
    requires p in PairsOf(t, k) && i != k && j != k && Checked(f, t, i, p) && Checked(f, t, j, p)
    ensures i == j
  {
  }

  lemma StepChecked(f: Feed, t: Tables, front: seq<Id>, last: Id, k: Id, p: Id)
    requires Trust.Linked(t) && ChecksCurrent(f, t) && NoIdsFound(f) && FullListing(f)
    requires last in DueRows(f, t) && last !in front && k !in front && k != last
    requires p in PairsOf(t, k) && Checked(f, t, last, p) && Shallow(f, t.pairs[p])
    ensures StatusFollows(f, t, IdentityProcess(f)(ProcessAll(t, IdentityProcess(f), front), last), front + [last], p)
  {
    FirstCheck(f, t, front, last, k, p);
    assert last in Members(front + [last]);
    forall j | j in front + [last] && Checked(f, t, j, p) ensures j == last {
      OtherTokenOnly(f, t, k, j, last, p);
    }
  }

  lemma StepUnchecked(f: Feed, t: Tables, front: seq<Id>, last: Id, p: Id)
    requires ChecksCurrent(f, t) && NoIdsFound(f) && FullListing(f) && p in t.pairs && !Checked(f, t, last, p)
    requires StatusFollows(f, t, ProcessAll(t, IdentityProcess(f), front), front, p)
    ensures StatusFollows(f, t, IdentityProcess(f)(ProcessAll(t, IdentityProcess(f), front), last), front + [last], p)
  {
    var before := ProcessAll(t, IdentityProcess(f), front);
    SamePairsThroughout(f, Identity, t, front, last);
    ManualThroughout(f, t, front, p);
    Untouched(f, Identity, before, last, p);
    MembersConcat(front, [last]);
    if !CheckedBy(f, t, Members(front + [last]), p) { CheckedByFewer(f, t, front, front + [last], p); }
  }

  /** A shallow pair of an unprocessed token has its old status, or the one the other token's check gave it. */
  lemma {:induction false} ShallowStatus(f: Feed, t: Tables, ids: seq<Id>, k: Id, p: Id)
    requires Trust.Linked(t) && ChecksCurrent(f, t) && NoIdsFound(f) && FullListing(f)
    requires Distinct(ids) && Members(ids) <= DueRows(f, t) && k !in ids && p in PairsOf(t, k) && Shallow(f, t.pairs[p])
    ensures StatusFollows(f, t, ProcessAll(t, IdentityProcess(f), ids), ids, p)
  {
    assert Loadable(t, p);
    if ids != [] {
      var front, last := ids[..|ids| - 1], ids[|ids| - 1];
      assert ids == front + [last] && last in Members(ids) && last !in front;
      MembersConcat(front, [last]);
      ShallowStatus(f, t, front, k, p);
      if Checked(f, t, last, p) {
        StepChecked(f, t, front, last, k, p);
      } else {
        StepUnchecked(f, t, front, last, p);
      }
    }
  }

  lemma CheckedByFewer(f: Feed, t: Tables, front: seq<Id>, ids: seq<Id>, p: Id)
    requires Members(front) <= Members(ids) && !CheckedBy(f, t, Members(ids), p)
    ensures !CheckedBy(f, t, Members(front), p)
  {
  }

  lemma ManualThroughout(f: Feed, t: Tables, ids: seq<Id>, p: Id)
    requires ChecksCurrent(f, t) && NoIdsFound(f) && FullListing(f) && p in t.pairs
    ensures var u := ProcessAll(t, IdentityProcess(f), ids);
      p in u.pairs && (IsManual(u.pairs[p].status) <==> IsManual(t.pairs[p].status))
  {
    ChecksView(f, t, ids);
    assert SamePairFacts(t.pairs[p], ProcessAll(t, IdentityProcess(f), ids).pairs[p]);
  }

  // ----- the selection after any checks --------------------------------------

  /** Whether the pair still makes an identity result matter once j is confirmed and the pair judged. */
  ghost predicate RelevantOnce(f: Feed, t: Tables, j: Id, p: Id) {
    Loadable(t, p) && IdentityRelevant(f, t.pairs[p].(status := ConfirmedVerdict(f, t, p, j)))
  }

  /** Whether an identity result matters to the pair after these checks, in terms of the tables before them. */
  ghost predicate RelevantAfter(f: Feed, t: Tables, ids: set<Id>, p: Id) {
    if CheckedBy(f, t, ids, p) then exists j :: j in ids && Checked(f, t, j, p) && RelevantOnce(f, t, j, p)
    else p in t.pairs && IdentityRelevant(f, t.pairs[p])
  }

  lemma ShallowAfter(f: Feed, t: Tables, u: Tables, ids: seq<Id>, k: Id, p: Id)
    requires k !in ids && p in PairsOf(t, k) && StatusFollows(f, t, u, ids, p) && SamePairInputs(t.pairs[p], u.pairs[p])
    ensures IdentityRelevant(f, u.pairs[p]) <==> RelevantAfter(f, t, Members(ids), p)
  {
    if CheckedBy(f, t, Members(ids), p) {
      var j :| j in Members(ids) && Checked(f, t, j, p);
      assert j in ids && u.pairs[p].status == ConfirmedVerdict(f, t, p, j);
      assert IdentityRelevant(f, u.pairs[p]) <==> RelevantOnce(f, t, j, p);
      forall i | i in Members(ids) && Checked(f, t, i, p) ensures i == j {
        OtherTokenOnly(f, t, k, i, j, p);
      }
    }
  }

  lemma DeepAfter(f: Feed, t: Tables, u: Tables, ids: seq<Id>, p: Id)
    requires Loadable(t, p) && !Shallow(f, t.pairs[p]) && p in u.pairs && SamePairInputs(t.pairs[p], u.pairs[p])
    ensures IdentityRelevant(f, u.pairs[p]) && RelevantAfter(f, t, Members(ids), p)
  {
    if CheckedBy(f, t, Members(ids), p) {
      var j :| j in Members(ids) && Checked(f, t, j, p);
      assert RelevantOnce(f, t, j, p);
    }
  }

  lemma PairAfter(f: Feed, t: Tables, ids: seq<Id>, k: Id, p: Id)
    requires Trust.Linked(t) && ChecksCurrent(f, t) && NoIdsFound(f) && FullListing(f)
    requires Distinct(ids) && Members(ids) <= DueRows(f, t) && k !in ids && p in PairsOf(t, k)
    ensures var u := ProcessAll(t, IdentityProcess(f), ids);
      p in u.pairs && (IdentityRelevant(f, u.pairs[p]) <==> RelevantAfter(f, t, Members(ids), p))
  {
    var u := ProcessAll(t, IdentityProcess(f), ids);
    KeptThroughout(f, Identity, t, ids, k);
    assert SamePairInputs(t.pairs[p], u.pairs[p]) && Loadable(t, p);
    if Shallow(f, t.pairs[p]) {
      ShallowStatus(f, t, ids, k, p);
      ShallowAfter(f, t, u, ids, k, p);
    } else {
      DeepAfter(f, t, u, ids, p);
    }
  }

  lemma RowAfter(f: Feed, t: Tables, ids: seq<Id>, k: Id)
    requires Distinct(ids) && Members(ids) <= DueRows(f, t)
    ensures var u := ProcessAll(t, IdentityProcess(f), ids);
      k in u.tokens && RowDue(f, Identity, u.tokens[k]) <==> k in DueRows(f, t) && k !in ids
  {
    var u := ProcessAll(t, IdentityProcess(f), ids);
    IdentityPassStamps(f);
    assert DueRows(f, t) <= IdentityPending(f)(t);
    StampedBatch(t, DueForIdentityCheck(f), IdentityProcess(f), IdentityPending(f), _ => true, ids);
    if k in ids {
      assert k in Members(ids) && k !in IdentityPending(f)(u);
    } else {
      KeptThroughout(f, Identity, t, ids, k);
    }
  }

  /** The identity selection after any checks of due rows, each once, in terms of the tables before them. */
  lemma IdentitySelectionAfter(f: Feed, t: Tables, ids: seq<Id>, k: Id)
    requires Trust.Linked(t) && ChecksCurrent(f, t) && NoIdsFound(f) && FullListing(f)
    requires Distinct(ids) && Members(ids) <= DueRows(f, t)
    ensures k in DueForIdentityCheck(f)(ProcessAll(t, IdentityProcess(f), ids)) <==>
      k in DueRows(f, t) && k !in ids && exists p :: p in PairsOf(t, k) && RelevantAfter(f, t, Members(ids), p)
  {
    var u := ProcessAll(t, IdentityProcess(f), ids);
    RowAfter(f, t, ids, k);
    DueIff(f, Identity, u, k);
    assert Due(f, Identity)(u) == DueForIdentityCheck(f)(u);
    if k !in ids { WantedAfterChecks(f, t, ids, k); }
  }

  lemma WantedAfterChecks(f: Feed, t: Tables, ids: seq<Id>, k: Id)
    requires Trust.Linked(t) && ChecksCurrent(f, t) && NoIdsFound(f) && FullListing(f)
    requires Distinct(ids) && Members(ids) <= DueRows(f, t) && k !in ids
    ensures HasWanted(f, Identity, ProcessAll(t, IdentityProcess(f), ids), k)
      <==> exists p :: p in PairsOf(t, k) && RelevantAfter(f, t, Members(ids), p)
  {
    var u := ProcessAll(t, IdentityProcess(f), ids);
    SamePairsThroughout(f, Identity, t, ids, k);
    assert PairsOf(u, k) == PairsOf(t, k);
    forall p | p in PairsOf(t, k)
      ensures p in u.pairs && (Wanted(f, Identity, u.pairs[p]) <==> RelevantAfter(f, t, Members(ids), p))
    {
      PairAfter(f, t, ids, k, p);
    }
  }

  // ----- when the identity pass is complete ----------------------------------

  /** A due row none of these, whose check has the engine judge the pair. */
  ghost predicate CheckedFromOutside(f: Feed, t: Tables, l: set<Id>, j: Id, p: Id) {
    j in DueRows(f, t) && j !in l && Checked(f, t, j, p)
  }

  /** If an identity result matters to the pair, a check outside these rows judges it; and after no such check does one
      matter. */
  ghost predicate IdentitySealedPair(f: Feed, t: Tables, l: set<Id>, p: Id) {
    && (p in t.pairs && IdentityRelevant(f, t.pairs[p]) ==> exists j :: CheckedFromOutside(f, t, l, j, p))
    && (forall j :: CheckedFromOutside(f, t, l, j, p) ==> !RelevantOnce(f, t, j, p))
  }

  ghost predicate IdentitySealed(f: Feed, t: Tables, l: set<Id>) {
    l <= DueRows(f, t) && forall k, p :: k in l && p in PairsOf(t, k) ==> IdentitySealedPair(f, t, l, p)
  }

  ghost predicate InIdentitySealed(f: Feed, t: Tables, k: Id) {
    exists l :: k in l && IdentitySealed(f, t, l)
  }

  ghost function IdentityPattern(f: Feed, t: Tables): Pattern {
    Pattern(DueRows(f, t), (k: Id) => PairsOf(t, k), (p: Id) => p in t.pairs && IdentityRelevant(f, t.pairs[p]),
      (j: Id, p: Id) => Checked(f, t, j, p), (j: Id, p: Id) => RelevantOnce(f, t, j, p))
  }

  lemma IdentityPatternFits(f: Feed, t: Tables)
    ensures WellFormed(IdentityPattern(f, t))
  {
  }

  lemma CheckedIsMoved(f: Feed, t: Tables, done: set<Id>, p: Id)
    ensures CheckedBy(f, t, done, p) <==> MovedBy(IdentityPattern(f, t), done, p)
    ensures (exists j :: j in done && Checked(f, t, j, p) && RelevantOnce(f, t, j, p)) <==>
      JoinedBy(IdentityPattern(f, t), done, p)
  {
    var x := IdentityPattern(f, t);
    forall j: Id ensures x.moves(j, p) <==> Checked(f, t, j, p) {
    }
    forall j: Id ensures x.joins(j, p) <==> RelevantOnce(f, t, j, p) {
    }
  }

  lemma AnyRelevant(f: Feed, t: Tables, done: set<Id>, k: Id)
    ensures HasWantedAfter(IdentityPattern(f, t), done, k) <==>
      exists p :: p in PairsOf(t, k) && RelevantAfter(f, t, done, p)
  {
    var x := IdentityPattern(f, t);
    forall p: Id ensures RelevantAfter(f, t, done, p) <==> WantedAfter(x, done, p) {
      CheckedIsMoved(f, t, done, p);
    }
    if HasWantedAfter(x, done, k) {
      var p: Id :| p in x.pairsOf(k) && WantedAfter(x, done, p);
      assert p in PairsOf(t, k) && RelevantAfter(f, t, done, p);
    }
  }

  lemma IdentityFollowsAt(f: Feed, t: Tables, ids: seq<Id>)
    requires Trust.Linked(t) && ChecksCurrent(f, t) && NoIdsFound(f) && FullListing(f)
    requires Distinct(ids) && Members(ids) <= DueRows(f, t)
    ensures FollowsAt(t, DueForIdentityCheck(f), IdentityProcess(f), IdentityPattern(f, t), ids)
  {
    var x := IdentityPattern(f, t);
    forall k: Id
      ensures k in DueForIdentityCheck(f)(ProcessAll(t, IdentityProcess(f), ids)) <==> Selected(x, Members(ids), k)
    {
      IdentitySelectionAfter(f, t, ids, k);
      AnyRelevant(f, t, Members(ids), k);
      assert k in Members(ids) <==> k in ids;
    }
  }

  lemma IdentityFollows(f: Feed, t: Tables)
    requires Trust.Linked(t) && ChecksCurrent(f, t) && NoIdsFound(f) && FullListing(f)
    ensures Follows(t, DueForIdentityCheck(f), IdentityProcess(f), IdentityPattern(f, t))
  {
    IdentityPatternFits(f, t);
    forall ids: seq<Id> | Distinct(ids) && Members(ids) <= IdentityPattern(f, t).rows
      ensures FollowsAt(t, DueForIdentityCheck(f), IdentityProcess(f), IdentityPattern(f, t), ids)
    {
      IdentityFollowsAt(f, t, ids);
    }
  }

  lemma OutsideIs(f: Feed, t: Tables, l: set<Id>, p: Id)
    ensures IdentitySealedPair(f, t, l, p) <==> SealedPair(IdentityPattern(f, t), l, p)
  {
    var x := IdentityPattern(f, t);
    forall j: Id ensures Outside(x, l, j) && x.moves(j, p) <==> CheckedFromOutside(f, t, l, j, p) {
    }
    forall j: Id ensures x.joins(j, p) <==> RelevantOnce(f, t, j, p) {
    }
  }

  lemma IdentitySealedIs(f: Feed, t: Tables, l: set<Id>)
    ensures IdentitySealed(f, t, l) <==> Sealed(IdentityPattern(f, t), l)
  {
    forall p: Id ensures IdentitySealedPair(f, t, l, p) <==> SealedPair(IdentityPattern(f, t), l, p) {
      OutsideIs(f, t, l, p);
    }
  }

  lemma InIdentitySealedIs(f: Feed, t: Tables, k: Id)
    ensures InIdentitySealed(f, t, k) <==> InSealed(IdentityPattern(f, t), k)
  {
    forall l: set<Id> ensures IdentitySealed(f, t, l) <==> Sealed(IdentityPattern(f, t), l) {
      IdentitySealedIs(f, t, l);
    }
  }

  /** Exactly when the identity pass is complete whatever the batches: when no due token lies in a sealed set. */
  lemma IdentityPassCompleteIff(f: Feed, t: Tables)
    requires Trust.Linked(t) && ChecksCurrent(f, t) && NoIdsFound(f) && FullListing(f)
    ensures AlwaysComplete(t, DueForIdentityCheck(f), IdentityProcess(f)) <==>
      forall k :: k in DueForIdentityCheck(f)(t) ==> !InIdentitySealed(f, t, k)
  {
    IdentityFollows(f, t);
    IdentityPassStamps(f);
    CompleteIff(t, DueForIdentityCheck(f), IdentityProcess(f), IdentityPending(f), _ => true, IdentityPattern(f, t));
    forall k ensures InIdentitySealed(f, t, k) <==> InSealed(IdentityPattern(f, t), k) {
      InIdentitySealedIs(f, t, k);
    }
  }
}
