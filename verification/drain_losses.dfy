/** Which due rows a pass of lib/pipeline.ts can lose when its selection reads statuses,
    and when it loses none of them. */
module DrainLosses {
  // Processing one row can take another out of the selection before its turn. A row of the batch at hand is processed
  // all the same; one that was left for a later batch is not, and keeps its old stamp. First, what keeps a due row
  // in all three passes; then exactly what the scam pass loses. `ReviewLosses` and `IdentityLosses` say it for the
  // other two passes, and `DrainExamples` shows for each of the three, with every batch size, a due row that is lost.

  import opened Wrappers
  import opened JsString
  import opened Verdict
  import opened Tables
  import opened Passes
  import opened Drain
  import opened LossPattern
  import Trust

  datatype Kind = Scam | Review | Identity

  function Due(f: Feed, kind: Kind): Selection {
    match kind
    case Scam => DueForScamCheck(f)
    case Review => DueForReviewScan(f)
    case Identity => DueForIdentityCheck(f)
  }

  function ProcessOf(f: Feed, kind: Kind): Process {
    match kind
    case Scam => ScamProcess(f)
    case Review => ReviewProcess(f)
    case Identity => IdentityProcess(f)
  }

  ghost function PendingOf(f: Feed, kind: Kind): Selection {
    match kind
    case Scam => ScamPending(f)
    case Review => ReviewPending(f)
    case Identity => IdentityPending(f)
  }

  lemma PassStamps(f: Feed, kind: Kind)
    requires f.cutoff <= f.now
    ensures Stamps(Due(f, kind), ProcessOf(f, kind), PendingOf(f, kind), _ => true)
  {
    match kind
    case Scam => ScamPassStamps(f);
    case Review => ReviewPassStamps(f);
    case Identity => IdentityPassStamps(f);
  }

  /** What the selection asks of the row itself. */
  predicate RowDue(f: Feed, kind: Kind, r: TokenRow) {
    f.w.evmChain(r.chain) &&
    match kind
    case Scam => r.scamCheckedAt < f.cutoff
    case Review => r.securityCheckedAt < f.cutoff
    case Identity => r.coingeckoCoinId == [] && r.identityCheckedAt < f.now && r.identityNextCheckAt <= f.now
  }

  /** And of one of its pairs. */
  predicate Wanted(f: Feed, kind: Kind, p: PairRow) {
    match kind
    case Scam => IsVerified(p.status)
    case Review => p.status == NeedsReview
    case Identity => IdentityRelevant(f, p)
  }

  predicate HasWanted(f: Feed, kind: Kind, t: Tables, k: Id) {
    exists p :: p in PairsOf(t, k) && Wanted(f, kind, t.pairs[p])
  }

  lemma DueIff(f: Feed, kind: Kind, t: Tables, k: Id)
    ensures k in Due(f, kind)(t) <==> k in t.tokens && RowDue(f, kind, t.tokens[k]) && HasWanted(f, kind, t, k)
  {
    forall p | p in PairsOf(t, k)
      ensures IsVerified(t.pairs[p].status) <==> t.pairs[p].status in {ManualVerified, AutoVerified}
    {
    }
    if InPair(t, k, {ManualVerified, AutoVerified}) {
      var p :| p in PairsOf(t, k) && t.pairs[p].status in {ManualVerified, AutoVerified};
      assert IsVerified(t.pairs[p].status);
    }
  }

  /** Whether the answers make the check re-judge the token's pairs. */
  predicate Touches(f: Feed, kind: Kind, k: Id) {
    if kind.Identity? then f.confirmed(k) else IsScam(f.security(k), f.honeypot(k))
  }

  /** The query for a token's pairs returns them all and no others. */
  ghost predicate FullListing(f: Feed) {
    forall t: Tables, k: Id :: Lists(f.listing(t, k), PairsOf(t, k))
  }

  // ----- what one check leaves alone -----------------------------------------

  lemma {:induction false} RunAllElsewhere(t: Tables, w: World, ids: seq<Id>, now: int, p: Id)
    requires p in t.pairs && (p !in ids || IsManual(t.pairs[p].status))
    ensures p in RunAll(t, w, ids, now).pairs && RunAll(t, w, ids, now).pairs[p] == t.pairs[p]
  {
    if ids != [] {
      var front, last := ids[..|ids| - 1], ids[|ids| - 1];
      assert ids == front + [last];
      RunAllElsewhere(t, w, front, now, p);
    }
  }

  /** A check re-judges only pairs of its own token, and of those none that an operator has set. */
  lemma Untouched(f: Feed, kind: Kind, t: Tables, j: Id, p: Id)
    requires FullListing(f) && p in t.pairs
    requires !Touches(f, kind, j) || p !in PairsOf(t, j) || IsManual(t.pairs[p].status)
    ensures var u := ProcessOf(f, kind)(t, j); p in u.pairs && u.pairs[p] == t.pairs[p]
  {
    var order := f.listing(t, j);
    assert Lists(order, PairsOf(t, j));
    if j in t.tokens {
      var r := if kind.Identity? then WithIdentity(f, t.tokens[j], j)
        else WithScamAnswer(t.tokens[j], f.now, f.security(j), f.honeypot(j));
      var stored := t.(tokens := t.tokens[j := r]);
      if Touches(f, kind, j) { RunAllElsewhere(stored, f.w, order, f.now, p); }
      if kind.Review? { ReviewScanRow(f, t, j); }
    }
  }

  lemma OneKept(f: Feed, kind: Kind, t: Tables, j: Id)
    ensures OthersKept(t, ProcessOf(f, kind)(t, j), j)
  {
    match kind
    case Scam => ScamCheckRow(f, t, j);
    case Review => ReviewScanRow(f, t, j);
    case Identity => IdentityCheckRow(f, t, j);
  }

  /** Through any rows but its own a token keeps its columns, and every pair its inputs. */
  lemma {:induction false} KeptThroughout(f: Feed, kind: Kind, t: Tables, ids: seq<Id>, k: Id)
    requires k !in ids
    ensures var u := ProcessAll(t, ProcessOf(f, kind), ids);
      && u.tokens.Keys == t.tokens.Keys && u.pairs.Keys == t.pairs.Keys && PairsOf(u, k) == PairsOf(t, k)
      && (k in t.tokens ==> SameTokenInputs(t.tokens[k], u.tokens[k]))
      && forall p :: p in t.pairs ==> SamePairInputs(t.pairs[p], u.pairs[p])
  {
    if ids == [] {
      NothingChanged(t, k);
    } else {
      var front, last := ids[..|ids| - 1], ids[|ids| - 1];
      var before := ProcessAll(t, ProcessOf(f, kind), front);
      assert ids == front + [last];
      KeptThroughout(f, kind, t, front, k);
      OneKept(f, kind, before, last);
      SamePairsOf(before, ProcessAll(t, ProcessOf(f, kind), ids), k);
      InputsChain(t, before, ProcessAll(t, ProcessOf(f, kind), ids));
    }
  }

  lemma InputsChain(t: Tables, before: Tables, u: Tables)
    requires t.pairs.Keys == before.pairs.Keys == u.pairs.Keys
    requires forall p :: p in t.pairs ==> SamePairInputs(t.pairs[p], before.pairs[p])
    requires forall p :: p in before.pairs ==> SamePairInputs(before.pairs[p], u.pairs[p])
    ensures forall p :: p in t.pairs ==> SamePairInputs(t.pairs[p], u.pairs[p])
  {
    forall p | p in t.pairs ensures SamePairInputs(t.pairs[p], u.pairs[p]) {
      assert SamePairInputs(t.pairs[p], before.pairs[p]) && SamePairInputs(before.pairs[p], u.pairs[p]);
    }
  }

  lemma SamePairsThroughout(f: Feed, kind: Kind, t: Tables, ids: seq<Id>, j: Id)
    ensures PairsOf(ProcessAll(t, ProcessOf(f, kind), ids), j) == PairsOf(t, j)
    ensures ProcessAll(t, ProcessOf(f, kind), ids).pairs.Keys == t.pairs.Keys
  {
    var outside := Fresh(ids);
    KeptThroughout(f, kind, t, ids, outside);
    SamePairsOf(t, ProcessAll(t, ProcessOf(f, kind), ids), j);
  }

  /** An id that is not listed. */
  lemma {:induction false} Fresh(ids: seq<Id>) returns (k: Id)
    ensures k !in ids && forall id :: id in ids ==> id < k
  {
    k := 0;
    if ids != [] {
      k := Fresh(ids[..|ids| - 1]);
      k := k + ids[|ids| - 1] + 1;
      assert ids == ids[..|ids| - 1] + [ids[|ids| - 1]];
    }
  }

  lemma {:induction false} UntouchedThroughout(f: Feed, kind: Kind, t: Tables, ids: seq<Id>, p: Id)
    requires FullListing(f) && p in t.pairs
    requires forall j :: j in ids ==> !Touches(f, kind, j) || p !in PairsOf(t, j) || IsManual(t.pairs[p].status)
    ensures var u := ProcessAll(t, ProcessOf(f, kind), ids); p in u.pairs && u.pairs[p] == t.pairs[p]
  {
    if ids != [] {
      var front, last := ids[..|ids| - 1], ids[|ids| - 1];
      assert ids == front + [last];
      UntouchedThroughout(f, kind, t, front, p);
      SamePairsThroughout(f, kind, t, front, last);
      Untouched(f, kind, ProcessAll(t, ProcessOf(f, kind), front), last, p);
    }
  }

  // ----- what keeps a due row ------------------------------------------------

  /** The pair stays wanted whatever the engine writes as its status. */
  predicate Steady(f: Feed, kind: Kind, p: PairRow) {
    match kind
    case Scam => p.status == ManualVerified
    case Review => false
    case Identity => IdentityRelevant(f, p.(status := Unverified))
  }

  /** A wanted pair of k that no check of another pending row will re-judge. */
  ghost predicate Holds(f: Feed, kind: Kind, t: Tables, k: Id, p: Id) {
    && p in PairsOf(t, k) && Wanted(f, kind, t.pairs[p])
    && (Steady(f, kind, t.pairs[p]) ||
        forall j :: j != k && p in PairsOf(t, j) && Touches(f, kind, j) ==> j !in PendingOf(f, kind)(t))
  }

  ghost predicate Held(f: Feed, kind: Kind, t: Tables, k: Id) {
    exists p :: Holds(f, kind, t, k, p)
  }

  lemma StaysWanted(f: Feed, kind: Kind, t: Tables, ids: seq<Id>, k: Id, p: Id)
    requires FullListing(f) && Holds(f, kind, t, k, p) && k !in ids && Members(ids) <= PendingOf(f, kind)(t)
    ensures var u := ProcessAll(t, ProcessOf(f, kind), ids); p in u.pairs && Wanted(f, kind, u.pairs[p])
  {
    if kind.Identity? && Steady(f, kind, t.pairs[p]) {
      KeptThroughout(f, kind, t, ids, k);
      assert SamePairInputs(t.pairs[p], ProcessAll(t, ProcessOf(f, kind), ids).pairs[p]);
    } else {
      forall j | j in ids ensures !Touches(f, kind, j) || p !in PairsOf(t, j) || IsManual(t.pairs[p].status) {
        assert j in Members(ids);
      }
      UntouchedThroughout(f, kind, t, ids, p);
    }
  }

  lemma HeldStaysDue(f: Feed, kind: Kind, t: Tables, ids: seq<Id>, k: Id)
    requires FullListing(f) && k in Due(f, kind)(t) && Held(f, kind, t, k) && k !in ids &&
      Members(ids) <= PendingOf(f, kind)(t)
    ensures k in Due(f, kind)(ProcessAll(t, ProcessOf(f, kind), ids))
  {
    var u := ProcessAll(t, ProcessOf(f, kind), ids);
    var p :| Holds(f, kind, t, k, p);
    DueIff(f, kind, t, k);
    DueIff(f, kind, u, k);
    KeptThroughout(f, kind, t, ids, k);
    StaysWanted(f, kind, t, ids, k, p);
  }

  /** In all three passes, for every batch size and every choice of batches: a due row with a pair that no other
      pending row's check re-judges is processed. */
  lemma HeldAreProcessed(f: Feed, kind: Kind, t: Tables, batch: nat, batches: seq<seq<Id>>, k: Id)
    requires f.cutoff <= f.now && FullListing(f) && Drained(t, Due(f, kind), ProcessOf(f, kind), batch, batches)
    requires k in Due(f, kind)(t) && Held(f, kind, t, k)
    ensures k in Flatten(batches)
  {
    PassStamps(f, kind);
    StampedDrain(t, Due(f, kind), ProcessOf(f, kind), PendingOf(f, kind), _ => true, batch, batches);
    if k !in Flatten(batches) {
      HeldStaysDue(f, kind, t, Flatten(batches), k);
    }
  }

  // ----- the scam pass, exactly ----------------------------------------------

  /** Checking the token flags it. */
  predicate Flags(f: Feed, t: Tables, j: Id) {
    j in t.tokens && f.w.evmChain(t.tokens[j].chain) && Touches(f, Scam, j)
  }

  /** The pair is verified, and stays so when these tokens have been checked: an operator verified it, or none of
      them is its token and flagged. */
  ghost predicate Survives(f: Feed, t: Tables, ids: set<Id>, p: Id) {
    && p in t.pairs && IsVerified(t.pairs[p].status)
    && (t.pairs[p].status == ManualVerified || forall j :: j in ids && Flags(f, t, j) ==> p !in PairsOf(t, j))
  }

  /** A judged pair of a flagged token is not verified, unless an operator did it. */
  lemma FlaggedNotVerified(t: Tables, w: World, ids: seq<Id>, now: int, j: Id, p: Id)
    requires Trust.Linked(t) && j in t.tokens && t.tokens[j].isScamFlagged && p in ids && p in PairsOf(t, j)
    ensures var u := RunAll(t, w, ids, now); p in u.pairs && u.pairs[p].status != AutoVerified
  {
    var u := RunAll(t, w, ids, now);
    Trust.RunAllSound(t, w, ids, now);
    assert SamePairInputs(t.pairs[p], u.pairs[p]) && SameTokenInputs(t.tokens[j], u.tokens[j]);
    assert Trust.PairSound(u, p);
  }

  lemma {:induction false} RunAllManual(t: Tables, w: World, ids: seq<Id>, now: int, p: Id)
    requires p in t.pairs && !IsManual(t.pairs[p].status)
    ensures p in RunAll(t, w, ids, now).pairs && !IsManual(RunAll(t, w, ids, now).pairs[p].status)
  {
    if ids != [] {
      var before, last := RunAll(t, w, ids[..|ids| - 1], now), ids[|ids| - 1];
      RunAllManual(t, w, ids[..|ids| - 1], now, p);
      if last == p && Judgeable(before, p) { Trust.JudgeIsSafe(before, w, p, now); }
    }
  }

  lemma ScamKeepsLinked(f: Feed, t: Tables, j: Id)
    requires Trust.Linked(t)
    ensures Trust.Linked(ScamProcess(f)(t, j))
  {
    var u := ScamProcess(f)(t, j);
    ScamCheckRow(f, t, j);
    forall p | p in u.pairs ensures Loadable(u, p) {
      assert Loadable(t, p) && SamePairInputs(t.pairs[p], u.pairs[p]);
    }
  }

  /** One check: the pairs of a flagged token stop being verified by the engine, and nothing starts to be. */
  lemma ScamEffect(f: Feed, t: Tables, j: Id, p: Id)
    requires Trust.Linked(t) && FullListing(f) && p in t.pairs
    ensures var u := ScamProcess(f)(t, j);
      && p in u.pairs
      && (IsVerified(u.pairs[p].status) <==>
        IsVerified(t.pairs[p].status) && (IsManual(t.pairs[p].status) || !Flags(f, t, j) || p !in PairsOf(t, j)))
      && (t.pairs[p].status == ManualVerified <==> u.pairs[p].status == ManualVerified)
  {
    if IsManual(t.pairs[p].status) || !Flags(f, t, j) || p !in PairsOf(t, j) {
      ScamLeaves(f, t, j, p);
    } else {
      var stored := t.(tokens := t.tokens[j := WithScamAnswer(t.tokens[j], f.now, f.security(j), f.honeypot(j))]);
      var order := f.listing(t, j);
      assert Lists(order, PairsOf(t, j));
      forall q | q in stored.pairs ensures Loadable(stored, q) { assert Loadable(t, q); }
      assert PairsOf(stored, j) == PairsOf(t, j);
      FlaggedNotVerified(stored, f.w, order, f.now, j, p);
      RunAllManual(stored, f.w, order, f.now, p);
    }
  }

  lemma ScamLeaves(f: Feed, t: Tables, j: Id, p: Id)
    requires FullListing(f) && p in t.pairs && (IsManual(t.pairs[p].status) || !Flags(f, t, j) || p !in PairsOf(t, j))
    ensures var u := ScamProcess(f)(t, j); p in u.pairs && u.pairs[p] == t.pairs[p]
  {
    if IsManual(t.pairs[p].status) || !Touches(f, Scam, j) || p !in PairsOf(t, j) {
      Untouched(f, Scam, t, j, p);
    } else {
      ScamCheckRow(f, t, j);
      var order := f.listing(t, j);
      assert ScamCheck(t, f.w, j, f.now, f.security(j), f.honeypot(j), order) == t;
    }
  }

  /** After any rows whatever: which pairs are verified. */
  lemma {:induction false} VerifiedAfter(f: Feed, t: Tables, ids: seq<Id>, p: Id)
    requires Trust.Linked(t) && FullListing(f) && p in t.pairs
    ensures var u := ProcessAll(t, ScamProcess(f), ids);
      && Trust.Linked(u) && p in u.pairs
      && (IsVerified(u.pairs[p].status) <==> Survives(f, t, Members(ids), p))
      && (u.pairs[p].status == ManualVerified <==> t.pairs[p].status == ManualVerified)
  {
    if ids != [] {
      var front, last := ids[..|ids| - 1], ids[|ids| - 1];
      var before := ProcessAll(t, ScamProcess(f), front);
      assert ids == front + [last];
      MembersConcat(front, [last]);
      assert Members([last]) == {last};
      VerifiedAfter(f, t, front, p);
      ScamKeepsLinked(f, before, last);
      ScamEffect(f, before, last, p);
      FlagsKept(f, t, front, last);
      SamePairsThroughout(f, Scam, t, front, last);
      SurvivesMore(f, t, Members(front), last, p);
      if IsManual(before.pairs[p].status) && IsVerified(before.pairs[p].status) {
        assert before.pairs[p].status == ManualVerified;
      }
    }
  }

  lemma SurvivesMore(f: Feed, t: Tables, ids: set<Id>, last: Id, p: Id)
    requires p in t.pairs
    ensures Survives(f, t, ids + {last}, p) <==>
      Survives(f, t, ids, p) && (t.pairs[p].status == ManualVerified || !Flags(f, t, last) || p !in PairsOf(t, last))
  {
  }

  lemma FlagsKept(f: Feed, t: Tables, ids: seq<Id>, j: Id)
    ensures Flags(f, ProcessAll(t, ScamProcess(f), ids), j) <==> Flags(f, t, j)
  {
    ChainKept(f, t, ids, j);
  }

  lemma {:induction false} ChainKept(f: Feed, t: Tables, ids: seq<Id>, j: Id)
    ensures var u := ProcessAll(t, ScamProcess(f), ids);
      u.tokens.Keys == t.tokens.Keys && (j in t.tokens ==> u.tokens[j].chain == t.tokens[j].chain)
  {
    if ids != [] {
      var front, last := ids[..|ids| - 1], ids[|ids| - 1];
      var before := ProcessAll(t, ScamProcess(f), front);
      ChainKept(f, t, front, j);
      ScamCheckRow(f, before, last);
      if j in t.tokens && j != last { PendingAfter(before, ScamProcess(f)(before, last), last); }
    }
  }

  lemma ScamPendingAfterOne(f: Feed, t: Tables, j: Id)
    requires f.cutoff <= f.now
    ensures ScamPending(f)(ScamProcess(f)(t, j)) == ScamPending(f)(t) - {j}
  {
    ScamCheckRow(f, t, j);
    PendingAfter(t, ScamProcess(f)(t, j), j);
  }

  lemma {:induction false} ScamPendingAfter(f: Feed, t: Tables, ids: seq<Id>)
    requires f.cutoff <= f.now
    ensures ScamPending(f)(ProcessAll(t, ScamProcess(f), ids)) == ScamPending(f)(t) - Members(ids)
  {
    if ids != [] {
      var front, last := ids[..|ids| - 1], ids[|ids| - 1];
      ScamPendingAfter(f, t, front);
      ScamPendingAfterOne(f, ProcessAll(t, ScamProcess(f), front), last);
      assert ids == front + [last];
      MembersConcat(front, [last]);
    }
  }

  ghost predicate HasSurvivor(f: Feed, t: Tables, ids: set<Id>, k: Id) {
    exists p :: p in PairsOf(t, k) && Survives(f, t, ids, p)
  }

  lemma WantedSurvives(f: Feed, t: Tables, ids: seq<Id>, k: Id)
    requires Trust.Linked(t) && FullListing(f)
    ensures HasWanted(f, Scam, ProcessAll(t, ScamProcess(f), ids), k) <==> HasSurvivor(f, t, Members(ids), k)
  {
    var u := ProcessAll(t, ScamProcess(f), ids);
    SamePairsThroughout(f, Scam, t, ids, k);
    forall p | p in PairsOf(t, k)
      ensures p in u.pairs && (Wanted(f, Scam, u.pairs[p]) <==> Survives(f, t, Members(ids), p))
    {
      VerifiedAfter(f, t, ids, p);
    }
    if HasWanted(f, Scam, u, k) {
      var p :| p in PairsOf(u, k) && Wanted(f, Scam, u.pairs[p]);
      assert p in PairsOf(t, k) && Survives(f, t, Members(ids), p);
    }
    if HasSurvivor(f, t, Members(ids), k) {
      var p :| p in PairsOf(t, k) && Survives(f, t, Members(ids), p);
      assert p in PairsOf(u, k) && Wanted(f, Scam, u.pairs[p]);
    }
  }

  /** The scam selection after any rows, in terms of the tables before them: the pending rows not among these that
      still have a verified pair. It never grows. */
  lemma ScamSelectionAfter(f: Feed, t: Tables, ids: seq<Id>, k: Id)
    requires f.cutoff <= f.now && Trust.Linked(t) && FullListing(f)
    ensures k in DueForScamCheck(f)(ProcessAll(t, ScamProcess(f), ids)) <==>
      k in ScamPending(f)(t) && k !in ids && HasSurvivor(f, t, Members(ids), k)
  {
    var u := ProcessAll(t, ScamProcess(f), ids);
    ScamPendingAfter(f, t, ids);
    assert k in ScamPending(f)(u) <==> k in u.tokens && RowDue(f, Scam, u.tokens[k]);
    DueIff(f, Scam, u, k);
    assert Due(f, Scam)(u) == DueForScamCheck(f)(u);
    WantedSurvives(f, t, ids, k);
    assert k in Members(ids) <==> k in ids;
  }

  // ----- when the scam pass is complete --------------------------------------

  /** Every pair that makes the token due is the engine's and shared with another due token whose check flags it. */
  ghost predicate Exposed(f: Feed, t: Tables, k: Id) {
    forall p :: p in PairsOf(t, k) && IsVerified(t.pairs[p].status) ==>
      t.pairs[p].status == AutoVerified && HasFlaggedPartner(f, t, k, p)
  }

  ghost predicate HasFlaggedPartner(f: Feed, t: Tables, k: Id, p: Id) {
    exists j :: IsFlaggedPartner(f, t, k, p, j)
  }

  ghost predicate IsFlaggedPartner(f: Feed, t: Tables, k: Id, p: Id, j: Id) {
    j != k && p in PairsOf(t, j) && j in ScamPending(f)(t) && Flags(f, t, j)
  }

  ghost predicate SharesVerified(f: Feed, t: Tables, k: Id, j: Id) {
    exists p :: p in PairsOf(t, k) && IsVerified(t.pairs[p].status) && IsFlaggedPartner(f, t, k, p, j)
  }

  /** The flagged partners of k in its verified pairs. */
  ghost function FlaggedPartners(f: Feed, t: Tables, k: Id): set<Id> {
    set j | j in t.tokens && SharesVerified(f, t, k, j)
  }

  /** The scam pass as a pattern: a flagged token's check takes its pairs out of verified, and puts none in. */
  ghost function ScamPattern(f: Feed, t: Tables): Pattern {
    Pattern(ScamPending(f)(t), (k: Id) => PairsOf(t, k), (p: Id) => p in t.pairs && IsVerified(t.pairs[p].status),
      (j: Id, p: Id) => p in PairsOf(t, j) && Flags(f, t, j) && !IsManual(t.pairs[p].status), (j: Id, p: Id) => false)
  }

  lemma ScamPatternFits(f: Feed, t: Tables)
    ensures WellFormed(ScamPattern(f, t)) && NothingJoins(ScamPattern(f, t))
  {
  }

  lemma SurvivesIsWanted(f: Feed, t: Tables, done: set<Id>, p: Id)
    requires p in t.pairs
    ensures Survives(f, t, done, p) <==> WantedAfter(ScamPattern(f, t), done, p)
  {
    var x := ScamPattern(f, t);
    if IsVerified(t.pairs[p].status) && !Survives(f, t, done, p) {
      var j :| j in done && Flags(f, t, j) && p in PairsOf(t, j);
      assert x.moves(j, p);
    }
  }

  lemma ScamFollowsAt(f: Feed, t: Tables, ids: seq<Id>)
    requires f.cutoff <= f.now && Trust.Linked(t) && FullListing(f)
    ensures FollowsAt(t, DueForScamCheck(f), ScamProcess(f), ScamPattern(f, t), ids)
  {
    forall k: Id ensures HasSurvivor(f, t, Members(ids), k) <==> HasWantedAfter(ScamPattern(f, t), Members(ids), k) {
      forall p | p in PairsOf(t, k)
        ensures Survives(f, t, Members(ids), p) <==> WantedAfter(ScamPattern(f, t), Members(ids), p)
      {
        SurvivesIsWanted(f, t, Members(ids), p);
      }
    }
    forall k: Id ensures k in DueForScamCheck(f)(ProcessAll(t, ScamProcess(f), ids))
      <==> Selected(ScamPattern(f, t), Members(ids), k)
    {
      ScamSelectionAfter(f, t, ids, k);
    }
  }

  lemma ScamFollows(f: Feed, t: Tables)
    requires f.cutoff <= f.now && Trust.Linked(t) && FullListing(f)
    ensures Follows(t, DueForScamCheck(f), ScamProcess(f), ScamPattern(f, t)) && NothingJoins(ScamPattern(f, t))
  {
    ScamPatternFits(f, t);
    forall ids: seq<Id> ensures FollowsAt(t, DueForScamCheck(f), ScamProcess(f), ScamPattern(f, t), ids) {
      ScamFollowsAt(f, t, ids);
    }
  }

  /** An exposed token is one that is sealed alone. */
  lemma ExposedIsSealed(f: Feed, t: Tables, k: Id)
    requires k in ScamPending(f)(t)
    ensures Exposed(f, t, k) <==> Sealed(ScamPattern(f, t), {k})
  {
    var x := ScamPattern(f, t);
    forall p | p in PairsOf(t, k) && IsVerified(t.pairs[p].status)
      ensures t.pairs[p].status == AutoVerified && HasFlaggedPartner(f, t, k, p) <==> SealedPair(x, {k}, p)
    {
      if t.pairs[p].status == AutoVerified && HasFlaggedPartner(f, t, k, p) {
        var j :| IsFlaggedPartner(f, t, k, p, j);
        assert Outside(x, {k}, j) && x.moves(j, p);
      }
      if SealedPair(x, {k}, p) {
        var j: Id :| Outside(x, {k}, j) && x.moves(j, p);
        assert IsFlaggedPartner(f, t, k, p, j);
      }
    }
  }

  lemma FlaggedIsPartner(f: Feed, t: Tables, k: Id, j: Id)
    requires Exposed(f, t, k) && SharesVerified(f, t, k, j)
    ensures j in ScamPattern(f, t).rows && IsPartner(ScamPattern(f, t), {k}, j)
  {
    var p :| p in PairsOf(t, k) && IsVerified(t.pairs[p].status) && IsFlaggedPartner(f, t, k, p, j);
    assert ScamPattern(f, t).wanted(p) && ScamPattern(f, t).moves(j, p);
  }

  lemma PartnerIsFlagged(f: Feed, t: Tables, k: Id, j: Id)
    requires j in ScamPattern(f, t).rows && IsPartner(ScamPattern(f, t), {k}, j)
    ensures j in t.tokens && SharesVerified(f, t, k, j)
  {
    var p: Id :| p in PairsOf(t, k) && ScamPattern(f, t).wanted(p) && ScamPattern(f, t).moves(j, p);
    assert IsFlaggedPartner(f, t, k, p, j);
  }

  lemma FlaggedPartnersAre(f: Feed, t: Tables, k: Id)
    requires k in ScamPending(f)(t) && Exposed(f, t, k)
    ensures FlaggedPartners(f, t, k) == Partners(ScamPattern(f, t), {k})
  {
    forall j | j in FlaggedPartners(f, t, k) ensures j in Partners(ScamPattern(f, t), {k}) {
      FlaggedIsPartner(f, t, k, j);
    }
    forall j | j in Partners(ScamPattern(f, t), {k}) ensures j in FlaggedPartners(f, t, k) {
      PartnerIsFlagged(f, t, k, j);
    }
  }

  lemma DueIsPending(f: Feed, t: Tables, k: Id)
    requires k in DueForScamCheck(f)(t)
    ensures k in ScamPending(f)(t)
  {
  }

  ghost predicate NoneExposed(f: Feed, t: Tables) {
    forall k :: k in DueForScamCheck(f)(t) ==> !Exposed(f, t, k)
  }

  lemma ExposedIff(f: Feed, t: Tables, k: Id)
    requires k in DueForScamCheck(f)(t)
    ensures Exposed(f, t, k) <==> InSealed(ScamPattern(f, t), k)
  {
    DueIsPending(f, t, k);
    ExposedIsSealed(f, t, k);
    if InSealed(ScamPattern(f, t), k) {
      ScamPatternFits(f, t);
      SealedAlone(ScamPattern(f, t), k);
    } else {
      assert k in {k};
    }
  }

  /** Exactly when the scam pass is complete whatever the batches: when no due token is exposed. */
  lemma ScamPassCompleteIff(f: Feed, t: Tables)
    requires f.cutoff <= f.now && Trust.Linked(t) && FullListing(f)
    ensures AlwaysComplete(t, DueForScamCheck(f), ScamProcess(f)) <==> NoneExposed(f, t)
  {
    ScamFollows(f, t);
    ScamPassStamps(f);
    CompleteIff(t, DueForScamCheck(f), ScamProcess(f), ScamPending(f), _ => true, ScamPattern(f, t));
    forall k | k in DueForScamCheck(f)(t) ensures Exposed(f, t, k) <==> InSealed(ScamPattern(f, t), k) {
      ExposedIff(f, t, k);
    }
  }

  /** The scam pass processes due rows only, each once; and all of them when they fit into one batch or none is
      exposed. */
  lemma ScamPassProcesses(f: Feed, t: Tables, batch: nat, batches: seq<seq<Id>>)
    requires f.cutoff <= f.now && Trust.Linked(t) && FullListing(f)
    requires Drained(t, DueForScamCheck(f), ScamProcess(f), batch, batches)
    ensures Members(Flatten(batches)) <= DueForScamCheck(f)(t) && Distinct(Flatten(batches))
    ensures |DueForScamCheck(f)(t)| <= batch || NoneExposed(f, t) ==> Members(Flatten(batches)) == DueForScamCheck(f)(t)
    ensures forall k :: k in DueForScamCheck(f)(t) && k !in Flatten(batches) ==>
      !HasSurvivor(f, t, Members(Flatten(batches)), k)
  {
    ScamFollows(f, t);
    RunWasDue(t, DueForScamCheck(f), ScamProcess(f), ScamPattern(f, t), batch, batches, |batches|);
    RunWithin(t, DueForScamCheck(f), ScamProcess(f), ScamPattern(f, t), batch, batches, |batches|);
    AllBatches(batches);
    if |DueForScamCheck(f)(t)| <= batch {
      OneBatchTakesAll(t, DueForScamCheck(f), ScamProcess(f), batch, batches);
    }
    forall k | k in DueForScamCheck(f)(t) && k !in Flatten(batches)
      ensures !HasSurvivor(f, t, Members(Flatten(batches)), k) && Exposed(f, t, k)
    {
      ScamSelectionAfter(f, t, [], k);
      ScamSelectionAfter(f, t, Flatten(batches), k);
      LostInSealed(t, DueForScamCheck(f), ScamProcess(f), ScamPattern(f, t), batch, batches, k);
      ExposedIff(f, t, k);
    }
  }

  /** A due token that is exposed, and whose flagged partners fit into full batches that leave a due token out. */
  ghost predicate LosableScam(f: Feed, t: Tables, batch: nat, k: Id) {
    k in DueForScamCheck(f)(t) && Exposed(f, t, k) &&
    FullBatchesHold(|FlaggedPartners(f, t, k)|, batch, |DueForScamCheck(f)(t)|)
  }

  /** Exactly when the scam pass with this batch size processes the due rows: when for no exposed due token the flagged
      partners, rounded up to whole batches, are fewer than the due tokens. */
  lemma ScamBatchCompleteIff(f: Feed, t: Tables, batch: nat)
    requires f.cutoff <= f.now && Trust.Linked(t) && FullListing(f) && batch > 0
    ensures CompleteWith(t, DueForScamCheck(f), ScamProcess(f), batch) <==> forall k :: !LosableScam(f, t, batch, k)
  {
    ScamFollows(f, t);
    ScamPassStamps(f);
    BatchCompleteIff(t, DueForScamCheck(f), ScamProcess(f), ScamPending(f), _ => true, ScamPattern(f, t), batch);
    forall k ensures LosableScam(f, t, batch, k) <==> LosableWith(ScamPattern(f, t), DueForScamCheck(f)(t), batch, k) {
      LosableIff(f, t, batch, k);
    }
  }

  lemma LosableIff(f: Feed, t: Tables, batch: nat, k: Id)
    ensures LosableScam(f, t, batch, k) <==> LosableWith(ScamPattern(f, t), DueForScamCheck(f)(t), batch, k)
  {
    if k in DueForScamCheck(f)(t) {
      DueIsPending(f, t, k);
      ExposedIsSealed(f, t, k);
      if Exposed(f, t, k) { FlaggedPartnersAre(f, t, k); }
    }
  }
}
