/** For each pass whose selection reads statuses, and for every batch size: a due row that is never processed. */
module DrainExamples {
  import opened Wrappers
  import opened JsString
  import opened Verdict
  import opened Tables
  import opened Passes
  import opened Drain
  import opened DrainLosses
  import opened DrainRuns
  import Trust

  const NOW := 1000000

  /** Tokens 0 to n are pending, token n + 1 is not. Pair 0 joins tokens 0 and n, pair i below n joins tokens i and
      n + 1. None has been seen for more than eleven days, so judging a pair rejects it. */
  function LossToken(n: nat, k: Id): TokenRow {
    var stamp := if k == n + 1 then NOW else 0;
    TokenRow([1], [1], [], 18, None, false, false, None, None, stamp, stamp, 0, stamp, stamp, Unverified, 0, Import)
  }

  function LossPair(kind: Kind, n: nat, p: Id): PairRow {
    PairRow([1], [1], [1], p, if p == 0 then n else n + 1, 0.0, 0.0, 0, 0.0, 0.0, 0.0, 0.0, None, 0, false, None, 1,
      if kind.Scam? then AutoVerified else NeedsReview, 0, Import, None, 0.0, 0, None)
  }

  function LossTables(kind: Kind, n: nat): Tables {
    Tables(map p: Id | 0 <= p < n :: LossPair(kind, n, p), map k: Id | 0 <= k < n + 2 :: LossToken(n, k))
  }

  const LOSS_CONFIG: VerdictConfig := VerdictConfig(25000.0, 5, 0.0, 24.0, 5.0, 0, 36, 5000.0, 0.85, 8.0)

  /** Only token 0 is a honeypot, and only its identity is confirmed. */
  ghost function LossFeed(): Feed {
    Feed(
      World((_: Str, _: Str) => LOSS_CONFIG, (_: Str, _: Str) => None, (_: Str, _: Str) => None,
        (_: Str, _: Str) => None, (_: Str, _: Str) => false, (_: Str) => false, (_: Str) => true, (_: Str) => true),
      NOW, NOW, 0, (_: Str, _: Str) => true, (t: Tables, k: Id) => ListAll(PairsOf(t, k)),
      (_: Id) => None, (k: Id) => if k == 0 then Some(true) else None, (k: Id) => k == 0,
      (_: Id) => None, (_: Id) => None, (_: Id) => None)
  }

  lemma LossListing()
    ensures FullListing(LossFeed())
  {
    forall t: Tables, k: Id ensures Lists(LossFeed().listing(t, k), PairsOf(t, k)) {
      ListAllLists(PairsOf(t, k));
    }
  }

  lemma LossPairsOf(kind: Kind, n: nat, k: Id)
    requires n >= 1
    ensures k < n ==> PairsOf(LossTables(kind, n), k) == {k}
    ensures k == n ==> PairsOf(LossTables(kind, n), k) == {0}
  {
  }

  function UpTo(n: nat): seq<Id> {
    seq(n, i requires 0 <= i < n => i)
  }

  lemma LossDue(kind: Kind, n: nat)
    requires n >= 1
    ensures Due(LossFeed(), kind)(LossTables(kind, n)) == Members(UpTo(n + 1))
  {
    var t := LossTables(kind, n);
    forall k: Id ensures k in Due(LossFeed(), kind)(t) <==> k in Members(UpTo(n + 1)) {
      DueIff(LossFeed(), kind, t, k);
      InUpTo(n + 1, k);
      if k <= n {
        LossPairsOf(kind, n, k);
        var p: Id := if k == n then 0 else k;
        assert p in PairsOf(t, k) && Wanted(LossFeed(), kind, t.pairs[p]);
      }
    }
  }

  lemma InUpTo(n: nat, k: Id)
    ensures k in UpTo(n) <==> k < n
    ensures k in Members(UpTo(n)) <==> k < n
    ensures Distinct(UpTo(n)) && |UpTo(n)| == n
  {
    if k < n { assert UpTo(n)[k] == k; }
  }

  lemma UpToWithin(n: nat)
    ensures Members(UpTo(n)) <= Members(UpTo(n + 1))
    ensures |Members(UpTo(n))| == n
  {
    forall k | k in Members(UpTo(n)) ensures k in Members(UpTo(n + 1)) {
      InUpTo(n, k);
      InUpTo(n + 1, k);
    }
    InUpTo(n, 0);
    DistinctSize(UpTo(n));
  }

  lemma LossPending(kind: Kind, n: nat)
    ensures PendingOf(LossFeed(), kind)(LossTables(kind, n)) == Members(UpTo(n + 1))
  {
    forall k ensures k in PendingOf(LossFeed(), kind)(LossTables(kind, n)) <==> k in Members(UpTo(n + 1)) {
      InUpTo(n + 1, k);
    }
  }

  predicate Unseen(t: Tables, w: World, now: int, p: Id)
    requires p in t.pairs
  {
    IsUnseenTooLong(t.pairs[p].lastChecked, now, w.config(t.pairs[p].chain, t.pairs[p].dex).maxUnseenDays)
  }

  lemma UnseenKept(t: Tables, w: World, ids: seq<Id>, now: int, p: Id)
    requires Judgeable(t, p)
    ensures var u := RunAll(t, w, ids, now); Judgeable(u, p) && (Unseen(u, w, now, p) <==> Unseen(t, w, now, p))
  {
    RunAllKeepsInputs(t, w, ids, now);
    RunAllManual(t, w, ids, now, p);
    assert SamePairInputs(t.pairs[p], RunAll(t, w, ids, now).pairs[p]);
  }

  lemma UnseenJudged(t: Tables, w: World, now: int, p: Id)
    requires Judgeable(t, p) && Unseen(t, w, now, p)
    ensures var u := RunVerdict(t, w, p, now); p in u.pairs && u.pairs[p].status == AutoRejected
  {
    var (input, context) := ContextOf(t, w, p, now);
    RejectedIff(input, context);
  }

  /** A pair that has gone unseen too long is rejected by any judgement. */
  lemma {:induction false} UnseenRejected(t: Tables, w: World, ids: seq<Id>, now: int, p: Id)
    requires p in ids && Judgeable(t, p) && Unseen(t, w, now, p)
    ensures var u := RunAll(t, w, ids, now); p in u.pairs && u.pairs[p].status == AutoRejected
  {
    var front, last := ids[..|ids| - 1], ids[|ids| - 1];
    assert ids == front + [last];
    if last == p {
      UnseenKept(t, w, front, now, p);
      UnseenJudged(RunAll(t, w, front, now), w, now, p);
    } else {
      UnseenRejected(t, w, front, now, p);
    }
  }

  lemma LossFirst(kind: Kind, n: nat)
    requires n >= 1
    ensures var u := ProcessOf(LossFeed(), kind)(LossTables(kind, n), 0);
      0 in u.pairs && u.pairs[0].status == AutoRejected
  {
    var f, t := LossFeed(), LossTables(kind, n);
    LossListing();
    LossPairsOf(kind, n, 0);
    var order := f.listing(t, 0);
    assert Lists(order, PairsOf(t, 0)) && 0 in order;
    var r := if kind.Identity? then WithIdentity(f, t.tokens[0], 0)
      else WithScamAnswer(t.tokens[0], f.now, f.security(0), f.honeypot(0));
    UnseenRejected(t.(tokens := t.tokens[0 := r]), f.w, order, f.now, 0);
    if kind.Review? { ReviewScanRow(f, t, 0); }
  }

  lemma LossTouches(kind: Kind, j: Id)
    ensures Touches(LossFeed(), kind, j) <==> j == 0
  {
  }

  lemma UpToTail(n: nat)
    requires n >= 1
    ensures UpTo(n) == [0] + UpTo(n)[1..] && forall j :: j in UpTo(n)[1..] ==> j != 0
  {
  }

  lemma LossRejected(kind: Kind, n: nat)
    requires n >= 1
    ensures var u := ProcessAll(LossTables(kind, n), ProcessOf(LossFeed(), kind), UpTo(n));
      0 in u.pairs && u.pairs[0].status == AutoRejected
  {
    var rest := UpTo(n)[1..];
    LossListing();
    LossFirst(kind, n);
    UpToTail(n);
    ProcessAllCons(LossTables(kind, n), ProcessOf(LossFeed(), kind), 0, rest);
    forall j | j in rest ensures !Touches(LossFeed(), kind, j) {
      LossTouches(kind, j);
    }
    UntouchedThroughout(LossFeed(), kind, ProcessOf(LossFeed(), kind)(LossTables(kind, n), 0), rest, 0);
  }

  lemma LossStamped(kind: Kind, n: nat)
    requires n >= 1
    ensures PendingOf(LossFeed(), kind)(ProcessAll(LossTables(kind, n), ProcessOf(LossFeed(), kind), UpTo(n))) ==
      Members(UpTo(n + 1)) - Members(UpTo(n))
  {
    var f, t := LossFeed(), LossTables(kind, n);
    PassStamps(f, kind);
    InUpTo(n, 0);
    LossPending(kind, n);
    UpToWithin(n);
    StampedBatch(t, Due(f, kind), ProcessOf(f, kind), PendingOf(f, kind), _ => true, UpTo(n));
  }

  /** After the first batch token n is unstamped, its only pair rejected, and no row is selected. */
  lemma LossEnd(kind: Kind, n: nat)
    requires n >= 1
    ensures Due(LossFeed(), kind)(ProcessAll(LossTables(kind, n), ProcessOf(LossFeed(), kind), UpTo(n))) == {}
  {
    var u := ProcessAll(LossTables(kind, n), ProcessOf(LossFeed(), kind), UpTo(n));
    LossRejected(kind, n);
    LossStamped(kind, n);
    forall k ensures k !in Due(LossFeed(), kind)(u) {
      LossNotDue(kind, n, u, k);
    }
  }

  lemma LossNotWanted(kind: Kind, n: nat, u: Tables)
    requires n >= 1 && u == ProcessAll(LossTables(kind, n), ProcessOf(LossFeed(), kind), UpTo(n))
    requires 0 in u.pairs && u.pairs[0].status == AutoRejected
    ensures !HasWanted(LossFeed(), kind, u, n)
  {
    var t := LossTables(kind, n);
    InUpTo(n, n);
    LossPairsOf(kind, n, n);
    KeptThroughout(LossFeed(), kind, t, UpTo(n), n);
    assert SamePairInputs(t.pairs[0], u.pairs[0]);
  }

  lemma LossNotDue(kind: Kind, n: nat, u: Tables, k: Id)
    requires n >= 1 && u == ProcessAll(LossTables(kind, n), ProcessOf(LossFeed(), kind), UpTo(n))
    requires 0 in u.pairs && u.pairs[0].status == AutoRejected
    requires PendingOf(LossFeed(), kind)(u) == Members(UpTo(n + 1)) - Members(UpTo(n))
    ensures k !in Due(LossFeed(), kind)(u)
  {
    PassStamps(LossFeed(), kind);
    assert k in Due(LossFeed(), kind)(u) ==> k in PendingOf(LossFeed(), kind)(u);
    InUpTo(n, k);
    InUpTo(n + 1, k);
    DueIff(LossFeed(), kind, u, k);
    LossNotWanted(kind, n, u);
  }

  lemma LossLinked(kind: Kind, n: nat)
    requires n >= 1
    ensures Trust.Linked(LossTables(kind, n))
  {
  }

  /** For every batch size and each of the three passes: tables with one row more due than a batch takes, and a
      complete run in which that row is never processed. */
  lemma DueRowLost(kind: Kind, n: nat)
    requires n >= 1
    ensures var f, t := LossFeed(), LossTables(kind, n);
      && FullListing(f) && Trust.Linked(t) && n in Due(f, kind)(t)
      && Drained(t, Due(f, kind), ProcessOf(f, kind), n, [UpTo(n)]) && n !in Flatten([UpTo(n)])
  {
    LossListing();
    LossLinked(kind, n);
    LossDue(kind, n);
    LossEnd(kind, n);
    UpToWithin(n);
    UpToWithin(n + 1);
    InUpTo(n + 1, n);
    InUpTo(n, n);
    OneFetch(LossTables(kind, n), Due(LossFeed(), kind), ProcessOf(LossFeed(), kind), n, UpTo(n));
  }
}
