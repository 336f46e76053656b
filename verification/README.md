# Verification of the DEX pair verifier

A Dafny model of the parts of the repository whose behaviour is hardest to see from the code, with proofs of
what they promise. Nothing here runs the original program; each module names the source files it follows.

Check everything with `dafny verify dfyconfig.toml`.

## What is modelled

**The verdict state machine.** `Verdict` is the adjudicator and its fences; `Fences` the checklist page's own
copy of the score; `Tables` and `Passes` the pair and token tables with every pass step as a function of them;
`VerdictRunner` the operations themselves, as a class whose methods write the rows and are proved equal to
those functions. On top of them:

- `Trust`: over every run of ingest, identity, canonical, factory, scam, review-scan, rescore and re-validation
  steps, with thresholds, caches and the clock changing between steps, operator statuses never change, and automatic
  verification never rests on a flagged or unverified token. A full re-validation restores this from any state.
- `EngineRules` and `RowRules` say what the engine decides in the columns of the rows themselves, without its fences:
  the first rule that applies to reserves, counts, prices, times and addresses. `PassLaws` and `IntakeLaws` say the same
  of each pass: which answers flag or confirm a token, how long an unidentified token waits, what an ingested pool
  decides about its pair, and what a complete pass leaves unchecked. `KeyLaws` spells out the canonical key.
- `Settling` and `SettlingTables`: re-validation is a feedback system, because a verified pair vouches for its
  siblings. With the inputs frozen and n pairs that no operator has set, k of which store a key their tokens no
  longer have, any sequence of verdict runs in any order changes a pair's status fewer than (k + 1)(2n + 2) times.
  Two passes settle statuses that the inputs can give, three settle any statuses once the stored keys are current,
  four settle any tables, and after five another pass changes nothing. `SettlingLadder` has tables that need the
  third pass, and tables with one stale key that need the fourth.
- `Drain`: the batched passes end, although processing adds rows to the selection, process no row twice, and process
  every due row or see it drop out of the selection. The factory and canonical passes read no status and process
  exactly the due rows; the canonical pass ends exactly when no due token has a coin id of white space. The scam, review
  and identity passes can lose a due row, for every batch size.
- `LossPattern`: exactly when they do. A selection of this kind reads pairs that the checks of other rows move. Its pass
  processes every due row whatever the batches if and only if no due row lies in a sealed set: rows whose pairs the
  checks of rows outside can all take out of what is wanted, none of which such a check puts in. Where checks only take
  pairs out, the condition for one batch size is exact as well. `DrainLosses` applies this to the scam pass whatever the
  stored keys, `ReviewLosses` to the review pass where the pairs it judges store current keys, `IdentityLosses` to the
  identity pass where, besides, no answer carries a coin id. The last two rest on `FixedVerdicts`: the verdict of a
  flagged pair, and of one below its source's floor, does not depend on what else is judged.

**The Merkle commitment.** SHA-256 is an arbitrary function with 32-byte results. A collision always means two
different byte strings, both among those hashed in the builds and walks at hand, with one digest: a collision
somewhere among all byte strings exists for any such function and would prove nothing. Odd levels repeat their
last node, so the binding theorem is an equivalence: two leaf lists share a root if and only if they are equal
once that repetition is written out, or a collision was hashed. Texts are sequences of UTF-16 code units, the
serialiser is undone by a parser, and the UTF-8 bytes decide the text. `MerkleBytes`, `LeafTexts` and `ByteLaws` fix
the bytes as literals: the prefixes 0 and 1, the text of every leaf, UTF-8 and hexadecimal digits.

**Price aggregation.** Prices are real numbers. The square root and Peirce's threshold are function arguments;
the theorems about Chauvenet's test need only that the square root is one. `MedianLaws` says what median, spread,
quartiles, each rule and the price are, on any ascending arrangement of the values.

**Small protocols.** The single-use challenge under every interleaving of its database statements, the anchor
queue with the drip's two statements apart, the fixed-window limiter, and Cosmos pool curation. `ProviderAccess` follows
a bearer from its challenge to its revocation, `BeaconSeeds` lists what the re-anchor backlog holds, and `PageLaws`
describes the curated page by its candidates alone.

## Where the code does not do what its documentation says

- Breakdown point (lib/stats.ts, comments before `median` and `isMadOutlier`): the MAD is 0 exactly when more than
  half the samples share one price (not at half of them), and then any sample with another price can move the
  aggregate anywhere, weighted or not; one sample in three suffices. k arbitrary samples cannot move it out of reach
  of a larger number of honest ones if and only if no honest price would become a majority with k - 1 further copies
  of it (`BreakdownPoint.BreakdownIff`). Honest prices that all differ are safe.
- A scam, review or identity pass can end without having processed, or stamped, a row that was due when it started:
  the check of another row took its pairs out of the wanted status first (`DrainExamples.DueRowLost`).
- Chauvenet at its default cutoff of 3 rejects nothing from ten or fewer samples, and whether a lone outlier is
  rejected does not depend on how far out it is (`ChauvenetTest.MaskingIff`).
- The checklist's score differs from the engine's when a token is identified only by a coin id of white space
  (`Fences.ScoresAgreeIff`).
- Browser and Node read malformed hexadecimal differently (`Hex.ReadersAgreeIff`).
- A challenge is not single-use for calls whose clock is 0, because 0 is the mark of an unused challenge
  (`ProviderRuns.ClockZeroReuses`).
- The re-anchor tag is lost from an untagged descriptor longer than 245 characters, and from a tagged one whose tag
  ends past the 256th (`BeaconQueue.MarkerSurvivesIff`).
- A leaf list and the same list with its odd last leaf repeated share a root (`MerkleTree.RepeatSharesRoot`).
- The canonical pass selects a token with a coin id of white space for ever (`Drain.CanonicalPassEndsIff`).

Two rows below, `Verdict.UnusableIff` and `Verdict.ReasonTellsVerdict`, are readings of the engine's branches rather
than results: the first is what the ladder's tables are judged by, the second says what a stored reason stands for.

## Model

| member | source | states |
|---|---|---|
| Verdict.ComputeConfidence | lib/verdict.ts:430-440 | the accumulating loop computes the share of weight that passed, 0 when nothing is weighed |
| Verdict.ConfidenceRange | lib/verdict.ts:430-440 | the score lies in [0, 1], and is 1 exactly when something was judged and nothing judged failed |
| Verdict.AutoVerifiedIff | lib/verdict.ts:524-699 | exactly when a pair is auto-verified: it was seen within so many days of 86400 seconds, every safety check holds and either a sibling vouches for a liquid pair or prices, score and maturity all pass |
| Verdict.RejectedIff | lib/verdict.ts:524-581 | exactly when a pair is rejected without review, going unseen for more than so many days of 86400 seconds among the causes; never a first-party pair for its depth |
| Verdict.UnusableIff | lib/verdict.ts:541-547 | a reading of the branches: exactly when a pair is the loser of a conflict on its own source |
| Verdict.ReasonTellsVerdict | lib/verdict.ts:514-699 | a reading of the branches: which verdict each persisted reason stands for |
| Verdict.SiblingOnlyPromotes | lib/verdict.ts:641-698 | a vouching sibling can only move a verdict to AutoVerified, never its score or key |
| Verdict.VerdictShape | lib/verdict.ts:445-699 | the engine never returns an operator's status; a flagged pair scores 0 and is not verified, any other scores the share passed |
| Verdict.TokenOrderIrrelevant | lib/verdict.ts:445-511 | swapping the two tokens changes neither verdict, reason nor score |
| EngineRules.FirstRuleDecides | lib/verdict.ts:445-699 | verdict and reason are those of the first rule that applies, each rule a condition on reserves, counts, prices, times and addresses without the engine's fences or a quotient; and the score, 0 for a flagged pair |
| EngineRules.ScoreIs | lib/verdict.ts:430-522 | the score of any pair is the quotient of two sums of weights, over what is known of the pair and over what of it is good |
| EngineRules.UnseenReasonIff | lib/unseen.ts:10-16 | exactly when a pair is out for going unseen: it is stamped and the stamp is more than maxUnseenDays times 86400 seconds old |
| Verdict.KeyExistsIff | lib/canonical.ts:29-44 | a pair has a key exactly when each token has a coin id as the identity fence understands it, so one of white space counts as none for both |
| Verdict.CanonicalKeyUnordered | lib/canonical.ts:37-44 | the key ignores token order |
| Verdict.CanonicalKeyDecides | lib/canonical.ts:37-44 | coin ids without a colon share a key exactly when they are the same unordered pair |
| KeyLaws.KeyIs | lib/canonical.ts:29-44 | the key character by character: both coin ids without the white space around them and in lower case, the smaller first, a colon between |
| JsString.ToLowerMoves | lib/canonical.ts:29-30 | lower-casing turns each of the twenty-six capitals into its small letter and leaves every other character |
| Fences.DeriveFences | lib/fences.ts:85-226 | fourteen rows in their order; all but `seen` show the engine's fences, a row is skipped exactly where the engine gives weight 0, `seen` fails exactly when the stamp is more than maxUnseenDays times 86400 seconds old, and the hard rows and the one hard failure are named |
| Fences.FenceConfidence | lib/fences.ts:229-233 | the loop computes the share of unskipped weight that passed |
| Fences.ScoresAgreeIff | lib/fences.ts:99-233 | for every pair, context and configuration the page's score is the engine's, except exactly when both tokens look identified and one has only a blank coin id |
| Fences.SharedRows | lib/phantomLiquidity.ts:22-46 | with the phantom-liquidity gate in both, the page's factory, liquidity, count and turnover rows mirror the engine's fences |
| VerdictRunner.TwoWritesAreOne | lib/statusWrite.ts:22-29 | for any filter the two batch writes are the row-by-row status write and their counts add up |
| VerdictRunner.OtherOrderCountsTwice | lib/statusWrite.ts:22-29 | in the other order a moved row is written and counted twice |
| VerdictRunner.Database.SetStatusWhere | lib/statusWrite.ts:22-29 | the token table afterwards is the row-by-row write, and the count is the rows that matched |
| VerdictRunner.Database.PromoteTokensToVerified | lib/tokenStatus.ts:16-31 | the listed tokens that are neither operator-set nor flagged become AutoVerified, with the stamp moved only on a change |
| VerdictRunner.Database.DemoteScamFlaggedTokens | lib/tokenStatus.ts:40-52 | flagged AutoVerified tokens in scope become NeedsReview, and the count is how many those were |
| VerdictRunner.Database.FindOthers | lib/verdictRunner.ts:105-157 | whether a verified pair of the same key on another source exists, and whether one on the same source has other contracts |
| VerdictRunner.Database.FindCanonical | lib/verdictRunner.ts:82-147 | the cached canonical contracts, live ones only on a conflict the cache cannot decide |
| VerdictRunner.Database.BuildVerdictContext | lib/verdictRunner.ts:70-210 | the engine's whole input as a function of the tables, and that it is the columns of the pair's row and its tokens' rows, each price on its own side; what they decide is `RowRules.RowDecides` |
| VerdictRunner.Database.RunVerdictForPair | lib/verdictRunner.ts:224-277 | both tables afterwards, unchanged without the persist option; an operator's pair is left alone, a verified verdict promotes both tokens |
| RowRules.RowDecides | lib/verdictRunner.ts:70-210 | the verdict of a stored pair is the first rule that applies to the columns of its own row and its tokens' rows |
| RowRules.PricesHold | lib/verdictRunner.ts:185-206 | a pair with a DEX price too far from the CoinGecko price of the same token is verified only when a verified pair elsewhere has its key, and exactly such pairs are held for their prices |
| RowRules.ColumnsHold | lib/verdictRunner.ts:160-210 | what takes a pair out or holds it, column by column: hooks, subgraph, flags, decimals, reserve, factory, last sighting |
| RowRules.TokenSetsAre | lib/verdictRunner.ts:63-69 | two pairs of contracts are one set exactly when they are the same two in either order, capitals apart |
| RowRules.RunWrites | lib/verdictRunner.ts:239-273 | the judged row afterwards, column by column, and that no other pair changes |
| RowRules.RunPromotes | lib/tokenStatus.ts:16-31 | which tokens a verified verdict promotes: its own two, neither operator-set nor flagged; every other token stays |
| RowRules.SweepWrites | lib/tokenStatus.ts:40-52 | exactly the flagged tokens in scope that stand at AutoVerified go into review |
| VerdictRunner.Database.RunScamCheckForToken | lib/scamCheck.ts:156-230 | both tables afterwards, when a check counts as done, that a flag re-judges every pair and demotes the token, and that the count is the pairs that went from AutoVerified to NeedsReview |
| VerdictRunner.Database.RescoreScamForToken | lib/scamCheck.ts:260-297 | both tables afterwards; only a changed flag re-judges the token's pairs; the flag returned is the one stored when an answer is cached |
| PassLaws.ListedAreJudged | lib/scamCheck.ts:205-224 | a pair judged among others ends with a verdict of the stored inputs, whatever is judged before or after it |
| PassLaws.ScamCheckWrites | lib/scamCheck.ts:59-203 | the token's row after a check: which answers flag it, more than a tenth of tax among them; an absent answer leaves what was cached; without evidence no pair is judged |
| PassLaws.EvidenceHolds | lib/scamCheck.ts:205-227 | evidence takes the token and every pair of it that no operator has set out of the verified |
| PassLaws.RescoreWrites | lib/scamCheck.ts:260-297 | the flag is the evidence of what is cached from both services, and nothing is stamped |
| PassLaws.RescoreJudges | lib/scamCheck.ts:270-294 | where that changes the flag, either way, the token's pairs are judged with the new one |
| PassLaws.ForeignFactoryHolds | lib/factoryCheck.ts:54-86 | a pool that another factory made is not left verified |
| PassLaws.ImpostorHolds | lib/canonicalCheck.ts:49-95 | a token that is not the contract its coin's canonical row names keeps its pairs from being verified |
| PassLaws.ConfirmationCounts | lib/identityCheck.ts:57-169 | a confirmed token comes up again after thirty days and leaves no pair unidentified whose other token is identified |
| PassLaws.WaitDoubles | lib/identityCheck.ts:57-74 | over n unsuccessful checks in a row the wait is the base doubled n - 1 times, at most ninety days, from an unchecked or a confirmed token |
| IntakeLaws.IngestStores | lib/ingest.ts:52-193 | the three rows a pool leaves, column by column, and that the verdict is run on them |
| IntakeLaws.FactsDecide | lib/ingest.ts:156-193 | what a pool's facts decide about its pair: hooks, subgraph, decimals, reserve, prices apart; and that it counts as seen |
| VerdictRunner.Database.RevalidatePass | lib/pipeline.ts:354-377 | every pair judged in turn, then the sweep over flagged tokens by its own clock; each tally is the number of pairs that came out so, and the sweep's count the flagged tokens that stood at AutoVerified before the pass |
| Trust.RunVerdictSound | lib/verdictRunner.ts:239-273 | judging makes the pair sound, unsettles no sound pair or token, and keeps operator statuses |
| Trust.DemoteSound | lib/tokenStatus.ts:40-52 | the sweep repairs its scope and touches no sound pair and no operator status |
| Trust.ScamCheckSound | lib/scamCheck.ts:192-227 | a scam check keeps the trust invariants although it flags a token of verified pairs |
| Trust.ReviewScanSound | lib/securitySignals.ts:34-61 | a review scan keeps them |
| Trust.RescoreSound | lib/scamCheck.ts:270-294 | a rescore keeps them in both directions of the flag |
| Trust.IdentityCheckSound | lib/identityCheck.ts:99-169 | an identity check keeps them |
| Trust.CanonicalCheckSound | lib/canonicalCheck.ts:49-95 | a canonical check keeps them |
| Trust.FactoryCheckSound | lib/factoryCheck.ts:54-86 | a factory check keeps them |
| Trust.IngestPoolSound | lib/ingest.ts:156-193 | ingesting a pool keeps them |
| Trust.RevalidateRepairs | lib/pipeline.ts:354-377 | a full re-validation makes any linked tables sound |
| Trust.EveryRunIsSound | lib/pipeline.ts:215-377 | over every run of steps the invariants hold and operator statuses never change |
| Trust.FreshRunIsSound | lib/ingest.ts:156-193 | in particular from empty tables, where rows start Unverified |
| Settling.LegitStepLowersRank | lib/verdictRunner.ts:105-126 | the energy: a step raises no pair's rank and a change lowers the changed pair's |
| Settling.FinitelyManyChanges | lib/verdictRunner.ts:105-126 | at most 2n + 1 changes of a pair over any run, two once every status is one its inputs can give |
| Settling.TwoPassesSettle | lib/pipeline.ts:354-368 | two passes, each in any order, settle such statuses |
| Settling.ThreePassesSettle | lib/pipeline.ts:354-368 | three passes settle any statuses |
| SettlingTables.RunVerdictIsStep | lib/verdictRunner.ts:224-277 | judging a pair whose stored key is current is one step of the network and keeps the network |
| SettlingTables.VerdictsChangeFinitelyOften | lib/verdictRunner.ts:224-277 | from any tables any sequence of verdict runs in any order changes a pair's status fewer than (k + 1)(2n + 2) times, k being the stale keys; at most 2n + 1 times with current keys |
| SettlingTables.FourPassesSettle | lib/pipeline.ts:354-368 | from any tables four passes settle every status |
| SettlingLadder.TwoPassesAreNotEnough | lib/pipeline.ts:354-368 | tables with current keys on which the third pass still changes a verdict |
| SettlingLadder.ThreePassesAreNotEnough | lib/pipeline.ts:354-368 | tables with one stale key on which the fourth pass still does |
| SettlingTables.SixthPassChangesNothing | lib/pipeline.ts:354-377 | after five passes a further one changes no column of either table |
| Drain.DrainBatches | lib/pipeline.ts:57-76 | the loop ends; its batches are a complete run, each row selected when its batch was fetched; no row is processed twice, and a row due at the start was processed or has dropped out unstamped |
| Drain.ExactDrain | lib/pipeline.ts:57-76 | where processing takes exactly the processed row out of the selection, every complete run processes exactly the due rows, each once |
| Drain.OneBatchTakesAll | lib/pipeline.ts:57-76 | in any pass, due rows that fit into one batch are all processed |
| Drain.ScamPassStamps | lib/scamCheck.ts:34-41 | processing a due token stamps it and no other, although it demotes and promotes pairs |
| Drain.ReviewPassStamps | lib/reviewEnrich.ts:19-26 | the same for the review scan, whose selection grows when pairs are demoted |
| Drain.IdentityPassStamps | lib/identityCheck.ts:29-74 | the same for the identity pass |
| Drain.FactoryPassStamps | lib/factoryCheck.ts:27-31 | the same for the factory pass |
| Drain.FactoryPassExact | lib/factoryCheck.ts:27-85 | and its selection loses exactly the pair that was read |
| Drain.CanonicalPassStamps | lib/canonicalCheck.ts:22-68 | the same for the canonical pass when no due coin id is blank |
| Drain.CanonicalPassExact | lib/canonicalCheck.ts:22-95 | and its selection loses exactly the token that was checked |
| Drain.CanonicalPassEndsIff | lib/canonicalCheck.ts:22-61 | the canonical selection can be emptied exactly when no due token has a blank coin id |
| Drain.FactoryPass | lib/pipeline.ts:257-275 | the rows processed are the pairs due, each once |
| Drain.CanonicalPass | lib/pipeline.ts:236-254 | the rows processed are the tokens due, each once, under its exact condition |
| Drain.ScamPass | lib/pipeline.ts:278-296 | a complete run that ends with nothing due, stamps exactly the rows processed, and processes a due token or sees it drop out |
| Drain.ReviewPass | lib/pipeline.ts:333-351 | the same for the review pass |
| Drain.IdentityPass | lib/pipeline.ts:215-233 | the same for the identity pass |
| IntakeLaws.VerifiedAreChecked | lib/scamCheck.ts:34-41 | after a complete scam pass both tokens of every verified pair have been checked since the cutoff |
| IntakeLaws.ReviewedAreScanned | lib/reviewEnrich.ts:19-26 | after a complete review pass both tokens of every pair in review have been scanned since the cutoff |
| IntakeLaws.UnlistedAreLookedAt | lib/identityCheck.ts:29-55 | after a complete identity pass a token without a coin id in a pair that its identity can affect has been looked at in this run, or its wait is not over |
| IntakeLaws.FactoriesAreTried | lib/factoryCheck.ts:27-31 | after a complete factory pass every pair without a factory has been tried since the cutoff |
| IntakeLaws.ListedAreCompared | lib/canonicalCheck.ts:22-27 | after a complete canonical pass every token with a coin id and a pair has been compared since the cutoff |
| IntakeLaws.OnlyThose | lib/scamCheck.ts:34-41 | and exactly which rows the scam, review and factory passes take up |
| LossPattern.CompleteIff | lib/pipeline.ts:57-76 | for any selection that reads pairs which other rows' checks move: every complete run of every batch size processes every due row if and only if no due row lies in a sealed set |
| LossPattern.SealedIsLost | lib/pipeline.ts:57-76 | a due row of a sealed set is lost with every batch size for which the outside rows that move its wanted pairs, rounded up to whole batches, are no more than the due rows outside |
| LossPattern.BatchCompleteIff | lib/pipeline.ts:57-76 | where checks only take pairs out of what is wanted: exactly when every complete run with one batch size processes exactly the due rows |
| DrainLosses.HeldAreProcessed | lib/pipeline.ts:57-76 | in the scam, review and identity passes, whatever the stored keys and the answers: a due row with a pair that no other pending row's check re-judges is processed, for every batch size and choice of batches |
| DrainLosses.ScamSelectionAfter | lib/scamCheck.ts:34-41 | the scam selection after any rows, from the tables before them; it never grows |
| DrainLosses.ScamPassProcesses | lib/pipeline.ts:278-296 | the scam pass processes due rows only, each once; all of them when they fit into one batch or none is exposed; a row it leaves has no verified pair left |
| DrainLosses.ScamPassCompleteIff | lib/pipeline.ts:278-296 | every complete run of every batch size processes every due row if and only if none is exposed: due only through automatic pairs shared with due tokens that get flagged |
| DrainLosses.ScamBatchCompleteIff | lib/pipeline.ts:278-296 | for any one batch size: every complete run processes exactly the due rows if and only if there is no exposed due token whose flagged partners, rounded up to whole batches, are fewer than the due tokens |
| FixedVerdicts.FixedVerdict | lib/verdict.ts:586-698 | where the judged pairs store current keys, a judged pair whose verdict no sibling changes gets that verdict, whatever is judged before and after it |
| ReviewLosses.ScansEffect | lib/securitySignals.ts:34-63 | after any scans: a pair that an operator has not set and a flagged token is in has the verdict it has when flagged, every other pair its old status |
| ReviewLosses.ReviewSelectionAfter | lib/reviewEnrich.ts:19-26 | the review selection after any scans, from the tables before them: the pending tokens not scanned with a pair that is in review then |
| ReviewLosses.ReviewPassCompleteIff | lib/pipeline.ts:333-351 | every complete run of every batch size scans every due token if and only if none lies in a set of pending tokens whose pairs in review outside scans take out, and whose pairs no outside scan brings in |
| ReviewLosses.ReviewLostWith | lib/pipeline.ts:333-351 | a due token of such a set is lost with every batch size for which the outside tokens that take its pairs out, rounded up to whole batches, are no more than the due tokens outside |
| IdentityLosses.IdentitySelectionAfter | lib/identityCheck.ts:46-56 | the identity selection after any due rows, each once, from the tables before them: a pair deep enough stays relevant, a shallow one is what the other token's confirmation makes of it |
| IdentityLosses.IdentityPassCompleteIff | lib/pipeline.ts:215-233 | the same condition for the identity pass: a set of due rows each of whose relevant pairs an outside confirmation judges, and none of whose pairs is relevant after one |
| DrainExamples.DueRowLost | lib/pipeline.ts:57-76 | for every batch size and each of the three passes, tables and a complete run in which a due row is never processed |
| MerkleTree.RootBinding | lib/merkle.ts:40-69 | roots are equal if and only if the leaf lists are equal with repetition written out, or a collision was hashed; any lengths, any depths |
| MerkleTree.RootCommits | lib/merkle.ts:40-69 | so a root commits to a list without repeats, and to any list of known length |
| MerkleTree.RepeatSharesRoot | lib/merkle.ts:52-60 | three leaves and the same with the last repeated share a root |
| MerkleTree.HeightIsCeilLog2 | lib/merkle.ts:52-60 | the number of levels above the leaves is the logarithm to base 2, rounded up |
| MerkleTree.ProofComplete | lib/merkle.ts:72-94 | every leaf's own proof walks to the root in one step a level |
| MerkleTree.ProofSound | lib/merkle.ts:29-37 | a walk of any length from a leaf's bytes that ends in a built root starts from a committed leaf, or a collision was hashed |
| Merkle.BuildMerkle | lib/merkle.ts:40-69 | the root, count and leaves are those of the specified tree, and of one leaf the digest of a zero byte and its text; what the root is in general is `MerkleBytes.RootIsDrawn` |
| Merkle.RootOfOne | lib/merkle.ts:29-37 | the root of one leaf is the hexadecimal digest of the byte 0 and its canonical text |
| MerkleBytes.RootIsDrawn | lib/merkle.ts:29-69 | the root of any leaves, drawn without the builder's loops: leaves in key order hashed after the byte 0, each node hashed after the byte 1 over the two below it, an odd last one twice |
| MerkleBytes.RootOfTwo | lib/merkle.ts:29-69 | the root of two leaves, given in either order: the byte 1, the digest of the leaf with the smaller sort key, the other |
| MerkleBytes.LeavesAre | lib/merkle.ts:40-69 | the count, and each leaf's key and digest; nothing for no input |
| MerkleBytes.SameKeyKeepsOrder | lib/merkle.ts:40-69 | leaves with one sort key stay in the order in which they were given |
| Merkle.BuildLevels | lib/merkle.ts:48-60 | the levels grown by the loop end in the root |
| Merkle.ProofForIndex | lib/merkle.ts:72-84 | the steps pushed are the siblings on the path, an odd last node being its own |
| Merkle.VerifyProof | lib/merkle.ts:87-94 | the loop accepts exactly when the walk from the leaf ends in the given 64-character root |
| MerkleVerify.Concat | lib/merkleVerify.ts:21-30 | the array filled at a moving offset is the parts in order |
| MerkleVerify.TraceLeafPreimage | lib/merkleVerify.ts:45-58 | the leaf hash, every step with its digest, the computed root and the answer |
| MerkleBytes.BrowserAcceptsShort | lib/merkleVerify.ts:45-58 | what the browser accepts with no step and with one, in the bytes 0 and 1, the sibling on the side the step names |
| MerkleBytes.NodeAcceptsShort | lib/merkle.ts:87-95 | the same for the Node verifier |
| MerkleVerify.PublishedLeavesVerify | lib/merkleVerify.ts:45-58 | every published leaf is accepted by both verifiers, with a proof of logarithmic length |
| MerkleVerify.InputOrderIrrelevant | lib/merkle.ts:40-69 | with distinct sort keys the whole result depends only on which inputs there are |
| MerkleVerify.VerifiersAgree | lib/merkleVerify.ts:14-58 | the two runtimes give one answer for every preimage, proof and root whose step hashes both read alike |
| MerkleVerify.PublishedRootCommits | lib/merkle.ts:40-69 | one root and leaf count commit to one list of values, or a collision was hashed; the count may go when no leaf repeats |
| MerkleVerify.AcceptedIsCommitted | lib/merkleVerify.ts:45-58 | what the browser accepts under a published root denotes a committed value, or a collision was hashed |
| MerkleVerify.SameBytesSameValue | lib/merkleCore.ts:71-80 | two values have the same hash input exactly when they are the same value |
| MerkleCore.PairLeafBytesDecide | lib/merkleCore.ts:93-106 | two pairs have the same hash input exactly when their committed facts agree |
| MerkleCore.TokenLeafBytesDecide | lib/merkleCore.ts:109-120 | two tokens have the same hash input exactly when they are equal |
| MerkleCore.PairAndTokenLeavesDiffer | lib/merkleCore.ts:93-120 | no pair and token share a hash input |
| MerkleCore.LookupKeysDecide | lib/merkleCore.ts:122-126 | with no slash in chain and exchange names two rows share a lookup key exactly when they are the same pool or contract |
| MerkleCore.PairTreeIgnoresOrder | lib/merkleCore.ts:128-133 | the pair tree, proofs included, is the same for every order of the pairs, because their sort keys differ even when coin ids hold spaces |
| MerkleCore.TokenTreeIgnoresOrder | lib/merkleCore.ts:134-138 | likewise the token tree |
| LeafTexts.PairLeafText | lib/merkleCore.ts:93-106 | the text that is hashed for a pair, field by field in alphabetical order |
| LeafTexts.TokenText | lib/merkleCore.ts:82-91 | the text of a token inside it |
| LeafTexts.TokenLeafText | lib/merkleCore.ts:109-120 | the text that is hashed for a token |
| LeafTexts.FourDecimals | lib/merkleCore.ts:93-106 | the confidence is kept as the nearest whole number of ten-thousandths, halves upwards |
| LeafTexts.LeafKeysAre | lib/merkleCore.ts:122-138 | lookup and sort keys spelled out |
| LeafTexts.LongEscapes | lib/merkleCore.ts:71-80 | which code units are written as four hexadecimal digits and which as themselves |
| LeafTexts.ShortEscapes | lib/merkleCore.ts:71-80 | the seven escapes of one letter |
| LeafTexts.ValueTexts | lib/merkleCore.ts:71-80 | the texts of null, of a string and of the version number |
| JsonCanonical.StringifyDecidesMeaning | lib/merkleCore.ts:71-80 | two values have the same text exactly when they denote the same value: insertion order never matters and nothing collides |
| JsonCanonical.StringifyIsPrint | lib/merkleCore.ts:71-80 | the serialiser prints the value with its keys sorted at every depth |
| JsonCanonical.StringifyParses | lib/merkleCore.ts:71-80 | a parser reads the text back completely |
| JsonText.ValueRoundTrip | lib/merkleCore.ts:71-80 | the parser reads any printed value and leaves exactly what follows it |
| JsonText.BodyRoundTrip | lib/merkleCore.ts:71-80 | string escaping, surrogates included, is undone |
| Utf8.DecodeEncode | lib/merkle.ts:29-31 | well-formed text comes back from its UTF-8 bytes |
| Utf8.TextFromBytes | lib/merkle.ts:29-31 | two JSON texts have the same bytes exactly when they are the same text |
| ByteLaws.UnitIs | lib/merkle.ts:29-31 | the bytes of a code unit are the encoding of its code point by RFC 3629, of the replacement character for half of a pair |
| ByteLaws.PairIs | lib/merkle.ts:29-31 | those of a surrogate pair the encoding of the one code point it stands for |
| Hex.HexRoundTrip | lib/merkleVerify.ts:14-19 | both readers undo the writer |
| Hex.ReadersAgreeIff | lib/merkleVerify.ts:14-17 | exactly on which texts the browser and Node read the same bytes |
| Hex.ReadersDiffer | lib/merkleVerify.ts:14-17 | a text on which they do not |
| ByteLaws.DigitsRead | lib/merkleVerify.ts:14-17 | two digits of either case are the same byte to both runtimes |
| ByteLaws.OthersRead | lib/merkleVerify.ts:14-17 | what the browser reads in a pair that is not two digits, where Node stops |
| ByteLaws.NodeReadsOn | lib/merkle.ts:87-95 | Node reads two digits after two digits |
| ByteLaws.NodeStops | lib/merkle.ts:87-95 | and stops at the first pair that is not two digits |
| ByteLaws.BrowserReadsOn | lib/merkleVerify.ts:14-17 | the browser reads on, and passes over the ends of lines |
| MerkleBytes.HexDigitsAre | lib/merkleVerify.ts:19 | digests are written with the high half of a byte first, in lower case |
| Breakdown.MedianInMajority | lib/stats.ts:224-231 | the median lies in every interval that holds more than half the values |
| Breakdown.MajorityBoundsSpread | lib/stats.ts:236-242 | and the MAD is at most such an interval's width |
| Breakdown.MadKeepsHalf | lib/stats.ts:249-261 | MAD keeps at least half the values, rounded up, always |
| Breakdown.MeansInside | lib/stats.ts:266-278 | either mean of values in an interval lies in it, for non-negative weights |
| Breakdown.BreakdownBound | lib/stats.ts:320-358 | the MAD price stays within 3.5/0.6745 interval widths of any interval holding more than half the prices, weighted or not |
| Breakdown.NoSpreadKeepsAll | lib/stats.ts:249-261 | with a MAD of 0 nothing is rejected |
| BreakdownPoint.NoSpreadIff | lib/stats.ts:236-247 | the MAD is 0 exactly when more than half of the values are the median |
| BreakdownPoint.NoSpreadBreaks | lib/stats.ts:249-261 | whenever it is, any sample away from the median can be repriced to bring the aggregate to any target, weighted or not |
| BreakdownPoint.BreakdownIff | lib/stats.ts:205-261 | the breakdown point: k arbitrary samples against more honest ones stay within the bound, whatever they say, if and only if no honest price would be a majority with k - 1 more copies |
| BreakdownPoint.DifferingPricesWithstand | lib/stats.ts:205-261 | so honest prices that all differ withstand every smaller number of others |
| BreakdownPoint.OneInThreeBreaks | lib/stats.ts:205-261 | and two equal prices do not withstand one |
| ChauvenetTest.CancellingBound | lib/stats.ts:149-175 | a deviation from the mean is bounded by the spread it is part of |
| ChauvenetTest.NothingRejectedFromTen | lib/stats.ts:185-204 | at the default cutoff nothing is rejected from ten or fewer values |
| ChauvenetTest.ElevenRejects | lib/stats.ts:185-204 | with eleven every lone outlier is rejected, so ten is the exact bound |
| ChauvenetTest.RejectionBound | lib/stats.ts:185-204 | r * dMax^2 <= n - 1 for the number rejected |
| ChauvenetTest.MaskingIff | lib/stats.ts:185-204 | exactly when a lone outlier is rejected, whatever its distance |
| Stats.CalculateMean | lib/stats.ts:98-107 | the loop computes the mean, 0 for none |
| Stats.RemoveOutliersChauvenet | lib/stats.ts:185-204 | the loop keeps exactly the values within the cutoff, all when there is no spread |
| Stats.RemoveOutliersPeirce | lib/stats.ts:52-73 | the rounds end, k growing strictly and never passing the number of values, and keep what the last round's threshold admits |
| Stats.RemoveOutliersByMethod | lib/stats.ts:298-312 | the survivors are the prices the method's rule keeps, as a multiset |
| Stats.ComputeWeightedMean | lib/stats.ts:266-278 | the liquidity-weighted mean, the plain mean when no weight is positive |
| Stats.MatchSurvivors | lib/stats.ts:332-347 | matching survivors back to samples by counts splits them by the rule |
| Stats.AggregatePrices | lib/stats.ts:320-358 | kept and rejected samples, their counts and the price; what each rule keeps and what the price is are the `MedianLaws` below |
| MedianLaws.MedianInMiddle | lib/stats.ts:224-231 | twice the median is the sum of the two middle values of any ascending arrangement |
| MedianLaws.MedianMirrored | lib/stats.ts:224-231 | the median of the negated values is minus the median |
| MedianLaws.MadInMiddle | lib/stats.ts:236-242 | twice the MAD is the sum of the two middle distances from the median |
| MedianLaws.MadMirrored | lib/stats.ts:236-242 | and it does not change when the values are negated |
| MedianLaws.MadKeepsIff | lib/stats.ts:205-261 | exactly which values MAD keeps, in the middle values, 0.6745 and 3.5 |
| MedianLaws.MadRuleMirrored | lib/stats.ts:249-261 | mirrored values are kept as their originals are |
| MedianLaws.DefaultThreshold | lib/stats.ts:221-261 | the default method is the MAD rule at 3.5 |
| MedianLaws.IqdKeepsIff | lib/stats.ts:75-96 | exactly which values the quartile rule keeps, the quartiles interpolated between neighbours |
| MedianLaws.ChauvenetKeepsIff | lib/stats.ts:185-204 | exactly which values Chauvenet's test keeps, at a default cutoff of 3 |
| MedianLaws.MomentsAre | lib/stats.ts:98-175 | mean and variance as the sums they come from, over n and over n - 1 |
| MedianLaws.PeirceKeepsIff | lib/stats.ts:52-73 | what Peirce's rounds keep: the values near the mean in the first round that rejects no more than it suspects |
| MedianLaws.PriceBalances | lib/stats.ts:348-358 | the price is the point around which the kept samples balance, by liquidity when that is asked for and there is any |
| MedianLaws.NothingKept | lib/stats.ts:348-358 | the price of nothing is 0 |
| MedianLaws.MissingWeighsNothing | lib/stats.ts:266-278 | a value without a weight weighs nothing |
| MedianLaws.OrderKept | lib/stats.ts:332-347 | kept and rejected samples stand in the order in which they came |
| Aggregation.PartitionExact | lib/stats.ts:320-358 | kept and rejected make up the samples as a multiset, kept prices are the survivors, and equal prices share a side |
| Aggregation.RulePermutation | lib/stats.ts:298-312 | every method's rule depends on the values and not on their order |
| Aggregation.SampleOrderIrrelevant | lib/stats.ts:320-358 | price and counts do not depend on sample order |
| Scientific.ScientificToDecimal | lib/stats.ts:114-147 | for every number text the output has no exponent, keeps the sign and reads as coefficient times ten to the exponent |
| Scientific.WriteOut | lib/stats.ts:120-143 | the digits with the point moved, for coefficients of any length |
| ProviderAuth.AuthTables.CreateChallenge | lib/providerAuth.ts:67-83 | one row added for a known chain and a fresh nonce, nothing otherwise |
| ProviderAuth.AuthTables.FindNewest | lib/providerAuth.ts:96-102 | a newest live challenge of the wallet and chain, none only when there is none |
| ProviderAuth.AuthTables.ConsumeChallenge | lib/providerAuth.ts:114-120 | the conditional update and its count |
| ProviderAuth.AuthTables.VerifyAndIssueToken | lib/providerAuth.ts:89-128 | an uninterrupted call is five statements of the interleaved model, and issues or refuses accordingly |
| ProviderAuth.AuthTables.LookupLiveToken | lib/providerAuth.ts:133-140 | the answer: the row's own wallet and chain when it is unrevoked and unexpired, none otherwise or for an unknown hash; and that only the use stamp of an accepted row moves |
| ProviderRuns.SingleUse | lib/providerAuth.ts:113-120 | over every interleaving two calls that got bearers for one challenge include one whose clock was 0 |
| ProviderRuns.BearerProvenance | lib/providerAuth.ts:89-128 | every bearer comes from a call signed for a challenge of its wallet and chain, unexpired at the call's clock and consumed by it |
| ProviderRuns.SignedText | lib/providerAuth.ts:33-83 | what was signed names the bearer's wallet, chain and router and was issued less than five minutes before |
| ProviderRuns.AcceptedBearer | lib/providerAuth.ts:133-140 | an accepted bearer is within its lifetime and was earned by such a signature |
| ProviderAccess.RevokedIsRefused | lib/providerAuth.ts:133-140 | over every run a bearer revoked and not restored since is refused at every clock |
| ProviderAccess.LookupAnswers | lib/providerAuth.ts:133-140 | in every reachable table a bearer unrevoked and within its lifetime is answered with its own wallet and chain, any other refused |
| ProviderAccess.UnknownIsRefused | lib/providerAuth.ts:133-140 | a hash of no row is refused |
| ProviderAccess.LookupStamps | lib/providerAuth.ts:133-140 | a lookup moves the use stamp of the bearer it accepts and nothing else |
| ProviderAccess.IssuedIsAccepted | lib/providerAuth.ts:89-140 | a bearer that nobody revoked is accepted exactly until its lifetime after the clock of the call that issued it |
| ProviderAccess.CallIssuesIff | lib/providerAuth.ts:89-128 | exactly when an uninterrupted call issues a bearer, and both tables afterwards |
| ProviderAccess.NoneOpenRefuses | lib/providerAuth.ts:96-107 | without an open challenge a call is refused and changes nothing |
| ProviderAccess.FreshChallengeServes | lib/providerAuth.ts:67-110 | a new challenge is the one the wallet's next call goes by, for three hundred seconds; the fields of its text |
| ProviderAccess.ExpiredServesNone | lib/providerAuth.ts:96-102 | it serves no call after that, nor another wallet or chain |
| ProviderRuns.BearersWithinConsumed | lib/providerAuth.ts:113-125 | with clocks running there are never more bearers than consumed challenges |
| ProviderRuns.ClockZeroReuses | lib/providerAuth.ts:113-120 | at clock 0 one challenge yields two bearers |
| BeaconQueue.QueueTable.Enqueue | lib/beaconQueue.ts:19-25 | the table with the absent items added, and how many those were |
| BeaconQueue.QueueTable.NextPending | lib/beaconQueue.ts:39-45 | the unanchored row with the least id |
| BeaconQueue.QueueTable.MarkAnchored | lib/beaconQueue.ts:47-49 | exactly that row stamped |
| BeaconQueue.QueueTable.QueueStats | lib/beaconQueue.ts:51-57 | pending and anchored together are all rows |
| BeaconQueue.QueueTable.SeedReanchorBacklog | lib/beaconQueue.ts:66-81 | the table with a re-anchor row for every seed not yet there |
| BeaconQueue.ReanchorMetaIdempotent | lib/beaconQueue.ts:16 | tagging twice is tagging once, even when the tag was cut |
| BeaconQueue.MarkerSurvivesIff | lib/beaconQueue.ts:16 | exactly when the marker survives: an untagged descriptor leaves eleven characters for it, or a tagged one carries it within the first 256 |
| BeaconRuns.InsertAllKeyed | lib/beaconQueue.ts:19-25 | rows stay unique on stream and hash and in id order |
| BeaconRuns.EnqueueTwice | lib/beaconQueue.ts:19-25 | enqueueing the same items again changes nothing |
| BeaconRuns.FirstPendingIsNext | lib/beaconQueue.ts:39-45 | in id order the first unanchored row is the one returned |
| BeaconRuns.AnchoredOnceInOrder | lib/beaconQueue.ts:39-49 | over every run, with enqueues between pick and mark and restarts, rows are anchored in ascending id order and once, and pending plus anchored is all |
| BeaconRuns.AnchoredRowsStay | lib/beaconQueue.ts:47-49 | no later step touches an anchored row |
| BeaconRuns.DrainStampsOldest | lib/beaconQueue.ts:39-49 | draining stamps the oldest pending rows in turn and nothing else |
| BeaconRuns.SeedCoversExactly | lib/beaconQueue.ts:59-81 | afterwards a hash is queued for re-anchoring exactly if it was, or is an anchored leaf or fulfilment, or a recorded root |
| BeaconSeeds.SeededRowsAre | lib/beaconQueue.ts:14-81 | each row that seeding adds, column by column: the stream, the key and hash of an anchored leaf or fulfilment, or of a root's earliest record, and the marked descriptor cut after 256 characters |
| BeaconSeeds.NothingLeftOut | lib/beaconQueue.ts:66-81 | every recorded root and every anchored leaf and fulfilment is queued again |
| BeaconRuns.OwnStreamNeverSeeds | lib/beaconQueue.ts:66-70 | rows of the re-anchor stream never seed |
| BeaconRuns.SeedAgainAddsNothing | lib/beaconQueue.ts:59-81 | seeding again adds nothing, at once or after draining any seeded rows |
| RateLimit.Limiter.RateLimit | lib/rateLimit.ts:13-24 | the answer and the window map afterwards |
| RateLimit.WindowBound | lib/rateLimit.ts:13-24 | a key's running window never holds more than max(1, limit) allowed calls |
| RateLimit.IntervalBound | lib/rateLimit.ts:13-24 | no half-open interval of one window length holds more than 2 * max(1, limit) - 1 allowed calls |
| RateLimit.BoundReached | lib/rateLimit.ts:13-24 | for every limit some run reaches that bound |
| RateLimit.OtherKeysIrrelevant | lib/rateLimit.ts:14-15 | an answer depends only on earlier calls of the same key |
| CosmosPage.BuildCosmosPage | lib/cosmosPage.ts:46-105 | the three loops compute the curated page |
| CosmosPage.KeepDeepest | lib/cosmosPage.ts:54-63 | the map loop keeps one candidate per key in first-seen order |
| Curation.SurvivorsAreWinners | lib/cosmosPage.ts:54-63 | what is kept is exactly the first candidate of maximal reserve of each key |
| Curation.PageExactly | lib/cosmosPage.ts:46-105 | a pool is on the page exactly when it is the oriented first candidate of greatest depth of its key, with positive prices and differing symbols |
| Curation.PageByPair | lib/cosmosPage.ts:46-105 | where no two listed pairs share a key this is the deepest pool of each denom pair |
| Curation.NoPipesSeparate | lib/cosmosPage.ts:57 | which holds when no registered denom contains the separator |
| Curation.OnePoolPerPair | lib/cosmosPage.ts:54-63 | at most one pool per unordered denom pair |
| Curation.TokensExactly | lib/cosmosPage.ts:65-102 | the token map holds exactly the emitted sides, with registry entry and a price one of the pools gives |
| PageLaws.PageShows | lib/cosmosPage.ts:46-105 | a pool is on the page exactly when it shows a best candidate that can be a feed, each side with its own price, a lone stablecoin as the quote |
| PageLaws.EveryPoolIs | lib/cosmosPage.ts:65-102 | what a reader of the page can rely on: registered sides, two symbols, positive prices, no stablecoin against a quote that is none |
| PageLaws.CountIs | lib/cosmosPage.ts:46-105 | the count is the number of candidates with an id and two registered denoms |
| Curation.OrderIrrelevant | lib/cosmosPage.ts:46-105 | without ties the emitted pools do not depend on candidate order |
| Curation.TieFollowsOrder | lib/cosmosPage.ts:59 | with a tie the first listed pool is emitted |
| Curation.PipesCollide | lib/cosmosPage.ts:57 | two different pairs share a key when a denom contains the separator, and one of them is left off the page |

## Left out

- HTTP clients, RPC and subgraph reads, pacing and back-off: their answers are arguments of the steps, and so is the order in which a query returns rows.
- SQL and Prisma: tables are maps and sequences, each statement is atomic, and a pair always has its token rows.
- SHA-256 and signature recovery: arbitrary functions, the hash with 32-byte results.
- Floating point: prices, reserves and scores are real numbers; rounding, NaN and infinities are not modelled, and `peirceDev`, `erfc` and `cleanseForBn` are not.
- JavaScript numbers in committed values are integers below 10^21, which is what the leaves hold.
- `toLowerCase` is modelled on ASCII, which is what addresses, denoms and coin ids are made of.
- The cache row that a live canonical lookup writes during a conflict: the settling theorems keep caches and live answers fixed.
- Evidence texts, the review tier and the prose of reasons: only the reason's code is kept.
- The status write over pairs, which is the same code as the one over tokens.
- Operator endpoints, sessions, React pages and formatters, API handlers and the worker processes.
- `findProof`, the anchor memo, heartbeats, the fulfilment cursor and the static catalogues.
- The rendering of the signed challenge as text: its fields are kept as a record.
- The constant fields of curated pools and tokens (market cap, trade counts), which are always 0 or null.
- What the passes report to their logs (totals, counts of confirmations, promotions and mismatches), the re-validation's tallies excepted.
- DrainLosses.HeldAreProcessed: says what keeps a due row and not exactly when one is lost; the exact conditions are `DrainLosses.ScamBatchCompleteIff`, `ReviewLosses.ReviewPassCompleteIff` and `IdentityLosses.IdentityPassCompleteIff`.
- ReviewLosses.ReviewPassCompleteIff: says nothing where a pair that a scan judges stores an old key: judging it changes the key, with it the conflicts of other pairs on its source, and so verdicts that then depend on the order.
- ReviewLosses.ReviewLostWith: for one batch size it is one direction only. Scans also bring rows into the selection, and whether the batches stay full until a row is gone depends on which rows were chosen for the earlier ones.
- IdentityLosses.IdentityPassCompleteIff: says nothing of old keys either, nor of answers that carry a coin id, which change keys in the middle of the pass.
- ProviderRuns.SingleUse: says nothing of calls whose clock is 0, because the code does not keep it for them.
- Scientific.WriteOut: for a negative exponent shorter than the digits before the point, which no number text has, it states where the code puts the point and not that this is right.
