# Anchor, verified

Anchor prices a storefront by campaign. It keeps a baseline price for every variant, writes sale
prices one ledger row at a time, and promises four things: each variant shows the price of exactly
one campaign, ending a campaign recomputes prices from the baseline, a run cut anywhere can be
resumed, and a run is called clean only when every price was read back. This project models that
engine and the self-contained algorithms around it in Dafny, and proves those promises, or says
exactly where the code breaks one.

## How it is laid out

* **The campaign protocol.** `Lifecycle`, `Ranking` and `Ledger` are the campaign's states, the
  winner ordering and the ledger. `Protocol` is the state machine: the live prices, the mirror the app
  believes, every campaign's claim, latest run, ledger and process, and Shopify's bulk operations. One
  event is one commit to the database or one answer from the store: a claim, a ledger written whole or
  in part, one row sent, refused, read back or recorded, an operation submitted, noted, worked through
  and collected, the mirror settled, the run finished, the campaign closed, a process killed, a run
  reclaimed. A kill can come between any two. `ProtocolInvariant` says what every step keeps;
  `ProtocolFrame`, `ProtocolSteps`, `ProtocolSends`, `ProtocolRecords`, `ProtocolEnds` and
  `ProtocolBulk` prove each step keeps it; `ProtocolTheorems` puts them together over runs;
  `ProtocolRest`, `ProtocolAccounts` (what outstanding rows account for), `ProtocolPromises`, `ProtocolLedger`
  (what a row says), `ProtocolLanding` (what becomes of a landed price and of a recorded operation) and
  `ProtocolResume` draw the promises from it. `ProtocolAnswers` follows a run from its plan to its close over
  any number of rows, whatever the store answers for each, row by row, in one operation, or in one nobody is left
  waiting for; `ProtocolWholeRuns` is the run nothing goes wrong with, from its claim on. `ProtocolFindings` gives the states from which a promise fails and the steps that
  lead there, and `ProtocolTraces` reaches each from a fresh storefront, event by event. `ClaimRace` takes
  the claim itself apart, request by request, with any number of processes at once.
* **What a campaign prices.** `Money`, `Rounding`, `Resolver` and `Planner` are exact rounding, rounding
  profiles, rules with guardrails and strike-throughs, and the run planner. `ResolverPromises` says what each
  answer of the resolver means, without its steps. `Catalogue` joins the two halves: the protocol's target for
  a variant is what the resolver makes of the campaigns covering it.
* **The write path and the scripts.** `Executor` is the synchronous executor over a store that may
  refuse, throw or lose any request. `ScriptRuns`, `ResolutionRuns` and `BulkRuns` are the end-to-end
  scripts, as loops over one campaign, over overlapping campaigns, and over a bulk operation, for any
  catalogue, prices and place to cut.
* **The rest.** `Tags` and `TagRuns` (storefront tags across overlapping sales, and over whole histories
  with requests that fail), `Leader` (the scheduler's lock),
  `ClockShift` (wall-clock times across clock changes), `FieldGrid` (grid runs and their keys),
  `Polling` (the reload hooks), `Query` (query-string edits), `Paging`, `Percentiles` and `ImportSaga`
  (an import, its segment and its campaign). `Numerals` and `Wrappers` are shared helpers.

The numbers are integers: prices in minor units, times in milliseconds, percentages as exact decimals.
What lies outside the program is a parameter or a choice of event: what the store answers, how far Shopify has
got, which reads fail, where a process is killed, what time it is, and each zone's offset at every instant.

## What it shows

The protocol's promises hold over every run in which each claim is *clear*: no campaign sharing a
variant is busy, the campaign has no bulk operation of its own still running, and a resume is asked of a
campaign shown Partial. The second follows from the code's own refusals while no process is killed between
Shopify's acceptance and the ledger's record (`RecordedIsSentOnce`); the other two the code does not check.
Each failure of the protocol's below has a lemma that reaches it from a fresh storefront.

* **Two campaigns running at once over one variant** can both end clean while the variant shows the loser's
  price (`OverlapLosesThePrice`, `OverlapHappens`). Nothing in a run asks about another campaign's run. When one
  runs to its end while the other has planned and sent nothing, the harm is exactly to the variants whose
  ledger row plans another price than resolution gives with the new claim (`OverlapHarmsExactly`).
* **Two claims of one campaign at once.** Whatever the interleaving, one process writes (`OneWriter`). But whether
  the move that takes the claim succeeded is never asked: an apply can run while the campaign shows Reverting,
  and end clean under a Partial one (`CrossedClaims`). State and run agree at every moment exactly when each run
  row that goes live finds the campaign in its own claim (`AgreesExactly`). And a run can open beside an operation
  still running when it looked for one too early (`StaleLook`), never otherwise (`OnlyAStaleLookOverlaps`).
* **A process killed after Shopify accepts a bulk operation and before the ledger records it** leaves the
  campaign free to be resumed: the same row goes out in a second operation
  (`KilledBeforeRecordingSendsTwice`, `SentTwiceHappens`). While an operation runs, a new run is refused exactly
  when the operation was recorded (`RefusedWhileRunning`).
* **A resume asked of a campaign not shown Partial** trusts a ledger others have written over since: it ends
  clean over a wrong price (`ResumeNeedsPartial`). Only the page that offers it keeps that from happening.
* **A process killed while writing its ledger** leaves variants its plan priced that no ledger row mentions
  (`UnseenRowHappens`). While every ledger is written whole, a variant with no outstanding row in any
  campaign's latest run shows its one price (`OnePrice`); a cut ledger keeps that exactly when every variant it
  misses shows its planned price already (`CutLedgerExactly`).
* **The order of ending matters under a campaign that wins a variant and skips it** (`EndingOrderMatters`,
  `EndingOrderHappens`). A revert ends clean and shows Completed while a variant stays at the ended sale's
  price, exactly when the next winner leaves it alone or happens to give that price (`EndedAndStillOnSale`).
  The overlap panel says the order never matters; it does not whenever resolution gives the variant a price
  (`HistoryDoesNotMatter`).
* **A run that finished and whose campaign could not be moved to its final state** shows a Draft over prices
  that were written and verified (`HiddenSaleHappens`), and a wrong state exactly when the run has outlived what
  it found shown (`LostCloseHidesASale`). It is the one way a state is shown wrongly (`ShownHonestly`).
* **A revert given back before it sent anything** leaves an Active campaign that wins nothing from any
  other until a run of its own is planned again (`LoudSaleLosesItsPrice`, `PricesNothingUntilApplied`).
* **A poisoned row is never quarantined.** Each run counts attempts on rows of its own, at most one, so the
  limit of five is never met (`QuarantineIsNeverReached`).
* **A worker told to stop gives its lock back at once**, though its tick may still be going: another can tick
  beside it, well within the lock's life. Telling it between ticks is exactly what is safe (`StopIsSafeExactly`).
* **The sync page reloads on a stale answer.** Its hook forgets what it asked when `running` flips, and from
  one running sync straight to the next nothing flips: an answer asked for about the first reloads the page
  about the second (`SyncReloadsOnAStaleAnswer`), which the hook's own comment rules out. It cannot exactly when a
  render without a sync lay between, or nothing unanswered or over was left (`NextSyncIsSafeExactly`). The
  recapture page, whose jobs have ids, is always right (`RecaptureIsAlwaysFresh`).
* **Tags.** The merchant's own tags are safe over every history, whatever fails, unless a leftover row claims
  one (`MerchantsTagsStay`), and every promise is kept at every moment exactly when every event is orderly
  (`PromisedExactly`). Three things are not: a removal with nothing to take off leaves the ended campaign's row
  claiming the tag, which later takes away a tag the merchant added (`LeftoverRowTakesMerchantsTag`) or keeps a
  takeover from tagging the product (`LeftoverRowBlocksTakeover`); a failed request that landed leaves a tag
  nobody owes, and so does a refused removal, though the campaign ends (`FailedRequestsStrand`).
* **The clock-change script** also reports the second pass through a repeated hour, which shows the typed
  time all the same (`ReportedExactly`).
* **A price import whose audit entry fails**, or whose campaign insert landed though it failed, leaves the
  campaign behind over a deleted import; all other faults leave nothing (`NothingLeftExactly`).

## Model

| member | source | states |
|---|---|---|
| Ranking.CompareIsTotalOrder | app/lib/pricing/resolver.ts:59-63 | The winner ordering is total and transitive, and ties only on equal priority, start and id |
| Ranking.BestTops | app/lib/pricing/resolver.ts:48-56 | The campaign the reduce picks outranks or ties every other |
| Ranking.ComparesKeyByKey | app/lib/pricing/resolver.ts:59-63 | The comparison is priority, then the later start, then the larger id, by its first differing character |
| Ranking.SelectWinner | app/lib/pricing/resolver.ts:40-56 | The loop returns the campaign every other yields to, by priority, then start, then id; none exactly for an empty list |
| Ranking.WinnerIsUnique | app/lib/pricing/resolver.ts:42-63 | Listing the same campaigns in another order elects the same one |
| Ledger.FateOf | app/lib/execution/resume.ts:84-123 | Sent when unseen or open with under five attempts, quarantined when open with five, counted verified when verified or clamped, left when skipped or reverted |
| Ledger.PlanResume | app/lib/execution/resume.ts:84-123 | A resume sends exactly the unseen and outstanding rows with attempts left, in order; the counts are exact and every row has one fate |
| Ledger.FatesPartition | app/lib/execution/resume.ts:84-123 | Each planned row is sent, counted verified, counted quarantined or left, once |
| Ledger.NoneQuarantined | app/lib/execution/resume.ts:109-114 | Below the attempt limit nothing is quarantined |
| Ledger.RunOutcome | app/lib/execution/resume.ts:132-146 | Clean exactly when every row is settled; the counts are of landed and outstanding rows |
| Lifecycle.ClaimsAndEnds | app/lib/lifecycle/transitions.ts:51-104 | An apply can take any campaign but one being reverted or cancelled, a revert only one that may have prices out, and every claim can end as its run did |
| ProtocolTheorems.FreshOk | chaos/README.md:12-39 | A storefront nobody has priced satisfies the invariant |
| ProtocolTheorems.StepKeeps | app/services/campaigns/run.server.ts:515-1462 | Every one of the protocol's 22 events keeps the invariant, given that claims are clear |
| ProtocolTheorems.ClearRunsKeep | chaos/README.md:12-39 | Every run of any length whose claims are clear stays inside the invariant |
| ProtocolRest.StepRest | app/services/campaigns/run.server.ts:1317-1377 | A campaign shown as over owes no variant anything, through every event |
| ProtocolRest.StepShown | chaos/harness/verdict.ts:126-177 | What a campaign shows agrees with its latest run, through every event but a failed close |
| ProtocolSteps.ClaimKeeps | app/services/campaigns/run.server.ts:733-741 | Taking a clear claim breaks nothing already right, and remembers enough to give it back |
| ClaimRace.OneWriter | app/services/campaigns/run.server.ts:929-992 | However many processes claim a campaign at once, at most one writes, and it owns the live run row |
| ClaimRace.AloneRunsThrough | app/services/campaigns/run.server.ts:929-992 | Alone, a process takes any quiet campaign its claim is legal for and leaves it quiet where its run ends |
| ClaimRace.AgreesExactly | app/services/campaigns/lifecycle.server.ts:60-105 | Over every interleaving, the state shown and the live run go the same way exactly when each run that goes live finds the campaign in its own claim |
| ClaimRace.OnlyAStaleLookOverlaps | app/services/campaigns/run.server.ts:595-613 | A run opens beside the campaign's own running operation only if another run was opened since it looked |
| ClaimRace.CrossedClaims | app/services/campaigns/run.server.ts:738-741 | From a quiet Partial campaign: it shows Reverting while it is applied, and Partial once the apply has ended clean |
| ClaimRace.StaleLook | app/services/campaigns/run.server.ts:595-613 | From a quiet draft: a run opens while the campaign's last operation still runs |
| ProtocolSteps.OpenKeeps | app/services/campaigns/run.server.ts:929-1030 | A plan and its ledger, whole or cut by a kill, leave every unplanned variant at its price |
| ProtocolSends.WriteKeeps | app/lib/execution/sync-executor.ts:226-240 | A price sent one by one keeps the invariant |
| ProtocolSends.RefuseKeeps | app/lib/execution/sync-executor.ts:299-326 | So does a request that threw, whether or not it landed |
| ProtocolRecords.NoteSubmittedKeeps | app/services/campaigns/run.server.ts:1138-1167 | So does marking the rows of an accepted operation as sent |
| ProtocolRecords.RecordRowKeeps | app/services/campaigns/run.server.ts:1864-1988 | So does recording what was heard of a row |
| ProtocolEnds.SettleMirrorKeeps | app/services/campaigns/mirror.server.ts:31-132 | Settling the mirror from a ledger tells it nothing false |
| ProtocolEnds.StopKeeps | app/services/campaigns/reaper.server.ts:115-266 | A run that threw after it began writing, or was reclaimed, is left partial with a true mirror |
| ProtocolEnds.ReleaseKeeps | app/services/campaigns/lifecycle.server.ts:216-267 | Giving a claim back before anything was sent restores what the claim found |
| ProtocolBulk.SettleOpKeeps | app/services/campaigns/execute.server.ts:313-472 | Reading a dead run's finished operation settles its rows truly |
| ProtocolBulk.OpWriteKeeps | app/services/campaigns/execute.server.ts:153-185 | Shopify working through an operation on its own clock keeps the invariant |
| ProtocolPromises.WinnerTops | scripts/test-resolution.ts:123-132 | The campaign that prices a variant outranks or ties every other one covering it |
| ProtocolPromises.WinnerIsElected | app/lib/pricing/resolver.ts:40-63 | The campaign that prices a variant has the highest priority of those covering it, then the latest start, then the largest id |
| ProtocolPromises.OnePrice | scripts/test-resolution.ts:123-147 | After any run, a variant outstanding in no campaign's latest run shows exactly its winner's price from the baseline, or the baseline |
| ProtocolPromises.HistoryDoesNotMatter | app/components/OverlapPanel.tsx:74-81 | Two histories that leave the same campaigns pricing a variant leave it at the same price |
| ProtocolPromises.AllEndedGivesBaselines | scripts/test-resolution.ts:144-147 | Once no campaign covering a variant prices, it is back at its baseline exactly |
| ProtocolAccounts.WholeRunsAccount | app/services/campaigns/run.server.ts:1781-1805 | While ledgers are written whole, all a campaign owes is outstanding rows of its latest run, through every event |
| ProtocolAccounts.CutLedgerExactly | app/services/campaigns/run.server.ts:1781-1805 | A ledger cut by a kill still accounts for every wrong price exactly when each variant it misses shows its planned price |
| ProtocolPromises.EveryWriteIsLedgered | chaos/harness/verdict.ts:113-124 | Every price the store ever accepted had its ledger row first |
| ProtocolPromises.CleanMeansReadBack | chaos/harness/verdict.ts:126-139 | A completed run has every row settled, and each verified one was read back at its price |
| ProtocolPromises.NoSilentlyWrongRow | chaos/harness/verdict.ts:75-111 | While a run is under way, a row it calls verified is live at its price |
| ProtocolLanding.LandedUntilOverwritten | chaos/harness/verdict.ts:75-111 | In every campaign's latest run, over or not, a row called verified is live at its price until a later run's price for the variant is accepted or the variant is deleted |
| ProtocolLanding.RecordedIsSentOnce | scripts/test-bulk-in-flight.ts:131-151 | While no operation is lost between acceptance and record, the code's own refusals keep any variant out of two running operations |
| ProtocolPromises.QuarantineIsNeverReached | app/lib/execution/resume.ts:109-114 | No reachable row has two attempts, so every outstanding row is always sent again |
| ProtocolLedger.RowsSay | app/services/campaigns/run.server.ts:1864-1988 | At every moment of every run, each status of a row says what it does: planned as resolution gives while under way, verified or clamped as planned and read back at its price, failed with its attempt spent, skipped with its variant gone |
| ProtocolLedger.ReadBackDecides | app/lib/execution/sync-executor.ts:427-447 | Read back and recorded, a row has landed exactly when its price is what the variant shows, and has failed otherwise |
| ProtocolLedger.AnythingGoes | chaos/README.md:12-39 | In every state a process can die, a variant be deleted, a row be taken or refused, landed or not, and a live run nobody runs be reclaimed |
| ProtocolLedger.OperationsMayStall | app/services/campaigns/execute.server.ts:153-185 | Shopify may write or refuse any row it has left, and be over with the rest undone |
| ProtocolLedger.ClaimedAndGivenBack | app/services/campaigns/lifecycle.server.ts:216-267 | A claim given back before anything was planned leaves the whole state as it was |
| ProtocolLedger.BlockedRunOpensNothing | app/lib/planning/plan.ts:258-260 | While one variant is blocked its run can only give the claim back or die, with no ledger and no price sent |
| ProtocolLedger.EntriesAreTheLedgers | chaos/harness/verdict.ts:113-124 | Over every run, clear or not, the ledger of a campaign's latest run is exactly its rows at their planned prices |
| ProtocolPromises.ShownHonestly | chaos/harness/verdict.ts:126-177 | A partial run is never shown as Active, Completed, Draft or Scheduled, and a draft has sent nothing |
| ProtocolPromises.NothingSentTwice | scripts/test-bulk-in-flight.ts:131-151 | No two operations running at once carry one variant |
| ProtocolPromises.RefusedWhileRunning | scripts/test-bulk-in-flight.ts:131-141 | While Shopify runs an operation, its campaign can be claimed exactly when the operation was never recorded |
| ProtocolPromises.SettlingLeavesNothingOpen | app/services/campaigns/execute.server.ts:313-472 | Reading the result leaves no row pending or sent; written and reported is landed, unreported is outstanding |
| ProtocolResume.CutAndResumedIsUninterrupted | scripts/test-resume.ts:83-107 | Applies cut anywhere and resumed any number of times leave the prices one uninterrupted apply leaves |
| ProtocolResume.CleanApplyShows | scripts/test-resume.ts:83-92 | An apply that ends clean shows its winner's price on what it can price, and moves nothing else |
| ProtocolResume.ResumePlansWhatIsLeft | app/services/campaigns/run.server.ts:878-896 | A resumed apply plans no settled row and plans again every outstanding one still to be priced |
| ProtocolFindings.OverlapLosesThePrice | app/services/campaigns/run.server.ts:595-631 | Two overlapping runs, both with the row verified, and a variant at the wrong campaign's price |
| ProtocolTraces.OverlapHappens | app/services/campaigns/run.server.ts:595-631 | It happens from a fresh storefront: a quiet sale and a loud one over one variant |
| ProtocolFindings.OverlapHarmsExactly | app/services/campaigns/run.server.ts:595-631 | A whole run inside another, of any scopes: both end clean, and a variant shows the wrong price exactly when the older ledger plans another price for it |
| ProtocolFindings.KilledBeforeRecordingSendsTwice | app/services/campaigns/execute.server.ts:173-181 | Killed between acceptance and record, reclaimed and resumed: one row in two running operations |
| ProtocolTraces.SentTwiceHappens | app/services/campaigns/execute.server.ts:173-181 | It happens from a fresh storefront |
| ProtocolTraces.ResumeNeedsPartial | app/services/campaigns/run.server.ts:878-896 | From a fresh storefront: a draft resumed instead of applied ends clean over another campaign's price |
| ProtocolFindings.SendAndClose | app/services/campaigns/run.server.ts:1116-1377 | One row sent, read back, recorded and closed: the price live, the row landed, nobody else moved |
| ProtocolAnswers.RunsAsAnswered | app/services/campaigns/run.server.ts:1116-1377 | Whatever the store answers for each row sent one by one: the rows that landed show their price, each row, the mirror and what is owed say what was heard, and the campaign ends as its kind does exactly when every row is final, else Partial |
| ProtocolAnswers.KilledWhileSending | app/services/campaigns/reaper.server.ts:115-266 | Killed after sending any of its rows and reclaimed: what landed stays, every row is pending, the mirror knows none of them, and the campaign is Partial |
| ProtocolAnswers.RunsAsOperated | app/services/campaigns/execute.server.ts:153-277 | The same of a bulk operation, however far Shopify gets, whatever it refuses and whatever its result file leaves out |
| ProtocolAnswers.SettledOnceOver | app/services/campaigns/execute.server.ts:313-472 | The same once its process was killed and the run reclaimed: settled from the result file, left Partial, owing exactly the rows the file does not call written or gone |
| ProtocolWholeRuns.RunsCleanly | app/services/campaigns/run.server.ts:1116-1377 | A run nothing interrupts, over any scope, ends clean with every price resolution gives, and moves nothing else |
| ProtocolFindings.CleanRevert | app/lib/planning/plan.ts:53-57 | A clean revert over any scope shows what resolution gives, and nothing else changes |
| ProtocolFindings.EndedAndStillOnSale | app/lib/planning/plan.ts:198-210 | A cleanly ended sale price stays on a variant exactly when the next winner skips it or gives the same price |
| ProtocolFindings.EndingOrderMatters | app/components/OverlapPanel.tsx:74-81 | Under a skipping winner two orders of ending the same campaigns, of any scopes, leave different prices |
| ProtocolTraces.EndingOrderHappens | app/components/OverlapPanel.tsx:74-81 | It happens from a fresh storefront with three sales over one variant |
| ProtocolFindings.LostCloseHidesASale | app/services/campaigns/run.server.ts:307-341 | After a failed final move the state shown is wrong exactly when the run has outlived what it found; after a move that goes through, never |
| ProtocolTraces.HiddenSaleHappens | app/services/campaigns/run.server.ts:307-341 | From a fresh storefront: a Draft over a verified price of 90, with nothing pricing the variant |
| ProtocolFindings.FailedRevertStopsPricing | app/services/campaigns/model.server.ts:584-593 | A claim given back restores whether its campaign prices exactly when no run of the other direction was opened under it |
| ProtocolTraces.PricesNothingUntilApplied | app/services/campaigns/model.server.ts:584-593 | After a revert is given back the campaign prices nothing, whatever happens, until a run of its own is planned |
| ProtocolTraces.LoudSaleLosesItsPrice | app/services/campaigns/model.server.ts:584-593 | From a fresh storefront: two sales shown Active, and the variant at the price of the one that is outranked |
| ProtocolFindings.CutLedgerOwesUnseen | app/services/campaigns/run.server.ts:1781-1805 | A ledger cut by a kill leaves a priced variant wrong with no row to say so |
| ProtocolTraces.UnseenRowHappens | app/services/campaigns/run.server.ts:1781-1805 | It happens from a fresh storefront, with no outstanding row anywhere |
| Money.DividesRightly | app/lib/money/money.ts:169-200 | Every rounding mode is within one of the exact quotient, on its side, and half modes within a half with ties to even |
| Money.NeverCrosses | app/lib/money/money.ts:169-200 | Rounding never crosses a whole number |
| Money.PercentChangeIsThatShare | app/lib/money/money.ts:237-245 | The result is the amount and that percentage of it, to the nearest, ties to even |
| Money.PercentChangeDirection | app/lib/money/money.ts:237-245 | Taking a percentage off never raises a price, adding one never lowers it |
| Money.MarginFloorMeetsMargin | app/lib/pricing/guardrails.ts:116-155 | The margin floor is the smallest price that meets the margin, and fails exactly at a hundred percent or more |
| Rounding.CharmIsBest | app/lib/money/rounding.ts:123-179 | Nearest is the nearest ending there is; down and up stay on their side and pass over none |
| Rounding.StepIsBest | app/lib/money/rounding.ts:103-121 | The same of multiples of a step |
| Rounding.AppliesTheProfile | app/lib/money/rounding.ts:95-194 | A profile gives a price it allows, the one its direction asks for of all it allows, or the zero below the smallest ending |
| Rounding.RoundingIsIdempotent | app/lib/money/rounding.ts:181-194 | Rounding a rounded price changes nothing |
| Rounding.RoundingKeepsDirection | app/lib/money/rounding.ts:181-194 | Down never raises, up never lowers, and nothing becomes negative |
| Resolver.SelectRule | app/lib/pricing/rules.ts:47-61 | The last matching rule row, and none exactly when none matches |
| Resolver.ResolveIgnoresOrder | app/lib/pricing/resolver.ts:40-56 | The order campaigns are listed in changes no resolution |
| Resolver.RoundingStaysOnItsSide | app/lib/pricing/resolver.ts:146-185 | Rounding carries no reduction up to the baseline and no increase below it |
| Resolver.ClampingOnlyRaises | app/lib/pricing/resolver.ts:186-228 | A clamp only raises, to the floor or the smallest price, never past the baseline on a reduction |
| Resolver.PricedIsSafe | app/lib/pricing/resolver.ts:65-260 | A campaign's price is positive and on the side of the baseline its rule says, unless a floor raised it |
| Resolver.StrikeShowsASaving | app/lib/pricing/resolver.ts:269-329 | A strike-through written is above the price |
| Resolver.PricedRespectsMerged | app/lib/pricing/guardrails.ts:34-103 | Whatever the rule and rounding, a price written respects the merged guardrails |
| Resolver.PricedRespectsBoth | app/lib/pricing/guardrails.ts:34-53 | And so the store's and the campaign's, each on its own terms: a campaign can only tighten |
| ResolverPromises.RuleMakes | app/lib/pricing/rules.ts:70-164 | Each kind of rule makes the price it says of the baseline, cost, compare-at or file, or fails for exactly what it lacks |
| ResolverPromises.FloorParts | app/lib/pricing/guardrails.ts:69-103 | The floor parts the prices that respect the guardrails from those that do not |
| ResolverPromises.AnswersMeanIt | app/lib/pricing/resolver.ts:65-329 | A price is the last matching row's rule, rounded by the profile on its side of the baseline, or the least price within every limit, struck through only for a saving; every other answer has its reason |
| ResolverPromises.ResolveAnswers | app/lib/pricing/resolver.ts:40-90 | That of the campaign all others yield to, or the baseline when there is none |
| Planner.PlanRun | app/lib/planning/plan.ts:44-262 | Each variant's first candidate is planned as its campaigns resolve it: written at that price and strike-through or listed as showing it, skipped for that reason, or held; once, in the candidates' order, and counted; one block and there is no plan |
| Planner.WrittenRowsAreMeant | app/lib/planning/plan.ts:198-262 | A row written is the baseline with its own strike-through, or a price its elected campaign makes within the store's limits and its own |
| Planner.ReplanningWritesNothing | app/lib/planning/plan.ts:281-296 | A variant written as planned plans as unchanged; a live price moves no other decision |
| Planner.RevertGivesBaseline | app/lib/planning/plan.ts:53-57 | With no other campaign on it, a revert writes the baseline and its own strike-through, or finds it there |
| Catalogue.SameWinner | app/lib/planning/plan.ts:105-135 | The protocol's winner is the resolver's |
| Catalogue.TargetIsResolution | app/services/campaigns/model.server.ts:541-560 | The protocol's target is the resolution of the pricing campaigns covering the variant |
| Catalogue.TargetsArePositive | app/lib/pricing/resolver.ts:146-228 | Every price the protocol aims for is positive or a baseline |
| Executor.Chunk | app/lib/db/chunk.ts:32-39 | The pieces end to end are the list, none empty and none over the size |
| Executor.GroupByProduct | app/lib/planning/plan.ts:299-311 | One group a product, in the order of their first rows, holding all its rows in order |
| Executor.Requests | app/lib/execution/sync-executor.ts:207-223 | Every row goes out once, in requests of one product and at most 250 rows, products in the order of their first rows |
| Executor.SendRequest | app/lib/execution/sync-executor.ts:226-312 | Each row of a request shows its price exactly when it landed, and is reported by what came back for its own place |
| Executor.SendAll | app/lib/execution/sync-executor.ts:226-328 | Exactly the requests up to the first that stops the run go out, that one included; rows of later ones have no result and keep their price |
| Executor.VerifyRows | app/lib/execution/sync-executor.ts:359-447 | Every written row is read back, and no other result changes |
| Executor.ExecuteSync | app/lib/execution/sync-executor.ts:176-349 | Whatever the store does, verified is live, deleted is gone, no other price moves, and clean means every row is done; rows after a request that stops the run have no result, keep their price, and the run is not clean; without faults it is |
| ScriptRuns.RunKeepsRight | scripts/test-partial-revert-report.ts:93-102 | A run cut anywhere leaves a true mirror and every variant outstanding or at its price |
| ScriptRuns.Campaign.Run | scripts/test-resume.ts:83-107 | What a run with a limited client leaves live, mirrored, ledgered and shown, exactly |
| ScriptRuns.CutThenFinished | scripts/test-resume.ts:94-107 | Asked again, a run chooses exactly what the cut left, and sending that finishes the job |
| ScriptRuns.CutShort | scripts/test-resume.ts:94-101 | A run cut after so many writes has made that many, and is shown Partial exactly when some are left |
| ScriptRuns.ResumeScript | scripts/test-resume.ts:70-112 | Clean apply, revert, cut apply, resume: the clean apply's prices, the resume writing just what was left |
| ScriptRuns.PartialRevertScript | scripts/test-partial-revert-report.ts:88-107 | A cut revert puts back so many and leaves the rest at the sale price; reverting again puts back just those |
| ResolutionRuns.Storefront.Run | scripts/test-resolution.ts:118-147 | Starting or ending a campaign by what the mirror says, cut anywhere, leaves every variant unknown to a true mirror or at its one price, and none outside it touched |
| ResolutionRuns.Storefront.RunAll | scripts/test-resolution.ts:118-147 | After any turns uninterrupted, live prices are a function of which campaigns are on |
| ResolutionRuns.ResolutionScript | scripts/test-resolution.ts:118-147 | The louder campaign's own price while both are on, the quieter's when it ends, the baseline when both have |
| ResolutionRuns.AnyOrder | app/components/OverlapPanel.tsx:74-81 | Two sequences of turns that leave the same campaigns on leave the same storefront |
| BulkRuns.Shopify.Work | scripts/test-bulk-in-flight.ts:8-13 | Shopify reaches rows on its own clock and says truly what it wrote |
| BulkRuns.BulkCampaign.TryResume | scripts/test-bulk-in-flight.ts:131-141 | Refused with nothing changed while the operation runs; settled from its result once it is over |
| BulkRuns.BulkScript | scripts/test-bulk-in-flight.ts:103-151 | Refused exactly until the operation is over; then no row is pending, verified means written, reported and live, and a second operation carries only outstanding rows |
| Tags.NormaliseIsStable | app/lib/tags/plan.ts:35-37 | Normalising twice is normalising once |
| Tags.BlanksAre | app/lib/tags/plan.ts:35-37 | What trimming takes off: JavaScript's white space and line ends, character by character |
| Tags.TrimIs | app/lib/tags/plan.ts:35-37 | Trimming takes the blanks off both ends and nothing else |
| Tags.SameTagIs | app/lib/tags/plan.ts:35-37 | Two tags normalise alike exactly when the text between their blanks is the same up to case |
| Tags.TagKitTags | app/lib/tags/plan.ts:47-57 | The entries that are not blank and not the same tag as an earlier one, trimmed, in order: exactly those |
| Tags.KitIsSpelled | app/lib/tags/plan.ts:47-57 | Every entry that is not blank has its tag there, in some spelling, and no two there are the same tag |
| Tags.TriedExactly | app/services/campaigns/tags.server.ts:117-235 | Tagging keeps every promise exactly when the add went through, never landed, or had nothing to add |
| Tags.TriedKeeps | app/services/campaigns/tags.server.ts:117-235 | Tagging that goes through puts the whole kit on, claims and records exactly what of it is not the merchant's, and is skipped when that is nothing |
| Tags.HandedExactly | app/services/campaigns/tags.server.ts:287-339 | Takeovers keep every promise when each is blocked or in order at its turn, and otherwise strand a tag |
| Tags.UntaggedExactly | app/services/campaigns/tags.server.ts:348-398 | Removal keeps every promise exactly when the request went through, landed, or was not needed |
| Tags.RemovalClosesRows | app/services/campaigns/tags.server.ts:348-393 | A removal that goes through leaves the campaign no row of its own on the product, and any other leaves every row as it was |
| Tags.EndedExactly | scripts/test-tag-overlap.ts:74-110 | Ending leaves each tag on exactly when the merchant or a running campaign owes it, exactly when takeovers and removal were in order |
| TagRuns.MerchantAddsSafely | scripts/test-tag-overlap.ts:5-11 | A tag the merchant adds is safe exactly when no ledger row still claims it |
| TagRuns.MerchantsTagsStay | scripts/test-tag-overlap.ts:5-11 | Over every history, failed requests and all, a tag the merchant had first is never removed and never claimed |
| TagRuns.StepExactly | app/services/campaigns/tags.server.ts:117-451 | Each start, apply, end, takeover and merchant's edit keeps every promise exactly when it is orderly |
| TagRuns.PromisedExactly | scripts/test-tag-overlap.ts:74-110 | Over every history, every promise is kept at every moment exactly when every event is orderly |
| TagRuns.OrderlyEndsWhereItBegan | scripts/test-tag-overlap.ts:74-110 | Once nobody runs, an orderly history leaves the merchant's tags and no others |
| TagRuns.FromUntouched | scripts/test-tag-overlap.ts:74-110 | From a product nobody has tagged: promises kept at every moment exactly for orderly histories, each running campaign's badges on, and none left when nobody runs |
| TagRuns.LeftoverRowTakesMerchantsTag | app/services/campaigns/tags.server.ts:348-451 | From an untouched product, no request failing: two sales, the merchant's edit and one more sale take the merchant's tag off |
| TagRuns.LeftoverRowBlocksTakeover | app/services/campaigns/tags.server.ts:312-320 | From an untouched product: a running campaign takes the product over and its badge never goes on |
| TagRuns.FailedRequestsStrand | app/services/campaigns/tags.server.ts:206-219 | A tag that landed on a failed request, or whose removal was refused, stays on when nobody runs |
| TagRuns.TagStore.Start | app/services/campaigns/tags.server.ts:400-451 | Starting a campaign keeps the store in order exactly when it has no claim left on a tag that is off |
| TagRuns.TagStore.ApplyCampaignTags | app/services/campaigns/tags.server.ts:117-235 | Every product of a run is tagged as its request went, every other is untouched, and the store stays in order exactly when no failed add landed |
| TagRuns.TagStore.EndCampaign | app/services/campaigns/tags.server.ts:348-398 | Ending over every product leaves each tag on exactly when the merchant or a running campaign owes it, exactly when every product's ending was in order |
| Leader.YesHoldsForALifetime | app/worker/leader-lock.ts:26-70 | After a yes, whatever is asked and in whatever order, nobody else is answered yes for a lifetime unless the holder gives the lock back |
| Leader.MutualExclusion | scripts/worker.ts:96-109 | Any number of workers, joining, crashing, stopping and interleaving: no two inside a tick while ticks end within the lock's life and stops fall between them |
| Leader.NobodyIsHeldUp | scripts/worker.ts:96-161 | Any worker may begin when idle, end, crash or be told to stop at any moment, a new one join, and any time pass |
| Leader.StopHandsOver | scripts/worker.ts:170-186 | A leader told to stop gives the lock back at once, in its tick or not, and the next worker to begin leads |
| Leader.StopIsSafeExactly | scripts/worker.ts:170-186 | Telling a worker to stop keeps every later moment exclusive exactly when it is between its ticks |
| Leader.Race | scripts/worker.ts:96-109 | The processes themselves, around one lock and through any such history: at most one is inside its tick |
| Leader.OverrunningTickIsJoined | scripts/worker.ts:33-34 | The bound is exact: a tick that outlives its lock is joined by the next to begin |
| Leader.LeaderKeepsLeading | scripts/worker.ts:100-104 | A leader back within the lock's life always renews, whatever the others do |
| Leader.PunctualLeaderKeepsLeading | scripts/worker.ts:149-161 | A leader whose every run ends in under the lock's life less an interval leads for ever |
| ClockShift.TypedFor | scripts/list-dst-affected-schedules.ts:28-41 | Finds a typed time exactly when there is one, one that converts to the stored instant, and the earliest |
| ClockShift.OffByTheChange | scripts/list-dst-affected-schedules.ts:24-32 | What is shown differs from what was typed exactly by the change of offset, and only across a clock change |
| ClockShift.ConvertsBack | scripts/list-dst-affected-schedules.ts:24-26 | With no change between, showing and converting undo each other |
| ClockShift.ResolvesRightly | app/lib/scheduling/window.ts:387-415 | The new conversion gives the first instant that shows the time, says ambiguous exactly when two do, and moves a skipped time by the gap |
| ClockShift.ReadBackIsComplete | app/lib/scheduling/window.ts:387-405 | Every instant showing the typed time is among the candidates |
| ClockShift.SkippedIsTheJump | app/lib/scheduling/window.ts:405-415 | With no instant showing the time, the clocks jump forward over it |
| ClockShift.ReportedExactly | scripts/list-dst-affected-schedules.ts:59-65 | What the script reports is what shows another time, and the second pass of a repeated hour |
| FieldGrid.SplitAtFullRows | app/components/FieldGrid.tsx:201-214 | The runs end to end are the flattened children, none empty, no two cell runs side by side, keyed by their openers |
| FieldGrid.SplitIsUnique | app/components/FieldGrid.tsx:201-214 | There is only one such list of runs |
| FieldGrid.OneRunPerFullRow | app/components/FieldGrid.tsx:201-214 | One full run for each full row |
| FieldGrid.FlattensInPlace | app/components/FieldGrid.tsx:220-227 | Each child comes out in its place: text as it is, an element under its fragments' keys and its own, a fragment as its children |
| FieldGrid.FlattenKeepsKeysDistinct | app/components/FieldGrid.tsx:220-227 | However fragments nest, opening them gives no two elements one key |
| FieldGrid.RunKeysDistinct | app/components/FieldGrid.tsx:201-227 | No two runs share a key |
| Polling.ReloadsOnAFreshAnswer | app/components/useRecapturePolling.ts:16-18 | With fresh answers a reload acts only on one asked for since the followed job began, and for a recapture about that job |
| Polling.RecaptureIsAlwaysFresh | app/components/useRecapturePolling.ts:38-72 | Over every interleaving the recapture page reloads on fresh answers only |
| Polling.FreshUnlessCarried | app/components/useSyncPolling.ts:28-47 | An event keeps the answers fresh exactly when it is not a change of sync the hook does not notice |
| Polling.EveryReloadIsFresh | app/components/useSyncPolling.ts:28-47 | Over every interleaving in which no change goes unnoticed, every reload acts on a fresh answer |
| Polling.SyncFreshExactly | app/components/useSyncPolling.ts:28-47 | While one sync is followed every reload is fresh, whatever happens, exactly when nothing stale is left to act on |
| Polling.NextSyncIsSafeExactly | app/components/useSyncPolling.ts:28-47 | A change of sync is safe exactly when a render without one lies between, nothing was asked, or the answer said running |
| Polling.SyncReloadsOnAStaleAnswer | app/components/useSyncPolling.ts:18-47 | From a mounted page: an answer asked for about one sync reloads the page about the next |
| Polling.NoReloadLoop | app/components/useRecapturePolling.ts:38-72 | Over every interleaving each reload uses up a poll of its own |
| Polling.MountedHookNeverLoops | app/components/useSyncPolling.ts:25-47 | A mounted hook never reloads more often than it polled |
| Polling.Follows | app/components/useRecapturePolling.ts:38-72 | The mounted hook itself through any interleaving: no more reloads than polls, and fresh ones unless a change of sync goes unnoticed |
| Polling.NewJobIgnoresOldAnswers | app/components/useSyncPolling.ts:18-47 | After a change of job the hook notices, nothing reloads until the new job has been asked about |
| Polling.EndIsNotMissed | app/components/useRecapturePolling.ts:50-72 | The followed job's own end, freshly asked, does reload |
| Query.QueryParams.Submit | app/components/FilterForm.tsx:63-79 | The submit loop sets what the form says, takes out what it does not, and the page number |
| Query.QueryParams.Clear | app/components/FilterForm.tsx:29-34 | Clearing takes out the form's fields and the page number, and nothing else |
| Query.QueryParams.LinkTo | app/routes/app.campaigns._index.tsx:122-131 | A view link changes its own names, and the page number unless it gives one |
| Query.EditsLeaveOthers | app/components/FilterForm.tsx:29-34 | Over any sequence of edits, every parameter none of them owns keeps all its values in order |
| Query.Browse | app/components/FilterForm.tsx:29-79 | The query object itself through any sequence of controls: everything none of them owns comes out as it went in, in order |
| Query.SubmitThenClearIsClear | app/components/FilterForm.tsx:29-34 | Clearing after a submit is clearing |
| Query.PageNeverSurvives | app/components/SectionTabs.tsx:46-48 | No page number survives a filter, view or section change; a page turn leaves exactly its own |
| Query.ValuesInOrder | app/components/FilterForm.tsx:63-79 | A parameter's values come in the order of their pairs |
| Query.SetInPlace | app/components/FilterForm.tsx:63-79 | A parameter set keeps its place and has one value; a new one goes at the end |
| Query.LinkSays | app/routes/app.campaigns._index.tsx:122-131 | After a view link each of its names holds the last value it gives, once, or none |
| Query.SubmitSays | app/components/FilterForm.tsx:63-79 | After a submit each field has exactly the form's value, or none |
| Paging.PageRange | app/components/Pagination.tsx:57-65 | The page shown is always one that exists |
| Paging.RangeNeverRunsBackwards | app/components/Pagination.tsx:57-65 | Every page asked for shows a forward range inside the list |
| Paging.RangesPartition | app/components/Pagination.tsx:57-65 | Pages 1 to the last partition 1 to the total |
| Paging.Pager.Settle | app/components/Pagination.tsx:88-98 | However often the effect runs, it corrects the page at most once, exactly when it was past the end |
| Paging.PagesAreThePlan | app/routes/app.campaigns.preview.tsx:52-75 | The preview's pages end to end are the whole plan |
| Paging.PagesAreFull | app/routes/app.campaigns.preview.tsx:52-75 | Every page but the last is full, and past the last there is nothing |
| Percentiles.OrderDoesNotMatter | scripts/measure-concurrency.ts:59-72 | The summary does not depend on the order of the samples |
| Percentiles.FiguresAreSamples | scripts/measure-concurrency.ts:59-72 | Each figure is a sample, in order, and none is slower than the slowest |
| Percentiles.MostAreWithinP95 | scripts/measure-concurrency.ts:59-72 | At least floor(0.95n) + 1 of the samples, or all, are within the p95 and at most floor(0.95n) are faster; half likewise for the p50 |
| Numerals.PrintsWhatReads | app/lib/imports/segment-name.ts:9-17 | A number in a name is the digits that read as it, with no leading zero |
| ImportSaga.ImportSegmentName | app/lib/imports/segment-name.ts:9-17 | The first numbered name nobody has, found however many are taken |
| ImportSaga.Database.Commit | app/routes/app.price-import.tsx:79-141 | Without a fault the three rows are there and linked, the campaign under the name given and the segment under the first numbered name free; with one that is made good, none is and nothing else changed |
| ImportSaga.NothingLeftExactly | app/routes/app.price-import.tsx:133-137 | A failed commit leaves nothing of itself exactly for faults the compensation covers |

## Left out

- ProtocolPromises.OnePrice: holds when claims are clear, a condition the code does not check; `OverlapHappens`, `SentTwiceHappens` and `ResumeNeedsPartial` show each part is needed. Where a ledger was cut, or a failed final move turned a campaign's pricing round, only campaigns that have decided the variant count as done with it.
- ProtocolPromises.NoSilentlyWrongRow: once a run is over, a later run may write the variant again and the old row stays verified, as it does in the ledger; `LandedUntilOverwritten` says exactly that.
- ProtocolSteps.OpenKeeps: the plan and its ledger are one event, whole or cut by a kill; a throw while the ledger is part-written, which fails the run and gives the claim back, is not modelled, and reading the database in between is not split further.
- ProtocolSteps.ClaimKeeps: the claim is one event here, of a campaign with no process of its own left over from an earlier one; the race between the look, the move and the run row is `ClaimRace`'s, for one campaign and without its prices.
- ClaimRace.OneWriter: runs over single variants, queued and scheduled claims, and two runs given one occurrence are not modelled.
- ProtocolFindings.CleanRevert: a whole revert asks Shopify again about variants it would leave alone and, where the mirror was wrong, corrects it and plans anew; the plan here reads the mirror as it stands.
- ProtocolEnds.SettleMirrorKeeps: the mirror settles in one event, and the timestamps that guard it against older webhooks are not modelled.
- ProtocolEnds.StopKeeps: the reaper reclaims runs whose process is dead; a slow process it mistakes for dead is not modelled.
- ProtocolResume.CutAndResumedIsUninterrupted: a resume is asked of a campaign shown Partial, where the page offers it.
- Executor.VerifyRows: every row is read back, the rate runs use; sampling a part of them is not modelled.
- Executor.ExecuteSync: rows the plan skipped pass straight through in the source and are not among the rows here; rate limits and retries are not modelled.
- Planner.PlanRun: one surface and one currency, so the backstop against a price in another currency has nothing to catch; plans for markets alone are not modelled.
- Leader.MutualExclusion: a lock server that takes a request and loses the answer is not modelled.
- TagRuns.StepExactly: runs tag and untag one after the other; two at once on one product are not interleaved, and tags are edited by the merchant and the app alone.
- Tags.NormaliseIsStable: case folding is ASCII's, where the source folds every script; blanks are trimmed as Unicode's.
- Polling.NoReloadLoop: a poll that fails and never answers only delays the next, and is not an event of its own.
- Query.EditsLeaveOthers: names and values as `URLSearchParams` holds them; percent-encoding is not modelled.
- Paging.RangesPartition: page numbers are integers.
- ImportSaga.NothingLeftExactly: the compensating deletes succeed; other shops' rows and the import's own check are not modelled.
- Markets that follow the store price, B2B catalogues and quantity breaks: the base surface only.
- A campaign's rule or scope edited between its runs: what each campaign offers a variant is fixed.
- Hand edits, drift and campaigns held over them; single-variant runs; scopes that change while a sale runs; archiving and cancelling.
- Strike-throughs in the protocol: they are in the resolver and the planner, and the protocol's rows carry the price.
- Requests that land long after they were given up on, and store writes by anyone else: the storefront changes only by the app and by deletion.
- Approval and plan limits, notifications, webhooks, inline work budgets, and reading the result file's lines: input and output around the modelled steps.
- Money as text: parsing and formatting, and floating point, which the source avoids by exact decimals.
- Layout, copy and drill output of the interface and the scripts.
