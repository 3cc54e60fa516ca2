# Quarterly volume of service orchestrators: a verified model

The system turns ordered chain logs into the volume each service orchestrator earned in a quarter. It
keeps a table of bindings of (payer, operator) pairs to orchestrators, histories of admitted lists and
pricing parameters, and tables of rails and payments; it derives price periods from fee auctions, and it
sums payments, converting FIL at the first later price period. This project models that pipeline in
Dafny and proves what it promises, over every log and every run.

Positions `(epoch, log index)` are ordered lexicographically throughout. `Ledger.Run` is the run of a log
over all tables of the Service Rewards Actor indexer; the hypothesis on a log is that the positions of
its entries strictly increase (`Events.Increasing`).

## What is modelled, and where

| part | modules |
|---|---|
| positions, quarters, events; order of products and quotients | `Positions`, `Calendars`, `Events`, `Products` |
| the binding table: each statement of each handler, the rows of one pair, the whole table | `Bindings`, `PairTables` |
| who owns a position, told by the log alone | `OwnershipSpec` |
| the table refines that specification, event by event and over runs; disjointness; when keys collide; no gaps; a run that gets stuck | `BindingRefinement`, `Ownership`, `BindingEpochs`, `NoGaps`, `BindingExamples` |
| parameter and admitted-list histories and the queries that read them | `Parameters`, `AdmittedLists` |
| all tables and the effect of each log; which logs are rejected and why; the indexer class that edits the tables in place | `Ledger`, `Acceptance`, `ServiceRewardsIndexer` |
| price periods: seeds, minimum lot, the loop over quarters; greedy chain, drift, prefix stability, the carried count, freshness of the view; runs in which two numbers or the view differ | `SeedMedian`, `MinLot`, `ReportedMinimum`, `PricePeriods`, `PriceChain`, `PrefixStability`, `PeriodTable`, `PeriodFreshness`, `PeriodView`, `StaleView`, `SixAuctions`, `PeriodExamples` |
| quarterly volume: attribution, matching, rounding, conservation, and what each number is by the log; the listing of payments | `Sums`, `Volume`, `VolumeConservation`, `VolumeFromLog`, `PaymentListing` |
| the batch indexer: sorting, ranges, the transaction with the cursor, failure and retry; its two users | `LogSorting`, `BatchIndexer`, `CommittedTables`, `FilecoinPay` |
| the scheduler's single-flight guard | `SingleFlight` |

Handlers that edit tables are methods of a class, each proved to leave the table that a function of the
old table gives; the properties are then proved of those functions. The queries are functions. Automatic
induction is off on every lemma with a body: proofs by induction are written out.

## What the proofs found

- **Keys are not always fresh.** A reassignment without inheritance of a binding that has not begun
  leaves a row that ends before it begins. It covers nothing but keeps its primary key, and a later
  declaration that would begin at the same position is rejected, and with it every later batch
  (`CommittedTables.RejectedForGood`). `Ownership.NextPairLog` says
  exactly when an insertion meets a taken key: a declaration, otherwise acceptable, whose binding would
  begin where an earlier log of the pair misfired. `BindingExamples.RunGetsStuck` is a run of six logs
  that shows it. Without such a log keys stay fresh (`Ownership.KeysStayFresh`).
- **The check for a release in the future never fires** (`BindingRefinement.StartMeetsSpec`).
- **The minimum lot is not the same in both places.** The price-period function drops the floor once
  there is bound volume and a carried count; the quarters service does not (`MinLot.FloorDropped`).
  `MinLot.AgreesExactly` gives the exact condition under which the two agree on every lot.
- **The carried count is not always that of the previous quarter.** The function carries the count of
  the quarter visited before, and quarters without auctions are not visited; the quarters service counts
  the rows of the previous quarter. `PeriodExamples.CountsDiffer` is a run in which they differ, and
  `PeriodTable.CarriedCountAgrees` says exactly when they are equal. `ReportedMinimum.ReportDecides` joins
  both conditions.
- **The view can go stale.** Contracts have no trigger, so a list update that changes them after the last
  refresh it causes is missed. While no auction of a later quarter lies ahead of such a log, the stored view
  equals the function (`PeriodView.ViewIsFresh`). `StaleView.StaleExactly` says exactly which logs can leave
  it stale behind some auctions, and `PeriodExamples.ViewGoesStale` is a run in which one does.
- **The listing's flag is not the volume's rule.** It tests lists at the payment's position, the volume those
  before a quarter. `PaymentListing.StableFlagAgrees` and `PaymentListing.FilFlagAgrees` say exactly when the
  two agree on a payment.
- **A reassignment of an unbound pair leaves a gap**, its own position, for good (`NoGaps.GapStays`), and
  within a quarter nothing else does before the cutoff (`NoGaps.NoGap`).
- **The last block of a removed contract is no bound on what is indexed.** It ends later runs but does not
  cut a batch (`BatchIndexer.PassesLastBlock`, `FilecoinPay.PassesRemoval`).
- **Only one of the four errors for a missing parameter can be met**, that of the price band, since the five
  parameters are set together (`VolumeFromLog.UnsetTogether`).
- **Batches of the Filecoin Pay indexer split freely because rails come first** on a contract's chain
  (`FilecoinPay.ChainAccepted`). Inside one batch a payment may precede its rail, since rails are
  inserted first; on such input, which a contract does not emit, a batch accepted whole may be rejected in
  parts (`FilecoinPay.PaymentBeforeRail`), exactly as `FilecoinPay.SplitAccepted` says.

## Model

| member | source | states |
|---|---|---|
| Positions.Latest | src/indexers/service-rewards-actor.indexer.ts:341-343 | ordering by epoch and log index, descending, and taking one row yields the latest position, and a row whenever there is one |
| Calendars.QuarterBefore | src/services/quarters.service.ts:150-157 | a position's quarter is earlier than q exactly when its epoch precedes the first epoch of q |
| Calendars.QuarterBounds | src/indexers/service-rewards-actor.indexer.ts:367-369 | each epoch lies between the start of its quarter and the start of the next, one quarter's length later |
| BindingRefinement.StartMeetsSpec | src/indexers/service-rewards-actor.indexer.ts:321-432 | a declaration is accepted exactly when the pair is unbound and the quarter has a usable cutoff, and otherwise rejected with the reason met first; it then covers from the later of quarter start and last release plus one, or from the next quarter in the cutoff; the future-release check never fires |
| BindingRefinement.ReassignRows | src/indexers/service-rewards-actor.indexer.ts:459-529 | a reassignment hands over the one open row or closes it and opens the next, and its own insertion never meets a taken key |
| BindingRefinement.ReassignPaints | src/indexers/service-rewards-actor.indexer.ts:478-529 | it overwrites the owner of every later position, or of the whole span of a binding it takes over, and of nothing else |
| BindingRefinement.ReleaseRows | src/indexers/service-rewards-actor.indexer.ts:539-570 | a cancellation or removal touches at most the open row: it is deleted if it has not begun, else closed |
| BindingRefinement.ReleasePaints | src/indexers/service-rewards-actor.indexer.ts:280-307 | it clears every later position of a pair held by that orchestrator and leaves every earlier owner |
| BindingRefinement.DeclareCollides | src/indexers/service-rewards-actor.indexer.ts:412-445 | for an unbound pair a declaration's key is taken exactly by a row that ends before it begins |
| BindingRefinement.StepRealises | src/indexers/service-rewards-actor.indexer.ts:259-571 | every accepted event leaves rows that realise the pair's specified standing: one open row at most, closed spans in order, the last release |
| BindingRefinement.StepPaints | src/indexers/service-rewards-actor.indexer.ts:259-571 | and changes the owner of each position as the specification's effect of that event says |
| BindingRefinement.StepRejected | src/indexers/service-rewards-actor.indexer.ts:329-445 | of the pair's events only declarations are rejected, and exactly for the listed reasons |
| BindingRefinement.StepInverts | src/indexers/service-rewards-actor.indexer.ts:512-529 | an accepted event leaves an inverted row at a position exactly when there was one or it reassigns, without inheritance, the binding yet to begin there |
| PairTables.ViewReassign | src/indexers/service-rewards-actor.indexer.ts:478-529 | the statements on the flat table act on the rows of the event's pair and on no other pair |
| PairTables.ViewRemove | src/indexers/service-rewards-actor.indexer.ts:280-307 | removing an orchestrator releases its rows in every pair and changes nothing else |
| Ownership.RunParameters | src/indexers/service-rewards-actor.indexer.ts:374-385 | after any run the cutoff query (and every parameter query by epoch) reads the last update in the log before that epoch |
| Ownership.RunRealises | src/indexers/service-rewards-actor.indexer.ts:158-257 | after any run the rows of every pair realise its standing in the log |
| Ownership.RunOwner | src/services/volume-calculation.service.ts:97-121 | refinement: after any run, reading the table with the payment predicate gives exactly the owner the log specifies, at every position of every pair |
| Ownership.RunDisjoint | src/services/volume-calculation.service.ts:97-121 | after any run no position of a pair is covered by two rows and no pair has two open rows |
| Ownership.RunInverts | src/indexers/service-rewards-actor.indexer.ts:468-529 | after any run a pair has an inverted row at a position exactly when some log misfired there |
| Ownership.RunOrchestrators | src/indexers/service-rewards-actor.indexer.ts:160-170 | after any run the orchestrators a binding can refer to are exactly those admitted in the log |
| Ownership.NextPairLog | src/indexers/service-rewards-actor.indexer.ts:310-530 | exactly when the next declaration or reassignment is rejected, and exactly when its primary key is taken, told by the log alone |
| Ownership.KeysStayFresh | prisma/schema.prisma:94 | while no log misfires on a pair, no insertion for it meets a taken key and none of its rows is inverted |
| Acceptance.NextLog | src/indexers/service-rewards-actor.indexer.ts:158-257 | after any accepted log, exactly when and with which reason the next entry is rejected, for every kind of event and told by the log alone: removals, cancellations, admissions and pricing updates never; a reassignment when the new orchestrator was never admitted; a declaration for a reason the log shows; a posting when its quarter was posted before; lists when a new address with data is listed twice |
| Acceptance.RunTold | src/indexers/service-rewards-actor.indexer.ts:158-257 | so a log is accepted exactly when no entry of it is rejected, and otherwise fails with its first rejection |
| BindingEpochs.RunDated | src/indexers/service-rewards-actor.indexer.ts:296-307 | after any run every row carries the epoch of a log that declared or reassigned its pair, and, exactly when it has ended, the epoch of its end as its unbinding epoch |
| BindingExamples.RunGetsStuck | src/indexers/service-rewards-actor.indexer.ts:512-529 | five logs are accepted and the sixth, a declaration for an unbound pair with a usable cutoff, is rejected for a duplicate key |
| NoGaps.DeclaredStartMeets | src/indexers/service-rewards-actor.indexer.ts:412-432 | a binding that does not begin with its quarter begins right where the owned stretch up to the last release ends |
| NoGaps.RunGapless | src/indexers/service-rewards-actor.indexer.ts:259-571 | while every reassignment of a quarter finds its pair bound, every event keeps the stretch from that quarter's start to a last release in it, or to the open binding, owned |
| NoGaps.GapStays | src/indexers/service-rewards-actor.indexer.ts:512-529 | a reassignment that finds its pair unbound leaves its own position unowned for good |
| NoGaps.NoGap | src/indexers/service-rewards-actor.indexer.ts:367-432 | for a bound pair, at any later moment before the cutoff of a quarter, every position since the start of that quarter has an owner exactly when no reassignment of the pair in that quarter found it unbound |
| Parameters.SqlPick | prisma/migrations/20261005092144_deduplicate_pricing_periods/migration.sql:220-246 | the row picked is one from the last quarter before q that has any, and exists whenever such a row does |
| Parameters.ServiceAgrees | src/services/quarters.service.ts:139-171 | for every history and q >= 1 the quarters service selects the same update as the query by epoch |
| Parameters.SqlAgrees | prisma/migrations/20261005092144_deduplicate_pricing_periods/migration.sql:59-85 | so does the price-period function, although it first keeps one update per quarter |
| Parameters.InsertedQuery | src/indexers/service-rewards-actor.indexer.ts:679-723 | a later update changes what is read for later epochs, to its own value, and for no other |
| Parameters.ParamsAre | src/indexers/service-rewards-actor.indexer.ts:679-723 | each of the five parameters, as set last before an epoch, is its own field of the last update before it |
| AdmittedLists.UpdateIs | src/indexers/service-rewards-actor.indexer.ts:573-677 | what a list update does to each row: closes the open rows of addresses taken off, opens one for each new address with data, keeps the rest |
| AdmittedLists.UpdateRejected | src/indexers/service-rewards-actor.indexer.ts:599-675 | an update is rejected exactly when it lists a new address with data twice |
| AdmittedLists.RunSound | src/indexers/service-rewards-actor.indexer.ts:573-677 | after any updates the open rows are those of the last list and spans of one address never touch |
| AdmittedLists.SnapshotAtEpoch | src/services/quarters.service.ts:174-285 | the rows that span an epoch boundary are exactly the addresses of the last list published before it |
| AdmittedLists.SnapshotAtPosition | src/services/volume-calculation.service.ts:66-88 | the token join finds a row exactly for the tokens on the list at the payment's position; an update's own position belongs to the list before it and to the one it publishes |
| AdmittedLists.ServiceReadsSnapshot | src/services/quarters.service.ts:174-285 | the quarters service reports for quarter q exactly the last list published before q begins |
| AdmittedLists.SqlReadsService | prisma/migrations/20261005092144_deduplicate_pricing_periods/migration.sql:109-154 | keeping one row per address and quarter of admission never drops a row in force, and leaves one |
| AdmittedLists.SqlReadsSnapshot | prisma/migrations/20261005092144_deduplicate_pricing_periods/migration.sql:184-208 | the price-period function admits exactly that list too, with the data of the row in force |
| AdmittedLists.JoinFindsOne | src/services/volume-calculation.service.ts:66-88 | the token join never finds two rows for one payment |
| ServiceRewardsIndexer.Store.RemoveOrchestrator | src/indexers/service-rewards-actor.indexer.ts:259-308 | the delete and the update together leave the released table |
| ServiceRewardsIndexer.Store.CancelBinding | src/indexers/service-rewards-actor.indexer.ts:532-571 | likewise for one pair |
| ServiceRewardsIndexer.Store.CreateBinding | src/indexers/service-rewards-actor.indexer.ts:310-446 | the handler inserts the row of the specified start, or rejects with the specified reason and leaves the table alone |
| ServiceRewardsIndexer.Store.ReassignBinding | src/indexers/service-rewards-actor.indexer.ts:448-530 | the two-step update with its fallback leaves the reassigned table, or rejects with the specified reason |
| ServiceRewardsIndexer.Store.UpdateAdmittedLists | src/indexers/service-rewards-actor.indexer.ts:573-677 | both list tables are updated, tokens one at a time with those without metadata skipped |
| ServiceRewardsIndexer.Store.UpdatePricingParams | src/indexers/service-rewards-actor.indexer.ts:679-723 | accepted exactly when no parameter has a row at the update's position; then each of the five has one with its own value, and every other row is as before |
| ServiceRewardsIndexer.Store.Apply | src/indexers/service-rewards-actor.indexer.ts:159-255 | each event is dispatched to its handler, with the tables and the rejection of the ledger step, which `Acceptance.NextLog` tells by the log |
| ServiceRewardsIndexer.Store.UpdateDb | src/indexers/service-rewards-actor.indexer.ts:158-257 | a batch is accepted exactly when the run of its logs is, and leaves the tables of that run |
| Ledger.RunAppend | src/indexers/service-rewards-actor.indexer.ts:158-257 | running two batches one after the other is running them as one, including which rejection is met first |
| SeedMedian.RankBijection | prisma/migrations/20261005092144_deduplicate_pricing_periods/migration.sql:267-280 | counted ranks are a permutation of 1..n: each rank is held by exactly one seed |
| SeedMedian.MedianIsTrue | prisma/migrations/20261005092144_deduplicate_pricing_periods/migration.sql:340-343 | the seed of rank 3 is one of the five, at least three of them are priced no higher than it and it is priced no higher than at least three |
| MinLot.DivisionFree | prisma/migrations/20260904101645_add_pricing_periods_calculations/migration.sql:22-27 | for positive denominator, count and volume the test holds exactly when the lot reaches the rounded-down quotient |
| MinLot.AgreesExactly | src/services/quarters.service.ts:389-398 | the test and the reported minimum lot agree on every lot exactly when volume or count is zero, or the denominator is positive and the quotient reaches the floor |
| MinLot.WeakerWhenFloorBinds | src/services/quarters.service.ts:389-398 | with a positive denominator every lot that reaches the reported minimum passes the test |
| MinLot.FloorDropped | prisma/migrations/20260904101645_add_pricing_periods_calculations/migration.sql:22-27 | a lot of 5 passes the test where the reported minimum, the floor, is 10 |
| MinLot.PassesFrom | prisma/migrations/20260904101645_add_pricing_periods_calculations/migration.sql:22-27 | what passes is every lot from a least one on, or nothing when the denominator is zero |
| ReportedMinimum.TestIsRequired | prisma/migrations/20261005092144_deduplicate_pricing_periods/migration.sql:249-257 | an auction with a lot is substantial in the iteration of its quarter exactly when the lot reaches the least one for the count read off the view |
| ReportedMinimum.ReportDecides | src/services/quarters.service.ts:389-398 | where the two counts agree and the floor does not bind, that is exactly when its lot reaches the minimum reported for the quarter |
| ReportedMinimum.ReportAgreesExactly | src/services/quarters.service.ts:389-398 | in general test and report decide every lot alike exactly when nothing was posted, or the carried count is zero and the reported quotient plays no part or stays within the floor, or the carried quotient is the larger of floor and reported quotient |
| PricePeriods.GetQualifyingPricePeriods | prisma/migrations/20261005092144_deduplicate_pricing_periods/migration.sql:34-420 | the loop with its carried price and count returns the rows of the recursive definition that every result below is about |
| PriceChain.CollectHolds | prisma/migrations/20261005092144_deduplicate_pricing_periods/migration.sql:210-258 | every auction that passes is numbered among the substantial ones |
| PriceChain.SubstantialExactly | prisma/migrations/20261005092144_deduplicate_pricing_periods/migration.sql:210-258 | and nothing else is: a row is substantial exactly when an auction of a quarter from the first on, with a lot and thresholds, passes the minimum-lot test, at its position, with its lot and the FIL it burned |
| PriceChain.BeyondSeedsHolds | prisma/migrations/20261005092144_deduplicate_pricing_periods/migration.sql:281-303 | every row after the first five of the quarter is considered |
| PriceChain.ConsideredExactly | prisma/migrations/20261005092144_deduplicate_pricing_periods/migration.sql:281-303 | and nothing else is: a row is considered exactly when it is substantial, beyond the fifth, of the quarter, and the quarter has a price band |
| PriceChain.QuarterTraceIs | prisma/migrations/20261005092144_deduplicate_pricing_periods/migration.sql:304-384 | an iteration decides exactly the auctions it considers, in order |
| PriceChain.TraceHolds | prisma/migrations/20261005092144_deduplicate_pricing_periods/migration.sql:34-417 | the trace of the whole loop records a decision on every auction considered in any iteration |
| PriceChain.TraceSeeded | prisma/migrations/20261005092144_deduplicate_pricing_periods/migration.sql:259-343 | the seed of every decision is the middle of five: one of the prices of the first five substantial auctions of an iteration of its quarter, at least three of them priced no higher and at least three no lower |
| PriceChain.QualifyingIsGreedy | prisma/migrations/20261005092144_deduplicate_pricing_periods/migration.sql:304-416 | over the whole loop an auction is emitted exactly when it is in band of the period emitted last before it, in whichever quarter, or of the seed median if none was; nothing else is emitted |
| PriceChain.GreedyIsUnique | prisma/migrations/20261005092144_deduplicate_pricing_periods/migration.sql:304-416 | greediness determines the decisions |
| PriceChain.GreedyChains | prisma/migrations/20261005092144_deduplicate_pricing_periods/migration.sql:304-416 | the emitted periods of a greedy trace form a chain from the first seed median |
| PriceChain.BandBounds | prisma/migrations/20260904101645_add_pricing_periods_calculations/migration.sql:42-44 | a price is in band exactly when it lies between the anchor times (10000 - b) and times (10000 + b) over 10000 |
| PriceChain.BandTestIs | prisma/migrations/20261005092144_deduplicate_pricing_periods/migration.sql:281-327 | the test by which an auction is emitted or dropped is exactly that its quarter has a band and its price meets both bounds |
| PriceChain.DriftUp | prisma/migrations/20260904101645_add_pricing_periods_calculations/migration.sql:42-44 | along a chain of k periods the price rises at most by the product of (10000 + b_i) over 10000^k |
| PriceChain.DriftDown | prisma/migrations/20260904101645_add_pricing_periods_calculations/migration.sql:42-44 | and falls at most to the product of (10000 - b_i) over 10000^k while every b_i <= 10000 |
| PriceChain.QualifyingDrift | prisma/migrations/20261005092144_deduplicate_pricing_periods/migration.sql:259-416 | both bounds hold at every row of the list the function returns, from the seed that began it, which is the middle of the first five substantial prices of an iteration |
| PrefixStability.QuartersAre | prisma/migrations/20261005092144_deduplicate_pricing_periods/migration.sql:34-41 | the loop visits exactly the quarters from the first on that hold an auction |
| PrefixStability.QuartersAscend | prisma/migrations/20261005092144_deduplicate_pricing_periods/migration.sql:34-41 | in ascending order |
| PrefixStability.OneMoreAuction | prisma/migrations/20261005092144_deduplicate_pricing_periods/migration.sql:34-417 | an auction at a later position leaves the list as it is or extends it by one period |
| PrefixStability.LaterAuctionsExtend | prisma/migrations/20261005092144_deduplicate_pricing_periods/migration.sql:34-417 | any later auctions extend the list, by at most their number, despite renumbering, reseeding and the carried count |
| PeriodTable.QualifyingRises | prisma/migrations/20260904101645_add_pricing_periods_calculations/migration.sql:481-482 | the rows of the view rise strictly in position and carry the quarter they lie in |
| PeriodTable.CarriedCount | prisma/migrations/20261005092144_deduplicate_pricing_periods/migration.sql:397-400 | the count an iteration carries is the number of final rows of the quarter visited before |
| PeriodTable.CarriedCountAgrees | src/services/quarters.service.ts:126-136 | it is the count the quarters service reads for the previous quarter exactly when that quarter, from the first on, held an auction, or no quarter was visited before, or the one visited before has no rows |
| PeriodTable.RowHasAuction | prisma/migrations/20261005092144_deduplicate_pricing_periods/migration.sql:174-209 | every row stems from an auction in its quarter, from the first on, that has a lot, and carries the position, the lot and the FIL burned of that auction |
| PricePeriods.WholeToken | prisma/migrations/20261005092144_deduplicate_pricing_periods/migration.sql:177-178 | scaling by decimals makes a whole token of any decimals one dollar of 10^18 atto-USD |
| PeriodExamples.CountsDiffer | prisma/migrations/20261005092144_deduplicate_pricing_periods/migration.sql:397-400 | a run and auctions in quarters 1 and 3: the count carried into quarter 3 is 1 while the view has no row of quarter 2 |
| PeriodFreshness.SamePeriods | prisma/migrations/20261005092144_deduplicate_pricing_periods/migration.sql:34-420 | the result depends on the tables through the lots, thresholds and bands of the auctions' own quarters alone |
| PeriodFreshness.ContractSnapshot | prisma/migrations/20261005092144_deduplicate_pricing_periods/migration.sql:198-208 | after any run the contracts admitted for a quarter, by either query, are the last list in the log before it |
| PeriodFreshness.TokenSnapshot | prisma/migrations/20261005092144_deduplicate_pricing_periods/migration.sql:184-197 | likewise tokens, with their decimals |
| PeriodFreshness.LateLogKeepsPeriods | prisma/migrations/20261005092144_deduplicate_pricing_periods/migration.sql:34-420 | a log of quarter k, other than a posting of bound volume, leaves the function's result unchanged while no indexed auction lies in a later quarter |
| PeriodView.LogKeepsView | prisma/migrations/20260904101645_add_pricing_periods_calculations/migration.sql:495-523 | the view as the triggers leave it after a log equals the function, if it did before and, for a log they miss, no auction lies ahead; they miss a list update that changes contracts after the last refresh it causes |
| PeriodView.ViewIsFresh | prisma/migrations/20260904101645_add_pricing_periods_calculations/migration.sql:469-523 | in every database reached by indexing logs and auctions, no missed log behind an auction of a later quarter, the stored view is what the function would return |
| StaleView.StaleExactly | prisma/migrations/20260904101645_add_pricing_periods_calculations/migration.sql:500-523 | the triggers leave every fresh view fresh, whatever auctions are indexed, exactly unless they miss the log, a token with metadata stays listed and parameters have been set |
| SixAuctions.SixQualify | prisma/migrations/20261005092144_deduplicate_pricing_periods/migration.sql:281-384 | six auctions of one price in one block, whose lot meets the floor of their quarter, yield one period, the sixth |
| PeriodExamples.MiddleSeedEmits | prisma/migrations/20261005092144_deduplicate_pricing_periods/migration.sql:259-343 | six auctions with lots 50, 10, 40, 20, 30 and 30 under a band of zero: the anchor is 30, the median and not the first price, and the sixth is emitted |
| PeriodExamples.ViewGoesStale | prisma/migrations/20260904101645_add_pricing_periods_calculations/migration.sql:500-513 | behind such an auction it is not: after a contract is removed the view keeps rows while the function returns none |
| Sums.FloorSum | src/services/volume-calculation.service.ts:271-273 | rounding k parts down loses at most k - 1 against rounding their sum |
| VolumeConservation.OneOwner | src/services/volume-calculation.service.ts:97-132 | the shares of a payment over all orchestrators add up to the payment, or to nothing |
| VolumeConservation.Conserved | src/services/volume-calculation.service.ts:97-155 | for any amount per payment, summing the filtered sums over orchestrators is the unfiltered sum |
| VolumeConservation.PeriodWorth | src/services/volume-calculation.service.ts:265-273 | the value of a period is the whole units its FIL is worth at the price: value times claim is at most FIL times lot, and one unit more would exceed it |
| VolumeConservation.PeriodRounding | src/services/volume-calculation.service.ts:265-273 | in each period the floored total exceeds the sum of the floored shares of k orchestrators by 0 to k - 1 |
| VolumeConservation.FilRounding | src/services/volume-calculation.service.ts:305-313 | over m periods by at most m * (k - 1) |
| VolumeConservation.FormsAgree | src/services/payments.service.ts:106-118 | matching by NOT EXISTS and by ORDER BY LIMIT 1 pick the same period, so a payment has at most one |
| VolumeConservation.MatchedTelescopes | src/services/volume-calculation.service.ts:157-256 | for one contract set, the FIL matched to the first k periods is all attributed FIL paid since activation and before the k-th period |
| VolumeConservation.QualifyingMatch | src/services/volume-calculation.service.ts:216-251 | both hold of the periods the function returns |
| VolumeConservation.TokenCountedOnce | src/services/volume-calculation.service.ts:136-155 | after any run the join counts a payment at most once, at the decimals of its token |
| VolumeConservation.RunReferential | prisma/schema.prisma:92 | after any run every binding refers to an admitted orchestrator |
| VolumeConservation.QuarterConserved | src/services/volume-calculation.service.ts:305-326 | after any run, for any payments and periods: the orchestrators' stablecoin volumes add up exactly to the unfiltered one, and their FIL volumes and totals fall short of it by at least 0 and at most m * (k - 1) |
| VolumeFromLog.AttributedFromLog | src/services/volume-calculation.service.ts:97-132 | after any run a payment is attributed to an orchestrator exactly when the log makes it owner of the payment's position |
| VolumeFromLog.StableVolumeFromLog | src/services/volume-calculation.service.ts:55-155 | the stablecoin volume of a quarter is the sum of the quarter's owned payments in contracts and tokens listed before it, and tokens not yet taken off, each scaled once |
| VolumeFromLog.MatchedFilFromLog | src/services/volume-calculation.service.ts:159-256 | the FIL collected by a period is the sum of the owned FIL payments whose first later period it is |
| VolumeFromLog.RunPosts | src/indexers/service-rewards-actor.indexer.ts:243-252 | the bound volume of a quarter is the one posted for it in the log |
| VolumeFromLog.ThresholdsFromLog | prisma/migrations/20261005092144_deduplicate_pricing_periods/migration.sql:220-257 | the minimum-lot thresholds of a quarter are the floor, numerator and denominator of the last parameters before it and the volume posted for the quarter before, or 0 |
| VolumeFromLog.BandFromLog | prisma/migrations/20261005092144_deduplicate_pricing_periods/migration.sql:292-300 | the price band of a quarter is that of the last parameters before it, and there is none while there are none |
| VolumeFromLog.ParameterFromLog | prisma/migrations/20261005092144_deduplicate_pricing_periods/migration.sql:59-85 | any parameter the function reads for a quarter is the one last set in the log before it |
| VolumeFromLog.LotFromLog | prisma/migrations/20261005092144_deduplicate_pricing_periods/migration.sql:174-209 | an auction has a lot exactly when its contract and token were listed before its quarter, scaled by the token's decimals |
| VolumeFromLog.EarlyReturnAgrees | src/services/volume-calculation.service.ts:39-53 | without contracts or without tokens in a quarter the early return gives what the sums would, for the periods the function returns |
| VolumeFromLog.UnsetTogether | src/services/quarters.service.ts:287-389 | parameters are set together, so of the four errors for a missing one only that for the price band can be met |
| VolumeFromLog.VolumeFromLog | src/services/volume-calculation.service.ts:20-330 | the whole answer, for any filter, told by the log, payments and periods: no such quarter, the first parameter not set before it, or the stablecoin volume and, summed over the periods of the quarter, the whole units the FIL of each is worth at its price |
| VolumeFromLog.StoredVolumeFromLog | src/services/volume-calculation.service.ts:20-330 | the same of the stored view, in every database in which it is fresh |
| PaymentListing.ListedOnce | src/services/payments.service.ts:53-76 | after any run the left join lists a payment once, with the orchestrator that owns its position by the log, or without |
| PaymentListing.FlagFromLog | src/services/payments.service.ts:264-274 | the flag holds exactly for an owned payment whose contract, and whose token unless it is FIL, are listed at its position |
| PaymentListing.SelectedIsSummed | src/services/volume-calculation.service.ts:55-155 | what the stablecoin sum selects is what it adds, once, at the token's decimals |
| PaymentListing.StableFlagAgrees | src/services/payments.service.ts:124-201 | flag and sum of the payment's quarter agree on a stablecoin payment exactly when it is unowned, or its token is not listed at its position, or its contract is listed there just when both were listed before the quarter |
| PaymentListing.FilFlagAgrees | src/services/payments.service.ts:124-201 | on a FIL payment exactly when it is unowned, or its contract is listed at its position just when it was made from activation on, has a first later period and was listed before that period's quarter |
| LogSorting.SortLogsSorts | src/indexers/abstract.indexer.ts:171-189 | the sorted copy holds the same logs in order |
| LogSorting.KeyOrder | src/indexers/abstract.indexer.ts:171-189 | block decides first, then transaction, then log index; only logs with the same three tie |
| LogSorting.SortedByPosition | src/indexers/abstract.indexer.ts:171-189 | where log indexes run on through the transactions of a block, that is the order of positions every table uses |
| LogSorting.RangeIs | src/indexers/abstract.indexer.ts:127-133 | a range holds exactly the logs of the chain with a block in it |
| LogSorting.SortedIsUnique | src/indexers/abstract.indexer.ts:171-189 | logs with distinct keys have only one sorted arrangement |
| LogSorting.RangesJoin | src/indexers/abstract.indexer.ts:67-69 | the logs of consecutive ranges concatenate to those of the joined range |
| LogSorting.SortRestores | src/indexers/abstract.indexer.ts:127-133 | sorting what a node returns for a range, in any order, restores the chain's order |
| BatchIndexer.ToBlock | src/indexers/abstract.indexer.ts:103-115 | the next batch ends at the head, or before it after exactly a whole batch; the batch size is the archive node's exactly when the recent head is more than the threshold ahead |
| BatchIndexer.MaxToBlock | src/indexers/abstract.indexer.ts:90-96 | the head is the finalized height, or the larger of it and the current height less the allowed difference, if there is one |
| BatchIndexer.Indexer.Commit | src/indexers/abstract.indexer.ts:135-154 | tables and cursor move together or not at all, and the tables stay those of every log up to the cursor |
| BatchIndexer.PassesLastBlock | src/indexers/abstract.indexer.ts:112-115 | batches are not cut at the last block of a removed contract: exactly when one passes it |
| FilecoinPay.PassesRemoval | src/indexers/abstract.indexer.ts:59-66 | a run in which one does: a contract removed at block 3 is indexed up to block 9 |
| BatchIndexer.Indexer.constructor | src/indexers/abstract.indexer.ts:67-69 | a new indexer over an empty database is in step with any chain |
| BatchIndexer.Indexer.Pass | src/indexers/abstract.indexer.ts:52-168 | a pass that is due commits the next batch exactly when fetch, update and process all succeed; it never moves the cursor beyond finality, by either measure, and reports being up to date exactly at that head or at or beyond a last block |
| BatchIndexer.Indexer.Run | src/indexers/abstract.indexer.ts:157-168 | whatever fails, tables and cursor stay in step, the cursor moves forward alone, no further than the final blocks and at most a batch beyond a last block; undisturbed at a fixed final height on an accepted chain, the run ends with the cursor there or at or beyond the last block |
| BatchIndexer.Replay | src/indexers/abstract.indexer.ts:47-169 | exactly once, from an empty database: after any attempts and failures the tables are the fold of the logs up to the cursor; once an attempt settles on an accepted chain, of the logs up to the last final block |
| BatchIndexer.ReplayTwice | src/indexers/abstract.indexer.ts:47-169 | batch independence: two databases filled with other batch sizes, failures and retries hold the same tables at the same block, and once both have settled |
| CommittedTables.ApplierComposes | src/indexers/service-rewards-actor.indexer.ts:158-257 | the Service Rewards Actor's updates meet what the batch indexer asks of updates |
| CommittedTables.ChainAccepted | src/indexers/abstract.indexer.ts:135-154 | a chain whose run is accepted is accepted batch by batch, however it is split |
| CommittedTables.RejectedForGood | src/indexers/abstract.indexer.ts:135-154 | the cursor never reaches a block up to which the chain is rejected |
| CommittedTables.IndexActor | src/services/indexer-orchestrator.service.ts:117-121 | from an empty database through any attempts: the tables are those of the run up to the cursor, own each position as that log specifies and never twice, and the cursor stays short of every rejected log; once settled, of the run up to the head, if that run is accepted, as it is when the log shows no entry rejected |
| FilecoinPay.BatchesCompose | src/indexers/filecoin-pay-v1.indexer.ts:40-52 | accepted batches applied one after the other are the joined batch, rails and payments with their multiplicities |
| FilecoinPay.AcceptedExactly | src/indexers/filecoin-pay-v1.indexer.ts:40-52 | a batch is accepted exactly when it creates no rail that is stored or created twice and every payment is on a rail stored or created in the batch; it then stores those rails, each as its log has it |
| FilecoinPay.RowsAre | src/indexers/filecoin-pay-v1.indexer.ts:74-109 | a row is inserted once for each payment log whose rail, amounts, kind and position it carries, and no other row is |
| FilecoinPay.OneRowEach | src/indexers/filecoin-pay-v1.indexer.ts:74-109 | where rows are so stored every one-time payment and every settlement has exactly one row at its position: net, commission and fee as emitted, the total being their sum or the one settled |
| FilecoinPay.SplitAccepted | src/indexers/filecoin-pay-v1.indexer.ts:40-52 | a batch accepted whole is accepted in two parts exactly where the payments of the first refer to rails stored by then |
| FilecoinPay.ChainAccepted | src/services/indexer-orchestrator.service.ts:150-165 | where every rail is created once and paid on after that, as in the log of a contract from its deployment on, every batch is accepted however the chain is split |
| FilecoinPay.PaymentBeforeRail | src/indexers/filecoin-pay-v1.indexer.ts:40-52 | outside that case: a payment ahead of its rail is accepted with it but not before it |
| FilecoinPay.IndexContract | src/indexers/filecoin-pay-v1.indexer.ts:40-109 | from an empty database through any attempts: the rows are those of the payment logs up to the cursor, each once, and the rails those created by then, each as its log has it; once settled, of every log up to the head, if rails come first |
| SingleFlight.AlwaysGuarded | src/services/indexer-orchestrator.service.ts:66-107 | over every interleaving of cron ticks, timers and failing runs: at most one execution and one pending timer, none during an execution, and no clash of timeout names |
| SingleFlight.TickStarts | src/services/indexer-orchestrator.service.ts:66-88 | a tick or timer during an execution does nothing; otherwise it starts one and leaves no timer pending |
| SingleFlight.FailureRetries | src/services/indexer-orchestrator.service.ts:89-106 | a failed execution leaves exactly one retry timer, a successful one none, and the guard is down |
| SingleFlight.IndexerOrchestrator.Index | src/services/indexer-orchestrator.service.ts:66-88 | the guard, the clearing of the timer and the start, as one step of that state machine |
| SingleFlight.IndexerOrchestrator.ExecuteSettled | src/services/indexer-orchestrator.service.ts:89-106 | the catch and finally blocks as another |

## Left out

- Chain clients, Filfox calls, ERC-20 reads and ABI decoding: logs, heads and token decimals are inputs (`Observation`, `World`). Decimals are at most 18; beyond that `POWER` is not an integer.
- Controllers, schemas, bootstrap, configuration, pagination, sorting of listings: plumbing.
- The auction indexer: its log filter reads the database and decodes transactions. Auctions are an input, at distinct positions, each with some FIL burned.
- Orchestrator admissions and wallets, and volume postings and corrections: they touch none of the tables modelled, so their own key violations are not modelled either (`OtherEvent`, and `OrchestratorAdmitted` never being rejected).
- Transaction hashes, token symbols, and `unbinding` columns beyond the epoch: carried along, read by nothing modelled.
- The sorting algorithm: `SortLogs` inserts, and `LogSorting.SortedIsUnique` says why any other would do.
- Rows with a null log index, which older versions left, and the null ordering of the comparator.
- The reported start of a period (`LAG`): the window runs after the filter on the quarter, so it is not where coverage begins. Matching is proved on positions.
- Floating-point dollar amounts and `divideBigInt`; integers are unbounded.
- Which error a node call raises, and waiting times: a failed pass is one outcome (`Failed`). Which check rejects a log is `Acceptance.NextLog`.
- Chain reorganisation past the finalised height, several replicas, clean-up of older versions.
- The price periods themselves in `VolumeOf`: they and the payments are arguments, so the results hold of the view at any time. `VolumeConservation.QualifyingMatch` joins them to the function that fills the view.
- PeriodFreshness.LateLogKeepsPeriods: excludes postings of bound volume, which do change thresholds of the next quarter; `PeriodView.ViewIsFresh` includes them, since a trigger refreshes the view for them.
- PeriodView.ViewIsFresh: has no change of the stored configuration, which the calendar takes as fixed.
- SingleFlight.AlwaysGuarded: covers executions started by `index`; a direct call of `execute` is outside the guard in the code too.
- BatchIndexer.Replay: that an attempt settles at the head is promised while nothing fails in it and the head stands still for its length; how long nodes fail is not modelled.
