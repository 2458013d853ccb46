# Verification of the investment engine's paper trading core

This project models the decision-to-ledger pipeline of the crypto paper trading engine and the protocols around it, and
proves what they keep over every input and every run.

| file | models |
|---|---|
| `ledger.dfy`, `redelivery.dfy`, `orders.dfy` | the transactional, idempotent paper ledger, what repeated deliveries do to it, and the orders it posts |
| `paper_trading.dfy`, `solvency.dfy`, `rebalance.dfy` | order plan, approval, fill, and when a whole plan goes through |
| `selection.dfy`, `evidence.dfy`, `ranking.dfy`, `holding_age.dfy` | how targets are chosen: ranks, penalties, confirmations, hysteresis, replacement, holding age |
| `market.dfy`, `strategy.dfy`, `backtest.dfy` | the backtest: what is known when, momentum signals, equal weights, the equity loop |
| `blocks.dfy`, `point_in_time.dfy`, `drawdown.dfy`, `walk_forward.dfy` | research measurement |
| `pagination.dfy`, `rate_limiter.dfy`, `stream_ownership.dfy`, `stream_status.dfy`, `crowding.dfy` | data collection and the crowding signal |
| `runtime_jobs.dfy`, `job_protocol.dfy`, `job_identity.dfy` | job leases and runtime state, the interleaved steps of many calls in many processes, and one execution per identity |
| `observation.dfy` | the frozen forward observation |
| `toml.dfy`, `strategy_registry.dfy` | policy snapshots as TOML, read back and published |
| `review_workflow.dfy`, `research_lifecycle.dfy` | propose, validate, promote; experiments and the champion |
| `prelude.dfy`, `sorting.dfy` | exact arithmetic, sums over keys, text order, sorting and filtering |

Objects that the program updates in place are classes whose methods are proved against functions of their old state;
theorems about runs are lemmas about those functions. A database transaction, a locked block and a file operation are
one step each.

## Where the code keeps less than one might expect

Each item names the theorem that says for which inputs, parameters or runs the property holds and fails.

- A delivery refused for an unopened portfolio, for cash or for a position leaves no trace, so its repetition may still
  be applied; every other delivery takes effect at most once (`Redelivery.RedeliveryIsInertIff`, `RetriesAreInertIff`).
- A SELL whose fee exceeds its notional can make the cash negative (`CashIsSafeIffFeeIsCovered`).
- With one suppressed sale a plan goes through only if the cash beside the holding pays for the purchase (`OneSuppressedSale`).
- A negative replacement advantage makes the selection worse (`NearOptimalIffAdvantageNotNegative`).
- For raw scores above one, a penalty of more than half the distance from its threshold to one leaves a valley between
  two peaks (`SinglePeakIff`).
- A clock that steps back, or a tie the query lists in another order, lets the holding-age replay see another log than
  the recorded one (`StableListingIsFaithfulIff`, `EveryListingIsFaithfulIff`, `ReplayNeedsTimesInOrder`).
- Above a summed rate of one half a rebalance can leave a negative equity (`RateLimitIsExact`).
- `at` on a view is exact only if nothing it shows was revised in between (`EarlierViewIsExactIffNotRevised`).
- Two instances that read one stale age can both rename the ownership directory (`TakeOverIsSafeIffStillStale`).
- A scope of a process can have two handlers exactly when a timed job without a lock key is configured: its timeout
  leaves the handler running (`OneHandlerIffNoTimeoutWithoutLock`).
- A call that begins a whole lease after it took the lease lets one identity run twice (`OneExecutionIffDelayIsShort`);
  the lookup itself is exact up to 10,000 records and not beyond (`LookUpIsExactIffWithinLimit`).
- STOPPED is overwritten by a start, a begin, an end, or a recovered delivery (`StopIsKeptExactlyBy`).
- An exception between entering a scope and the guarded block shuts the scope for good, and nothing else keeps an idle
  scope shut (`IdleScopeIsOpenIffNotLeaked`, `LeakedScopeStaysShut`).
- Two candidates of one base can both be promoted, after which no experiment can be created
  (`OneChampionIffNoStalePromotion`, `TwoChampionsAreReached`).
- A sleep that ends early brings requests together by as much (`SpacingIffSlackCoversEarlyWaking`).
- At a slippage rate of one or more a sale has no positive fill price and its report is refused, which stops the plan
  (`PlanExecutesIffAffordable`). The gateway accepts such rates; the registry keeps a policy's rates below one.
- The running-peak drawdown misses falls to negative values (`RunningPeakIsExactIff`). A decision's equity can be
  negative only after a fill whose fee exceeds its notional (`EquityStaysNonNegative`): this takes a gateway built with a
  fee rate above one, which its constructor accepts but no policy of the registry has.

## Abstractions

- `Decimal` and `float` are exact reals; 28-digit rounding and the six-digit rounding of crowding scores are not modelled.
- Times are integers or reals; a clock is a parameter of the call that reads it. One call reads it once.
- Hashes and generated identifiers are injective: a hash is a datatype constructor over what is hashed.
- Tables are maps or sequences; the order of a query is arbitrary where no caller depends on it.
- Log1p ratios, regime and eligibility models, market data, semantic policy rules, the version pattern and Python's
  number parsing are parameters.
- A policy's configuration hash stands for the policy. The newer fields that a published older schema leaves out of the
  hash equal their defaults by the registry's own check.

## Model

| member | source | states |
|---|---|---|
| Ledger.PaperLedger.Create | src/investment/crypto/infrastructure/sqlite_accounting.py:141-170 | an unknown identifier is inserted with its cash and no positions; a known one of the same purpose and cash asset is returned as it stands; another identity or initial positions are refused and change nothing |
| Ledger.PaperLedger.ApplyExecution | src/investment/crypto/infrastructure/sqlite_accounting.py:172-255 | the transaction: the new tables and the outcome are those of posting the report, a refusal leaves every table alone |
| Ledger.PostKeepsValid | src/investment/crypto/infrastructure/sqlite_accounting.py:172-278 | posting keeps every stored quantity at or above the dust limit |
| Ledger.OnlyAppliedFillsChangeState | src/investment/crypto/infrastructure/sqlite_accounting.py:172-255 | a duplicate or refused delivery changes nothing; an applied one appends exactly one execution, its own, and touches no other portfolio and no other asset's position |
| Ledger.BookValueIsConserved | src/investment/crypto/infrastructure/sqlite_accounting.py:202-278 | over every run: cash plus positions at average cost = the same before + realized profit - written-off dust |
| Ledger.ConservationSinceOpening | src/investment/crypto/infrastructure/sqlite_accounting.py:141-278 | the same from the opening: book value = initial cash + realized profit - dust |
| Ledger.WriteOffIsDust | src/investment/crypto/infrastructure/sqlite_accounting.py:258-278 | every write-off comes from a position smaller than 1e-18 |
| Ledger.StepExtendsLog | src/investment/crypto/infrastructure/sqlite_accounting.py:172-255 | the execution log only grows, one entry at a time, and keys are never reused |
| Ledger.RunKeepsKeysUnique | src/investment/crypto/infrastructure/sqlite_accounting.py:178-185 | over every run no two executions share an order id or an intent id |
| Ledger.RetryIsInert | src/investment/crypto/infrastructure/sqlite_accounting.py:180-185 | a retry of an applied delivery changes nothing, wherever in the rest of the run it arrives |
| Redelivery.RunKeepsSensible | src/investment/crypto/infrastructure/sqlite_accounting.py:200-278 | over every run of reports and openings that pass the records' own validation, average costs stay positive and no portfolio holds its cash as a position |
| Redelivery.SettledIsQuiet | src/investment/crypto/infrastructure/sqlite_accounting.py:172-221 | a delivery that was applied, is recorded, or is refused for side, quantity, purpose, quote or a drained portfolio never has an effect again, whatever arrives in between |
| Redelivery.SucceedsLater | src/investment/crypto/infrastructure/sqlite_accounting.py:186-221 | every other refused delivery, for an unopened portfolio, cash or position, leaves no trace, and some later traffic lets the same delivery through |
| Redelivery.RedeliveryIsInertIff | src/investment/crypto/infrastructure/sqlite_accounting.py:172-221 | exactly once, exactly: every repetition after the first delivery is without effect if and only if the first was not such a refusal |
| Redelivery.RetriesAreInertIff | src/investment/crypto/infrastructure/sqlite_accounting.py:172-185 | every retry that shares the order or the intent key is without effect if and only if the delivery was applied or both keys were recorded |
| Redelivery.RedeliveriesCollapse | src/investment/crypto/infrastructure/sqlite_accounting.py:172-255 | a run with repeated deliveries ends as the run of the first ones, when none of those was left to succeed later |
| Redelivery.RetriesCollapse | src/investment/crypto/infrastructure/sqlite_accounting.py:172-255 | the same for retries that share one key, when every first delivery was applied or had both keys recorded |
| Ledger.CashStaysNonNegative | src/investment/crypto/infrastructure/sqlite_accounting.py:202-221 | cash stays non-negative over every run whose SELL fees do not exceed their notionals |
| Ledger.CashIsSafeIffFeeIsCovered | src/investment/crypto/infrastructure/sqlite_accounting.py:216-221 | the fee bound is exact: without it some solvent ledger goes negative |
| Ledger.EquityStaysNonNegative | src/investment/crypto/application/dynamic_paper_rebalance.py:485-488 | over the same runs the equity at non-negative prices is never negative |
| Gateway.PaperExchange.Submit | src/investment/crypto/infrastructure/paper_exchange.py:31-57 | a fill at the configured price and fee, cached by intent; a second submission returns the first report; an unknown pair and a report without a positive price are refused and nothing is cached |
| Gateway.ReportIsAcceptedIff | src/investment/crypto/ports/exchange.py:22-31 | the report's own validation accepts a fill if and only if it is a purchase or the slippage rate is below one |
| Planning.Plan | src/investment/crypto/application/dynamic_paper_rebalance.py:1622-1693 | the rows are exactly the orders of the symbols whose gap to the target reaches the threshold, sells first, by symbol |
| Planning.PlanIsDetermined | src/investment/crypto/application/dynamic_paper_rebalance.py:1622-1693 | the order in which symbols are visited does not show in the plan |
| Planning.CurrentsAreTheHoldings | src/investment/crypto/application/dynamic_paper_rebalance.py:1640-1660 | the planned symbols' current values are the equity without the cash |
| Planning.TargetsAreScaledWeights | src/investment/crypto/application/dynamic_paper_rebalance.py:1640-1660 | the target amounts sum to the equity times the target weights |
| Solvency.ExecutePlan | src/investment/crypto/application/dynamic_paper_rebalance.py:1695-1710 | the loop approves, fills and posts the rows in turn and stops at the first refusal |
| Solvency.RowOutcome | src/investment/crypto/application/dynamic_paper_rebalance.py:1695-1710 | a row of a ready plan can only be refused for lack of cash, or as a sale without a positive fill price |
| Solvency.PlanExecutesIffAffordable | src/investment/crypto/application/dynamic_paper_rebalance.py:1695-1710 | a ready plan goes through completely if and only if its sales have positive fill prices and the cash covers its net flow |
| Solvency.PlanIsAffordable | src/investment/crypto/application/dynamic_paper_rebalance.py:1640-1693 | the net flow is covered when the uninvested equity covers suppressed sells and trading costs |
| Solvency.WholePlanSolvency | src/investment/crypto/application/dynamic_paper_rebalance.py:1640-1710 | whole-plan solvency: under that condition every planned order is approved and every fill applied, exactly if the sales have positive fill prices, which any positive target share implies |
| Solvency.OneSuppressedSale | src/investment/crypto/application/dynamic_paper_rebalance.py:1640-1693 | with one suppressed sale and one purchase the plan goes through exactly when the cash pays for the purchase and its costs |
| Rebalance.SelectedTargetsFit | src/investment/crypto/application/dynamic_paper_rebalance.py:1386-1397 | targets made from the selection never exceed the invested fraction |
| Rebalance.SelectedPlanGoesThrough | src/investment/crypto/application/dynamic_paper_rebalance.py:1217-1710 | selection, plan, approval, fill and ledger together: such a rebalance is applied completely when anything is to be invested |
| Selection.Select | src/investment/crypto/application/dynamic_paper_rebalance.py:1217-1409 | the loop over entrants computes the chosen assets, their equal weights and its replacements |
| Selection.SelectionRespectsGates | src/investment/crypto/application/dynamic_paper_rebalance.py:1291-1336 | distinct pairs, each through its own gate, never more than the position limit, as many as possible |
| Selection.LoopIsNearOptimal | src/investment/crypto/application/dynamic_paper_rebalance.py:1337-1359 | the replacement loop: whoever is left out faces a full selection without a much weaker member |
| Selection.SelectionIsNearOptimal | src/investment/crypto/application/dynamic_paper_rebalance.py:1291-1360 | the same for the whole selection: score at most the minimum selected score plus the required advantage |
| Selection.NegativeAdvantageFails | src/investment/crypto/application/dynamic_paper_rebalance.py:1345-1350 | a negative advantage lets a weaker entrant displace an equal member |
| Selection.NearOptimalIffAdvantageNotNegative | src/investment/crypto/application/dynamic_paper_rebalance.py:1337-1359 | near-optimality holds for all inputs if and only if the advantage is not negative |
| Selection.EntrantsAreNeverDisplaced | src/investment/crypto/application/dynamic_paper_rebalance.py:1337-1359 | with a positive advantage no entrant the loop admitted is displaced by it again |
| Selection.ReplacementsAreBounded | src/investment/crypto/application/dynamic_paper_rebalance.py:1337-1359 | so there are at most as many replacements as retained holdings |
| Selection.WeightsFitBothLimits | src/investment/crypto/application/dynamic_paper_rebalance.py:1386-1397 | equal weights within the asset limit, together exactly the smaller of the two budgets |
| Evidence.ScoreHasOnePeak | src/investment/crypto/application/dynamic_paper_rebalance.py:1010-1015 | on the unit interval the quadratic penalty gives a score with a single peak |
| Evidence.PenaltyIsBounded | src/investment/crypto/application/dynamic_paper_rebalance.py:1010-1015 | the penalty stays within its maximum and never lifts a score or makes it negative |
| Evidence.SinglePeakIff | src/investment/crypto/application/dynamic_paper_rebalance.py:1010-1015 | for raw scores up to a bound there is a single peak if and only if the bound is at most one or the maximum penalty is at most half the distance from its threshold to one |
| Evidence.GentlePenaltyKeepsOrder | src/investment/crypto/application/dynamic_paper_rebalance.py:1010-1015 | such a gentle penalty never reverses the order of two scores, of whatever size |
| Evidence.PriorConfirmationCounts | src/investment/crypto/application/dynamic_paper_rebalance.py:1730-1753 | the dictionary loop counts, for every pair, the unbroken run of newest cohorts it passed |
| Evidence.ConfirmedIffPassedEveryTime | src/investment/crypto/application/dynamic_paper_rebalance.py:1730-1753 | a pair has all prior confirmations exactly when it passed each of the required newest cohorts |
| Ranking.PercentileRanks | src/investment/crypto/application/dynamic_paper_rebalance.py:1048-1066 | the tie-grouping loop gives every pair its counted rank |
| Ranking.RankGroups | src/investment/crypto/application/dynamic_paper_rebalance.py:1056-1065 | one group of equal values at a time, each with the average rank of its positions |
| Ranking.RankIsUnit | src/investment/crypto/application/dynamic_paper_rebalance.py:1048-1066 | ranks lie in the unit interval |
| Ranking.RankPreservesOrder | src/investment/crypto/application/dynamic_paper_rebalance.py:1048-1066 | a larger value has a strictly larger rank, equal values share one |
| Ranking.RanksIgnoreOrder | src/investment/crypto/application/dynamic_paper_rebalance.py:1048-1066 | the order of the input does not matter |
| Ranking.RanksSumToHalf | src/investment/crypto/application/dynamic_paper_rebalance.py:1048-1066 | the ranks of n members sum to n/2 |
| Ranking.ScoresAverageHalfTheWeights | src/investment/crypto/application/dynamic_paper_rebalance.py:969-1000 | hence raw calm-pullback scores of the scored cohort always average half the weight sum |
| HoldingAge.ExpiredHoldings | src/investment/crypto/application/dynamic_paper_rebalance.py:1593-1620 | for whatever executions are listed, the replay loop returns exactly the held pairs opened at least the maximum period ago |
| HoldingAge.StableListingIsFaithfulIff | src/investment/crypto/infrastructure/sqlite_accounting.py:308-337 | listed in log order within a time, sorting by time gives the log back if and only if its times never decrease and it fits the limit |
| HoldingAge.EveryListingIsFaithfulIff | src/investment/crypto/infrastructure/sqlite_accounting.py:315-319 | however the query orders executions of one time: the log always comes back if and only if its times increase and it fits the limit |
| HoldingAge.OpenedAtIsFirstPurchaseSinceFlat | src/investment/crypto/application/dynamic_paper_rebalance.py:1600-1615 | the recorded opening is the first purchase since the pair was last flat |
| HoldingAge.OpeningIsUnique | src/investment/crypto/application/dynamic_paper_rebalance.py:1600-1615 | there is one such purchase |
| HoldingAge.RunAgrees | src/investment/crypto/infrastructure/sqlite_accounting.py:172-278 | for every ledger run without dust the replayed quantities equal the stored positions |
| HoldingAge.HoldingAgeAgreesWithLedger | src/investment/crypto/application/dynamic_paper_rebalance.py:1593-1620 | over every dust-free run whose log comes back, the replay tells each stored position and that it was opened at its first purchase since flat |
| HoldingAge.ReplayNeedsTimesInOrder | src/investment/crypto/application/dynamic_paper_rebalance.py:1593-1620 | what a decreasing pair of times does: a position already sold is replayed as held |
| Momentum.Generate | src/investment/crypto/strategy/momentum.py:32-70 | signals and strengths are those of the part of the market known at the time; a risk-off regime gives none |
| Momentum.SignalsAreDistinct | src/investment/crypto/strategy/momentum.py:52-70 | signals name distinct assets of the universe, at most the maximum; the strongest has strength one, the others positive and falling strengths |
| Momentum.SeesOnlyTheKnown | src/investment/crypto/strategy/momentum.py:32-33 | momentum depends on the market only through what was known |
| Construction.Construct | src/investment/crypto/portfolio/equal_weight.py:33-59 | the loop gives every selected asset an equal share and the residual to the last; a selection that names an asset twice is refused |
| Construction.WeightsSumToInvested | src/investment/crypto/portfolio/equal_weight.py:33-59 | weights are fractions and sum exactly to the invested fraction |
| Market.EarlierKnowledge | src/investment/crypto/domain/market.py:114-120 | what was known earlier is a function of what was known later |
| Market.TimelineIsCommonOpens | src/investment/crypto/backtest/engine.py:146-152 | the timeline holds exactly the opens common to all pairs, ascending |
| Backtest.Run | src/investment/crypto/backtest/engine.py:32-118 | for every strategy the loop computes the curve and the final book of the recursive definition, or ends with the first exception |
| Backtest.BooksAgree | src/investment/crypto/backtest/engine.py:55-118 | for every strategy, regime and eligibility model that sees only known data: markets that agree up to a time give the same book at every step up to it |
| Backtest.NoLookAhead | src/investment/crypto/backtest/engine.py:55-118 | no look-ahead, for every such strategy: the equity curve up to a time does not depend on anything later |
| Backtest.MomentumDoesNotLookAhead | src/investment/crypto/backtest/engine.py:55-118 | momentum is such a strategy |
| Backtest.TurnoverBound | src/investment/crypto/backtest/engine.py:78-91 | at most twice the equity changes hands |
| Backtest.ReturnBound | src/investment/crypto/backtest/engine.py:104-115 | a long-only period never loses more than everything |
| Backtest.CostsAreBounded | src/investment/crypto/backtest/engine.py:78-115 | for every strategy: 0 <= equity <= fee-only <= gross, and equity >= gross * (1 - summed impacts), over every run with rates of at most 1/2 |
| Backtest.RateLimitIsExact | src/investment/crypto/backtest/engine.py:92-115 | rates keep the equity of all runs from turning negative if and only if they sum to at most one half; beyond it the run of two assets that swaps them turns negative |
| Backtest.RunsToTheEnd | src/investment/crypto/backtest/engine.py:104-112 | a strategy that signals distinct assets of the universe never ends a run by an exception |
| Backtest.MomentumSignalsWithin | src/investment/crypto/strategy/momentum.py:52-70 | momentum is such a strategy |
| Blocks.NonOverlappingBlocks | src/investment/crypto/research/signal_evaluator.py:188-196 | the loop computes the greedy count |
| Blocks.GreedyStaysAhead | src/investment/crypto/research/signal_evaluator.py:188-196 | no separated choice has more members than the greedy count |
| Blocks.BlockCountIsMaximum | src/investment/crypto/research/signal_evaluator.py:188-196 | the count is the largest size of a choice pairwise at least one horizon apart |
| PointInTime.ViewHoldsLatestRevision | src/investment/core/data/point_in_time.py:17-28 | of every key known at the time the view holds exactly one row, its latest revision |
| PointInTime.EarlierViewNeverLeaks | src/investment/core/data/point_in_time.py:80-85 | an earlier view of a view shows nothing that was not known then |
| PointInTime.EarlierViewIsExactIffNotRevised | src/investment/core/data/point_in_time.py:52-85 | it equals the view built at that time if and only if no shown row was revised in between |
| PointInTime.NarrowingComposes | src/investment/core/data/point_in_time.py:80-85 | narrowing step by step gives what narrowing at once gives |
| Drawdown.MaxDrawdown | src/investment/crypto/observation/service.py:659-666 | the loop computes the least fall from the running peak |
| Drawdown.RunningIsMaxDrawdown | src/investment/crypto/observation/service.py:659-666 | for values that are not negative this is the least fall over all ordered pairs |
| Drawdown.RunningPeakIsExactIff | src/investment/crypto/observation/service.py:659-666 | for all values from a floor up the running peak is right if and only if the floor is not negative |
| Drawdown.RunningIsTheOnlyMaxDrawdown | src/investment/crypto/observation/service.py:659-666 | for values that are not negative no other number is the least fall |
| Drawdown.ForwardMaxDrawdown | src/investment/core/labels/forward.py:11-17 | every index with a whole horizon gets the drawdown of its path |
| WalkForward.SplitAll | src/investment/crypto/ml/split.py:50-80 | the loop ends and returns exactly the folds up to the first one that cannot be made |
| WalkForward.PartsAreApart | src/investment/crypto/ml/split.py:60-66 | rows of different parts of a fold are more than the purge gap apart |
| WalkForward.TestsAreDisjointIffStepIsLong | src/investment/crypto/ml/split.py:60-66 | test parts share no row if and only if a step is at least as long as a test |
| Pagination.FetchCandles | src/investment/crypto/infrastructure/upbit.py:173-258 | against a fixed server the loop ends and returns exactly the server's candles of the period, ascending without duplicates |
| Pagination.FetchedRange | src/investment/crypto/infrastructure/upbit.py:196-210 | dropping what lies outside and sorting gives the range |
| RateLimiter.UpbitRateLimiter.Wait | src/investment/crypto/infrastructure/upbit.py:68-75 | when the request starts and when the next slot is |
| RateLimiter.UpbitRateLimiter.Defer | src/investment/crypto/infrastructure/upbit.py:77-79 | a deferral only moves the next slot later |
| RateLimiter.GrantsAreApart | src/investment/crypto/infrastructure/upbit.py:68-79 | requests n grants apart start at least n intervals apart, less what one sleep may end early, over every history and whatever the clock reads: early wakings do not add up |
| RateLimiter.SpacingIffSlackCoversEarlyWaking | src/investment/crypto/infrastructure/upbit.py:68-79 | all histories whose sleeps end at most so early keep the spacing up to a slack if and only if the slack is at least that |
| StreamStatus.StreamStatusRepository.Mark | src/investment/crypto/derivatives/repository.py:281-332 | the row after each of the four events |
| StreamStatus.StreamStatusRepository.ContinuouslyConnectedSince | src/investment/crypto/derivatives/repository.py:341-352 | the query on the stored row |
| StreamStatus.ContinuousIff | src/investment/crypto/derivatives/repository.py:281-352 | over every trace: true exactly when the last connect came by then and no gap followed it |
| StreamStatus.NoGapSince | src/investment/crypto/derivatives/repository.py:341-352 | so in a trace ordered by time no gap came after the queried time |
| StreamStatus.MessageDoesNotHealAGap | src/investment/crypto/derivatives/repository.py:295-302 | a message after a gap shows connected, yet the gap is not forgotten |
| StreamOwnership.OwnershipLock.Acquire | src/investment/crypto/derivatives/streams.py:76-97 | acquire without interference: create, refresh, refuse or take over a stale directory |
| StreamOwnership.OwnershipLock.Refresh | src/investment/crypto/derivatives/streams.py:99-102 | refresh fails for a displaced instance, which then gives up its flag only if another token is there |
| StreamOwnership.OwnershipLock.Release | src/investment/crypto/derivatives/streams.py:104-117 | release removes the directory only while it carries the own token |
| StreamOwnership.RunsAreSafe | src/investment/crypto/derivatives/streams.py:76-143 | over every run a holder that is not on disk was displaced a whole stale interval after its last refresh |
| StreamOwnership.OwnersAreFresh | src/investment/crypto/derivatives/streams.py:76-143 | from an empty directory: at most one holder is on disk, and every other was displaced a stale interval after its last refresh |
| StreamOwnership.SilentForAStaleInterval | src/investment/crypto/derivatives/streams.py:76-143 | with a clock that never runs back it has been silent at least that long |
| StreamOwnership.DisplacedInstanceFails | src/investment/crypto/derivatives/streams.py:99-143 | whatever the others do, its next call fails and its release leaves the successor intact |
| StreamOwnership.FreshOwnerIsNeverDisplaced | src/investment/crypto/derivatives/streams.py:82-97 | an owner that refreshes in time is never displaced |
| StreamOwnership.TakeOverIsSafeIffStillStale | src/investment/crypto/derivatives/streams.py:82-97 | with the age read before the rename, a takeover is safe if and only if the directory is still stale at the rename |
| StreamOwnership.RenameCanDisplaceAFreshOwner | src/investment/crypto/derivatives/streams.py:82-97 | two instances that read the same stale age can both rename, and the second displaces a fresh owner |
| Crowding.ScoresExclude | src/investment/crypto/derivatives/crowding.py:60-82 | long plus short score is at most 1.30 for all inputs |
| Crowding.BranchOrderMattersOnlyAtTheBoundary | src/investment/crypto/derivatives/crowding.py:177-192 | both reach 0.65 only at 0.65 each, and only there, with both triggers, the branch order shows |
| Crowding.BoundaryIsReached | src/investment/crypto/derivatives/crowding.py:60-192 | an input on that boundary with both triggers, whose state the other branch order would change |
| Crowding.StrongScoreDecides | src/investment/crypto/derivatives/crowding.py:177-198 | a score of at least 0.70 decides side and state by itself; below 0.65 on both sides the state is neutral |
| Crowding.UnwindIsBetweenComponents | src/investment/crypto/derivatives/crowding.py:201-215 | an unwind score lies between its smallest and largest available component |
| RuntimeState.SqliteJobLock.Acquire | src/investment/runtime/infrastructure.py:122-143 | granted exactly when no unexpired lease exists; the row then names the owner until its expiry |
| RuntimeState.SqliteJobLock.Release | src/investment/runtime/infrastructure.py:145-150 | removes the row of this owner only |
| RuntimeState.RuntimeStateService.Enter | src/investment/runtime/service.py:77-86 | a call enters exactly when the service accepts and the scope is free |
| RuntimeState.RuntimeStateService.Begin | src/investment/runtime/service.py:111-115 | the state after a call begins |
| RuntimeState.RuntimeStateService.Complete | src/investment/runtime/service.py:166-195 | the state after a call ends |
| RuntimeState.RuntimeStateService.Publish | src/investment/runtime/service.py:197-243 | the state after a delivered or failed event |
| RuntimeState.TruthfulIffNotStartedOverActiveJobs | src/investment/runtime/service.py:51-55 | RUNNING-iff-active is kept by every change except a start over active jobs |
| RuntimeState.StopIsKeptExactlyBy | src/investment/runtime/service.py:57-62 | which changes overwrite STOPPED: a start, a begin, an end, or a recovered delivery |
| JobProtocol.OneHandlerPerScope | src/investment/runtime/service.py:64-155 | under every interleaving two handlers of one scope of a process overlap only if one was left behind by a timeout without a lock key |
| JobProtocol.TimeoutLeavesAnOverlappingHandler | src/investment/runtime/service.py:117-144 | such an overlap is reached, for every timed job without a lock key and from every state that admits it |
| JobProtocol.OneHandlerIffNoTimeoutWithoutLock | src/investment/runtime/service.py:64-155 | all runs of a set of configured jobs have at most one handler per scope of a process if and only if none of the jobs is timed without a lock key |
| JobProtocol.OverlapOnlyAfterExpiry | src/investment/runtime/service.py:92-155 | across processes two handlers of one lock key overlap only after the earlier lease expired |
| JobProtocol.LeaseIsSafeFromOthers | src/investment/runtime/infrastructure.py:122-150 | nobody else's step, in particular no overrun owner's release, removes or changes an unexpired lease |
| JobIdentity.OneExecutionPerIdentity | src/investment/runtime/service.py:103-115 | over every run in which no call of an identity begins on an expired lease, at most one record of an identity is running or completed, stalled calls and crashes included |
| JobIdentity.OneExecutionIffDelayIsShort | src/investment/runtime/service.py:92-115 | with one lease time, all runs whose calls begin within a delay of taking the lease execute an identity at most once, if and only if the delay is shorter than the lease |
| JobIdentity.ExpiryBeforeBeginDuplicates | src/investment/runtime/service.py:103-115 | an expiry between lookup and begin lets two executions of one identity run |
| JobIdentity.LookUpIsExactIffWithinLimit | src/investment/runtime/infrastructure.py:40-57 | on all stores of at most n records, and on all reachable ones, the lookup finds exactly the claimed identities if and only if n is at most 10,000 |
| JobIdentity.BuriedRecordIsForgotten | src/investment/runtime/infrastructure.py:40-57 | the run beyond it: a running record with 10,000 newer ones is no longer found |
| JobProtocol.EntersIffScopeIsEmpty | src/investment/runtime/service.py:77-86 | in every reachable state a waiting call enters exactly when its process accepts calls and no call is inside its scope |
| JobProtocol.IdleScopeIsOpenIffNotLeaked | src/investment/runtime/service.py:77-104 | while no call of its scope is on its way, an accepting process lets it in if and only if no call of the scope has leaked |
| JobProtocol.LeakIsReached | src/investment/runtime/service.py:87-104 | a lock service that raises leaves its call leaked, recorded as scheduled, and the scope taken |
| JobProtocol.LeakedScopeStaysShut | src/investment/runtime/service.py:88-104 | after such a leak no call of the scope ever enters that process again |
| JobProtocol.StatusTellsWhetherACallRuns | src/investment/runtime/service.py:51-243 | a process that was not stopped reports RUNNING exactly while one of its calls runs |
| Observation.FrozenObservationService.Start | src/investment/crypto/observation/service.py:63-95 | an existing experiment is returned if its frozen identity matches, otherwise a new one is stored |
| Observation.FrozenObservationService.PermitsExecution | src/investment/crypto/observation/service.py:97-133 | the permit and what it closes |
| Observation.FrozenObservationService.Capture | src/investment/crypto/observation/service.py:135-272 | which decision snapshots are stored, which calls are refused, and when the experiment closes |
| Observation.FrozenObservationService.Interrupt | src/investment/crypto/observation/service.py:307-326 | only a running experiment is interrupted |
| Observation.FrozenObservationService.EvaluatePending | src/investment/crypto/observation/service.py:328-364 | the nested loops store exactly the due outcomes and count them |
| Observation.FrozenObservationService.SaveExperiment | src/investment/crypto/observation/repository.py:122-141 | the upsert takes only status, completion time and reason |
| Observation.FrozenObservationService.SaveOutcome | src/investment/crypto/observation/repository.py:433-452 | insert or ignore |
| Observation.RunExtends | src/investment/crypto/observation/repository.py:122-452 | over every run a status that left RUNNING is final, identity and stored evidence never change |
| Observation.EveryRunIsSound | src/investment/crypto/observation/service.py:63-364 | no outcome precedes its target, a missing one waited out the grace, returns are ordered, snapshots lie inside their experiment, a completed experiment ended when planned |
| Observation.EvaluationIsIdempotent | src/investment/crypto/observation/service.py:328-364 | evaluating again with the same data and time changes nothing |
| Observation.EvaluationNeverRevises | src/investment/crypto/observation/service.py:328-364 | other data at another time never revises a stored outcome |
| Observation.EvaluationIsComplete | src/investment/crypto/observation/service.py:328-364 | after the last grace one evaluation leaves one row for every horizon of every priced snapshot, and none else |
| Observation.RefusalIsFinal | src/investment/crypto/observation/service.py:97-133 | after a refusal for identity or deadline no execution is ever permitted again |
| Observation.PermitMeans | src/investment/crypto/observation/service.py:97-133 | a permit means a running experiment, its frozen identity and a time inside it |
| Toml.ChainIsOnePass | src/investment/crypto/strategy_registry.py:903-912 | the chain of seven replacements is the one-pass escape |
| Toml.TextRoundTrip | src/investment/crypto/strategy_registry.py:903-915 | a string is writable exactly when its control characters have a short escape, and is read back |
| Toml.IntRoundTrip | src/investment/crypto/strategy_registry.py:448-460 | integers are read back |
| Toml.ValueRoundTrip | src/investment/crypto/strategy_registry.py:448-470 | every written value is read back to its end |
| StrategyRegistry.SerializesIff | src/investment/crypto/strategy_registry.py:217-243 | when exactly a policy can be serialized |
| StrategyRegistry.RoundTrip | src/investment/crypto/strategy_registry.py:217-404 | loading the serialized text gives the policy back, older schemas with the defaults their omitted fields had to equal |
| StrategyRegistry.SerializationIsInjective | src/investment/crypto/strategy_registry.py:217-243 | equal texts mean equal policies |
| StrategyRegistry.AcceptedTextHasCanonicalForm | src/investment/crypto/strategy_registry.py:311-404 | every accepted text has a canonical form that loads to the same policy |
| StrategyRegistry.Registry.WritePolicy | src/investment/crypto/strategy_registry.py:265-308 | publishing adds a file or accepts the identical one, never overwrites |
| StrategyRegistry.Registry.LoadPolicy | src/investment/crypto/strategy_registry.py:166-214 | loading checks version, file and document |
| StrategyRegistry.PublishingIsImmutable | src/investment/crypto/strategy_registry.py:265-308 | publishing twice changes nothing and the published policy loads again |
| ReviewWorkflow.StrategyReviewWorkflow.PublishJson | src/investment/crypto/strategy_review_workflow.py:939-976 | a new artifact is written, an existing one accepted only if it agrees |
| ReviewWorkflow.StrategyReviewWorkflow.PublishAnalysis | src/investment/crypto/strategy_review_workflow.py:152-161 | a valid analysis is retained under its identifier |
| ReviewWorkflow.StrategyReviewWorkflow.ProposeCandidate | src/investment/crypto/strategy_review_workflow.py:163-261 | all checks but the types of the patched values, then candidate and proposal; a refused proposal takes a new candidate back |
| ReviewWorkflow.StrategyReviewWorkflow.ValidateCandidate | src/investment/crypto/strategy_review_workflow.py:263-305 | a verified proposal is frozen as a validation |
| ReviewWorkflow.StrategyReviewWorkflow.Drain | src/investment/crypto/strategy_review_workflow.py:368-372 | the drained experiments in order of first mention |
| ReviewWorkflow.StrategyReviewWorkflow.PreparePaperPromotion | src/investment/crypto/strategy_review_workflow.py:307-438 | all checks, then the manifest; a retry skips the activation checks |
| ReviewWorkflow.PublishingIsImmutable | src/investment/crypto/strategy_review_workflow.py:939-976 | a successful call keeps every existing artifact byte for byte and adds only its own |
| ReviewWorkflow.PromotionHasProvenance | src/investment/crypto/strategy_review_workflow.py:307-438 | a newly published manifest has its whole chain at that moment, whatever happened to the files before |
| ReviewWorkflow.PromotedCandidateIsSafe | src/investment/crypto/strategy_review_workflow.py:755-786 | a promoted candidate is inside all eight limits and equals its parent outside the patchable fields |
| ReviewWorkflow.EveryProposalCanBePromoted | src/investment/crypto/strategy_review_workflow.py:163-438 | the workflow never gets stuck on its own output: every accepted proposal can be validated and, with a ready analysis of its candidate, promoted |
| ReviewWorkflow.VerifiedChainIsFrozen | src/investment/crypto/strategy_review_workflow.py:440-567 | a validation verified at two moments saw the same bytes of every file of its chain |
| ReviewWorkflow.ProposedVerifies | src/investment/crypto/strategy_review_workflow.py:440-521 | what was just proposed verifies |
| ReviewWorkflow.ValidatedVerifies | src/investment/crypto/strategy_review_workflow.py:523-567 | what was just validated verifies |
| ReviewWorkflow.VerificationIgnoresAdditions | src/investment/crypto/strategy_review_workflow.py:440-521 | files added outside the registry and added rows do not change a verification |
| ReviewWorkflow.RetriesAreNoOps | src/investment/crypto/strategy_review_workflow.py:939-976 | repeating a successful call at any later time stamp succeeds and writes nothing |
| ReviewWorkflow.PrepareRetry | src/investment/crypto/strategy_review_workflow.py:408-411 | a promotion's retry succeeds unchanged even after its activation |
| ResearchLifecycle.CryptoResearchLifecycleService.InitializeStrategy | src/investment/crypto/application/research_lifecycle_service.py:74-86 | the first version of the registry is its champion |
| ResearchLifecycle.CryptoResearchLifecycleService.CandidateNumber | src/investment/crypto/application/research_lifecycle_service.py:90-99 | one past the highest number of the name |
| ResearchLifecycle.CryptoResearchLifecycleService.CreateExperiment | src/investment/crypto/application/research_lifecycle_service.py:88-146 | candidate and experiment; a repeated experiment fails after its candidate was stored |
| ResearchLifecycle.CryptoResearchLifecycleService.MarkReady | src/investment/crypto/application/research_lifecycle_service.py:148-153 | only a draft becomes ready |
| ResearchLifecycle.CryptoResearchLifecycleService.Run | src/investment/crypto/application/research_lifecycle_service.py:155-256 | the statuses a run leaves: the experiment failed, a candidate or rejected, and its version with it |
| ResearchLifecycle.CryptoResearchLifecycleService.Promote | src/investment/crypto/application/research_lifecycle_service.py:166-185 | base retired, candidate active, experiment promoted |
| ResearchLifecycle.CryptoResearchLifecycleService.Reject | src/investment/crypto/application/research_lifecycle_service.py:187-194 | experiment and candidate rejected along the status graph |
| ResearchLifecycle.StepKeepsSound | src/investment/crypto/domain/research.py:174-194 | experiments and versions always agree on status, evaluation and approval |
| ResearchLifecycle.PromotionCounts | src/investment/crypto/application/research_lifecycle_service.py:166-185 | a promotion adds a champion exactly when its base was no longer one |
| ResearchLifecycle.ChampionsAreCounted | src/investment/crypto/application/research_lifecycle_service.py:166-185 | the number of champions is one plus the stale promotions of the run |
| ResearchLifecycle.OneChampionIffNoStalePromotion | src/investment/crypto/application/research_lifecycle_service.py:166-185 | exactly one champion if and only if no promotion was stale |
| ResearchLifecycle.TwoCandidatesOfOneBase | src/investment/crypto/application/research_lifecycle_service.py:177-180 | two candidates of one base can both be promoted, and then no experiment can be created any more |
| ResearchLifecycle.TwoChampionsAreReached | src/investment/crypto/application/research_lifecycle_service.py:74-185 | the run from initialization that does so, with exactly one stale promotion |
| ResearchLifecycle.ClosedExperimentsAreFinal | src/investment/crypto/domain/research.py:174-194 | a failed, rejected or promoted experiment never changes again |

## Left out

- The HTTP, WebSocket, FastAPI and command-line layers, logging, settings, schema creation and migrations: plumbing around the modelled steps.
- The wording of reasons and evidence lists of the selection, decision records, reports, dashboards and diagnostics: descriptive only.
- Statistics by numpy, scipy, sklearn and polars (correlations, Sharpe ratios, fitted models): library numerics.
- Daily risk limits, concentration and loss guards, re-entry cooldown and the turnover budget: the selection takes their verdicts as inputs.
- `_episodes` and the cross-sectional correlations of the signal evaluator: each follows from reading one loop.
- Bounded HTTP retries and candle normalisation: the paginated server is abstract.
- The `current_weight` and `target_weight` columns of a planned row and the holding's creation and update times: nothing reads them back in the modelled code.
- Ledger.PaperLedger.Create: the table of positions is kept inside its portfolio, so rows of a position without a portfolio do not exist.
- Redelivery.RedeliveryIsInertIff: reports and openings satisfy the validation of their own records, and no portfolio starts with its cash asset as a position; run-time asset kinds are not modelled.
- Solvency.WholePlanSolvency: the executed holdings are those the plan was made from; a concurrent fill between plan and execution is not modelled.
- HoldingAge.HoldingAgeAgreesWithLedger: needs a log that comes back from the listing and no dust, as the replay does; the exact condition for the listing is proved beside it.
- Backtest.NoLookAhead: the pair universe has one quote asset, so pairs are named by their base asset; a strategy sees the regime as a value without its evidence.
- Backtest.RateLimitIsExact: quantifies over all markets and models, not over one given market.
- PointInTime.EarlierViewIsExactIffNotRevised: two revisions of one key never share availability, validity and revision number; the original leaves such ties to the sort.
- Pagination.FetchCandles: the server does not change during the fetch and a candle's time is its key.
- StreamOwnership.OwnershipLock.Acquire: one step; reading the age and renaming as two steps are modelled apart, in TakeOverIsSafeIffStillStale.
- StreamOwnership.RunsAreSafe: each call is one step and the owner file exists with the directory; the age-then-rename race is a separate lemma, a crash between the two file operations is not modelled.
- JobIdentity.OneExecutionIffDelayIsShort: all leases of identities have one length, and the lookup reads every record.
- JobProtocol.OneHandlerPerScope: a handler that itself raises the timeout error, and input or output errors of the state files, are not modelled.
- JobProtocol.StatusTellsWhetherACallRuns: assumes the engine is started only while no call runs, which the first lemma about the state shows to be necessary.
- Observation.FrozenObservationService.Capture: selection variants and the market context are further insert-or-ignore rows of the same transaction and are left out; a pair always ends in the quote symbol.
- Observation.FrozenObservationService.EvaluatePending: the order of snapshots is arbitrary, which the result shows to be irrelevant.
- Toml.ValueRoundTrip: only the TOML the serializer writes is read: no multi-line or literal strings, no code-point escapes, no underscores or other bases, no nested tables, no comment after a value.
- StrategyRegistry.RoundTrip: decimals and floats are known by the text Python prints; the size limit, symbolic links and file encodings are not modelled.
- StrategyRegistry.AcceptedTextHasCanonicalForm: covers the texts the modelled reader accepts; a code-point escape for another control character would load but could not be written.
- ReviewWorkflow.StrategyReviewWorkflow.ProposeCandidate: the declared types in the patch audit and the microsecond check of durations are part of the policy rules; the table of patchable fields is a parameter.
- ReviewWorkflow.PromotionHasProvenance: a malformed document is one constructor; the size limit and symbolic links are not modelled.
- ResearchLifecycle.CryptoResearchLifecycleService.Run: snapshots, backtest runs and validation runs it stores are not modelled, and a failure while saving is not.
- WalkForward.SplitAll: times are days as reals.
