# Buy-the-dip / take-profit trading core, modelled in Dafny

This project models the decision and bookkeeping logic of a crypto trading
bot that buys a token with WLD when its price dips and sells again at a
profit. Two components are modelled.

- **The strategy builder** (`strategy-builder.js`, class `StrategyBuilder`)
  holds named custom strategies. A strategy is created with defaults, then
  started, stopped or deleted. While it runs, each monitoring tick does the
  following:
  - records the token's price in a retention-bounded history;
  - with no open lot, looks for a dip: a drop of at least `dipThreshold`
    percent from the highest price in the dip window, unless the price is
    above the average entry price;
  - on a dip, buys (clamped to the liquidity the pool allows) and appends an
    open lot;
  - with lots open, checks them for profit. In simple mode (the default:
    `enableProfitRange` is off unless the configuration sets it) the whole
    portfolio is sold once the profit target is reached. In profit-range
    mode a ladder of sell rungs is built lazily and re-aimed at the live
    average entry price. The highest eligible rung that has not fired sells
    its percentage of every open lot.
- **The trading strategy** (`trading-strategy.js`, class `TradingStrategy`)
  keeps at most one position per token. It:
  - refuses buys past the position-count and position-size limits, or past
    the slippage limit;
  - on every tick re-values a position: P&L, high-water mark and trailing
    stop;
  - keeps a per-token history capped at 1000 points;
  - sells on the first of profit target, stop loss and trailing stop;
  - signals a dip against the mean of the last ten points;
  - books realized P&L and success counts when it closes a position.

Modules:
- `Common` (`common.dfy`): an optional value, the guarded division and
  percentage, and the comparisons that are false on a non-finite value.
- `Engine` (`common.dfy`): the swap result the trading engines return.
- `PriceHistory` (`price_history.dfy`): retention, eviction and the window
  filter.
- `Lots` (`lots.dfy`): open lots, average cost, partial reduction and the
  proportional close.
- `DipDetector` (`dip.dfy`): `checkForDipOpportunity`.
- `ProfitRange` (`profit_range.dfy`): the rung ladder, re-aiming and rung
  selection.
- `Strategies` (`strategy.dfy`): one strategy's creation, dip buy, profit
  checks, range step and sell-all.
- `Builder` (`strategy_builder.dfy`): the class `StrategyBuilder` and the
  invariants of its store.
- `Trading` (`trading_strategy.dfy`): the configuration, positions, the
  monitor, buy and sell, and the class `TradingStrategy`.

How JavaScript and the world are represented:
- A JavaScript number that can be `NaN` or `Infinity` (a division by zero)
  is an `Option<real>`, with `None` standing for the non-finite value. Every
  comparison with `None` is false. That matches `NaN`, but not `Infinity`,
  which compares above every finite number; where the difference can
  matter it is named under "Left out".
- The clock, generated ids, the token price, the exchange quotes, the
  liquidity cap and the results of swaps are parameters of the operations.
- `Math.pow(x, 0.5)` is a parameter `sqrt`. The lemmas that need it assume
  only that it is monotone.
- A `Map` that the source mutates is a Dafny `map`. The positions `Map` of
  the trading strategy is a sequence with one entry per token, in insertion
  order.
- Each class keeps its fields. Each of its methods applies a value-level
  transition function of the module and states that the new state is that
  function of the old state. The lemmas about those functions state what
  the source promises.
- The builder's store invariant `Consistent` holds after every operation:
  - every strategy is listed exactly once in store order;
  - a strategy is active exactly when it has an active state and an
    interval, and its token has a price history;
  - its trade counters are consistent.
- The trading strategy's invariant `Sound` holds after every operation:
  - tokens are distinct;
  - a closed position has an exit record;
  - successes plus open positions never exceed the trades counted.

## Model

| member | source | states |
|---|---|---|
| Common.Max | strategy-builder.js:138 | `Math.max`: the result is one of the two arguments and at least both |
| PriceHistory.MaxHistoryAge | strategy-builder.js:135-139 | the retention horizon is whichever of one week and twice the dip window is longer |
| PriceHistory.NewHistory | strategy-builder.js:135-140 | a token's history starts empty, with a horizon of at least a week and at least twice the dip window |
| PriceHistory.EvictExpired | strategy-builder.js:215-218 | the `shift` loop removes exactly the expired head that the function `DropExpired` describes |
| PriceHistory.DropExpired | strategy-builder.js:215-218 | what the eviction loop leaves: the samples from the first one no older than the cutoff on; `EvictExpired` computes it by the `shift` loop, and `DropExpiredIsSuffix` and `DropExpiredAllRecent` state that it is a suffix and, on time-ordered input, all recent |
| PriceHistory.DropExpiredIsSuffix | strategy-builder.js:216-218 | eviction only removes from the head: the result is a suffix, every dropped sample is older than the cutoff, and the first kept sample is not |
| PriceHistory.DropExpiredAllRecent | strategy-builder.js:216-218 | on a time-ordered history every sample that remains is within the horizon |
| PriceHistory.Recorded | strategy-builder.js:206-218 | a tick's push of the new sample followed by eviction; `RecordedProperties` states what it keeps |
| PriceHistory.RecordedProperties | strategy-builder.js:209-218 | after recording a price at `now`, the new point is last, the rest is a suffix of the old history, and on a time-ordered history with no future samples the result is time-ordered and within `now - maxHistoryAge` |
| PriceHistory.Window | strategy-builder.js:362-365 | `getPricesInTimeframe` keeps exactly the samples no older than the timeframe, never more than it was given |
| PriceHistory.WindowOfRecent | strategy-builder.js:362-365 | a history whose samples are all recent is its own window |
| PriceHistory.WindowOfSortedIsSuffix | strategy-builder.js:362-365 | the window of a time-ordered history is one of its suffixes |
| PriceHistory.Highest | strategy-builder.js:516 | the window high is a price of the window and no price of the window exceeds it |
| Lots.OpenLots | strategy-builder.js:221 | the open-lot filter never yields more lots than it was given |
| Lots.OpenLotsMembers | strategy-builder.js:221 | the open-lot filter keeps exactly the lots that are open |
| Lots.OpenIndices | strategy-builder.js:221-227 | the lots a tick checks are exactly the open ones, in ascending order |
| Lots.OpenIndicesCount | strategy-builder.js:221-227 | a tick checks as many lots as there are open lots |
| Lots.AveragePrice | strategy-builder.js:665-674 | the average entry price is undefined exactly when no token is held in open lots; otherwise average × open tokens = open WLD |
| Lots.AppendOpenLot | strategy-builder.js:613 | appending an open lot adds exactly its WLD and tokens to the open totals |
| Lots.AverageNotWorsened | strategy-builder.js:613-621 | a buy at or below the average entry price leaves an average between the fill price and the old average |
| Lots.ReduceOpenLots | strategy-builder.js:878-890 | the `forEach` reduces every lot exactly as the per-lot reduction says |
| Lots.ReduceLot | strategy-builder.js:879-888 | one lot after a partial sale of the fraction `ratio`; `ReduceLotAmounts`, `ReductionKeepsEntryPrice` and `ReductionClosesDust` state that its amounts scale by `1 - ratio`, its entry price is kept and a dust lot closes |
| Lots.ReduceLotAmounts | strategy-builder.js:879-883 | an open lot's token and WLD amounts are both scaled by `1 - ratio` |
| Lots.ReductionConserves | strategy-builder.js:878-890 | over the open lots, the total tokens and the total WLD are both scaled by `1 - ratio` |
| Lots.ReductionKeepsEntryPrice | strategy-builder.js:879-883 | a partial reduction keeps each lot's WLD-per-token ratio |
| Lots.ReductionClosesDust | strategy-builder.js:885-887 | a reduction closes exactly the open lots left with fewer than 0.000001 tokens |
| Lots.CloseOpenLots | strategy-builder.js:941-949 | the `forEach` closes every open lot as the per-lot close says and leaves closed lots alone |
| Lots.CloseLot | strategy-builder.js:942-948 | one lot closed by the whole-portfolio sell; `CloseLotShare` and `ClosedShares` state that it is credited its share of the proceeds |
| Lots.Share | strategy-builder.js:944 | `entryAmountWLD / totalInvested × received`; `ShareAdds` and `ShareOfWhole` state that it is additive in cost and that the share of the whole cost is the whole proceeds |
| Lots.CloseLotShare | strategy-builder.js:944 | a closed lot's exit WLD is its `entryAmountWLD / totalInvested` share of the proceeds |
| Lots.ShareAdds | strategy-builder.js:944 | proportional shares are additive in the cost they are computed for |
| Lots.ShareOfWhole | strategy-builder.js:944 | the share of the whole investment is the whole of the proceeds |
| Lots.ExitSharesSum | strategy-builder.js:941-949 | the exit amounts of the closed lots add up to the share of their total cost |
| Lots.ClosedShares | strategy-builder.js:941-949 | a whole-portfolio close credits each open lot its proportional share |
| Lots.ExitSharesAddUp | strategy-builder.js:934-949 | a whole-portfolio close distributes exactly the proceeds over the lots it closes |
| DipDetector.CheckForDip | strategy-builder.js:469-550 | fewer than 2 samples means insufficient data; a price above the average entry price is refused; otherwise a dip is reported exactly when the window's drop percentage reaches the threshold |
| DipDetector.DropVersusTrigger | strategy-builder.js:520-522 | for a positive high, a drop percentage of at least the threshold is the same as a price at or below `highest × (1 - threshold/100)` |
| DipDetector.HighestPositive | strategy-builder.js:509-515 | the high of a window of positive prices is positive |
| DipDetector.DipFiresIff | strategy-builder.js:509-522 | when the window's high is positive (samples outside the window do not matter), a buy fires iff there are two samples, the price is not above the average entry, the window is non-empty and the drop from its high is at least the threshold (equality fires) |
| DipDetector.DipMeansRecentHigh | strategy-builder.js:509-522 | when the window's high is positive, a reported dip has a sample inside the window at least as high as the price's trigger level |
| ProfitRange.CalculateSteps | strategy-builder.js:806-851 | the `for` loop pushes exactly the rung ladder the function `Ladder` describes |
| ProfitRange.Ladder | strategy-builder.js:806-845 | the rung list `calculateProfitRangeSteps` builds; `CalculateSteps` computes it by the `for` loop, and `LadderShape`, the three percentage-sum lemmas, `LadderProfitsIncrease` and `LadderLeavesTokens` state its properties |
| ProfitRange.LadderShape | strategy-builder.js:812-845 | the ladder has `profitRangeSteps` rungs, numbered 1..n in order, none fired, none with a trigger or expected amount |
| ProfitRange.TotalSellUniform | strategy-builder.js:818-829 | rungs that each sell the same percentage sell that many times it in all |
| ProfitRange.LinearPercentagesSumTo100 | strategy-builder.js:818-821 | the sell percentages of a linear ladder of n ≥ 1 rungs add up to 100 |
| ProfitRange.AggressivePercentagesSum | strategy-builder.js:822-825 | the sell percentages of an aggressive ladder add up to 100 for n ≥ 2 (50 for a single rung) |
| ProfitRange.ConservativePercentagesSum | strategy-builder.js:826-829 | the sell percentages of a conservative ladder add up to 100 for n ≥ 2 (50 for a single rung) |
| ProfitRange.RemainderPositive | strategy-builder.js:855-857 | when each rung sells its percentage of the tokens still open, rungs that each sell less than 100% leave tokens open |
| ProfitRange.LadderLeavesTokens | strategy-builder.js:818-857 | every ladder except a single linear rung leaves tokens open after all its rungs have fired |
| ProfitRange.TwoLinearRungsLeaveAQuarter | strategy-builder.js:818-857 | two fired linear rungs of 50% leave a quarter of the tokens open |
| ProfitRange.LadderProfitsIncrease | strategy-builder.js:818-829 | rung profit percentages never decrease along the ladder (for the aggressive mode, given a monotone square root) |
| ProfitRange.LinearProfit | strategy-builder.js:820 | in linear mode rung i targets `min + (max - min)(i+1)/n` percent |
| ProfitRange.LadderEndsAtMax | strategy-builder.js:818-829 | the linear and conservative ladders end exactly at `profitRangeMax` |
| ProfitRange.RetargetSteps | strategy-builder.js:746-752 | the `forEach` re-aims every rung exactly as the per-rung function says |
| ProfitRange.Retarget | strategy-builder.js:746-752 | one rung re-aimed at the average entry price, a fired rung kept as it is; `RetargetSteps` and `RetargetProperties` state its effect on the ladder |
| ProfitRange.RetargetProperties | strategy-builder.js:746-752 | re-aiming never touches a fired rung, never changes which rungs have fired, keeps numbering and percentages, and re-aiming twice is re-aiming once at the latest average |
| ProfitRange.SelectStep | strategy-builder.js:769-776 | the selected rung has not fired, is at or below the price and has the highest trigger among such rungs (the first of equals); none is selected only when no rung is eligible |
| ProfitRange.Trigger | strategy-builder.js:776 | the trigger price the sort orders rungs by; `SelectStep` states that the chosen rung has the highest one among the eligible rungs |
| Strategies.CreateStrategy | strategy-builder.js:34-84 | a new strategy is stopped, has no lots, no range state, zero counters and the given id and clock, and takes its name and token from the configuration |
| Strategies.CreateDefaults | strategy-builder.js:34-84 | an empty configuration gets the documented defaults |
| Strategies.CreateRangeFollowsTarget | strategy-builder.js:54-55 | without a range, the range starts at the profit target and ends at twice it |
| Strategies.CreateIsIdempotent | strategy-builder.js:34-84 | defaults are applied once and for all: no numeric parameter of a new strategy is 0, and creating again from its own parameters changes none of them |
| Strategies.SavedCopy | strategy-builder.js:1065 | the saved copy is the strategy without its wallet object, and nothing else differs |
| Strategies.OnlySellsTrans | strategy-builder.js:225-227 | the "only sells" relation composes across successive profit checks |
| Strategies.CreateIsBookkept | strategy-builder.js:34-84 | a new strategy's counters are consistent |
| Strategies.DipBuyKeepsBooks | strategy-builder.js:613-614 | a dip buy keeps the counters consistent |
| Strategies.ClampedAmount | strategy-builder.js:566-575 | the traded amount is the smaller of the trade amount and the liquidity cap |
| Strategies.ExecuteDipBuy | strategy-builder.js:553-659 | without a liquidity answer or a successful swap nothing changes; otherwise exactly one open lot (clamped amount, tokens received, entry price = amount / tokens) is appended, one trade counted and the execution time set |
| Strategies.DipBuyImprovesAverage | strategy-builder.js:586-621 | a dip buy adds exactly its amount and tokens to the open totals and, at or below the average, never raises the average entry price |
| Strategies.RangeStepProfitAsWritten | strategy-builder.js:895 | the profit booked as written is `received - tokensSold / price` |
| Strategies.RangeStepProfitMisstated | strategy-builder.js:895 | concrete sells at a profit and at cost where the as-written profit is -240 and -495 WLD, against 5 and 0 |
| Strategies.RangeStepAtCostIsBreakEven | strategy-builder.js:854-911 | with the corrected profit, selling a rung at exactly the average entry price books no profit |
| Strategies.RangeStepProfit | strategy-builder.js:895 | the corrected profit of a partial sell, the proceeds less the cost basis of the tokens sold; `RangeStepAtCostIsBreakEven` states that a sale at the average entry price books 0, and `ExecuteProfitRangeStep` books it |
| Strategies.ExecuteProfitRangeStep | strategy-builder.js:854-911 | on a failed swap nothing changes; on success the rung fires, every open lot is scaled by `1 - sold/total`, one trade and one success are counted and the corrected profit is booked |
| Strategies.RangeStepConserves | strategy-builder.js:872-890 | after a step the open lots hold `total - tokensToSell` tokens and the fired rung is never selected again |
| Strategies.RangeStepLeavesRemainder | strategy-builder.js:855-890 | a fired rung takes its percentage of the tokens open at that moment, leaving `Remainder` of them |
| Strategies.SteppedOnlySells | strategy-builder.js:872-906 | a range step keeps parameters, lifecycle, lot identities and entry prices, and the counters only grow |
| Strategies.HandleProfitRange | strategy-builder.js:731-803 | the ladder is built only when absent and re-aimed at the average; a step executes only when the price reaches `avg × (1 + profitRangeMin/100)`, a rung is eligible and the swap succeeds |
| Strategies.Reaimed | strategy-builder.js:731-752 | the strategy once `handleProfitRange` has created its ladder if needed and re-aimed it; `ReaimedOnlySells` and `FiredRungsStayFired` state that no lot, counter or fired rung changes |
| Strategies.InProfitRange | strategy-builder.js:753-766 | the range test `price ≥ average × (1 + profitRangeMin/100)`; `HandleProfitRange` steps a rung only when it holds, and `NoPositionNoRangeSell` states that it never holds with no lot open |
| Strategies.ReaimedOnlySells | strategy-builder.js:734-752 | initialising and re-aiming the ladder changes neither lots nor counters |
| Strategies.FiredRungsStayFired | strategy-builder.js:746-776 | re-aiming never changes a fired rung, so a fired rung is never selected again |
| Strategies.NoPositionNoRangeSell | strategy-builder.js:674 | with no open lot the average is not a number and the profit range is never entered |
| Strategies.ExecuteProfitSellAll | strategy-builder.js:914-973 | on a failed swap nothing changes; on success every open lot is closed with its share of the proceeds, the profit `received - invested` is booked and only the success counter grows |
| Strategies.SellAllClosesEverything | strategy-builder.js:934-954 | after a sell-all no lot is open, the exit amounts add up to the proceeds and the trade counter is unchanged |
| Strategies.SoldAllOnlySells | strategy-builder.js:934-954 | a sell-all keeps parameters, lifecycle, lot identities and entry prices, and the counters only grow |
| Strategies.MarkedOnlySells | strategy-builder.js:693-694 | recording the unrealized P&L on a lot changes nothing else |
| Strategies.MarkKeepsPortfolio | strategy-builder.js:693-694 | recording the unrealized P&L keeps the open totals, the average, the target test and the range test |
| Strategies.Marked | strategy-builder.js:686-694 | a lot told the portfolio's unrealized P&L; `MarkedOnlySells` and `MarkKeepsPortfolio` state that nothing else changes and that the open totals, the average and both sell tests are kept |
| Strategies.TargetReached | strategy-builder.js:701-712 | simple mode's sell test, `price ≥ average × (1 + profitTarget/100)`, false when the average is not finite; outside profit-range mode, `CheckPositionForProfit` sells everything exactly when it holds and the swap succeeds |
| Strategies.CheckPositionForProfit | strategy-builder.js:662-728 | without a wallet or a usable quote nothing changes; otherwise the lot records the P&L, and the strategy runs the profit range or, in simple mode, sells everything once `price ≥ avg × (1 + profitTarget/100)` |
| Strategies.CheckOpenLots | strategy-builder.js:221-227 | checking every lot that was open at the start of the tick only sells and keeps the counters consistent |
| Builder.CountActive | strategy-builder.js:1093 | there are never more active strategies than strategies |
| Builder.CountActiveExtremes | strategy-builder.js:1093 | the active count is zero exactly when no strategy is active, and equals the number of strategies exactly when all are |
| Builder.StrategyStatistics | strategy-builder.js:1091-1116 | the strategy count is the number of strategies and bounds the active count; there is one summary per strategy in store order, carrying its id and its number of open lots |
| Builder.SuccessfulWithinTotal | strategy-builder.js:1094-1095 | with consistent counters the successful trades never exceed the total |
| Builder.SuccessRateIsAPercentage | strategy-builder.js:1103 | with consistent counters the reported success rate lies in 0..100 |
| Builder.Ticked | strategy-builder.js:198-199 | a tick stamps `lastCheck` and counts one more check |
| Builder.CreateKeeps | strategy-builder.js:34-84 | creating a strategy under a fresh id keeps the store invariant |
| Builder.Create | strategy-builder.js:34-84 | the store with a new strategy under a fresh id, appended to the order; `CreateKeeps` states that it keeps `Consistent` |
| Builder.StartActivates | strategy-builder.js:121-166 | starting an unknown or active strategy is refused and changes nothing; starting a stopped one activates it with a fresh active state, an interval of its period and a history for its token, touching no other strategy |
| Builder.StartKeeps | strategy-builder.js:121-166 | starting keeps the store invariant |
| Builder.Start | strategy-builder.js:121-166 | `startStrategy` on the store; `StartActivates`, `StartKeeps` and `StartThenStop` state its effect |
| Builder.StopKeeps | strategy-builder.js:169-189 | stopping an unknown id is refused; stopping a known one leaves it inactive with no active state and no interval, and keeps the invariant |
| Builder.StopIsIdempotent | strategy-builder.js:169-189 | stopping twice is stopping once |
| Builder.Stop | strategy-builder.js:169-189 | `stopStrategy` on the store; `StopKeeps` and `StopIsIdempotent` state its effect |
| Builder.StartThenStop | strategy-builder.js:121-189 | starting then stopping a stopped strategy restores the store but for the wallet and the price history it gained |
| Builder.DeleteForgets | strategy-builder.js:1041-1057 | deleting an unknown id is refused; deleting a known one removes it from the strategies, the active states, the intervals and the order, keeping the others and the price history |
| Builder.DeleteKeeps | strategy-builder.js:1041-1057 | deleting keeps the store invariant |
| Builder.Delete | strategy-builder.js:1041-1057 | `deleteStrategy` on the store; `DeleteForgets` and `DeleteKeeps` state its effect |
| Builder.TickKeeps | strategy-builder.js:192-231 | a tick that keeps the strategy's activity, token and counter consistency keeps the store invariant |
| Builder.AfterTick | strategy-builder.js:196-218 | the store after a tick: counters stamped, the price recorded and the strategy replaced; `TickKeeps` states that it keeps `Consistent` |
| Builder.Monitor | strategy-builder.js:192-231 | a tick of a strategy that is not running changes nothing; otherwise the price is recorded and, with lots open, the tick only sells, or, with none open, it is the dip check on the updated history |
| Builder.TickWithPrice | strategy-builder.js:206-231 | the history is pushed and evicted as `Recorded` says, and the strategy keeps its activity, token and counter consistency |
| Builder.TickWithoutPosition | strategy-builder.js:228-231 | with no open lot, a dip buy when the dip check reports a dip and no change otherwise; `TickWithPrice` states that a tick with no open lot is this function of the recorded history, and `DipDetector.DipFiresIff` states when the check reports a dip |
| Builder.Without | strategy-builder.js:1052 | removing an id from the store order keeps exactly the other ids |
| Builder.RemoveListed | strategy-builder.js:1052 | removing a listed id from a list without repetitions shortens it by one and keeps it without repetitions |
| Builder.StrategyBuilder.constructor | strategy-builder.js:7-31 | a new builder holds no strategy, no history, no active state and no interval |
| Builder.StrategyBuilder.AllStrategies | strategy-builder.js:1025-1027 | all strategies, one per id of the store order |
| Builder.StrategyBuilder.GetStrategyStatistics | strategy-builder.js:1091-1116 | the strategy count is the number of stored strategies and bounds the active count, and the success rate lies in 0..100 |
| Builder.StrategyBuilder.CreateStrategy | strategy-builder.js:34-84 | the new state is the store with the created strategy added, and the invariant holds |
| Builder.StrategyBuilder.StartStrategy | strategy-builder.js:121-166 | the result and new state are those of `Start`, and the invariant holds |
| Builder.StrategyBuilder.StopStrategy | strategy-builder.js:169-189 | the result and new state are those of `Stop`, and the invariant holds |
| Builder.StrategyBuilder.DeleteStrategy | strategy-builder.js:1041-1057 | the result and new state are those of `Delete`, and the invariant holds |
| Builder.StrategyBuilder.MonitorStrategy | strategy-builder.js:192-231 | the new state is one tick of `Monitor` on the old state, and the invariant holds |
| Trading.AutoSellCannotBeDisabled | trading-strategy.js:21 | as written, auto-sell is on whatever the setting, even `"false"` |
| Trading.AutoSellDefaultsOnAndCanBeDisabled | trading-strategy.js:21 | corrected, auto-sell is on by default and off for `"false"` |
| Trading.DefaultConfig | trading-strategy.js:12-31 | with no settings the configuration has the documented defaults |
| Trading.ConfigFromSettings | trading-strategy.js:12-31 | a numeric setting of 0 or absent falls back to its default, so no numeric parameter is 0; a non-zero setting is kept |
| Trading.ConfigFrom | trading-strategy.js:12-31 | the constructor's configuration with the corrected auto-sell flag; `ConfigFromSettings` and `DefaultConfig` state its values |
| Trading.Find | trading-strategy.js:240 | the position lookup finds the token's entry, the first such, or reports that there is none |
| Trading.Put | trading-strategy.js:213 | `positions.set` replaces the token's entry or appends one, and adds no other entry |
| Trading.PutLookup | trading-strategy.js:213 | after `set` the token maps to the new position, every other token to what it had, and tokens stay distinct |
| Trading.Lookup | trading-strategy.js:240 | `positions.get(token)`; `PutLookup` states how it sees `set` |
| Trading.OpenCount | trading-strategy.js:601 | there are never more open positions than positions |
| Trading.OpenCountExtremes | trading-strategy.js:601 | the open count is zero exactly when no position is open, and equals the number of positions exactly when all are open |
| Trading.PutOpenCount | trading-strategy.js:213 | how `set` changes the number of open positions |
| Trading.Observe | trading-strategy.js:386-407 | value = tokens × price, P&L = value - cost, P&L% = P&L/cost × 100; the high-water mark is the maximum of the old mark and the price; the trailing stop is re-armed at `price × (1 - trailingStop/100)` exactly on a profitable-enough new high with trailing on; nothing else changes |
| Trading.PnLPercentSign | trading-strategy.js:386-395 | for a positive cost the P&L percentage is defined and non-negative exactly when the position is worth at least its cost |
| Trading.HighestIsRunningMaximum | trading-strategy.js:398-400 | after any run of ticks the high-water mark is the maximum of the starting mark and every price, and never decreases |
| Trading.FreshStopBelowPrice | trading-strategy.js:402-405 | a freshly armed trailing stop lies below the price that armed it, so it cannot fire on that tick |
| Trading.KeepLast | trading-strategy.js:421-423 | the last n entries of a history, all of them when there are fewer |
| Trading.Record | trading-strategy.js:409-424 | the history after a tick has between 1 and 1000 entries, ends with the new point, is a suffix of the old history plus the point, and below the cap is exactly the old one plus the point |
| Trading.DecideTakesFirstReason | trading-strategy.js:443-472 | a sell is decided iff some condition holds, and then for the first in the order profit target, stop loss, trailing stop; the dip check runs only when dip buying is on and none holds |
| Trading.Decide | trading-strategy.js:443-472 | `checkTradingConditions`'s choice; `DecideTakesFirstReason` states it |
| Trading.DipSignal | trading-strategy.js:475-506 | a dip is reported only with at least ten points, with the mean of the last ten, the last price and a drop of at least the threshold |
| Trading.RecentMeanPositive | trading-strategy.js:484-485 | positive prices in the last ten points give a positive mean, whatever older points (zero readings included) hold |
| Trading.DipSignalIff | trading-strategy.js:479-491 | when the mean of the last ten points is positive, a dip is signalled iff there are at least ten points and `(mean - last)/mean × 100 ≥ threshold`, equality included |
| Trading.DipSignalReadsLastTen | trading-strategy.js:484-486 | only the last ten points decide the signal |
| Trading.Slippage | trading-strategy.js:595-597 | the slippage is undefined exactly when the expected price is 0 |
| Trading.SlippageSign | trading-strategy.js:595-597 | for a positive expected price the slippage is 0 iff the prices agree and non-negative iff the price is at or below the expected one |
| Trading.Buy | trading-strategy.js:106-235 | too many stored positions (closed ones included) or too large an amount is refused before any swap; on the standard route a quote whose slippage passes the limit is refused, and a slippage refusal happens only then; a refusal or a failed swap changes nothing; a buy succeeds exactly when both limits are met, the standard route's slippage test passes and the swap succeeds |
| Trading.BuyOpens | trading-strategy.js:172-220 | a successful buy stores an open position of the amount under the token, with entry, current and highest price the quoted price or, when that is 0, spent over received, and no trailing stop; it starts monitoring the token and counts one trade; other tokens, the price history, the running flag, profit and successes are unchanged |
| Trading.EntryQuote | trading-strategy.js:144-147 | the given price, or the market price when none was given on the standard route; `Buy`'s slippage clauses and `BuyOpens`' entry price use it |
| Trading.CalculatedPrice | trading-strategy.js:172-173 | `currentPrice`, or spent over received, or 0; `BuyOpens` states that it is the new position's entry price |
| Trading.NewPosition | trading-strategy.js:174-210 | the position record a buy creates; `BuyOpens` states its fields |
| Trading.BuyRespectsLimit | trading-strategy.js:110-117 | a buy never takes the number of stored positions past `maxOpenPositions` |
| Trading.BuyKeeps | trading-strategy.js:106-235 | a buy keeps the soundness invariant |
| Trading.Close | trading-strategy.js:291-316 | a closed position has an exit whose WLD is the amount received and whose realized P&L is that minus the entry WLD |
| Trading.Sell | trading-strategy.js:238-341 | selling a token without an open position is refused; a refusal changes nothing; the sell succeeds iff the position is open and the swap succeeds; history, trade count and running flag are unchanged |
| Trading.SellCloses | trading-strategy.js:291-325 | a successful sell closes the position with realized P&L = exit WLD - entry WLD, adds it to the profit, counts a success only for positive P&L, keeps the trade count and stops monitoring the token |
| Trading.SellOnlyOnce | trading-strategy.js:240-243 | a sold position cannot be sold again: the second sell is refused and changes nothing |
| Trading.SellKeeps | trading-strategy.js:238-341 | a sell keeps the soundness invariant |
| Trading.SellAsWritten | trading-strategy.js:291-298 | as written, a sell never succeeds once it reaches the close |
| Trading.SellAsWrittenLosesTheSale | trading-strategy.js:291-298 | as written, a successful swap leaves the position marked closed with no profit or success booked, while the corrected sell succeeds |
| Trading.RevaluedPositions | trading-strategy.js:386-407 | re-valuing replaces only the token's position |
| Trading.RevaluedHistory | trading-strategy.js:409-424 | re-valuing records the point in the token's history only |
| Trading.RevaluedKeeps | trading-strategy.js:386-424 | re-valuing an open position keeps the soundness invariant |
| Trading.Act | trading-strategy.js:443-472 | with no sell decided the book is unchanged; a decided sell is the sell for the first reason; a dip is reported only when the decision is the dip check |
| Trading.MonitorSplits | trading-strategy.js:375-440 | a tick on an open position with a price is the decision step after the re-valuation |
| Trading.Monitor | trading-strategy.js:375-440 | `monitorPosition` on the book; `MonitorSplits`, `MonitorRevalues`, `MonitorRecords` and `MonitorKeeps` state its effect |
| Trading.MonitorRevalues | trading-strategy.js:375-440 | a tick stores the re-valued position, closed when a sell condition holds and the sale goes through; other tokens are unchanged |
| Trading.ActPositions | trading-strategy.js:443-472 | the decision step changes only the token's position, closing it on a successful sell |
| Trading.MonitorRecords | trading-strategy.js:409-424 | a tick appends the point to the token's capped history and to no other; the trade count is unchanged and a dip is reported only when no sell condition holds |
| Trading.MonitorKeeps | trading-strategy.js:375-440 | a tick keeps the soundness invariant |
| Trading.MonitorOpen | trading-strategy.js:70-74 | the start loop monitors every open position's token in addition to those already monitored |
| Trading.Started | trading-strategy.js:57-78 | after `startStrategy` the system is running |
| Trading.Stopped | trading-strategy.js:81-103 | after `stopStrategy` the system is not running |
| Trading.StartStopIdempotent | trading-strategy.js:57-103 | starting a running system and stopping a stopped one change nothing; both are idempotent, neither touches positions, and starting monitors every open token |
| Trading.Watched | trading-strategy.js:345-362 | after `startPositionMonitoring` the token is monitored, once |
| Trading.ClosedCount | trading-strategy.js:602 | closed and open positions together are all positions |
| Trading.StrategyStats | trading-strategy.js:600-620 | open + closed = total positions, the total P&L is unrealized plus realized, and with no trades the success rate is 0 |
| Trading.SuccessRateBounded | trading-strategy.js:600-620 | in a sound state the success rate is a percentage |
| Trading.TradingStrategy.constructor | trading-strategy.js:5-44 | a new system is stopped, holds no position or history, and is configured from its environment |
| Trading.TradingStrategy.StartStrategy | trading-strategy.js:57-78 | the new state is `Started` of the old one (computed by the start loop), and the invariant holds |
| Trading.TradingStrategy.StopStrategy | trading-strategy.js:81-103 | the new state is `Stopped` of the old one, and the invariant holds |
| Trading.TradingStrategy.StartPositionMonitoring | trading-strategy.js:345-362 | the new state is `Watched` of the old one, and the invariant holds |
| Trading.TradingStrategy.ExecuteBuyTrade | trading-strategy.js:106-235 | the result and new state are those of `Buy`, and the invariant holds |
| Trading.TradingStrategy.ExecuteSellTrade | trading-strategy.js:238-341 | the result and new state are those of the corrected `Sell`, and the invariant holds |
| Trading.TradingStrategy.MonitorPosition | trading-strategy.js:375-440 | the new state and the dip event are those of `Monitor`, and the invariant holds |
| Trading.TradingStrategy.GetStrategyStats | trading-strategy.js:600-620 | the statistics of the current state, with a success rate in 0..100 |

## Left out

- Timers: `setInterval`/`clearInterval` are left out. The builder's intervals are a map from strategy id to period, and the trading strategy's monitors are a set of tokens. One tick is one call, and overlapping asynchronous ticks are not modelled.
- Swaps, quotes, liquidity analysis and price reads through the trading engines are foreign calls. Their answers are parameters: a swap result or None for a call that threw, a quote, and the liquidity cap.
- `Engine.SwapResult` keeps its fields as numbers. A missing `amountOut` or `tokensReceived`, which JavaScript would turn into `NaN` or 0, is read as 0.
- Trading: the choice between the enhanced and the standard engine route is made per call by the `route` parameter, not fixed per instance.
- `Trading.Sell`: the exit price is an input. On the standard route the price is read (trading-strategy.js:275) before the swap (line 278), so a failed read throws with nothing changed; the model covers that case as `swap == None`.
- The clock (`Date.now()`) and the generated ids (`Math.random()`) are parameters. The builder's `Create` requires its id to be fresh, as a random id is in practice.
- File persistence (`saveStrategies`/`loadStrategies`, `savePositions`/`loadPositions`), console logging, status blocks and `toFixed` formatting are I/O. They are not modelled, except `SavedCopy`, which states that the wallet object is excluded from the saved copy.
- `EventEmitter` events: the dip opportunity that `monitorPosition` emits is returned instead, and the other events are not modelled.
- Display only, so not modelled: `getHistoricalPriceAnalysis`, `formatTimeAgo`, `getTimeframeLabel`, `dipTimeframeLabel`, and the progress figures of `handleProfitRange`.
- `executeProfitSell` (the per-lot sell), `closeAllPositions`, `updateConfig`, `getAllPositions`, `getPosition` and `getStrategy` are not part of this model. They sit outside the decision core.
- IEEE floating point: amounts and prices are Dafny reals, and `NaN` and `Infinity` are both `None`. With positive prices an infinite drop is `-Infinity`, which fails the dip test in JavaScript as `None` fails it here. An infinite slippage (an expected price of 0 and a non-zero quote) is refused, as in JavaScript, by `Trading.SlippageTooHigh`.
- `Trading.Observe`, `Trading.Holds`: a position whose `entryAmountWLD` is 0 but whose value is not has a P&L percent of `Infinity` or `-Infinity`. JavaScript then sells it for the profit target (trading-strategy.js:447) or the stop loss (line 454). The model makes that percent `None`, so neither of those two exits fires. The trailing stop is never armed either, since arming needs the percent to reach `minProfitForTrailing` (line 401). So in the model such a position is never sold automatically.
- A fired ladder can leave tokens open. Each rung sells its percentage of the tokens open when it fires (strategy-builder.js:855-857), so a fully fired ladder leaves `Remainder` of them, which is positive by `ProfitRange.LadderLeavesTokens`. The range state is created once, and range mode has no sell-all. So unless a lot drops below the dust threshold these tokens are never sold, and while a lot stays open no later dip buy happens. The model captures this as it is, and no member claims that a ladder sells out.
- `ProfitRange.RangeMode` admits only the three modes. An unrecognised `profitRangeMode` string leaves each rung's profit and sell percentages undefined (strategy-builder.js:818-830), the `.toFixed` at line 849 then throws (caught by `handleProfitRange`), and the ladder keeps rungs whose trigger is `NaN` and never fires. That case is not modelled.
- `Math.pow(x, 0.5)` in the aggressive ladder is the parameter `sqrt`. `ProfitRange.LadderProfitsIncrease` assumes it is monotone.
- `Strategies.ExecuteProfitRangeStep` requires the open lots to hold tokens. Its only caller reaches it with a finite average entry price, and without tokens the source would divide by zero.
- `Trading.Buy`: a price or quote read that throws on the standard route (trading-strategy.js:144-151) leaves the book unchanged and fails the buy. The model covers it as a failed swap (`swap == None`) with a quote that passes the slippage test: the result is `Err(SwapFailed)` and an unchanged book. The error message is not modelled.
- `Strategies.CheckOpenLots` states only that the loop sells and keeps the books consistent. It does not say which lots were sold, because each check's outcome depends on the earlier ones through the quotes and swaps it is given. `Builder.TickWithPrice`, `Builder.Monitor` and `Builder.StrategyBuilder.MonitorStrategy` inherit this gap: with lots open they state only `OnlySells`.
- The `remainingPositions` bookkeeping of the profit-range state is not modelled.
- `Trading.StrategyStats` does not model the configuration object that `getStrategyStats` also returns, nor the `gasUsed` fields of the trade records.
- The classes apply value-level transition functions to their whole state. Aliasing of a strategy object shared between the builder's maps and a caller is not modelled.

## Findings

| source | as written | input that shows it | evidently intended | confidence | as-written member | corrected member |
|---|---|---|---|---|---|---|
| strategy-builder.js:895 | a range step books `wldReceived - tokensToSell / currentPrice` as profit, which subtracts tokens divided by a price from WLD | 100 tokens bought for 10 WLD; half of them sold at 0.2 WLD each for 10 WLD books -240 instead of 5; half sold at cost (0.1) for 5 WLD books -495 instead of 0 | the proceeds less the cost basis of the tokens sold, `wldReceived - totalWLD × tokensToSell / totalTokens` | not executed | Strategies.RangeStepProfitMisstated | Strategies.RangeStepAtCostIsBreakEven |
| trading-strategy.js:298 | the sell reads `currentPrice`, a `const` that exists only inside the standard-route block at line 275, so the close throws right after line 297 has set the status to closed | an open position and a successful swap: the position ends closed with no exit price, no realized P&L in the profit and no success counted, and the call fails | the close records the exit price read for the sale and completes the bookkeeping of lines 291-325 | not executed | Trading.SellAsWrittenLosesTheSale | Trading.SellCloses |
| trading-strategy.js:21 | `process.env.ENABLE_AUTO_SELL === 'true' \|\| true` is always true | `ENABLE_AUTO_SELL=false` still sells at the profit target | auto-sell on by default and off when the setting is `"false"` | not executed | Trading.AutoSellCannotBeDisabled | Trading.AutoSellDefaultsOnAndCanBeDisabled |

The class methods use the corrected members; the as-written members model the code as it stands. The corrected members are used as follows: `Strategies.RangeStepProfit` in `ExecuteProfitRangeStep`, `Trading.Sell` in `ExecuteSellTrade` and `Monitor`, and `Trading.AutoSell` in `ConfigFrom`.
