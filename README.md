# Kraken DCA bot: a Dafny model of its scheduling core

The repository holds two Node.js scripts that buy crypto-currency on Kraken by
dollar-cost averaging:

- `bot.js`, the multi-asset bot. Each pass of its loop does the following:
  1. Reads the account balance.
  2. When new fiat has arrived, re-estimates the next fiat deposit and splits
     the fiat among the assets by their allocation percentages.
  3. Re-reads prices.
  4. Buys each asset whose next order is due or for which new fiat has just
     arrived, and whose budget pays for one minimum-size order.
  5. Schedules that asset's next order so the orders its whole allocated
     budget pays for are spread evenly until the next deposit. A purchase
     never reduces that budget; only new fiat resets it.
  6. After a purchase, may withdraw an asset's holding, either at a threshold
     or once a month.
- `app.js`, the earlier single-asset (BTC) script. Each pass it:
  1. Computes the next fiat drop date.
  2. Waits the time until that date divided by the number of minimum orders
     the fiat balance pays for.

The model has four layers:

- **Calendar.** A proleptic Gregorian calendar stands in for JavaScript
  `Date`. Day-of-month overflow works as in `setDate` and `setMonth`.
- **Value-level specification.** One function per operation: `Refill`,
  `Pacing`, `Withdrawal` and `Allocation`. `Cycle.CycleSpec` is a whole pass
  of the bot.
- **Mutable state.** The `Bot` and `AssetState` classes, whose methods change
  fields step by step as `bot.js` does. Each method is proved to leave exactly
  the state that the specification functions describe.
- **The `app.js` scheduler.** Modelled in `App`.

Three defects of `bot.js` are modelled as written in `Findings`, each with an
input that shows it. The rest of the model uses the corrected behaviour.

Replies from Kraken and the clock are inputs of each pass. Nothing talks to
the network.

## Model

| member | source | states |
|---|---|---|
| Calendar.MonthLength | app.js:211-212 | months have 28 to 31 days; 29 exactly for a leap-year February (the length `setMonth` overflows by) |
| Calendar.SetDay | app.js:207-209 | the date for a day of a month, overflowing into neighbouring months when the day is outside the month; the day number is month start + day - 1; an in-range day gives that very date |
| Calendar.SetDate | bot.js:454 | `setDate(k)` keeps the time of day and moves the date by `k - day` days, in day number and in milliseconds |
| Calendar.AddMonth | bot.js:455 | `setMonth(getMonth() + 1)` moves the date by the length of its month, keeping the time of day |
| Calendar.WeekDay | bot.js:291 | `getDay()` is in 0..6 |
| Calendar.ShiftWeekDay | app.js:216-220 | moving a date by n days moves its weekday by n modulo 7 |
| Calendar.MonthStartNext | app.js:211-212 | the next month starts right after this month ends, across year ends and leap years |
| Calendar.InstantOrder | app.js:210 | comparing instants agrees with comparing day numbers across different days |
| Assets.BuySucceeded | bot.js:421-431 | definition: a reply with no error and a non-empty transaction list; used by Bot.AssetState.BuyCrypto and Cycle.GateStep |
| Assets.AffordabilityExample | bot.js:236 | 40 does not pay for 0.001 at 50000 and 60 does |
| Allocation.Share | bot.js:204 | definition: an asset's budget after new fiat, zero for a non-positive allocation; properties in Allocation.PartitionShares |
| Allocation.Partition | bot.js:201-207 | one budget per asset (the definition); properties in Allocation.PartitionShares, Allocation.PartitionSum and Allocation.PartitionWithinFiat |
| Allocation.StartupAccepts | bot.js:558-562 | definition of the corrected start-up check: the applied (positive) allocations add up to at most 100; properties in Allocation.PartitionWithinFiat and Allocation.NonNegativeTotals |
| Allocation.PartitionShares | bot.js:201-207 | an asset with a positive allocation gets fiat times allocation / 100; every other asset gets nothing |
| Allocation.PartitionSum | bot.js:201-207 | the budgets add up to the fiat times the sum of the applied (positive) allocations / 100 |
| Allocation.PartitionWithinFiat | bot.js:558-562 | with the start-up check passed and fiat non-negative, the budgets add up to between 0 and the fiat |
| Allocation.NonNegativeTotals | bot.js:558 | with no negative allocation, the applied total equals the plain sum bot.js checks, so both checks accept the same configurations |
| Pacing.NextOrderTime | bot.js:515-541 | definition of the next purchase time; properties in Pacing.PacingFallbacks, Pacing.EvenSpreading, Pacing.NextOrderInFuture and Pacing.PacingIdempotent |
| Pacing.PossibleOrdersAffordable | bot.js:518-519 | the counted orders are affordable and one more is not |
| Pacing.PacingFallbacks | bot.js:521-540 | no affordable order or no allocated fiat waits a week; no usable price waits five polling intervals; an asset without allocation keeps its time |
| Pacing.EvenSpreading | bot.js:524-532 | the next order is at least one polling interval away, exactly one when the refill is that close, else max(interval, window / orders); when the quotient is the spacing, that many orders fit before the refill; the next order is no later than the later of one interval and the refill |
| Pacing.SpreadArithmetic | bot.js:530 | the spacing max(interval, window / orders) is at least the interval, fits the window when the quotient wins, and is bounded by max(interval, window) |
| Pacing.NextOrderInFuture | bot.js:516-532 | with a usable price, fiat and a positive interval, the next order is strictly after now |
| Pacing.PacingIdempotent | bot.js:515-541 | evaluating again at once gives the same time |
| Pacing.PacingExample | bot.js:516-531 | 300 at price 100 and order size 1 gives three orders, so with the refill ten days away the next order is 2.88e8 ms away |
| Refill.BackShiftWeekend | bot.js:512 | the result is never on a weekend; a Saturday or Sunday goes back to the Friday one or two days before; other days stay |
| Refill.RefillTarget | bot.js:491-511 | the target keeps the time of day, is strictly after now and at most 31 days later; without a valid refill day it is one month (this month's length) after now; with one, it is that day of this month (month start + day - 1, overflowing as `setDate` does) when the day is still ahead, and that day of next month when it has passed; an in-range day gives exactly that calendar date |
| Refill.EstimateNextFiatDeposit | bot.js:490-513 | the estimate is not on a weekend and lies between two days before now and 31 days after |
| Refill.FirstRunRollover | bot.js:494-497 | set-day-then-add-month of the first run reaches the refill target |
| Refill.LaterRunRollover | bot.js:499-506 | first-of-month, add month, set day (the corrected later-run rollover) reaches the same refill target |
| Withdrawal.FirstOfNextMonth | bot.js:454-455 | the first of the following month, across year ends |
| Withdrawal.IsWithdrawalDue | bot.js:461-463 | a withdrawal is due only with an address key; if not due the date stays; the date either stays or moves to the first of next month |
| Withdrawal.DateMode | bot.js:452-462 | with a key and no threshold, due exactly when the date is reached, and the date then moves to the first of next month |
| Withdrawal.ThresholdMode | bot.js:463 | with a key and a threshold, due exactly when the holding reaches the threshold; the date stays |
| Withdrawal.NeverWithoutKey | bot.js:461-463 | without a key nothing is due and the date stays |
| Withdrawal.DateFiresOncePerMonth | bot.js:452-459 | once the date test fired within the month of the withdrawal date, a second date-mode asset asked at the same instant is refused |
| Cycle.CycleSpec | bot.js:137-285 | definition of one pass; properties in Cycle.CycleKeepsValid, Cycle.FailedQueryEscalates, Cycle.NewFiatReallocates, Cycle.NoNewFiatKeepsBudgets and the other Cycle lemmas below |
| Cycle.GateStep | bot.js:224-276 | an order is placed iff the asset is not skipped, is due or new fiat arrived, and affords one order; bought iff placed and the reply succeeded; only a bought asset's record changes, to the rescheduled record; a withdrawal needs a key, a purchase in this pass and is of the whole holding; the converse is Cycle.GateStepWithdrawal |
| Cycle.GateStepWithdrawal | bot.js:272-275 | for an asset not skipped in a pass with a purchase, the withdrawal and the new date are exactly those of Withdrawal.IsWithdrawalDue on the holding after the purchase; otherwise there is no withdrawal and the date stays |
| Cycle.GateAll | bot.js:222-276 | the stage over n assets leaves the records after n unchanged and never touches budgets or prices; a first-of-month withdrawal date stays a first of month |
| Cycle.GateAllUnfold | bot.js:224-276 | one more asset appends its event and replaces only its own record |
| Cycle.GateAllPerAsset | bot.js:224-248 | each asset's event and record depend only on its own record: ordered iff OrderPlaced, bought iff also the reply succeeded, record replaced iff bought |
| Cycle.GateAllExecuted | bot.js:241 | the purchase flag is set iff some asset was bought |
| Cycle.GateAllWithdrawals | bot.js:272-274 | a withdrawal is of an asset with a key, of its whole holding, after a purchase of it or an earlier asset in the same pass |
| Cycle.InitialStateValid | bot.js:95-105 | the start-up state satisfies the pass invariant once the allocations are accepted |
| Cycle.CycleKeepsValid | bot.js:137-285 | every pass preserves the invariant: dates valid, the withdrawal date a first of month, firstRun iff no balance recorded, no budget for unallocated assets, nothing budgeted or bought before the first balance |
| Cycle.FailedQueryEscalates | bot.js:465-473 | a failed balance query adds one interruption, changes nothing else, and aborts iff the count reaches three or more while no balance has ever been read |
| Cycle.NoAbortAfterFirstBalance | bot.js:469 | once a balance was read the bot never stops |
| Cycle.AbortOnlyBeforePurchase | bot.js:469 | the bot stops only while nothing is budgeted or bought |
| Cycle.NewFiatReallocates | bot.js:191-207 | after new fiat (or the first reading) the budgets are the allocation shares of the balance, the balance is recorded, the refill re-estimated, and the budgets add up to at most the balance |
| Cycle.PassKeepsBudgets | bot.js:210-276 | re-reading prices and the purchase stage leave every budget as reallocation set it |
| Cycle.BudgetsArePartition | bot.js:201-207 | reallocating the asset records gives exactly the Partition of the fiat |
| Cycle.NoNewFiatKeepsBudgets | bot.js:191-208 | without new fiat, budgets, recorded balance and refill estimate are unchanged |
| Cycle.LastFiatNeverDecreases | bot.js:191-196 | the recorded fiat balance only grows |
| Cycle.OrdersStayWithinBudget | bot.js:227-238 | an order is placed only with a positive allocation, usable price, budget paying for one order, and a due order or new fiat |
| Cycle.PurchaseReschedules | bot.js:238-241 | a purchase marks the asset bought and, with a positive polling interval, pushes its next order past now; an asset not bought keeps its schedule and mark |
| Cycle.WithdrawalOnlyAfterPurchase | bot.js:272-274 | a withdrawal in a pass is of a keyed asset's whole holding and follows a purchase in that pass |
| Cycle.ThresholdWithdrawalAt | bot.js:272-274 | in the stage over n assets, a bought asset with a key and a threshold is withdrawn exactly when its post-purchase holding reaches the threshold |
| Cycle.ThresholdWithdrawalInPass | bot.js:272-274 | in a whole pass, a bought asset with a key and a threshold is withdrawn in that pass exactly when its post-purchase holding reaches the threshold (0.49 against 0.5 stays, 0.5 goes) |
| Cycle.ThreeFailuresFromStartAbort | bot.js:469-472 | three failed balance queries from start-up continue, continue, then abort with three interruptions |
| Bot.AssetState.constructor | bot.js:46-58 | a new asset record has no budget, no price, no holding, its first order due at start-up, and is not yet bought |
| Bot.AssetState.EvaluateMillisUntilNextOrder | bot.js:515-541 | only the next-order time changes, to Pacing.NextOrderTime |
| Bot.AssetState.BuyCrypto | bot.js:417-437 | success iff the reply has no error and a transaction id; success clears the not-yet-bought mark and nothing else changes |
| Bot.Bot.constructor | bot.js:95-105 | the bot starts in the initial state, which satisfies the invariant |
| Bot.Bot.NewAssets | bot.js:46-91 | one fresh, distinct record per configured asset, each in its start-up state |
| Bot.Bot.EstimateNextFiatDepositDate | bot.js:490-513 | the refill estimate becomes EstimateNextFiatDeposit(now); the other fields stay |
| Bot.Bot.BackOffWeekend | bot.js:512 | the in-place weekend back-off computes BackShiftWeekend |
| Bot.Bot.NextRefillDate | bot.js:491-511 | both branches, first run and later run, compute RefillTarget |
| Bot.Bot.IsWithdrawalDateDue | bot.js:452-459 | due iff now is at or past the withdrawal date; if due the date moves to the first of next month |
| Bot.Bot.IsWithdrawalDue | bot.js:461-463 | the answer and the new withdrawal date are those of Withdrawal.IsWithdrawalDue |
| Bot.Bot.PrintBalanceQueryFailedError | bot.js:465-473 | the interruption count grows by one; fatal iff it reaches three on the first run |
| Bot.Bot.RefreshHoldings | bot.js:178-188 | the records become Holdings of the reply |
| Bot.Bot.Reallocate | bot.js:201-207 | the records become Cycle.Reallocate of the fiat |
| Bot.Bot.RefreshPrices | bot.js:210-221 | the records become Prices of the replies |
| Bot.Bot.GateAsset | bot.js:224-275 | asset i, the flag and the withdrawal date change as GateStep says |
| Bot.Bot.GateAndBuy | bot.js:222-276 | the records, the withdrawal date and the events are those of GateAll over all assets |
| Bot.Bot.GateLoop | bot.js:224-276 | the loop over the assets ends in the state of GateAll over all of them |
| Bot.Bot.GateNext | bot.js:224-276 | one loop iteration moves the state from GateAll over i assets to i + 1 |
| Bot.Bot.RunCycle | bot.js:137-285 | one pass leaves exactly the bot, records, outcome and events of CycleSpec, and keeps the invariant |
| Bot.Bot.PassWithBalance | bot.js:163-278 | a pass that read a fiat balance ends in the state of CycleSpec |
| Bot.Bot.ReadBalance | bot.js:163-208 | new fiat is detected as NewFiatArrived; the bot and records become Refreshed and Budgeted |
| Bot.Bot.StartBudget | bot.js:193-207 | the refill is re-estimated, the balance recorded, the first run ended and the fiat reallocated |
| App.RefillDayOrDefault | app.js:23 | a zero or missing refill day falls back to 26; any other value is kept |
| App.PrefixesFor | app.js:38-43 | X and Z prefixes for USD and EUR, none for any other currency |
| App.TickerPair | app.js:189-194 | the pair is XXBTZ plus the currency for USD and EUR, XBT plus the currency otherwise |
| App.FiatKey | app.js:223 | the fiat balance key is Z plus the currency for USD and EUR, the currency otherwise |
| App.TickerPairInjective | app.js:189-194 | different currencies are looked up under different pairs |
| App.DropTarget | app.js:206-214 | midnight of the refill day when that is not before now; otherwise midnight of the day after the refill day next month; never before now and at most 32 days ahead |
| App.RolloverTarget | app.js:210-214 | the rollover lands on day+1 of next month, strictly after now and at most 32 days ahead |
| App.ForwardShiftWeekend | app.js:216-220 | the result is never on a weekend; a Saturday or Sunday goes forward to the Monday one or two days on; other days stay |
| App.DropDate | app.js:206-220 | the drop date is a weekday midnight, not before now and at most 34 days ahead |
| App.NextFiatDropDate | app.js:206-220 | the step-by-step mutation of the date computes DropDate |
| App.SkipWeekend | app.js:216-220 | the two weekend checks compute ForwardShiftWeekend |
| App.ApproxOrderCount | app.js:225-227 | definition: the unrounded number of minimum orders the fiat pays for; properties in App.WaitSpreadsOrders and App.MoreFiatWaitsLess |
| App.WaitMillis | app.js:222-235 | the wait is never negative; no fiat balance or fewer than two orders waits one hour; otherwise time until the drop / order count; a zero price gives an infinite count and no wait for a positive balance, one hour otherwise |
| App.WaitSpreadsOrders | app.js:233-235 | wait times order count equals the time until the drop |
| App.WaitAtMostHalf | app.js:233-235 | with two orders or more the wait is at most half the time until the drop |
| App.MoreFiatWaitsLess | app.js:225-235 | more fiat at the same price never waits longer |
| App.Iteration | app.js:189-235 | the refill day is the configured one or 26; the pass fails with "Probably invalid currency symbol!" iff the price is missing, and fails iff that or the balance result is missing; otherwise the drop date is DropDate and the wait is WaitMillis of the time until it, one hour without a fiat entry |
| Findings.FailedPassAsWritten | bot.js:469-472 | definition of a failed-query pass as written: the count grows and the loop continues; properties in Findings.FailuresNeverAbortAsWritten |
| Findings.FailedPassesAsWritten | bot.js:469-472 | n failed-query passes as written, one after another; properties in Findings.FailuresNeverAbortAsWritten |
| Findings.RefillTargetAsWritten | bot.js:499-506 | definition of the later-run refill target as written (add a month to today, then set the day); properties in Findings.RolloverSkipsFebruary |
| Findings.StartupAcceptsAsWritten | bot.js:558-559 | definition of the start-up check as written: the plain sum of all allocations is at most 100; properties in Findings.OverAllocationAccepted |
| Findings.FailuresNeverAbortAsWritten | bot.js:469-472 | as written, any number of failed balance queries only counts up and never stops the loop |
| Findings.EscalationSwallowed | bot.js:279-283 | after three failures from start-up the code as written continues while the corrected pass aborts |
| Findings.RolloverSkipsFebruary | bot.js:504-505 | on 31 January with the refill on the 10th, the as-written rollover gives 10 March, the corrected one 10 February |
| Findings.OverAllocationAccepted | bot.js:558-559 | allocations 125, -50, 25 pass the as-written check, fail the corrected one, and budget 150% of the fiat |

## Left out

- Network, signing and JSON. HTTP requests, request signing and JSON handling are not modelled. Each reply is an input of the pass: a balance reply, price readings, order replies and post-buy balance readings.
- Fuzzy price lookup. `fetchCryptoPrice` searches the ticker response for a matching key. Here the price is an input, and a missing or unparsable price is `None`.
- Fiat balance key in `bot.js`. The key is chosen at bot.js:39-44 and 165: prefixes for USD, EUR and GBP, and the key "Z" for AUD. The model takes the fiat entry as given in the reply.
- Logging. Log lines, `flushLogging`, `logQueue` and `formatTimeToHoursAndLess` have no effect on state.
- Timers, `async`/`await` and the endless loop. The model covers one pass; lemmas chain passes explicitly.
- `process.exit` at start-up. The bot constructor requires the corrected allocation check, and the as-written check is `Findings.StartupAcceptsAsWritten`. The API-key check (bot.js:565-568) is not modelled.
- Environment parsing. `Number(x) || default` is not modelled; settings are values. An order size is never zero, because `||` replaces a zero.
- Floating point. Amounts are exact reals. NaN and infinite prices are `None`. Rounding of `toFixed` is not modelled.
- The clock. There is one clock value per pass, while the source reads `Date.now()` several times within a pass.
- Time zones. The calendar has no time zone and no daylight-saving shifts.
- Withdrawals. The withdrawal reply is not modelled, since the source only logs it. The event records the amount withdrawn.
- Post-buy balance read. A failed read after a purchase counts as no reading, and the holding stays.
- The withdrawal date. It is one date shared by all assets, as in the source.
- App.DropTarget, App.DropDate, App.NextFiatDropDate and App.Iteration require a refill day (for App.Iteration, after the default of app.js:23) from 1 to 31. With any other value `app.js` builds an invalid date and computes with NaN, and that path is not modelled.
- App.Iteration: the date string `YYYY-M-D` is read as local midnight, with the day overflowing into the next month. Prices and balances arrive as numbers, so string-to-number conversion is not modelled.
- The buy-order calls. In `app.js` they are commented out (app.js:241, 244), so a pass only computes its wait.
- The model follows the code in these points, where a reader might expect otherwise:
  - the interruption count is never reset after a successful query;
  - escalation depends on `firstRun`, not on whether anything was ever bought;
  - the later-run refill estimate compares against the current time, not the previous estimate;
  - the next order time is re-evaluated only after a purchase (bot.js:240), never after a reallocation;
  - `allocatedFiat` is written only at reallocation (bot.js:204) and a purchase never reduces it, so pacing spreads the whole budget each time.

## Findings

| source | as written | input that shows it | evidently intended | confidence | as-written member | corrected member |
|---|---|---|---|---|---|---|
| bot.js:469-472 | the fatal throw after three failed balance queries is caught by the loop's own catch at bot.js:279-283, which only logs and sleeps | three failed balance queries in a row right after start-up | the bot exits, as its "FATAL ... Exiting." message says | not executed; high | Findings.FailuresNeverAbortAsWritten | Cycle.ThreeFailuresFromStartAbort |
| bot.js:504-505 | a later-run rollover sets the month forward on today's date before setting the refill day, so the 29th to 31st can overflow past next month | now = 31 January 2025, refill day 10: gives 10 March | the refill day of the next month, 10 February | not executed; high | Findings.RolloverSkipsFebruary | Refill.LaterRunRollover |
| bot.js:558-559 | the start-up check sums all allocations, including negative ones, which are never applied | allocations 125, -50, 25: sum 100 passes, but 150% of the fiat is budgeted | the applied allocations add up to at most 100% | not executed; medium | Findings.OverAllocationAccepted | Allocation.PartitionWithinFiat |
