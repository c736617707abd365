# A verified model of a single-account trading platform

The project models the platform's execution and accounting, its risk controls, its durability
protocols, its market-data transformations, its options analysis and its digest, and proves what
each promises over every input, every run or every reachable state. Every file is one module (the
backtest's specification, its proofs and its objects are three); `dafny verify dfyconfig.toml`
checks all of them.

Each component that changes state in place is a class holding the same fields as the platform's own,
and each of its methods is proved to compute a step function on values. The theorems are about those step
functions, run over arbitrary histories. Three patterns recur.

* *Specification, runs, object.* `PaperBroker.dfy` holds the matching engine as functions and as a
  class, `PaperBrokerRuns.dfy` what holds after any calls. Order manager, queue, pipeline, backtest,
  lease and replay are built the same way.
* *Histories as sequences of events.* A crash, a restart, a late statement, a second worker or an
  operator is an event like any other, and async code is split at its awaits: what may happen
  between two awaits is another event.
* *Results in the caller's terms.* What an operation must do is also stated without its own steps: in
  money, in times, in executions, or by a definition of its own.
* *Refinement.* Rolling sums, in-place rounds, parsers and bisections are loops proved equal to a
  definition that has no loop.

## The main results

1. **No lookahead.** Strategies prepare their indicators over the whole series. Still, two histories
   that share `p` bars give equity curves that share `p` points, and before bar `p` the two runs are
   in the same state, orders included (`NoLookahead`). Inside a bar, histories that share its time
   and its open execute the same entry or exit there, whatever its high, low and close. The momentum
   and volatility strategies are proved causal, rolling indicators and squeeze window included.
2. **The backtest's state machine.** At the end of every bar a position is open exactly when a stop
   is set on its side, every order opens from flat or flattens exactly, stops only tighten, and no
   extreme of a bar reached the stop of a position that survived it (`BacktestRuns`). What was decided
   on one close is executed whole at the next open, a stop at the extreme that reached it, and nothing
   else is (`BacktestExecutions`). Every equity point is what the executions so far are worth at its
   close, and peak, day and losing streak follow from the points and the trades (`BacktestCurves`).
   An entry is the greatest quantity that budgets and limits admit, in money (`BacktestDecisions`,
   with `BacktestRates` for the limit on orders per minute).
3. **The accounting identity** with the best possible rounding bound (`Portfolios`).
4. **One intent, one order**, for every interleaving of submissions and replies (`OmsProtocol`). An
   order that is dead here without the exchange's id, while the exchange took it and never denied it,
   was cancelled before its acknowledgement, and no other way (`OmsCancellations`).
5. **Three ledgers agree.** Broker, order manager and portfolio keep the same money (`Ledgers`).
   With volume caps the order manager can fold away two executions that coincide in time, quantity
   and price; the theorem says exactly when. Without caps it never happens (`LedgersUncapped`). With
   caps the statuses still agree exactly outside two named cases (`LedgersStatus`). An order trades
   exactly when its trigger and its limit allow, at the tick beyond the slipped price
   (`PaperBrokerPrices`).
6. **Worst cases are worst**: what each structure pays at every settlement, and its greatest loss and
   profit, as numbers in strikes and cost (`Options`). Break-evens are exact on the tick grid; off it
   the search fails exactly when one of two bounds does (`BreakEvens`).
7. **Aggregation commutes with resampling** (`Ohlc`), and resampling heals flushes (`OhlcFlushes`).
8. **The queue never loses work**, and attempts are bounded (`QueueRuns`). Jobs are served in the order
   they came into line, none before its delay or its pause, and recovery takes back exactly the stale
   (`QueueTimes`).
9. **A restart equals the live process.** Fills arrive by the stream and by reconciliation, any
   number at once, each in the pieces its awaits cut; the process may be replaced between any two.
   Every stored fill is booked, refused or in flight, no key is booked twice, and a redelivery
   changes nothing exactly when its key is stored (`ReplayRuns`). A symbol's position is rebuilt
   whole when its own fills were stored in time order, booked in stored order, not refused and not
   in flight; with every symbol so, trades and equity are rebuilt too (`ReplayOrder`).
10. **SHA-256** refines FIPS 180-4 (`Sha256`, `Sha256Shim`); its constants are the roots the standard
    takes them from, and it gives the digest the standard publishes (`Sha256Vectors`).
11. **Risk approval** is greatest, stable and keeps the caps (`Risk`, `Sizing`); the entry the pipeline
    places is the greatest its limits admit, in money (`PipelineEntries`). The strategies' signals
    come exactly where they should, with the stop on the losing side (`MomentumStrategies`,
    `VolatilityStrategies`).
12. **Halts hold** over whole histories. A bar halts exactly on the daily loss, measured from the
    equity the day began with, or on the drawdown, in money (`PipelineHalts`). A restart keeps exactly
    what the last snapshot holds: the peak is the highest equity measured, except what was measured
    after the last snapshot before a restart (`PipelineSafety`, `PipelineRuns`).
13. **The lease excludes**, so the daily square-off happens once (`Leases`, `SquareOffs`).
14. **The audit log is tamper evident** (`Audit`).
15. **An average never breaches a limit** (`Averages`, `PaperBrokerRuns`).
16. **The frame parser inverts the writer** and degrades to a prefix (`Ticker`).

## Where code and promise part

The model follows the code. Where a stated promise fails, a lemma gives the input, and another says
when the promise holds.

* The order manager refuses a new execution of an order it holds as cancelled, as rejected, or as
  filled while the execution leaves it short. Such a fill is stored and then not booked
  (src/runtime/tradingService.ts:290-311); the live books miss it until a restart.
  `Replays.RefusedExactly` gives the guard, `ReplayOrder.NothingLostExactly` says over whole runs when
  nothing is missed, `ReplayOrder.LateFillIsMissed` submits, cancels and fills an order, and
  `ReplayRuns.RestartKeepsCashAndQuantities` says how far a restart moves cash and quantities.
* A fill that comes back is booked again exactly when the tables now name another order for it and
  nothing is stored under that one: `Replays.SecondArrivalExactly`. A broker order id learnt after the
  fill does it: `Replays.LateBrokerIdDoublesTheFill`. The stream and the reconciliation file a fill
  under one order but for one case: `Replays.PathsAgreeExactly`.
* Fills stored out of time order, or booked out of stored order, can rebuild other averages
  (src/persistence/memory.ts:92-94): `ReplayOrder.OutOfOrderChangesAverages`.
* The pipeline's state is written at the end of a bar and of a fill, and never after an approval
  (src/runtime/tradingService.ts:337-359, src/api/server.ts:558-576). A restart keeps the day, its
  baseline, the streak and the staged orders exactly when none changed since the last write:
  `PipelineSafety.RestartKeepsExactly`. An approved or declined order comes back exactly when the last
  write still has it: `PipelineSafety.DecidedOrderReturnsExactly`. Approve, restart, approve hands one
  order over twice: `PipelineSafety.ApprovedExitIsHandedTwice`.
* An entry is sized in whole lots, then scaled by the risk caps and not floored again, unlike in the
  backtest. `PipelineSafety.EntriesAreWholeLotsExactly` says when it stays whole;
  `PipelineSafety.BrokenLotIsPlaced` hands over half a lot.
* With volume caps two executions of one order can coincide, and the order manager then drops the
  second: `Ledgers.CappedQuotesCanCoincide`. An order cancelled at the exchange alone stays open in the
  order manager: `LedgersStatus.DroppedOrderStaysOpen`. The statuses differ exactly in these two cases
  (`LedgersStatus.StatusesAgree`): the order manager holds an order as cancelled exactly when a
  cancellation of it went through (`LedgersStatus.CancelledExactly`), and a quote cancels an order
  exactly when it is immediate, untouched and finds no volume (`LedgersStatus.DroppedExactly`).
* The simulated exchange accepts a stop-limit order whose limit lies short of its trigger, and never
  executes it (src/execution/paperBroker.ts:108-117 and 273-285). It accepts no other order that no
  price would execute: `PaperBrokerPrices.AcceptanceIsAboutTrading`.
* An order cancelled before its acknowledgement has no exchange id, so the exchange is never asked
  (src/execution/oms.ts:285-295). Its submission goes on, may call again, and throws at the
  acknowledgement: `OmsCancellations.CancelledOrderIsSentAgain`. `OmsCancellations.StrandedExactly`
  says when an order dead here is held by the exchange.
* The frame parser takes an empty packet for the end (src/marketdata/kiteTicker.ts:98). It decodes
  every packet exactly when no empty one has a decodable one behind it:
  `Ticker.EveryPacketDecodesExactly`, with `Ticker.EmptyPacketHidesTheRest`.
* A flush in mid-stream splits a bar exactly when a tick of its bucket follows:
  `OhlcFlushes.FlushesSplitExactly`, with `OhlcFlushes.FlushSplitsABar`. Resampling, even to the same
  interval, joins the pieces: `OhlcFlushes.ResamplingHealsFlushes`.
* A halt that a breached limit caused is not stored, so a restart releases it; an operator's stop is
  stored (src/runtime/tradingService.ts:175-185 and 384-388). `PipelineRuns.HaltIsExact` says exactly
  which stops are in force, `PipelineSafety.BreachHaltEndsAtRestart` gives the history.
* `fail` and `recoverAbandoned` take a job out of one list before they put it into another, and a death
  in between loses it exactly when no other copy of its work exists:
  `QueueRuns.DyingInBetweenLosesTheJob`, with `QueueRuns.OnlyCopyIsLost`. With fewer than one attempt
  allowed the bound on attempts already fails: `QueueRuns.NoAttemptsBreaksTheBound`.
* Off the tick grid the break-even search can fail. `BreakEvens.SearchFailsExactly` says when for any
  positive strikes; `BreakEvens.OffTickLowerEndFails` and `BreakEvens.OffTickUpperEndFails` fail in
  the two ways there are.
* Overlapping renewals by one owner shorten its lease exactly when the older reading runs last:
  `Leases.OverlappingRenewalsShortenTheLease`. A rival can then take it early:
  `Leases.ShortenedLeaseIsTakenEarly`. One at a time they never do:
  `Leases.RenewalsOneAtATimeNeverShorten`.
* The relative strength index is documented as 100 when the window holds no loss
  (src/features/indicators.ts:124). Wilder's average forgets nothing, so for periods of at least two
  it is 100 exactly when the price has not fallen since the series began:
  `Indicators.StrengthIsBounded`. Over one period the last move alone decides.
  `Indicators.FallThenRises` has a last window without a loss and an
  index below 100.
* The shift formula for the padded length is right exactly below 2^31 bytes:
  `Sha256Shim.ShiftedLengthIsExact`.

## Conventions

Money is an integer number of paise and rates are reals. `Math.round` goes half up, `mulRate` half
away from zero. An idempotency key is identified with the intent it hashes, so equal keys mean equal
intents, and a platform order id with its key. The audit hash is an arbitrary function, and every
tamper theorem names the collision it would take. The square root is an arbitrary function, and what
dividing zero by zero gives is a parameter.

## Model

| member | source | states |
|---|---|---|
| Money.RoundDiv | src/execution/portfolio.ts:95-97 | a rounded quotient is the nearest integer, halves upward, for either sign of the divisor |
| Money.RoundDivUnique | src/execution/portfolio.ts:95-97 | no other integer meets those bounds |
| Money.RoundDivBetween | src/execution/paperBroker.ts:219-221 | a rounded quotient stays between any integers that bracket the exact one |
| Money.MulRate | src/domain/money.ts:91-98 | a rate is applied with an error of at most half a paisa |
| Money.MulRateOdd | src/domain/money.ts:91-98 | halves go away from zero on both sides: negating the amount negates the result |
| Money.DivFloor | src/domain/money.ts:106-113 | the greatest number of whole units a budget pays for, none for a negative budget |
| Money.RoundToTick | src/domain/money.ts:140-147 | the result is on the tick grid, on the asked-for side, less than one tick away |
| Costs.ChargesNonNegative | src/execution/costs.ts:76-104 | every charge is non-negative and brokerage keeps its cap |
| Costs.ChargesFollowTheSchedule | src/execution/costs.ts:76-104 | each charge is its rate of the turnover to the paisa: capped brokerage, the transaction tax on both legs of a delivery and on the sale alone intraday, stamp duty on the purchase alone, and the service tax on the fees |
| Costs.RoundTripPaysTaxesOnce | src/execution/costs.ts:89-100 | buying and selling intraday pays the transaction tax once and stamp duty once |
| Averages.AverageWithinPrices | src/execution/paperBroker.ts:216-221 | however many partial fills, the incrementally rounded average stays between the cheapest and dearest one |
| Averages.AverageDrift | src/execution/paperBroker.ts:216-221 | twice the distance of average times quantity from the exact notional is at most the sum of the running filled quantities |
| Portfolios.AccountingIdentity | src/execution/portfolio.ts:65-134 | for any fills and marks over any symbols, equity differs from opening plus realised plus unrealised less entry commission by at most half the summed size after adding fills |
| Portfolios.ExactWhenEnteredByOneFill | src/execution/portfolio.ts:90-98 | the identity is exact when every position is entered by one fill |
| Portfolios.BoundIsAttained | src/execution/portfolio.ts:94-97 | two one-share fills a paisa apart use the whole allowance, so the bound cannot be improved |
| Portfolios.EntrySlack | src/execution/portfolio.ts:93-98 | rounding one entry moves twice the cost by at most the new size, and not at all when opening |
| Portfolios.ExitBalances | src/execution/portfolio.ts:99-130 | a reducing or reversing fill realises exactly what it removes from cost |
| Portfolios.RealisedIsTradePnl | src/execution/portfolio.ts:111-121 | realised profit is the profit of the closed trades after any history |
| Portfolios.TradesTellTheirExit | src/execution/portfolio.ts:99-121 | a fill closes a trade exactly when it goes against what is held, for as many shares as both have, from the average paid to its own price, at the profit between the two less its charges |
| Portfolios.FillMovesOnePosition | src/execution/portfolio.ts:77-132 | a fill changes every book-wide measure by exactly what its own position changed |
| Portfolios.Portfolio.constructor | src/execution/portfolio.ts:52-58 | an empty book holding the opening cash |
| Portfolios.Portfolio.SettleFill | src/execution/portfolio.ts:86-130 | opening, adding, reducing and reversing, as the settlement the lemmas above are about |
| Portfolios.Portfolio.ApplyFill | src/execution/portfolio.ts:65-134 | the book becomes the booked one; a fill is refused, and changes nothing, exactly when its quantity is not positive |
| Portfolios.Portfolio.MarkPrice | src/execution/portfolio.ts:137-140 | only the mark of a known symbol changes |
| Portfolios.PositionIsNetOfFills | src/execution/portfolio.ts:65-150 | after any history a symbol has a position exactly when it was ever traded, and its quantity is what was bought less what was sold |
| Portfolios.Portfolio.Accumulate | src/execution/portfolio.ts:182-195 | adds one measure over every position |
| Portfolios.Portfolio.GetEquity | src/execution/portfolio.ts:174-180 | cash plus the marked value of every position |
| Portfolios.Portfolio.GetOpenPositions | src/execution/portfolio.ts:153-157 | the positions that are not flat, in order of first trade |
| PaperBrokers.ApplySlippage | src/execution/paperBroker.ts:288-292 | the price is the tick nearest beyond the price moved against the order by the slippage fraction, within half a paisa and a tick |
| PaperBrokers.ResolveFillPrice | src/execution/paperBroker.ts:254-285 | an order trades exactly when its trigger is reached and its limit allows the price; market and triggered stop orders at the slipped price, limit orders within their limit and a tick of the quote |
| PaperBrokers.SlipsByFraction | src/execution/paperBroker.ts:288-292 | the bounds of a slipped price follow for every price and fraction |
| PaperBrokers.Capacity | src/execution/paperBroker.ts:198-207 | without a volume there is no cap, with one the cap is the whole part of the participation |
| PaperBrokers.WorkOrder | src/execution/paperBroker.ts:177-240 | an order takes at most what remains of it, is filled exactly when nothing remains, and stops resting exactly when filled or immediate at a price it would trade at |
| PaperBrokers.PaperBroker.constructor | src/execution/paperBroker.ts:62-66 | nothing resting, nothing known |
| PaperBrokers.PaperBroker.SetClock | src/execution/paperBroker.ts:74-76 | only the clock changes |
| PaperBrokers.PaperBroker.Submit | src/execution/paperBroker.ts:89-138 | accepts or refuses as the acceptance function says, never filling |
| PaperBrokers.PaperBroker.Cancel | src/execution/paperBroker.ts:140-151 | a resting order is completed as cancelled; anything else is refused |
| PaperBrokers.PaperBroker.SetPrice | src/execution/paperBroker.ts:84-87 | every resting order of the symbol is worked once, in order of arrival |
| PaperBrokers.PaperBroker.WorkRestingOrders | src/execution/paperBroker.ts:170-246 | the in-place pass over the resting orders is the recursive pass of the specification |
| PaperBrokerRuns.EveryRunIsSound | src/execution/paperBroker.ts:84-246 | after any calls each order's quantity and average are those of its own fills, within the request and its limit, and cash is the sum of the cash flows |
| PaperBrokerRuns.AverageNeverBreachesLimit | src/execution/paperBroker.ts:216-229 | over any partial fills a limit order's average keeps its limit, stays between its prices and obeys the drift bound |
| PaperBrokerPrices.EveryExecutionIsFair | src/execution/paperBroker.ts:177-285 | after any calls every execution is one that its order allowed at the quote that caused it, at that order's fair price and at the broker's time |
| PaperBrokerPrices.EveryDueOrderTrades | src/execution/paperBroker.ts:84-240 | a quote executes every resting order that it is due for |
| PaperBrokerPrices.SlippageCosts | src/execution/paperBroker.ts:288-292 | at 10000 and a fraction of 0.0005 a purchase pays 10005 and a sale gets 9995 |
| PaperBrokerPrices.AcceptanceIsAboutTrading | src/execution/paperBroker.ts:89-117 | of new orders for a positive quantity the exchange refuses only such as no price executes, and accepts one such kind: a stop-limit whose limit lies short of its trigger |
| PaperBrokerPrices.RefusalChangesNothing | src/execution/paperBroker.ts:89-138 | a refused order changes nothing and is refused for good; an accepted one rests last, with nothing filled |
| Oms.FinalStatusIsKept | src/execution/oms.ts:36-47 | along any chain of legal moves a final status is kept |
| Oms.AttemptsEnd | src/execution/oms.ts:198-249 | the retry loop ends within the allowed calls and repeats only after retryable refusals |
| Oms.RetryChangesNothing | src/execution/oms.ts:238-242 | a retry leaves the order table as it was and only happens below the limit |
| Oms.SubmissionEndsAsAnswered | src/execution/oms.ts:198-249 | a submission calls until an answer is no retryable refusal or the retries are spent, and its order ends open, rejected or as staged as that last answer says |
| Oms.AcceptedIsNoted | src/execution/oms.ts:208-209 | an order the simulated exchange takes is counted as submitted, and nothing else is |
| Oms.RecentIsTheLastMinute | src/execution/oms.ts:374-379 | what is remembered are the submissions of the last minute, each as often as it was made |
| Oms.ForgettingIsUnseen | src/execution/oms.ts:374-379 | a later look sees what it would have seen without an earlier one |
| Oms.PaperBrokerNeverRetries | src/execution/paperBroker.ts:92-112 | the simulated exchange's first answer is final |
| Oms.OrderManager.constructor | src/execution/oms.ts:121-126 | no orders, no keys |
| Oms.OrderManager.BeginSubmit | src/execution/oms.ts:161-196 | a known key changes nothing; a new one is staged and registered before any call |
| Oms.OrderManager.OnReply | src/execution/oms.ts:208-248 | one reply concludes, parks or repeats the submission |
| Oms.OrderManager.SubmitRetrying | src/execution/oms.ts:161-250 | the whole submission against any sequence of replies, with the number of calls made |
| Oms.OrderManager.Submit | src/execution/oms.ts:161-250 | the submission against the simulated exchange |
| Oms.OrderManager.ApplyFill | src/execution/oms.ts:253-283 | a new execution advances quantity, average and status; a repeated one changes nothing; an unknown order or an illegal move is an error |
| Oms.OrderManager.FindOrder | src/execution/oms.ts:254 | looks an order up by platform id and then by broker id |
| Oms.OrderManager.AlreadySeen | src/execution/oms.ts:260-265 | whether an execution with the same time, quantity and price was folded in |
| Oms.OrderManager.Cancel | src/execution/oms.ts:285-295 | cancels at the exchange first and then here, or reports why not |
| Oms.OrderManager.RecentSubmissions | src/execution/oms.ts:374-379 | forgets submissions older than a minute |
| OmsProtocol.OnlyRateLimitRetriesAMutation | src/execution/zerodhaBroker.ts:225-286 | a mutating call is retryable exactly on 429, uncertain exactly on network failure, unreadable body or 5xx |
| OmsProtocol.OneIntentOneOrder | src/execution/oms.ts:161-250 | for every interleaving of submissions, replies, fills, cancellations and reconciliations: at most one order per key at the exchange, at most maxRetries + 1 calls, none after an acknowledgement, final refusal or uncertain outcome |
| OmsProtocol.SubmissionsAreAcknowledgements | src/execution/oms.ts:208-209 | after any events the submissions counted are the acknowledgements, one each, in order |
| OmsProtocol.Run | src/execution/oms.ts:161-358 | the protocol invariant holds after any events |
| OmsCancellations.GivenUpExactly | src/execution/oms.ts:285-295 | an order is cancelled here without the exchange's id exactly when a cancellation came before its acknowledgement |
| OmsCancellations.StrandedExactly | src/execution/oms.ts:198-295 | an order dead here is held by the exchange, with no id to reach it by, exactly when it was cancelled before its acknowledgement and the exchange took a call it did not deny |
| OmsCancellations.AcknowledgementThrowsExactly | src/execution/oms.ts:208-247 | an acknowledgement throws exactly when the order was filled, in part or whole, or cancelled in the meantime |
| OmsCancellations.CancelledOrderIsSentAgain | src/execution/oms.ts:198-247 | a cancelled order whose first call was rate limited is sent again, taken by the exchange, and throws here |
| Ledgers.ThreeLedgers | src/backtest/engine.ts:117-121 | after any events, with any volume caps, broker cash is portfolio cash, positions are the signed sums of executions, nothing is overfilled, and the order manager's quantity and average are the broker's exactly when no two executions of the order coincide |
| Ledgers.CappedQuotesCanCoincide | src/execution/oms.ts:258-266 | two equal capped quotes fill an order at the exchange, and the order manager folds the second away |
| Ledgers.Run | src/backtest/engine.ts:117-121 | the balance invariant holds after any sequence of submissions, cancellations, clock changes and quotes |
| Ledgers.DeliverOne | src/execution/oms.ts:253-283 | the next execution of a live order is always accepted and keeps the order manager mirroring the broker |
| Ledgers.FoldedQuantity | src/execution/oms.ts:258-266 | folding away repeats lowers the filled quantity exactly when something repeats |
| LedgersUncapped.UncappedLedgersTellSameStory | src/execution/paperBroker.ts:181-185 | without volume caps status, filled quantity and average are equal in both ledgers for every order in every reachable state |
| LedgersUncapped.UncappedRunIsWhole | src/execution/paperBroker.ts:170-246 | without volume caps no order is ever left partly filled |
| LedgersStatus.StatusesAgree | src/execution/paperBroker.ts:177-240 | with any caps the order manager's status of an order follows from the exchange's, and differs exactly when executions of a filled order coincide or when it was cancelled at the exchange alone |
| LedgersStatus.CancelledExactly | src/execution/oms.ts:285-295 | the order manager holds an order as cancelled exactly when a cancellation found it live here and resting at the exchange |
| LedgersStatus.DroppedExactly | src/execution/paperBroker.ts:177-198 | a quote cancels a live order exactly when it is immediate, untouched, at a price it would trade at, and without volume |
| LedgersStatus.DroppedOrderStaysOpen | src/execution/paperBroker.ts:190-208 | an immediate order without volume is cancelled at the exchange and open in the order manager |
| Sizing.SizePosition | src/risk/positionSizing.ts:53-115 | a size is a whole number of lots whose notional and risk are quantity times price and quantity times stop distance, or the refusal the inputs call for |
| Sizing.SizeIsGreatest | src/risk/positionSizing.ts:83-107 | a whole-lot quantity is within the size exactly when the risk budget, the position cap and the cash all pay for it |
| Sizing.SizeIsAffordable | src/risk/positionSizing.ts:83-114 | the loss at the stop is within the budget and the notional within both other caps |
| Sizing.ReportedCapBinds | src/risk/positionSizing.ts:100-107 | one more lot would break the cap reported as binding |
| Sizing.AtrStopLoss | src/risk/positionSizing.ts:124-135 | a stop is set exactly for a positive range, against the direction at the multiple of the range to the paisa, and never below one paisa |
| Sizing.StopIsOnTheLosingSide | src/risk/positionSizing.ts:124-135 | for a positive multiplier a long stop is at most the entry and a short one at least, strictly when the distance is a paisa or more and the floor does not act |
| Sizing.TrailStop | src/risk/positionSizing.ts:144-153 | the trailed stop is the tighter of the two |
| Risk.PureReductionShrinks | src/risk/engine.ts:73-85 | a pure reduction is exactly an order that shrinks the position without crossing zero |
| Risk.BreachesInMoney | src/risk/engine.ts:265-283 | the limits reported are breached by a loss of the day, or by equity that fell below its share of the peak, in money |
| Risk.ControlsObjectExactly | src/risk/engine.ts:243-311 | each code is reported exactly when its own limit is reached |
| Risk.CapsInMoney | src/risk/engine.ts:313-358 | the size caps admit a value exactly when it fits beside what is held under every fraction of equity, the allocation and the cash |
| Risk.ApprovalIsGreatest | src/risk/engine.ts:206-368 | a quantity is within the approved one exactly when no state control objects, it was asked for, and every size cap admits it |
| Risk.ApprovalIsStable | src/risk/engine.ts:206-368 | judging the approved quantity again approves exactly it |
| Risk.ShrinkIsLeast | src/risk/engine.ts:315-358 | scaling through every cap takes the least of what was asked for and what each cap pays for |
| Risk.RefusalNamesTheCap | src/risk/engine.ts:359-365 | an order refused for its size is refused under a control whose cap does not pay for one share |
| Risk.ReductionsAreNeverTrapped | src/risk/engine.ts:222-239 | a pure reduction is approved whole exactly on fresh data and a positive price |
| Risk.EngagedApprovesOnlyReductions | src/risk/engine.ts:243-248 | with the switch engaged only pure reductions pass |
| Risk.ApprovedFillKeepsCaps | src/risk/engine.ts:313-358 | filling an approved order at its reference price keeps gross, symbol and net exposure in cap, in cash |
| Risk.ExposureOfBook | src/risk/engine.ts:40-66 | the exposure snapshot adds up the book's open positions, whole and by symbol |
| RiskEngines.KillSwitch.Engage | src/risk/engine.ts:98-102 | the first engagement is kept |
| RiskEngines.KillSwitch.Release | src/risk/engine.ts:105-108 | only this disengages |
| RiskEngines.LossStreakBreaker.Record | src/risk/engine.ts:141-151 | a loss lengthens the streak and may trip it, anything else clears it |
| RiskEngines.LossStreakBreaker.EffectiveStreak | src/risk/engine.ts:159-165 | cools down once the pause is over |
| RiskEngines.LossStreakBreaker.Restore | src/risk/engine.ts:182-185 | takes the stored streak back |
| RiskEngines.BreakerIsAPause | src/risk/engine.ts:131-186 | after any history the breaker refuses exactly while the cooling-off period since it tripped lasts |
| RiskEngines.RiskEngine.MeasureExposure | src/risk/engine.ts:40-66 | the accumulating loop is the exposure function |
| RiskEngines.RiskEngine.HeldQuantity | src/risk/engine.ts:77-80 | the quantity held in a symbol |
| RiskEngines.RiskEngine.CountRecent | src/risk/engine.ts:292-294 | submissions within the last minute |
| RiskEngines.RiskEngine.CheckLosses | src/risk/engine.ts:265-283 | the breaches that Risk.BreachesInMoney states in money |
| RiskEngines.RiskEngine.CheckHaltConditions | src/risk/engine.ts:376-402 | reports the breaches and engages the switch when there are any |
| RiskEngines.RiskEngine.CheckState | src/risk/engine.ts:243-311 | every state control that objects, in order |
| RiskEngines.RiskEngine.ScaleDown | src/risk/engine.ts:315-358 | the quantity every size cap admits |
| RiskEngines.RiskEngine.Evaluate | src/risk/engine.ts:206-368 | the decision the approval lemmas are about |
| PipelineSafety.HaltSafety | src/pipeline/tradingPipeline.ts:157-321 | from the bar that breached a limit until release or restart, every order onBar or approve hands over is a pure reduction of the position then held |
| PipelineSafety.BreachHaltEndsAtRestart | src/runtime/tradingService.ts:175-185 | a halt caused by a breach, unlike an operator's stop, is gone after a restart |
| PipelineSafety.ExitsAlwaysPass | src/pipeline/tradingPipeline.ts:386-406 | an exit on fresh data is never refused and flattens exactly |
| PipelineSafety.EntriesRiskAtMostTheBudget | src/pipeline/tradingPipeline.ts:408-440 | whatever risk scales it to, an entry loses at its stop at most the budget it was sized for |
| PipelineSafety.EntriesAreWholeLotsExactly | src/pipeline/tradingPipeline.ts:205-271 | what onBar places is the least of the size and what the caps pay for, whole lots exactly when the caps pay for the size or end on a whole lot |
| PipelineEntries.EntryIsGreatest | src/pipeline/tradingPipeline.ts:157-271 | a quantity is within what a bar's entry places exactly when the gate allows, the symbol is not held, no limit on session or account is reached and every budget and exposure limit has room for it, in money |
| PipelineEntries.PlacedAsSignalled | src/pipeline/tradingPipeline.ts:205-271 | what is placed carries the signal's side, strategy and bar, and is staged exactly where approval is asked for |
| PipelineEntries.ApprovedAsStaged | src/pipeline/tradingPipeline.ts:280-319 | an approval hands over exactly what was staged under its key, if it is judged fit again, and unstages it either way; an unknown key changes nothing |
| PipelineEntries.ObservationKeepsTheMinute | src/pipeline/tradingPipeline.ts:364-376 | observing a bar keeps every order of the last minute counted, and ends a pause exactly when it is over |
| PipelineSafety.BrokenLotIsPlaced | src/pipeline/tradingPipeline.ts:205-271 | an entry sized at one lot of ten is handed over as five shares under a gross cap of half the equity |
| PipelineSafety.PeakIsHighestKept | src/pipeline/tradingPipeline.ts:121-169 | through any history the peak is the highest of the opening equity and every measured equity but those a restart lost, which are exactly the ones no snapshot followed in time |
| PipelineSafety.RestartKeepsExactly | src/runtime/tradingService.ts:207-208 | a restart keeps the day, its baseline, the streak and the staged orders exactly when none of them changed since the last snapshot |
| PipelineSafety.OnFileIsTheLastSnapshot | src/runtime/tradingService.ts:337-359 | after any history the store holds what the pipeline captured at the last snapshot, or nothing |
| PipelineSafety.DecidedOrderReturnsExactly | src/api/server.ts:558-576 | a restart stages an approved or declined order again exactly when the last snapshot still has it |
| PipelineSafety.ApprovedExitIsHandedTwice | src/pipeline/tradingPipeline.ts:280-332 | approve, restart, approve hands the same order over twice |
| PipelineRuns.HaltIsExact | src/pipeline/tradingPipeline.ts:171-177 | after any history the switch is engaged exactly when an operator's stop or a breach is outstanding |
| PipelineHalts.BarHaltsExactly | src/pipeline/tradingPipeline.ts:157-177 | in any history a bar engages a released switch exactly when the marked equity fell the daily limit below the equity the day began with, or the drawdown limit below the peak |
| PipelineHalts.DayIsRemembered | src/pipeline/tradingPipeline.ts:357-362 | the day and its first equity are those of the last bar of another day, or of the last snapshot before a restart |
| PipelineHalts.DayLossHalts | src/risk/engine.ts:265-271 | a loss of 21500 on a day that began with 1000000 halts at two per cent, whatever the peak |
| PipelineHalts.DayTurnsAtIndianMidnight | src/pipeline/tradingPipeline.ts:357-362 | the day turns at half past six in the evening of universal time |
| PipelineRuns.StoredStopIsExact | src/runtime/tradingService.ts:379-408 | the stored stop is set exactly when the last operator action was a stop |
| PipelineRuns.RestartsHaltedExactly | src/runtime/tradingService.ts:175-185 | a restart comes up halted exactly when the store still holds an operator's stop |
| PipelineRuns.Run | src/pipeline/tradingPipeline.ts:157-351 | every history leads to a valid state |
| Pipelines.RestoreUndoesCapture | src/pipeline/tradingPipeline.ts:121-149 | restoring a snapshot brings back all of it; the peak can only rise to present equity |
| TradingPipelines.TradingPipeline.constructor | src/pipeline/tradingPipeline.ts:94-108 | baselines start at the portfolio's equity |
| TradingPipelines.TradingPipeline.OnBar | src/pipeline/tradingPipeline.ts:157-271 | observe, judge, then stage or hand over, as the step function says |
| TradingPipelines.TradingPipeline.ObserveBar | src/pipeline/tradingPipeline.ts:162-177 | rolls the day, marks, raises the peak and checks the halt conditions |
| TradingPipelines.TradingPipeline.PlanOrder | src/pipeline/tradingPipeline.ts:381-440 | the order a signal calls for, or none |
| TradingPipelines.TradingPipeline.Decide | src/pipeline/tradingPipeline.ts:189-259 | gate, size, risk check and staging |
| TradingPipelines.TradingPipeline.ReleaseStaged | src/pipeline/tradingPipeline.ts:280-321 | re-judges a staged order and hands over or drops it |
| TradingPipelines.TradingPipeline.RollDay | src/pipeline/tradingPipeline.ts:357-362 | a new Indian day takes a new baseline |
| TradingPipelines.TradingPipeline.BuildAccountState | src/pipeline/tradingPipeline.ts:364-378 | the account the risk engine judges against |
| TradingPipelines.TradingPipeline.CaptureState | src/pipeline/tradingPipeline.ts:121-129 | the snapshot of what a restart cannot rebuild |
| TradingPipelines.TradingPipeline.RestoreState | src/pipeline/tradingPipeline.ts:139-149 | takes a snapshot back |
| TradingPipelines.TradingPipeline.EmergencyStop | src/pipeline/tradingPipeline.ts:338-341 | engages the switch |
| TradingPipelines.TradingPipeline.ReleaseEmergencyStop | src/pipeline/tradingPipeline.ts:343-346 | releases it |
| TradingPipelines.TradingPipeline.RecordTradeOutcome | src/pipeline/tradingPipeline.ts:349-351 | feeds the breaker |
| BacktestRuns.EveryBarIsGuarded | src/backtest/engine.ts:144-244 | after every bar of every run a position is open exactly when a stop is set on its side, every order opened from flat or flattened exactly, and nothing rests at the broker |
| BacktestRuns.StopsGuardEveryBar | src/backtest/engine.ts:168-203 | a position open at a bar's end was guarded all bar by a stop neither extreme reached, and stops only tighten while it lives |
| BacktestExecutions.BarsExecuteWhatWasDecided | src/backtest/engine.ts:144-179 | across any bar of any run the exchange executes the order decided on the bar before, whole, at the open, and the stop that was ahead, whole, at the extreme that reached it, and nothing else |
| BacktestExecutions.EveryBarExecutesFairly | src/backtest/engine.ts:155-179 | every execution of a bar carries its time; one of no stop order is at the slipped open, one of a stop order at the slipped low or high that reached the stop |
| BacktestCurves.PointsAreWorth | src/backtest/engine.ts:181-203 | the point of every bar is the opening cash, what the executions so far moved, and what they left in hand at the close; a bar counts as in the market when something is left |
| BacktestCurves.RunsKeepRecords | src/backtest/engine.ts:149-203 | the peak is the highest of the opening cash and the points, the day's baseline the last point before the day's first bar, and the breaker has heard every closed trade once and in order |
| BacktestCurves.DayTurnsAtUniversalMidnight | src/backtest/engine.ts:149-153 | the backtest's day turns at midnight of universal time |
| BacktestRates.OrdersAreExecutions | src/backtest/engine.ts:228-236 | the orders counted for the last minute are those executed in it |
| BacktestDecisions.StopsTrailTheClose | src/backtest/engine.ts:195-203 | a stop left behind is the stop that was ahead, or follows the close at the multiple of the bar's range where that is tighter |
| BacktestDecisions.DecisionsFollowSignals | src/backtest/engine.ts:205-244 | nothing is pending without an allowed signal, an exit flattens what the executions left, and an entry is the greatest quantity its limits admit, judged by points, executions and trades |
| BacktestDecisions.EntryIsGreatest | src/backtest/engine.ts:268-413 | from flat, a quantity is within the planned one exactly when no limit is reached, some whole-lot size of at least it is paid for by the risk budget, the position limit and the cash, and every exposure limit admits it |
| BacktestRuns.SentIsFilled | src/backtest/engine.ts:156-161 | an order sent and then worked at the open moves the position by exactly its signed quantity |
| BacktestRuns.TrailedStopTightens | src/backtest/engine.ts:451-461 | the trailing update never loosens a stop |
| Backtests.Publish | src/backtest/engine.ts:117-121 | publishing a price changes the ledgers and nothing else |
| Backtests.Run | src/backtest/engine.ts:96-265 | every run stays well formed, bar by bar |
| BacktestEngines.RunBacktest | src/backtest/engine.ts:96-265 | the loop over objects reports exactly what the run of the specification ends with, or the sizing error that ended it |
| BacktestEngines.BacktestRun.constructor | src/backtest/engine.ts:102-142 | the collaborators are wired and every baseline is the opening cash |
| BacktestEngines.BacktestRun.PublishPrice | src/backtest/engine.ts:117-121 | every execution of a price reaches the order manager and then the portfolio |
| BacktestEngines.BacktestRun.SendOrder | src/backtest/engine.ts:398-409 | an order goes through the order manager |
| BacktestEngines.BacktestRun.BeginNextBar | src/backtest/engine.ts:145-153 | the clock moves and a new day takes a new baseline |
| BacktestEngines.BacktestRun.FillPending | src/backtest/engine.ts:155-166 | what the last bar decided is sent and worked at the open |
| BacktestEngines.BacktestRun.SubmitPendingOrder | src/backtest/engine.ts:389-410 | whole lots only, and nothing for less than one |
| BacktestEngines.BacktestRun.WalkExtremes | src/backtest/engine.ts:168-179 | the adverse extreme first |
| BacktestEngines.BacktestRun.EnforceStopAt | src/backtest/engine.ts:419-448 | a reached stop closes the whole position at the price that reached it |
| BacktestEngines.BacktestRun.RecordNewTrades | src/backtest/engine.ts:184-189 | each closed trade reaches the breaker once |
| BacktestEngines.BacktestRun.CloseThisBar | src/backtest/engine.ts:181-203 | the equity point, the peak and the stop's ratchet |
| BacktestEngines.BacktestRun.NoteEquity | src/backtest/engine.ts:191-193 | one point and the running peak |
| BacktestEngines.BacktestRun.RatchetStop | src/backtest/engine.ts:195-203 | bars in market are counted, stops trail, and a flat book has no stop |
| BacktestEngines.BacktestRun.PlanNext | src/backtest/engine.ts:268-387 | the sized and judged order a signal leads to |
| BacktestEngines.BacktestRun.DecideNext | src/backtest/engine.ts:216-243 | hears a signal, asks the gate, and plans |
| BacktestEngines.BacktestRun.RunBar | src/backtest/engine.ts:144-244 | one whole bar |
| NoLookahead.CurvesShareThePrefix | src/backtest/engine.ts:96-265 | two histories with a common prefix have equity curves that agree at every index of it, for causal strategies and gates |
| NoLookahead.RunsAgree | src/backtest/engine.ts:144-244 | before the last shared bar both runs are in the same state, orders and all, or failed alike |
| NoLookahead.EntriesSeeOnlyTheOpen | src/backtest/engine.ts:155-166 | two histories that share some bars and the time and open of the next execute the same entry or exit on it, whatever its high, low and close |
| NoLookahead.TruncationOnlyTruncates | src/backtest/engine.ts:96-265 | cutting a history short only cuts its curve short |
| NoLookahead.PointsAreFinal | src/backtest/engine.ts:193 | a recorded point is never revised |
| NoLookahead.MomentumIsCausal | src/strategy/momentum.ts:76-166 | the signal at a bar is the same whatever bars follow, although indicators are prepared over the whole series |
| NoLookahead.VolatilityIsCausal | src/strategy/volatility.ts:73-180 | the same for the volatility strategy, squeeze window included |
| NoLookahead.MomentumBacktestsSeeNoFuture | src/backtest/engine.ts:96-265 | the prefix theorem for every momentum setting |
| NoLookahead.VolatilityBacktestsSeeNoFuture | src/backtest/engine.ts:96-265 | the prefix theorem for every volatility setting |
| MomentumStrategies.Prepare | src/strategy/momentum.ts:76-89 | the loops compute the lines of the specification |
| MomentumStrategies.EntriesBreakTheChannel | src/strategy/momentum.ts:95-148 | an entry closes beyond every bar of the channel that ended the bar before |
| MomentumStrategies.SignalsFitThePosition | src/strategy/momentum.ts:117-166 | exits answer open positions, entries flat ones, and exactly entries carry a stop |
| MomentumStrategies.SignalsExactly | src/strategy/momentum.ts:91-166 | an exit is called exactly when the close leaves the exit channel against the position, an entry exactly from flat, beyond the channel and confirmed by the change |
| MomentumStrategies.EntriesStopAtTheirRange | src/strategy/momentum.ts:150-166 | an entry refers to its close, and its stop lies on the losing side at the multiple of its own bar's range |
| MomentumStrategies.StrengthIsConfirmation | src/strategy/momentum.ts:117-166 | an exit has full strength, an entry its confirmation within nothing and one |
| MomentumStrategies.ConfirmationCountsChanges | src/strategy/momentum.ts:150-158 | confirmation is full from three times the least change on, and its share of that below |
| MomentumStrategies.PreparedIsPrefixStable | src/strategy/momentum.ts:76-89 | every prepared line of two histories agrees on their common prefix |
| VolatilityStrategies.Prepare | src/strategy/volatility.ts:73-112 | the loops compute the lines and squeezes of the specification |
| VolatilityStrategies.IsSqueezed | src/strategy/volatility.ts:88-103 | collecting, sorting and comparing computes the squeeze of the prefix |
| VolatilityStrategies.CutoffIsRank | src/strategy/volatility.ts:99-102 | comparing with a sorted index is counting how many values lie below |
| VolatilityStrategies.SqueezeIsRank | src/strategy/volatility.ts:88-103 | a bar is squeezed exactly when the window is half full and no more widths lie below than the percentile allows |
| VolatilityStrategies.EntriesFollowASqueeze | src/strategy/volatility.ts:154-161 | entries come only from flat, out of a squeeze one bar back, and beyond a band |
| VolatilityStrategies.SignalsExactly | src/strategy/volatility.ts:114-180 | an exit is called exactly when the close is back across the middle, an entry exactly from flat, out of a squeeze on the bar before and beyond a band |
| VolatilityStrategies.EntriesStopAtTheirRange | src/strategy/volatility.ts:163-180 | an entry refers to its close, and its stop lies on the losing side at the multiple of its own bar's range |
| VolatilityStrategies.StrengthIsWidth | src/strategy/volatility.ts:163-180 | an exit has full strength, an entry half of it and a tenth more for every hundredth of band width |
| VolatilityStrategies.WidthIsTheGap | src/strategy/volatility.ts:76-86 | a width times the middle is how far the bands lie apart |
| VolatilityStrategies.CutoffIndex | src/strategy/volatility.ts:99-102 | the cutoff is the whole part of the percentile of the window, or its last index |
| VolatilityStrategies.PreparedIsPrefixStable | src/strategy/volatility.ts:73-112 | every prepared line and squeeze of two histories agrees on their common prefix |
| Strategies.ReadFields | src/strategy/types.ts:54-64 | the three price series of the candles |
| Indicators.LinesArePrefixStable | src/features/indicators.ts:1-8 | a line of values computed from prefixes is the same on a shared prefix |
| Indicators.WindowSlides | src/features/indicators.ts:33-37 | adding the newest and dropping the oldest keeps a running sum equal to the window's |
| Indicators.Sma | src/features/indicators.ts:28-40 | the rolling sum gives the mean of the window ending at each index |
| Indicators.Smooth | src/features/indicators.ts:49-87 | both recursive averages, seeded with the mean of the first period |
| Indicators.SmoothedWithin | src/features/indicators.ts:49-87 | a recursive average stays between bounds on its inputs |
| Indicators.AverageStartsAtTheMean | src/features/indicators.ts:49-87 | a recursive average starts from the mean of its first period |
| Indicators.AverageMovesByItsShare | src/features/indicators.ts:49-87 | from then on it moves toward every new value by two parts of the period and one of the distance, or by one part of the period |
| Indicators.Stdev | src/features/indicators.ts:90-120 | the rolling sums give the deviation of the window ending at each index |
| Indicators.VarianceIsMeanSquaredDeviation | src/features/indicators.ts:109-115 | over exact numbers the clamped formula is the mean squared distance from the mean, so the clamp never acts |
| Indicators.Rsi | src/features/indicators.ts:127-159 | the running averages give Wilder's index at each index |
| Indicators.StrengthIsBounded | src/features/indicators.ts:122-159 | the index lies in [0, 100] and is 100 exactly when the price never fell, or over one period when the last move was no fall |
| Indicators.StrengthIsShareOfGains | src/features/indicators.ts:140-156 | the index is the share of gains in all moves, out of a hundred |
| Indicators.OldFallIsRemembered | src/features/indicators.ts:122-156 | one fall before the last window keeps the index below 100 |
| Indicators.FallThenRises | src/features/indicators.ts:122-156 | a series whose last window holds no loss and whose index is below 100 |
| Indicators.TrueRange | src/features/indicators.ts:168-188 | each bar's true range |
| Indicators.TrueRangeIsSpan | src/features/indicators.ts:167-188 | the true range is the span of the bar and the previous close together |
| Indicators.Atr | src/features/indicators.ts:196-198 | Wilder's average of the true ranges |
| Indicators.Bollinger | src/features/indicators.ts:206-222 | the three bands of the window ending at each index |
| Indicators.BandsStraddleTheMean | src/features/indicators.ts:215-219 | the bands lie equally far on both sides of the mean |
| Indicators.BandsReachTheirDeviations | src/features/indicators.ts:206-222 | with a true square root a band lies the multiplier of deviations from the mean |
| Indicators.Roc | src/features/indicators.ts:244-255 | the change over the period, undefined past a zero |
| Indicators.ChangeLeadsToThePresent | src/features/indicators.ts:244-255 | the past value moved by its change is the present one |
| Indicators.Channel | src/features/indicators.ts:307-337 | the highest or lowest value of the window ending at each index |
| Indicators.BestIsBest | src/features/indicators.ts:311-317 | the edge is one of the window's values and none beats it |
| Indicators.Macd | src/features/indicators.ts:263-304 | the gap, its signal written back at its offset, and the histogram, each a value of its own prefix |
| Indicators.ConvergenceAddsUp | src/features/indicators.ts:263-304 | slow average and gap make the fast one, signal and histogram the gap |
| Indicators.SignalAt | src/features/indicators.ts:284-301 | averaging the defined stretch and writing it back gives each index the average of its own prefix |
| Options.WorstCaseIsExact | src/options/strategies.ts:131-169 | for all five constructors maxLoss is attained and no settlement does worse |
| Options.BestCaseIsExact | src/options/strategies.ts:131-169 | for the two spreads and the condor maxProfit is attained and no settlement does better |
| Options.LongVolatilityIsUnbounded | src/options/strategies.ts:270-300 | a long straddle or strangle beats any bound at some settlement |
| Options.PaysByItsStrikes | src/options/strategies.ts:50-72 | what each structure pays at every settlement, by strikes and size alone, rounded to the paisa |
| Options.BuiltExactly | src/options/strategies.ts:232-328 | a structure is built exactly when its strikes are in order, and is then the one asked for |
| Options.WorstCaseInNumbers | src/options/strategies.ts:131-169 | the greatest loss as a number in strikes, size and cost |
| Options.BestCaseInNumbers | src/options/strategies.ts:131-169 | the greatest profit of the two spreads and the condor as a number in strikes, size and cost |
| Options.Payoff | src/options/strategies.ts:66-72 | the payoff loop is the sum over the legs |
| Options.Analyse | src/options/strategies.ts:131-169 | the extremes over the sampled settlements, with the break-evens |
| BreakEvens.BreakEvensAreExact | src/options/strategies.ts:178-212 | on the tick grid the search succeeds and reports exactly the named prices, once each, in order |
| BreakEvens.ReportedPricesBreakEven | src/options/strategies.ts:192-209 | a reported price and the paisa below have results of opposite sign, or none |
| BreakEvens.SignChangesAreReported | src/options/strategies.ts:186-209 | every strict sign change between the bounds is reported |
| BreakEvens.BisectionConverges | src/options/strategies.ts:199-208 | the bisection ends on a neighbouring pair within its allowance |
| BreakEvens.SearchFailsExactly | src/options/strategies.ts:178-212 | for any positive strikes the search fails exactly when the lowest bound breaks even off whole paise, or the result changes sign only past the last whole price |
| BreakEvens.OnTickNeverFails | src/options/strategies.ts:178-212 | on the tick grid it never fails |
| BreakEvens.OffTickLowerEndFails | src/options/strategies.ts:184-196 | a straddle whose lowest bound, 5.6 paise, breaks even |
| BreakEvens.OffTickUpperEndFails | src/options/strategies.ts:184-209 | ten straddles that cross zero between eight paise and the last bound, 8.4 |
| BreakEvens.BisectLoop | src/options/strategies.ts:199-208 | the loop is the bisection function |
| BreakEvens.ScanSegment | src/options/strategies.ts:189-209 | one segment between neighbouring bounds |
| BreakEvens.FindAll | src/options/strategies.ts:178-212 | the whole scan, sorted and without repeats |
| Ohlc.AggregationCommutes | src/marketdata/ohlc.ts:56-98 | aggregating finely and then resampling is aggregating coarsely, for any ticks |
| Ohlc.ResamplingThroughCommutes | src/marketdata/ohlc.ts:131-170 | resampling through an intermediate interval is resampling directly |
| Ohlc.ResamplingComposes | src/marketdata/ohlc.ts:145-169 | the same for the folds themselves, in any order of candles |
| Ohlc.ResamplingConserves | src/marketdata/ohlc.ts:145-169 | volume, first, last, highest and lowest are conserved |
| Ohlc.ResampleFailsExactly | src/marketdata/ohlc.ts:131-140 | it fails exactly for a shorter target |
| Ohlc.BarsAreBuckets | src/marketdata/ohlc.ts:22-25 | in time order the bars are the occupied buckets, each summing up its own candles |
| Ohlc.StreamBarsAreBuckets | src/marketdata/ohlc.ts:56-98 | the aggregator's bars are the occupied buckets of the ticks it took |
| Ohlc.StreamsConserveTrades | src/marketdata/ohlc.ts:56-98 | however a stream falls into bars, they amount to the trades it took: first, highest, lowest and last price, and the quantity |
| Ohlc.BucketHoldsItsMoment | src/marketdata/ohlc.ts:22-25 | a bucket starts on a multiple of its interval and holds the moments until the next |
| Ohlc.IntervalsDivideTheDay | src/marketdata/ohlc.ts:13-19 | a day is 24 hours, 96 quarters, 288 times five minutes and 1440 minutes |
| OhlcFlushes.ResamplingHealsFlushes | src/marketdata/ohlc.ts:93-169 | wherever a stream is flushed, resampling its bars gives what aggregating the same ticks coarsely without a flush gives |
| OhlcFlushes.FlushesSplitExactly | src/marketdata/ohlc.ts:56-98 | flushing adds one bar for every tick that follows a flush in the bucket flushed, and changes nothing exactly when there is none |
| OhlcFlushes.FlushSplitsABar | src/marketdata/ohlc.ts:56-98 | two ticks of one bucket around a flush make two bars of one start |
| Ohlc.CandleAggregator.constructor | src/marketdata/ohlc.ts:43-50 | no bar, no tick yet |
| Ohlc.CandleAggregator.Push | src/marketdata/ohlc.ts:56-85 | folds a tick in, completes a bar, or refuses |
| Ohlc.CandleAggregator.Flush | src/marketdata/ohlc.ts:93-98 | closes the bar in progress |
| Ohlc.ResampleLoop | src/marketdata/ohlc.ts:131-170 | the loop is the fold |
| Ticker.ParserInvertsWriter | src/marketdata/kiteTicker.ts:83-106 | parsing a written frame gives the decodings of its packets in order |
| Ticker.EveryPacketDecodesExactly | src/marketdata/kiteTicker.ts:93-103 | every packet of a written frame is decoded exactly when no empty one has a decodable one behind it |
| Ticker.EmptyPacketHidesTheRest | src/marketdata/kiteTicker.ts:98 | one empty packet hides the price behind it |
| Ticker.TruncatedFrames | src/marketdata/kiteTicker.ts:93-103 | parsing a truncation gives a prefix of parsing the whole |
| Ticker.ParseTickerFrame | src/marketdata/kiteTicker.ts:83-106 | the loop is the parser, and no read leaves the buffer |
| Ticker.LtpDecodes | __tests__/liveFeed.test.ts:52-57 | a written last-price packet decodes to its fields |
| Ticker.QuoteDecodes | __tests__/liveFeed.test.ts:24-36 | a written quote packet decodes to its fields |
| Ticker.FullDecodes | __tests__/liveFeed.test.ts:38-50 | a written full packet decodes to its fields and clock |
| QueueRuns.QueueNeverLosesWork | src/messaging/queue.ts:68-173 | with any workers dying between calls or inside claim, work enqueued and not completed is in some list, and nothing runs early |
| QueueRuns.AttemptsAreBounded | src/messaging/queue.ts:130-150 | live copies have attempts to spare and dead ones spent exactly the allowance |
| QueueTimes.FirstInFirstOut | src/messaging/queue.ts:68-173 | whatever happens later, jobs are served in the order in which they stand in line, and what joins the line joins it at its end |
| QueueTimes.NothingRunsEarly | src/messaging/queue.ts:68-150 | in every reachable state a copy was asked for by an enqueue, no sooner than its delay, or by a failure, no sooner than its pause, and none runs sooner; every dead letter tells which failure buried it |
| QueueTimes.BackoffDoubles | src/messaging/queue.ts:146 | the pause is the base, doubled for every further attempt, up to the most |
| QueueTimes.RecoveryTakesExactlyTheStale | src/messaging/queue.ts:156-173 | recovery leaves a job with its worker exactly when its id was last claimed less than the timeout ago, and puts it back in line otherwise |
| QueueRuns.NoAttemptsBreaksTheBound | src/messaging/queue.ts:130-150 | the bound fails when no attempt is allowed |
| QueueRuns.DyingInBetweenLosesTheJob | src/messaging/queue.ts:131-168 | a death between the commands of fail or of recoverAbandoned loses the job exactly when no other copy of its work exists |
| QueueRuns.OnlyCopyIsLost | src/messaging/queue.ts:131-146 | a queue holding one claimed job forgets it |
| Queues.RecoveryLeavesOnlyFresh | src/messaging/queue.ts:156-172 | after recovery only fresh claims are in processing and no entry is lost |
| Queues.RedisQueue.Enqueue | src/messaging/queue.ts:68-84 | a job enters ready, or delayed until its time |
| Queues.RedisQueue.MoveDue | src/messaging/queue.ts:87-98 | every due job moves to ready |
| Queues.RedisQueue.Claim | src/messaging/queue.ts:106-116 | the oldest ready job moves to processing and its claim is stamped |
| Queues.RedisQueue.Complete | src/messaging/queue.ts:118-122 | the job and its claim go away |
| Queues.RedisQueue.Fail | src/messaging/queue.ts:130-150 | the job is delayed for another attempt or buried |
| Queues.RedisQueue.RecoverAbandoned | src/messaging/queue.ts:156-173 | stale and unstamped jobs return to ready |
| ReplayRuns.RestartKeepsCashAndQuantities | src/runtime/tradingService.ts:187-192 | at any moment of any run a restart would rebuild the live cash and quantities plus exactly what the refused fills and the fills in flight would have moved |
| ReplayRuns.NothingIsBookedTwice | src/persistence/memory.ts:84-90 | over deliveries, reconciliations and restarts no key is booked twice |
| ReplayRuns.RedeliveryChangesNothingExactly | src/runtime/tradingService.ts:287-291 | a fill coming back by either path changes nothing exactly when a fill of its key is stored |
| ReplayRuns.RedeliveryChangesNothing | src/runtime/tradingService.ts:256-291 | a fill that arrived in any history and is no longer waiting changes nothing when it comes back by either path, whatever followed, as long as the tables name the same order for it |
| ReplayRuns.UninterruptedIsDelivered | src/runtime/tradingService.ts:287-311 | the pieces of a delivery in a row are the delivery that nothing interrupts |
| ReplayOrder.RestartKeepsHolding | src/runtime/tradingService.ts:187-189 | a symbol's quantity, average and realised profit are rebuilt when its own fills were stored in time order, booked in stored order, not refused and not in flight |
| ReplayOrder.RestartEqualsLive | src/runtime/tradingService.ts:187-189 | with every symbol so, cash, positions, closed trades and commission are rebuilt too |
| ReplayOrder.RestartRestoresEquity | src/runtime/tradingService.ts:187-192 | and the stored marks of the open positions bring back the very equity |
| ReplayOrder.NothingLostExactly | src/runtime/tradingService.ts:300-301 | the live books miss no fill exactly when none met the order manager's guard since the process started |
| ReplayOrder.RefusedFillIsMissed | src/runtime/tradingService.ts:287-311 | any order manager that refuses a fill makes the live books miss it until a restart |
| ReplayOrder.CancelledOrderRefuses | src/execution/oms.ts:253-295 | submitting a market order and cancelling it makes the order manager refuse every execution of it |
| ReplayOrder.LateFillIsMissed | src/runtime/tradingService.ts:287-311 | a late fill of that order is stored, missed by the live books, and back after a restart |
| ReplayOrder.OutOfOrderChangesAverages | src/persistence/memory.ts:92-94 | out of time order averages can differ after a restart |
| ReplayOrder.SortWithinView | src/persistence/memory.ts:92-94 | sorting all fills sorts the fills of each symbol |
| ReplayRuns.Run | src/runtime/tradingService.ts:287-328 | after any events every stored fill is booked, refused or in flight, as often as it was stored, and the books hold exactly the booked ones |
| Replays.TotalsIgnoreOrder | src/execution/portfolio.ts:65-75 | permuting fills moves no cash and no quantity |
| Replays.SortKeepsOrder | src/persistence/memory.ts:92-94 | fills stored in time order are replayed in that order |
| Replays.SortSorts | src/persistence/memory.ts:92-94 | whatever order fills were stored in, they are replayed in time order |
| Replays.RefusedExactly | src/execution/oms.ts:253-283 | a fill is kept from the books exactly when its order is known, the execution is new, and the order is cancelled, rejected, or filled and left short by it |
| Replays.DeliveryRefusedExactly | src/runtime/tradingService.ts:287-311 | a delivery is ignored exactly for a stored key and refused exactly on that guard; what it refuses is stored all the same |
| Replays.AppliedIsWritten | src/runtime/tradingService.ts:313-335 | a fill the order manager takes is written through to the order's row, unless its key belongs to another row; no other row changes |
| Replays.PathsAgreeExactly | src/runtime/tradingService.ts:256-266 | stream and reconciliation file a fill under one key unless its id names one order here and another's at the broker |
| Replays.SecondArrivalExactly | src/monitoring/reconciliation.ts:126-141 | a second arrival, by either path, is stored and booked again exactly when the tables now name another order and nothing is stored under that one |
| Replays.LateBrokerIdDoublesTheFill | src/monitoring/reconciliation.ts:126-141 | the instance: the table learns the broker id after the fill, and the reconciliation books it again |
| TradingServices.ReconcilingTwiceIsReconcilingOnce | src/monitoring/reconciliation.ts:126-148 | a second reconciliation of the same fills adopts nothing |
| TradingServices.MemoryFillRepository.AppendFill | src/persistence/memory.ts:84-90 | stores a fill once per key |
| TradingServices.MemoryFillRepository.ReadSince | src/persistence/memory.ts:92-94 | fills from a moment on, sorted by time |
| TradingServices.MemoryOrderRepository.Insert | src/persistence/memory.ts:37-42 | one order per key |
| TradingServices.MemoryOrderRepository.Persist | src/runtime/tradingService.ts:330-335 | inserts or updates |
| TradingServices.MemoryOrderRepository.FindByBrokerOrderId | src/persistence/memory.ts:58-63 | the first order the broker knows by that id |
| TradingServices.TradingService.Start | src/runtime/tradingService.ts:187-192 | rebuilds the portfolio from the stored fills and marks it from the stored rows |
| TradingServices.TradingService.ResolveFill | src/runtime/tradingService.ts:256-266 | translates the broker's order id |
| TradingServices.TradingService.ApplyFill | src/runtime/tradingService.ts:287-311 | stores, then folds, then books, or stops where the code stops, when nothing interrupts it |
| TradingServices.TradingService.ResumeFill | src/runtime/tradingService.ts:300-316 | the piece after storing: parked, booked or refused |
| TradingServices.TradingService.PersistOrder | src/runtime/tradingService.ts:313-335 | writes the order the manager holds to the order table |
| TradingServices.TradingService.AdoptFill | src/monitoring/reconciliation.ts:130-141 | books a fill the store had not seen |
| TradingServices.TradingService.AdoptAll | src/monitoring/reconciliation.ts:126-148 | the adoption loop |
| Leases.LeaseIsExclusive | src/persistence/tickLease.ts:64-138 | with arbitrary delay between reading the clock and the statement, no two owners hold live handles |
| Leases.ExpiredIsReclaimed | src/persistence/tickLease.ts:68-84 | a dead invocation blocks nobody past its expiry |
| Leases.ReleaseFreesTheLease | src/persistence/tickLease.ts:111-117 | giving a lease back frees it at once for everybody, and only its owner can |
| Leases.OverlappingRenewalsShortenTheLease | src/persistence/tickLease.ts:94-103 | of two renewals of one owner in flight together the last to run is stored, so the lease is shortened exactly when its reading is the older one |
| Leases.RenewalShortensExactly | src/persistence/tickLease.ts:94-103 | a renewal moves the stored expiry back exactly when it goes through on a reading that old |
| Leases.RenewalsOneAtATimeNeverShorten | src/persistence/tickLease.ts:94-103 | in every history a renewal running alone never moves the expiry back |
| Leases.ShortenedLeaseIsTakenEarly | src/persistence/tickLease.ts:68-103 | a rival takes the shortened lease while the longer promise still runs |
| Leases.TickLease.Acquire | src/persistence/tickLease.ts:64-85 | one conditional overwrite of the row |
| Leases.TickLease.Renew | src/persistence/tickLease.ts:94-103 | extends only a row still held and unexpired |
| Leases.TickLease.Release | src/persistence/tickLease.ts:111-117 | expires the row of this owner |
| SquareOffs.SquareOffHappensOnce | src/serverless.ts:388-427 | over any ticks, crashes and restarts all exits of one day come from one invocation and no position is exited twice |
| SquareOffs.SecondAttemptSendsNothing | src/runtime/runner.ts:234-255 | a second attempt on the same day sends nothing, even after a restart |
| SquareOffs.ExitsFlattenEverything | src/runtime/runner.ts:264-282 | every open position gets an exit that flattens exactly it, and nothing else is sent |
| SquareOffs.LiveRunner.MarkSquaredOff | src/runtime/runner.ts:214-217 | the day is remembered and stored |
| SquareOffs.LiveRunner.SquareOff | src/runtime/runner.ts:234-282 | records the day before sending one exit per open position |
| Audit.TamperEvident | src/audit/log.ts:158-173 | logs of one length that verify from one start and share a head are the same log, or the hash collides |
| Audit.TamperEvidentAnyLength | src/audit/log.ts:158-173 | the same without equal lengths, unless something hashes to the start |
| Audit.DeletionIsReported | src/audit/log.ts:163-170 | deleting a record that is not last is reported at its successor, except exactly when both hashes coincide |
| Audit.DeletionEscapesOnlyByCollision | src/audit/log.ts:163-170 | that exception needs a collision |
| Audit.EditIsDetected | src/audit/log.ts:163-170 | rewriting any record but the last is detected, or the hash collides |
| Audit.VerifiesExactlyIntact | src/audit/log.ts:158-173 | the check passes exactly on an intact chain |
| Audit.AppendedLogsVerify | src/audit/log.ts:118-137 | appending keeps a chain verifying and counting |
| Audit.ResumingIsSeamless | src/audit/log.ts:110-116 | stopping and resuming gives the records of one process |
| Audit.RestartsFormOneChain | src/audit/log.ts:110-137 | over any restarts the stored records form one contiguous verifying chain |
| Audit.InMemoryAuditLog.ResumeFrom | src/audit/log.ts:110-116 | continues a chain, refused once something was appended |
| Audit.InMemoryAuditLog.AppendEntry | src/audit/log.ts:118-137 | appends one linked record |
| Audit.InMemoryAuditLog.FirstBroken | src/audit/log.ts:158-173 | the loop is the chain check |
| Sha256.PaddedLengthIsLeast | src/shims/nodeCrypto.browser.ts:34-39 | the padded length is the least multiple of 64 that is at least n + 9 |
| Sha256.PaddingIsInjective | src/shims/nodeCrypto.browser.ts:34-46 | no two messages share a padded form |
| Sha256.ShiftsRotate | src/shims/nodeCrypto.browser.ts:25-27 | two shifts make a rotation for every amount used |
| Sha256Vectors.RoundConstantsAreCubeRoots | src/shims/nodeCrypto.browser.ts:14-23 | every round constant is the first thirty-two bits of the fractional part of the cube root of its own prime |
| Sha256Vectors.InitialValueIsSquareRoots | src/shims/nodeCrypto.browser.ts:30-32 | every initial word is that of the square root of its own prime |
| Sha256Vectors.AbcDigest | src/shims/nodeCrypto.browser.ts:29-93 | the digest of the three bytes of "abc" is the one FIPS 180-4 publishes |
| Sha256Shim.ShiftedLengthIsExact | src/shims/nodeCrypto.browser.ts:37 | the shift formula is that length exactly while it is below 2^31 |
| Sha256Shim.PadInPlace | src/shims/nodeCrypto.browser.ts:36-45 | the buffer becomes the padding of section 5.1.1 of FIPS 180-4 |
| Sha256Shim.FillSchedule | src/shims/nodeCrypto.browser.ts:50-58 | the array holds the message schedule |
| Sha256Shim.CompressBlock | src/shims/nodeCrypto.browser.ts:60-87 | sixty-four in-place rounds are those of section 6.2.2 |
| Sha256Shim.AddInto | src/shims/nodeCrypto.browser.ts:80-87 | the working variables are added to the hash value |
| Sha256Shim.HashBytes | src/shims/nodeCrypto.browser.ts:29-93 | the digest of any message whose padded length fits, nothing beyond |
| Sha256Shim.Hash.Update | src/shims/nodeCrypto.browser.ts:98-101 | appends to the message |
| Sha256Shim.Hash.DigestHex | src/shims/nodeCrypto.browser.ts:103-117 | chunked updates hash the concatenation |

## Left out

- `typicalPrice` and the other one-line helpers of candles: easy members.
- Option pricing, greeks and implied volatility: the cost of a structure is an arbitrary input. Leg symbols are dropped; lots and lot sizes are naturals; tick-grid theorems take positive strikes below the safe-integer bound.
- The model gate of the inference engine: an arbitrary function of signal, candles and index, without drift state.
- Performance metrics, equity statistics, audit events, alerts, log texts and rejection details.
- `createdAt`, `updatedAt` and the rejection reason of orders.
- IEEE-754 rounding, safe-integer checks and JSON text: numbers are exact and encodings injective.
- Fractional periods: a period is an integer.
- `zScore` and `realisedVolatility`: easy beside the indicators they are made of.
- Backtests.Run: assumes a lot size of at least one, an opening cash that is not negative and prices that are not negative; the theorems about its state also take strictly increasing timestamps and a strategy that is not named like the stop orders.
- BacktestRuns.EveryBarIsGuarded: needs the strictly increasing timestamps because a stop order's key is its bar's timestamp.
- NoLookahead.EntriesSeeOnlyTheOpen: is about runs that no sizing error ends on the bar after, and about histories that both go on past the shared bars.
- Published prices are naturals and slippage lies in [0, 1], so a fill price is never negative.
- Oms.OrderManager.ApplyFill: executions of non-positive quantity, which the portfolio refuses and on which the order manager would divide by zero. `TradingServices.TradingService.ApplyFill` takes none either.
- Broker executions reach the other ledgers after the matching pass over all orders, not between two orders of one pass.
- `OrderManager.reconcile` as a method: adopting the broker's status is an event of the protocol model.
- Orders whose 12-character id prefixes collide.
- RiskEngines.RiskEngine.constructor: the validation of limits at construction.
- Pipelines: what the order manager answers after an order was handed over; writing a snapshot is one step with capturing it, and start-up is one step.
- PipelineSafety.EntriesRiskAtMostTheBudget: is about `onBar`; `approve` hands over the staged quantity, judged again.
- Queues: `fail` and `recoverAbandoned` are single steps in the runs, and `QueueRuns.DyingInBetweenLosesTheJob` stands for a death inside them; entries of equal score are in any fixed order.
- Leases.LeaseIsExclusive: one invocation per owner and renewals one at a time, as the callers do it.
- SquareOffs.SquareOffHappensOnce: an invocation acts only while its lease is live, and the hours in which a square-off is due are arbitrary.
- ReplayRuns.Run: fill timestamps are not before the epoch; looking an order up is one step, although it asks the store twice; writing the order row is one step with booking.
- ReplayOrder.RestartEqualsLive: is one direction, since averages can coincide by chance whatever the order.
- TradingServices.TradingService.ApplyFill: the reported break of an unknown order, the stored trade and position rows, the trade outcome sent to the breaker (an event of `PipelineRuns`) and the snapshot.
- TradingServices.TradingService.Start: the audit head, the stored mode, stop and pipeline state, which `Audit` and `PipelineRuns` model on their own, and the start-up reconciliation.
- Audit payloads are maps from strings to strings.
- The ticker's socket: connecting, subscribing, reconnecting and the watchdog.
- Sha256Shim.HashBytes: text encoding is a parameter, and messages whose padded length reaches 2^31 bytes have no digest.
- `LeaderLock`, HTTP and WebSocket routes, authentication, rate limiting, dashboards, database and Redis drivers, the trading calendar, CSV and instrument loading, session expiry, the model registry and alerting.
