# Verification of the trading system

A Dafny model of the accounting, the order and position protocols, and the risk state of the trading
system, with proofs of what they keep over whole runs. `dafny verify dfyconfig.toml` checks all of it.

The components whose methods change state are classes (`MarketSimulatorBroker`, `OrderLifecycleManager`,
`BacktestEngine`, `RiskEngine`, `TokenRateLimiter`, `DrawdownCircuitBreaker`, `StateRecoveryService`,
`PositionMonitor`, `FundingMomentumScanner`, `TradeTracker`, `BarAggregator`, `RollingHistory`). Each method
is proved equal to a step on a value that describes the component's whole state, and the results are then
proved about runs of those steps.

| module | models |
|---|---|
| `Core`, `Arith` | shared vocabulary; small facts about real products |
| `Ledger` | what one fill does to positions, entry prices, equity and the trade ledger; whole-history accounts |
| `Simulator` | the simulated broker: pending orders, bars, fills, event queue |
| `Orders` | the order manager and its FIFO conversation with the broker |
| `Departures` | how orders leave the broker, and what the manager shows of them afterwards |
| `Tracker` | the live trade tracker, and when it agrees with the ledger |
| `Risk`, `Limiter` | pre-trade checks and the sliding-window rate limiter |
| `Approval` | what the orders of a backtest were checked against |
| `Breaker`, `Recovery` | the drawdown breaker, its snapshot, and recovery after a restart |
| `Engine`, `Runner` | one bar of a backtest as a step; the loop over all bars |
| `Lookahead`, `Halting`, `Exposure`, `Overshoot`, `Performance` | results over whole backtests |
| `Results` | a backtest from its constructors to its result, with all of these results |
| `Monitor`, `ExitRules` | the live position monitor's polls, and the exit rule over a stay |
| `Gate` | the scanner's entry gate interleaved with polls, fills and closes |
| `NativeStop` | exchange precision and the native stop price |
| `Aggregation` | ticks to bars, and bars to coarser candles |
| `Windows` | trimmed queues and the universe feed's rolling history |

## Main results

- **The books balance** (`Ledger.BooksBalance`): after any sequence of fills over any interleaving of symbols,
  flips included, equity is the starting equity less cash paid less commissions plus the cost basis of what is
  held, and closed plus running trade profit is the change in equity. `Performance.ReportExplainsEquity`
  carries this through whole backtests to the reported expectancy.
- **Every open and closed trade is what its fills say** (`Ledger.OpenTradeFollowsFills`, `FillPays`): entry price,
  entry time, side, quantity and profit of a trade, and what each fill pays the account, are functions of the
  fills alone, through extensions, partial closes and flips.
- **Two ledgers agree exactly on flip-free histories** (`Tracker.TrackerShadowsLedger`), and the tracker's closed
  trades report what was taken off and at what mean price (`ClosedTradeFollowsFills`).
- **The manager lags by the queue** (`Orders.ManagerLagsByTheQueue`, `DrainedStatus`, `FilledIsFinal`), over
  every interleaving of submissions, deliveries, bars and cancels. Resting orders progress with every bar
  that touches them (`RestingOrdersProgress`).
- **Orders shown open that nothing works are exactly those cancelled or dropped** (`Departures.OpenButGoneIff`),
  with the exact conditions for a cancel to stick and for fill-or-kill to be all or nothing (`CancelSticksIff`,
  `FillOrKillIff`).
- **No lookahead** (`Lookahead.NoLookahead`) in any backtest, whatever the strategy does.
- **Positions are bounded with delay** (`Exposure.PositionBound`, for orders of every type and time in force, and
  `AnyTargetBound` for negative targets too), both bounds are reached for all positive limits
  (`Overshoot.BoundIsReached`, `AnyTargetBoundIsReached`), and `Exposure.CheckProtectsIff` says exactly in which
  states a check suffices.
- **A backtest halts exactly at the first breach** (`Halting.BacktestHaltsOnBreach`): the curve and the dates of the
  bars decide at which bar the run stops and for what reason; `StopsAtFirst` and `Runner.BacktestEngine.Run` say it
  for every starting state, including when no result is returned.
- **Every submitted order was within its limits** (`Approval.SubmittedIsWithinLimits`), at the last closes revealed, and
  however it fills the exposure stays within the leverage it was approved for (`FilledOrderKeepsLeverage`). Once the
  breaker has tripped nothing is permitted before the halt is lifted (`Risk.TripRefuses`).
- **A fresh run is trustworthy** (`Results.RunFresh`): newly built components always return a result, and it has all
  of these: balanced books, trades that follow the fills, commissions by the contract, an explained report, a halt
  exactly on a breach, no lookahead, bounded positions.
- **The breaker is its specification** over any number of days (`Breaker.BreakerMeetsSpec`, `BreakerOverDays`),
  **a crash is invisible to it** (`Recovery.CrashIsInvisible`, `RecoveryIsIdempotent`), and what an older snapshot
  loses is exact (`StaleSnapshotLoses`).
- **The rate limiter never lets a burst through and never refuses without need** (`Limiter.NoBurst`, `GrantedIff`,
  `RefusedForCause`).
- **Exits follow the rule** (`ExitRules.ExitsFollowTheRule`, `DueIff`) over every run of polls, each stay submits
  exactly one order, which takes its position to zero (`OneOrderPerStay`), and native stops are conserved: each one placed is still mapped
  or was cancelled once (`Monitor.PositionMonitor.CheckOnce`).
- **The entry gate keeps counting correctly if and only if no pruning drops a live entry** (`Gate.GateCountsIff`),
  and the first such drop is exactly what makes the cap breakable (`Gate.CapLostIff`).
- **The native stop triggers before the monitor's own** and within one tick of the loss limit
  (`NativeStop.NativeStopComesFirst`, `NativeLossWithinLimit`).
- **Aggregating commutes with resampling** (`Aggregation.AggregateThenResample`, `ResampleComposesIff`),
  and every bar and candle shows exactly the ticks or candles in it (`CompletedBarShowsTicks`, `RollUpSumsGroups`).

## What is assumed

- Prices, equity and volumes are exact reals; floating-point rounding is not modelled. Bar times are whole
  microseconds; clocks of the limiter, the feed and the scanner are reals.
- Symbols are numbers in the order tickers sort; order ids are fresh numbers where the code draws a uuid.
- The price a fill gets is a parameter (`Quotes`), one per order and bar; so are the signals a strategy emits,
  account equity as read by a poll, and whether a native stop could be placed.
- Fills have a positive quantity wherever the ledger books them. The simulator guarantees this itself
  (`fill_qty > 0` guards `_apply_fill`); for `Ledger` and `Tracker` alone it is a hypothesis.
- The backtest's order manager drains the broker's queue right after each bar. The results about fills, books and
  positions do not depend on when it drains; those in `Orders` hold for every interleaving.
- A position snapshot lists each symbol once, and polls complete: the calls they make return.
- The snapshot file holds one record or none and round-trips its values; an unreadable file is none.
- Results about one session of the breaker start from a positive equity, which its constructor checks and
  `reset_session` does not. The engine's model does not assume it: a zero baseline makes `update` divide by
  zero, which appears as a run that ends without a result (`Halting.StopsAtFirst` says at which bar).
- Contract multipliers are not negative where exposure after a fill is bounded (`Approval.FilledOrderKeepsLeverage`).

## What fails, and exactly when

- A closed trade reports its peak quantity, but on a flip that peak already counts the new side
  (`backtest/market_simulator.py:264`, `Ledger.FlipReportsNewSide`); `Ledger.ReportedQuantity` gives the exact
  condition.
- The trade tracker drops the excess of a fill that flips a position (`execution/trade_tracker.py:90`,
  `Tracker.FlipParts`), so it and the simulator part there, and exactly there.
- `max_contracts_per_symbol` is checked against positions last refreshed after the previous bar
  (`backtest/engine.py:110`). The limit itself can be exceeded (`Overshoot.LimitIsExceeded`); what holds is the limit
  plus `2n - 1` orders, `n` orders working at once, and that is reached. `Exposure.CheckProtectsIff` gives the exact
  condition for one check to protect the limit.
- The position check uses the signed target, the order its absolute value (`risk/risk_engine.py:169`,
  `execution/order_manager.py:88`, `Exposure.NegativeTargetPasses`). They agree exactly for targets that are not
  negative (`Exposure.CheckMatchesOrder`); with negative ones the bound is two orders wider, and that is reached.
- A fill-or-kill order can fill in part (`Departures.FillOrKillFillsPart`, `backtest/market_simulator.py:198-200`).
  It fills nothing or everything if and only if the first bar of its symbol does not touch it, or its quantity is at
  most the larger of one and the bar's share (`FillOrKillIff`).
- `cancel` overwrites a FILLED status, and an event still queued overwrites CANCEL_PENDING (`Orders.CancelForgotten`).
  A cancel still shows after the queue drains if and only if no event of its order was queued when it was made
  (`Departures.CancelSticksIff`).
- The manager can show an order as open that the broker no longer has. With the queue drained these are exactly the
  orders whose cancel shows, and those dropped by a cancel, by cancelling all, or by a bar that let an immediate
  order's remainder go (`Departures.OpenButGoneIff`).
- The scanner's cap on open positions depends on every fill being polled within the ten seconds an entry
  stays pending (`Gate.SlowFillBreaksCap`). Until an entry that is held or may still fill is pruned, the cap cannot be
  exceeded; from that step on it can, with the clock moving forward and nothing else dropped (`Gate.CapLostIff`).
  Pruning an entry that was refused does no harm.
- The settings accept a trailing base equal to the arm, and any step. A poll that sets a new peak can then fire
  the trailing exit at once (`ExitRules.NewPeakFires`). It never does if and only if the level lies below the peak at
  the first and at the last whole increment past the arm that stays under the hard cap
  (`ExitRules.NewPeakNeverFiresIff`); a step above the increment alone does no harm (`SteepUnderLowCap`).
- Resampling a resampled chart gives the coarser chart only for widths that nest
  (`Aggregation.NestingIsNeeded`, `ResampleComposesIff`).

## Model

| member | source | states |
|---|---|---|
| Ledger.Settle | backtest/market_simulator.py:250-299 | one fill moves the signed position by exactly the signed fill, keeps the open trade's quantity within its peak, and closes a trade exactly when it covers all that was held on the other side |
| Ledger.SettleAccounts | backtest/market_simulator.py:267-303 | double entry per fill: cost basis moves by cash paid plus profit taken, and the trade ledger absorbs exactly that profit less the commission, in all five kinds of fill |
| Ledger.Post | backtest/market_simulator.py:244-303 | booking a fill leaves every other symbol's position, entry and open trade untouched |
| Ledger.PostMovesEquity | backtest/market_simulator.py:273-303 | equity less cost basis falls by cash plus commission; ledger profit less equity does not move |
| Ledger.BooksBalance | backtest/market_simulator.py:244-303 | after any fills: equity = start - cash paid - commissions + cost basis; closed plus open trade profit = change in equity; each position is the sum of its signed fills |
| Ledger.PeakIsHighWater | backtest/market_simulator.py:254-264 | the peak of an open trade is the largest exposure since it opened or flipped, computed independently from the fills; none is open when flat |
| Ledger.OpenTradeFollowsFills | backtest/market_simulator.py:250-299 | after any fills, an open trade was entered when its exposure last started, at the mean price of what was added since (the fill's own price after a flip), on the side and for the quantity of the net, and its profit is that exposure at entry less the cash and commissions of its own fills |
| Ledger.FillPays | backtest/market_simulator.py:266-303 | after any fills, the next one pays the account for exactly the exposure it takes off, at its price less the entry price of the fills, less its commission; a trade it closes has the dates and side of that exposure and made its proceeds less its cost |
| Ledger.ReportedQuantity | backtest/market_simulator.py:264-299 | after any history, a fill records a trade if and only if it takes the position to zero or across it; the trade reports the high water of the exposure if and only if the new side is no larger than that, and otherwise the new side |
| Ledger.ReplayAppend | backtest/market_simulator.py:184-203 | booking two batches of fills in turn is booking their concatenation |
| Ledger.FlipReportsNewSide | backtest/market_simulator.py:264-299 | one bought, three sold: the one closed trade held at most one contract and reports two |
| Tracker.TradeTracker.OnExecution | execution/trade_tracker.py:59-113 | the tracker's new state for every fill, and that it returns a trade exactly when it appends that trade |
| Tracker.EmptyFill | execution/trade_tracker.py:77-99 | an empty fill charges its commission and changes nothing else, whichever branch it takes |
| Tracker.ShadowStep | execution/trade_tracker.py:59-113 | a fill keeps tracker and simulator in step (same open trades with side, quantity, average entry, running profit; same closed trips) if and only if it is not a flip; even a flip closes the same trip in both |
| Tracker.TrackerShadowsLedger | execution/trade_tracker.py:59-113 | over a whole history the two agree after every fill if and only if no fill takes a net position across zero |
| Tracker.ClosedTradeFollowsFills | execution/trade_tracker.py:89-113 | after any history without flips, the next fill records a trade if and only if it ends the position, be it by a flip; entry price, quantity and mean exit price of the trade are those of the fills |
| Tracker.FlipParts | execution/trade_tracker.py:90-111 | one bought, three sold: the simulator is short two, the tracker has nothing open |
| Simulator.FillQuantity | backtest/market_simulator.py:205-220 | market, stop and on-close orders fill in full; a limit or stop-limit order whose limit price lies between the bar's low and high fills the most that remains and is one or within volume times participation; any other fills nothing |
| Simulator.MarketSimulatorBroker.constructor | backtest/market_simulator.py:76-103 | a new broker is flat, has no orders and holds its starting equity |
| Simulator.MarketSimulatorBroker.PlaceOrder | backtest/market_simulator.py:115-128 | the order joins the end of its symbol's list at the last close, is acknowledged in the queue, and nothing else changes |
| Simulator.MarketSimulatorBroker.CancelOrder | backtest/market_simulator.py:130-132 | exactly the orders with this id disappear, order of the rest kept; nothing is queued or booked |
| Simulator.MarketSimulatorBroker.CancelAll | backtest/market_simulator.py:134-135 | all pending orders disappear and nothing else changes |
| Simulator.MarketSimulatorBroker.NextEvent | backtest/market_simulator.py:137-139 | events leave the queue first in, first out |
| Simulator.MarketSimulatorBroker.ProcessBar | backtest/market_simulator.py:155-164 | the whole state after a bar: fills of that symbol's orders only, booked in list order; survivors carried over; the bar's close remembered |
| Simulator.MarketSimulatorBroker.ResolvePendingOrders | backtest/market_simulator.py:184-203 | the loop yields the survivors, books, fills and queue that resolving each order in turn yields |
| Simulator.MarketSimulatorBroker.ResolveOrder | backtest/market_simulator.py:187-201 | one order: nothing is booked if nothing fills; an immediate order's remainder is dropped |
| Simulator.MarketSimulatorBroker.ApplyFill | backtest/market_simulator.py:244-321 | the positions, entry prices, open trades, trades and equity updated branch by branch agree with the one-fill bookkeeping of the ledger, and the execution is recorded and queued once |
| Simulator.MarketSimulatorBroker.Rework | backtest/market_simulator.py:246-299 | the source's branches on signs, flips and flatness yield the same holding, profit and closed trade as opening, extending, reducing, closing or flipping |
| Simulator.MarketSimulatorBroker.Store | backtest/market_simulator.py:301-303 | afterwards an open trade exists for a symbol exactly where its position is not zero, on its side, for all symbols |
| Orders.OrderLifecycleManager.SubmitOrder | execution/order_manager.py:81-119 | a fresh order is recorded as submitted with the absolute quantity, and the last order in the broker's list of its symbol has its side, quantity, type, limit price and time in force, and the last close as expected price |
| Orders.OrderLifecycleManager.CancelOrder | execution/order_manager.py:146-152 | a known order becomes cancel-pending whatever its status and leaves the broker; an unknown one changes nothing |
| Orders.OrderLifecycleManager.CancelAllOrders | execution/order_manager.py:154-156 | the broker's orders go, the managed orders keep their status |
| Orders.OrderLifecycleManager.ConsumeBrokerEvents | execution/order_manager.py:165-170 | draining delivers every queued event once, in order, and publishes exactly those of known orders |
| Orders.OrderLifecycleManager.HandleBrokerEvent | execution/order_manager.py:172-239 | the effect of each kind of event on the one order it names, and that the event is then published; events for unknown orders do neither |
| Orders.SubmitKeeps | execution/order_manager.py:81-119 | submitting keeps the agreement between broker, queue and manager |
| Orders.DeliverKeeps | execution/order_manager.py:172-211 | delivering the next event keeps the agreement |
| Orders.BarKeeps | backtest/market_simulator.py:184-203 | processing a bar keeps the agreement |
| Orders.CancelKeeps | execution/order_manager.py:146-152 | cancelling keeps the agreement |
| Orders.RunKeeps | execution/order_manager.py:81-211 | every run of submissions, deliveries, bars and cancels keeps the agreement |
| Orders.ReportsStayTrue | backtest/market_simulator.py:305-315 | every execution's cumulative and remaining quantities are the true totals of its order at that point, however many bars and orders came between |
| Orders.ManagerLagsByTheQueue | execution/order_manager.py:172-211 | in every reachable state: managed filled + queued = broker filled; average price times filled = value of the executions seen; filled + remaining = ordered; what still works is what is not filled |
| Orders.DrainedStatus | execution/order_manager.py:209-211 | with the queue drained, an order not cancel-pending is FILLED if and only if nothing of a non-empty order remains, and its status is the one its totals earn |
| Orders.FilledIsFinal | execution/order_manager.py:146-211 | a step leaves FILLED if and only if it is a cancel of that very order |
| Orders.CancelForgotten | execution/order_manager.py:146-152 | from any drained state: submit, cancel, then deliver the acknowledgement, and the manager shows an acknowledged order the broker does not have; `Departures.CancelSticksIff` is the exact condition |
| Orders.BarResolvesOrder | backtest/market_simulator.py:184-203 | a bar adds to an order working in its symbol what its type, limit price and share of the volume allow, and no less; it stays working if and only if it has a remainder that may wait |
| Orders.WithoutKeepsOrder | backtest/market_simulator.py:130-132 | an order that a cancel leaves stays between what was before it and what was after it |
| Orders.NextBarSettles | backtest/market_simulator.py:205-220 | market, stop and on-close orders are completely filled by the next bar of their symbol; immediate orders never outlive it |
| Orders.RestingOrdersProgress | backtest/market_simulator.py:211-217 | over any run, a resting order no one cancels is still working or full, and has filled at least as many units as bars have touched its limit, or everything |
| Departures.CancelSticksIff | execution/order_manager.py:146-211 | after a cancel and a drained queue the order is cancel-pending if and only if no event of it was queued at the cancel |
| Departures.StepAtBroker | backtest/market_simulator.py:130-203 | an order leaves the broker by a cancel of it, a cancel of all, or a bar it does not survive, and by nothing else, and never returns |
| Departures.ReachableIsTidy | backtest/market_simulator.py:184-203 | in every reachable state a pending order has something left unless it asked for nothing, an immediate one has all of it left, and no cancel-pending order is at the broker |
| Departures.BarOfOrder | backtest/market_simulator.py:184-203 | a bar adds to an order at the broker what its type, limit price and share of the volume allow, and no less, and it drops it exactly if it lets a remainder, or an empty order, go |
| Departures.OnlyImmediateAreLetGo | backtest/market_simulator.py:198-200 | only immediate orders that need not fill in full are let go with a remainder |
| Departures.StrandedIff | backtest/market_simulator.py:130-203 | over any run, an order is gone from the broker without being filled if and only if some move of the run dropped it |
| Departures.OpenButGoneIff | execution/order_manager.py:161-163 | in every reachable drained state, an order not terminal at the manager and not at the broker is one whose cancel shows or that some move dropped unfilled, and conversely |
| Departures.GoneForGood | backtest/market_simulator.py:184-203 | an order gone from the broker is filled no further by any run |
| Departures.AllOrNothingIff | backtest/market_simulator.py:205-220 | one bar fills none or all of a remainder if and only if it does not touch it, the order fills in full, or the remainder is at most max(1, share of volume) |
| Departures.FillOrKillIff | backtest/market_simulator.py:184-220 | in every such state, a fill-or-kill order is gone after the first bar of its symbol, and after any further run has filled nothing or everything if and only if that bar does not touch it or can fill it at once |
| Departures.FillOrKillFillsPart | backtest/market_simulator.py:198-220 | a run in which a fill-or-kill order for two fills one |
| Limiter.TokenRateLimiter.TryAcquire | risk/risk_engine.py:52-69 | both windows are trimmed; the attempt is granted, and recorded in both, exactly when both have room |
| Limiter.WindowsAreRecent | risk/risk_engine.py:55-68 | at any time the two windows hold exactly the grants of all history that are at most 1 s and 60 s old |
| Limiter.GrantedIff | risk/risk_engine.py:60-69 | for a clock that never goes back, an attempt is refused if and only if the grants of the last second or minute really fill a limit |
| Limiter.RefusedForCause | risk/risk_engine.py:60-65 | an attempt is refused if and only if enough grants, all at most 1 s old or all at most 60 s old, fill the limit |
| Limiter.NoBurst | risk/risk_engine.py:44-69 | any grants spanning at most a second number at most ceil(max_per_second), and at most a minute max_per_minute |
| Risk.RiskEngine.CheckOrder | risk/risk_engine.py:103-225 | approved if and only if not halted, size, rate, projected position, notional, leverage and margin all hold; otherwise the verdict names the first check that fails, a halt before all; the rate limiter is charged even when a later check refuses, and not when an earlier one does |
| Risk.PermittedIff | risk/risk_engine.py:148-224 | approval in money: quantity times last price times multiplier is within the notional limit, with the gross exposure within max_gross_leverage times equity, and buffered initial and maintenance margin of the projected position are within equity |
| Risk.OneVerdict | risk/risk_engine.py:112-133 | the first violation wins: at most one verdict is warranted for a check |
| Risk.TripRefuses | risk/risk_engine.py:148-150 | after a reading that trips the breaker and anything done to it since, an order is permitted only if a reset, a reading of another day or a restored unhalted session came between |
| Risk.RiskEngine.UpdatePositions | backtest/engine.py:110-112 | told positions replace known ones, others stay |
| Breaker.DrawdownCircuitBreaker.Update | risk/circuit_breaker.py:99-151 | another day restarts baseline and peak, clears the halt, raises the one-shot flag and answers false; the same day keeps the baseline, raises the peak, and is halted if it was or if it answers true |
| Breaker.DrawdownCircuitBreaker.ResetSession | risk/circuit_breaker.py:54-67 | baseline and peak restart, the halt is cleared, the one-shot flag is kept |
| Breaker.DrawdownCircuitBreaker.Restore | risk/circuit_breaker.py:80-97 | the persisted session replaces the current one, halt included |
| Breaker.DrawdownCircuitBreaker.ForceHalt | risk/circuit_breaker.py:153-158 | halts with the given reason and touches nothing else |
| Breaker.DrawdownCircuitBreaker.ConsumeAutoResetFlag | risk/circuit_breaker.py:45-52 | answers the flag once and clears it |
| Breaker.PeakTestDecides | risk/circuit_breaker.py:135-141 | the fall from the start reaches the limit only if the fall from the peak does |
| Breaker.BreakerMeetsSpec | risk/circuit_breaker.py:99-151 | from any state and over any same-day equities: halted if and only if it was, or some equity is at most (1 - L/100) of the high mark up to it; `update` answers true at the first such equity and at no other |
| Breaker.BreakerOverDays | risk/circuit_breaker.py:99-151 | over any readings of any days: halted if and only if some equity since the last change of date breached the high mark since then, the first equity of that day opening it; an update trips if and only if it is the first of its day to do so |
| Breaker.LiftedIff | risk/circuit_breaker.py:54-158 | a halt is lifted by a reset, a reading of another day or a restored unhalted session, and by nothing else |
| Breaker.HaltHolds | risk/circuit_breaker.py:54-158 | over any commands, a halted breaker that is no longer halted was given one that lifts a halt |
| Recovery.StateRecoveryService.Persist | utils/state_recovery.py:155-161 | the file holds the breaker's session and environment |
| Recovery.StateRecoveryService.Recover | utils/state_recovery.py:79-101 | positions come from the broker, the session from a file of the same day and environment, or else afresh at the current equity, and the file is rewritten |
| Recovery.StateRecoveryService.RestoreCircuitBreaker | utils/state_recovery.py:103-132 | restored exactly when day and environment match |
| Recovery.CrashIsInvisible | utils/state_recovery.py:103-132 | a process restarted from its snapshot, whatever its breaker held and whatever equity it reads, answers every future event as the original would, and stays in the same session |
| Recovery.RecoveryIsIdempotent | utils/state_recovery.py:79-101 | any number of same-day recoveries at any equities write what the first one wrote; a matching file is a fixed point |
| Recovery.HaltSurvivesIff | utils/state_recovery.py:79-132 | after any number of same-day recoveries the last breaker is halted if and only if the snapshot the first one found matched and was halted |
| Recovery.StaleSnapshotLoses | scripts/run_live_binance_scanner.py:420-440 | a restart from a snapshot some updates old loses the halt if and only if one of those updates tripped it, its high mark is low by exactly what it rose over them, and it never halts before the original would |
| Engine.SessionDayIff | backtest/engine.py:92-93 | a bar belongs to the calendar day whose 24 hours hold its time |
| Engine.Sorted | backtest/engine.py:69 | the replay contains exactly the given bars |
| Engine.SortedIsOrdered | backtest/engine.py:69 | the replay is in order of time, then symbol |
| Engine.SortedIsStable | backtest/engine.py:69 | bars of the same time and symbol are replayed in the order they were given |
| Runner.BacktestEngine.GrossExposureNow | backtest/engine.py:150-154 | summing over all recorded positions, flat ones included, gives the exposure of the open ones |
| Runner.BacktestEngine.OnSignal | backtest/engine.py:146-168 | a signal reaches the broker only if permitted, with equity and exposure as they are now |
| Runner.BacktestEngine.RevealBar | backtest/engine.py:89-105 | a new day resets the breaker; pending orders are resolved on the bar before any strategy sees it |
| Runner.BacktestEngine.SettleBar | backtest/engine.py:110-126 | positions reach the risk engine only now; the equity is recorded and fed to the breaker, which may stop the run |
| Halting.StopsAtFirst | backtest/engine.py:84-126 | from any state a run begins in, the replay stops at the first bar whose equity falls by the limit from its day's open or high, with that fall, equity, open and high as the reason, or at the first whose day opened at or peaked at zero; otherwise every bar is replayed |
| Halting.BacktestHaltsOnBreach | backtest/engine.py:92-126 | from a positive equity, the run halts if and only if some bar ends at or below (1 - L/100) of the high of its own day, the equity the day opened with included; it stops at the first such bar, and never for want of a measure |
| Runner.BacktestEngine.Run | backtest/engine.py:65-144 | the loop computes the replay of the sorted bars, which stops at the first bar that trips or cannot be measured; a result (equity curve with its times, trades, performance report, halt flag and reason) is returned if and only if there are bars and the last one replayed can be measured, halted or not |
| Lookahead.DrainKeeps | backtest/engine.py:104-105 | draining the queue changes nothing at the broker |
| Lookahead.NoLookahead | backtest/engine.py:84-108 | every fill of every backtest happens on a bar of its order's symbol replayed strictly after the one that prompted the order; strictly later in time when prompted by its own symbol, never earlier otherwise; on the order's side and at the price quoted for that order on that bar |
| Approval.SubmittedIsWithinLimits | backtest/engine.py:98-168 | whenever a reaction in a backtest leads to an order, no halt is on, and size, position, notional, leverage and margins hold at the last closes of the bars so far, the equity and open positions of the moment, and the position held before the bar |
| Approval.FilledOrderKeepsLeverage | risk/risk_engine.py:192-204 | however such an order then fills against that book, in part or whole and at any price, the gross exposure at those closes stays within max_gross_leverage times the equity it was checked with |
| Exposure.BarConserves | backtest/market_simulator.py:184-220 | whatever a bar does to orders of any type and time in force, what it fills of a side plus what stays working on it is at most what worked before |
| Exposure.PositionBound | backtest/engine.py:84-112 | over any backtest with no negative target and at most n orders working per symbol, of any type and time in force, every position stays within max_contracts_per_symbol + (2n - 1) max_contracts_per_order; for n = 1, plus one order |
| Exposure.AnyTargetBound | risk/risk_engine.py:167-176 | the same for all signals whatever, with 2n + 1 orders |
| Exposure.CheckProtectsIff | risk/risk_engine.py:152-176 | every order of a side that passes the size and position checks keeps filled-and-working exposure within the limit if and only if there is room for the largest order that passes, given what the engine was last told |
| Exposure.FreshViewProtects | risk/risk_engine.py:167-176 | with an up-to-date position and nothing working the check does protect the limit |
| Exposure.CheckMatchesOrder | execution/order_manager.py:88 | the checked quantity is the ordered one if and only if the target is not negative |
| Exposure.NegativeTargetPasses | risk/risk_engine.py:167-176 | holding one under a limit of one, a purchase with target minus one passes both checks and orders a second |
| Overshoot.BoundIsReached | backtest/engine.py:84-112 | for every n and all positive limits, a backtest with no negative target and at most n orders working ends at the limit plus 2n - 1 orders: the bound is tight |
| Overshoot.AnyTargetBoundIsReached | backtest/engine.py:84-112 | for every n and all positive limits, a backtest with at most n orders working ends at the limit plus 2n + 1 orders |
| Overshoot.LimitIsExceeded | backtest/engine.py:107-112 | a backtest of three bars, one order of one contract at a time under a limit of one, ends holding two |
| Results.FramesInOrder | backtest/engine.py:69 | the replay is in order of time, then symbol, and no two frames share both if no two bars do |
| Results.ReplayIsTrustworthy | backtest/engine.py:65-144 | every replay in order ends with balanced books, open trades that follow the fills, commissions by the contract, an explained report, a halt exactly on a breach if it starts from a positive equity, no fill foreseen if no two bars share symbol and time, and positions within 2n + 1 orders of the limit, or 2n - 1 if no target is negative, for every n that bounds the orders working |
| Results.RunFresh | tests/test_backtest_engine.py:72-77 | with newly built broker, breaker, risk engine and engine, whatever the signals, the loop returns a result that summarizes a state with all of these properties, and its curve opens at the starting equity |
| Performance.ExpectancyIsMeanPnl | backtest/performance.py:114-125 | expectancy times the number of trades is the total profit of the trades, with no wins, no losses or no trades too |
| Performance.GrossIsGainsAndLosses | backtest/performance.py:114-118 | gross profit adds up the profits that are positive, gross loss the amounts of those that are not |
| Performance.ReportExplainsEquity | backtest/performance.py:114-125 | in any backtest, expectancy times trades plus running profit of open trades is the last equity of the curve less the first |
| Performance.ComputePerformanceReport | backtest/performance.py:73-125 | a report is refused for fewer than two equities; its gross profit and loss are what the winning trades made and the others lost; their difference, and the expectancy times the number of trades, are the total profit; its drawdown duration is the longest stretch under water |
| Performance.LongestDrawdown | backtest/performance.py:55-70 | the result is the length of some stretch of points each lower than an earlier one, and no stretch is longer |
| Monitor.PositionMonitor.constructor | execution/position_monitor.py:90-97 | a new monitor follows nothing |
| Monitor.PositionMonitor.CheckOnce | execution/position_monitor.py:135-196 | every poll: stop and peak dictionaries speak of exactly the open symbols, closing and native stops of some of them; every native stop placed is still mapped or cancelled once; each symbol is followed on its own; the closes are those due, and each takes the position it closes to zero |
| Monitor.PositionMonitor.CheckDetail | execution/position_monitor.py:143-191 | one position of the snapshot: a closing one is left alone; other symbols' records are untouched |
| Monitor.PositionMonitor.Refresh | execution/position_monitor.py:146-163 | the stop is frozen and the native order placed at first sight only; the peak only rises |
| Monitor.PositionMonitor.ClosePosition | execution/position_monitor.py:225-247 | the order and the position add up to zero, and the symbol is marked as closing |
| Monitor.PositionMonitor.ArmNativeStop | execution/position_monitor.py:209-218 | a placed stop is mapped, a failed one leaves no trace |
| Monitor.PositionMonitor.DisarmNativeStop | execution/position_monitor.py:220-223 | a mapped stop is cancelled once and unmapped |
| Monitor.PollIsComplete | execution/position_monitor.py:193-196 | clean-up after the loop completes the observation of every symbol, seen or gone |
| ExitRules.ClosedOnceWhenDue | execution/position_monitor.py:165-191 | during one stay a close is decided at a poll exactly when the exit rule first comes due there, for that reason, and never again |
| ExitRules.DueIff | execution/position_monitor.py:154-191 | over a whole stay: closed on the loss if the profit is at most minus the stop's percentage of the first poll's equity; else at the cap; else if the best poll is k whole increments past the arm and the return is at most the base plus k steps; and never otherwise |
| ExitRules.RoiIsReturnOnMargin | execution/position_monitor.py:159-161 | the return is the profit in percent of quantity times lot size times entry over leverage, and zero without margin |
| ExitRules.StayIsFresh | execution/position_monitor.py:193-196 | what happened in a symbol before a stay leaves no trace in it |
| ExitRules.ExitsFollowTheRule | execution/position_monitor.py:135-196 | over any run of polls, each close is the one the rule gives for the stay alone, against the stop frozen at its first poll and the highest ROI so far |
| ExitRules.ClosesPerSymbol | execution/position_monitor.py:143-191 | the closes a poll submits contain, for each symbol, the one order its own record calls for, or none |
| ExitRules.OneOrderPerStay | execution/position_monitor.py:135-247 | over any run of polls, the orders submitted for a symbol during a stay are exactly one, which takes the position of the first poll at which the rule is due to zero, or none if it never is |
| ExitRules.LevelNeverFalls | execution/position_monitor.py:198-207 | a higher peak never lowers the trailing level, for any step that is not negative |
| ExitRules.PeaksClearIff | execution/position_monitor.py:171-207 | at every peak from the arm up to the cap the level lies below the peak if and only if it does at the first and the last whole increment under the cap |
| ExitRules.NewPeakNeverFiresIff | execution/position_monitor.py:161-191 | over all stays, no poll that sets the peak closes on the trailing level if and only if the level is below the peak at the first and last whole increment under the hard cap |
| ExitRules.NewPeakFires | config/settings.py:169-186 | two settings every validator accepts, each with a first poll that closes on the trailing level at its own peak |
| ExitRules.SteepUnderLowCap | config/settings.py:169-186 | accepted settings with a step above the increment under which no such poll exists |
| Gate.FundingMomentumScanner.PrunePendingEntries | strategies/funding_momentum_scanner.py:172-180 | exactly the entries not seen open and at most ten seconds old remain |
| Gate.FundingMomentumScanner.OnBar | strategies/funding_momentum_scanner.py:110-138 | up to the equity lookup: proceeds only for a symbol neither open nor pending, with fewer than the maximum counted |
| Gate.FundingMomentumScanner.OnEquity | strategies/funding_momentum_scanner.py:139-170 | after it: an entry is emitted and becomes pending exactly for a positive number of lots |
| Gate.LotsFitNotional | strategies/funding_momentum_scanner.py:56-62 | the lots are the most whose notional does not exceed the order's |
| Gate.StepKeepsCap | strategies/funding_momentum_scanner.py:110-138 | no step of bars, lookups, fills, refusals, closes or polls takes the counted symbols over the maximum |
| Gate.StepKeepsCount | strategies/funding_momentum_scanner.py:172-180 | a step keeps everything held or sent counted if and only if it does not prune a live entry |
| Gate.GateCountsIff | strategies/funding_momentum_scanner.py:110-180 | over every interleaving, the gate stays sound if and only if no bar prunes an entry that has filled unseen or may still fill |
| Gate.CapLostIff | strategies/funding_momentum_scanner.py:110-180 | after any step of a run with no live entry dropped before, a continuation on a clock that never goes back, dropping none either, can hold more than the maximum if and only if that step drops one |
| Gate.DropOvershoots | strategies/funding_momentum_scanner.py:172-180 | from a sound state, one dropped live entry can take the exchange over any maximum, time moving on, without another drop |
| Gate.SoundNeverOvershoots | strategies/funding_momentum_scanner.py:114-118 | from a sound state no continuation free of drops ever holds more than the maximum |
| Gate.CapCoversExchange | strategies/funding_momentum_scanner.py:114-118 | in a sound state held, sent, open and pending together number at most the maximum, and the entry being decided is for none of them |
| Gate.SlowFillBreaksCap | strategies/funding_momentum_scanner.py:172-180 | a run under a maximum of one in which the exchange ends up holding two positions |
| NativeStop.LotsRoundTrip | execution/binance_broker.py:347-355 | lots to quantity and back is the identity when the step is a multiple of the quantity precision |
| NativeStop.LotsAreClosest | execution/binance_broker.py:351-355 | any quantity is given in lots that are within half a step of it |
| NativeStop.StopIsOneTickTight | execution/binance_broker.py:482-489 | the stop lies on the safe side of the break-even price and less than a tick from it |
| NativeStop.UntickedStop | execution/binance_broker.py:488-489 | without a tick size the stop is positive and within half the price precision of the break-even price |
| NativeStop.NoStopIff | execution/binance_broker.py:482-494 | no stop is placed if and only if the break-even price is not positive for a long, or below one tick for a short |
| NativeStop.NativeLossWithinLimit | execution/binance_broker.py:468-492 | the loss at the native stop is at most the limit and more than the limit less one tick on the position |
| NativeStop.NativeStopComesFirst | execution/position_monitor.py:165 | with size and entry unchanged, any mark price at which the software stop-loss fires has already reached the native stop, long or short |
| Aggregation.ResampleCandles | dashboard/lib/candles.ts:25-42 | the loop computes the roll-up, and returns the series itself up to a minute |
| Aggregation.RollUpSumsGroups | dashboard/lib/candles.ts:19-42 | any series is cut into its groups of consecutive candles in one bucket, each shown with its first open, last close, highest high, lowest low and total volume |
| Aggregation.BarAggregator.OnTick | data/bar_aggregator.py:51-72 | the tick, at its last price or else the middle of a positive bid and ask, joins its symbol's open bar, or completes that bar and opens the next; a completed bar is returned exactly once |
| Aggregation.BarAggregator.Flush | data/bar_aggregator.py:74-79 | the open bar, if any, is completed and removed |
| Aggregation.BucketOfSecond | data/bar_aggregator.py:46-49 | the bucket of a fractional time is the bucket of its whole second |
| Aggregation.BucketsNest | dashboard/lib/candles.ts:30 | bucketing twice is bucketing once when the widths nest |
| Aggregation.RollUpTwice | dashboard/lib/candles.ts:25-42 | rolling up in two stages is rolling up once when the widths nest, for any order of candles |
| Aggregation.ResampleComposesIff | dashboard/lib/candles.ts:25-42 | two-stage resampling equals one-stage for every series if and only if the finer width is at most a minute or the coarser is over a minute and a multiple of it |
| Aggregation.StreamShows | data/bar_aggregator.py:51-79 | a symbol's bars are the roll-up of its own ticks, whatever other symbols do |
| Aggregation.CompletedBarShowsTicks | data/bar_aggregator.py:22-92 | a tick completes a bar if and only if its symbol has ticks and they are in another bucket; the bar shows the first, last, highest and lowest price and the total size of exactly those ticks, and times its volume the volume-weighted price is what was paid in them |
| Aggregation.AggregateThenResample | data/bar_aggregator.py:46-92 | aggregating any tick stream and then resampling is aggregating at the coarser timeframe, on time and OHLCV |
| Aggregation.VwapInRange | data/bar_aggregator.py:29-38 | in every bar of every stream the volume-weighted price lies between low and high |
| Windows.RollingHistory.AppendTrimmed | data/binance_universe_feed.py:221-228 | the sample is appended and everything older than the window is dropped from the front |
| Windows.RollingHistory.PriceChangePct | data/binance_universe_feed.py:146-157 | answers a change exactly when the retained samples span nine tenths of the window from a non-zero price |
| Windows.RollingHistory.FundingTrend | data/binance_universe_feed.py:159-168 | answers the newest and the oldest retained value exactly when the span suffices |
| Windows.HistoryIsWindow | data/binance_universe_feed.py:221-228 | for ordered times the trimmed queue is the whole history filtered to the last window |
| Windows.ChangeReportedIff | data/binance_universe_feed.py:146-157 | in terms of the whole history: a change is reported if and only if its window has two samples nine tenths apart and starts at a non-zero price, and applying the change to that price gives the latest |

## Left out

- Monitor.PositionMonitor.CheckOnce: takes a poll as one step; a poll that raises midway, and other tasks running at its awaits, are not modelled. The gate's model does interleave polls with its own await.
- Gate.GateCountsIff: positions come only from the scanner's own entries, each filled whole, and a poll reads the exchange at the moment it publishes.
- Orders.OrderLifecycleManager.HandleBrokerEvent: rejections are handled but the simulator never sends one; timestamps, correlation ids, the expected price and slippage statistics are not modelled. Managed orders are values in the manager's dictionary, not shared objects.
- Simulator.MarketSimulatorBroker.ResolveOrder: a pending order is a value, so the alias between the list and the order being resolved is not modelled.
- Runner.BacktestEngine.Run: signals per bar are parameters instead of event-bus subscribers; the halt event, slippage statistics and the report's library statistics are not modelled.
- Aggregation.ResampleCandles: buckets are values in a sequence, replaced where the source updates the last one in place.
- Recovery.StateRecoveryService.Persist: writes are atomic; torn files and the JSON text are not modelled.
- Fill-price realism: spread, market impact and realized volatility; the accounting does not depend on them.
- OCO and OCA groups: handled outside the simulator by exchange-side cancels.
- Returns, Sharpe, Sortino, Calmar, percentage drawdown, profit factor and percentiles: library statistics.
- Position sizing and `evaluate_entry`: single-expression branches that would add only easy members; the entry decision is a parameter of the gate.
- Exchange and broker connections, reconnects, websockets, the dashboard, Telegram and data storage: no local state to reason about.
