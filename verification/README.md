# A verified model of a Bybit grid and DCA trading bot

This project models, in Dafny, the core of a trading bot for Bybit linear
futures. The bot runs two order engines on one instrument:

- a **grid engine**, which keeps a ladder of limit orders around the market
  price and places an opposite order when a level fills;
- a **DCA engine**, which keeps a trend-following ladder of market orders that
  add to a position as the price moves, and extends the ladder on each fill.

A **risk manager** watches the account's drawdown, trips a one-way kill switch
that closes positions and cancels orders, and places breakeven and
partial-profit orders. A **trading bot** starts the engines and then runs
cycles: a risk check, a grid update, a DCA update and an account report.

The project also models three neighbouring parts:

- the restart limiter and health check of the **auto-recovery wrapper**;
- loading and validation of the **configuration** from the environment;
- the bookkeeping of the **backtest engine**.

## Layout

| file | module | models |
|---|---|---|
| wrappers.dfy | Wrappers | `Option` and `Result` |
| numeric.dfy | Numeric | `abs`, `max` and Python's `round(x, n)` (round half to even) on exact reals |
| port.dfy | Port | the exchange client as a scripted port: queues of replies, and a log of every order, cancellation and leverage request sent |
| config.dfy | Config | `src/config.py`: the `from_env` sections over an environment map, `Config.load` and `Config.validate` |
| grid_engine.dfy | Grid | `src/grid_engine.py` |
| dca_engine.dfy | Dca | `src/dca_engine.py` |
| risk_manager.dfy | Risk | `src/risk_manager.py` |
| trading_bot.dfy | Bot | `src/trading_bot.py` |
| auto_recovery.dfy | Recovery | `AutoRecoveryBot.can_restart`, the bookkeeping of `restart_bot`, and `health_check` |
| backtest.dfy | Backtest | `src/backtest.py`: the run, both simulations and the results |

Every stateful Python object is a Dafny `class` with the same fields. Its
methods carry the loops of the source, with invariants. The effect of each
method is stated as equal to a function over plain values: the object's state
and the exchange's state before and after. The properties the source promises
are lemmas about those functions. For example, `Grid.GridEngine.UpdateGrid`
ensures that its new state is `Grid.UpdateSpec` of the old one, and
`Grid.UpdateFacts` proves what `UpdateSpec` guarantees.

## Behaviour of note

The model follows the code in each of these cases.

- Grid levels are spaced by `base*(1+0.3*i/levels)`, not evenly, so the top
  level lies above the upper bound (`Grid.LadderOvershoots`).
- `start_grid` neither cancels stale orders nor checks the 15-order cap. It
  places an order for every unfilled level (`Grid.PlaceAllAccepted`).
- `emergency_stop` leaves the engines running: the kill-switch callback has
  already cleared `is_running`, so `stop` returns at once
  (`Bot.EmergencyStopLeavesEnginesRunning`, see Findings).
- The auto-recovery health check always fails for an existing bot: the
  trading bot defines no `health_check` (`Recovery.HealthCheckNeverPasses`,
  see Findings).
- The risk check never consults the `kill_switch_enabled` setting
  (`Risk.KillSwitchSettingIgnored`).
- In the backtest's DCA pass a zero close ends the pass: the next bar's
  relative move divides by zero, and the error is caught outside the loop
  (`Backtest.DcaZeroCloseEnds`).

## Model

| member | source | states |
|---|---|---|
| Grid.CountsPartition | src/grid_engine.py:19-20 | every level is idle, active (order id, not filled) or filled, and the three counts add up to the ladder's length |
| Grid.EvolvesTransitive | src/grid_engine.py:158-176 | the "later state of a ladder" relation (only appends, positions, prices, sides and quantities kept, filled levels frozen) composes |
| Grid.ProfitRange | src/grid_engine.py:218-224 | the drawn profit fraction of an opposite order lies in [0.003, 0.008) |
| Grid.Ladder | src/grid_engine.py:53-77 | the ladder has exactly `levels` levels (none for a non-positive count) |
| Grid.LadderLevels | src/grid_engine.py:55-77 | level i of a fresh ladder has index i, the price `lower + i*base*(1 + 0.3*i/levels)` rounded to cents, the order size rounded to 4 places, no order id, is unfilled, and is a Buy exactly when its unrounded price is below the current price |
| Grid.CountsIdleLadder | src/grid_engine.py:70-75 | a fresh ladder is entirely idle |
| Grid.LevelPriceStep | src/grid_engine.py:57-58 | with a non-inverted range, a later level's unrounded price is never below an earlier one's |
| Grid.LadderOrdered | src/grid_engine.py:55-68 | ladder prices never decrease and the buys form a prefix of the ladder |
| Grid.LadderOvershoots | src/grid_engine.py:49-58 | the first level is the lower price and, with the spacing factor, the last level lies above the upper price whenever the range is not empty |
| Grid.InitFacts | src/grid_engine.py:37-86 | without a price `initialize_grid` answers false and changes only the price queue; with one it records the price, and success means the ladder was replaced by the fresh ladder; a single level fails on the division by zero |
| Grid.PlaceUpToRest | src/grid_engine.py:97-110 | the placement loop has not touched the levels it has not reached |
| Grid.PlaceUpToReplies | src/grid_engine.py:97-104 | the placement loop consumes one placement reply per unfilled level |
| Grid.PlaceUpToPort | src/grid_engine.py:97-104 | the placement loop sends exactly one Limit order per unfilled level, at its side and quantity, in ladder order; the level's price goes with it unless it is 0.0, which the client sends as no price |
| Grid.PlaceUpToLevel | src/grid_engine.py:98-108 | a level takes the id of its own placement reply only when it is successful, keeps its old id otherwise, and filled levels are skipped |
| Grid.PlaceUpToLevels | src/grid_engine.py:97-110 | the whole placement loop, level by level |
| Grid.PlaceAllAccepted | src/grid_engine.py:96-110 | `start_grid` checks no order cap: when every placement is accepted every unfilled level ends active |
| Grid.CancelUpToRest | src/grid_engine.py:127-131 | the cancellation loop has not touched the levels it has not reached |
| Grid.CancelUpToReplies | src/grid_engine.py:127-129 | the cancellation loop consumes one cancellation reply per active level |
| Grid.CancelUpToPort | src/grid_engine.py:127-129 | the cancellation loop sends one Cancel per active level, with its id, in order |
| Grid.CancelUpToLevel | src/grid_engine.py:128-131 | an id is cleared exactly when its cancellation is confirmed; filled and idle levels are left alone |
| Grid.CancelUpToLevels | src/grid_engine.py:127-131 | the whole cancellation loop, level by level |
| Grid.StartedFacts | src/grid_engine.py:96-116 | the placement pass keeps the ladder well formed, never changes a filled level and always activates the grid |
| Grid.StartFacts | src/grid_engine.py:88-120 | a ladder is built only when there is none; `start_grid` fails only when building fails, and otherwise activates the grid even when placements fail |
| Grid.StopFacts | src/grid_engine.py:122-141 | `stop_grid` cancels only active levels, clears an id only on confirmation, never touches filled levels, deactivates the grid and answers true |
| Grid.TooVolatileMeaning | src/grid_engine.py:199-204 | the volatility guard is the relative move `|price - last| / last > 0.05`, only with a current price and a truthy last price |
| Grid.OppositeStepShape | src/grid_engine.py:189-259 | an opposite order keeps the existing ladder and appends at most one level, an active one, only by consuming a placement reply |
| Grid.TargetBeyondFill | src/grid_engine.py:215-233 | the opposite target is above the fill after a Buy and below it after a Sell, also after rounding to cents |
| Grid.OppositeGuards | src/grid_engine.py:192-213 | at 15 active orders nothing happens; on a >5% move only the price is read; on a draw above 0.5 no order is sent |
| Grid.OppositeFacts | src/grid_engine.py:215-245 | an accepted opposite order appends one level at index = old length, on the opposite side, with the same quantity, at the rounded target, with its id, and the filled level unchanged |
| Grid.OppositeBeyondFill | src/grid_engine.py:215-245 | the appended level is priced at or above the fill after a Buy and at or below it after a Sell |
| Grid.VisitFacts | src/grid_engine.py:158-176 | one loop iteration reconciles its level, leaves the others alone and appends at most one active level |
| Grid.UpdateFromGrows | src/grid_engine.py:158-176 | a reconciliation pass never shortens the ladder |
| Grid.UpdateFromOld | src/grid_engine.py:158-162 | after a pass every original level is filled exactly when its order was missing from the snapshot or it was filled before; `filled` is never cleared |
| Grid.FreshReconciled | src/grid_engine.py:238-245 | a freshly appended level's id is not in the pre-fetched snapshot, so it fills in the same pass |
| Grid.UpdateFromAppended | src/grid_engine.py:158-176 | every appended level is an order placed during the pass and is itself visited and marked filled |
| Grid.VisitActive | src/grid_engine.py:193-194 | a visit never takes the active count past the cap of 15 unless it already was |
| Grid.UpdateFromActive | src/grid_engine.py:158-194 | the same for a whole pass |
| Grid.QuietPass | src/grid_engine.py:158-159 | a pass in which no level fires changes nothing |
| Grid.PassFacts | src/grid_engine.py:154-176 | a pass keeps the ladder well formed, evolves it, and leaves no level that fires against the same snapshot |
| Grid.PassSettles | src/grid_engine.py:154-176 | reconciling again against the same snapshot changes nothing |
| Grid.UpdateFacts | src/grid_engine.py:143-187 | `update_grid` answers true; inactive, or with no or empty open orders, it changes only the open-order queue; otherwise the ladder stays well formed, evolves, keeps the cap and settles |
| Grid.StatusOf | src/grid_engine.py:265-281 | active and filled counts never exceed the number of levels, and the idle levels are the rest |
| Grid.ActiveOrders | src/grid_engine.py:267 | the counting loop returns the number of active levels |
| Grid.FilledOrders | src/grid_engine.py:268 | the counting loop returns the number of filled levels |
| Grid.GridEngine.constructor | src/grid_engine.py:27-35 | an empty, inactive ladder at price 0.0 |
| Grid.GridEngine.InitializeGrid | src/grid_engine.py:37-86 | the fields and the exchange after the call are those of `InitSpec` (see InitFacts) |
| Grid.GridEngine.StartGrid | src/grid_engine.py:88-120 | the fields and the exchange after the call are those of `StartSpec` (see StartFacts), and the ladder stays well formed |
| Grid.GridEngine.PlaceInitialOrders | src/grid_engine.py:96-110 | the placement loop leaves the ladder and exchange of `PlaceUpTo` (see PlaceUpToLevels) |
| Grid.GridEngine.StopGrid | src/grid_engine.py:122-141 | the fields and the exchange after the call are those of `StopSpec` (see StopFacts) |
| Grid.GridEngine.UpdateGrid | src/grid_engine.py:143-187 | the fields and the exchange after the call are those of `UpdateSpec` (see UpdateFacts), the loop running over the growing ladder |
| Grid.GridEngine.PlaceOppositeOrder | src/grid_engine.py:189-263 | the ladder, last price, draws and exchange after the call are those of `OppositeStep` (see OppositeFacts), and the answer is whether a level was appended |
| Grid.GridEngine.GetGridStatus | src/grid_engine.py:265-281 | the status is `StatusOf` the current state |
| Grid.GridEngine.GetGridPnl | src/grid_engine.py:283-300 | the unrealised PnL summed over the positions on the traded symbol, 0.0 without positions; only the position queue is read |
| Dca.CountsPartition | src/dca_engine.py:17-19 | every level is idle, active or filled, and the three counts add up to the ladder's length |
| Dca.CountActiveFewer | src/dca_engine.py:196-197 | a ladder whose levels are each at most as active as another's has at most as many active levels |
| Dca.CountActiveNone | src/dca_engine.py:196 | a ladder with no active level counts none |
| Dca.EvolvesTransitive | src/dca_engine.py:241-272 | the "later state of a ladder" relation composes |
| Dca.EntrySide | src/dca_engine.py:217 | a DCA order buys in the trend "down" and sells in every other trend |
| Dca.TriggerFurther | src/dca_engine.py:183-190 | a level that fires at a price fires at every price further along the trend, and fires at exactly its trigger whatever the trend |
| Dca.TriggerMultiplier | src/dca_engine.py:60 | the trigger distance of level i grows as 1.0 + 0.2*i, never below 1.0 |
| Dca.Ladder | src/dca_engine.py:56-79 | the ladder has exactly `max_orders` levels (none for a non-positive count) |
| Dca.RoundMinOrderSize | src/dca_engine.py:71-76 | the minimum order size 0.001 survives rounding to 4 places |
| Dca.LadderLevels | src/dca_engine.py:58-79 | a fresh ladder is well formed and idle, level i is numbered i, triggers at `price*(1 ∓ pct/100*(1 + 0.2*i))` rounded to cents (minus only for "down"), and has quantity `max(0.001, order_size)` rounded to 4 places |
| Dca.LadderTriggerStep | src/dca_engine.py:60-68 | a later level's unrounded trigger lies further from the price along the trend |
| Dca.LadderSpread | src/dca_engine.py:58-79 | with a positive price the ladder fans out from the price: at or below it and non-increasing in a downtrend, the mirror image otherwise |
| Dca.CapNeverBinds | src/dca_engine.py:196-213 | under the engine's invariant the 15-order cap never stops a placement, because the throttle keeps the active count at most 13 |
| Dca.InitFacts | src/dca_engine.py:39-88 | disabled it succeeds and changes nothing; without a price it fails and only the price is read; otherwise the ladder is replaced by the fresh ladder and both prices are recorded |
| Dca.StartFacts | src/dca_engine.py:90-110 | disabled it changes nothing; it records the trend, builds a ladder only when there is none, fails only when that build fails, and otherwise activates the engine, keeping an existing ladder |
| Dca.CancelUpToRest | src/dca_engine.py:120-124 | the cancellation loop has not touched the levels it has not reached |
| Dca.CancelUpToReplies | src/dca_engine.py:120-122 | the cancellation loop consumes one cancellation reply per active level |
| Dca.CancelUpToPort | src/dca_engine.py:120-122 | the cancellation loop sends one Cancel per active level, in order |
| Dca.CancelUpToLevel | src/dca_engine.py:121-124 | an id is cleared exactly when its cancellation is confirmed; other levels are left alone |
| Dca.CancelUpToLevels | src/dca_engine.py:120-124 | the whole cancellation loop, level by level |
| Dca.StopFacts | src/dca_engine.py:112-133 | disabled it changes nothing; otherwise one cancellation per active level, ids dropped only on confirmation, the engine inactive, the invariant kept, the answer true |
| Dca.TooVolatileMeaning | src/dca_engine.py:202-207 | the volatility guard is the relative move `|price - last| / last > 0.08`, only with a current price and a truthy last price |
| Dca.ThrottleBound | src/dca_engine.py:212-213 | once the trade log holds 13 trades the throttle stays closed, so the log never grows past 13 |
| Dca.PlaceGuards | src/dca_engine.py:195-215 | at 15 active levels nothing happens; on a >8% move only the price is read; with `len(dca_trades) % 20 >= 13` the price is remembered but no order is sent |
| Dca.PlaceFacts | src/dca_engine.py:192-239 | a placement leaves the ladder alone and appends exactly one trade record, on the trend's side, of the asked quantity, with the returned id, exactly when it returns an id, and only while the throttle is open |
| Dca.TriggerAtFacts | src/dca_engine.py:151-159 | one visit changes at most its own level, and gives it an id exactly when a trade with that id was recorded |
| Dca.TriggerUpToRest | src/dca_engine.py:151 | the trigger loop has not touched the levels it has not reached |
| Dca.TriggerUpToLevel | src/dca_engine.py:152-158 | a visited level is unchanged, or was idle, had its trigger crossed, and now has an order id |
| Dca.TriggerUpToCount | src/dca_engine.py:156-227 | the loop records exactly one trade per level it activates |
| Dca.TriggerUpToThrottle | src/dca_engine.py:212-213 | the loop never takes the trade log past 13 |
| Dca.TriggerUpToLog | src/dca_engine.py:217-227 | the loop only appends to the trade log, every new trade on the trend's side, and never touches the open-order queue |
| Dca.TriggerFacts | src/dca_engine.py:151-168 | only idle levels whose trigger the price crossed change, each getting an id only from an accepted placement, and the log grows by exactly the number of newly active levels |
| Dca.NextTriggerFurther | src/dca_engine.py:282-289 | the next level's trigger is one step of the trigger percentage further along the trend, also after rounding |
| Dca.CreateNextGuard | src/dca_engine.py:268-279 | the guard inside `_create_next_dca_level` is the caller's guard, so it never refuses |
| Dca.VisitFacts | src/dca_engine.py:252-269 | a visit reconciles its level, leaves the others alone and appends at most the next level of a fill |
| Dca.SpawnedIdle | src/dca_engine.py:277-293 | every spawned level is idle, numbered below `max_orders`, with the configured order size |
| Dca.SpawnedNumbered | src/dca_engine.py:277 | a spawned level is numbered at least 1 |
| Dca.QuietPass | src/dca_engine.py:252-253 | a pass in which no level fires changes nothing |
| Dca.MidwayEnd | src/dca_engine.py:252-293 | past the original levels the loop visits only spawned idle levels, none of which fires |
| Dca.CheckExact | src/dca_engine.py:241-272 | though the ladder grows under it, the loop yields every original level reconciled followed by the next level of each fill below `max_orders - 1`, in ladder order |
| Dca.CheckShape | src/dca_engine.py:252-293 | the same, as a shape: original levels reconciled, then spawned levels |
| Dca.CheckCount | src/dca_engine.py:252-293 | a pass never adds an active level |
| Dca.CheckFacts | src/dca_engine.py:241-272 | a pass keeps the ladder well formed, evolves it, leaves no level firing against the same snapshot, and no more active levels |
| Dca.TriggerKeeps | src/dca_engine.py:151-159 | the trigger loop keeps the ladder well formed and evolves it |
| Dca.UpdateFacts | src/dca_engine.py:135-181 | it answers true; never changes activity or trend; only appends trades, on the trend's side; leaves no level firing against the snapshot it read; keeps the invariant, so at most 13 trades ever |
| Dca.CancelRequestsCount | src/dca_engine.py:305-307 | one cancellation per active level |
| Dca.ForgetUpToRest | src/dca_engine.py:305 | the loop has not touched the levels it has not reached |
| Dca.ForgetUpToPort | src/dca_engine.py:305-307 | the loop sends one Cancel per active level, in order |
| Dca.TrendFacts | src/dca_engine.py:298-317 | the same trend changes nothing; a new trend cancels every active level and forgets its id whatever the answer, then the ladder is the fresh one for the new trend, or empty when no price is available |
| Dca.StatusOf | src/dca_engine.py:319-334 | active and filled counts never exceed the number of levels, and the rest are idle |
| Dca.ActiveOrders | src/dca_engine.py:321 | the counting loop returns the number of active levels |
| Dca.FilledOrders | src/dca_engine.py:322 | the counting loop returns the number of filled levels |
| Dca.DcaEngine.constructor | src/dca_engine.py:26-37 | empty ladder, inactive, prices 0.0, trend "none", no trades |
| Dca.DcaEngine.InitializeDca | src/dca_engine.py:39-88 | the fields and exchange after the call are those of `InitSpec` (see InitFacts) |
| Dca.DcaEngine.BuildLadder | src/dca_engine.py:56-79 | the building loop leaves the fresh ladder |
| Dca.DcaEngine.StartDca | src/dca_engine.py:90-110 | the fields and exchange after the call are those of `StartSpec` (see StartFacts) |
| Dca.DcaEngine.StopDca | src/dca_engine.py:112-133 | the fields and exchange after the call are those of `StopSpec` (see StopFacts) |
| Dca.DcaEngine.CancelLevels | src/dca_engine.py:120-124 | the cancellation loop leaves the ladder and exchange of `CancelUpTo` (see CancelUpToLevels) |
| Dca.DcaEngine.UpdateDca | src/dca_engine.py:135-181 | the fields and exchange after the call are those of `UpdateSpec` (see UpdateFacts) |
| Dca.DcaEngine.TriggerLevels | src/dca_engine.py:151-168 | the trigger loop leaves the ladder, trade log, last price and exchange of `TriggerUpTo` (see TriggerFacts) |
| Dca.DcaEngine.PlaceDcaOrder | src/dca_engine.py:192-239 | the trade log, last price and exchange after the call, and the id returned, are those of `PlaceStep` (see PlaceFacts) |
| Dca.DcaEngine.CheckFilledOrders | src/dca_engine.py:241-272 | the ladder and exchange after the call are those of `CheckSpec` (see CheckExact), the loop running over the growing ladder |
| Dca.DcaEngine.CreateNextDcaLevel | src/dca_engine.py:274-296 | the ladder after the call is `CreateNext` of the old one |
| Dca.DcaEngine.UpdateTrendDirection | src/dca_engine.py:298-317 | the fields and exchange after the call are those of `TrendSpec` (see TrendFacts) |
| Dca.DcaEngine.ForgetActive | src/dca_engine.py:305-308 | the loop leaves the ladder and exchange of `ForgetUpTo` |
| Dca.DcaEngine.GetDcaStatus | src/dca_engine.py:319-334 | the status is `StatusOf` the current state |
| Dca.DcaEngine.GetDcaPnl | src/dca_engine.py:336-353 | the unrealised PnL summed over the positions on the traded symbol, 0.0 without positions; only the position queue is read |
| Risk.DrawdownFacts | src/risk_manager.py:94 | below the peak the drawdown lies between 0 and 100 percent (100 only at a zero balance) and is 0 exactly at the peak or without a positive peak |
| Risk.DrawdownTrips | src/risk_manager.py:94-127 | with a positive peak, the drawdown reaches the limit exactly when the balance has fallen by at least that percentage of the peak |
| Risk.MarginRatioHigh | src/risk_manager.py:99-137 | the margin ratio exceeds 80 exactly when the equity is positive and more than 80% of it is in use as margin |
| Risk.UsdtFrom | src/risk_manager.py:77-81 | the search stops at the first "USDT" entry, and every entry before it is another coin |
| Risk.FindUsdt | src/risk_manager.py:77-81 | the loop yields the wallet balance and equity of the first "USDT" entry, or zeros when there is none |
| Risk.SumPositions | src/risk_manager.py:84-88 | the loop yields the totals of unrealised PnL, realised PnL and initial margin over the positions on the configured symbol |
| Risk.MetricsFacts | src/risk_manager.py:56-114 | metrics exist exactly when a balance and a non-empty position list are available; reading them changes only the high-water marks, which never decrease; the peak becomes the larger of itself and the balance; the current drawdown is non-negative and at most the recorded worst |
| Risk.CloseRequestsFacts | src/risk_manager.py:172-185 | every closing order is a market order of positive size with no price for a position on the symbol with a positive size; none is sent exactly when no such position exists |
| Risk.OrderCancelsFacts | src/risk_manager.py:187-192 | every cancellation is for an open order on the configured symbol |
| Risk.KillFacts | src/risk_manager.py:158-199 | the kill switch is one-way and acts once: afterwards it is set and nothing else of the manager changed; a second trip does nothing; the first sends the closing orders and then the cancellations; the callback runs exactly when one is set |
| Risk.ProtectUpToBook | src/risk_manager.py:201-218 | the breakeven and partial-profit records only grow (no entry is removed or replaced) and every new entry belongs to a due position |
| Risk.ProtectUpToSent | src/risk_manager.py:208-276 | the scan sends at most one order per position, each the order a due position calls for, appended after what was sent before, and reads no other query |
| Risk.ProtectQuiet | src/risk_manager.py:214-275 | when every due position already has an order recorded, the scan sends and records nothing |
| Risk.ProtectSpecBook | src/risk_manager.py:201-261 | the whole opportunity check never removes or replaces a recorded order |
| Risk.CheckRiskFacts | src/risk_manager.py:116-156 | a check fails exactly when the kill switch was already set or the drawdown reached the limit; the switch is set after every failing check and after no passing one; the bot is called back only by the check that trips it; high-water marks never decrease and order records only grow |
| Risk.KillSwitchSettingIgnored | src/risk_manager.py:116-156 | the kill_switch_enabled setting makes no difference to a risk check |
| Risk.RiskManager.constructor | src/risk_manager.py:27-42 | a new manager has the switch off, no order records, zero high-water marks and no callback |
| Risk.RiskManager.SetKillSwitchCallback | src/risk_manager.py:44-46 | registers the callback and changes nothing else |
| Risk.RiskManager.GetRiskMetrics | src/risk_manager.py:56-114 | the manager's new state, the exchange traffic and the answer are those of the metrics specification (whose properties are proved in MetricsFacts) |
| Risk.RiskManager.CheckRiskLimits | src/risk_manager.py:116-156 | the new state, exchange traffic, answer and callback are those of the risk-check specification (see CheckRiskFacts) |
| Risk.RiskManager.TriggerKillSwitch | src/risk_manager.py:158-199 | the new state, exchange traffic and callback are those of the kill-switch specification (see KillFacts) |
| Risk.RiskManager.ClosePositions | src/risk_manager.py:174-185 | the loop sends exactly the closing orders of the positions on the symbol, in order |
| Risk.RiskManager.CancelOrders | src/risk_manager.py:189-192 | the loop sends exactly the cancellations of the open orders on the symbol, in order |
| Risk.RiskManager.CheckBreakevenOpportunities | src/risk_manager.py:201-218 | the breakeven record and the traffic are those of the breakeven scan (see ProtectUpToBook and ProtectUpToSent); nothing else changes |
| Risk.RiskManager.PlaceBreakevenOrder | src/risk_manager.py:220-254 | sends a limit order for the whole size on the closing side, at the entry price unless that is 0.0 (then with no price), and records its id when accepted |
| Risk.RiskManager.CheckPartialProfitOpportunities | src/risk_manager.py:256-279 | the partial-profit record and the traffic are those of the scan over positions whose price doubled (long) or halved (short) |
| Risk.RiskManager.PlacePartialProfitOrder | src/risk_manager.py:281-310 | sends a market order for partial_profit_percent of the size on the closing side and records its id when accepted |
| Risk.RiskManager.ResetKillSwitch | src/risk_manager.py:312-315 | clears the kill switch and nothing else |
| Bot.StartFacts | src/trading_bot.py:39-76 | starting a running bot changes nothing; otherwise the bot runs afterwards exactly when the start succeeds, which needs the connection; after a successful start the grid is active, DCA too when enabled, and the risk manager is untouched |
| Bot.StopFacts | src/trading_bot.py:78-103 | stopping always answers true and leaves the bot not running; a stopped bot is unchanged; a running one ends with the grid inactive, DCA inactive when enabled and the client disconnected |
| Bot.OnKillSwitch | src/trading_bot.py:172-175 | the kill-switch callback clears the running flag and nothing else |
| Bot.EmergencyStopLeavesEnginesRunning | src/trading_bot.py:105-114 | as written, an emergency stop of a running bot leaves both engines exactly as they were and the connection as it was, because the callback already cleared `running` and `stop` returns at once |
| Bot.EmergencyStopIntendedFacts | src/trading_bot.py:105-114 | the corrected emergency stop leaves the bot not running, the kill switch set, the grid inactive, DCA inactive when enabled and the client disconnected |
| Bot.LogStatusFacts | src/trading_bot.py:142-170 | the account report sends nothing and reads only the balance and, unless the USDT entry lacks its used margin, the positions |
| Bot.CycleFacts | src/trading_bot.py:116-140 | a cycle goes on exactly when the kill switch is not set after the risk check; a failed check stops the bot before either engine is updated; a passing one keeps `running`; a set kill switch implies the bot is stopped; high-water marks never fall and every component keeps its invariant |
| Bot.RunFacts | src/trading_bot.py:116-140 | over the whole loop, a set kill switch means the bot is no longer running, the high-water marks never fall and the invariants hold |
| Bot.TotalReturnMeaning | src/trading_bot.py:219-221 | the return percentage gives the balance back from the initial capital, and with positive capital it is positive exactly when the balance grew and zero exactly when it is unchanged |
| Bot.PerformanceOf | src/trading_bot.py:209-235 | there is a report exactly when metrics exist and the initial capital is not zero (else the division error); the reported return reproduces the current balance and the drawdowns are the risk manager's |
| Bot.TradingBot.constructor | src/trading_bot.py:18-37 | the engines and the risk manager share the bot's client, the kill-switch callback is registered, and everything starts idle |
| Bot.TradingBot.Start | src/trading_bot.py:39-76 | the new state, exchange traffic and answer are those of the start specification (see StartFacts) |
| Bot.TradingBot.Stop | src/trading_bot.py:78-103 | the new state, traffic and answer are those of the stop specification (see StopFacts) |
| Bot.TradingBot.EmergencyStop | src/trading_bot.py:105-114 | the new state, traffic and answer are those of the emergency-stop specification as written (see EmergencyStopLeavesEnginesRunning) |
| Bot.TradingBot.OnKillSwitchCalled | src/trading_bot.py:172-175 | the bot state becomes that of the kill-switch callback |
| Bot.TradingBot.RunCycle | src/trading_bot.py:119-134 | one pass of the loop yields the state, traffic and answer of the cycle specification (see CycleFacts) |
| Bot.TradingBot.MainLoop | src/trading_bot.py:116-140 | the loop ends in the state the run specification gives for the sequence of cycle times (see RunFacts) |
| Bot.TradingBot.LogAccountStatus | src/trading_bot.py:142-170 | the reads the report makes are those of its specification (see LogStatusFacts) |
| Bot.TradingBot.GetPerformanceMetrics | src/trading_bot.py:209-235 | reads the metrics as the risk manager does and answers the performance report or the error for them |
| Recovery.Window | auto_recovery_bot.py:125 | the pruned window is never longer than the history |
| Recovery.WindowMembers | auto_recovery_bot.py:125 | a time is kept exactly when it was recorded and is less than an hour before `now` |
| Recovery.WindowLater | auto_recovery_bot.py:122-125 | pruning at a time no earlier than a previous pruning gives the same window as pruning once at the later time |
| Recovery.WindowIdempotent | auto_recovery_bot.py:125 | pruning a window again at the same time changes nothing |
| Recovery.AppendAt | auto_recovery_bot.py:140 | a restart time appended to two histories that agreed on the window joins both windows alike, exactly when it is recent |
| Recovery.BackwardClockExceedsLimit | auto_recovery_bot.py:120-140 | with a clock that steps back, restarts at 0..9, 10000 and 5 are each allowed, yet twelve lie within the hour before 5 |
| Recovery.Prune | auto_recovery_bot.py:125 | the comprehension loop keeps exactly the window, in order |
| Recovery.HealthCheckAsWritten | auto_recovery_bot.py:89-118 | as written the check always answers false: the bot has no `health_check` method and a missing bot fails anyway |
| Recovery.HealthCheckNeverPasses | auto_recovery_bot.py:95 | a record whose every indicator is healthy still fails the check as written |
| Recovery.Issues | auto_recovery_bot.py:98-108 | a record has at most five critical issues |
| Recovery.IssuesEmpty | auto_recovery_bot.py:98-114 | a record has no critical issue exactly when the bot runs, its thread is alive, Bybit and the API are connected and the risk switch is not set |
| Recovery.AutoRecovery.constructor | auto_recovery_bot.py:26-35 | a new wrapper has no bot, no restarts counted and no restart times |
| Recovery.AutoRecovery.CanRestart | auto_recovery_bot.py:120-132 | for any time, the restart times become the window of the last hour and the answer is true exactly when it holds fewer than 10 entries; nothing else changes; the limiter invariant is kept when the clock has not stepped back |
| Recovery.AutoRecovery.RestartBot | auto_recovery_bot.py:134-140 | a refused restart changes nothing but the pruning; an allowed one counts exactly one restart and records the second clock reading; it is allowed exactly when the pruned window holds fewer than 10; while the clock never steps back, no more than 10 allowed restarts fall within the hour before the request or any later time |
| Recovery.AutoRecovery.HealthCheck | auto_recovery_bot.py:89-118 | the corrected check answers true exactly when there is a bot and the issue list is empty, that is, exactly when the bot is healthy |
| Config.GetEnv | src/config.py:23-24 | `os.getenv(key, default)`: the set value when the key is set, the default otherwise |
| Config.LookupEnv | src/config.py:135-136 | `os.getenv(key)`: a value exactly when the key is set |
| Config.Lower | src/config.py:25 | lower-casing keeps the length and lowers each character |
| Config.FlagMeaning | src/config.py:25 | a boolean setting is true exactly when it is unset or its lower-cased value is "true"; "TRUE" is true, "false" and "1" are false |
| Config.IntRoundTrip | src/config.py:39-110 | `int` reads back every integer written in decimal, with or without a sign |
| Config.ParseIntLiteral | src/config.py:39-110 | `int` reads back every non-negative integer written in decimal |
| Config.ParseFloatDecimal | src/config.py:55-59 | `float` reads an unsigned decimal `whole.frac` as its value |
| Config.ParseFloatWhole | src/config.py:40 | `float` reads an unsigned whole number as its value |
| Config.TradingDefaults | src/config.py:36-41 | with nothing set, trading uses BTCUSDT, leverage 10 and capital 1000.0 |
| Config.GridDefaults | src/config.py:53-60 | with nothing set, the grid has 20 levels between 50000.0 and 70000.0 |
| Config.DcaDefaults | src/config.py:71-77 | with nothing set, DCA is enabled with 5 orders at a 2.0% trigger |
| Config.RiskDefaults | src/config.py:89-96 | with nothing set, the kill switch, breakeven and partial profit are enabled, with 20.0% maximum drawdown and 50.0% partial profit |
| Config.OtherDefaults | src/config.py:106-152 | with nothing set, logging, backtest and Bybit settings take their documented defaults (no credentials, demo mode) |
| Config.Defaults | src/config.py:167-180 | with nothing set, loading succeeds |
| Config.DefaultsInvalid | src/config.py:167-194 | the configuration loaded with nothing set fails validation for want of credentials |
| Config.LoadBadNumber | src/config.py:36-41 | a leverage setting that `int` cannot read (decimal digits of any script are read) makes loading fail |
| Config.ParseIntOtherDigits | src/config.py:39 | `int` reads full-width and Arabic-Indic digits, with Unicode white space around them, as it reads ASCII digits |
| Config.LoadThenValidate | src/config.py:167-194 | a loaded configuration validates exactly when the API key and secret settings are non-empty and the leverage setting reads as an integer in 1..100; no other setting (the grid prices included) affects validation |
| Port.Closing | src/risk_manager.py:178 | the closing side of a position is Sell exactly for a Buy position |
| Port.Quote | src/grid_engine.py:41-44 | `if not price`: a price is usable exactly when one came back and it is not zero |
| Port.Snapshot | src/grid_engine.py:150-154 | `if not open_orders`: an id snapshot exists exactly when the open-order list is non-empty, and it holds exactly those orders' ids |
| Port.TotalAppend | src/grid_engine.py:290-296 | the per-symbol sum splits over concatenation |
| Port.TotalOthers | src/grid_engine.py:293 | positions on other symbols contribute nothing to the sum |
| Port.SumOn | src/grid_engine.py:290-296 | the summing loop yields the per-symbol total |
| Port.IssueAllLogs | src/bybit_client.py:107-167 | issuing a batch of requests appends exactly them to the log and consumes no query reply |
| Port.Exchange.constructor | src/bybit_client.py:14-37 | a client starts from its script of replies |
| Port.Exchange.Connect | src/bybit_client.py:39-53 | answers the scripted connection reply and consumes it |
| Port.Exchange.Disconnect | src/bybit_client.py:55-60 | clears the connected flag and nothing else |
| Port.Exchange.GetCurrentPrice | src/bybit_client.py:91-105 | answers the next scripted price (None for a failure) and consumes it |
| Port.Exchange.GetOpenOrders | src/bybit_client.py:169-183 | answers the next scripted open-order list and consumes it |
| Port.Exchange.GetPositions | src/bybit_client.py:75-89 | answers the next scripted position list and consumes it |
| Port.Exchange.GetAccountBalance | src/bybit_client.py:62-73 | answers the next scripted balance and consumes it |
| Port.Exchange.PlaceOrder | src/bybit_client.py:107-141 | logs the order as sent, without a price when the price is None or 0.0, and answers the next scripted order id (None for a rejection) |
| Port.PriceField | src/bybit_client.py:119-120 | a price is sent exactly when it is present and not 0.0, and then unchanged |
| Port.Exchange.CancelOrder | src/bybit_client.py:143-167 | logs the cancellation and answers the next scripted reply |
| Port.Exchange.SetLeverage | src/bybit_client.py:202-220 | logs the leverage request and answers the next scripted reply |
| Numeric.RoundMonotone | src/grid_engine.py:72 | `round(x, n)` never reverses the order of two values |
| Numeric.RoundIsClose | src/grid_engine.py:72-74 | `round(x, n)` moves a value by at most half a unit of the last place kept |
| Numeric.RatioAbove | src/risk_manager.py:137 | a ratio exceeds `c` exactly when the numerator exceeds `c` times the positive denominator |
| Backtest.UniformRange | src/backtest.py:304-307 | a `random.uniform(a, b)` draw lies between its bounds |
| Backtest.Liquidation | src/backtest.py:337-402 | the liquidation clamp never lets a trade lose more than 80% of its margin, and leaves every smaller loss or any gain as it is |
| Backtest.SumPnlAppend | src/backtest.py:352-417 | the summed results of two runs of trades are the sum of their totals |
| Backtest.GridExitFacts | src/backtest.py:295-319 | a winning grid trade exits in its favour (above the entry for a Buy, below for a Sell) and a losing one against it |
| Backtest.GridTradeForFacts | src/backtest.py:276-350 | a grid trade is made exactly when the leverage is non-zero, the margin needs no more than half the balance and levels are configured; it then enters at the price with the configured size, buys exactly below the level and loses no more than the liquidation |
| Backtest.DcaTradeForFacts | src/backtest.py:362-413 | a DCA trade is made exactly when the leverage is non-zero and the margin needs no more than half the balance; it is a Buy at the price with the configured size, losing no more than the liquidation |
| Backtest.GridTradeFacts | src/backtest.py:276-360 | a grid trade either changes nothing or appends exactly one trade, adding its result to both the balance and the PnL total, and uses two random draws |
| Backtest.DcaTradeFacts | src/backtest.py:362-423 | a DCA trade either changes nothing or appends exactly one trade, adding its result to both the balance and the PnL total, and uses three random draws |
| Backtest.MinClose | src/backtest.py:200 | the lowest closing price is at most every close and is one of them |
| Backtest.MaxClose | src/backtest.py:201 | the highest closing price is at least every close and is one of them |
| Backtest.GridPricesFacts | src/backtest.py:205-215 | the simulated grid starts at its lower bound, its prices are evenly spaced, and its last price is the upper bound |
| Backtest.HitFrom | src/backtest.py:229-236 | the level search finds the first level within the tolerance of the price, no earlier level being that close |
| Backtest.PlanOf | src/backtest.py:199-231 | the simulated grid has exactly the configured number of levels |
| Backtest.GridRunFacts | src/backtest.py:225-236 | the grid pass makes at most one trade per bar, each a grid trade limited by the liquidation whose result is added to balance and total |
| Backtest.GridSimFacts | src/backtest.py:193-239 | the whole grid simulation makes at most one trade per bar, each limited by the liquidation and accumulated into balance and total |
| Backtest.DcaFirstFacts | src/backtest.py:257-263 | the first DCA trigger of a bar makes at most one accumulated DCA trade |
| Backtest.DcaSecondFacts | src/backtest.py:254-269 | from a non-zero previous close, the additional DCA trigger of a bar makes at most one accumulated DCA trade, and a move below 40% of the trigger percentage neither draws nor trades |
| Backtest.DcaBarFacts | src/backtest.py:250-273 | one bar makes at most two DCA trades, each accumulated; a bar after a zero close, or after the pass ended, trades nothing and the pass stays ended; otherwise the bar's close becomes the previous close |
| Backtest.DcaRunFacts | src/backtest.py:250-273 | the DCA pass, ending at a zero close, makes at most two trades per bar, each a DCA trade limited by the liquidation and accumulated |
| Backtest.DcaSimFacts | src/backtest.py:241-274 | the whole DCA simulation, ended by the caught division error at a zero close, makes at most two trades per bar, each limited by the liquidation and accumulated |
| Backtest.DcaRunStopped | src/backtest.py:250-274 | once the DCA pass has ended, later bars change nothing |
| Backtest.DcaRunPrefix | src/backtest.py:250-271 | the pass over the first n bars depends only on those bars |
| Backtest.DcaRunLast | src/backtest.py:271 | after a bar the pass has ended or holds that bar's close as the previous close |
| Backtest.DcaZeroCloseEnds | src/backtest.py:250-274 | a zero close ends the DCA pass: the simulation equals the simulation over the bars up to that close, so later bars make no trade and use no draw |
| Backtest.TallyFacts | src/backtest.py:433-447 | every trade is counted once, as a winner or a loser; the summed wins and losses are non-negative and differ by the net result; no winners exactly when no trade made money, no losers exactly when every trade did |
| Backtest.WinRateRange | src/backtest.py:450 | the win rate is a percentage between 0 and 100 |
| Backtest.ResultsFacts | src/backtest.py:425-481 | results exist exactly when the initial capital is non-zero; trades counted equal winners plus losers; the final capital is the initial capital plus the PnL total; the win rate is a percentage (0 without trades); the profit factor is infinite exactly when no trade lost money |
| Backtest.RunTrades | src/backtest.py:159-170 | a run's trades, from the grid pass and then the DCA pass when enabled, leave the balance and the PnL total each raised by their summed results |
| Backtest.RunFacts | src/backtest.py:153-191 | without data a run fails and changes nothing; otherwise the trades are replaced, the balance is the initial capital plus their results, the drawdown mark and reported maximum drawdown are 0.0, and the final capital still carries the PnL total of earlier runs |
| Backtest.RunIntendedFinal | src/backtest.py:159-163 | with the PnL total reset by the run, the final capital is the balance the run ends with whatever earlier runs did |
| Backtest.BacktestEngine.constructor | src/backtest.py:46-56 | a new engine has no trades, a zero balance, peak, drawdown mark and PnL total |
| Backtest.BacktestEngine.RunBacktest | src/backtest.py:153-191 | the new engine state and the answer are those of the run specification (see RunFacts) |
| Backtest.BacktestEngine.SimulateGridTrading | src/backtest.py:193-239 | the trades, balance and total become those of the grid simulation (see GridSimFacts); the data, peak and drawdown mark are untouched |
| Backtest.BacktestEngine.GridPass | src/backtest.py:225-236 | the loop over the bars yields the grid pass over all of them |
| Backtest.BacktestEngine.GridStep | src/backtest.py:226-236 | one bar extends the grid pass by that bar |
| Backtest.BacktestEngine.SimulateGridTrade | src/backtest.py:276-360 | the trades, balance and total become those of one grid trade (see GridTradeFacts) |
| Backtest.BacktestEngine.SimulateDcaTrading | src/backtest.py:241-274 | the loop leaves at a zero previous close, as the caught division error does, and the trades, balance and total become those of the DCA simulation (see DcaSimFacts, DcaZeroCloseEnds) |
| Backtest.BacktestEngine.DcaStep | src/backtest.py:253-271 | one bar after a non-zero previous close applies the DCA bar rule and reports whether the big move was taken |
| Backtest.BacktestEngine.DcaSecondStep | src/backtest.py:265-269 | from a non-zero previous close, the additional trigger consumes its draw and makes the trade it calls for |
| Backtest.BacktestEngine.SimulateDcaTrade | src/backtest.py:362-423 | the trades, balance and total become those of one DCA trade (see DcaTradeFacts) |
| Backtest.BacktestEngine.CalculateResults | src/backtest.py:425-481 | the results are those of the results specification (see ResultsFacts) |
| Backtest.BuildPlan | src/backtest.py:199-215 | the set-up computes the simulated grid and its tolerance |
| Backtest.BuildGridPrices | src/backtest.py:212-215 | the loop builds `levels` prices from the lower bound, one spacing apart (none for a non-positive count) |
| Backtest.FindHit | src/backtest.py:229-236 | the search loop stops at the first level within the tolerance |
| Backtest.TallyTrades | src/backtest.py:433-447 | the tally loop yields the counts and sums of the tally (see TallyFacts) |

## Left out

- Logging, console output and the logger's event records are not modelled: they change no state the core reads.
- Threads, `time.sleep`, `join` and the cycle interval are left out. The main loop is modelled as a sequence of cycles at given times; concurrent stop requests are not modelled.
- Time is a parameter. `time.time()` (fill stamps, restart times) is passed in as `now`.
- Recovery.AutoRecovery.CanRestart, Recovery.AutoRecovery.RestartBot: `time.time()` is a wall clock that may step back. The pruning and the answers are modelled for any clock readings. The bound of 10 restarts per hour holds only while the clock never steps back, in the source as in the model (`Recovery.BackwardClockExceedsLimit`). `restart_bot` reads the clock twice, once in `can_restart` and once for the recorded time; the model takes both readings as parameters (`now`, `stamp`).
- Randomness is a parameter. `random.random()` is an injected stream of draws in [0, 1) with a counter of draws used, and `random.uniform(a, b)` is `a + (b-a)*u`.
- Floats are modelled as exact reals. Rounding errors of binary floating point are not modelled; `round` is modelled exactly, ties to even.
- Where Python's float division by zero raises, the model takes the error path the source catches. The backtest's bar closes are Python floats, so:
  - a zero leverage raises in the margin computation, and the trade is skipped;
  - a zero previous close raises in the DCA pass's relative move, and the pass ends.
- Only the backtest's grid plan is numpy data (`data['close'].min()` and `max()`). Where a numpy division yields inf or nan, the model takes the branch the comparison with inf or nan takes:
  - a single grid level hits no level;
  - equal configured grid bounds make the win rate of a grid trade inf or nan (the distance to the grid price is a numpy value), so the trade takes the losing branch.
- The Bybit client (`src/bybit_client.py`) is a scripted port. Its HTTP calls, response parsing and `retCode` handling are reduced to the reply each call yields. `get_order_history`, `get_klines`, `request_demo_funds` and the websocket client are not part of this model.
- `src/database.py`, `src/logger.py`, the CLI (`main.py`) and the helper scripts (`monitor_bot.py`, `run_forever.py`, `quick_start.py`, `check_status.py`, `setup.py`, the test scripts) are not part of this model.
- `AutoRecoveryBot.recovery_loop`, `run`, `self_heal`, `load_config`, `create_bot`, `start_bot` and `stop_bot` are left out: they are thread, sleep and process supervision. `Recovery.AutoRecovery.RestartBot` models only the bookkeeping of `restart_bot`, not its stop and start calls.
- `get_status`, `get_risk_status`, `get_grid_status` and `get_dca_status` build report dictionaries. Only the counts they report are modelled (`Grid.StatusOf`, `Dca.StatusOf`).
- The breakeven and partial-profit callbacks of the trading bot only log. The model records only whether the kill-switch callback is registered and called.
- `is_active`, `is_running` and `is_kill_switch_triggered` are field reads, modelled as predicates without rows.
- Backtest data loading (HTTP, pandas, CSV), the Sharpe ratio (numpy mean and standard deviation), trade display and export, and `get_trade_history` are not modelled. The Sharpe ratio field is absent from `Backtest.BacktestResult`.
- `Bot.TradingBot.LogAccountStatus` models only the reads the report makes. A missing `usedMargin` field raises `KeyError` before the positions are read; the model keeps that effect and drops the figures it logs.
- The trading bot passes `config.strategy`, a field `Config` does not have, to engine constructors that take three parameters. The model uses the three-parameter constructors.
- Config.ParseInt, Config.ParseFloat: accept optionally signed decimal literals in the decimal digits of any script (Unicode 15.0, category Nd), with surrounding white space as Python's `str.isspace` defines it. Python's `int` also accepts underscore separators (`1_000`), and `float` also accepts exponents, `inf`, `nan` and underscores; the model reads those as failures. `Config.Load` reports a setting that does not parse as a `Failure`, where Python raises `ValueError`.
- Grid.UpdateFrom: the reconciliation pass over the growing ladder is shown to end because the exchange script holds finitely many placement replies. In the source it ends because each appended level needs an accepted placement and a draw of at most 0.5, which the model does not use as a termination argument.

## Findings

| source | as written | input that shows it | evidently intended | confidence | as-written member | corrected member |
|---|---|---|---|---|---|---|
| src/trading_bot.py:105-114 | `emergency_stop` trips the kill switch, whose callback (:172-175) clears `running`; the `stop()` that follows then returns at its first test without stopping the engines or disconnecting | a running bot whose kill switch is not set, with active grid levels | the engines stopped, their orders cancelled and the client disconnected | high, not executed | Bot.EmergencyStopLeavesEnginesRunning | Bot.EmergencyStopIntendedFacts |
| auto_recovery_bot.py:92-114 | `health_check` calls `self.bot.health_check()`, which the trading bot does not define; the `AttributeError` is caught and the check answers false whenever a bot exists | any bot, with every indicator healthy | true exactly when the bot runs, its thread is alive, Bybit and the API are connected and the risk switch is not set | high, not executed | Recovery.HealthCheckNeverPasses | Recovery.AutoRecovery.HealthCheck |
| src/backtest.py:160-163 | `run_backtest` resets the balance, peak, drawdown and trades but not `total_pnl`, which `_calculate_results` (:429) adds to the initial capital | a second `run_backtest` on the same engine after a first run that made trades: `final_capital` is the ending balance plus the first run's total | `final_capital` equal to the initial capital plus this run's results | high, not executed | Backtest.RunFacts | Backtest.RunIntendedFinal |
