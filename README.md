# TradingView signal agent: paper-trading core

This project models the paper-trading engine of the ValueCell TradingView
signal agent and proves properties of the model. A session starts with an
amount of capital. It opens leveraged long and short positions on crypto
symbols and sets aside each position's margin (notional / leverage). It
re-marks positions at new prices, closes them on stop loss, take profit,
invalidation or request, and reports portfolio statistics.

The model follows the source file by file:

- `common.dfy` (module `Common`): Option and Result, position side, absolute value, ASCII case mapping, substring tests.
- `models.dfy` (module `Models`): the records of `models.py`:
  - invalidation rules and the check that fires them;
  - MACD and RSI predicates;
  - positions and their unrealised P&L;
  - closed positions and the session configuration;
  - the conversion of a recommendation into a trade signal.
- `risk_manager.dfy` (module `Risk`): every calculation of `risk_manager.py`, as pure functions:
  - position sizing;
  - ATR-based stops;
  - volatility adjustments of size and leverage;
  - portfolio heat and trade-risk assessment;
  - take-profit ladders and the margin check.
- `ledger.dfy` (module `Ledger`): the state of `PositionManager` as a value, `LedgerState`. It holds:
  - the current capital;
  - the open positions, keyed by symbol;
  - the symbols in dictionary order;
  - the closed positions and the trade log.

  Each operation of `position_manager.py` is a transition on it. The invariant `Valid` and the accounting lemmas are proved about these transitions.
- `position_manager.dfy` (module `Positions`): class `PositionManager`. Its fields are those of the Python object and its methods change them in place. Every method is proved to end in exactly the state the matching `Ledger` transition gives, so every ledger lemma applies to the object.
- `performance_analytics.dfy` (module `Performance`):
  - trade statistics;
  - the maximum-drawdown walk and the Sharpe ratio;
  - the period report of `get_trading_statistics`;
  - class `PerformanceAnalytics`.
- `portfolio_manager.dfy` (module `Portfolio`):
  - the portfolio summary;
  - the admission check for a new position;
  - the price and invalidation sweeps;
  - class `PortfolioManager`.
- `technical_analyzer.dfy` (module `Technical`): the indicator analyses and their synthesis into an action, a direction and a confidence.
- `decision_engine.dfy` (module `Decisions`):
  - confidence bands;
  - the step that gives every held position a "hold" decision when the language model names none;
  - the fallback recommendation.
- `agent.dfy` (module `Agent`):
  - request routing;
  - symbol extraction;
  - the choice of symbols for a new session;
  - session registration.
- `model_provider.dfy` (module `ModelProvider`): the provider choice and model-id cleaning of `utils/model.py`.

Prices, quantities and money are `real`: the model is exact arithmetic, not
floating point. Timestamps are integer seconds. Identifiers, clocks, the
square root and environment variables are parameters.

## Model

| member | source | states |
|---|---|---|
| Models.TailSlice | python/valuecell/agents/tradingview_signal_agent/models.py:62-66 | Python's `candles[-k:]`: the last k elements for 0 < k <= length, the whole list for k = 0 (since -0 is 0) and for k above the length |
| Models.AllCloseBelowIff | python/valuecell/agents/tradingview_signal_agent/models.py:62-63 | the `all(... < trigger)` test holds iff every close in the list is strictly below the trigger |
| Models.AllCloseAboveIff | python/valuecell/agents/tradingview_signal_agent/models.py:66-67 | the `all(... > trigger)` test holds iff every close is strictly above the trigger |
| Models.IsTriggered | python/valuecell/agents/tradingview_signal_agent/models.py:56-69 | a rule fires only with at least one candle, at least N candles, a truthy trigger price and one of the two known condition types |
| Models.TriggeredBelowIff | python/valuecell/agents/tradingview_signal_agent/models.py:56-69 | a close-below rule over N >= 1 candles fires iff each of the last N closes is strictly below the trigger price |
| Models.TriggeredAboveIff | python/valuecell/agents/tradingview_signal_agent/models.py:56-69 | the mirror rule fires iff each of the last N closes is strictly above the trigger price |
| Models.OneCloseAtOrAboveBlocksBelow | python/valuecell/agents/tradingview_signal_agent/models.py:56-69 | one close at or above the trigger among the last N keeps a close-below rule from firing |
| Models.ZeroCandleClosesChecksWholeList | python/valuecell/agents/tradingview_signal_agent/models.py:62-66 | with N = 0 the rule inspects every candle supplied, not none |
| Models.MacdIndicator.IsBearishCrossover | python/valuecell/agents/tradingview_signal_agent/models.py:80-88 | a bearish crossover is never also a bullish one |
| Models.IsOversold | python/valuecell/agents/tradingview_signal_agent/models.py:95-101 | RSI below 30 is never also overbought |
| Models.IsNeutral | python/valuecell/agents/tradingview_signal_agent/models.py:95-105 | the neutral band 40..60 meets neither extreme zone |
| Models.PnlSidesOpposite | python/valuecell/agents/tradingview_signal_agent/models.py:269-275 | a long and a short of the same size see opposite profits, and a price at the entry gives none |
| Models.CalculateUnrealizedPnl | python/valuecell/agents/tradingview_signal_agent/models.py:269-280 | re-marking sets the current price and the side's P&L; the percentage is refreshed only for a positive notional; no other field changes |
| Models.CalculateUnrealizedPnlIdempotent | python/valuecell/agents/tradingview_signal_agent/models.py:269-280 | re-marking twice at one price is the same as once |
| Models.SumRealizedPnlAppend | python/valuecell/agents/tradingview_signal_agent/position_manager.py:337-339 | the realised total over closed positions grows by exactly the appended record's P&L |
| Models.DefaultSessionConfig | python/valuecell/agents/tradingview_signal_agent/models.py:349-373 | a new session takes the given capital and symbols, no pyramiding, 5 concurrent positions and leverage tiers 15/10/5 |
| Models.SignalFor | python/valuecell/agents/tradingview_signal_agent/models.py:492-502 | OPEN and ADD map to "entry", REDUCE to "exit", CLOSE to "close", and HOLD and every operation the table lacks to "hold" |
| Models.ToCotSignal | python/valuecell/agents/tradingview_signal_agent/models.py:490-513 | the signal carries the symbol and the mapped signal. Its quantity is the action's truthy quantity, else the position's quantity, else 0. Its target is the first ladder price, else 0. Its stop is the action's stop, else 0. It has a justification iff the operation is not HOLD |
| Models.ReverseBecomesJustifiedHold | python/valuecell/agents/tradingview_signal_agent/models.py:490-513 | a REVERSE recommendation becomes a "hold" signal that still carries a justification |
| Risk.LeverageForConfidence | python/valuecell/agents/tradingview_signal_agent/risk_manager.py:76-83 | confidence >= 0.75 takes the high tier, >= 0.65 the medium tier, anything lower the low tier |
| Risk.LeverageForConfidenceMonotone | python/valuecell/agents/tradingview_signal_agent/risk_manager.py:76-83 | with ordered tiers, more confidence never gives less leverage |
| Risk.CalculatePositionSize | python/valuecell/agents/tradingview_signal_agent/risk_manager.py:22-74 | non-positive prices give the invalid-prices error and equal prices the invalid-stop error, both with zero size. Otherwise the quantity is the budget-risking quantity `available x risk_pct / abs(entry - stop)` cut to `available x max_position_pct / entry` and then to `available / entry`; the sizing stays within every limit, risks exactly the whole budget when neither cap binds, and carries the confidence's leverage |
| Risk.RiskBasedSize | python/valuecell/agents/tradingview_signal_agent/risk_manager.py:47-74 | the quantity is min(budget / stop distance, max notional / entry, available / entry); notional is quantity times entry, within both caps; the risk taken is quantity times stop distance, within budget, and equal to the budget when neither cap binds |
| Risk.ClampedSize | python/valuecell/agents/tradingview_signal_agent/risk_manager.py:46-65 | the two clamps in order give quantity min(budget / stop distance, max notional / entry, available / entry), with the risk recomputed from it and never above the budget, and exactly the budget when neither clamp binds |
| Risk.ClampToLimit | python/valuecell/agents/tradingview_signal_agent/risk_manager.py:51-65 | the quantity becomes min(quantity, limit / entry): kept with its risk when its notional is within the limit, otherwise cut so the notional is exactly the limit, with the risk recomputed |
| Risk.AtrMultiple | python/valuecell/agents/tradingview_signal_agent/risk_manager.py:110-117 | aggressive uses 1.5, conservative 2.5, and every other profile the moderate 2.0 |
| Risk.CalculateAtrBasedStopLoss | python/valuecell/agents/tradingview_signal_agent/risk_manager.py:85-142 | the aggressive profile uses a truthy ATR3, otherwise ATR14. The stop is multiple x ATR below a long entry or above a short entry, and the risk percentage is the distance over the entry |
| Risk.AtrStopsMirror | python/valuecell/agents/tradingview_signal_agent/risk_manager.py:125-131 | long and short stops are mirror images about the entry |
| Risk.AtrStopOnLosingSide | python/valuecell/agents/tradingview_signal_agent/risk_manager.py:125-131 | with non-negative ATRs the stop lies on the losing side of the entry |
| Risk.VolatilityStateOf | python/valuecell/agents/tradingview_signal_agent/risk_manager.py:177-196 | ratio bands with strict comparisons: > 1.3 rapidly expanding, > 1.1 expanding, < 0.7 contracting, < 0.9 slightly contracting, else stable |
| Risk.AbsoluteVolatilityCorrection | python/valuecell/agents/tradingview_signal_agent/risk_manager.py:198-204 | ATR above 3% of price scales by 0.8, below 1% by 1.1, otherwise by 1.0 |
| Risk.AdjustPositionSizeForVolatility | python/valuecell/agents/tradingview_signal_agent/risk_manager.py:144-217 | a zero ATR14 leaves the size unchanged with an unknown state. Otherwise the factor is band factor x absolute correction, always within [0.3, 1.5], and the adjusted size is base x factor |
| Risk.SizeFactorAntitone | python/valuecell/agents/tradingview_signal_agent/risk_manager.py:177-196 | a higher ATR ratio never gives a larger band factor |
| Risk.LeverageBandOf | python/valuecell/agents/tradingview_signal_agent/risk_manager.py:250-266 | first match wins: ratio > 1.3 or ATR% > 3 is high; ratio > 1.1 or ATR% > 2 is elevated; ratio < 0.7 and ATR% < 1.5 is low; else normal |
| Risk.GetVolatilityAdjustedLeverage | python/valuecell/agents/tradingview_signal_agent/risk_manager.py:219-274 | a zero ATR14 keeps the base leverage; otherwise the band of the ATR ratio and ATR% decides the leverage |
| Risk.AdjustedLeverageInSignalRange | python/valuecell/agents/tradingview_signal_agent/risk_manager.py:251-266 | from a base in [5, 40] the adjusted leverage stays in [5, 40]; the volatile bands never raise it and the calm band never lowers it |
| Risk.CalculatePortfolioHeat | python/valuecell/agents/tradingview_signal_agent/risk_manager.py:276-292 | heat is the positions' total risk over capital plus total notional, and 0 with no positions or a zero denominator |
| Risk.GetTotalExposure | python/valuecell/agents/tradingview_signal_agent/risk_manager.py:294-296 | exposure is the total notional of the positions (see TotalNotionalNonNegative) |
| Risk.TotalNotionalNonNegative | python/valuecell/agents/tradingview_signal_agent/risk_manager.py:294-296 | non-negative notionals give a non-negative exposure |
| Risk.RiskFlags | python/valuecell/agents/tradingview_signal_agent/risk_manager.py:330-348 | each risk is raised iff its own condition holds: size over the size limit, heat over the exposure limit, an OPEN at the concurrency limit, size over the available capital |
| Risk.AssessTradeRisk | python/valuecell/agents/tradingview_signal_agent/risk_manager.py:298-367 | zero capital plus exposure gives only the no-capital risk. Otherwise each risk and warning is raised iff its threshold is crossed, the new heat adds the trade's risk over capital plus exposure, the position risk is that risk as a percentage, the capital usage is the notional as a percentage of available capital (0 without capital), the exposure after adds the notional, and the trade is acceptable iff no risk is raised |
| Risk.OverCapitalTradeRejected | python/valuecell/agents/tradingview_signal_agent/risk_manager.py:346-348 | a trade whose notional exceeds the available capital is never acceptable |
| Risk.CalculateStopLoss | python/valuecell/agents/tradingview_signal_agent/risk_manager.py:369-393 | with a positive ATR the stop is 2 ATR beyond the entry on the losing side, else the percentage of the entry |
| Risk.CalculateTakeProfitTargets | python/valuecell/agents/tradingview_signal_agent/risk_manager.py:395-434 | one rung for each of the first three ratios, at ratio x stop distance on the profit side, taking 50, 30 and 20 percent |
| Risk.TakeProfitLadderAtMostWhole | python/valuecell/agents/tradingview_signal_agent/risk_manager.py:395-434 | the ladder never assigns more than 100% of the position |
| Risk.TakeProfitOnProfitSide | python/valuecell/agents/tradingview_signal_agent/risk_manager.py:420-426 | for a non-negative ratio a long's target is at or above the entry and a short's at or below it |
| Risk.CheckMarginRequirements | python/valuecell/agents/tradingview_signal_agent/risk_manager.py:436-454 | margin used is the sum of notional / leverage. With positive capital the usage percentage is that margin over the capital times 100, and the warning and critical flags hold exactly when the margin exceeds 80% and 90% of the capital. Without capital the percentage is 0 and neither flag is set |
| Risk.UsageAbove | python/valuecell/agents/tradingview_signal_agent/risk_manager.py:445-453 | a usage percentage is above a threshold exactly when the margin used is above that fraction of the capital |
| Ledger.Empty | python/valuecell/agents/tradingview_signal_agent/position_manager.py:32-36 | a fresh ledger satisfies the invariant and its equity is its capital |
| Ledger.OpenPositionsCount | python/valuecell/agents/tradingview_signal_agent/position_manager.py:41-43 | there is one open position per held symbol |
| Ledger.HeldCount | python/valuecell/agents/tradingview_signal_agent/position_manager.py:41-43 | each held symbol is listed once in dictionary order |
| Ledger.ReplaceKeepsValid | python/valuecell/agents/tradingview_signal_agent/position_manager.py:53-117 | replacing a held position by one filed under the same symbol with a consistent notional keeps the invariant |
| Ledger.AppendKeepsValid | python/valuecell/agents/tradingview_signal_agent/position_manager.py:53-117 | filing a new symbol at the end of the dictionary order keeps the invariant |
| Ledger.RemoveKeepsValid | python/valuecell/agents/tradingview_signal_agent/position_manager.py:119-182 | deleting a held symbol from the dictionary keeps the invariant |
| Ledger.EquityAfterReplace | python/valuecell/agents/tradingview_signal_agent/position_manager.py:184-229 | replacing a held position moves capital-plus-margin by the change in that position's margin |
| Ledger.RecordTrade | python/valuecell/agents/tradingview_signal_agent/position_manager.py:345-368 | the log entry carries the position's symbol, current quantity and the action, at the given price when truthy and else at the entry |
| Ledger.NewPosition | python/valuecell/agents/tradingview_signal_agent/position_manager.py:53-117 | the position is built iff leverage is in [1, 40] and confidence in [0, 1]. Notional is quantity x entry, risk is quantity x stop distance, reward is quantity x target distance, and the ratio is reward / risk (0 without risk). It is marked at the entry with no P&L |
| Ledger.OpenPosition | python/valuecell/agents/tradingview_signal_agent/position_manager.py:53-117 | opening files the position under its symbol, replacing any held one in place in the order, debits its margin and logs one OPEN trade; it fails exactly when the position is invalid |
| Ledger.OpenNewAppends | python/valuecell/agents/tradingview_signal_agent/position_manager.py:53-117 | opening an unheld symbol appends its position to the open positions |
| Ledger.OpenNewUnrealized | python/valuecell/agents/tradingview_signal_agent/position_manager.py:53-117 | opening an unheld symbol adds no unrealised P&L |
| Ledger.OpenNewNotional | python/valuecell/agents/tradingview_signal_agent/position_manager.py:53-117 | opening an unheld symbol adds exactly its notional to the total exposure |
| Ledger.OpenPositionAccounting | python/valuecell/agents/tradingview_signal_agent/position_manager.py:53-117 | opening keeps the invariant and the realised P&L. For an unheld symbol equity is unchanged; opening over a held symbol loses the replaced position's margin |
| Ledger.ClosedRecord | python/valuecell/agents/tradingview_signal_agent/position_manager.py:133-160 | the record's P&L is the whole quantity's move to the exit price. Its percentage is of the notional (0 for a non-positive notional) and the holding time is in hours |
| Ledger.ClosePosition | python/valuecell/agents/tradingview_signal_agent/position_manager.py:119-182 | an unheld symbol changes nothing and gives no record. Otherwise the margin and the P&L are credited, the symbol is deleted, one closed record is appended and one CLOSE trade is logged |
| Ledger.CloseDropsOpen | python/valuecell/agents/tradingview_signal_agent/position_manager.py:119-182 | closing removes exactly the closed position from the open positions, the rest keeping their order |
| Ledger.CloseSumBy | python/valuecell/agents/tradingview_signal_agent/position_manager.py:119-182 | closing removes exactly the closed position's term from any per-position total |
| Ledger.CloseUnrealized | python/valuecell/agents/tradingview_signal_agent/position_manager.py:119-182 | closing drops the closed position's unrealised P&L from the open total |
| Ledger.CloseNotional | python/valuecell/agents/tradingview_signal_agent/position_manager.py:119-182 | closing drops the closed position's notional from the exposure |
| Ledger.CloseRealizes | python/valuecell/agents/tradingview_signal_agent/position_manager.py:119-182 | closing adds the position's P&L at the exit price to the realised total |
| Ledger.ClosePositionAccounting | python/valuecell/agents/tradingview_signal_agent/position_manager.py:119-182 | closing keeps the invariant and raises both equity and realised P&L by exactly the record's P&L |
| Ledger.OpenThenCloseAtEntry | python/valuecell/agents/tradingview_signal_agent/position_manager.py:53-182 | opening and then closing at the entry price realises nothing and restores the capital |
| Ledger.OpenThenCloseRestores | python/valuecell/agents/tradingview_signal_agent/position_manager.py:53-182 | for an unheld symbol, opening and then closing restores the open positions and their order |
| Ledger.Averaged | python/valuecell/agents/tradingview_signal_agent/position_manager.py:202-212 | after adding, the quantity is the sum, the entry is the quantity-weighted average of old entry and added price, and the notional is the new quantity at that average |
| Ledger.AddToPosition | python/valuecell/agents/tradingview_signal_agent/position_manager.py:184-229 | succeeds exactly when pyramiding is allowed, the symbol is held and the new quantity is not zero (the division by it). Otherwise it fails with the matching error. On success the position is averaged in place, the added cost over the leverage is debited and one ADD trade is logged |
| Ledger.AddToPositionAccounting | python/valuecell/agents/tradingview_signal_agent/position_manager.py:184-229 | adding keeps the invariant, the equity and the realised P&L |
| Ledger.Reduced | python/valuecell/agents/tradingview_signal_agent/position_manager.py:255-258 | reducing keeps the entry, lowers the quantity and sets the notional to the new quantity at the entry |
| Ledger.ReducePosition | python/valuecell/agents/tradingview_signal_agent/position_manager.py:231-275 | fails iff the symbol is unheld. Reducing by at least the held quantity closes the position. Otherwise it shrinks the position, credits the released margin plus the partial P&L and logs one REDUCE trade |
| Ledger.ReducePositionAccounting | python/valuecell/agents/tradingview_signal_agent/position_manager.py:231-275 | reducing keeps the invariant and moves equity by exactly the reported P&L; only a full close adds it to the realised total |
| Ledger.PartialReduceAccounting | python/valuecell/agents/tradingview_signal_agent/position_manager.py:249-275 | a partial reduction moves equity by its P&L and leaves realised P&L unchanged |
| Ledger.MarkPosition | python/valuecell/agents/tradingview_signal_agent/position_manager.py:277-285 | re-marking replaces the one position by its re-marked self |
| Ledger.MarkPositionAccounting | python/valuecell/agents/tradingview_signal_agent/position_manager.py:277-285 | re-marking keeps the invariant and the equity |
| Ledger.ExitReason | python/valuecell/agents/tradingview_signal_agent/position_manager.py:315-335 | the stop is checked first: a long stops out at or below its stop and a short at or above. Only otherwise is the target hit, a long at or above and a short at or below |
| Ledger.StopLossCheckedFirst | python/valuecell/agents/tradingview_signal_agent/position_manager.py:315-335 | a price at the stop exits as a stop loss even where it also meets the target |
| Ledger.UpdateStepAccounting | python/valuecell/agents/tradingview_signal_agent/position_manager.py:277-285 | one iteration keeps the invariant and equity net of realised P&L |
| Ledger.UpdateStepFrame | python/valuecell/agents/tradingview_signal_agent/position_manager.py:277-285 | one iteration touches only its own symbol and appends at most one closed record, for that symbol. Without a price it changes nothing |
| Ledger.UpdateFoldAccounting | python/valuecell/agents/tradingview_signal_agent/position_manager.py:277-285 | any pass keeps the invariant and equity net of realised P&L, adds no symbol, and leaves unpriced positions as they were |
| Ledger.UpdateFoldCloses | python/valuecell/agents/tradingview_signal_agent/position_manager.py:277-285 | the closed list only grows, by at most one record per visited symbol, and no symbol is closed twice |
| Ledger.UpdateFoldKeepsUnvisited | python/valuecell/agents/tradingview_signal_agent/position_manager.py:277-285 | a pass leaves every symbol it has not visited as it was |
| Ledger.UpdateFoldNext | python/valuecell/agents/tradingview_signal_agent/position_manager.py:277-285 | each snapshot symbol is still held when the loop reaches it, so the loop over a snapshot is the step-by-step fold |
| Ledger.UpdatePositionsAccounting | python/valuecell/agents/tradingview_signal_agent/position_manager.py:277-285 | updating changes equity only by what it realises, keeps unpriced positions, closes each symbol at most once and closes at most as many positions as were held |
| Ledger.UpdateFoldSettles | python/valuecell/agents/tradingview_signal_agent/position_manager.py:277-285 | after a pass every priced position still open is settled: re-marking it changes nothing and neither its stop nor its target is hit |
| Ledger.UpdateFoldOverSettled | python/valuecell/agents/tradingview_signal_agent/position_manager.py:277-285 | a pass over settled positions changes nothing |
| Ledger.UpdatePositionsIdempotent | python/valuecell/agents/tradingview_signal_agent/position_manager.py:277-285 | a second update at the same prices changes nothing |
| Ledger.UpdateStep | python/valuecell/agents/tradingview_signal_agent/position_manager.py:277-285 | checking one symbol never adds a position |
| Ledger.UpdateFold | python/valuecell/agents/tradingview_signal_agent/position_manager.py:277-285 | any pass over symbols never adds a position |
| Ledger.UpdatePositions | python/valuecell/agents/tradingview_signal_agent/position_manager.py:277-285 | update_positions never adds a position; its accounting and idempotence are the lemmas above |
| Ledger.CheckInvalidationConditions | python/valuecell/agents/tradingview_signal_agent/position_manager.py:287-313 | answers true iff the symbol is held and its rule fires on the candles, and then closes it at the last close as "invalidation_triggered"; otherwise nothing changes |
| Positions.PositionManager.constructor | python/valuecell/agents/tradingview_signal_agent/position_manager.py:32-36 | a new manager holds nothing and has the given capital |
| Positions.PositionManager.GetOpenPositions | python/valuecell/agents/tradingview_signal_agent/position_manager.py:41-43 | the open positions are exactly the held ones, one each |
| Positions.PositionManager.GetPosition | python/valuecell/agents/tradingview_signal_agent/position_manager.py:45-47 | some position iff the symbol is held, and then that position |
| Positions.PositionManager.GetTotalRealizedPnl | python/valuecell/agents/tradingview_signal_agent/position_manager.py:337-339 | the sum of the realised P&L of every closed position |
| Positions.PositionManager.OpenPosition | python/valuecell/agents/tradingview_signal_agent/position_manager.py:53-117 | changes the fields in place exactly as Ledger.OpenPosition, leaving them untouched on error |
| Positions.PositionManager.ClosePosition | python/valuecell/agents/tradingview_signal_agent/position_manager.py:119-182 | changes the fields exactly as Ledger.ClosePosition and returns its record |
| Positions.PositionManager.AddToPosition | python/valuecell/agents/tradingview_signal_agent/position_manager.py:184-229 | changes the fields exactly as Ledger.AddToPosition, leaving them untouched on error |
| Positions.PositionManager.ReducePosition | python/valuecell/agents/tradingview_signal_agent/position_manager.py:231-275 | changes the fields exactly as Ledger.ReducePosition and returns the remaining position and the P&L |
| Positions.PositionManager.UpdatePositions | python/valuecell/agents/tradingview_signal_agent/position_manager.py:277-285 | the loop over a snapshot of the held symbols ends in Ledger.UpdatePositions of the old state |
| Positions.PositionManager.UpdateOne | python/valuecell/agents/tradingview_signal_agent/position_manager.py:279-285 | one loop iteration re-marks a priced symbol and runs the stop and target check on it |
| Positions.PositionManager.CheckInvalidationConditions | python/valuecell/agents/tradingview_signal_agent/position_manager.py:287-313 | changes the fields exactly as Ledger.CheckInvalidationConditions and returns its answer |
| Positions.PositionManager.CheckStopLossTakeProfit | python/valuecell/agents/tradingview_signal_agent/position_manager.py:315-335 | closes the position at the price with the exit reason when there is one, and otherwise changes nothing |
| Performance.Winners | python/valuecell/agents/tradingview_signal_agent/performance_analytics.py:40 | a trade is among the winners exactly when it is in the history with strictly positive P&L, and it occurs there as often as in the history |
| Performance.Losers | python/valuecell/agents/tradingview_signal_agent/performance_analytics.py:41 | a trade is among the losers exactly when it is in the history with strictly negative P&L, and it occurs there as often as in the history |
| Performance.WinnersAndLosersAtMostAll | python/valuecell/agents/tradingview_signal_agent/performance_analytics.py:40-44 | no trade is both a winner and a loser, and break-even trades are neither |
| Performance.SumOfGains | python/valuecell/agents/tradingview_signal_agent/performance_analytics.py:50-60 | gross profit is positive once there is a winner |
| Performance.SumOfLosses | python/valuecell/agents/tradingview_signal_agent/performance_analytics.py:50-60 | the sum of the losers' P&L is negative once there is a loser |
| Performance.MaxPnl | python/valuecell/agents/tradingview_signal_agent/performance_analytics.py:54 | `max` of the P&Ls bounds every trade from above and is the P&L of one of them |
| Performance.MinPnl | python/valuecell/agents/tradingview_signal_agent/performance_analytics.py:55 | `min` of the P&Ls bounds every trade from below and is the P&L of one of them |
| Performance.WinRate | python/valuecell/agents/tradingview_signal_agent/performance_analytics.py:47 | the win rate is winners over trades, a fraction in [0, 1] |
| Performance.ProfitFactor | python/valuecell/agents/tradingview_signal_agent/performance_analytics.py:57-60 | the profit factor is gross profit over gross loss, never negative, and 0 without losses |
| Performance.StatisticsBounds | python/valuecell/agents/tradingview_signal_agent/performance_analytics.py:23-76 | calculate_statistics gives all zeros for no trades. Otherwise winners plus losers are at most all trades, the win rate is a fraction and the profit factor is non-negative. The winning and losing counts are those of the positive and negative trades. The largest win bounds every positive trade and is one of them when there are winners; likewise for the largest loss. The average win is positive and at most the largest win; the average loss is negative and at least the largest loss |
| Performance.LargestWin | python/valuecell/agents/tradingview_signal_agent/performance_analytics.py:54 | the largest win is 0 without winners; otherwise it bounds every winner and is the P&L of one of them |
| Performance.LargestLoss | python/valuecell/agents/tradingview_signal_agent/performance_analytics.py:55 | the largest loss is 0 without losers; otherwise it bounds every loser from below and is the P&L of one of them |
| Performance.AverageWinAtMostLargest | python/valuecell/agents/tradingview_signal_agent/performance_analytics.py:50-54 | the average win is positive and at most the largest win |
| Performance.AverageLossAtLeastLargest | python/valuecell/agents/tradingview_signal_agent/performance_analytics.py:51-55 | the average loss is negative and at least the largest loss |
| Performance.StatisticsOf | python/valuecell/agents/tradingview_signal_agent/performance_analytics.py:23-76 | the statistics count every trade, winners plus losers are at most all trades and the win rate is a fraction |
| Performance.RunningPeak | python/valuecell/agents/tradingview_signal_agent/performance_analytics.py:78-98 | the running peak bounds every earlier point of the curve |
| Performance.DrawdownAt | python/valuecell/agents/tradingview_signal_agent/performance_analytics.py:78-98 | a drawdown from the running peak is never negative |
| Performance.DrawdownUpToIsFirstMaximum | python/valuecell/agents/tradingview_signal_agent/performance_analytics.py:78-98 | the walk finds the largest drawdown and the percentage at the first point that reaches it |
| Performance.NonDecreasingCurveHasNoDrawdown | python/valuecell/agents/tradingview_signal_agent/performance_analytics.py:78-98 | a curve that never falls has no drawdown |
| Performance.CalculateMaxDrawdown | python/valuecell/agents/tradingview_signal_agent/performance_analytics.py:78-98 | the loop over the curve computes the first-maximum drawdown and its percentage |
| Performance.CalculateSharpeRatio | python/valuecell/agents/tradingview_signal_agent/performance_analytics.py:100-118 | with fewer than two returns or no spread the ratio is 0; otherwise it times the standard deviation is the mean return less the risk-free rate |
| Performance.ConstantReturnsHaveZeroSharpe | python/valuecell/agents/tradingview_signal_agent/performance_analytics.py:100-118 | identical returns have a Sharpe ratio of 0 |
| Performance.InPeriod | python/valuecell/agents/tradingview_signal_agent/performance_analytics.py:127-130 | the period holds exactly the closed positions with start <= closed_at <= end |
| Performance.InsertByClosedAt | python/valuecell/agents/tradingview_signal_agent/performance_analytics.py:146 | inserting after every earlier-or-equal closing time keeps the list sorted and adds exactly the one element |
| Performance.InsertKeepsSum | python/valuecell/agents/tradingview_signal_agent/performance_analytics.py:146-148 | insertion adds exactly the inserted trade's P&L |
| Performance.SortByClosedAt | python/valuecell/agents/tradingview_signal_agent/performance_analytics.py:146 | `sorted` by closing time gives an ordered permutation of its input |
| Performance.InsertIsStable | python/valuecell/agents/tradingview_signal_agent/performance_analytics.py:146 | insertion puts the new trade after every trade with the same closing time |
| Performance.SortIsStable | python/valuecell/agents/tradingview_signal_agent/performance_analytics.py:146 | like Python's stable `sorted`, trades with the same closing time keep their relative order |
| Performance.SortKeepsSum | python/valuecell/agents/tradingview_signal_agent/performance_analytics.py:146-148 | reordering the trades keeps their total P&L |
| Performance.EquityCurve | python/valuecell/agents/tradingview_signal_agent/performance_analytics.py:143-148 | the curve starts at the initial capital, each point adds the next trade's P&L, and it ends at capital plus total P&L |
| Performance.Returns | python/valuecell/agents/tradingview_signal_agent/performance_analytics.py:154-157 | the per-step returns exist iff no step starts from zero equity (the division that raises), one per step |
| Performance.PeriodStatisticsFacts | python/valuecell/agents/tradingview_signal_agent/performance_analytics.py:120-180 | an empty period gives the default record. Otherwise the report fails iff some step of the period's curve starts from zero equity |
| Performance.PeriodStatisticsOk | python/valuecell/agents/tradingview_signal_agent/performance_analytics.py:120-180 | a computed report carries the period's P&L; the whole history's trade counts, win rate, averages, extremes, profit factor and holding time; the maximum drawdown of the period's sorted equity curve (never negative); and the Sharpe ratio of that curve's step returns |
| Performance.PeriodStatistics | python/valuecell/agents/tradingview_signal_agent/performance_analytics.py:120-180 | a period without trades gives a report with no trades, and every report carries the session id and the period asked for |
| Performance.PeriodCurveEnds | python/valuecell/agents/tradingview_signal_agent/performance_analytics.py:143-148 | the period's curve has one point per trade plus the start and ends at capital plus the period's P&L |
| Performance.BuildEquityCurve | python/valuecell/agents/tradingview_signal_agent/performance_analytics.py:143-148 | the loop builds exactly the equity curve |
| Performance.StepReturns | python/valuecell/agents/tradingview_signal_agent/performance_analytics.py:154-157 | the loop computes exactly the per-step returns, failing where a step starts from zero |
| Performance.PerformanceAnalytics.constructor | python/valuecell/agents/tradingview_signal_agent/performance_analytics.py:15-17 | a new analytics object has no closed positions |
| Performance.PerformanceAnalytics.AddClosedPosition | python/valuecell/agents/tradingview_signal_agent/performance_analytics.py:19-21 | appends the record to the closed positions |
| Performance.PerformanceAnalytics.CalculateStatistics | python/valuecell/agents/tradingview_signal_agent/performance_analytics.py:23-76 | the statistics of the recorded closed positions, counting every one of them |
| Performance.PerformanceAnalytics.GetTradingStatistics | python/valuecell/agents/tradingview_signal_agent/performance_analytics.py:120-180 | the method's loops produce exactly the period report |
| Portfolio.Summary | python/valuecell/agents/tradingview_signal_agent/portfolio_manager.py:40-86 | available is current capital and used is the total notional. Total capital is their sum. Total P&L is unrealised plus realised. Return and exposure are percentages of initial and total capital, and heat is the risk manager's. The trade counts and ratios come from the analytics |
| Portfolio.SummaryRatios | python/valuecell/agents/tradingview_signal_agent/portfolio_manager.py:57-74 | return x initial capital is total P&L x 100, exposure x total capital is used capital x 100, and heat x total capital is total risk, each 0 on a non-positive or zero base |
| Portfolio.CloseAtMarkKeepsTotalPnl | python/valuecell/agents/tradingview_signal_agent/portfolio_manager.py:51-54 | closing a position marked at the exit price moves its unrealised P&L into realised P&L: total P&L is unchanged |
| Portfolio.CloseTotalCapital | python/valuecell/agents/tradingview_signal_agent/portfolio_manager.py:44-49 | closing trades the position's notional in total capital for its margin plus its P&L |
| Portfolio.OpenNewSymbolTotals | python/valuecell/agents/tradingview_signal_agent/portfolio_manager.py:51-54 | opening an unheld symbol changes no P&L |
| Portfolio.OpenNewSymbolCapital | python/valuecell/agents/tradingview_signal_agent/portfolio_manager.py:44-49 | opening an unheld symbol raises total capital by its notional less its margin |
| Portfolio.CanOpenNewPosition | python/valuecell/agents/tradingview_signal_agent/portfolio_manager.py:88-122 | the checks run in order and the first failure decides: the count limit, the size limit, the capital, a zero exposure denominator, the exposure limit, and a held symbol without pyramiding. The position is allowed iff all pass |
| Portfolio.PyramidingDecidesHeldSymbols | python/valuecell/agents/tradingview_signal_agent/portfolio_manager.py:117-122 | with pyramiding the symbol is irrelevant; without it a held symbol is refused exactly where an unheld one would be allowed |
| Portfolio.SmallerSizeStaysAllowed | python/valuecell/agents/tradingview_signal_agent/portfolio_manager.py:88-122 | an allowed position stays allowed at any smaller non-negative size |
| Portfolio.OversizeNeverAllowed | python/valuecell/agents/tradingview_signal_agent/portfolio_manager.py:94-102 | a size above the per-position limit is never allowed |
| Portfolio.InvalidationStepAccounting | python/valuecell/agents/tradingview_signal_agent/portfolio_manager.py:147-156 | one check keeps the invariant and equity net of realised P&L |
| Portfolio.InvalidationStepFrame | python/valuecell/agents/tradingview_signal_agent/portfolio_manager.py:147-156 | one check removes at most its own symbol, only when it has market data, and logs it as an invalidation close |
| Portfolio.InvalidationOnlyTransitive | python/valuecell/agents/tradingview_signal_agent/portfolio_manager.py:147-156 | the removals of successive checks compose |
| Portfolio.InvalidationFoldAccounting | python/valuecell/agents/tradingview_signal_agent/portfolio_manager.py:147-156 | any sequence of checks keeps the invariant and equity net of realised P&L, only removes positions, and keeps every unchecked or data-less symbol |
| Portfolio.InvalidationFoldCloses | python/valuecell/agents/tradingview_signal_agent/portfolio_manager.py:147-156 | a sequence of checks closes a held position exactly when its symbol is checked, has market data and its invalidation fires |
| Portfolio.InvalidationSweep | python/valuecell/agents/tradingview_signal_agent/portfolio_manager.py:147-156 | the sweep never adds or changes a position, keeps the earlier closed records, and every record it adds is an invalidation close |
| Portfolio.InvalidationSweepCloses | python/valuecell/agents/tradingview_signal_agent/portfolio_manager.py:147-156 | the sweep closes exactly the held positions whose invalidation fires on their market data and leaves every other position unchanged |
| Portfolio.InvalidationSweepAccounting | python/valuecell/agents/tradingview_signal_agent/portfolio_manager.py:147-156 | the sweep keeps the invariant and equity net of realised P&L, edits no position, and keeps every symbol without market data |
| Portfolio.NoMarketDataNoChange | python/valuecell/agents/tradingview_signal_agent/portfolio_manager.py:147-156 | without market data the sweep changes nothing |
| Portfolio.PortfolioManager.constructor | python/valuecell/agents/tradingview_signal_agent/portfolio_manager.py:33-37 | a new portfolio has an empty ledger with the given capital and no closed history |
| Portfolio.PortfolioManager.GetPortfolioSummary | python/valuecell/agents/tradingview_signal_agent/portfolio_manager.py:40-86 | the object's summary is Portfolio.Summary of its ledger and its analytics |
| Portfolio.PortfolioManager.CanOpen | python/valuecell/agents/tradingview_signal_agent/portfolio_manager.py:88-122 | the object's admission is Portfolio.CanOpenNewPosition of its ledger |
| Portfolio.PortfolioManager.GetMarginStatus | python/valuecell/agents/tradingview_signal_agent/portfolio_manager.py:135-141 | the status is Risk.CheckMarginRequirements of the open positions against the current capital |
| Portfolio.PortfolioManager.UpdateAllPositions | python/valuecell/agents/tradingview_signal_agent/portfolio_manager.py:143-145 | the position manager ends in Ledger.UpdatePositions of its old state |
| Portfolio.PortfolioManager.CheckAllInvalidations | python/valuecell/agents/tradingview_signal_agent/portfolio_manager.py:147-156 | the loop over a snapshot of held symbols ends in the invalidation sweep of the old state |
| Technical.Histograms | python/valuecell/agents/tradingview_signal_agent/technical_analyzer.py:55 | the histogram values of the readings, in order |
| Technical.TrendBonus | python/valuecell/agents/tradingview_signal_agent/technical_analyzer.py:54-61 | +10 iff the last three readings strictly rise, -10 iff they strictly fall, else 0 |
| Technical.MacdScore | python/valuecell/agents/tradingview_signal_agent/technical_analyzer.py:37-51 | a crossover scores +/-70, otherwise the side of the MACD line scores +/-50, and equal lines 0 |
| Technical.AnalyzeMacd | python/valuecell/agents/tradingview_signal_agent/technical_analyzer.py:26-64 | the trend follows the MACD line against the signal line; the strength is the score plus the histogram bonus; each observation appears iff its condition holds |
| Technical.MacdScoreFollowsTrend | python/valuecell/agents/tradingview_signal_agent/technical_analyzer.py:26-64 | the MACD strength lies in [-80, 80], at least 40 on a bullish trend and at most -40 on a bearish one |
| Technical.RsiScore | python/valuecell/agents/tradingview_signal_agent/technical_analyzer.py:77-88 | -50 iff overbought, +50 iff oversold, 0 iff within [30, 70] |
| Technical.RsiValues | python/valuecell/agents/tradingview_signal_agent/technical_analyzer.py:91-98 | the RSI values of the history, in order |
| Technical.AnalyzeRsi | python/valuecell/agents/tradingview_signal_agent/technical_analyzer.py:66-101 | the zone follows the RSI value, the strength is the zone score plus the trend bonus, and the trend observations appear iff the bonus is +/-10 |
| Technical.RsiScoreFollowsZone | python/valuecell/agents/tradingview_signal_agent/technical_analyzer.py:66-101 | the RSI strength lies in [-60, 60]; it is >= 40 iff oversold and <= -40 iff overbought |
| Technical.DirectionalStrength | python/valuecell/agents/tradingview_signal_agent/technical_analyzer.py:180-194 | a directional EMA strength is capped at 100 and non-negative for positive EMAs |
| Technical.AnalyzeEmaAlignment | python/valuecell/agents/tradingview_signal_agent/technical_analyzer.py:139-218 | aligned iff EMA20 > EMA50. Bullish iff aligned with price above both; bearish iff not aligned with price at or below both; neutral strength 30. The last observation names EMA20 as support or resistance |
| Technical.AnalyzeRsiDivergence | python/valuecell/agents/tradingview_signal_agent/technical_analyzer.py:220-298 | a gap above 10 is a divergence of strength min(5 x gap, 100). A gap above 5 is a slight one of strength 5 x gap. Otherwise the periods are aligned. The sign of the gap picks the side |
| Technical.DivergenceMirrors | python/valuecell/agents/tradingview_signal_agent/technical_analyzer.py:220-298 | swapping the two RSI periods mirrors the divergence |
| Technical.Suggestion | python/valuecell/agents/tradingview_signal_agent/technical_analyzer.py:375-398 | a suggested stop sits multiple x ATR below and above the price with its risk percentage |
| Technical.AnalyzeVolatilityContext | python/valuecell/agents/tradingview_signal_agent/technical_analyzer.py:300-407 | a zero ATR14 gives the defaults. Otherwise the ATR ratio picks the band and the risk level, and the stops sit 2.5 and 2.0 ATR14 and 1.5 ATR3 away. The warnings appear iff the risk is high or low |
| Technical.SuggestedStopsBracketPrice | python/valuecell/agents/tradingview_signal_agent/technical_analyzer.py:375-398 | with positive ATRs every long stop is below the price, every short stop above, and the conservative stop is the widest |
| Technical.BarsShareSteps | python/valuecell/agents/tradingview_signal_agent/technical_analyzer.py:443-444 | increasing and decreasing steps together are at most the number of steps |
| Technical.HistogramWindow | python/valuecell/agents/tradingview_signal_agent/technical_analyzer.py:440 | the window is the current histogram and at most four earlier ones |
| Technical.WindowNotBothWays | python/valuecell/agents/tradingview_signal_agent/technical_analyzer.py:440-455 | the window is never both increasing and decreasing |
| Technical.AnalyzeMacdMomentum | python/valuecell/agents/tradingview_signal_agent/technical_analyzer.py:409-497 | fewer than three readings give the defaults. Otherwise 3 of 4 rising steps is increasing (strengthening) and 3 falling is decreasing (weakening). A crossover is near when the gap is under 30% of the last one. Quality is strong on a crossover or a trend agreeing with the histogram's sign, weak when flat without a crossover |
| Technical.MacdHistory | python/valuecell/agents/tradingview_signal_agent/technical_analyzer.py:505-516 | the MACD readings of the history, skipping points without one |
| Technical.RsiHistory | python/valuecell/agents/tradingview_signal_agent/technical_analyzer.py:505-516 | the RSI readings of the history, skipping points without one |
| Technical.DetermineTrend | python/valuecell/agents/tradingview_signal_agent/technical_analyzer.py:681-688 | uptrend iff strength > 40, downtrend iff < -40, else sideways |
| Technical.VolatilityAdjusted | python/valuecell/agents/tradingview_signal_agent/technical_analyzer.py:581-586 | high volatility scales the strength by 0.8, low by 1.1, otherwise unchanged |
| Technical.ConfidenceOf | python/valuecell/agents/tradingview_signal_agent/technical_analyzer.py:600 | confidence is the absolute strength / 100, capped at 1 |
| Technical.TechnicalSummary | python/valuecell/agents/tradingview_signal_agent/technical_analyzer.py:644-678 | the summary is empty iff MACD, RSI and EMA are all neutral, and has at most three clauses |
| Technical.Decide | python/valuecell/agents/tradingview_signal_agent/technical_analyzer.py:568-600 | the weighted strength (35/25/20) after the volatility scaling decides: open iff beyond +/-40, short iff below -40. The confidence, trend and summary follow, and the key factors are the first 15 observations |
| Technical.SynthesizeTechnicalSignals | python/valuecell/agents/tradingview_signal_agent/technical_analyzer.py:499-641 | MACD and RSI are always analysed. EMA, momentum, divergence and volatility run iff their inputs are present and non-zero. The decision is Technical.Decide over the analyses |
| Technical.ActionMatchesTrend | python/valuecell/agents/tradingview_signal_agent/technical_analyzer.py:588-688 | the action opens iff the trend is not sideways, short iff downtrend |
| Technical.NeutralEmaAddsThirty | python/valuecell/agents/tradingview_signal_agent/technical_analyzer.py:570-577 | a neutral EMA reading contributes +30, not 0, before weighting |
| Technical.DecideStrengthBounded | python/valuecell/agents/tradingview_signal_agent/technical_analyzer.py:574-600 | in-range scores bound the strength by +/-69.3 and the confidence by 0.693 |
| Technical.SignalStrengthBounded | python/valuecell/agents/tradingview_signal_agent/technical_analyzer.py:574-600 | no indicator reading reaches a confidence above 0.693 |
| Technical.LongEntryWithoutEmaNeedsAgreement | python/valuecell/agents/tradingview_signal_agent/technical_analyzer.py:574-591 | without EMA and volatility a long entry needs a bullish crossover with a rising histogram and an oversold RSI |
| Decisions.GetConfidenceLevel | python/valuecell/agents/tradingview_signal_agent/decision_engine.py:350-361 | inclusive lower bounds 0.90, 0.75, 0.50 and 0.25 pick the five bands |
| Decisions.ConfidenceLevelMonotone | python/valuecell/agents/tradingview_signal_agent/decision_engine.py:350-361 | a higher confidence never gets a lower band |
| Decisions.HoldFor | python/valuecell/agents/tradingview_signal_agent/decision_engine.py:303-313 | the hold signal repeats the position's size, target, stop, invalidation text, leverage, confidence and risk; it cannot be built for leverage below 5 |
| Decisions.CompleteWithFails | python/valuecell/agents/tradingview_signal_agent/decision_engine.py:300-313 | completion fails iff a visited symbol without a decision has leverage below 5, and names one |
| Decisions.CompleteWithKeeps | python/valuecell/agents/tradingview_signal_agent/decision_engine.py:300-313 | completion keeps every parsed decision, holds each visited symbol without one, and adds no other key |
| Decisions.CompleteWithStops | python/valuecell/agents/tradingview_signal_agent/decision_engine.py:300-313 | once a prefix fails the whole walk fails with the same error |
| Decisions.CompleteDecisions | python/valuecell/agents/tradingview_signal_agent/decision_engine.py:300-315 | the loop computes exactly the completion |
| Decisions.ParseCotToDecisions | python/valuecell/agents/tradingview_signal_agent/decision_engine.py:249-315 | without JSON every position is held; with JSON the parsed decisions are completed with holds |
| Decisions.HoldAllCoversPositions | python/valuecell/agents/tradingview_signal_agent/decision_engine.py:261-276 | holding all succeeds iff every leverage admits a signal, and then covers exactly the open positions with their hold signals |
| Decisions.FallbackDecisions | python/valuecell/agents/tradingview_signal_agent/decision_engine.py:317-347 | the fallback holds exactly the open positions and reports the available capital, the position count and the session's symbols |
| Agent.RemoveAll | python/valuecell/agents/tradingview_signal_agent/agent.py:449 | Python's `replace(pat, '')` never lengthens the string |
| Agent.RemoveAllSuffix | python/valuecell/agents/tradingview_signal_agent/agent.py:449 | removing "USDT" from base + "USDT" gives the base |
| Agent.DefaultSymbolsEndInUsdt | python/valuecell/agents/tradingview_signal_agent/constants.py:85-94 | every default symbol is its base followed by "USDT" |
| Agent.MentionedByBase | python/valuecell/agents/tradingview_signal_agent/agent.py:445-451 | a default symbol is mentioned iff its base occurs in the upper-cased query |
| Agent.FirstMentioned | python/valuecell/agents/tradingview_signal_agent/agent.py:445-453 | the first symbol in list order that the query mentions, or none iff none is mentioned |
| Agent.ExtractSymbol | python/valuecell/agents/tradingview_signal_agent/agent.py:440-453 | returns the first default symbol whose name or base occurs in the upper-cased query, and none iff no base occurs |
| Agent.MentionedSymbolsMembers | python/valuecell/agents/tradingview_signal_agent/agent.py:427-430 | the collected symbols are exactly the candidates the lower-cased query names |
| Agent.MentionedSymbolsOrdered | python/valuecell/agents/tradingview_signal_agent/agent.py:427-430 | the collected symbols keep the candidates' order |
| Agent.MentionedSymbolsDistinct | python/valuecell/agents/tradingview_signal_agent/agent.py:427-430 | the collected symbols repeat nothing |
| Agent.SetupSymbolsFromFacts | python/valuecell/agents/tradingview_signal_agent/agent.py:427-433 | the selection is never empty, repeats nothing, keeps the order, picks exactly the mentioned candidates when any, and else the first two |
| Agent.DefaultSymbolsDistinct | python/valuecell/agents/tradingview_signal_agent/constants.py:85-94 | the default symbols are distinct |
| Agent.SetupSymbolsFacts | python/valuecell/agents/tradingview_signal_agent/agent.py:418-438 | a setup trades at least one default symbol, each once, in the default order |
| Agent.SetupPicksMentioned | python/valuecell/agents/tradingview_signal_agent/agent.py:427-430 | once the query names a default symbol, exactly the named ones are chosen |
| Agent.SetupFallbackIsBtcEth | python/valuecell/agents/tradingview_signal_agent/agent.py:432-433 | a query naming no default symbol trades BTCUSDT and ETHUSDT |
| Agent.CollectMentioned | python/valuecell/agents/tradingview_signal_agent/agent.py:427-430 | the loop collects exactly the mentioned symbols |
| Agent.SelectSetupSymbols | python/valuecell/agents/tradingview_signal_agent/agent.py:418-438 | the method computes exactly the setup selection |
| Agent.Route | python/valuecell/agents/tradingview_signal_agent/agent.py:61-125 | setup is chosen iff its keywords occur, whatever the session. Without a session every other request gets the missing-session reply. Otherwise the first command in test order whose keywords occur is chosen, else help |
| Agent.SessionMattersOnlyAfterSetup | python/valuecell/agents/tradingview_signal_agent/agent.py:78-93 | a setup is recognised with or without a session; only other requests need one |
| Agent.TradingAgent.constructor | python/valuecell/agents/tradingview_signal_agent/agent.py:49-53 | a new agent has no sessions |
| Agent.TradingAgent.HandleSetup | python/valuecell/agents/tradingview_signal_agent/agent.py:127-167 | fails iff the capital is not positive, and then changes nothing. Otherwise it registers a fresh portfolio under the session id with the default configuration, the chosen symbols and an empty ledger holding the capital |
| ModelProvider.StripFirstPrefix | python/valuecell/utils/model.py:18-22 | drops the first listed prefix the id starts with, once, and returns a suffix of the id; unchanged iff no prefix matches |
| ModelProvider.CleanModelId | python/valuecell/utils/model.py:12-22 | an empty id and any OpenRouter id are kept; otherwise the id is unchanged iff it has no vendor prefix |
| ModelProvider.CleanModelIdDropsFirstPrefix | python/valuecell/utils/model.py:12-22 | a changed id lost exactly the first vendor prefix it starts with |
| ModelProvider.OrDefault | python/valuecell/utils/model.py:27-37 | Python's `value or default` for an optional string |
| ModelProvider.GetModel | python/valuecell/utils/model.py:8-37 | a Google key wins, then OpenRouter, then OpenAI, and OpenRouter without any key. For Google and OpenAI the id is the configured id with the provider's prefix cleaned off, or the provider's default when that is empty; a missing id takes the default and the chosen id is never empty. OpenRouter keeps the id as given |
| ModelProvider.GoogleKeyDominates | python/valuecell/utils/model.py:25-27 | with a Google key set, other environment entries do not change the choice |

## Left out

- Language-model calls, prompt building, JSON extraction from the model's text, `make_decisions_with_cot`, streaming replies and message formatting: these are I/O with an external service. `Decisions.ParseCotToDecisions` takes the already parsed decisions as a parameter.
- Persistence: the position database, `save_snapshot`, portfolio history, formatters, the webhook and polling services and the indicator store are storage and I/O around the core.
- `analyze_chart_prime` and the chart-indicator term of the synthesis: the model keeps that weight at 0, as the source does when the chart data is absent.
- Clocks and identifiers (`datetime.now`, uuids) are parameters `now` and ids; timestamps are integer seconds.
- Floating point: all arithmetic is exact `real`, so rounding in `int(...)` is modelled only where the source truncates an integer leverage.
- Performance.CalculateSharpeRatio: `statistics.stdev` is a square root, taken as the parameter `sqrt`; the contract is stated relative to it.
- Agent.TradingAgent.HandleSetup: the regular expression that reads the capital from the request is not modelled; the amount it finds is the parameter `parsedCapital`.
- Agent.ExtractSymbol: `upper()` and `lower()` are modelled on ASCII letters only, and `strip()` of the query is not modelled.
- Technical.TechnicalSummary: the summary is a list of clause tags rather than formatted text, and the observations of all analyses are tags rather than strings.
- Technical.AnalyzeEmaAlignment: requires both EMAs to be non-zero, because the source divides by both. Its one caller runs it only when both are truthy.
- Technical.SignalStrengthBounded: stated for positive EMAs only.
- A Position is a value held in the manager's dictionary. An in-place update of a Position object is modelled as replacing the dictionary entry, so aliasing of Position objects is not captured.
- Dictionary order is a separate list of symbols (`symbols`). A symbol reopened while still held keeps its place, as a Python dictionary does.
- Pydantic validation errors become error results: Position leverage outside [1, 40] or confidence outside [0, 1], a trade signal with leverage outside [5, 40], and a non-positive initial capital. The division by zero in `add_to_position` for a zero new quantity is one too.
- Portfolio.CanOpenNewPosition: the ZeroDivisionError of the exposure ratio when capital plus exposure is zero is the error result `ExposureUndefined`.
- Performance.PeriodStatistics: a period whose equity curve steps from zero equity raises in the source, and is the error result `ZeroEquityStep`.
- Decisions.HoldFor: the hold signal of a position with leverage below 5 fails validation in the source (signals take 5..40) and is the error result `SignalLeverageTooLow`. Completion and the fallback stop at the first such symbol.
- Decisions.FallbackDecisions: reuses the completion loop with no parsed decisions rather than a loop of its own; the two loops of the source build the same holds.
- `allow_hedging`, `max_leverage`, `default_leverage`, timeframes, the trading mode and the model name are carried or dropped but never consulted by the core.

Where the code and its design notes disagree, the model follows the code:

- The volatility size adjustment applies the absolute-volatility correction as well, so base 0.1 at ATR3 150, ATR14 100 and price 50000 is scaled by 0.66 (0.6 x 1.1), not 0.6 (the worked example `Risk.VolatilitySizeExample`).
- The volatility-adjusted leverage clamps against a hard-coded 40, not the session's maximum leverage, and each band clamps one side only.
- `get_trading_statistics` filters by period only for total P&L, the equity curve and the drawdown; win/loss counts, averages and the profit factor come from the whole history.
- `close_position` does not feed the analytics object, so the summary's trade statistics count only what was added to it.
- A partial `reduce_position` credits its P&L to capital but does not add it to the realised total.
- `open_position` over a held symbol replaces the position without releasing its margin, so equity falls by that margin (`Ledger.OpenPositionAccounting`).
- The final clamp of the volatility size factor to [0.3, 1.5] never binds: the uncapped factor already lies in [0.48, 1.32].
- The CLOSE trade record carries the realised P&L in its extra field and leaves its P&L field empty.
- `total_capital` in the summary adds the open positions' notional, not their margin, to the current capital.

A few single-input lemmas pin the worked examples of the design notes rather than general properties, and so have no row in the table: `Risk.ModerateAtrStopExample` (a moderate long at 50000 with ATR14 200 stops at 49600), `Risk.RatioExactlyElevenTenthsIsNormal` (an ATR ratio of exactly 1.1 keeps the base leverage), `Risk.VolatilitySizeExample` and `ModelProvider.StripsOnce` (`openai/openai/gpt-4o` loses one prefix only).
