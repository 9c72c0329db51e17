/** The records of the trading agent: invalidation rules, indicator readings,
    positions and their closed snapshots, session configuration, and the
    conversion of a recommendation into a chain-of-thought trade signal.
    Field bounds that the original validates on construction become subset types. */
module Models {
  import opened Common

  /** Leverage accepted on a Position: 1x to 40x. */
  type PositionLeverage = x: int | 1 <= x <= 40 witness 1

  /** Leverage accepted on a trade signal or a recommendation: 5x to 40x. */
  type SignalLeverage = x: int | 5 <= x <= 40 witness 5

  /** A confidence value: 0 to 1. */
  type Confidence = c: real | 0.0 <= c <= 1.0

  /** An RSI reading: 0 to 100. */
  type RsiValue = v: real | 0.0 <= v <= 100.0

  datatype OperationType = Open | Add | Reduce | Close | Hold | Reverse

  // ==================== Invalidation condition ====================

  /** One candle of recent market data; only its close is consulted. */
  datatype Candle = Candle(close: real)

  const PRICE_CLOSE_BELOW := "price_close_below"
  const PRICE_CLOSE_ABOVE := "price_close_above"

  /** A rule that forces a close when a run of recent closes breaches a price.
      `conditionType` is free text: only the two constants above are acted on. */
  datatype InvalidationCondition = InvalidationCondition(
    description: string,
    conditionType: string,
    triggerPrice: Option<real>,
    timeframe: string,
    candleCloses: int)

  /** Python's slice `xs[-k:]` for any integer `k` (note `-0` is `0`, the whole list). */
  function TailSlice<T>(xs: seq<T>, k: int): (r: seq<T>)
    ensures 0 < k <= |xs| ==> r == xs[|xs| - k..]
    ensures k == 0 ==> r == xs
    ensures k > |xs| ==> r == xs
  {
    if k > 0 then (if k <= |xs| then xs[|xs| - k..] else xs)
    else if k == 0 then xs
    else if -k <= |xs| then xs[-k..] else []
  }

  /** Python's `all(c.close < t for c in cs)`. */
  function AllCloseBelow(cs: seq<Candle>, t: real): bool
  {
    |cs| == 0 || (cs[0].close < t && AllCloseBelow(cs[1..], t))
  }

  /** Python's `all(c.close > t for c in cs)`. */
  function AllCloseAbove(cs: seq<Candle>, t: real): bool
  {
    |cs| == 0 || (cs[0].close > t && AllCloseAbove(cs[1..], t))
  }

  lemma {:induction false} AllCloseBelowIff(cs: seq<Candle>, t: real)
    ensures AllCloseBelow(cs, t) <==> forall i :: 0 <= i < |cs| ==> cs[i].close < t
  {
    if |cs| > 0 {
      AllCloseBelowIff(cs[1..], t);
      assert forall i :: 1 <= i < |cs| ==> cs[i] == cs[1..][i - 1];
    }
  }

  lemma {:induction false} AllCloseAboveIff(cs: seq<Candle>, t: real)
    ensures AllCloseAbove(cs, t) <==> forall i :: 0 <= i < |cs| ==> cs[i].close > t
  {
    if |cs| > 0 {
      AllCloseAboveIff(cs[1..], t);
      assert forall i :: 1 <= i < |cs| ==> cs[i] == cs[1..][i - 1];
    }
  }

  /** `InvalidationCondition.is_triggered`: the last `candleCloses` closes all lie
      strictly beyond a non-zero trigger price, on the side the rule names. */
  function IsTriggered(cond: InvalidationCondition, candles: seq<Candle>): (b: bool)
    ensures b ==> |candles| > 0 && |candles| >= cond.candleCloses
    ensures b ==> Truthy(cond.triggerPrice)
    ensures b ==> cond.conditionType == PRICE_CLOSE_BELOW || cond.conditionType == PRICE_CLOSE_ABOVE
  {
    if |candles| == 0 || |candles| < cond.candleCloses then false
    else if cond.conditionType == PRICE_CLOSE_BELOW && Truthy(cond.triggerPrice) then
      AllCloseBelow(TailSlice(candles, cond.candleCloses), cond.triggerPrice.value)
    else if cond.conditionType == PRICE_CLOSE_ABOVE && Truthy(cond.triggerPrice) then
      AllCloseAbove(TailSlice(candles, cond.candleCloses), cond.triggerPrice.value)
    else false
  }

  /** A close-below rule over N >= 1 candles fires exactly when each of the last N
      closes is strictly below the trigger price. */
  lemma TriggeredBelowIff(cond: InvalidationCondition, candles: seq<Candle>)
    requires cond.conditionType == PRICE_CLOSE_BELOW && Truthy(cond.triggerPrice)
    requires 1 <= cond.candleCloses <= |candles|
    ensures IsTriggered(cond, candles) <==>
      forall i :: |candles| - cond.candleCloses <= i < |candles| ==> candles[i].close < cond.triggerPrice.value
  {
    var tail := candles[|candles| - cond.candleCloses..];
    AllCloseBelowIff(tail, cond.triggerPrice.value);
    assert forall i :: |candles| - cond.candleCloses <= i < |candles| ==>
      candles[i] == tail[i - (|candles| - cond.candleCloses)];
  }

  /** The mirror rule: a close-above rule fires exactly when each of the last N
      closes is strictly above the trigger price. */
  lemma TriggeredAboveIff(cond: InvalidationCondition, candles: seq<Candle>)
    requires cond.conditionType == PRICE_CLOSE_ABOVE && Truthy(cond.triggerPrice)
    requires 1 <= cond.candleCloses <= |candles|
    ensures IsTriggered(cond, candles) <==>
      forall i :: |candles| - cond.candleCloses <= i < |candles| ==> candles[i].close > cond.triggerPrice.value
  {
    var tail := candles[|candles| - cond.candleCloses..];
    AllCloseAboveIff(tail, cond.triggerPrice.value);
    assert forall i :: |candles| - cond.candleCloses <= i < |candles| ==>
      candles[i] == tail[i - (|candles| - cond.candleCloses)];
  }

  /** One close at or above the trigger among the last N blocks a close-below rule:
      two closes out of three never fire a three-close rule. */
  lemma OneCloseAtOrAboveBlocksBelow(cond: InvalidationCondition, candles: seq<Candle>, k: int)
    requires cond.conditionType == PRICE_CLOSE_BELOW && cond.triggerPrice.Some?
    requires cond.candleCloses >= 1
    requires 0 <= k < |candles| && |candles| - cond.candleCloses <= k
    requires candles[k].close >= cond.triggerPrice.value
    ensures !IsTriggered(cond, candles)
  {
    if IsTriggered(cond, candles) {
      TriggeredBelowIff(cond, candles);
    }
  }

  /** With `candleCloses == 0` the slice `[-0:]` is the whole list, so every close
      supplied must be below the trigger. */
  lemma ZeroCandleClosesChecksWholeList(cond: InvalidationCondition, candles: seq<Candle>)
    requires cond.conditionType == PRICE_CLOSE_BELOW && Truthy(cond.triggerPrice)
    requires cond.candleCloses == 0 && |candles| > 0
    ensures IsTriggered(cond, candles) <==>
      forall i :: 0 <= i < |candles| ==> candles[i].close < cond.triggerPrice.value
  {
    AllCloseBelowIff(candles, cond.triggerPrice.value);
  }

  // ==================== Indicators ====================

  datatype MacdIndicator = MacdIndicator(macdLine: real, signalLine: real, histogram: real)
  {
    /** The MACD line is above its signal line with a positive histogram. */
    predicate IsBullishCrossover()
    {
      macdLine > signalLine && histogram > 0.0
    }

    /** The MACD line is below its signal line with a negative histogram. */
    predicate IsBearishCrossover(): (b: bool)
      ensures b ==> !IsBullishCrossover()
    {
      macdLine < signalLine && histogram < 0.0
    }
  }

  const RSI_OVERBOUGHT := 70.0
  const RSI_OVERSOLD := 30.0

  predicate IsOverbought(v: RsiValue)
  {
    v > RSI_OVERBOUGHT
  }

  predicate IsOversold(v: RsiValue): (b: bool)
    ensures b ==> !IsOverbought(v)
  {
    v < RSI_OVERSOLD
  }

  /** The neutral band 40..60 inclusive; it meets neither extreme zone. */
  predicate IsNeutral(v: RsiValue): (b: bool)
    ensures b ==> !IsOverbought(v) && !IsOversold(v)
  {
    40.0 <= v <= 60.0
  }

  // ==================== Positions ====================

  /** One rung of a take-profit ladder. */
  datatype TakeProfitTarget = TakeProfitTarget(price: real, qtyPct: real, riskRewardRatio: real)

  datatype Position = Position(
    positionId: string,
    sessionId: string,
    symbol: string,
    side: Side,
    quantity: real,
    notionalValue: real,
    leverage: PositionLeverage,
    entryPrice: real,
    currentPrice: Option<real>,
    profitTarget: real,
    stopLossPrice: real,
    takeProfitTargets: seq<TakeProfitTarget>,
    invalidation: InvalidationCondition,
    riskUsd: real,
    riskAmount: real,
    rewardPotential: real,
    riskRewardRatio: real,
    confidence: Confidence,
    unrealizedPnl: real,
    unrealizedPnlPct: real,
    openedAt: Timestamp,
    lastUpdated: Timestamp,
    entrySignalId: Option<string>,
    entryReasoning: Option<string>)
  {
    /** Capital set aside for the position: notional / leverage. */
    function Margin(): real
    {
      notionalValue / leverage as real
    }
  }

  /** Profit of moving `qty` units from `entry` to `price` on the given side. */
  function PnlAt(side: Side, entry: real, price: real, qty: real): real
  {
    match side
    case Long => (price - entry) * qty
    case Short => (entry - price) * qty
  }

  /** A long and a short of the same size see opposite profits. */
  lemma PnlSidesOpposite(entry: real, price: real, qty: real)
    ensures PnlAt(Long, entry, price, qty) == -PnlAt(Short, entry, price, qty)
    ensures price == entry ==> PnlAt(Long, entry, price, qty) == 0.0
  {
  }

  /** `Position.calculate_unrealized_pnl`: re-marks the position at `price`.
      The percentage is refreshed only when the notional is positive. */
  function CalculateUnrealizedPnl(p: Position, price: real): (r: Position)
    ensures r.currentPrice == Some(price)
    ensures r.unrealizedPnl == PnlAt(p.side, p.entryPrice, price, p.quantity)
    ensures p.notionalValue > 0.0 ==> r.unrealizedPnlPct == r.unrealizedPnl / p.notionalValue * 100.0
    ensures p.notionalValue <= 0.0 ==> r.unrealizedPnlPct == p.unrealizedPnlPct
    ensures r == p.(currentPrice := r.currentPrice, unrealizedPnl := r.unrealizedPnl,
                    unrealizedPnlPct := r.unrealizedPnlPct)
  {
    var pnl := PnlAt(p.side, p.entryPrice, price, p.quantity);
    p.(currentPrice := Some(price),
       unrealizedPnl := pnl,
       unrealizedPnlPct := if p.notionalValue > 0.0 then pnl / p.notionalValue * 100.0 else p.unrealizedPnlPct)
  }

  /** Marking twice at the same price leaves the same position as marking once. */
  lemma CalculateUnrealizedPnlIdempotent(p: Position, price: real)
    ensures CalculateUnrealizedPnl(CalculateUnrealizedPnl(p, price), price) == CalculateUnrealizedPnl(p, price)
  {
  }

  // ==================== Sums over positions ====================

  /** The per-position quantities the original sums over a list of positions. */
  datatype PositionMeasure = NotionalOf | MarginOf | RiskUsdOf | UnrealizedPnlOf

  function Measure(p: Position, f: PositionMeasure): real
  {
    match f
    case NotionalOf => p.notionalValue
    case MarginOf => p.Margin()
    case RiskUsdOf => p.riskUsd
    case UnrealizedPnlOf => p.unrealizedPnl
  }

  /** Python's `sum(f(p) for p in ps)`, accumulated from the front. */
  function SumBy(ps: seq<Position>, f: PositionMeasure): real
  {
    if ps == [] then 0.0 else SumBy(ps[..|ps| - 1], f) + Measure(ps[|ps| - 1], f)
  }

  lemma {:induction false} SumByAppend(ps: seq<Position>, qs: seq<Position>, f: PositionMeasure)
    ensures SumBy(ps + qs, f) == SumBy(ps, f) + SumBy(qs, f)
    decreases |qs|
  {
    if qs == [] {
      assert ps + qs == ps;
    } else {
      var last := |qs| - 1;
      assert (ps + qs)[..|ps + qs| - 1] == ps + qs[..last];
      SumByAppend(ps, qs[..last], f);
    }
  }

  /** Replacing one element changes the sum by the difference of the two terms. */
  lemma SumByUpdate(ps: seq<Position>, i: int, p: Position, f: PositionMeasure)
    requires 0 <= i < |ps|
    ensures SumBy(ps[i := p], f) == SumBy(ps, f) - Measure(ps[i], f) + Measure(p, f)
  {
    assert ps == ps[..i] + [ps[i]] + ps[i + 1..];
    assert ps[i := p] == ps[..i] + [p] + ps[i + 1..];
    SumByAppend(ps[..i] + [ps[i]], ps[i + 1..], f);
    SumByAppend(ps[..i] + [p], ps[i + 1..], f);
    SumByAppend(ps[..i], [ps[i]], f);
    SumByAppend(ps[..i], [p], f);
  }

  /** Dropping one element removes exactly its term from the sum. */
  lemma SumByRemove(ps: seq<Position>, i: int, f: PositionMeasure)
    requires 0 <= i < |ps|
    ensures SumBy(ps[..i] + ps[i + 1..], f) == SumBy(ps, f) - Measure(ps[i], f)
  {
    assert ps == ps[..i] + [ps[i]] + ps[i + 1..];
    SumByAppend(ps[..i] + [ps[i]], ps[i + 1..], f);
    SumByAppend(ps[..i], [ps[i]], f);
    SumByAppend(ps[..i], ps[i + 1..], f);
  }

  /** Appending one element adds its term. */
  lemma SumBySnoc(ps: seq<Position>, p: Position, f: PositionMeasure)
    ensures SumBy(ps + [p], f) == SumBy(ps, f) + Measure(p, f)
  {
    assert (ps + [p])[..|ps|] == ps;
  }

  /** The two sums the portfolio totals use, one element added or dropped. */
  lemma SnocTotals(ps: seq<Position>, p: Position)
    ensures TotalUnrealizedPnl(ps + [p]) == TotalUnrealizedPnl(ps) + p.unrealizedPnl
    ensures TotalNotional(ps + [p]) == TotalNotional(ps) + p.notionalValue
  {
    SumBySnoc(ps, p, UnrealizedPnlOf);
    SumBySnoc(ps, p, NotionalOf);
  }

  lemma RemoveTotals(ps: seq<Position>, i: int)
    requires 0 <= i < |ps|
    ensures TotalUnrealizedPnl(ps[..i] + ps[i + 1..]) == TotalUnrealizedPnl(ps) - ps[i].unrealizedPnl
    ensures TotalNotional(ps[..i] + ps[i + 1..]) == TotalNotional(ps) - ps[i].notionalValue
  {
    SumByRemove(ps, i, UnrealizedPnlOf);
    SumByRemove(ps, i, NotionalOf);
  }

  function TotalNotional(ps: seq<Position>): real
  {
    SumBy(ps, NotionalOf)
  }

  function TotalMargin(ps: seq<Position>): real
  {
    SumBy(ps, MarginOf)
  }

  function TotalRiskUsd(ps: seq<Position>): real
  {
    SumBy(ps, RiskUsdOf)
  }

  function TotalUnrealizedPnl(ps: seq<Position>): real
  {
    SumBy(ps, UnrealizedPnlOf)
  }

  datatype ClosedPosition = ClosedPosition(
    positionId: string,
    sessionId: string,
    symbol: string,
    side: Side,
    quantity: real,
    entryPrice: real,
    exitPrice: real,
    realizedPnl: real,
    realizedPnlPct: real,
    openedAt: Timestamp,
    closedAt: Timestamp,
    holdingDuration: real,
    exitReason: string,
    exitSignalId: Option<string>)

  /** Sum of realised P&L over closed positions, accumulated from the front. */
  function SumRealizedPnl(cs: seq<ClosedPosition>): real
  {
    if cs == [] then 0.0 else SumRealizedPnl(cs[..|cs| - 1]) + cs[|cs| - 1].realizedPnl
  }

  lemma SumRealizedPnlAppend(cs: seq<ClosedPosition>, c: ClosedPosition)
    ensures SumRealizedPnl(cs + [c]) == SumRealizedPnl(cs) + c.realizedPnl
  {
    assert (cs + [c])[..|cs|] == cs;
  }

  // ==================== Session configuration ====================

  /** Leverage to use per confidence tier. */
  datatype LeverageTiers = LeverageTiers(high: int, medium: int, low: int)

  /** The fixed part of a trading session's configuration. The mutable
      `current_capital` lives with the position ledger. */
  datatype SessionConfig = SessionConfig(
    sessionId: string,
    initialCapital: real,
    maxPositionSizePct: real,
    maxTotalExposurePct: real,
    maxConcurrentPositions: int,
    riskPerTradePct: real,
    allowPyramiding: bool,
    allowHedging: bool,
    maxLeverage: int,
    defaultLeverage: int,
    leverageByConfidence: LeverageTiers,
    supportedSymbols: seq<string>)

  /** The configuration a new session gets, with the original's defaults. */
  function DefaultSessionConfig(sessionId: string, initialCapital: real, symbols: seq<string>): (c: SessionConfig)
    ensures c.initialCapital == initialCapital && c.supportedSymbols == symbols
    ensures !c.allowPyramiding && c.maxConcurrentPositions == 5
    ensures c.leverageByConfidence == LeverageTiers(15, 10, 5)
  {
    SessionConfig(sessionId, initialCapital, 0.20, 0.60, 5, 0.02, false, false, 20, 10,
                  LeverageTiers(15, 10, 5), symbols)
  }

  /** Construction-time validation of a session: initial capital must be positive. */
  predicate ValidSessionConfig(c: SessionConfig)
  {
    c.initialCapital > 0.0
  }

  // ==================== Trade signals ====================

  datatype PositionAction = PositionAction(
    operation: OperationType,
    symbol: string,
    side: Side,
    quantity: Option<real>,
    suggestedPrice: real,
    stopLoss: Option<real>,
    takeProfitTargets: Option<seq<TakeProfitTarget>>,
    reasoning: string)

  /** The parts of an enhanced recommendation that `to_cot_signal` reads. */
  datatype Recommendation = Recommendation(
    symbol: string,
    currentPosition: Option<Position>,
    action: PositionAction,
    confidence: Confidence,
    riskUsd: real,
    leverage: SignalLeverage,
    invalidation: InvalidationCondition,
    aiReasoning: string)

  /** A chain-of-thought trade signal: "hold", "entry", "exit" or "close". */
  datatype TradeSignalArgs = TradeSignalArgs(
    coin: string,
    signal: string,
    quantity: real,
    profitTarget: real,
    stopLoss: real,
    invalidationCondition: string,
    leverage: SignalLeverage,
    confidence: Confidence,
    riskUsd: real,
    justification: Option<string>)

  /** The operation-to-signal table; operations it lacks fall back to "hold". */
  function SignalFor(op: OperationType): (s: string)
    ensures s == "entry" <==> op == Open || op == Add
    ensures s == "exit" <==> op == Reduce
    ensures s == "close" <==> op == Close
    ensures s == "hold" <==> op == Hold || op == Reverse
  {
    match op
    case Open => "entry"
    case Add => "entry"
    case Reduce => "exit"
    case Close => "close"
    case _ => "hold"
  }

  /** `EnhancedTradingRecommendation.to_cot_signal`. */
  function ToCotSignal(rec: Recommendation): (r: TradeSignalArgs)
    ensures r.coin == rec.symbol && r.signal == SignalFor(rec.action.operation)
    ensures r.justification.None? <==> rec.action.operation == Hold
    ensures r.justification.Some? ==> r.justification.value == rec.aiReasoning
    ensures (rec.action.takeProfitTargets.None? || rec.action.takeProfitTargets.value == []) ==> r.profitTarget == 0.0
    ensures rec.action.takeProfitTargets.Some? && rec.action.takeProfitTargets.value != [] ==>
              r.profitTarget == rec.action.takeProfitTargets.value[0].price
    ensures Truthy(rec.action.quantity) ==> r.quantity == rec.action.quantity.value
    ensures !Truthy(rec.action.quantity) ==>
              r.quantity == (if rec.currentPosition.Some? then rec.currentPosition.value.quantity else 0.0)
    ensures r.stopLoss == (if rec.action.stopLoss.Some? then rec.action.stopLoss.value else 0.0)
    ensures r.leverage == rec.leverage && r.confidence == rec.confidence && r.riskUsd == rec.riskUsd
  {
    var a := rec.action;
    TradeSignalArgs(
      rec.symbol,
      SignalFor(a.operation),
      if Truthy(a.quantity) then a.quantity.value
      else if rec.currentPosition.Some? then rec.currentPosition.value.quantity else 0.0,
      if a.takeProfitTargets.Some? && a.takeProfitTargets.value != [] then a.takeProfitTargets.value[0].price else 0.0,
      if Truthy(a.stopLoss) then a.stopLoss.value else 0.0,
      rec.invalidation.description,
      rec.leverage,
      rec.confidence,
      rec.riskUsd,
      if a.operation != Hold then Some(rec.aiReasoning) else None)
  }

  /** A REVERSE recommendation becomes a "hold" signal that still carries a justification. */
  lemma ReverseBecomesJustifiedHold(rec: Recommendation)
    requires rec.action.operation == Reverse
    ensures ToCotSignal(rec).signal == "hold" && ToCotSignal(rec).justification.Some?
  {
  }
}
