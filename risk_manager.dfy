/** The stateless risk calculator of a trading session: risk-based position
    sizing, confidence leverage tiers, ATR stops, volatility adjustments of size
    and leverage, portfolio heat, trade-risk assessment, take-profit ladders
    and margin status. Every operation is a function of its arguments and the
    session configuration. */
module Risk {
  import opened Common
  import opened Models

  // ==================== Position sizing ====================

  /** Outcome of `calculate_position_size`. The two rejections carry quantity
      and notional 0, as the original's error dictionaries do. */
  datatype PositionSize =
    | InvalidPrices
    | InvalidStopLoss
    | Sized(quantity: real, notionalValue: real, capitalUsagePct: real,
            actualRiskAmount: real, actualRiskPct: real, recommendedLeverage: int)
  {
    function Quantity(): real
    {
      if Sized? then quantity else 0.0
    }

    function Notional(): real
    {
      if Sized? then notionalValue else 0.0
    }
  }

  /** Percentage of `part` in `whole`, 0 when `whole` is not positive. */
  function PctOf(part: real, whole: real): real
  {
    if whole > 0.0 then part / whole * 100.0 else 0.0
  }

  /** A percentage scaled back by its base gives the part, and a
      non-positive base gives 0. */
  lemma PctOfFacts(part: real, whole: real)
    ensures whole > 0.0 ==> PctOf(part, whole) * whole == part * 100.0
    ensures whole <= 0.0 ==> PctOf(part, whole) == 0.0
  {
    if whole > 0.0 {
      var q := part / whole;
      assert q * whole == part;
      assert PctOf(part, whole) == q * 100.0;
    }
  }

  /** Leverage tier for a confidence: >= 0.75 high, >= 0.65 medium, else low. */
  function LeverageForConfidence(tiers: LeverageTiers, confidence: real): (l: int)
    ensures confidence >= 0.75 ==> l == tiers.high
    ensures 0.65 <= confidence < 0.75 ==> l == tiers.medium
    ensures confidence < 0.65 ==> l == tiers.low
  {
    if confidence >= 0.75 then tiers.high
    else if confidence >= 0.65 then tiers.medium
    else tiers.low
  }

  /** With tiers ordered low <= medium <= high, more confidence never means less leverage. */
  lemma LeverageForConfidenceMonotone(tiers: LeverageTiers, c1: real, c2: real)
    requires tiers.low <= tiers.medium <= tiers.high
    requires c1 <= c2
    ensures LeverageForConfidence(tiers, c1) <= LeverageForConfidence(tiers, c2)
  {
  }

  /** Risk-based sizing: risk `available * riskPerTradePct` over the stop
      distance, then clamp the notional to the position-size limit and to the
      available capital. */
  function CalculatePositionSize(cfg: SessionConfig, entry: real, stop: real, available: real,
                                 confidence: real): (r: PositionSize)
    ensures r == InvalidPrices <==> entry <= 0.0 || stop <= 0.0
    ensures r == InvalidStopLoss <==> entry > 0.0 && stop > 0.0 && entry == stop
    ensures !r.Sized? ==> r.Quantity() == 0.0 && r.Notional() == 0.0
    ensures r.Sized? ==> SizeWithinLimits(r, entry, Abs(entry - stop), available * cfg.riskPerTradePct,
                                          available * cfg.maxPositionSizePct, available)
    ensures r.Sized? ==> r.recommendedLeverage == LeverageForConfidence(cfg.leverageByConfidence, confidence)
    ensures r.Sized? ==> r.quantity == Min(Min(available * cfg.riskPerTradePct / Abs(entry - stop),
                                               available * cfg.maxPositionSizePct / entry), available / entry)
    // when neither clamp binds, the trade risks exactly the per-trade budget
    ensures r.Sized? && Uncapped(available * cfg.riskPerTradePct, Abs(entry - stop), entry,
                                 available * cfg.maxPositionSizePct, available)
            ==> r.actualRiskAmount == available * cfg.riskPerTradePct
  {
    if entry <= 0.0 || stop <= 0.0 then InvalidPrices
    else if Abs(entry - stop) == 0.0 then InvalidStopLoss
    else RiskBasedSize(entry, Abs(entry - stop), available * cfg.riskPerTradePct, available * cfg.maxPositionSizePct,
                       available, LeverageForConfidence(cfg.leverageByConfidence, confidence))
  }

  /** What a successful sizing guarantees: notional is quantity times entry and
      within both the position-size limit and the available capital; the risk
      taken is the quantity over the stop distance and at most the per-trade
      budget; the percentages are of the available capital. */
  predicate SizeWithinLimits(r: PositionSize, entry: real, priceRisk: real, riskBudget: real, maxNotional: real,
                             available: real)
    requires r.Sized?
  {
    && r.notionalValue == r.quantity * entry
    && r.notionalValue <= maxNotional
    && r.notionalValue <= available
    && r.actualRiskAmount == r.quantity * priceRisk
    && r.actualRiskAmount <= riskBudget
    && r.capitalUsagePct == PctOf(r.notionalValue, available)
    && r.actualRiskPct == PctOf(r.actualRiskAmount, available)
  }

  /** The sizing proper, once both prices are positive and distinct. */
  function RiskBasedSize(entry: real, priceRisk: real, riskBudget: real, maxNotional: real, available: real,
                         leverage: int): (r: PositionSize)
    requires entry > 0.0 && priceRisk > 0.0
    ensures r.Sized? && r.recommendedLeverage == leverage
    ensures SizeWithinLimits(r, entry, priceRisk, riskBudget, maxNotional, available)
    ensures r.quantity == Min(Min(riskBudget / priceRisk, maxNotional / entry), available / entry)
    ensures Uncapped(riskBudget, priceRisk, entry, maxNotional, available) ==> r.actualRiskAmount == riskBudget
  {
    var s := ClampedSize(riskBudget, priceRisk, entry, maxNotional, available);
    Sized(s.0, s.0 * entry, PctOf(s.0 * entry, available), s.1, PctOf(s.1, available), leverage)
  }

  /** Neither clamp binds: the notional of the quantity that risks the whole
      budget is within both the position-size limit and the available capital. */
  predicate Uncapped(riskBudget: real, priceRisk: real, entry: real, maxNotional: real, available: real)
    requires priceRisk != 0.0
  {
    riskBudget / priceRisk * entry <= maxNotional && riskBudget / priceRisk * entry <= available
  }

  /** The two clamps of the sizing in order, starting from the quantity that
      risks exactly `riskAmount`. Returns (quantity, risk). */
  function ClampedSize(riskAmount: real, priceRisk: real, entry: real, maxNotional: real, available: real)
    : (r: (real, real))
    requires entry > 0.0 && priceRisk > 0.0
    ensures r.0 * entry <= maxNotional && r.0 * entry <= available
    ensures r.1 == r.0 * priceRisk && r.1 <= riskAmount
    ensures r.0 == Min(Min(riskAmount / priceRisk, maxNotional / entry), available / entry)
    ensures Uncapped(riskAmount, priceRisk, entry, maxNotional, available) ==> r.1 == riskAmount
  {
    var q0 := riskAmount / priceRisk;
    assert q0 * priceRisk == riskAmount;
    var s1 := ClampToLimit(q0, entry, priceRisk, riskAmount, maxNotional);
    ClampToLimit(s1.0, entry, priceRisk, s1.1, available)
  }

  /** One clamp of the sizing: when `qty * entry` exceeds `limit` the quantity
      becomes `limit / entry` and the risk is recomputed from it; otherwise
      quantity and risk are kept. Returns (quantity, risk). */
  function ClampToLimit(qty: real, entry: real, priceRisk: real, risk: real, limit: real): (r: (real, real))
    requires entry > 0.0 && priceRisk > 0.0
    requires risk == qty * priceRisk
    ensures r.0 * entry <= limit && r.0 * entry <= qty * entry
    ensures qty * entry <= limit ==> r == (qty, risk)
    ensures qty * entry > limit ==> r.0 * entry == limit
    ensures r.0 == Min(qty, limit / entry)
    ensures r.1 == r.0 * priceRisk && r.1 <= risk
  {
    if qty * entry > limit then
      var q := limit / entry;
      assert q * entry == limit;
      assert q * entry < qty * entry;
      assert q < qty;
      (q, q * priceRisk)
    else
      QuotientBound(qty, entry, limit);
      (qty, risk)
  }

  /** `qty * entry <= limit` means `qty` is at most `limit / entry` for a positive entry. */
  lemma QuotientBound(qty: real, entry: real, limit: real)
    requires entry > 0.0 && qty * entry <= limit
    ensures qty <= limit / entry
  {
    var q := limit / entry;
    assert q * entry == limit;
    assert (q - qty) * entry >= 0.0;
  }

  // ==================== ATR-based stop loss ====================

  datatype AtrStop = AtrStop(stopPrice: real, stopDistance: real, atrMultiple: real,
                             atrValue: real, riskPct: real, riskProfile: string)

  /** ATR multiple per risk profile; unknown profiles use the moderate 2.0. */
  function AtrMultiple(profile: string): (m: real)
    ensures m == 2.5 || m == 2.0 || m == 1.5
    ensures m == 1.5 <==> profile == "aggressive"
    ensures m == 2.5 <==> profile == "conservative"
  {
    if profile == "conservative" then 2.5
    else if profile == "aggressive" then 1.5
    else 2.0
  }

  /** A stop `distance` away from `entry` on the losing side of the position. */
  function StopBeyond(entry: real, distance: real, side: Side): real
  {
    match side
    case Long => entry - distance
    case Short => entry + distance
  }

  /** `calculate_atr_based_stop_loss`. The aggressive profile uses ATR3 when it
      is present and non-zero; every other case uses ATR14. */
  function CalculateAtrBasedStopLoss(entry: real, atr14: real, atr3: Option<real>, side: Side,
                                     profile: string): (r: AtrStop)
    ensures r.atrMultiple == AtrMultiple(profile)
    ensures r.atrValue == (if profile == "aggressive" && Truthy(atr3) then atr3.value else atr14)
    ensures r.stopDistance == r.atrMultiple * r.atrValue
    ensures side == Long ==> r.stopPrice == entry - r.stopDistance
    ensures side == Short ==> r.stopPrice == entry + r.stopDistance
    ensures r.riskPct == PctOf(r.stopDistance, entry)
    ensures r.riskProfile == profile
  {
    var m := AtrMultiple(profile);
    var v := if profile == "aggressive" && Truthy(atr3) then atr3.value else atr14;
    var d := v * m;
    AtrStop(StopBeyond(entry, d, side), d, m, v, PctOf(d, entry), profile)
  }

  /** Worked example: a moderate stop at entry 50000 with ATR14 200 is 49600, 0.8% away. */
  lemma ModerateAtrStopExample()
    ensures CalculateAtrBasedStopLoss(50000.0, 200.0, None, Long, "moderate").stopPrice == 49600.0
    ensures CalculateAtrBasedStopLoss(50000.0, 200.0, None, Long, "moderate").riskPct == 0.8
  {
  }

  /** Long and short stops are mirror images around the entry. */
  lemma AtrStopsMirror(entry: real, atr14: real, atr3: Option<real>, profile: string)
    ensures CalculateAtrBasedStopLoss(entry, atr14, atr3, Long, profile).stopPrice
          + CalculateAtrBasedStopLoss(entry, atr14, atr3, Short, profile).stopPrice == 2.0 * entry
  {
  }

  /** With non-negative ATRs the stop lies on the losing side of the entry. */
  lemma AtrStopOnLosingSide(entry: real, atr14: real, atr3: Option<real>, profile: string)
    requires atr14 >= 0.0 && (atr3.Some? ==> atr3.value >= 0.0)
    ensures CalculateAtrBasedStopLoss(entry, atr14, atr3, Long, profile).stopPrice <= entry
    ensures CalculateAtrBasedStopLoss(entry, atr14, atr3, Short, profile).stopPrice >= entry
  {
  }

  // ==================== Volatility adjustments ====================

  /** Classification of the short-over-long ATR ratio. */
  datatype VolatilityState = Unknown | RapidlyExpanding | Expanding | Contracting | SlightlyContracting | Stable

  /** Ratio bands: > 1.3, > 1.1, < 0.7, < 0.9, else stable (all strict). */
  function VolatilityStateOf(ratio: real): (v: VolatilityState)
    ensures v != Unknown
    ensures v == RapidlyExpanding <==> ratio > 1.3
    ensures v == Expanding <==> 1.1 < ratio <= 1.3
    ensures v == Contracting <==> ratio < 0.7
    ensures v == SlightlyContracting <==> 0.7 <= ratio < 0.9
    ensures v == Stable <==> 0.9 <= ratio <= 1.1
  {
    if ratio > 1.3 then RapidlyExpanding
    else if ratio > 1.1 then Expanding
    else if ratio < 0.7 then Contracting
    else if ratio < 0.9 then SlightlyContracting
    else Stable
  }

  /** Size factor for each ratio band. */
  function SizeFactor(v: VolatilityState): real
  {
    match v
    case RapidlyExpanding => 0.6
    case Expanding => 0.8
    case Contracting => 1.2
    case SlightlyContracting => 1.1
    case _ => 1.0
  }

  /** ATR as a percentage of the price, 0 when the price is not positive. */
  function AtrPct(atr: real, price: real): real
  {
    PctOf(atr, price)
  }

  /** Secondary correction for the absolute volatility level. */
  function AbsoluteVolatilityCorrection(atrPct: real): (c: real)
    ensures atrPct > 3.0 ==> c == 0.8
    ensures atrPct < 1.0 ==> c == 1.1
    ensures 1.0 <= atrPct <= 3.0 ==> c == 1.0
  {
    if atrPct > 3.0 then 0.8 else if atrPct < 1.0 then 1.1 else 1.0
  }

  datatype SizeAdjustment = SizeAdjustment(adjustedQuantity: real, adjustmentFactor: real,
                                           volatilityState: VolatilityState,
                                           atrRatio: Option<real>, atrPct: Option<real>)

  /** `adjust_position_size_for_volatility`: band factor times absolute
      correction, capped to [0.3, 1.5]. The cap never binds, since the
      uncapped product already lies in [0.48, 1.32]. */
  function AdjustPositionSizeForVolatility(base: real, atr3: real, atr14: real, entry: real): (r: SizeAdjustment)
    ensures atr14 == 0.0 ==> r == SizeAdjustment(base, 1.0, Unknown, None, None)
    ensures 0.3 <= r.adjustmentFactor <= 1.5
    ensures r.adjustedQuantity == base * r.adjustmentFactor
    ensures atr14 != 0.0 ==> r.volatilityState == VolatilityStateOf(atr3 / atr14)
    ensures atr14 != 0.0 ==>
              r.adjustmentFactor == SizeFactor(VolatilityStateOf(atr3 / atr14)) * AbsoluteVolatilityCorrection(AtrPct(atr14, entry))
    ensures atr14 != 0.0 ==> r.atrRatio == Some(atr3 / atr14) && r.atrPct == Some(AtrPct(atr14, entry))
  {
    if atr14 == 0.0 then SizeAdjustment(base, 1.0, Unknown, None, None)
    else
      var ratio := atr3 / atr14;
      var pct := AtrPct(atr14, entry);
      var v := VolatilityStateOf(ratio);
      var f := Max(0.3, Min(1.5, SizeFactor(v) * AbsoluteVolatilityCorrection(pct)));
      SizeAdjustment(base * f, f, v, Some(ratio), Some(pct))
  }

  /** A higher ATR ratio never gives a larger band factor. */
  lemma SizeFactorAntitone(r1: real, r2: real)
    requires r1 <= r2
    ensures SizeFactor(VolatilityStateOf(r1)) >= SizeFactor(VolatilityStateOf(r2))
  {
  }

  /** Worked example: base 0.1, ATR3 150, ATR14 100 at 50000 is rapidly
      expanding (0.6) at 0.2% absolute volatility (x 1.1), so 0.66 of the base. */
  lemma VolatilitySizeExample()
    ensures AdjustPositionSizeForVolatility(0.1, 150.0, 100.0, 50000.0).adjustmentFactor == 0.66
    ensures AdjustPositionSizeForVolatility(0.1, 150.0, 100.0, 50000.0).adjustedQuantity == 0.066
    ensures AdjustPositionSizeForVolatility(0.1, 150.0, 100.0, 50000.0).volatilityState == RapidlyExpanding
  {
  }

  /** Volatility bands of the leverage adjustment. */
  datatype LeverageBand = NoAtrData | HighVolatility | ElevatedVolatility | LowVolatility | NormalVolatility

  /** High: ratio > 1.3 or pct > 3; elevated: ratio > 1.1 or pct > 2; low:
      ratio < 0.7 and pct < 1.5; otherwise normal (first match wins). */
  function LeverageBandOf(ratio: real, pct: real): (b: LeverageBand)
    ensures b != NoAtrData
    ensures b == HighVolatility <==> ratio > 1.3 || pct > 3.0
    ensures b == ElevatedVolatility <==> !(ratio > 1.3 || pct > 3.0) && (ratio > 1.1 || pct > 2.0)
    ensures b == LowVolatility <==> ratio < 0.7 && pct < 1.5
  {
    if ratio > 1.3 || pct > 3.0 then HighVolatility
    else if ratio > 1.1 || pct > 2.0 then ElevatedVolatility
    else if ratio < 0.7 && pct < 1.5 then LowVolatility
    else NormalVolatility
  }

  datatype LeverageAdjustment = LeverageAdjustment(adjustedLeverage: int, baseLeverage: int,
                                                   atrRatio: Option<real>, atrPct: Option<real>,
                                                   band: LeverageBand)

  /** Leverage for a band: floor of a scaled base with a floor of 5 when
      volatile, a ceiling of the hard-coded 40 when calm. */
  function LeverageInBand(base: int, b: LeverageBand): int
  {
    match b
    case HighVolatility => MaxInt(5, Trunc(base as real * 0.6))
    case ElevatedVolatility => MaxInt(5, Trunc(base as real * 0.8))
    case LowVolatility => MinInt(40, Trunc(base as real * 1.1))
    case _ => base
  }

  /** `get_volatility_adjusted_leverage`. */
  function GetVolatilityAdjustedLeverage(base: int, atr3: real, atr14: real, entry: real): (r: LeverageAdjustment)
    ensures atr14 == 0.0 ==> r.adjustedLeverage == base && r.band == NoAtrData
    ensures atr14 != 0.0 ==> r.band == LeverageBandOf(atr3 / atr14, AtrPct(atr14, entry))
    ensures r.adjustedLeverage == LeverageInBand(base, r.band)
    ensures r.baseLeverage == base
  {
    if atr14 == 0.0 then LeverageAdjustment(base, base, None, None, NoAtrData)
    else
      var ratio := atr3 / atr14;
      var pct := AtrPct(atr14, entry);
      var b := LeverageBandOf(ratio, pct);
      LeverageAdjustment(LeverageInBand(base, b), base, Some(ratio), Some(pct), b)
  }

  /** Starting from a signal leverage in [5, 40], the adjusted leverage stays in [5, 40];
      volatile bands never raise it and the calm band never lowers it. */
  lemma {:induction false} AdjustedLeverageInSignalRange(base: int, atr3: real, atr14: real, entry: real)
    requires 5 <= base <= 40
    ensures 5 <= GetVolatilityAdjustedLeverage(base, atr3, atr14, entry).adjustedLeverage <= 40
    ensures GetVolatilityAdjustedLeverage(base, atr3, atr14, entry).band in {HighVolatility, ElevatedVolatility}
            ==> GetVolatilityAdjustedLeverage(base, atr3, atr14, entry).adjustedLeverage <= base
    ensures GetVolatilityAdjustedLeverage(base, atr3, atr14, entry).band == LowVolatility
            ==> GetVolatilityAdjustedLeverage(base, atr3, atr14, entry).adjustedLeverage >= base
  {
    var r := GetVolatilityAdjustedLeverage(base, atr3, atr14, entry);
    var b := base as real;
    match r.band {
      case HighVolatility =>
        assert Trunc(b * 0.6) as real <= b * 0.6 < b;
      case ElevatedVolatility =>
        assert Trunc(b * 0.8) as real <= b * 0.8 < b;
      case LowVolatility =>
        assert b <= b * 1.1 < Trunc(b * 1.1) as real + 1.0;
      case _ =>
    }
  }

  /** All comparisons are strict: an ATR ratio of exactly 1.1 at no more than
      2% absolute volatility is normal, and the base leverage is kept. */
  lemma RatioExactlyElevenTenthsIsNormal(base: int, atr14: real, entry: real)
    requires atr14 != 0.0 && AtrPct(atr14, entry) <= 2.0
    ensures GetVolatilityAdjustedLeverage(base, 1.1 * atr14, atr14, entry).band == NormalVolatility
    ensures GetVolatilityAdjustedLeverage(base, 1.1 * atr14, atr14, entry).adjustedLeverage == base
  {
    assert 1.1 * atr14 / atr14 == 1.1;
  }

  // ==================== Portfolio heat and exposure ====================

  /** `calculate_portfolio_heat`: total risk over current capital plus total notional. */
  function CalculatePortfolioHeat(currentCapital: real, ps: seq<Position>): (h: real)
    ensures ps == [] ==> h == 0.0
    ensures currentCapital + TotalNotional(ps) == 0.0 ==> h == 0.0
    ensures currentCapital + TotalNotional(ps) != 0.0
            ==> h * (currentCapital + TotalNotional(ps)) == TotalRiskUsd(ps)
  {
    var totalCapital := currentCapital + TotalNotional(ps);
    if totalCapital == 0.0 then 0.0 else TotalRiskUsd(ps) / totalCapital
  }

  /** `get_total_exposure`. */
  function GetTotalExposure(ps: seq<Position>): (e: real)
    ensures e == TotalNotional(ps)
  {
    TotalNotional(ps)
  }

  /** Notionals that are all non-negative have a non-negative total. */
  lemma {:induction false} TotalNotionalNonNegative(ps: seq<Position>)
    requires forall i :: 0 <= i < |ps| ==> ps[i].notionalValue >= 0.0
    ensures TotalNotional(ps) >= 0.0
    decreases |ps|
  {
    if ps != [] {
      TotalNotionalNonNegative(ps[..|ps| - 1]);
    }
  }

  // ==================== Trade risk assessment ====================

  datatype RiskFlag = NoCapital | ExceedsPositionSize | ExceedsPortfolioHeat | MaxConcurrentReached
                    | InsufficientCapital

  datatype RiskWarning = HighPortfolioRisk | LargePositionSize

  datatype RiskMetrics = RiskMetrics(positionRiskPct: real, newPortfolioHeat: real,
                                     capitalUsagePct: real, totalExposureAfter: real)

  datatype TradeRisk = TradeRisk(isAcceptable: bool, risks: seq<RiskFlag>, warnings: seq<RiskWarning>,
                                 metrics: Option<RiskMetrics>)

  /** Flags in the fixed order size, heat, concurrency, capital. */
  function RiskFlags(cfg: SessionConfig, action: OperationType, notional: real, heat: real,
                     openCount: int, available: real): (risks: seq<RiskFlag>)
    ensures ExceedsPositionSize in risks <==> notional > available * cfg.maxPositionSizePct
    ensures ExceedsPortfolioHeat in risks <==> heat > cfg.maxTotalExposurePct
    ensures MaxConcurrentReached in risks <==> action == Open && openCount >= cfg.maxConcurrentPositions
    ensures InsufficientCapital in risks <==> notional > available
    ensures NoCapital !in risks
  {
    (if notional > available * cfg.maxPositionSizePct then [ExceedsPositionSize] else [])
    + (if heat > cfg.maxTotalExposurePct then [ExceedsPortfolioHeat] else [])
    + (if action == Open && openCount >= cfg.maxConcurrentPositions then [MaxConcurrentReached] else [])
    + (if notional > available then [InsufficientCapital] else [])
  }

  /** `assess_trade_risk`. The portfolio heat of the current positions is taken
      against `currentCapital`, the new trade's against `available` plus notional. */
  function AssessTradeRisk(cfg: SessionConfig, currentCapital: real, action: OperationType, quantity: real,
                           entry: real, stop: real, ps: seq<Position>, available: real): (r: TradeRisk)
    ensures r.isAcceptable <==> r.risks == []
    ensures available + TotalNotional(ps) == 0.0 ==> r == TradeRisk(false, [NoCapital], [], None)
    ensures available + TotalNotional(ps) != 0.0 ==>
      && r.metrics.Some?
      && (ExceedsPositionSize in r.risks <==> quantity * entry > available * cfg.maxPositionSizePct)
      && (ExceedsPortfolioHeat in r.risks <==> r.metrics.value.newPortfolioHeat > cfg.maxTotalExposurePct)
      && (MaxConcurrentReached in r.risks <==> action == Open && |ps| >= cfg.maxConcurrentPositions)
      && (InsufficientCapital in r.risks <==> quantity * entry > available)
      && NoCapital !in r.risks
      && (HighPortfolioRisk in r.warnings <==> r.metrics.value.newPortfolioHeat > 0.10)
      && (LargePositionSize in r.warnings <==> quantity * entry > available * 0.15)
      && r.metrics.value.newPortfolioHeat
         == CalculatePortfolioHeat(currentCapital, ps)
            + quantity * Abs(entry - stop) / (available + TotalNotional(ps))
      && r.metrics.value.totalExposureAfter == TotalNotional(ps) + quantity * entry
      && r.metrics.value.positionRiskPct == quantity * Abs(entry - stop) / (available + TotalNotional(ps)) * 100.0
      && r.metrics.value.capitalUsagePct == PctOf(quantity * entry, available)
  {
    var notional := quantity * entry;
    var riskAmount := quantity * Abs(entry - stop);
    var totalCapital := available + TotalNotional(ps);
    if totalCapital == 0.0 then TradeRisk(false, [NoCapital], [], None)
    else
      var heat := CalculatePortfolioHeat(currentCapital, ps) + riskAmount / totalCapital;
      var risks := RiskFlags(cfg, action, notional, heat, |ps|, available);
      var warnings := (if heat > 0.10 then [HighPortfolioRisk] else [])
                      + (if notional > available * 0.15 then [LargePositionSize] else []);
      TradeRisk(risks == [], risks, warnings,
                Some(RiskMetrics(riskAmount / totalCapital * 100.0, heat, PctOf(notional, available),
                                 TotalNotional(ps) + notional)))
  }

  /** A trade whose notional exceeds the available capital is never acceptable. */
  lemma OverCapitalTradeRejected(cfg: SessionConfig, currentCapital: real, action: OperationType, quantity: real,
                                 entry: real, stop: real, ps: seq<Position>, available: real)
    requires quantity * entry > available
    ensures !AssessTradeRisk(cfg, currentCapital, action, quantity, entry, stop, ps, available).isAcceptable
  {
  }

  // ==================== Stops, take-profit ladder, margin ====================

  /** `calculate_stop_loss`: twice a positive ATR away from the entry, else a
      percentage of the entry. */
  function CalculateStopLoss(entry: real, side: Side, atr: Option<real>, percentage: real): (s: real)
    ensures atr.Some? && atr.value > 0.0 ==> s == StopBeyond(entry, 2.0 * atr.value, side)
    ensures !(atr.Some? && atr.value > 0.0) ==> s == StopBeyond(entry, entry * percentage, side)
  {
    if atr.Some? && atr.value > 0.0 then StopBeyond(entry, atr.value * 2.0, side)
    else match side
      case Long => entry * (1.0 - percentage)
      case Short => entry * (1.0 + percentage)
  }

  /** The share of the position each ladder rung takes: 50, 30, then 20 percent. */
  function LadderQtyPct(i: nat): real
  {
    if i == 0 then 50.0 else if i == 1 then 30.0 else if i == 2 then 20.0 else 100.0
  }

  /** Take-profit price `rr` stop-distances into the profit side of the entry. */
  function TargetBeyond(entry: real, reward: real, side: Side): real
  {
    match side
    case Long => entry + reward
    case Short => entry - reward
  }

  /** Rung `i` of the ladder for risk-reward ratio `rr`. */
  function Rung(entry: real, stop: real, side: Side, rr: real, i: nat): TakeProfitTarget
  {
    TakeProfitTarget(TargetBeyond(entry, Abs(entry - stop) * rr, side), LadderQtyPct(i), rr)
  }

  /** `calculate_take_profit_targets`: one rung per each of the first three ratios. */
  function CalculateTakeProfitTargets(entry: real, stop: real, side: Side, ratios: seq<real>): (t: seq<TakeProfitTarget>)
    ensures |t| == MinInt(|ratios|, 3)
    ensures forall i :: 0 <= i < |t| ==> t[i].riskRewardRatio == ratios[i]
    ensures forall i :: 0 <= i < |t| ==> t[i].qtyPct == LadderQtyPct(i)
    ensures forall i :: 0 <= i < |t| ==> t[i].price == TargetBeyond(entry, Abs(entry - stop) * ratios[i], side)
  {
    var n := MinInt(|ratios|, 3);
    seq(n, i requires 0 <= i < n => Rung(entry, stop, side, ratios[i], i))
  }

  function SumQtyPct(t: seq<TakeProfitTarget>): real
  {
    if t == [] then 0.0 else SumQtyPct(t[..|t| - 1]) + t[|t| - 1].qtyPct
  }

  /** The ladder never assigns more than the whole position. */
  lemma TakeProfitLadderAtMostWhole(entry: real, stop: real, side: Side, ratios: seq<real>)
    ensures SumQtyPct(CalculateTakeProfitTargets(entry, stop, side, ratios)) <= 100.0
  {
    var t := CalculateTakeProfitTargets(entry, stop, side, ratios);
    assert |t| <= 3;
    if |t| >= 1 {
      assert SumQtyPct(t[..1]) == 50.0 by {
        assert t[..1][..0] == [];
      }
    }
    if |t| >= 2 {
      assert SumQtyPct(t[..2]) == 80.0 by {
        assert t[..2][..1] == t[..1];
      }
    }
    if |t| == 3 {
      assert t[..3] == t;
      assert t[..3][..2] == t[..2];
    } else if |t| == 2 {
      assert t[..2] == t;
    } else if |t| == 1 {
      assert t[..1] == t;
    }
  }

  /** For a long with non-negative ratios every rung lies at or above the entry; a short mirrors this. */
  lemma TakeProfitOnProfitSide(entry: real, stop: real, side: Side, ratios: seq<real>, i: int)
    requires 0 <= i < MinInt(|ratios|, 3) && ratios[i] >= 0.0
    ensures side == Long ==> CalculateTakeProfitTargets(entry, stop, side, ratios)[i].price >= entry
    ensures side == Short ==> CalculateTakeProfitTargets(entry, stop, side, ratios)[i].price <= entry
  {
    var t := CalculateTakeProfitTargets(entry, stop, side, ratios);
    assert Abs(entry - stop) * ratios[i] >= 0.0;
  }

  datatype MarginStatus = MarginStatus(totalMarginUsed: real, availableMargin: real, marginUsagePct: real,
                                       isWarning: bool, isCritical: bool)

  /** `check_margin_requirements`: margin used is the sum of notional over leverage. */
  function CheckMarginRequirements(ps: seq<Position>, available: real): (m: MarginStatus)
    ensures m.totalMarginUsed == TotalMargin(ps)
    ensures m.availableMargin == available
    ensures available <= 0.0 ==> m.marginUsagePct == 0.0 && !m.isWarning
    ensures m.isWarning <==> m.marginUsagePct > 80.0
    ensures m.isCritical <==> m.marginUsagePct > 90.0
    ensures m.isCritical ==> m.isWarning
    ensures available > 0.0 ==> m.marginUsagePct * available == TotalMargin(ps) * 100.0
    ensures available > 0.0 ==> (m.isWarning <==> TotalMargin(ps) > 0.8 * available)
    ensures available > 0.0 ==> (m.isCritical <==> TotalMargin(ps) > 0.9 * available)
  {
    var used := TotalMargin(ps);
    var pct := PctOf(used, available);
    PctOfFacts(used, available);
    if available > 0.0 then
      UsageAbove(used, available, pct, 80.0);
      UsageAbove(used, available, pct, 90.0);
      MarginStatus(used, available, pct, pct > 80.0, pct > 90.0)
    else
      MarginStatus(used, available, pct, pct > 80.0, pct > 90.0)
  }

  /** A usage percentage exceeds a threshold exactly when the part exceeds
      that share of the base. */
  lemma UsageAbove(used: real, available: real, pct: real, threshold: real)
    requires available > 0.0 && pct * available == used * 100.0
    ensures pct > threshold <==> used > threshold / 100.0 * available
  {
    assert (pct - threshold) * available == (used - threshold / 100.0 * available) * 100.0;
  }
}
