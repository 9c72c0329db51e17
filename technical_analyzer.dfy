/** The technical analyser: banded scoring of MACD, RSI, EMA alignment, RSI
    divergence, ATR volatility and MACD momentum, and their weighted
    synthesis into an action, a direction, a confidence and a trend. Every
    analysis is a function of its readings; observations are tags that
    carry the numbers the original formats into its messages. */
module Technical {
  import opened Common
  import opened Models
  import Risk

  /** One key observation of an analysis. */
  datatype Observation =
    // MACD
    | MacdBullishCrossover
    | MacdBearishCrossover
    | MacdHistogramIncreasing
    | MacdHistogramDecreasing
    // RSI
    | RsiOverbought(rsi: real)
    | RsiOversold(rsi: real)
    | RsiTrendingUp
    | RsiTrendingDown
    // EMA alignment
    | StrongBullishEmaTrend(ema20: real, ema50: real)
    | StrongBearishEmaTrend(ema20: real, ema50: real)
    | EmasDiverging(spreadPct: real)
    | PriceBetweenEmas
    | EmaBearishAlignmentMixed
    | EmaBullishAlignmentMixed
    | Ema20Support(ema20: real)
    | Ema20Resistance(ema20: real)
    // RSI divergence
    | BullishRsiDivergence(rsi7: real, rsi14: real)
    | ShortTermAccelerating
    | BearishRsiDivergence(rsi7: real, rsi14: real)
    | ShortTermDecelerating
    | Rsi7SlightlyAbove(rsi7: real, rsi14: real)
    | Rsi7SlightlyBelow(rsi7: real, rsi14: real)
    | RsiPeriodsAligned(diff: real)
    | BothRsiOversold
    | BothRsiOverbought
    | Rsi7EnteringOversold
    | Rsi7EnteringOverbought
    // Volatility
    | VolatilityRapidlyExpanding(atr3: real, atr14: real, pctAbove: real)
    | VolatilityExpanding(atr3: real, atr14: real)
    | VolatilityContracting(atr3: real, atr14: real)
    | VolatilitySlightlyContracting(atr3: real, atr14: real)
    | VolatilityStable(atr3: real, atr14: real)
    | AtrShareOfPrice(atr3Pct: real, atr14Pct: real)
    | HighVolatilityWarning
    | LowVolatilityFavourable
    // MACD momentum
    | BullishMomentumStrengthening
    | BearishMomentumWeakening
    | BearishMomentumStrengthening
    | BullishMomentumWeakening
    | MomentumChoppy
    | ConvergingTowardBearishCrossover
    | ConvergingTowardBullishCrossover
    | FreshBullishCrossover
    | FreshBearishCrossover
    | MomentumSurge(histogram: real)

  datatype Trend = Bullish | Bearish | Neutral

  // ==================== Three-reading trends ====================

  /** The values of the MACD histograms, in order. */
  function Histograms(hs: seq<MacdIndicator>): (r: seq<real>)
    ensures |r| == |hs| && forall i :: 0 <= i < |hs| ==> r[i] == hs[i].histogram
  {
    seq(|hs|, i requires 0 <= i < |hs| => hs[i].histogram)
  }

  /** Bonus for the three most recent readings (listed most recent first):
      +10 when each is strictly above the one before it in time, -10 when
      each is strictly below, else 0; nothing with fewer than three. */
  function TrendBonus(recentFirst: seq<real>): (b: int)
    ensures b == 10 <==> |recentFirst| >= 3 && recentFirst[0] > recentFirst[1] > recentFirst[2]
    ensures b == -10 <==> |recentFirst| >= 3 && recentFirst[0] < recentFirst[1] < recentFirst[2]
    ensures b == 0 || b == 10 || b == -10
  {
    if |recentFirst| < 3 then 0
    else if recentFirst[0] > recentFirst[1] > recentFirst[2] then 10
    else if recentFirst[0] < recentFirst[1] < recentFirst[2] then -10
    else 0
  }

  // ==================== MACD ====================

  datatype MacdAnalysis = MacdAnalysis(trend: Trend, signalStrength: int, keyObservations: seq<Observation>)

  /** Score of the current MACD reading: a crossover scores +/-70, otherwise
      the side of the MACD line scores +/-50, and equal lines score 0. */
  function MacdScore(current: MacdIndicator): (s: int)
    ensures current.IsBullishCrossover() ==> s == 70
    ensures current.IsBearishCrossover() ==> s == -70
    ensures !current.IsBullishCrossover() && !current.IsBearishCrossover() ==>
      s == (if current.macdLine > current.signalLine then 50
            else if current.macdLine < current.signalLine then -50 else 0)
  {
    if current.IsBullishCrossover() then 70
    else if current.IsBearishCrossover() then -70
    else if current.macdLine > current.signalLine then 50
    else if current.macdLine < current.signalLine then -50
    else 0
  }

  /** `analyze_macd`: `historical` is listed most recent first. */
  function AnalyzeMacd(current: MacdIndicator, historical: seq<MacdIndicator>): (a: MacdAnalysis)
    ensures a.trend == Bullish <==> current.macdLine > current.signalLine
    ensures a.trend == Bearish <==> current.macdLine < current.signalLine
    ensures a.signalStrength == MacdScore(current) + TrendBonus(Histograms(historical))
    ensures MacdBullishCrossover in a.keyObservations <==> current.IsBullishCrossover()
    ensures MacdBearishCrossover in a.keyObservations <==> current.IsBearishCrossover()
    ensures MacdHistogramIncreasing in a.keyObservations <==> TrendBonus(Histograms(historical)) == 10
    ensures MacdHistogramDecreasing in a.keyObservations <==> TrendBonus(Histograms(historical)) == -10
  {
    var trend := if current.macdLine > current.signalLine then Bullish
                 else if current.macdLine < current.signalLine then Bearish else Neutral;
    var first := if current.IsBullishCrossover() then [MacdBullishCrossover]
                 else if current.IsBearishCrossover() then [MacdBearishCrossover] else [];
    var bonus := TrendBonus(Histograms(historical));
    var second := if bonus == 10 then [MacdHistogramIncreasing]
                  else if bonus == -10 then [MacdHistogramDecreasing] else [];
    MacdAnalysis(trend, MacdScore(current) + bonus, first + second)
  }

  /** The MACD score lies in [-80, 80] and its sign follows the trend. */
  lemma MacdScoreFollowsTrend(current: MacdIndicator, historical: seq<MacdIndicator>)
    ensures var a := AnalyzeMacd(current, historical);
            && -80 <= a.signalStrength <= 80
            && (a.trend == Bullish ==> a.signalStrength >= 40)
            && (a.trend == Bearish ==> a.signalStrength <= -40)
            && (a.trend == Neutral ==> -10 <= a.signalStrength <= 10)
  {
  }

  // ==================== RSI ====================

  datatype RsiZone = OverboughtZone | OversoldZone | NeutralZone

  datatype RsiAnalysis = RsiAnalysis(zone: RsiZone, signalStrength: int, keyObservations: seq<Observation>)

  /** Zone score: -50 overbought, +50 oversold, 0 otherwise (including the
      bands between the extreme zones and the 40..60 neutral band). */
  function RsiScore(v: RsiValue): (s: int)
    ensures s == -50 <==> IsOverbought(v)
    ensures s == 50 <==> IsOversold(v)
    ensures s == 0 <==> 30.0 <= v <= 70.0
  {
    if IsOverbought(v) then -50 else if IsOversold(v) then 50 else 0
  }

  function RsiValues(rs: seq<RsiValue>): (r: seq<real>)
    ensures |r| == |rs| && forall i :: 0 <= i < |rs| ==> r[i] == rs[i]
  {
    seq(|rs|, i requires 0 <= i < |rs| => rs[i] as real)
  }

  /** `analyze_rsi`: `historical` is listed most recent first. */
  function AnalyzeRsi(current: RsiValue, historical: seq<RsiValue>): (a: RsiAnalysis)
    ensures a.zone == OverboughtZone <==> IsOverbought(current)
    ensures a.zone == OversoldZone <==> IsOversold(current)
    ensures a.signalStrength == RsiScore(current) + TrendBonus(RsiValues(historical))
    ensures RsiTrendingUp in a.keyObservations <==> TrendBonus(RsiValues(historical)) == 10
    ensures RsiTrendingDown in a.keyObservations <==> TrendBonus(RsiValues(historical)) == -10
  {
    var zone := if IsOverbought(current) then OverboughtZone
                else if IsOversold(current) then OversoldZone else NeutralZone;
    var first := if IsOverbought(current) then [RsiOverbought(current)]
                 else if IsOversold(current) then [RsiOversold(current)] else [];
    var bonus := TrendBonus(RsiValues(historical));
    var second := if bonus == 10 then [RsiTrendingUp] else if bonus == -10 then [RsiTrendingDown] else [];
    RsiAnalysis(zone, RsiScore(current) + bonus, first + second)
  }

  /** The RSI score lies in [-60, 60]; it is at least 40 exactly in the
      oversold zone and at most -40 exactly in the overbought zone. */
  lemma RsiScoreFollowsZone(current: RsiValue, historical: seq<RsiValue>)
    ensures var a := AnalyzeRsi(current, historical);
            && -60 <= a.signalStrength <= 60
            && (a.signalStrength >= 40 <==> a.zone == OversoldZone)
            && (a.signalStrength <= -40 <==> a.zone == OverboughtZone)
  {
  }

  // ==================== EMA alignment ====================

  datatype PricePosition = AboveBoth | BelowBoth | Between

  datatype EmaAnalysis = EmaAnalysis(trendDirection: Trend, emaAligned: bool, pricePosition: PricePosition,
                                     trendStrength: real, keyObservations: seq<Observation>)

  /** Spread of the two EMAs as a percentage of EMA50. */
  function EmaSpreadPct(ema20: real, ema50: real): real
    requires ema50 != 0.0
  {
    Abs(ema20 - ema50) / ema50 * 100.0
  }

  /** Distance of the price from EMA20 as a percentage of EMA20. */
  function PriceToEma20Pct(price: real, ema20: real): real
    requires ema20 != 0.0
  {
    Abs(price - ema20) / ema20 * 100.0
  }

  /** Strength of a directional EMA trend, capped at 100. */
  function DirectionalStrength(price: real, ema20: real, ema50: real): (s: real)
    requires ema20 != 0.0 && ema50 != 0.0
    ensures s <= 100.0
    ensures ema20 > 0.0 && ema50 > 0.0 ==> s >= 0.0
  {
    var spread := EmaSpreadPct(ema20, ema50);
    var distance := PriceToEma20Pct(price, ema20);
    PositivePct(Abs(ema20 - ema50), ema50);
    PositivePct(Abs(price - ema20), ema20);
    Min(spread * 10.0 + distance * 5.0, 100.0)
  }

  lemma PositivePct(part: real, whole: real)
    requires part >= 0.0 && whole != 0.0
    ensures whole > 0.0 ==> part / whole * 100.0 >= 0.0
  {
    if whole > 0.0 {
      var q := part / whole;
      assert q * whole == part;
    }
  }

  /** `analyze_ema_alignment`. The original divides by both EMAs, so it is
      only defined when both are non-zero (its one caller checks that). */
  function AnalyzeEmaAlignment(price: real, ema20: real, ema50: real): (a: EmaAnalysis)
    requires ema20 != 0.0 && ema50 != 0.0
    ensures a.emaAligned <==> ema20 > ema50
    ensures a.pricePosition == AboveBoth <==> price > ema20 && price > ema50
    ensures a.pricePosition == BelowBoth <==> price <= ema20 && price <= ema50
    ensures a.trendDirection == Bullish <==> ema20 > ema50 && a.pricePosition == AboveBoth
    ensures a.trendDirection == Bearish <==> ema20 <= ema50 && a.pricePosition == BelowBoth
    ensures a.trendDirection == Neutral ==> a.trendStrength == 30.0
    ensures a.trendDirection != Neutral ==> a.trendStrength == DirectionalStrength(price, ema20, ema50)
    ensures a.trendStrength <= 100.0
    ensures ema20 > 0.0 && ema50 > 0.0 ==> a.trendStrength >= 0.0
    ensures |a.keyObservations| >= 2
    ensures a.keyObservations[|a.keyObservations| - 1]
            == (if price > ema20 then Ema20Support(ema20) else Ema20Resistance(ema20))
  {
    var aligned := ema20 > ema50;
    var above20 := price > ema20;
    var above50 := price > ema50;
    var position := if above20 && above50 then AboveBoth
                    else if !above20 && !above50 then BelowBoth else Between;
    var spread := EmaSpreadPct(ema20, ema50);
    var diverging := if spread > 0.5 then [EmasDiverging(spread)] else [];
    var (direction, strength, observations) :=
      if aligned && above20 && above50 then
        (Bullish, DirectionalStrength(price, ema20, ema50), [StrongBullishEmaTrend(ema20, ema50)] + diverging)
      else if !aligned && !above20 && !above50 then
        (Bearish, DirectionalStrength(price, ema20, ema50), [StrongBearishEmaTrend(ema20, ema50)] + diverging)
      else
        (Neutral, 30.0, (if position == Between then [PriceBetweenEmas] else [])
                        + [if !aligned then EmaBearishAlignmentMixed else EmaBullishAlignmentMixed]);
    var level := if above20 then Ema20Support(ema20) else Ema20Resistance(ema20);
    EmaAnalysis(direction, aligned, position, strength, observations + [level])
  }

  // ==================== RSI divergence ====================

  datatype DivergenceType = BullishDivergence | BearishDivergence | SlightlyBullish | SlightlyBearish | NoDivergence

  datatype ShortTermMomentum = Stronger | Weaker | AlignedMomentum

  datatype DivergenceAnalysis = DivergenceAnalysis(divergenceType: DivergenceType, divergenceStrength: real,
                                                   shortTermMomentum: ShortTermMomentum,
                                                   keyObservations: seq<Observation>)

  /** Observation on where the two RSI periods sit relative to the extreme zones. */
  function RsiZoneObservations(rsi7: real, rsi14: real): seq<Observation>
  {
    if rsi7 < 30.0 && rsi14 < 30.0 then [BothRsiOversold]
    else if rsi7 > 70.0 && rsi14 > 70.0 then [BothRsiOverbought]
    else if rsi7 < 30.0 < rsi14 then [Rsi7EnteringOversold]
    else if rsi7 > 70.0 > rsi14 then [Rsi7EnteringOverbought]
    else []
  }

  /** `analyze_rsi_divergence`: the gap d = rsi7 - rsi14 is significant above
      10, moderate above 5 and aligned otherwise; its sign picks the side. */
  function AnalyzeRsiDivergence(rsi7: real, rsi14: real): (a: DivergenceAnalysis)
    ensures Abs(rsi7 - rsi14) > 10.0 ==>
      && a.divergenceStrength == Min(Abs(rsi7 - rsi14) * 5.0, 100.0)
      && a.divergenceType == (if rsi7 > rsi14 then BullishDivergence else BearishDivergence)
    ensures 5.0 < Abs(rsi7 - rsi14) <= 10.0 ==>
      && a.divergenceStrength == Abs(rsi7 - rsi14) * 5.0
      && a.divergenceType == (if rsi7 > rsi14 then SlightlyBullish else SlightlyBearish)
    ensures Abs(rsi7 - rsi14) <= 5.0 ==>
      a.divergenceType == NoDivergence && a.divergenceStrength == 0.0 && a.shortTermMomentum == AlignedMomentum
    ensures a.shortTermMomentum == Stronger <==> Abs(rsi7 - rsi14) > 5.0 && rsi7 > rsi14
    ensures a.shortTermMomentum == Weaker <==> Abs(rsi7 - rsi14) > 5.0 && rsi7 < rsi14
    ensures 0.0 <= a.divergenceStrength <= 100.0
    ensures a.divergenceType != NoDivergence ==> a.divergenceStrength > 25.0
  {
    var diff := rsi7 - rsi14;
    var zone := RsiZoneObservations(rsi7, rsi14);
    if Abs(diff) > 10.0 then
      var strength := Min(Abs(diff) * 5.0, 100.0);
      if diff > 0.0 then
        DivergenceAnalysis(BullishDivergence, strength, Stronger,
                           [BullishRsiDivergence(rsi7, rsi14), ShortTermAccelerating] + zone)
      else
        DivergenceAnalysis(BearishDivergence, strength, Weaker,
                           [BearishRsiDivergence(rsi7, rsi14), ShortTermDecelerating] + zone)
    else if Abs(diff) > 5.0 then
      if diff > 0.0 then
        DivergenceAnalysis(SlightlyBullish, Abs(diff) * 5.0, Stronger, [Rsi7SlightlyAbove(rsi7, rsi14)] + zone)
      else
        DivergenceAnalysis(SlightlyBearish, Abs(diff) * 5.0, Weaker, [Rsi7SlightlyBelow(rsi7, rsi14)] + zone)
    else
      DivergenceAnalysis(NoDivergence, 0.0, AlignedMomentum, [RsiPeriodsAligned(diff)] + zone)
  }

  /** Swapping the two periods mirrors the divergence. */
  lemma DivergenceMirrors(rsi7: real, rsi14: real)
    ensures var a := AnalyzeRsiDivergence(rsi7, rsi14);
            var b := AnalyzeRsiDivergence(rsi14, rsi7);
            && a.divergenceStrength == b.divergenceStrength
            && (a.divergenceType == BullishDivergence <==> b.divergenceType == BearishDivergence)
            && (a.divergenceType == SlightlyBullish <==> b.divergenceType == SlightlyBearish)
            && (a.shortTermMomentum == Stronger <==> b.shortTermMomentum == Weaker)
  {
  }

  // ==================== Volatility context ====================

  datatype RiskLevel = HighRisk | ElevatedRisk | LowRisk | LowMediumRisk | MediumRisk

  /** The risk level named for each ratio band. */
  function RiskLevelOf(v: Risk.VolatilityState): RiskLevel
  {
    match v
    case RapidlyExpanding => HighRisk
    case Expanding => ElevatedRisk
    case Contracting => LowRisk
    case SlightlyContracting => LowMediumRisk
    case _ => MediumRisk
  }

  /** A suggested stop `multiple` ATRs away from the price. */
  datatype StopSuggestion = StopSuggestion(atrMultiple: real, distance: real, stopPriceLong: real,
                                           stopPriceShort: real, riskPct: real)

  datatype StopSuggestions = StopSuggestions(conservative: StopSuggestion, moderate: StopSuggestion,
                                             aggressive: StopSuggestion)

  function Suggestion(multiple: real, atr: real, price: real): (s: StopSuggestion)
    ensures s.atrMultiple == multiple && s.distance == atr * multiple
    ensures s.stopPriceLong == price - s.distance && s.stopPriceShort == price + s.distance
    ensures price > 0.0 ==> s.riskPct * price == s.distance * 100.0
    ensures price <= 0.0 ==> s.riskPct == 0.0
  {
    var distance := atr * multiple;
    Risk.PctOfFacts(distance, price);
    StopSuggestion(multiple, distance, price - distance, price + distance, Risk.PctOf(distance, price))
  }

  datatype VolatilityAnalysis = VolatilityAnalysis(volatilityState: Risk.VolatilityState, atrRatio: real,
                                                   riskLevel: RiskLevel,
                                                   suggestedStops: Option<StopSuggestions>,
                                                   keyObservations: seq<Observation>)

  function VolatilityObservation(v: Risk.VolatilityState, atr3: real, atr14: real, ratio: real): Observation
  {
    match v
    case RapidlyExpanding => VolatilityRapidlyExpanding(atr3, atr14, (ratio - 1.0) * 100.0)
    case Expanding => VolatilityExpanding(atr3, atr14)
    case Contracting => VolatilityContracting(atr3, atr14)
    case SlightlyContracting => VolatilitySlightlyContracting(atr3, atr14)
    case _ => VolatilityStable(atr3, atr14)
  }

  /** `analyze_volatility_context`: with ATR14 = 0 the defaults (stable,
      medium risk, no stops); otherwise the ratio ATR3/ATR14 picks the band
      and the stops sit 2.5 and 2.0 ATR14 and 1.5 ATR3 from the price. */
  function AnalyzeVolatilityContext(atr3: real, atr14: real, price: real): (a: VolatilityAnalysis)
    ensures atr14 == 0.0 ==> a == VolatilityAnalysis(Risk.Stable, 0.0, MediumRisk, None, [])
    ensures atr14 != 0.0 ==>
      && a.atrRatio * atr14 == atr3
      && a.volatilityState == Risk.VolatilityStateOf(a.atrRatio)
      && a.riskLevel == RiskLevelOf(a.volatilityState)
      && a.suggestedStops == Some(StopSuggestions(Suggestion(2.5, atr14, price), Suggestion(2.0, atr14, price),
                                                  Suggestion(1.5, atr3, price)))
    ensures HighVolatilityWarning in a.keyObservations <==> a.riskLevel == HighRisk
    ensures LowVolatilityFavourable in a.keyObservations <==> a.riskLevel == LowRisk
  {
    if atr14 == 0.0 then VolatilityAnalysis(Risk.Stable, 0.0, MediumRisk, None, [])
    else
      var ratio := atr3 / atr14;
      var state := Risk.VolatilityStateOf(ratio);
      var level := RiskLevelOf(state);
      var implication := if level == HighRisk then [HighVolatilityWarning]
                         else if level == LowRisk then [LowVolatilityFavourable] else [];
      VolatilityAnalysis(state, ratio, level,
                         Some(StopSuggestions(Suggestion(2.5, atr14, price), Suggestion(2.0, atr14, price),
                                              Suggestion(1.5, atr3, price))),
                         [VolatilityObservation(state, atr3, atr14, ratio),
                          AtrShareOfPrice(Risk.PctOf(atr3, price), Risk.PctOf(atr14, price))] + implication)
  }

  /** With positive ATRs every suggested long stop is below the price and
      every short stop above it, and the conservative stop is the widest of
      the two ATR14 stops. */
  lemma SuggestedStopsBracketPrice(atr3: real, atr14: real, price: real)
    requires atr3 > 0.0 && atr14 > 0.0
    ensures var stops := AnalyzeVolatilityContext(atr3, atr14, price).suggestedStops.value;
            && stops.conservative.stopPriceLong < stops.moderate.stopPriceLong < price
            && price < stops.moderate.stopPriceShort < stops.conservative.stopPriceShort
            && stops.aggressive.stopPriceLong < price < stops.aggressive.stopPriceShort
  {
  }

  // ==================== MACD momentum ====================

  datatype HistogramTrend = Increasing | Decreasing | Flat

  datatype MomentumDirection = Strengthening | Weakening | SteadyMomentum

  datatype SignalQuality = Strong | Moderate | Weak

  datatype MomentumAnalysis = MomentumAnalysis(momentumDirection: MomentumDirection, histogramTrend: HistogramTrend,
                                               crossoverPotential: bool, signalQuality: SignalQuality,
                                               keyObservations: seq<Observation>)

  /** Number of steps i with xs[i] > xs[i+1] (a newer bar above the older one). */
  function IncreasingBars(xs: seq<real>): nat
    decreases |xs|
  {
    if |xs| < 2 then 0 else (if xs[0] > xs[1] then 1 else 0) + IncreasingBars(xs[1..])
  }

  /** Number of steps i with xs[i] < xs[i+1]. */
  function DecreasingBars(xs: seq<real>): nat
    decreases |xs|
  {
    if |xs| < 2 then 0 else (if xs[0] < xs[1] then 1 else 0) + DecreasingBars(xs[1..])
  }

  /** A step is counted at most once, so the two counts share the |xs| - 1 steps. */
  lemma {:induction false} BarsShareSteps(xs: seq<real>)
    requires xs != []
    ensures IncreasingBars(xs) + DecreasingBars(xs) <= |xs| - 1
    decreases |xs|
  {
    if |xs| >= 2 {
      BarsShareSteps(xs[1..]);
    }
  }

  /** The histogram now and at most the four most recent historical readings. */
  function HistogramWindow(current: MacdIndicator, historical: seq<MacdIndicator>): (w: seq<real>)
    ensures 1 <= |w| <= 5 && w[0] == current.histogram
  {
    [current.histogram] + Histograms(historical[..MinInt(4, |historical|)])
  }

  /** Five readings have four steps, so the window is never both increasing and decreasing. */
  lemma WindowNotBothWays(current: MacdIndicator, historical: seq<MacdIndicator>)
    ensures var w := HistogramWindow(current, historical);
            !(IncreasingBars(w) >= 3 && DecreasingBars(w) >= 3)
  {
    BarsShareSteps(HistogramWindow(current, historical));
  }

  /** `analyze_macd_momentum`: `historical` is listed most recent first. */
  function AnalyzeMacdMomentum(current: MacdIndicator, historical: seq<MacdIndicator>): (a: MomentumAnalysis)
    ensures |historical| < 3 ==> a == MomentumAnalysis(SteadyMomentum, Flat, false, Moderate, [])
    ensures a.histogramTrend == Increasing <==>
      |historical| >= 3 && IncreasingBars(HistogramWindow(current, historical)) >= 3
    ensures a.histogramTrend == Decreasing <==>
      |historical| >= 3 && DecreasingBars(HistogramWindow(current, historical)) >= 3
    ensures a.momentumDirection == Strengthening <==> a.histogramTrend == Increasing
    ensures a.momentumDirection == Weakening <==> a.histogramTrend == Decreasing
    ensures a.crossoverPotential <==>
      |historical| >= 3
      && Abs(current.macdLine - current.signalLine)
         < Abs(historical[0].macdLine - historical[0].signalLine) * 0.3
    ensures |historical| >= 3 ==>
      (a.signalQuality == Strong <==>
        || current.IsBullishCrossover() || current.IsBearishCrossover()
        || (a.histogramTrend == Increasing && current.histogram > 0.0)
        || (a.histogramTrend == Decreasing && current.histogram < 0.0))
    ensures |historical| >= 3 ==>
      (a.signalQuality == Weak <==>
        a.histogramTrend == Flat && !current.IsBullishCrossover() && !current.IsBearishCrossover())
  {
    if |historical| < 3 then MomentumAnalysis(SteadyMomentum, Flat, false, Moderate, [])
    else
      var window := HistogramWindow(current, historical);
      WindowNotBothWays(current, historical);
      var increasing := IncreasingBars(window);
      var decreasing := DecreasingBars(window);
      var (histogramTrend, direction, quality, trendNote) :=
        if increasing >= 3 then
          if current.histogram > 0.0 then (Increasing, Strengthening, Strong, BullishMomentumStrengthening)
          else (Increasing, Strengthening, Moderate, BearishMomentumWeakening)
        else if decreasing >= 3 then
          if current.histogram < 0.0 then (Decreasing, Weakening, Strong, BearishMomentumStrengthening)
          else (Decreasing, Weakening, Moderate, BullishMomentumWeakening)
        else (Flat, SteadyMomentum, Weak, MomentumChoppy);
      var macdDiff := current.macdLine - current.signalLine;
      var prevDiff := historical[0].macdLine - historical[0].signalLine;
      var converging := Abs(macdDiff) < Abs(prevDiff) * 0.3;
      var convergingNote := if !converging then []
                            else if macdDiff > 0.0 then [ConvergingTowardBearishCrossover]
                            else [ConvergingTowardBullishCrossover];
      var (finalQuality, crossNote) :=
        if current.IsBullishCrossover() then (Strong, [FreshBullishCrossover])
        else if current.IsBearishCrossover() then (Strong, [FreshBearishCrossover])
        else (quality, []);
      var surge := if Abs(current.histogram) > Abs(historical[0].histogram) * 1.5
                   then [MomentumSurge(current.histogram)] else [];
      MomentumAnalysis(direction, histogramTrend, converging, finalQuality,
                       [trendNote] + convergingNote + crossNote + surge)
  }

  // ==================== Synthesis ====================

  /** One stored indicator reading; a reading may lack MACD or RSI. */
  datatype IndicatorPoint = IndicatorPoint(macd: Option<MacdIndicator>, rsi: Option<RsiValue>)

  /** The current reading: MACD and RSI are required, the rest optional. */
  datatype CurrentIndicators = CurrentIndicators(
    ohlcv: map<string, real>,
    macd: MacdIndicator,
    rsi: RsiValue,
    ema20: Option<real>,
    ema50: Option<real>,
    rsi7: Option<real>,
    rsi14: Option<real>,
    atr3: Option<real>,
    atr14: Option<real>)

  /** The MACD readings of the history, in order, skipping points without one. */
  function MacdHistory(points: seq<IndicatorPoint>): (hs: seq<MacdIndicator>)
    ensures |hs| <= |points|
    ensures forall m :: m in hs <==> exists i :: 0 <= i < |points| && points[i].macd == Some(m)
    decreases |points|
  {
    if points == [] then []
    else (if points[0].macd.Some? then [points[0].macd.value] else []) + MacdHistory(points[1..])
  }

  /** The RSI readings of the history, in order, skipping points without one. */
  function RsiHistory(points: seq<IndicatorPoint>): (rs: seq<RsiValue>)
    ensures |rs| <= |points|
    ensures forall v :: v in rs <==> exists i :: 0 <= i < |points| && points[i].rsi == Some(v)
    decreases |points|
  {
    if points == [] then []
    else (if points[0].rsi.Some? then [points[0].rsi.value] else []) + RsiHistory(points[1..])
  }

  /** The price field, falling back to the close and then to 0. */
  function PriceOf(ohlcv: map<string, real>): real
  {
    if "price" in ohlcv then ohlcv["price"] else if "close" in ohlcv then ohlcv["close"] else 0.0
  }

  datatype MarketTrend = Uptrend | Downtrend | Sideways

  /** `_determine_trend`: the same +/-40 thresholds as the action. */
  function DetermineTrend(signalStrength: real): (t: MarketTrend)
    ensures t == Uptrend <==> signalStrength > 40.0
    ensures t == Downtrend <==> signalStrength < -40.0
  {
    if signalStrength > 40.0 then Uptrend else if signalStrength < -40.0 then Downtrend else Sideways
  }

  /** The EMA term of the weighted sum: the trend strength, negated for a
      bearish trend; 0 when the EMAs were not available. */
  function EmaSignal(ema: Option<EmaAnalysis>): real
  {
    match ema
    case None => 0.0
    case Some(e) => if e.trendDirection == Bearish then -e.trendStrength else e.trendStrength
  }

  /** The weighted strength scaled for volatility: x 0.8 in high volatility,
      x 1.1 in low, unchanged otherwise or without a volatility analysis. */
  function VolatilityAdjusted(strength: real, volatility: Option<VolatilityAnalysis>): (r: real)
    ensures volatility.None? ==> r == strength
    ensures volatility.Some? && volatility.value.riskLevel == HighRisk ==> r == strength * 0.8
    ensures volatility.Some? && volatility.value.riskLevel == LowRisk ==> r == strength * 1.1
    ensures volatility.Some? && volatility.value.riskLevel != HighRisk && volatility.value.riskLevel != LowRisk
            ==> r == strength
  {
    match volatility
    case None => strength
    case Some(v) => if v.riskLevel == HighRisk then strength * 0.8
                    else if v.riskLevel == LowRisk then strength * 1.1 else strength
  }

  /** Confidence: |strength| / 100, capped at 1. */
  function ConfidenceOf(strength: real): (c: real)
    ensures 0.0 <= c <= 1.0
    ensures Abs(strength) <= 100.0 ==> c * 100.0 == Abs(strength)
    ensures Abs(strength) >= 100.0 ==> c == 1.0
  {
    Min(Abs(strength) / 100.0, 1.0)
  }

  /** MACD 35%, RSI 25%, EMA 20%, chart indicators 10% (always 0 here). */
  function WeightedStrength(macd: int, rsi: int, ema: real): real
  {
    macd as real * 0.35 + rsi as real * 0.25 + ema * 0.20 + 0.0 * 0.10
  }

  /** One clause of the summary line. */
  datatype SummaryPart = MacdShows(trend: Trend) | RsiIn(zone: RsiZone) | EmaShows(direction: Trend)

  /** `_generate_technical_summary`, as its clauses; no clause is the
      "mixed signals" line. */
  function TechnicalSummary(macd: MacdAnalysis, rsi: RsiAnalysis, ema: Option<EmaAnalysis>): (parts: seq<SummaryPart>)
    ensures parts == [] <==>
      macd.trend == Neutral && rsi.zone == NeutralZone && (ema.None? || ema.value.trendDirection == Neutral)
    ensures |parts| <= 3
  {
    (if macd.trend != Neutral then [MacdShows(macd.trend)] else [])
    + (if rsi.zone != NeutralZone then [RsiIn(rsi.zone)] else [])
    + (if ema.Some? && ema.value.trendDirection != Neutral then [EmaShows(ema.value.trendDirection)] else [])
  }

  datatype Synthesis = Synthesis(
    action: OperationType,
    direction: Side,
    signalStrength: real,
    confidence: real,
    macd: MacdAnalysis,
    rsi: RsiAnalysis,
    ema: Option<EmaAnalysis>,
    momentum: Option<MomentumAnalysis>,
    divergence: Option<DivergenceAnalysis>,
    volatility: Option<VolatilityAnalysis>,
    summary: seq<SummaryPart>,
    keyFactors: seq<Observation>,
    trend: MarketTrend)

  /** Every observation of a synthesis, in the order they are collected. */
  function AllObservations(macd: MacdAnalysis, rsi: RsiAnalysis, ema: Option<EmaAnalysis>,
                           momentum: Option<MomentumAnalysis>, divergence: Option<DivergenceAnalysis>,
                           volatility: Option<VolatilityAnalysis>): seq<Observation>
  {
    macd.keyObservations + rsi.keyObservations
    + (if ema.Some? then ema.value.keyObservations else [])
    + (if momentum.Some? then momentum.value.keyObservations else [])
    + (if divergence.Some? then divergence.value.keyObservations else [])
    + (if volatility.Some? then volatility.value.keyObservations else [])
  }

  /** The decision step of `synthesize_technical_signals` over the finished
      analyses: the weighted strength, scaled for volatility, decides the
      action at +/-40 and gives the confidence; at most 15 key factors. */
  function Decide(macd: MacdAnalysis, rsi: RsiAnalysis, ema: Option<EmaAnalysis>, momentum: Option<MomentumAnalysis>,
                  divergence: Option<DivergenceAnalysis>, volatility: Option<VolatilityAnalysis>): (r: Synthesis)
    ensures r.macd == macd && r.rsi == rsi && r.ema == ema && r.momentum == momentum
    ensures r.divergence == divergence && r.volatility == volatility
    ensures r.signalStrength
            == VolatilityAdjusted(WeightedStrength(macd.signalStrength, rsi.signalStrength, EmaSignal(ema)), volatility)
    ensures r.action == Open <==> r.signalStrength > 40.0 || r.signalStrength < -40.0
    ensures r.action != Open ==> r.action == Hold
    ensures r.direction == Short <==> r.signalStrength < -40.0
    ensures r.confidence == ConfidenceOf(r.signalStrength)
    ensures r.trend == DetermineTrend(r.signalStrength)
    ensures r.summary == TechnicalSummary(macd, rsi, ema)
    ensures |r.keyFactors| <= 15
    ensures var all := AllObservations(macd, rsi, ema, momentum, divergence, volatility);
            r.keyFactors == all[..MinInt(15, |all|)]
  {
    var strength := VolatilityAdjusted(WeightedStrength(macd.signalStrength, rsi.signalStrength, EmaSignal(ema)),
                                       volatility);
    var action := if strength > 40.0 || strength < -40.0 then Open else Hold;
    var direction := if strength < -40.0 then Short else Long;
    var all := AllObservations(macd, rsi, ema, momentum, divergence, volatility);
    Synthesis(action, direction, strength, ConfidenceOf(strength), macd, rsi, ema, momentum, divergence, volatility,
              TechnicalSummary(macd, rsi, ema), all[..MinInt(15, |all|)], DetermineTrend(strength))
  }

  /** `synthesize_technical_signals`: MACD and RSI are always analysed; the
      secondary analyses run only when their inputs are present and
      non-zero (momentum when there is any MACD history). */
  function SynthesizeTechnicalSignals(current: CurrentIndicators, history: seq<IndicatorPoint>): (r: Synthesis)
    ensures r.macd == AnalyzeMacd(current.macd, MacdHistory(history))
    ensures r.rsi == AnalyzeRsi(current.rsi, RsiHistory(history))
    ensures r.ema.Some? <==> Truthy(current.ema20) && Truthy(current.ema50)
    ensures r.ema.Some? ==>
      r.ema.value == AnalyzeEmaAlignment(PriceOf(current.ohlcv), current.ema20.value, current.ema50.value)
    ensures r.momentum.Some? <==> MacdHistory(history) != []
    ensures r.divergence.Some? <==> Truthy(current.rsi7) && Truthy(current.rsi14)
    ensures r.volatility.Some? <==> Truthy(current.atr3) && Truthy(current.atr14)
    ensures r == Decide(r.macd, r.rsi, r.ema, r.momentum, r.divergence, r.volatility)
  {
    var macdHistory := MacdHistory(history);
    var price := PriceOf(current.ohlcv);
    var momentum := if macdHistory != [] then Some(AnalyzeMacdMomentum(current.macd, macdHistory)) else None;
    var ema := if Truthy(current.ema20) && Truthy(current.ema50)
               then Some(AnalyzeEmaAlignment(price, current.ema20.value, current.ema50.value)) else None;
    var divergence := if Truthy(current.rsi7) && Truthy(current.rsi14)
                      then Some(AnalyzeRsiDivergence(current.rsi7.value, current.rsi14.value)) else None;
    var volatility := if Truthy(current.atr3) && Truthy(current.atr14)
                      then Some(AnalyzeVolatilityContext(current.atr3.value, current.atr14.value, price)) else None;
    Decide(AnalyzeMacd(current.macd, macdHistory), AnalyzeRsi(current.rsi, RsiHistory(history)),
           ema, momentum, divergence, volatility)
  }

  /** The action opens exactly when the trend is not sideways, short exactly
      on a downtrend. */
  lemma ActionMatchesTrend(current: CurrentIndicators, history: seq<IndicatorPoint>)
    ensures var r := SynthesizeTechnicalSignals(current, history);
            && (r.action == Open <==> r.trend != Sideways)
            && (r.action == Open && r.direction == Short <==> r.trend == Downtrend)
            && (r.action == Open && r.direction == Long <==> r.trend == Uptrend)
  {
  }

  /** A neutral EMA reading adds +30 to the EMA term before weighting. */
  lemma NeutralEmaAddsThirty(current: CurrentIndicators, history: seq<IndicatorPoint>)
    requires Truthy(current.ema20) && Truthy(current.ema50)
    requires var r := SynthesizeTechnicalSignals(current, history); r.ema.value.trendDirection == Neutral
    ensures EmaSignal(SynthesizeTechnicalSignals(current, history).ema) == 30.0
  {
  }

  /** Scores within their ranges bound the decided strength by +/-69.3 (63
      before the low-volatility boost), so the confidence stays at most 0.693. */
  lemma DecideStrengthBounded(macd: MacdAnalysis, rsi: RsiAnalysis, ema: Option<EmaAnalysis>,
                              momentum: Option<MomentumAnalysis>, divergence: Option<DivergenceAnalysis>,
                              volatility: Option<VolatilityAnalysis>)
    requires -80 <= macd.signalStrength <= 80 && -60 <= rsi.signalStrength <= 60
    requires ema.Some? ==> 0.0 <= ema.value.trendStrength <= 100.0
    ensures var r := Decide(macd, rsi, ema, momentum, divergence, volatility);
            -69.3 <= r.signalStrength <= 69.3 && r.confidence <= 0.693
  {
    var w := WeightedStrength(macd.signalStrength, rsi.signalStrength, EmaSignal(ema));
    assert -63.0 <= w <= 63.0;
  }

  /** With positive EMAs the synthesised strength stays within +/-69.3 and
      the confidence at most 0.693: no reading reaches full confidence. */
  lemma SignalStrengthBounded(current: CurrentIndicators, history: seq<IndicatorPoint>)
    requires Truthy(current.ema20) && Truthy(current.ema50) ==> current.ema20.value > 0.0 && current.ema50.value > 0.0
    ensures var r := SynthesizeTechnicalSignals(current, history);
            -69.3 <= r.signalStrength <= 69.3 && r.confidence <= 0.693
  {
    var r := SynthesizeTechnicalSignals(current, history);
    MacdScoreFollowsTrend(current.macd, MacdHistory(history));
    RsiScoreFollowsZone(current.rsi, RsiHistory(history));
    DecideStrengthBounded(r.macd, r.rsi, r.ema, r.momentum, r.divergence, r.volatility);
  }

  /** Without EMAs and without a volatility adjustment, a long entry needs a
      bullish MACD crossover with a rising histogram and an oversold RSI:
      no other pair of scores passes 40. */
  lemma LongEntryWithoutEmaNeedsAgreement(current: CurrentIndicators, history: seq<IndicatorPoint>)
    requires !(Truthy(current.ema20) && Truthy(current.ema50))
    requires !(Truthy(current.atr3) && Truthy(current.atr14))
    requires SynthesizeTechnicalSignals(current, history).signalStrength > 40.0
    ensures var r := SynthesizeTechnicalSignals(current, history);
            && r.macd.signalStrength == 80
            && current.macd.IsBullishCrossover()
            && TrendBonus(Histograms(MacdHistory(history))) == 10
            && r.rsi.zone == OversoldZone
  {
    var r := SynthesizeTechnicalSignals(current, history);
    MacdScoreFollowsTrend(current.macd, MacdHistory(history));
    RsiScoreFollowsZone(current.rsi, RsiHistory(history));
    var m := r.macd.signalStrength;
    var s := r.rsi.signalStrength;
    assert r.signalStrength == m as real * 0.35 + s as real * 0.25;
  }
}
