/** The portfolio manager: the session-level view over the position ledger.
    It reports a snapshot of capital, P&L and risk, decides whether a new
    position may be opened, and drives price updates and invalidation checks
    across every held symbol. */
module Portfolio {
  import opened Common
  import opened Models
  import opened Performance
  import opened Positions
  import Ledger
  import Risk

  // ==================== Portfolio totals ====================

  /** Capital plus the notional of every open position (`total_capital`). */
  function TotalCapital(s: Ledger.LedgerState): real
    requires Ledger.Valid(s)
  {
    s.currentCapital + TotalNotional(Ledger.OpenPositions(s))
  }

  /** Unrealised P&L of the open positions plus realised P&L of the closed ones (`total_pnl`). */
  function TotalPnl(s: Ledger.LedgerState): real
    requires Ledger.Valid(s)
  {
    TotalUnrealizedPnl(Ledger.OpenPositions(s)) + Ledger.TotalRealizedPnl(s)
  }

  // ==================== Portfolio summary ====================

  datatype PortfolioSnapshot = PortfolioSnapshot(
    sessionId: string,
    timestamp: Timestamp,
    totalCapital: real,
    availableCapital: real,
    usedCapital: real,
    openPositionsCount: nat,
    totalPositionValue: real,
    unrealizedPnl: real,
    realizedPnl: real,
    totalPnl: real,
    totalReturnPct: real,
    portfolioHeat: real,
    exposurePct: real,
    totalTrades: nat,
    winningTrades: nat,
    losingTrades: nat,
    winRate: real,
    avgWin: real,
    avgLoss: real,
    profitFactor: real)

  /** `get_portfolio_summary` over a ledger and the statistics of the
      analytics object, stamped with `now`. */
  function Summary(cfg: SessionConfig, s: Ledger.LedgerState, stats: Statistics, now: Timestamp)
    : (snap: PortfolioSnapshot)
    requires Ledger.Valid(s)
    ensures snap.sessionId == cfg.sessionId && snap.timestamp == now
    ensures snap.availableCapital == s.currentCapital
    ensures snap.usedCapital == snap.totalPositionValue == TotalNotional(Ledger.OpenPositions(s))
    ensures snap.totalCapital == snap.availableCapital + snap.usedCapital == TotalCapital(s)
    ensures snap.openPositionsCount == |s.positions|
    ensures snap.unrealizedPnl == TotalUnrealizedPnl(Ledger.OpenPositions(s))
    ensures snap.realizedPnl == SumRealizedPnl(s.closed)
    ensures snap.totalPnl == snap.unrealizedPnl + snap.realizedPnl == TotalPnl(s)
    ensures snap.totalReturnPct == Risk.PctOf(snap.totalPnl, cfg.initialCapital)
    ensures snap.exposurePct == Risk.PctOf(snap.usedCapital, snap.totalCapital)
    ensures snap.portfolioHeat == Risk.CalculatePortfolioHeat(s.currentCapital, Ledger.OpenPositions(s))
    ensures snap.totalTrades == stats.totalTrades && snap.winningTrades == stats.winningTrades
    ensures snap.losingTrades == stats.losingTrades && snap.winRate == stats.winRate
    ensures snap.avgWin == stats.avgWin && snap.avgLoss == stats.avgLoss
    ensures snap.profitFactor == stats.profitFactor
  {
    var positions := Ledger.OpenPositions(s);
    var totalPositionValue := TotalNotional(positions);
    var totalCapital := s.currentCapital + totalPositionValue;
    var unrealized := TotalUnrealizedPnl(positions);
    var realized := Ledger.TotalRealizedPnl(s);
    var totalPnl := unrealized + realized;
    Ledger.OpenPositionsCount(s);
    PortfolioSnapshot(cfg.sessionId, now, totalCapital, s.currentCapital, totalPositionValue, |positions|,
                      totalPositionValue, unrealized, realized, totalPnl, Risk.PctOf(totalPnl, cfg.initialCapital),
                      Risk.CalculatePortfolioHeat(s.currentCapital, positions),
                      Risk.PctOf(totalPositionValue, totalCapital),
                      stats.totalTrades, stats.winningTrades, stats.losingTrades, stats.winRate, stats.avgWin,
                      stats.avgLoss, stats.profitFactor)
  }

  /** The summary's ratios: the return is total P&L against the initial
      capital, the exposure is used capital against total capital, and the
      heat is the open positions' risk against total capital; each is 0 when
      its base is not positive (the heat when its base is 0). */
  lemma SummaryRatios(cfg: SessionConfig, s: Ledger.LedgerState, stats: Statistics, now: Timestamp)
    requires Ledger.Valid(s)
    ensures var snap := Summary(cfg, s, stats, now);
      && (cfg.initialCapital > 0.0 ==> snap.totalReturnPct * cfg.initialCapital == snap.totalPnl * 100.0)
      && (cfg.initialCapital <= 0.0 ==> snap.totalReturnPct == 0.0)
      && (snap.totalCapital > 0.0 ==> snap.exposurePct * snap.totalCapital == snap.usedCapital * 100.0)
      && (snap.totalCapital <= 0.0 ==> snap.exposurePct == 0.0)
      && (snap.totalCapital != 0.0 ==> snap.portfolioHeat * snap.totalCapital == TotalRiskUsd(Ledger.OpenPositions(s)))
      && (snap.totalCapital == 0.0 ==> snap.portfolioHeat == 0.0)
  {
    var snap := Summary(cfg, s, stats, now);
    Risk.PctOfFacts(snap.totalPnl, cfg.initialCapital);
    Risk.PctOfFacts(snap.usedCapital, snap.totalCapital);
  }

  /** Closing a position that is marked at the exit price moves its
      unrealised P&L into realised P&L: total P&L is unchanged. */
  lemma CloseAtMarkKeepsTotalPnl(s: Ledger.LedgerState, symbol: string, price: real, reason: string,
                                 signalId: Option<string>, now: Timestamp)
    requires Ledger.Valid(s) && symbol in s.positions
    requires s.positions[symbol].unrealizedPnl
             == PnlAt(s.positions[symbol].side, s.positions[symbol].entryPrice, price, s.positions[symbol].quantity)
    ensures var t := Ledger.ClosePosition(s, symbol, price, reason, signalId, now).0;
            Ledger.Valid(t) && TotalPnl(t) == TotalPnl(s)
  {
    var _ := Ledger.CloseDropsOpen(s, symbol, price, reason, signalId, now);
    Ledger.CloseUnrealized(s, symbol, price, reason, signalId, now);
    Ledger.CloseRealizes(s, symbol, price, reason, signalId, now);
  }

  /** Closing trades the position's notional in total capital for its margin plus the realised P&L. */
  lemma CloseTotalCapital(s: Ledger.LedgerState, symbol: string, price: real, reason: string,
                          signalId: Option<string>, now: Timestamp)
    requires Ledger.Valid(s) && symbol in s.positions
    ensures var (t, c) := Ledger.ClosePosition(s, symbol, price, reason, signalId, now);
            && Ledger.Valid(t)
            && TotalCapital(t) == TotalCapital(s) - s.positions[symbol].notionalValue
                                  + s.positions[symbol].Margin() + c.value.realizedPnl
  {
    var _ := Ledger.CloseDropsOpen(s, symbol, price, reason, signalId, now);
    Ledger.CloseNotional(s, symbol, price, reason, signalId, now);
  }

  /** Opening a symbol that is not held changes no P&L. */
  lemma OpenNewSymbolTotals(sessionId: string, s: Ledger.LedgerState, o: Ledger.OpenOrder, positionId: string,
                            now: Timestamp)
    requires Ledger.Valid(s) && o.symbol !in s.positions
    requires Ledger.OpenPosition(sessionId, s, o, positionId, now).Ok?
    ensures var t := Ledger.OpenPosition(sessionId, s, o, positionId, now).value;
            Ledger.Valid(t) && TotalPnl(t) == TotalPnl(s)
  {
    Ledger.OpenNewUnrealized(sessionId, s, o, positionId, now);
  }

  /** Opening a symbol that is not held raises total capital by the new
      notional less the margin debited for it. */
  lemma OpenNewSymbolCapital(sessionId: string, s: Ledger.LedgerState, o: Ledger.OpenOrder, positionId: string,
                             now: Timestamp)
    requires Ledger.Valid(s) && o.symbol !in s.positions
    requires Ledger.OpenPosition(sessionId, s, o, positionId, now).Ok?
    ensures var t := Ledger.OpenPosition(sessionId, s, o, positionId, now).value;
            var p := t.positions[o.symbol];
            Ledger.Valid(t) && TotalCapital(t) == TotalCapital(s) + p.notionalValue - p.Margin()
  {
    Ledger.OpenNewNotional(sessionId, s, o, positionId, now);
  }


  // ==================== Admission of a new position ====================

  /** The verdict of `can_open_new_position`; every value but Allowed is a
      refusal, and ExposureUndefined stands for the division by zero the
      exposure check raises when capital plus exposure is 0. */
  datatype Admission =
    | Allowed
    | MaxPositionsReached(limit: int)
    | SizeExceedsLimit(maxPositionSize: real)
    | InsufficientCapital
    | ExposureExceedsLimit(limitPct: real)
    | ExposureUndefined
    | AlreadyHeld(symbol: string)

  /** The exposure ratio after adding `sizeUsd`: (exposure + size) / (capital + exposure). */
  function NewExposureRatio(currentCapital: real, exposure: real, sizeUsd: real): real
    requires currentCapital + exposure != 0.0
  {
    (exposure + sizeUsd) / (currentCapital + exposure)
  }

  /** `can_open_new_position`: the checks run in order (count, size limit,
      capital, total exposure, pyramiding) and the first that fails decides. */
  function CanOpenNewPosition(cfg: SessionConfig, s: Ledger.LedgerState, symbol: string, sizeUsd: real)
    : (r: Admission)
    requires Ledger.Valid(s)
    ensures r.MaxPositionsReached? <==> |s.positions| >= cfg.maxConcurrentPositions
    ensures r.MaxPositionsReached? ==> r.limit == cfg.maxConcurrentPositions
    ensures r.SizeExceedsLimit? <==>
      |s.positions| < cfg.maxConcurrentPositions && sizeUsd > s.currentCapital * cfg.maxPositionSizePct
    ensures r.SizeExceedsLimit? ==> r.maxPositionSize == s.currentCapital * cfg.maxPositionSizePct
    ensures r.InsufficientCapital? <==>
      && |s.positions| < cfg.maxConcurrentPositions
      && sizeUsd <= s.currentCapital * cfg.maxPositionSizePct
      && sizeUsd > s.currentCapital
    ensures r.ExposureUndefined? <==>
      && |s.positions| < cfg.maxConcurrentPositions
      && sizeUsd <= s.currentCapital * cfg.maxPositionSizePct
      && sizeUsd <= s.currentCapital
      && s.currentCapital + TotalNotional(Ledger.OpenPositions(s)) == 0.0
    ensures r.ExposureExceedsLimit? ==> r.limitPct == cfg.maxTotalExposurePct * 100.0
    ensures r.AlreadyHeld? ==> r.symbol == symbol && symbol in s.positions && !cfg.allowPyramiding
    ensures r == Allowed <==>
      && |s.positions| < cfg.maxConcurrentPositions
      && sizeUsd <= s.currentCapital * cfg.maxPositionSizePct
      && sizeUsd <= s.currentCapital
      && s.currentCapital + TotalNotional(Ledger.OpenPositions(s)) != 0.0
      && NewExposureRatio(s.currentCapital, TotalNotional(Ledger.OpenPositions(s)), sizeUsd)
         <= cfg.maxTotalExposurePct
      && (symbol in s.positions ==> cfg.allowPyramiding)
  {
    var open := Ledger.OpenPositions(s);
    Ledger.OpenPositionsCount(s);
    if |open| >= cfg.maxConcurrentPositions then MaxPositionsReached(cfg.maxConcurrentPositions)
    else
      var maxPositionSize := s.currentCapital * cfg.maxPositionSizePct;
      if sizeUsd > maxPositionSize then SizeExceedsLimit(maxPositionSize)
      else if sizeUsd > s.currentCapital then InsufficientCapital
      else
        var totalExposure := Risk.GetTotalExposure(open);
        if s.currentCapital + totalExposure == 0.0 then ExposureUndefined
        else if NewExposureRatio(s.currentCapital, totalExposure, sizeUsd) > cfg.maxTotalExposurePct
        then ExposureExceedsLimit(cfg.maxTotalExposurePct * 100.0)
        else if symbol in s.positions && !cfg.allowPyramiding then AlreadyHeld(symbol)
        else Allowed
  }

  /** With pyramiding allowed the verdict does not depend on the symbol;
      without it a held symbol is refused exactly where an unheld one would
      have been allowed. */
  lemma PyramidingDecidesHeldSymbols(cfg: SessionConfig, s: Ledger.LedgerState, held: string, other: string,
                                     sizeUsd: real)
    requires Ledger.Valid(s) && held in s.positions && other !in s.positions
    ensures cfg.allowPyramiding ==>
      CanOpenNewPosition(cfg, s, held, sizeUsd) == CanOpenNewPosition(cfg, s, other, sizeUsd)
    ensures !cfg.allowPyramiding && CanOpenNewPosition(cfg, s, other, sizeUsd) == Allowed ==>
      CanOpenNewPosition(cfg, s, held, sizeUsd) == AlreadyHeld(held)
    ensures CanOpenNewPosition(cfg, s, other, sizeUsd) != Allowed ==>
      CanOpenNewPosition(cfg, s, held, sizeUsd) == CanOpenNewPosition(cfg, s, other, sizeUsd)
  {
  }

  /** A position that is allowed stays allowed at any smaller non-negative
      size, provided capital plus exposure is positive. */
  lemma SmallerSizeStaysAllowed(cfg: SessionConfig, s: Ledger.LedgerState, symbol: string, sizeUsd: real,
                                smaller: real)
    requires Ledger.Valid(s) && 0.0 <= smaller <= sizeUsd
    requires s.currentCapital + TotalNotional(Ledger.OpenPositions(s)) > 0.0
    requires CanOpenNewPosition(cfg, s, symbol, sizeUsd) == Allowed
    ensures CanOpenNewPosition(cfg, s, symbol, smaller) == Allowed
  {
    var e := TotalNotional(Ledger.OpenPositions(s));
    var d := s.currentCapital + e;
    MeanBounds(NewExposureRatio(s.currentCapital, e, sizeUsd), e + smaller, d);
    RatioFacts(e + sizeUsd, d);
  }

  /** A size above the per-position limit is never allowed. */
  lemma OversizeNeverAllowed(cfg: SessionConfig, s: Ledger.LedgerState, symbol: string, sizeUsd: real)
    requires Ledger.Valid(s) && sizeUsd > s.currentCapital * cfg.maxPositionSizePct
    ensures CanOpenNewPosition(cfg, s, symbol, sizeUsd).MaxPositionsReached?
            || CanOpenNewPosition(cfg, s, symbol, sizeUsd).SizeExceedsLimit?
  {
  }

  // ==================== Invalidation sweep ====================

  /** One pass of `check_all_invalidations`: a symbol with market data is
      checked against its candles; a symbol without data is skipped. */
  function InvalidationStep(s: Ledger.LedgerState, symbol: string, marketData: map<string, seq<Candle>>,
                            now: Timestamp): Ledger.LedgerState
  {
    if symbol in marketData then Ledger.CheckInvalidationConditions(s, symbol, marketData[symbol], now).0 else s
  }

  /** The passes over `syms`, in order. */
  function InvalidationFold(s: Ledger.LedgerState, syms: seq<string>, marketData: map<string, seq<Candle>>,
                            now: Timestamp): Ledger.LedgerState
    decreases |syms|
  {
    if syms == [] then s
    else InvalidationStep(InvalidationFold(s, syms[..|syms| - 1], marketData, now), syms[|syms| - 1], marketData, now)
  }

  /** `check_all_invalidations`: one pass per symbol held at the start. */
  function InvalidationSweep(s: Ledger.LedgerState, marketData: map<string, seq<Candle>>, now: Timestamp)
    : (r: Ledger.LedgerState)
    ensures InvalidationOnly(s, r)
  {
    InvalidationFoldCloses(s, s.symbols, marketData, now);
    InvalidationFold(s, s.symbols, marketData, now)
  }

  /** `t` keeps a subset of the positions of `s`, unchanged, keeps the
      closed records of `s` as a prefix and adds only invalidation closes. */
  predicate InvalidationOnly(s: Ledger.LedgerState, t: Ledger.LedgerState)
  {
    && (forall k :: k in t.positions ==> k in s.positions && t.positions[k] == s.positions[k])
    && |s.closed| <= |t.closed|
    && t.closed[..|s.closed|] == s.closed
    && (forall j :: |s.closed| <= j < |t.closed| ==> t.closed[j].exitReason == "invalidation_triggered")
  }

  /** One pass keeps the ledger valid and keeps capital plus margin minus realised P&L. */
  lemma InvalidationStepAccounting(s: Ledger.LedgerState, symbol: string, marketData: map<string, seq<Candle>>,
                                   now: Timestamp)
    requires Ledger.Valid(s)
    ensures var t := InvalidationStep(s, symbol, marketData, now);
            && Ledger.Valid(t)
            && Ledger.Equity(t) - Ledger.TotalRealizedPnl(t) == Ledger.Equity(s) - Ledger.TotalRealizedPnl(s)
  {
    if symbol in marketData && symbol in s.positions
       && IsTriggered(s.positions[symbol].invalidation, marketData[symbol]) {
      var candles := marketData[symbol];
      Ledger.ClosePositionAccounting(s, symbol, candles[|candles| - 1].close, "invalidation_triggered", None, now);
    }
  }

  /** One pass removes at most the symbol it checks, and only when that
      symbol has market data, logging the removal as an invalidation close. */
  lemma InvalidationStepFrame(s: Ledger.LedgerState, symbol: string, marketData: map<string, seq<Candle>>,
                              now: Timestamp)
    ensures var t := InvalidationStep(s, symbol, marketData, now);
            && InvalidationOnly(s, t)
            && (forall k :: k in s.positions && k != symbol ==> k in t.positions)
            && (symbol !in marketData ==> t == s)
  {
    var t := InvalidationStep(s, symbol, marketData, now);
    if symbol in marketData && symbol in s.positions
       && IsTriggered(s.positions[symbol].invalidation, marketData[symbol]) {
      assert t.closed[..|s.closed|] == s.closed;
    }
  }

  /** Passes compose: the second pass's removals and closes extend the first's. */
  lemma InvalidationOnlyTransitive(s: Ledger.LedgerState, u: Ledger.LedgerState, t: Ledger.LedgerState)
    requires InvalidationOnly(s, u) && InvalidationOnly(u, t)
    ensures InvalidationOnly(s, t)
  {
    assert t.closed[..|s.closed|] == t.closed[..|u.closed|][..|s.closed|];
  }

  lemma {:induction false} InvalidationFoldAccounting(s: Ledger.LedgerState, syms: seq<string>,
                                                      marketData: map<string, seq<Candle>>, now: Timestamp)
    requires Ledger.Valid(s)
    ensures var t := InvalidationFold(s, syms, marketData, now);
            && Ledger.Valid(t)
            && Ledger.Equity(t) - Ledger.TotalRealizedPnl(t) == Ledger.Equity(s) - Ledger.TotalRealizedPnl(s)
            && InvalidationOnly(s, t)
            && (forall k :: k in s.positions && (k !in syms || k !in marketData) ==> k in t.positions)
    decreases |syms|
  {
    if syms != [] {
      var init := syms[..|syms| - 1];
      var last := syms[|syms| - 1];
      var u := InvalidationFold(s, init, marketData, now);
      var t := InvalidationStep(u, last, marketData, now);
      InvalidationFoldAccounting(s, init, marketData, now);
      InvalidationStepAccounting(u, last, marketData, now);
      InvalidationStepFrame(u, last, marketData, now);
      InvalidationOnlyTransitive(s, u, t);
      forall k | k in s.positions && (k !in syms || k !in marketData)
        ensures k in t.positions
      {
        assert k !in init || k !in marketData;
        assert k in u.positions;
      }
    }
  }

  /** The sweep keeps the ledger valid and the difference of equity and
      realised P&L; it only removes positions, never edits one, and logs
      each removal as an invalidation close; a symbol without market data
      survives it. */
  lemma InvalidationSweepAccounting(s: Ledger.LedgerState, marketData: map<string, seq<Candle>>,
                                        now: Timestamp)
    requires Ledger.Valid(s)
    ensures var t := InvalidationSweep(s, marketData, now);
            && Ledger.Valid(t)
            && Ledger.Equity(t) - Ledger.TotalRealizedPnl(t) == Ledger.Equity(s) - Ledger.TotalRealizedPnl(s)
            && InvalidationOnly(s, t)
            && (forall k :: k in s.positions && k !in marketData ==> k in t.positions)
  {
    InvalidationFoldAccounting(s, s.symbols, marketData, now);
  }

  /** The invalidation rule of the position held under `k` fires on the
      market data for `k`. */
  predicate Fires(s: Ledger.LedgerState, k: string, marketData: map<string, seq<Candle>>)
  {
    k in s.positions && k in marketData && IsTriggered(s.positions[k].invalidation, marketData[k])
  }

  /** One pass closes its symbol exactly when its rule fires, and keeps every other position. */
  lemma InvalidationStepCloses(s: Ledger.LedgerState, symbol: string, marketData: map<string, seq<Candle>>,
                               now: Timestamp)
    ensures var t := InvalidationStep(s, symbol, marketData, now);
            forall k :: k in s.positions ==> (k in t.positions <==> !(k == symbol && Fires(s, k, marketData)))
  {
  }

  /** The passes over `syms` close exactly the listed symbols whose rule
      fires on the state before the passes. No pass edits a position, so the
      rule a pass sees is the one held at the start. */
  lemma {:induction false} InvalidationFoldCloses(s: Ledger.LedgerState, syms: seq<string>,
                                                  marketData: map<string, seq<Candle>>, now: Timestamp)
    ensures var t := InvalidationFold(s, syms, marketData, now);
            && InvalidationOnly(s, t)
            && forall k :: k in s.positions ==> (k in t.positions <==> !(k in syms && Fires(s, k, marketData)))
    decreases |syms|
  {
    if syms != [] {
      var init := syms[..|syms| - 1];
      var last := syms[|syms| - 1];
      var u := InvalidationFold(s, init, marketData, now);
      var t := InvalidationStep(u, last, marketData, now);
      InvalidationFoldCloses(s, init, marketData, now);
      InvalidationStepFrame(u, last, marketData, now);
      InvalidationStepCloses(u, last, marketData, now);
      InvalidationOnlyTransitive(s, u, t);
      forall k | k in s.positions
        ensures k in t.positions <==> !(k in syms && Fires(s, k, marketData))
      {
        assert k in syms <==> k in init || k == last;
        if k in u.positions {
          assert Fires(u, k, marketData) <==> Fires(s, k, marketData);
        }
      }
    }
  }

  /** The sweep closes exactly the held positions whose invalidation rule
      fires on their market data, and leaves every other one as it was. */
  lemma InvalidationSweepCloses(s: Ledger.LedgerState, marketData: map<string, seq<Candle>>, now: Timestamp)
    requires Ledger.Valid(s)
    ensures var t := InvalidationSweep(s, marketData, now);
            && (forall k :: k in s.positions ==> (k in t.positions <==> !Fires(s, k, marketData)))
            && (forall k :: k in t.positions ==> k in s.positions && t.positions[k] == s.positions[k])
  {
    InvalidationFoldCloses(s, s.symbols, marketData, now);
  }

  /** With no market data the sweep changes nothing. */
  lemma {:induction false} NoMarketDataNoChange(s: Ledger.LedgerState, syms: seq<string>, now: Timestamp)
    ensures InvalidationFold(s, syms, map[], now) == s
    decreases |syms|
  {
    if syms != [] {
      NoMarketDataNoChange(s, syms[..|syms| - 1], now);
    }
  }

  // ==================== The portfolio object ====================

  /** `PortfolioManager`: owns the session's position manager and analytics
      object; the risk checks it delegates to are functions of module Risk. */
  class PortfolioManager {
    const config: SessionConfig
    const positionManager: PositionManager
    const performanceAnalytics: PerformanceAnalytics

    predicate Valid()
      reads this, positionManager
    {
      positionManager.Valid() && positionManager.config == config && performanceAnalytics.config == config
    }

    constructor(cfg: SessionConfig, capital: real)
      ensures Valid() && config == cfg
      ensures fresh(positionManager) && fresh(performanceAnalytics)
      ensures positionManager.State() == Ledger.Empty(capital)
      ensures performanceAnalytics.closedPositions == []
    {
      config := cfg;
      positionManager := new PositionManager(cfg, capital);
      performanceAnalytics := new PerformanceAnalytics(cfg);
    }

    /** `get_portfolio_summary`. */
    function GetPortfolioSummary(now: Timestamp): (snap: PortfolioSnapshot)
      reads this, positionManager, performanceAnalytics
      requires Valid()
      ensures snap == Summary(config, positionManager.State(), performanceAnalytics.CalculateStatistics(), now)
    {
      Summary(config, positionManager.State(), performanceAnalytics.CalculateStatistics(), now)
    }

    /** `can_open_new_position`. */
    function CanOpen(symbol: string, sizeUsd: real): (r: Admission)
      reads this, positionManager
      requires Valid()
      ensures r == CanOpenNewPosition(config, positionManager.State(), symbol, sizeUsd)
    {
      CanOpenNewPosition(config, positionManager.State(), symbol, sizeUsd)
    }

    /** `get_margin_status`: margin of the open positions against current capital. */
    function GetMarginStatus(): (m: Risk.MarginStatus)
      reads this, positionManager
      requires Valid()
      ensures m == Risk.CheckMarginRequirements(Ledger.OpenPositions(positionManager.State()),
                                                positionManager.currentCapital)
    {
      Risk.CheckMarginRequirements(positionManager.GetOpenPositions(), positionManager.currentCapital)
    }

    /** `update_all_positions`. */
    method UpdateAllPositions(prices: map<string, real>, now: Timestamp)
      requires Valid()
      modifies positionManager
      ensures Valid()
      ensures positionManager.State() == Ledger.UpdatePositions(old(positionManager.State()), prices, now)
    {
      positionManager.UpdatePositions(prices, now);
    }

    /** `check_all_invalidations`: over a snapshot of the held symbols, check
        each one that has market data. */
    method CheckAllInvalidations(marketData: map<string, seq<Candle>>, now: Timestamp)
      requires Valid()
      modifies positionManager
      ensures Valid()
      ensures positionManager.State() == InvalidationSweep(old(positionManager.State()), marketData, now)
    {
      var snapshot := positionManager.symbols;
      var i := 0;
      while i < |snapshot|
        invariant 0 <= i <= |snapshot|
        invariant Valid()
        invariant positionManager.State() == InvalidationFold(old(positionManager.State()), snapshot[..i], marketData, now)
      {
        var symbol := snapshot[i];
        if symbol in marketData {
          var _ := positionManager.CheckInvalidationConditions(symbol, marketData[symbol], now);
        }
        assert snapshot[..i + 1][..i] == snapshot[..i];
        i := i + 1;
      }
      assert snapshot[..i] == snapshot;
    }
  }
}
