/** The position manager of a trading session: the object that owns the open
    positions, the closed-position list, the trade log and the session's
    current capital, and changes them in place. Each method is proved to
    leave the ledger exactly where the matching transition of module Ledger
    puts it, so the invariant and accounting lemmas there apply to it. */
module Positions {
  import opened Common
  import opened Models
  import opened Ledger

  class PositionManager {
    const config: SessionConfig
    var currentCapital: real
    var positions: map<string, Position>
    /** The held symbols in the order they were first opened (the dictionary's order). */
    var symbols: seq<string>
    var closedPositions: seq<ClosedPosition>
    var tradeHistory: seq<TradeRecord>

    /** The manager's fields as a ledger value. */
    function State(): LedgerState
      reads this
    {
      LedgerState(currentCapital, positions, symbols, closedPositions, tradeHistory)
    }

    predicate Valid()
      reads this
    {
      Ledger.Valid(State())
    }

    /** A manager over a session whose current capital is `capital`, holding nothing. */
    constructor(cfg: SessionConfig, capital: real)
      ensures config == cfg && State() == Empty(capital) && Valid()
    {
      config := cfg;
      currentCapital := capital;
      positions := map[];
      symbols := [];
      closedPositions := [];
      tradeHistory := [];
    }

    /** `get_open_positions`. */
    function GetOpenPositions(): (ps: seq<Position>)
      reads this
      requires Valid()
      ensures |ps| == |positions|
      ensures forall p :: p in ps ==> p.symbol in positions && positions[p.symbol] == p
      ensures forall k :: k in positions ==> positions[k] in ps
    {
      OpenPositionsCount(State());
      OpenPositions(State())
    }

    /** `get_position`. */
    function GetPosition(symbol: string): (r: Option<Position>)
      reads this
      ensures r.Some? <==> symbol in positions
      ensures r.Some? ==> r.value == positions[symbol]
    {
      if symbol in positions then Some(positions[symbol]) else None
    }

    /** `get_total_realized_pnl`: the P&L of every closed position. */
    function GetTotalRealizedPnl(): (r: real)
      reads this
      ensures r == SumRealizedPnl(closedPositions)
    {
      TotalRealizedPnl(State())
    }

    /** `open_position`. */
    method OpenPosition(o: OpenOrder, positionId: string, now: Timestamp) returns (r: Result<Position, LedgerError>)
      requires Valid()
      modifies this
      ensures Valid()
      ensures r.Err? ==> State() == old(State())
      ensures r.Err? ==> Ledger.OpenPosition(config.sessionId, old(State()), o, positionId, now) == Err(r.error)
      ensures r.Ok? ==> Ledger.OpenPosition(config.sessionId, old(State()), o, positionId, now) == Ok(State())
      ensures r.Ok? ==> o.symbol in positions && r.value == positions[o.symbol]
    {
      var created := NewPosition(config.sessionId, o, positionId, now);
      if created.Err? {
        return Err(created.error);
      }
      var position := created.value;
      ghost var expected := Ledger.OpenPosition(config.sessionId, State(), o, positionId, now).value;
      if o.symbol in positions {
        ReplaceKeepsValid(State(), expected, o.symbol, position);
      } else {
        AppendKeepsValid(State(), expected, o.symbol, position);
      }
      positions := positions[o.symbol := position];
      if o.symbol !in symbols {
        symbols := symbols + [o.symbol];
      }
      var marginRequired := position.Margin();
      currentCapital := currentCapital - marginRequired;
      tradeHistory := tradeHistory + [RecordTrade(OpenTrade, position, None, None, None, now)];
      assert State() == expected;
      r := Ok(position);
    }

    /** `close_position`. */
    method ClosePosition(symbol: string, exitPrice: real, exitReason: string, signalId: Option<string>,
                         now: Timestamp) returns (r: Option<ClosedPosition>)
      requires Valid()
      modifies this
      ensures Valid()
      ensures (State(), r) == Ledger.ClosePosition(old(State()), symbol, exitPrice, exitReason, signalId, now)
    {
      if symbol !in positions {
        return None;
      }
      ghost var expected := Ledger.ClosePosition(State(), symbol, exitPrice, exitReason, signalId, now);
      RemoveKeepsValid(State(), expected.0, symbol);
      var position := positions[symbol];
      var closed := ClosedRecord(position, symbol, exitPrice, exitReason, signalId, now);
      currentCapital := currentCapital + position.Margin() + closed.realizedPnl;
      positions := positions - {symbol};
      symbols := RemoveSymbol(symbols, symbol);
      closedPositions := closedPositions + [closed];
      tradeHistory := tradeHistory + [RecordTrade(CloseTrade, position, Some(exitPrice), Some(closed.realizedPnl), None, now)];
      assert State() == expected.0;
      r := Some(closed);
    }

    /** `add_to_position`. */
    method AddToPosition(symbol: string, additionalQuantity: real, entryPrice: real, now: Timestamp)
      returns (r: Result<Position, LedgerError>)
      requires Valid()
      modifies this
      ensures Valid()
      ensures r.Err? ==> State() == old(State())
      ensures r.Err? ==> Ledger.AddToPosition(config, old(State()), symbol, additionalQuantity, entryPrice, now) == Err(r.error)
      ensures r.Ok? ==> Ledger.AddToPosition(config, old(State()), symbol, additionalQuantity, entryPrice, now) == Ok(State())
      ensures r.Ok? ==> symbol in positions && r.value == positions[symbol]
    {
      if !config.allowPyramiding {
        return Err(PyramidingDisabled);
      }
      if symbol !in positions {
        return Err(NoPosition(symbol));
      }
      var position := positions[symbol];
      var newQuantity := position.quantity + additionalQuantity;
      if newQuantity == 0.0 {
        return Err(ZeroQuantity);
      }
      ghost var before := State();
      ghost var expected := Ledger.AddToPosition(config, before, symbol, additionalQuantity, entryPrice, now).value;
      ReplaceKeepsValid(before, expected, symbol, expected.positions[symbol]);
      var additionalMargin := MarginFor(additionalQuantity, entryPrice, position.leverage);
      position := Averaged(position, additionalQuantity, entryPrice, now);
      positions := positions[symbol := position];
      currentCapital := currentCapital - additionalMargin;
      tradeHistory := tradeHistory + [RecordTrade(AddTrade, position, Some(entryPrice), Some(additionalQuantity), None, now)];
      assert State() == expected;
      r := Ok(position);
    }

    /** `reduce_position`. */
    method ReducePosition(symbol: string, reduceQuantity: real, exitPrice: real, reason: string, now: Timestamp)
      returns (r: Result<(Option<Position>, real), LedgerError>)
      requires Valid()
      modifies this
      ensures Valid()
      ensures r.Err? ==> State() == old(State())
      ensures r.Err? ==> Ledger.ReducePosition(old(State()), symbol, reduceQuantity, exitPrice, reason, now) == Err(r.error)
      ensures r.Ok? ==> Ledger.ReducePosition(old(State()), symbol, reduceQuantity, exitPrice, reason, now)
                        == Ok((State(), r.value.0, r.value.1))
    {
      if symbol !in positions {
        return Err(NoPosition(symbol));
      }
      var position := positions[symbol];
      ghost var before := State();
      if reduceQuantity >= position.quantity {
        var closed := ClosePosition(symbol, exitPrice, reason, None, now);
        assert closed.Some?;
        return Ok((None, closed.value.realizedPnl));
      }
      var partialPnl := PnlAt(position.side, position.entryPrice, exitPrice, reduceQuantity);
      var marginReturned := MarginFor(reduceQuantity, position.entryPrice, position.leverage);
      position := Reduced(position, reduceQuantity, now);
      positions := positions[symbol := position];
      currentCapital := currentCapital + marginReturned + partialPnl;
      tradeHistory := tradeHistory + [RecordTrade(ReduceTrade, position, Some(exitPrice), Some(reduceQuantity),
                                                  Some(partialPnl), now)];
      ghost var expected := Ledger.ReducePosition(before, symbol, reduceQuantity, exitPrice, reason, now).value.0;
      assert expected.positions == positions;
      assert expected.currentCapital == currentCapital;
      assert expected.trades == tradeHistory;
      assert expected == State();
      ReplaceKeepsValid(before, expected, symbol, position);
      r := Ok((Some(position), partialPnl));
    }

    /** `update_positions`: over a snapshot of the held symbols, re-mark each
        one that has a price and close it if its stop or target is hit. */
    method UpdatePositions(prices: map<string, real>, now: Timestamp)
      requires Valid()
      modifies this
      ensures Valid()
      ensures State() == Ledger.UpdatePositions(old(State()), prices, now)
    {
      var snapshot := symbols;
      var i := 0;
      while i < |snapshot|
        invariant 0 <= i <= |snapshot|
        invariant Valid()
        invariant State() == UpdateFold(old(State()), snapshot[..i], prices, now)
      {
        var symbol := snapshot[i];
        UpdateFoldNext(old(State()), i, prices, now);
        UpdateOne(symbol, prices, now);
        i := i + 1;
      }
      assert snapshot[..i] == snapshot;
    }

    /** One pass of the loop in `update_positions` for a held symbol: re-mark
        it when it has a price, then check its stop and target. */
    method UpdateOne(symbol: string, prices: map<string, real>, now: Timestamp)
      requires Valid() && symbol in positions
      modifies this
      ensures Valid()
      ensures State() == UpdateStep(old(State()), symbol, prices, now)
      ensures forall k :: k in old(positions) && k != symbol ==> k in positions
    {
      UpdateStepAccounting(State(), symbol, prices, now);
      UpdateStepFrame(State(), symbol, prices, now);
      if symbol in prices {
        var currentPrice := prices[symbol];
        MarkPositionAccounting(State(), symbol, currentPrice);
        positions := positions[symbol := CalculateUnrealizedPnl(positions[symbol], currentPrice)];
        CheckStopLossTakeProfit(symbol, currentPrice, now);
      }
    }

    /** `check_invalidation_conditions`. */
    method CheckInvalidationConditions(symbol: string, candles: seq<Candle>, now: Timestamp) returns (triggered: bool)
      requires Valid()
      modifies this
      ensures Valid()
      ensures (State(), triggered) == Ledger.CheckInvalidationConditions(old(State()), symbol, candles, now)
    {
      if symbol !in positions {
        return false;
      }
      var position := positions[symbol];
      if IsTriggered(position.invalidation, candles) {
        var currentPrice := candles[|candles| - 1].close;
        var _ := ClosePosition(symbol, currentPrice, "invalidation_triggered", None, now);
        return true;
      }
      return false;
    }

    /** `_check_stop_loss_take_profit`: close at `currentPrice` when the stop
        is hit, else when the target is hit. */
    method CheckStopLossTakeProfit(symbol: string, currentPrice: real, now: Timestamp)
      requires Valid() && symbol in positions
      modifies this
      ensures Valid()
      ensures ExitReason(old(positions[symbol]), currentPrice).None? ==> State() == old(State())
      ensures ExitReason(old(positions[symbol]), currentPrice).Some? ==>
        State() == Ledger.ClosePosition(old(State()), symbol, currentPrice,
                                        ExitReason(old(positions[symbol]), currentPrice).value, None, now).0
    {
      var position := positions[symbol];
      if position.side == Long {
        if currentPrice <= position.stopLossPrice {
          var _ := ClosePosition(position.symbol, currentPrice, "stop_loss", None, now);
          return;
        }
      } else {
        if currentPrice >= position.stopLossPrice {
          var _ := ClosePosition(position.symbol, currentPrice, "stop_loss", None, now);
          return;
        }
      }
      if position.side == Long && currentPrice >= position.profitTarget {
        var _ := ClosePosition(position.symbol, currentPrice, "take_profit", None, now);
      } else if position.side == Short && currentPrice <= position.profitTarget {
        var _ := ClosePosition(position.symbol, currentPrice, "take_profit", None, now);
      }
    }
  }
}
