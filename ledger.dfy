/** The position ledger of a trading session as a value: the capital that is
    not tied up as margin, the open positions keyed by symbol (with the order
    in which the symbols were first opened), the closed positions and the trade
    log. Each operation of the position manager is a function from one ledger
    to the next; the lemmas state the invariants and the capital accounting
    those operations keep. */
module Ledger {
  import opened Common
  import opened Models

  // ==================== Records ====================

  datatype TradeAction = OpenTrade | AddTrade | ReduceTrade | CloseTrade

  /** One entry of the trade log. `extra` is the free extra slot of the
      original record: the added or reduced quantity, or for a close the
      realised P&L. */
  datatype TradeRecord = TradeRecord(positionId: string, timestamp: Timestamp, action: TradeAction,
                                     symbol: string, side: Side, quantity: real, price: real,
                                     extra: Option<real>, pnl: Option<real>)

  /** A request to open a position, as passed to `open_position`. */
  datatype OpenOrder = OpenOrder(symbol: string, side: Side, quantity: real, entryPrice: real,
                                 profitTarget: real, stopLoss: real, invalidation: InvalidationCondition,
                                 leverage: int, confidence: real, riskUsd: real,
                                 signalId: Option<string>, reasoning: Option<string>)

  datatype LedgerError =
    | InvalidPosition        // the new Position fails its field bounds
    | PyramidingDisabled
    | NoPosition(symbol: string)
    | ZeroQuantity           // the averaged entry would divide by a zero quantity

  datatype LedgerState = LedgerState(currentCapital: real, positions: map<string, Position>,
                                     symbols: seq<string>, closed: seq<ClosedPosition>,
                                     trades: seq<TradeRecord>)

  /** A ledger with no history. */
  function Empty(capital: real): (s: LedgerState)
    ensures Valid(s) && s.currentCapital == capital && Equity(s) == capital
  {
    LedgerState(capital, map[], [], [], [])
  }

  // ==================== Invariant and accounting ====================

  /** Every symbol is listed once, listed exactly when it has a position, the
      position is filed under its own symbol, and its notional is its
      quantity at its entry price. */
  predicate Valid(s: LedgerState)
  {
    && NoDuplicates(s.symbols)
    && Listed(s.positions, s.symbols)
    && Keyed(s.positions, s.symbols)
    && WellFiled(s.positions)
  }

  /** Notional is quantity times entry price. */
  predicate Consistent(p: Position)
  {
    p.notionalValue == p.quantity * p.entryPrice
  }

  predicate WellFiled(m: map<string, Position>)
  {
    forall k :: k in m ==> m[k].symbol == k && Consistent(m[k])
  }

  predicate Listed(m: map<string, Position>, syms: seq<string>)
  {
    forall k :: k in m ==> k in syms
  }

  predicate Keyed(m: map<string, Position>, syms: seq<string>)
  {
    forall i :: 0 <= i < |syms| ==> syms[i] in m
  }

  /** The positions of `syms`, in that order. */
  function PositionsAt(m: map<string, Position>, syms: seq<string>): (ps: seq<Position>)
    requires Keyed(m, syms)
    ensures |ps| == |syms| && forall i :: 0 <= i < |syms| ==> ps[i] == m[syms[i]]
  {
    seq(|syms|, i requires 0 <= i < |syms| => m[syms[i]])
  }

  /** `get_open_positions`: the open positions in the order their symbols were first opened. */
  function OpenPositions(s: LedgerState): seq<Position>
    requires Valid(s)
  {
    PositionsAt(s.positions, s.symbols)
  }

  /** There is one open position per held symbol. */
  lemma OpenPositionsCount(s: LedgerState)
    requires Valid(s)
    ensures |OpenPositions(s)| == |s.positions|
  {
    HeldCount(s);
  }

  /** Each held symbol is listed once. */
  lemma HeldCount(s: LedgerState)
    requires Valid(s)
    ensures |s.positions| == |s.symbols|
  {
    NoDuplicatesCard(s.symbols);
    assert s.positions.Keys == set k | k in s.symbols;
  }

  /** Capital plus the margin held by open positions. */
  function Equity(s: LedgerState): real
    requires Valid(s)
  {
    s.currentCapital + TotalMargin(OpenPositions(s))
  }

  /** `get_total_realized_pnl`: realised P&L over the closed positions. */
  function TotalRealizedPnl(s: LedgerState): real
  {
    SumRealizedPnl(s.closed)
  }

  /** Index of a listed symbol. */
  function IndexOf(xs: seq<string>, x: string): (i: int)
    requires x in xs
    ensures 0 <= i < |xs| && xs[i] == x && x !in xs[..i]
  {
    if xs[0] == x then 0 else 1 + IndexOf(xs[1..], x)
  }

  /** The list without `x` (which it holds once). */
  function RemoveSymbol(xs: seq<string>, x: string): seq<string>
  {
    if x in xs then xs[..IndexOf(xs, x)] + xs[IndexOf(xs, x) + 1..] else xs
  }

  lemma PositionsAtUpdate(m: map<string, Position>, syms: seq<string>, i: int, p: Position)
    requires Keyed(m, syms) && NoDuplicates(syms) && 0 <= i < |syms|
    ensures Keyed(m[syms[i] := p], syms)
    ensures PositionsAt(m[syms[i] := p], syms) == PositionsAt(m, syms)[i := p]
  {
  }

  lemma PositionsAtAppend(m: map<string, Position>, syms: seq<string>, k: string, p: Position)
    requires Keyed(m, syms) && k !in syms
    ensures Keyed(m[k := p], syms + [k])
    ensures PositionsAt(m[k := p], syms + [k]) == PositionsAt(m, syms) + [p]
  {
  }

  lemma PositionsAtRemove(m: map<string, Position>, syms: seq<string>, i: int)
    requires Keyed(m, syms) && NoDuplicates(syms) && 0 <= i < |syms|
    ensures Keyed(m - {syms[i]}, syms[..i] + syms[i + 1..])
    ensures PositionsAt(m - {syms[i]}, syms[..i] + syms[i + 1..])
            == PositionsAt(m, syms)[..i] + PositionsAt(m, syms)[i + 1..]
  {
    var rest := syms[..i] + syms[i + 1..];
    forall j | 0 <= j < |rest|
      ensures rest[j] in m - {syms[i]}
    {
      if j < i { assert rest[j] == syms[j]; } else { assert rest[j] == syms[j + 1]; }
    }
  }

  /** Replacing the position under a listed symbol moves the equity by the change in its margin. */
  lemma EquityAfterReplace(s: LedgerState, t: LedgerState, k: string, p: Position)
    requires Valid(s) && Valid(t) && k in s.positions
    requires t.positions == s.positions[k := p] && t.symbols == s.symbols
    ensures Equity(t) == t.currentCapital + TotalMargin(OpenPositions(s)) - s.positions[k].Margin() + p.Margin()
  {
    var i := IndexOf(s.symbols, k);
    PositionsAtUpdate(s.positions, s.symbols, i, p);
    SumByUpdate(OpenPositions(s), i, p, MarginOf);
  }

  /** Replacing the position under a held symbol by one filed under the same
      symbol with a consistent notional keeps the invariant. */
  lemma ReplaceKeepsValid(s: LedgerState, t: LedgerState, k: string, p: Position)
    requires Valid(s) && k in s.positions
    requires t.positions == s.positions[k := p] && t.symbols == s.symbols
    requires p.symbol == k && Consistent(p)
    ensures Valid(t)
  {
  }

  /** Filing a new symbol at the end of the order keeps the invariant. */
  lemma AppendKeepsValid(s: LedgerState, t: LedgerState, k: string, p: Position)
    requires Valid(s) && k !in s.positions
    requires t.positions == s.positions[k := p] && t.symbols == s.symbols + [k]
    requires p.symbol == k && Consistent(p)
    ensures Valid(t)
  {
    assert k !in s.symbols;
  }

  /** Removing a held symbol from both the map and the order keeps the invariant. */
  lemma RemoveKeepsValid(s: LedgerState, t: LedgerState, k: string)
    requires Valid(s) && k in s.positions
    requires t.positions == s.positions - {k} && t.symbols == RemoveSymbol(s.symbols, k)
    ensures Valid(t)
  {
    var i := IndexOf(s.symbols, k);
    assert t.symbols == s.symbols[..i] + s.symbols[i + 1..];
    RemoveAtDistinct(s.symbols, i);
    RemoveAtListed(s.positions, s.symbols, i);
    PositionsAtRemove(s.positions, s.symbols, i);
  }

  lemma RemoveAtDistinct(xs: seq<string>, i: int)
    requires NoDuplicates(xs) && 0 <= i < |xs|
    ensures NoDuplicates(xs[..i] + xs[i + 1..])
  {
    var rest := xs[..i] + xs[i + 1..];
    forall a, b | 0 <= a < b < |rest|
      ensures rest[a] != rest[b]
    {
      var a' := if a < i then a else a + 1;
      var b' := if b < i then b else b + 1;
      assert rest[a] == xs[a'] && rest[b] == xs[b'];
    }
  }

  lemma RemoveAtListed(m: map<string, Position>, xs: seq<string>, i: int)
    requires Listed(m, xs) && NoDuplicates(xs) && 0 <= i < |xs|
    ensures Listed(m - {xs[i]}, xs[..i] + xs[i + 1..])
  {
    var rest := xs[..i] + xs[i + 1..];
    forall k' | k' in m - {xs[i]}
      ensures k' in rest
    {
      var j := IndexOf(xs, k');
      if j < i { assert rest[j] == k'; } else { assert rest[j - 1] == k'; }
    }
  }

  // ==================== Trade log ====================

  /** `_record_trade`: the position's id, symbol, side and current quantity, at
      `price` when one is given and non-zero, else at the position's entry. */
  function RecordTrade(action: TradeAction, p: Position, price: Option<real>, extra: Option<real>,
                       pnl: Option<real>, now: Timestamp): (t: TradeRecord)
    ensures Truthy(price) ==> t.price == price.value
    ensures !Truthy(price) ==> t.price == p.entryPrice
    ensures t.symbol == p.symbol && t.quantity == p.quantity && t.action == action
  {
    TradeRecord(p.positionId, now, action, p.symbol, p.side, p.quantity,
                if Truthy(price) then price.value else p.entryPrice, extra, pnl)
  }

  // ==================== Open ====================

  /** The Position that `open_position` builds, or InvalidPosition when
      leverage or confidence is out of its bounds. */
  function NewPosition(sessionId: string, o: OpenOrder, positionId: string, now: Timestamp)
    : (r: Result<Position, LedgerError>)
    ensures r.Ok? <==> 1 <= o.leverage <= 40 && 0.0 <= o.confidence <= 1.0
    ensures r.Err? ==> r.error == InvalidPosition
    ensures r.Ok? ==>
      && r.value.symbol == o.symbol && r.value.side == o.side
      && r.value.quantity == o.quantity && r.value.entryPrice == o.entryPrice
      && r.value.leverage == o.leverage && r.value.confidence == o.confidence
      && r.value.notionalValue == o.quantity * o.entryPrice
      && r.value.riskAmount == o.quantity * Abs(o.entryPrice - o.stopLoss)
      && r.value.rewardPotential == o.quantity * Abs(o.profitTarget - o.entryPrice)
      && (r.value.riskAmount > 0.0 ==> r.value.riskRewardRatio * r.value.riskAmount == r.value.rewardPotential)
      && (r.value.riskAmount <= 0.0 ==> r.value.riskRewardRatio == 0.0)
      && r.value.currentPrice == Some(o.entryPrice) && r.value.takeProfitTargets == []
      && r.value.unrealizedPnl == 0.0 && r.value.openedAt == now
  {
    if !(1 <= o.leverage <= 40 && 0.0 <= o.confidence <= 1.0) then Err(InvalidPosition)
    else
      var risk := o.quantity * Abs(o.entryPrice - o.stopLoss);
      var reward := o.quantity * Abs(o.profitTarget - o.entryPrice);
      Ok(Position(positionId, sessionId, o.symbol, o.side, o.quantity, o.quantity * o.entryPrice,
                  o.leverage, o.entryPrice, Some(o.entryPrice), o.profitTarget, o.stopLoss, [],
                  o.invalidation, o.riskUsd, risk, reward, if risk > 0.0 then reward / risk else 0.0,
                  o.confidence, 0.0, 0.0, now, now, o.signalId, o.reasoning))
  }

  /** `open_position`: files the new position under its symbol (replacing any
      position already there, which keeps its place in the order), debits its
      margin and logs the trade. */
  function OpenPosition(sessionId: string, s: LedgerState, o: OpenOrder, positionId: string, now: Timestamp)
    : (r: Result<LedgerState, LedgerError>)
    ensures r.Err? <==> NewPosition(sessionId, o, positionId, now).Err?
    ensures r.Ok? ==>
      var p := NewPosition(sessionId, o, positionId, now).value;
      && r.value.positions == s.positions[o.symbol := p]
      && r.value.symbols == (if o.symbol in s.symbols then s.symbols else s.symbols + [o.symbol])
      && r.value.currentCapital == s.currentCapital - p.Margin()
      && r.value.closed == s.closed
      && r.value.trades == s.trades + [RecordTrade(OpenTrade, p, None, None, None, now)]
  {
    match NewPosition(sessionId, o, positionId, now)
    case Err(e) => Err(e)
    case Ok(p) =>
      Ok(LedgerState(s.currentCapital - p.Margin(), s.positions[o.symbol := p],
                     if o.symbol in s.symbols then s.symbols else s.symbols + [o.symbol],
                     s.closed, s.trades + [RecordTrade(OpenTrade, p, None, None, None, now)]))
  }

  /** Opening a symbol that is not held appends its position to the open positions. */
  lemma OpenNewAppends(sessionId: string, s: LedgerState, o: OpenOrder, positionId: string, now: Timestamp)
    requires Valid(s) && o.symbol !in s.positions && OpenPosition(sessionId, s, o, positionId, now).Ok?
    ensures var t := OpenPosition(sessionId, s, o, positionId, now).value;
            Valid(t) && OpenPositions(t) == OpenPositions(s) + [t.positions[o.symbol]]
  {
    var t := OpenPosition(sessionId, s, o, positionId, now).value;
    var p := NewPosition(sessionId, o, positionId, now).value;
    assert o.symbol !in s.symbols;
    AppendKeepsValid(s, t, o.symbol, p);
    PositionsAtAppend(s.positions, s.symbols, o.symbol, p);
  }

  /** Opening a symbol that is not held adds no unrealised P&L to the open total. */
  lemma OpenNewUnrealized(sessionId: string, s: LedgerState, o: OpenOrder, positionId: string, now: Timestamp)
    requires Valid(s) && o.symbol !in s.positions && OpenPosition(sessionId, s, o, positionId, now).Ok?
    ensures var t := OpenPosition(sessionId, s, o, positionId, now).value;
            Valid(t) && TotalUnrealizedPnl(OpenPositions(t)) == TotalUnrealizedPnl(OpenPositions(s))
  {
    var p := NewPosition(sessionId, o, positionId, now).value;
    OpenNewAppends(sessionId, s, o, positionId, now);
    SnocTotals(OpenPositions(s), p);
  }

  /** Opening a symbol that is not held adds its notional to the open total. */
  lemma OpenNewNotional(sessionId: string, s: LedgerState, o: OpenOrder, positionId: string, now: Timestamp)
    requires Valid(s) && o.symbol !in s.positions && OpenPosition(sessionId, s, o, positionId, now).Ok?
    ensures var t := OpenPosition(sessionId, s, o, positionId, now).value;
            Valid(t) && TotalNotional(OpenPositions(t)) == TotalNotional(OpenPositions(s)) + t.positions[o.symbol].notionalValue
  {
    var p := NewPosition(sessionId, o, positionId, now).value;
    OpenNewAppends(sessionId, s, o, positionId, now);
    SnocTotals(OpenPositions(s), p);
  }

  /** Opening keeps the invariant. For a new symbol the equity is unchanged;
      opening over a held symbol drops the replaced position's margin. */
  lemma OpenPositionAccounting(sessionId: string, s: LedgerState, o: OpenOrder, positionId: string, now: Timestamp)
    requires Valid(s) && OpenPosition(sessionId, s, o, positionId, now).Ok?
    ensures Valid(OpenPosition(sessionId, s, o, positionId, now).value)
    ensures o.symbol !in s.positions ==> Equity(OpenPosition(sessionId, s, o, positionId, now).value) == Equity(s)
    ensures o.symbol in s.positions ==>
      Equity(OpenPosition(sessionId, s, o, positionId, now).value) == Equity(s) - s.positions[o.symbol].Margin()
    ensures TotalRealizedPnl(OpenPosition(sessionId, s, o, positionId, now).value) == TotalRealizedPnl(s)
  {
    var t := OpenPosition(sessionId, s, o, positionId, now).value;
    var p := NewPosition(sessionId, o, positionId, now).value;
    assert t.currentCapital == s.currentCapital - p.Margin();
    if o.symbol in s.positions {
      ReplaceKeepsValid(s, t, o.symbol, p);
      EquityAfterReplace(s, t, o.symbol, p);
    } else {
      AppendKeepsValid(s, t, o.symbol, p);
      assert OpenPositions(t) == OpenPositions(s) + [p] by {
        PositionsAtAppend(s.positions, s.symbols, o.symbol, p);
      }
      SumBySnoc(OpenPositions(s), p, MarginOf);
    }
  }

  // ==================== Close ====================

  /** The record `close_position` files: realised P&L of the whole quantity at
      the exit price, its percentage of the notional (0 for a non-positive
      notional), and the holding time in hours. */
  function ClosedRecord(p: Position, symbol: string, exitPrice: real, reason: string,
                        signalId: Option<string>, now: Timestamp): (c: ClosedPosition)
    ensures c.symbol == symbol && c.exitPrice == exitPrice && c.exitReason == reason
    ensures c.realizedPnl == PnlAt(p.side, p.entryPrice, exitPrice, p.quantity)
    ensures p.notionalValue > 0.0 ==> c.realizedPnlPct * p.notionalValue == c.realizedPnl * 100.0
    ensures p.notionalValue <= 0.0 ==> c.realizedPnlPct == 0.0
    ensures c.holdingDuration * 3600.0 == (now - p.openedAt) as real
  {
    var pnl := PnlAt(p.side, p.entryPrice, exitPrice, p.quantity);
    ClosedPosition(p.positionId, p.sessionId, symbol, p.side, p.quantity, p.entryPrice, exitPrice, pnl,
                   if p.notionalValue > 0.0 then pnl / p.notionalValue * 100.0 else 0.0,
                   p.openedAt, now, (now - p.openedAt) as real / 3600.0, reason, signalId)
  }

  /** `close_position`: on an absent symbol nothing changes and there is no
      record; otherwise the margin and the P&L are credited, the symbol is
      removed, one closed record is appended and the trade is logged. */
  function ClosePosition(s: LedgerState, symbol: string, exitPrice: real, reason: string,
                         signalId: Option<string>, now: Timestamp): (r: (LedgerState, Option<ClosedPosition>))
    ensures symbol !in s.positions ==> r == (s, None)
    ensures symbol in s.positions ==>
      var p := s.positions[symbol];
      var c := ClosedRecord(p, symbol, exitPrice, reason, signalId, now);
      && r.1 == Some(c)
      && r.0.positions == s.positions - {symbol}
      && r.0.symbols == RemoveSymbol(s.symbols, symbol)
      && r.0.currentCapital == s.currentCapital + p.Margin() + c.realizedPnl
      && r.0.closed == s.closed + [c]
      && r.0.trades == s.trades + [RecordTrade(CloseTrade, p, Some(exitPrice), Some(c.realizedPnl), None, now)]
  {
    if symbol !in s.positions then (s, None)
    else
      var p := s.positions[symbol];
      var c := ClosedRecord(p, symbol, exitPrice, reason, signalId, now);
      (LedgerState(s.currentCapital + p.Margin() + c.realizedPnl, s.positions - {symbol},
                   RemoveSymbol(s.symbols, symbol), s.closed + [c],
                   s.trades + [RecordTrade(CloseTrade, p, Some(exitPrice), Some(c.realizedPnl), None, now)]),
       Some(c))
  }

  /** Closing keeps the invariant, and equity and realised P&L both grow by the closed P&L. */
  /** Closing removes the closed position from the open positions at its index, and keeps the invariant. */
  lemma CloseDropsOpen(s: LedgerState, symbol: string, exitPrice: real, reason: string,
                       signalId: Option<string>, now: Timestamp) returns (i: nat)
    requires Valid(s) && symbol in s.positions
    ensures Valid(ClosePosition(s, symbol, exitPrice, reason, signalId, now).0)
    ensures i < |OpenPositions(s)| && OpenPositions(s)[i] == s.positions[symbol]
    ensures OpenPositions(ClosePosition(s, symbol, exitPrice, reason, signalId, now).0)
            == OpenPositions(s)[..i] + OpenPositions(s)[i + 1..]
  {
    var t := ClosePosition(s, symbol, exitPrice, reason, signalId, now).0;
    RemoveKeepsValid(s, t, symbol);
    i := IndexOf(s.symbols, symbol);
    PositionsAtRemove(s.positions, s.symbols, i);
  }

  /** Closing removes exactly the closed position's term from any sum over the open positions. */
  lemma CloseSumBy(s: LedgerState, symbol: string, exitPrice: real, reason: string,
                   signalId: Option<string>, now: Timestamp, f: PositionMeasure)
    requires Valid(s) && symbol in s.positions
    ensures SumBy(OpenPositions(ClosePosition(s, symbol, exitPrice, reason, signalId, now).0), f)
            == SumBy(OpenPositions(s), f) - Measure(s.positions[symbol], f)
  {
    var i := CloseDropsOpen(s, symbol, exitPrice, reason, signalId, now);
    SumByRemove(OpenPositions(s), i, f);
  }

  /** Closing drops the closed position's unrealised P&L from the open total. */
  lemma CloseUnrealized(s: LedgerState, symbol: string, exitPrice: real, reason: string,
                        signalId: Option<string>, now: Timestamp)
    requires Valid(s) && symbol in s.positions
    ensures TotalUnrealizedPnl(OpenPositions(ClosePosition(s, symbol, exitPrice, reason, signalId, now).0))
            == TotalUnrealizedPnl(OpenPositions(s)) - s.positions[symbol].unrealizedPnl
  {
    var i := CloseDropsOpen(s, symbol, exitPrice, reason, signalId, now);
    RemoveTotals(OpenPositions(s), i);
  }

  /** Closing drops the closed position's notional from the open total. */
  lemma CloseNotional(s: LedgerState, symbol: string, exitPrice: real, reason: string,
                      signalId: Option<string>, now: Timestamp)
    requires Valid(s) && symbol in s.positions
    ensures TotalNotional(OpenPositions(ClosePosition(s, symbol, exitPrice, reason, signalId, now).0))
            == TotalNotional(OpenPositions(s)) - s.positions[symbol].notionalValue
  {
    var i := CloseDropsOpen(s, symbol, exitPrice, reason, signalId, now);
    RemoveTotals(OpenPositions(s), i);
  }

  /** Closing adds the closed position's P&L at the exit price to the realised total. */
  lemma CloseRealizes(s: LedgerState, symbol: string, exitPrice: real, reason: string,
                      signalId: Option<string>, now: Timestamp)
    requires symbol in s.positions
    ensures var p := s.positions[symbol];
            TotalRealizedPnl(ClosePosition(s, symbol, exitPrice, reason, signalId, now).0)
            == TotalRealizedPnl(s) + PnlAt(p.side, p.entryPrice, exitPrice, p.quantity)
  {
    SumRealizedPnlAppend(s.closed, ClosePosition(s, symbol, exitPrice, reason, signalId, now).1.value);
  }

  lemma ClosePositionAccounting(s: LedgerState, symbol: string, exitPrice: real, reason: string,
                                signalId: Option<string>, now: Timestamp)
    requires Valid(s) && symbol in s.positions
    ensures Valid(ClosePosition(s, symbol, exitPrice, reason, signalId, now).0)
    ensures Equity(ClosePosition(s, symbol, exitPrice, reason, signalId, now).0)
            == Equity(s) + ClosePosition(s, symbol, exitPrice, reason, signalId, now).1.value.realizedPnl
    ensures TotalRealizedPnl(ClosePosition(s, symbol, exitPrice, reason, signalId, now).0)
            == TotalRealizedPnl(s) + ClosePosition(s, symbol, exitPrice, reason, signalId, now).1.value.realizedPnl
  {
    var r := ClosePosition(s, symbol, exitPrice, reason, signalId, now);
    var _ := CloseDropsOpen(s, symbol, exitPrice, reason, signalId, now);
    CloseSumBy(s, symbol, exitPrice, reason, signalId, now, MarginOf);
    SumRealizedPnlAppend(s.closed, r.1.value);
  }

  /** Opening and then closing at the entry price realises nothing and restores the capital. */
  lemma OpenThenCloseAtEntry(sessionId: string, s: LedgerState, o: OpenOrder, positionId: string,
                             now: Timestamp, later: Timestamp)
    requires Valid(s) && OpenPosition(sessionId, s, o, positionId, now).Ok?
    ensures var t := OpenPosition(sessionId, s, o, positionId, now).value;
            var (u, c) := ClosePosition(t, o.symbol, o.entryPrice, "signal", None, later);
            && c.Some? && c.value.realizedPnl == 0.0
            && u.currentCapital == s.currentCapital
  {
    var p := NewPosition(sessionId, o, positionId, now).value;
    assert PnlAt(p.side, p.entryPrice, o.entryPrice, p.quantity) == 0.0;
    assert p.Margin() == o.quantity * o.entryPrice / o.leverage as real;
  }

  /** For a symbol that was not held, opening and then closing restores the open positions. */
  lemma OpenThenCloseRestores(sessionId: string, s: LedgerState, o: OpenOrder, positionId: string,
                              now: Timestamp, later: Timestamp)
    requires Valid(s) && OpenPosition(sessionId, s, o, positionId, now).Ok? && o.symbol !in s.positions
    ensures var t := OpenPosition(sessionId, s, o, positionId, now).value;
            var u := ClosePosition(t, o.symbol, o.entryPrice, "signal", None, later).0;
            u.positions == s.positions && u.symbols == s.symbols
  {
    var p := NewPosition(sessionId, o, positionId, now).value;
    assert o.symbol !in s.symbols;
    RemoveAppended(s.symbols, o.symbol);
    UpdateThenRemove(s.positions, o.symbol, p);
  }

  lemma UpdateThenRemove(m: map<string, Position>, k: string, p: Position)
    requires k !in m
    ensures m[k := p] - {k} == m
  {
    assert (m[k := p] - {k}).Keys == m.Keys;
  }


  /** Removing a symbol just appended restores the list. */
  lemma RemoveAppended(xs: seq<string>, x: string)
    requires x !in xs
    ensures RemoveSymbol(xs + [x], x) == xs
  {
    IndexOfLast(xs, x);
    assert (xs + [x])[..|xs|] == xs;
  }

  lemma {:induction false} IndexOfLast(xs: seq<string>, x: string)
    requires x !in xs
    ensures IndexOf(xs + [x], x) == |xs|
    decreases |xs|
  {
    if xs != [] {
      assert (xs + [x])[1..] == xs[1..] + [x];
      IndexOfLast(xs[1..], x);
    }
  }

  // ==================== Add ====================

  /** `p` after buying `addQty` more at `price`: the quantity grows and the
      entry becomes the quantity-weighted average of the old entry and `price`. */
  function Averaged(p: Position, addQty: real, price: real, now: Timestamp): (q: Position)
    requires p.quantity + addQty != 0.0
    ensures q == p.(quantity := q.quantity, entryPrice := q.entryPrice, notionalValue := q.notionalValue,
                    lastUpdated := now)
    ensures q.quantity == p.quantity + addQty
    ensures q.entryPrice * q.quantity == p.quantity * p.entryPrice + addQty * price
    ensures q.notionalValue == q.quantity * q.entryPrice
  {
    var newQty := p.quantity + addQty;
    var avg := (p.quantity * p.entryPrice + addQty * price) / newQty;
    p.(quantity := newQty, entryPrice := avg, notionalValue := newQty * avg, lastUpdated := now)
  }

  /** The margin `qty` units bought at `price` take at `leverage`. */
  function MarginFor(qty: real, price: real, leverage: PositionLeverage): real
  {
    qty * price / leverage as real
  }

  /** `add_to_position`: pyramiding must be enabled and the symbol held; the
      entry becomes the quantity-weighted average, the notional the new
      quantity at that average, and the added cost over the leverage is debited. */
  function AddToPosition(cfg: SessionConfig, s: LedgerState, symbol: string, addQty: real, price: real,
                         now: Timestamp): (r: Result<LedgerState, LedgerError>)
    ensures !cfg.allowPyramiding ==> r == Err(PyramidingDisabled)
    ensures cfg.allowPyramiding && symbol !in s.positions ==> r == Err(NoPosition(symbol))
    ensures cfg.allowPyramiding && symbol in s.positions && s.positions[symbol].quantity + addQty == 0.0
            ==> r == Err(ZeroQuantity)
    ensures r.Ok? <==> cfg.allowPyramiding && symbol in s.positions && s.positions[symbol].quantity + addQty != 0.0
    ensures r.Ok? ==> symbol in s.positions && symbol in r.value.positions
    ensures r.Ok? ==>
      var p := s.positions[symbol];
      var q := r.value.positions[symbol];
      && r.value.positions == s.positions[symbol := q]
      && r.value.symbols == s.symbols && r.value.closed == s.closed
      && q == p.(quantity := q.quantity, entryPrice := q.entryPrice, notionalValue := q.notionalValue,
                 lastUpdated := now)
      && q.quantity == p.quantity + addQty
      && q.entryPrice * q.quantity == p.quantity * p.entryPrice + addQty * price
      && q.notionalValue == q.quantity * q.entryPrice
      && r.value.currentCapital == s.currentCapital - MarginFor(addQty, price, p.leverage)
      && r.value.trades == s.trades + [RecordTrade(AddTrade, q, Some(price), Some(addQty), None, now)]
  {
    if !cfg.allowPyramiding then Err(PyramidingDisabled)
    else if symbol !in s.positions then Err(NoPosition(symbol))
    else
      var p := s.positions[symbol];
      if p.quantity + addQty == 0.0 then Err(ZeroQuantity)
      else
        var q := Averaged(p, addQty, price, now);
        Ok(LedgerState(s.currentCapital - MarginFor(addQty, price, p.leverage), s.positions[symbol := q],
                       s.symbols, s.closed,
                       s.trades + [RecordTrade(AddTrade, q, Some(price), Some(addQty), None, now)]))
  }

  /** Adding keeps the invariant and moves cash into margin one for one: equity is unchanged. */
  lemma AddToPositionAccounting(cfg: SessionConfig, s: LedgerState, symbol: string, addQty: real, price: real,
                                now: Timestamp)
    requires Valid(s) && AddToPosition(cfg, s, symbol, addQty, price, now).Ok?
    ensures Valid(AddToPosition(cfg, s, symbol, addQty, price, now).value)
    ensures Equity(AddToPosition(cfg, s, symbol, addQty, price, now).value) == Equity(s)
    ensures TotalRealizedPnl(AddToPosition(cfg, s, symbol, addQty, price, now).value) == TotalRealizedPnl(s)
  {
    var t := AddToPosition(cfg, s, symbol, addQty, price, now).value;
    var p := s.positions[symbol];
    var q := t.positions[symbol];
    var lev := p.leverage as real;
    assert q.notionalValue == p.notionalValue + addQty * price;
    assert q.Margin() - p.Margin() == MarginFor(addQty, price, p.leverage) by {
      assert q.Margin() == (p.notionalValue + addQty * price) / lev;
    }
    ReplaceKeepsValid(s, t, symbol, q);
    EquityAfterReplace(s, t, symbol, q);
  }

  // ==================== Reduce ====================

  /** `p` after selling `reduceQty` of it: the entry is unchanged. */
  function Reduced(p: Position, reduceQty: real, now: Timestamp): (q: Position)
    ensures q == p.(quantity := p.quantity - reduceQty, notionalValue := (p.quantity - reduceQty) * p.entryPrice,
                    lastUpdated := now)
  {
    var rest := p.quantity - reduceQty;
    p.(quantity := rest, notionalValue := rest * p.entryPrice, lastUpdated := now)
  }

  /** `reduce_position`. Reducing by at least the held quantity closes the
      whole position with the given reason (no open position remains, and the
      close's P&L is reported). Otherwise the quantity shrinks at an unchanged
      entry, the released margin and the partial P&L are credited, and the
      trade is logged; the partial P&L is not a closed position. */
  function ReducePosition(s: LedgerState, symbol: string, reduceQty: real, exitPrice: real, reason: string,
                          now: Timestamp): (r: Result<(LedgerState, Option<Position>, real), LedgerError>)
    ensures symbol !in s.positions <==> r == Err(NoPosition(symbol))
    ensures r.Ok? && reduceQty >= s.positions[symbol].quantity ==>
      var (t, c) := ClosePosition(s, symbol, exitPrice, reason, None, now);
      r.value == (t, None, c.value.realizedPnl)
    ensures r.Ok? && reduceQty < s.positions[symbol].quantity ==>
      var p := s.positions[symbol];
      var q := Reduced(p, reduceQty, now);
      var pnl := PnlAt(p.side, p.entryPrice, exitPrice, reduceQty);
      && r.value.1 == Some(q) && r.value.2 == pnl
      && r.value.0 == LedgerState(s.currentCapital + MarginFor(reduceQty, p.entryPrice, p.leverage) + pnl,
                                  s.positions[symbol := q], s.symbols, s.closed,
                                  s.trades + [RecordTrade(ReduceTrade, q, Some(exitPrice), Some(reduceQty), Some(pnl), now)])
  {
    if symbol !in s.positions then Err(NoPosition(symbol))
    else
      var p := s.positions[symbol];
      if reduceQty >= p.quantity then
        var (t, c) := ClosePosition(s, symbol, exitPrice, reason, None, now);
        Ok((t, None, c.value.realizedPnl))
      else
        var pnl := PnlAt(p.side, p.entryPrice, exitPrice, reduceQty);
        var q := Reduced(p, reduceQty, now);
        Ok((LedgerState(s.currentCapital + MarginFor(reduceQty, p.entryPrice, p.leverage) + pnl,
                        s.positions[symbol := q], s.symbols, s.closed,
                        s.trades + [RecordTrade(ReduceTrade, q, Some(exitPrice), Some(reduceQty), Some(pnl), now)]),
            Some(q), pnl))
  }

  /** Reducing keeps the invariant and moves the equity by exactly the reported P&L;
      only a full close adds that P&L to the realised total. */
  lemma ReducePositionAccounting(s: LedgerState, symbol: string, reduceQty: real, exitPrice: real, reason: string,
                                 now: Timestamp)
    requires Valid(s) && symbol in s.positions
    ensures ReducePosition(s, symbol, reduceQty, exitPrice, reason, now).Ok?
    ensures var (t, q, pnl) := ReducePosition(s, symbol, reduceQty, exitPrice, reason, now).value;
            && Valid(t)
            && Equity(t) == Equity(s) + pnl
            && TotalRealizedPnl(t) == TotalRealizedPnl(s) + (if q.None? then pnl else 0.0)
  {
    if reduceQty >= s.positions[symbol].quantity {
      ClosePositionAccounting(s, symbol, exitPrice, reason, None, now);
    } else {
      PartialReduceAccounting(s, symbol, reduceQty, exitPrice, reason, now);
    }
  }

  lemma PartialReduceAccounting(s: LedgerState, symbol: string, reduceQty: real, exitPrice: real, reason: string,
                                now: Timestamp)
    requires Valid(s) && symbol in s.positions && reduceQty < s.positions[symbol].quantity
    ensures var (t, q, pnl) := ReducePosition(s, symbol, reduceQty, exitPrice, reason, now).value;
            && Valid(t)
            && Equity(t) == Equity(s) + pnl
            && TotalRealizedPnl(t) == TotalRealizedPnl(s)
  {
    var p := s.positions[symbol];
    var (t, q, pnl) := ReducePosition(s, symbol, reduceQty, exitPrice, reason, now).value;
    var lev := p.leverage as real;
    assert t.currentCapital == s.currentCapital + MarginFor(reduceQty, p.entryPrice, p.leverage) + pnl;
    assert q.value.Margin() - p.Margin() == -MarginFor(reduceQty, p.entryPrice, p.leverage) by {
      assert q.value.notionalValue == p.notionalValue - reduceQty * p.entryPrice;
      assert q.value.Margin() == (p.notionalValue - reduceQty * p.entryPrice) / lev;
    }
    assert Valid(t) by {
      ReplaceKeepsValid(s, t, symbol, q.value);
    }
    EquityAfterReplace(s, t, symbol, q.value);
  }

  // ==================== Mark to market, stops and targets ====================

  /** Re-marks the position under `symbol` at `price` in place. */
  function MarkPosition(s: LedgerState, symbol: string, price: real): (t: LedgerState)
    requires symbol in s.positions
    ensures t == s.(positions := s.positions[symbol := CalculateUnrealizedPnl(s.positions[symbol], price)])
  {
    s.(positions := s.positions[symbol := CalculateUnrealizedPnl(s.positions[symbol], price)])
  }

  lemma MarkPositionAccounting(s: LedgerState, symbol: string, price: real)
    requires Valid(s) && symbol in s.positions
    ensures Valid(MarkPosition(s, symbol, price))
    ensures Equity(MarkPosition(s, symbol, price)) == Equity(s)
  {
    var p := CalculateUnrealizedPnl(s.positions[symbol], price);
    var t := MarkPosition(s, symbol, price);
    assert Valid(t) by {
      ReplaceKeepsValid(s, t, symbol, p);
    }
    EquityAfterReplace(s, t, symbol, p);
  }

  /** `_check_stop_loss_take_profit`: the exit reason at `price`, if any. The
      stop is checked first: a long stops out at or below its stop and takes
      profit at or above its target; a short mirrors both. */
  function ExitReason(p: Position, price: real): (r: Option<string>)
    ensures r == Some("stop_loss") <==>
              (p.side == Long && price <= p.stopLossPrice) || (p.side == Short && price >= p.stopLossPrice)
    ensures r == Some("take_profit") <==>
              r != Some("stop_loss") &&
              ((p.side == Long && price >= p.profitTarget) || (p.side == Short && price <= p.profitTarget))
    ensures r.None? || r == Some("stop_loss") || r == Some("take_profit")
  {
    match p.side
    case Long =>
      if price <= p.stopLossPrice then Some("stop_loss")
      else if price >= p.profitTarget then Some("take_profit")
      else None
    case Short =>
      if price >= p.stopLossPrice then Some("stop_loss")
      else if price <= p.profitTarget then Some("take_profit")
      else None
  }

  /** One iteration of `update_positions` for a symbol of the snapshot: when it
      has a price it is re-marked, then closed at that price if a stop or
      target is hit. */
  function UpdateStep(s: LedgerState, symbol: string, prices: map<string, real>, now: Timestamp): (r: LedgerState)
    ensures forall k :: k in r.positions ==> k in s.positions
  {
    if symbol in prices && symbol in s.positions then
      var m := MarkPosition(s, symbol, prices[symbol]);
      match ExitReason(m.positions[symbol], prices[symbol])
      case Some(reason) => ClosePosition(m, symbol, prices[symbol], reason, None, now).0
      case None => m
    else s
  }

  /** The loop of `update_positions` over a snapshot of symbols. */
  function UpdateFold(s: LedgerState, syms: seq<string>, prices: map<string, real>, now: Timestamp): (r: LedgerState)
    ensures forall k :: k in r.positions ==> k in s.positions
  {
    if syms == [] then s
    else UpdateStep(UpdateFold(s, syms[..|syms| - 1], prices, now), syms[|syms| - 1], prices, now)
  }

  /** `update_positions`: the loop over the symbols held when it starts. */
  function UpdatePositions(s: LedgerState, prices: map<string, real>, now: Timestamp): (r: LedgerState)
    ensures forall k :: k in r.positions ==> k in s.positions
  {
    UpdateFold(s, s.symbols, prices, now)
  }

  /** One step keeps the invariant and the equity net of realised P&L. */
  lemma UpdateStepAccounting(s: LedgerState, symbol: string, prices: map<string, real>, now: Timestamp)
    requires Valid(s)
    ensures Valid(UpdateStep(s, symbol, prices, now))
    ensures Equity(UpdateStep(s, symbol, prices, now)) - TotalRealizedPnl(UpdateStep(s, symbol, prices, now))
            == Equity(s) - TotalRealizedPnl(s)
  {
    if symbol in prices && symbol in s.positions {
      var m := MarkPosition(s, symbol, prices[symbol]);
      MarkPositionAccounting(s, symbol, prices[symbol]);
      var reason := ExitReason(m.positions[symbol], prices[symbol]);
      if reason.Some? {
        ClosePositionAccounting(m, symbol, prices[symbol], reason.value, None, now);
      }
    }
  }

  /** One step touches only its own symbol: it adds no symbol, leaves every
      other position as it was, and appends at most one closed record, for
      its own symbol, which it removes. Without a price it changes nothing. */
  lemma UpdateStepFrame(s: LedgerState, symbol: string, prices: map<string, real>, now: Timestamp)
    ensures var t := UpdateStep(s, symbol, prices, now);
      && t.positions.Keys <= s.positions.Keys
      && (t.closed == s.closed
          || (symbol in s.positions && symbol !in t.positions
              && |t.closed| == |s.closed| + 1 && t.closed[..|s.closed|] == s.closed
              && t.closed[|s.closed|].symbol == symbol))
      && (forall k :: k in s.positions && k != symbol ==> k in t.positions && t.positions[k] == s.positions[k])
      && (symbol !in prices ==> t == s)
  {
    if symbol in prices && symbol in s.positions {
      var m := MarkPosition(s, symbol, prices[symbol]);
      var reason := ExitReason(m.positions[symbol], prices[symbol]);
      if reason.Some? {
        var t := ClosePosition(m, symbol, prices[symbol], reason.value, None, now).0;
        assert t.closed[..|s.closed|] == s.closed;
      }
    }
  }

  /** Over any snapshot: the invariant holds, equity net of realised P&L is
      unchanged, no symbol is added, and positions without a price are untouched. */
  lemma {:induction false} UpdateFoldAccounting(s: LedgerState, syms: seq<string>, prices: map<string, real>,
                                                now: Timestamp)
    requires Valid(s)
    ensures var t := UpdateFold(s, syms, prices, now);
      && Valid(t)
      && Equity(t) - TotalRealizedPnl(t) == Equity(s) - TotalRealizedPnl(s)
      && t.positions.Keys <= s.positions.Keys
      && (forall k :: k in s.positions && k !in prices ==> k in t.positions && t.positions[k] == s.positions[k])
    decreases |syms|
  {
    if syms != [] {
      var init := syms[..|syms| - 1];
      var sym := syms[|syms| - 1];
      var u := UpdateFold(s, init, prices, now);
      var t := UpdateStep(u, sym, prices, now);
      UpdateFoldAccounting(s, init, prices, now);
      UpdateStepAccounting(u, sym, prices, now);
      UpdateStepFrame(u, sym, prices, now);
      assert forall k :: k in s.positions && k !in prices ==> k in t.positions && t.positions[k] == s.positions[k] by {
        forall k | k in s.positions && k !in prices
          ensures k in t.positions && t.positions[k] == s.positions[k]
        {
          assert k in u.positions && u.positions[k] == s.positions[k];
        }
      }
    }
  }

  /** Over any snapshot the closed list only grows, by at most one record per
      snapshot entry, each for a symbol that is no longer open, so no symbol is
      closed twice. */
  lemma {:induction false} UpdateFoldCloses(s: LedgerState, syms: seq<string>, prices: map<string, real>,
                                            now: Timestamp)
    requires Valid(s)
    ensures var t := UpdateFold(s, syms, prices, now);
      && |s.closed| <= |t.closed| <= |s.closed| + |syms| && t.closed[..|s.closed|] == s.closed
      && (forall j :: |s.closed| <= j < |t.closed| ==> t.closed[j].symbol !in t.positions)
      && (forall j1, j2 :: |s.closed| <= j1 < j2 < |t.closed| ==> t.closed[j1].symbol != t.closed[j2].symbol)
    decreases |syms|
  {
    if syms != [] {
      var init := syms[..|syms| - 1];
      var sym := syms[|syms| - 1];
      var u := UpdateFold(s, init, prices, now);
      UpdateFoldCloses(s, init, prices, now);
      UpdateStepFrame(u, sym, prices, now);
      var t := UpdateStep(u, sym, prices, now);
      if t.closed != u.closed {
        assert t.closed[..|s.closed|] == u.closed[..|s.closed|] by {
          assert t.closed[..|u.closed|] == u.closed;
        }
        forall j | |s.closed| <= j < |u.closed|
          ensures t.closed[j] == u.closed[j]
        {
          assert t.closed[..|u.closed|] == u.closed;
        }
      }
    }
  }

  /** A pass leaves every position whose symbol it has not visited as it was. */
  lemma {:induction false} UpdateFoldKeepsUnvisited(s: LedgerState, syms: seq<string>, prices: map<string, real>,
                                                    now: Timestamp)
    ensures forall k :: k in s.positions && k !in syms ==>
      k in UpdateFold(s, syms, prices, now).positions && UpdateFold(s, syms, prices, now).positions[k] == s.positions[k]
    decreases |syms|
  {
    if syms != [] {
      var init := syms[..|syms| - 1];
      var sym := syms[|syms| - 1];
      UpdateFoldKeepsUnvisited(s, init, prices, now);
      UpdateStepFrame(UpdateFold(s, init, prices, now), sym, prices, now);
      assert forall k :: k in syms <==> k in init || k == sym;
    }
  }

  /** The `i`-th symbol of the snapshot is still held when the pass reaches it,
      and visiting it extends the pass by one step. */
  lemma UpdateFoldNext(s: LedgerState, i: nat, prices: map<string, real>, now: Timestamp)
    requires Valid(s) && i < |s.symbols|
    ensures s.symbols[i] in UpdateFold(s, s.symbols[..i], prices, now).positions
    ensures UpdateFold(s, s.symbols[..i + 1], prices, now)
            == UpdateStep(UpdateFold(s, s.symbols[..i], prices, now), s.symbols[i], prices, now)
  {
    UpdateFoldKeepsUnvisited(s, s.symbols[..i], prices, now);
    assert s.symbols[..i + 1][..i] == s.symbols[..i];
  }

  /** `update_positions` keeps the invariant and changes equity only by what it realises. */
  lemma UpdatePositionsAccounting(s: LedgerState, prices: map<string, real>, now: Timestamp)
    requires Valid(s)
    ensures var t := UpdatePositions(s, prices, now);
      && Valid(t)
      && Equity(t) - Equity(s) == TotalRealizedPnl(t) - TotalRealizedPnl(s)
      && (forall k :: k in s.positions && k !in prices ==> k in t.positions && t.positions[k] == s.positions[k])
      && (forall j1, j2 :: |s.closed| <= j1 < j2 < |t.closed| ==> t.closed[j1].symbol != t.closed[j2].symbol)
      && |t.closed| <= |s.closed| + |s.positions|
  {
    UpdateFoldAccounting(s, s.symbols, prices, now);
    UpdateFoldCloses(s, s.symbols, prices, now);
    HeldCount(s);
  }

  lemma {:induction false} NoDuplicatesCard(xs: seq<string>)
    requires NoDuplicates(xs)
    ensures |set k | k in xs| == |xs|
    decreases |xs|
  {
    if xs != [] {
      var init := xs[..|xs| - 1];
      NoDuplicatesCard(init);
      assert (set k | k in xs) == (set k | k in init) + {xs[|xs| - 1]};
      assert xs[|xs| - 1] !in init;
    }
  }

  /** A position is settled at a price when re-marking it there changes nothing
      and neither its stop nor its target is hit. */
  predicate Settled(p: Position, price: real)
  {
    CalculateUnrealizedPnl(p, price) == p && ExitReason(p, price).None?
  }

  /** After a pass, every position still open that had a price is settled at it. */
  lemma {:induction false} UpdateFoldSettles(s: LedgerState, syms: seq<string>, prices: map<string, real>,
                                             now: Timestamp)
    requires Valid(s)
    ensures var t := UpdateFold(s, syms, prices, now);
      forall k :: k in t.positions && k in prices && k in syms ==> Settled(t.positions[k], prices[k])
    decreases |syms|
  {
    if syms != [] {
      var init := syms[..|syms| - 1];
      var sym := syms[|syms| - 1];
      var u := UpdateFold(s, init, prices, now);
      UpdateFoldSettles(s, init, prices, now);
      UpdateStepFrame(u, sym, prices, now);
      var t := UpdateStep(u, sym, prices, now);
      forall k | k in t.positions && k in prices && k in syms
        ensures Settled(t.positions[k], prices[k])
      {
        if k == sym {
          var p := u.positions[sym];
          CalculateUnrealizedPnlIdempotent(p, prices[sym]);
        } else {
          assert k in init;
        }
      }
    }
  }

  /** A pass in which every step meets a settled position changes nothing. */
  lemma {:induction false} UpdateFoldOverSettled(s: LedgerState, syms: seq<string>, prices: map<string, real>,
                                                 now: Timestamp)
    requires forall k :: k in s.positions && k in prices && k in syms ==> Settled(s.positions[k], prices[k])
    ensures UpdateFold(s, syms, prices, now) == s
    decreases |syms|
  {
    if syms != [] {
      var init := syms[..|syms| - 1];
      var sym := syms[|syms| - 1];
      UpdateFoldOverSettled(s, init, prices, now);
      if sym in prices && sym in s.positions {
        assert s.positions[sym := s.positions[sym]] == s.positions;
      }
    }
  }

  /** `update_positions` is idempotent: a second pass at the same prices changes nothing. */
  lemma UpdatePositionsIdempotent(s: LedgerState, prices: map<string, real>, now: Timestamp)
    requires Valid(s)
    ensures UpdatePositions(UpdatePositions(s, prices, now), prices, now) == UpdatePositions(s, prices, now)
  {
    var t := UpdatePositions(s, prices, now);
    UpdateFoldAccounting(s, s.symbols, prices, now);
    UpdateFoldSettles(s, s.symbols, prices, now);
    UpdateFoldOverSettled(t, t.symbols, prices, now);
  }

  /** A long whose price falls to its stop closes as a stop loss even if the price
      also meets its target; a short mirrors this. */
  lemma StopLossCheckedFirst(p: Position, price: real)
    requires (p.side == Long && price <= p.stopLossPrice) || (p.side == Short && price >= p.stopLossPrice)
    ensures ExitReason(p, price) == Some("stop_loss")
  {
  }

  // ==================== Invalidation ====================

  /** `check_invalidation_conditions`: false for an absent symbol; when the
      position's invalidation rule triggers on the candles, the position is
      closed at the last candle's close and the answer is true. */
  function CheckInvalidationConditions(s: LedgerState, symbol: string, candles: seq<Candle>, now: Timestamp)
    : (r: (LedgerState, bool))
    ensures symbol !in s.positions ==> r == (s, false)
    ensures symbol in s.positions ==> (r.1 <==> IsTriggered(s.positions[symbol].invalidation, candles))
    ensures !r.1 ==> r.0 == s
    ensures r.1 ==>
      && |candles| > 0
      && r.0 == ClosePosition(s, symbol, candles[|candles| - 1].close, "invalidation_triggered", None, now).0
  {
    if symbol !in s.positions then (s, false)
    else if IsTriggered(s.positions[symbol].invalidation, candles) then
      (ClosePosition(s, symbol, candles[|candles| - 1].close, "invalidation_triggered", None, now).0, true)
    else (s, false)
  }
}
