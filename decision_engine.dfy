/** The non-LLM parts of the chain-of-thought decision engine: confidence
    bands, the hold decision that stands in for a held position, the
    completion of parsed decisions with holds, and the fallback used when no
    model is available. Parsed decisions arrive as a map; prompting the
    model and extracting JSON from its text are not part of this module. */
module Decisions {
  import opened Common
  import opened Models
  import Portfolio

  // ==================== Confidence bands ====================

  datatype ConfidenceLevel = VeryLow | Low | Medium | High | VeryHigh

  /** `_get_confidence_level`: lower bounds 0.90, 0.75, 0.50 and 0.25, each inclusive. */
  function GetConfidenceLevel(confidence: real): (l: ConfidenceLevel)
    ensures l == VeryHigh <==> confidence >= 0.90
    ensures l == High <==> 0.75 <= confidence < 0.90
    ensures l == Medium <==> 0.50 <= confidence < 0.75
    ensures l == Low <==> 0.25 <= confidence < 0.50
    ensures l == VeryLow <==> confidence < 0.25
  {
    if confidence >= 0.90 then VeryHigh
    else if confidence >= 0.75 then High
    else if confidence >= 0.50 then Medium
    else if confidence >= 0.25 then Low
    else VeryLow
  }

  function Rank(l: ConfidenceLevel): nat
  {
    match l
    case VeryLow => 0
    case Low => 1
    case Medium => 2
    case High => 3
    case VeryHigh => 4
  }

  /** A higher confidence never gets a lower band. */
  lemma ConfidenceLevelMonotone(c1: real, c2: real)
    requires c1 <= c2
    ensures Rank(GetConfidenceLevel(c1)) <= Rank(GetConfidenceLevel(c2))
  {
  }

  // ==================== Hold decisions ====================

  /** A trade signal's leverage must lie in [5, 40]; a held position may
      have leverage 1 to 4, for which no hold signal can be built. */
  datatype DecisionError = SignalLeverageTooLow(symbol: string, leverage: int)

  /** The hold signal for a held position: it repeats the position's size,
      target, stop, invalidation, leverage, confidence and risk. */
  function HoldFor(symbol: string, p: Position): (r: Result<TradeSignalArgs, DecisionError>)
    ensures r.Ok? <==> p.leverage >= 5
    ensures r.Err? ==> r.error == SignalLeverageTooLow(symbol, p.leverage)
    ensures r.Ok? ==>
      && r.value.coin == symbol && r.value.signal == "hold" && r.value.justification.None?
      && r.value.quantity == p.quantity && r.value.profitTarget == p.profitTarget
      && r.value.stopLoss == p.stopLossPrice
      && r.value.invalidationCondition == p.invalidation.description
      && r.value.leverage == p.leverage && r.value.confidence == p.confidence && r.value.riskUsd == p.riskUsd
  {
    if p.leverage < 5 then Err(SignalLeverageTooLow(symbol, p.leverage))
    else Ok(TradeSignalArgs(symbol, "hold", p.quantity, p.profitTarget, p.stopLossPrice, p.invalidation.description,
                            p.leverage, p.confidence, p.riskUsd, None))
  }

  /** `symbols` is the iteration order of the dictionary `positions`. */
  predicate DictOrder(positions: map<string, Position>, symbols: seq<string>)
  {
    NoDuplicates(symbols) && positions.Keys == set k | k in symbols
  }

  /** Visiting `symbols` in order, give each one without a decision its hold
      decision; the first hold that cannot be built stops the walk. */
  function CompleteWith(decisions: map<string, TradeSignalArgs>, positions: map<string, Position>,
                        symbols: seq<string>): Result<map<string, TradeSignalArgs>, DecisionError>
    requires forall k :: k in symbols ==> k in positions
    decreases |symbols|
  {
    if symbols == [] then Ok(decisions)
    else
      match CompleteWith(decisions, positions, symbols[..|symbols| - 1])
      case Err(e) => Err(e)
      case Ok(d) =>
        var symbol := symbols[|symbols| - 1];
        if symbol in d then Ok(d)
        else
          match HoldFor(symbol, positions[symbol])
          case Err(e) => Err(e)
          case Ok(hold) => Ok(d[symbol := hold])
  }

  /** Completion fails exactly when a visited symbol without a decision has
      leverage below 5, and then names such a symbol. */
  lemma {:induction false} CompleteWithFails(decisions: map<string, TradeSignalArgs>,
                                             positions: map<string, Position>, symbols: seq<string>)
    requires forall k :: k in symbols ==> k in positions
    ensures var r := CompleteWith(decisions, positions, symbols);
            && (r.Ok? <==> forall k :: k in symbols && k !in decisions ==> positions[k].leverage >= 5)
            && (r.Err? ==>
                  && r.error.symbol in symbols && r.error.symbol !in decisions
                  && positions[r.error.symbol].leverage < 5)
    decreases |symbols|
  {
    if symbols != [] {
      var init := symbols[..|symbols| - 1];
      assert forall k :: k in symbols <==> k in init || k == symbols[|symbols| - 1];
      CompleteWithFails(decisions, positions, init);
      if CompleteWith(decisions, positions, init).Ok? {
        CompleteWithKeeps(decisions, positions, init);
      }
    }
  }

  /** A completed map keeps every given decision, holds each visited symbol
      that had none, and has no other keys. */
  lemma {:induction false} CompleteWithKeeps(decisions: map<string, TradeSignalArgs>,
                                             positions: map<string, Position>, symbols: seq<string>)
    requires forall k :: k in symbols ==> k in positions
    requires CompleteWith(decisions, positions, symbols).Ok?
    ensures var d := CompleteWith(decisions, positions, symbols).value;
            && (forall k :: k in decisions ==> k in d && d[k] == decisions[k])
            && (forall k :: k in symbols && k !in decisions ==> k in d && HoldFor(k, positions[k]) == Ok(d[k]))
            && (forall k :: k in d ==> k in decisions || k in symbols)
    decreases |symbols|
  {
    if symbols != [] {
      var init := symbols[..|symbols| - 1];
      assert forall k :: k in symbols <==> k in init || k == symbols[|symbols| - 1];
      CompleteWithKeeps(decisions, positions, init);
    }
  }

  /** The completion step of `_parse_cot_to_decisions`: every held symbol
      without a parsed decision gets a hold; parsed decisions are kept. */
  method CompleteDecisions(parsed: map<string, TradeSignalArgs>, positions: map<string, Position>,
                           symbols: seq<string>) returns (r: Result<map<string, TradeSignalArgs>, DecisionError>)
    requires DictOrder(positions, symbols)
    ensures r == CompleteWith(parsed, positions, symbols)
  {
    var decisions := parsed;
    var i := 0;
    while i < |symbols|
      invariant 0 <= i <= |symbols|
      invariant CompleteWith(parsed, positions, symbols[..i]) == Ok(decisions)
    {
      var symbol := symbols[i];
      assert symbols[..i + 1][..i] == symbols[..i];
      if symbol !in decisions {
        var hold := HoldFor(symbol, positions[symbol]);
        if hold.Err? {
          r := Err(hold.error);
          CompleteWithStops(parsed, positions, symbols, i + 1);
          return;
        }
        decisions := decisions[symbol := hold.value];
      }
      i := i + 1;
    }
    assert symbols[..i] == symbols;
    r := Ok(decisions);
  }

  /** Once a prefix fails, the whole walk fails with the same error. */
  lemma {:induction false} CompleteWithStops(decisions: map<string, TradeSignalArgs>,
                                             positions: map<string, Position>, symbols: seq<string>, n: nat)
    requires forall k :: k in symbols ==> k in positions
    requires n <= |symbols| && CompleteWith(decisions, positions, symbols[..n]).Err?
    ensures CompleteWith(decisions, positions, symbols) == CompleteWith(decisions, positions, symbols[..n])
    decreases |symbols| - n
  {
    if n < |symbols| {
      assert symbols[..n + 1][..n] == symbols[..n];
      CompleteWithStops(decisions, positions, symbols, n + 1);
    } else {
      assert symbols[..n] == symbols;
    }
  }

  /** `_parse_cot_to_decisions` after its JSON extraction: `parsed` is None
      when the text held no JSON block, else the decisions built from the
      blocks that parsed. Without JSON every position is held; with it, the
      parsed decisions are completed with holds. */
  method ParseCotToDecisions(parsed: Option<map<string, TradeSignalArgs>>, positions: map<string, Position>,
                             symbols: seq<string>) returns (r: Result<map<string, TradeSignalArgs>, DecisionError>)
    requires DictOrder(positions, symbols)
    ensures parsed.None? ==> r == CompleteWith(map[], positions, symbols)
    ensures parsed.Some? ==> r == CompleteWith(parsed.value, positions, symbols)
  {
    if parsed.None? {
      r := CompleteDecisions(map[], positions, symbols);
    } else {
      r := CompleteDecisions(parsed.value, positions, symbols);
    }
  }

  /** Without parsed decisions the walk succeeds exactly when every open
      position's leverage admits a signal, and then holds exactly the open
      positions, each with its hold signal; otherwise it names a position
      whose leverage is too low. */
  lemma HoldAllCoversPositions(positions: map<string, Position>, symbols: seq<string>)
    requires DictOrder(positions, symbols)
    ensures var r := CompleteWith(map[], positions, symbols);
      && (r.Ok? <==> forall k :: k in positions ==> positions[k].leverage >= 5)
      && (r.Ok? ==> r.value.Keys == positions.Keys
                    && forall k :: k in positions ==> Ok(r.value[k]) == HoldFor(k, positions[k]))
      && (r.Err? ==> r.error.symbol in positions && positions[r.error.symbol].leverage < 5)
  {
    CompleteWithFails(map[], positions, symbols);
    if CompleteWith(map[], positions, symbols).Ok? {
      CompleteWithKeeps(map[], positions, symbols);
      assert CompleteWith(map[], positions, symbols).value.Keys == positions.Keys;
    }
  }

  // ==================== Fallback ====================

  /** `COTStyleRecommendation`. */
  datatype CotRecommendation = CotRecommendation(
    timestamp: Timestamp,
    sessionId: string,
    chainOfThought: string,
    decisions: map<string, TradeSignalArgs>,
    availableCash: real,
    totalPositions: nat,
    tradableTokens: seq<string>)

  /** `_fallback_decisions`: hold every position, report the snapshot's
      available capital and the number of positions. */
  method FallbackDecisions(positions: map<string, Position>, symbols: seq<string>,
                           snapshot: Portfolio.PortfolioSnapshot, cfg: SessionConfig, now: Timestamp)
    returns (r: Result<CotRecommendation, DecisionError>)
    requires DictOrder(positions, symbols)
    ensures r.Ok? <==> forall k :: k in positions ==> positions[k].leverage >= 5
    ensures r.Ok? ==>
      && r.value.decisions.Keys == positions.Keys
      && (forall k :: k in positions ==> r.value.decisions[k] == HoldFor(k, positions[k]).value)
      && r.value.availableCash == snapshot.availableCapital
      && r.value.totalPositions == |positions|
      && r.value.sessionId == cfg.sessionId && r.value.timestamp == now
      && r.value.tradableTokens == cfg.supportedSymbols
    ensures r.Err? ==> r.error.symbol in positions && positions[r.error.symbol].leverage < 5
  {
    HoldAllCoversPositions(positions, symbols);
    var decisions := CompleteDecisions(map[], positions, symbols);
    if decisions.Err? {
      return Err(decisions.error);
    }
    r := Ok(CotRecommendation(now, cfg.sessionId, "LLM unavailable, defaulting to hold all positions",
                              decisions.value, snapshot.availableCapital, |positions|, cfg.supportedSymbols));
  }
}
