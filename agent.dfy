/** The trading agent's front door: routing a request by its keywords,
    picking the symbols a setup request names, pulling one symbol out of a
    request, and registering a new session. Only the default symbol list
    is searched; string handling is ASCII. */
module Agent {
  import opened Common
  import opened Models
  import Ledger
  import Portfolio

  /** `DEFAULT_CRYPTO_SYMBOLS`, in its declared order. */
  const DefaultCryptoSymbols: seq<string> :=
    ["BTCUSDT", "ETHUSDT", "BNBUSDT", "SOLUSDT", "XRPUSDT", "ADAUSDT", "DOGEUSDT", "MATICUSDT"]

  /** `DEFAULT_INITIAL_CAPITAL`. */
  const DefaultInitialCapital: real := 100000.0

  // ==================== Symbols ====================

  /** Python's `s.replace(pat, "")`: delete the occurrences of `pat` found scanning left to right. */
  function RemoveAll(s: string, pat: string): (r: string)
    requires pat != []
    ensures |r| <= |s|
    decreases |s|
  {
    if s == [] then []
    else if IsPrefix(pat, s) then RemoveAll(s[|pat|..], pat)
    else [s[0]] + RemoveAll(s[1..], pat)
  }

  /** `symbol.replace('USDT', '')`. */
  function Base(symbol: string): string
  {
    RemoveAll(symbol, "USDT")
  }

  /** Removing `pat` from a string that ends in it, and whose remaining
      characters never start it, leaves that remainder. */
  lemma {:induction false} RemoveAllSuffix(b: string, pat: string)
    requires pat != [] && forall i :: 0 <= i < |b| ==> b[i] != pat[0]
    ensures RemoveAll(b + pat, pat) == b
    decreases |b|
  {
    if b == [] {
      assert b + pat == pat && pat[|pat|..] == [];
    } else {
      assert (b + pat)[1..] == b[1..] + pat;
      RemoveAllSuffix(b[1..], pat);
    }
  }

  /** The `i`-th default symbol is its base followed by "USDT". */
  lemma SymbolEndsInUsdt(i: nat)
    requires i < |DefaultCryptoSymbols|
    ensures DefaultCryptoSymbols[i] == Base(DefaultCryptoSymbols[i]) + "USDT"
  {
    var bases := ["BTC", "ETH", "BNB", "SOL", "XRP", "ADA", "DOGE", "MATIC"];
    RemoveAllSuffix(bases[i], "USDT");
    assert DefaultCryptoSymbols[i] == bases[i] + "USDT";
  }

  /** Every default symbol is its base followed by "USDT". */
  lemma DefaultSymbolsEndInUsdt()
    ensures forall s :: s in DefaultCryptoSymbols ==> s == Base(s) + "USDT"
  {
    forall i | 0 <= i < |DefaultCryptoSymbols|
      ensures DefaultCryptoSymbols[i] == Base(DefaultCryptoSymbols[i]) + "USDT"
    {
      SymbolEndsInUsdt(i);
    }
  }

  /** An occurrence of `a + b` is an occurrence of `a`. */
  lemma ContainsPrefixOf(s: string, a: string, b: string)
    requires Contains(s, a + b)
    ensures Contains(s, a)
  {
    var i :| 0 <= i <= |s| - |a + b| && OccursAt(s, a + b, i);
    assert s[i..i + |a|] == (a + b)[..|a|];
    assert OccursAt(s, a, i);
  }

  /** The test `_extract_symbol` applies to one symbol of the upper-cased query. */
  predicate Mentions(upperQuery: string, symbol: string)
  {
    Contains(upperQuery, symbol) || Contains(upperQuery, Base(symbol))
  }

  /** For the default symbols the first test is implied by the second:
      a symbol is mentioned exactly when its base occurs. */
  lemma MentionedByBase(upperQuery: string, symbol: string)
    requires symbol in DefaultCryptoSymbols
    ensures Mentions(upperQuery, symbol) <==> Contains(upperQuery, Base(symbol))
  {
    DefaultSymbolsEndInUsdt();
    if Contains(upperQuery, symbol) {
      ContainsPrefixOf(upperQuery, Base(symbol), "USDT");
    }
  }

  /** The first of `symbols` that the query mentions. */
  function FirstMentioned(upperQuery: string, symbols: seq<string>): (r: Option<string>)
    ensures r.None? <==> forall s :: s in symbols ==> !Mentions(upperQuery, s)
    ensures r.Some? ==> r.value in symbols && Mentions(upperQuery, r.value)
    ensures r.Some? ==> exists i :: 0 <= i < |symbols| && symbols[i] == r.value &&
                                    forall j :: 0 <= j < i ==> !Mentions(upperQuery, symbols[j])
  {
    if symbols == [] then None
    else if Mentions(upperQuery, symbols[0]) then
      Some(symbols[0])
    else
      var r := FirstMentioned(upperQuery, symbols[1..]);
      if r.Some? then
        var i :| 0 <= i < |symbols[1..]| && symbols[1..][i] == r.value &&
                 forall j :: 0 <= j < i ==> !Mentions(upperQuery, symbols[1..][j]);
        assert symbols[i + 1] == r.value;
        assert forall j :: 0 <= j < i + 1 ==> !Mentions(upperQuery, symbols[j]) by {
          forall j | 0 <= j < i + 1 ensures !Mentions(upperQuery, symbols[j]) {
            if j > 0 {
              assert symbols[j] == symbols[1..][j - 1];
            }
          }
        }
        r
      else
        r
  }

  /** `_extract_symbol`: search the default symbols in order and return the
      first one whose name or base occurs in the upper-cased query. */
  method ExtractSymbol(query: string) returns (r: Option<string>)
    ensures r == FirstMentioned(Upper(query), DefaultCryptoSymbols)
    ensures r.Some? ==> r.value in DefaultCryptoSymbols
    ensures r.None? <==> forall s :: s in DefaultCryptoSymbols ==> !Contains(Upper(query), Base(s))
  {
    var queryUpper := Upper(query);
    forall s | s in DefaultCryptoSymbols
      ensures Mentions(queryUpper, s) <==> Contains(queryUpper, Base(s))
    {
      MentionedByBase(queryUpper, s);
    }
    var i := 0;
    while i < |DefaultCryptoSymbols|
      invariant 0 <= i <= |DefaultCryptoSymbols|
      invariant FirstMentioned(queryUpper, DefaultCryptoSymbols) == FirstMentioned(queryUpper, DefaultCryptoSymbols[i..])
    {
      var symbol := DefaultCryptoSymbols[i];
      assert DefaultCryptoSymbols[i..][1..] == DefaultCryptoSymbols[i + 1..];
      if Contains(queryUpper, symbol) {
        return Some(symbol);
      }
      var base := Base(symbol);
      if Contains(queryUpper, base) {
        return Some(symbol);
      }
      i := i + 1;
    }
    return None;
  }

  // ==================== Setup symbols ====================

  /** The test `_parse_setup_config` applies to one symbol of the lower-cased query. */
  predicate SetupMentions(lowerQuery: string, symbol: string)
  {
    Contains(lowerQuery, Lower(symbol)) || Contains(lowerQuery, Lower(Base(symbol)))
  }

  /** `r` is `s` with some elements dropped, the rest in their order. */
  predicate Subsequence(r: seq<string>, s: seq<string>)
    decreases |s|
  {
    if r == [] then true
    else if s == [] then false
    else if r[|r| - 1] == s[|s| - 1] then Subsequence(r[..|r| - 1], s[..|s| - 1])
    else Subsequence(r, s[..|s| - 1])
  }

  /** The symbols of `symbols` the lower-cased query mentions, in order. */
  function MentionedSymbols(lowerQuery: string, symbols: seq<string>): seq<string>
    decreases |symbols|
  {
    if symbols == [] then []
    else
      var init := MentionedSymbols(lowerQuery, symbols[..|symbols| - 1]);
      var last := symbols[|symbols| - 1];
      if SetupMentions(lowerQuery, last) then init + [last] else init
  }

  /** The mentioned symbols are exactly the members the query names. */
  lemma {:induction false} MentionedSymbolsMembers(lowerQuery: string, symbols: seq<string>)
    ensures forall s :: s in MentionedSymbols(lowerQuery, symbols) <==> s in symbols && SetupMentions(lowerQuery, s)
    decreases |symbols|
  {
    if symbols != [] {
      var init := symbols[..|symbols| - 1];
      assert symbols == init + [symbols[|symbols| - 1]];
      MentionedSymbolsMembers(lowerQuery, init);
    }
  }

  /** The mentioned symbols keep their original order. */
  lemma {:induction false} MentionedSymbolsOrdered(lowerQuery: string, symbols: seq<string>)
    ensures Subsequence(MentionedSymbols(lowerQuery, symbols), symbols)
    decreases |symbols|
  {
    if symbols != [] {
      var init := symbols[..|symbols| - 1];
      var last := symbols[|symbols| - 1];
      MentionedSymbolsOrdered(lowerQuery, init);
      var r0 := MentionedSymbols(lowerQuery, init);
      if SetupMentions(lowerQuery, last) {
        var r := r0 + [last];
        assert r[..|r| - 1] == r0;
      } else {
        SubsequenceSnocRight(r0, init, last);
        assert init + [last] == symbols;
      }
    }
  }

  /** The mentioned symbols repeat nothing when the input repeats nothing. */
  lemma {:induction false} MentionedSymbolsDistinct(lowerQuery: string, symbols: seq<string>)
    requires NoDuplicates(symbols)
    ensures NoDuplicates(MentionedSymbols(lowerQuery, symbols))
    decreases |symbols|
  {
    if symbols != [] {
      var init := symbols[..|symbols| - 1];
      var last := symbols[|symbols| - 1];
      MentionedSymbolsDistinct(lowerQuery, init);
      MentionedSymbolsMembers(lowerQuery, init);
      assert last !in init;
    }
  }

  /** A subsequence without its last element is still a subsequence. */
  lemma {:induction false} SubsequenceShorten(r: seq<string>, s: seq<string>)
    requires r != [] && Subsequence(r, s)
    ensures Subsequence(r[..|r| - 1], s)
    decreases |s|, 0
  {
    var init := r[..|r| - 1];
    if init != [] && s != [] {
      if r[|r| - 1] == s[|s| - 1] {
        SubsequenceSnocRight(init, s[..|s| - 1], s[|s| - 1]);
        assert s[..|s| - 1] + [s[|s| - 1]] == s;
      } else {
        SubsequenceShorten(r, s[..|s| - 1]);
        SubsequenceSnocRight(init, s[..|s| - 1], s[|s| - 1]);
        assert s[..|s| - 1] + [s[|s| - 1]] == s;
      }
    }
  }

  /** Appending to the source keeps a subsequence. */
  lemma {:induction false} SubsequenceSnocRight(r: seq<string>, s: seq<string>, x: string)
    requires Subsequence(r, s)
    ensures Subsequence(r, s + [x])
    decreases |s|, 1
  {
    var t := s + [x];
    assert t[..|t| - 1] == s;
    if r != [] && r[|r| - 1] == x {
      SubsequenceShorten(r, s);
    }
  }

  /** Every sequence is a subsequence of itself. */
  lemma {:induction false} SubsequenceReflexive(s: seq<string>)
    ensures Subsequence(s, s)
    decreases |s|
  {
    if s != [] {
      SubsequenceReflexive(s[..|s| - 1]);
    }
  }

  /** Every prefix is a subsequence. */
  lemma {:induction false} PrefixSubsequence(s: seq<string>, k: nat)
    requires k <= |s|
    ensures Subsequence(s[..k], s)
    decreases |s|
  {
    if k == |s| {
      assert s[..k] == s;
      SubsequenceReflexive(s);
    } else {
      var init := s[..|s| - 1];
      PrefixSubsequence(init, k);
      assert init[..k] == s[..k];
      SubsequenceSnocRight(s[..k], init, s[|s| - 1]);
      assert init + [s[|s| - 1]] == s;
    }
  }

  /** The selection rule over any candidate list: the mentioned candidates,
      or the first two when none is mentioned. */
  function SetupSymbolsFrom(lowerQuery: string, candidates: seq<string>): seq<string>
    requires |candidates| >= 2
  {
    var mentioned := MentionedSymbols(lowerQuery, candidates);
    if mentioned == [] then candidates[..2] else mentioned
  }

  /** The selection is never empty, repeats nothing, keeps the candidates'
      order, and picks exactly the mentioned candidates when there are any. */
  lemma SetupSymbolsFromFacts(lowerQuery: string, candidates: seq<string>)
    requires |candidates| >= 2 && NoDuplicates(candidates)
    ensures SetupSymbolsFrom(lowerQuery, candidates) != []
    ensures NoDuplicates(SetupSymbolsFrom(lowerQuery, candidates))
    ensures Subsequence(SetupSymbolsFrom(lowerQuery, candidates), candidates)
    ensures forall s :: s in SetupSymbolsFrom(lowerQuery, candidates) ==> s in candidates
    ensures (exists s :: s in candidates && SetupMentions(lowerQuery, s)) ==>
              forall s :: s in SetupSymbolsFrom(lowerQuery, candidates) <==> s in candidates && SetupMentions(lowerQuery, s)
    ensures (forall s :: s in candidates ==> !SetupMentions(lowerQuery, s)) ==>
              SetupSymbolsFrom(lowerQuery, candidates) == candidates[..2]
  {
    MentionedSymbolsMembers(lowerQuery, candidates);
    MentionedSymbolsOrdered(lowerQuery, candidates);
    MentionedSymbolsDistinct(lowerQuery, candidates);
    var m := MentionedSymbols(lowerQuery, candidates);
    if m == [] {
      PrefixSubsequence(candidates, 2);
      assert forall s :: s in candidates ==> !SetupMentions(lowerQuery, s);
    } else {
      assert m[0] in candidates && SetupMentions(lowerQuery, m[0]);
    }
  }

  lemma DefaultSymbolsDistinct()
    ensures NoDuplicates(DefaultCryptoSymbols)
  {
  }

  /** The symbol list of `_parse_setup_config`. */
  function SetupSymbols(query: string): seq<string>
  {
    SetupSymbolsFrom(Lower(query), DefaultCryptoSymbols)
  }

  /** A setup always trades at least one default symbol, never twice, in
      the default order. */
  lemma SetupSymbolsFacts(query: string)
    ensures SetupSymbols(query) != []
    ensures NoDuplicates(SetupSymbols(query)) && Subsequence(SetupSymbols(query), DefaultCryptoSymbols)
    ensures forall s :: s in SetupSymbols(query) ==> s in DefaultCryptoSymbols
  {
    DefaultSymbolsDistinct();
    SetupSymbolsFromFacts(Lower(query), DefaultCryptoSymbols);
  }

  /** A default symbol is chosen exactly when the query names it, once it names any. */
  lemma SetupPicksMentioned(query: string)
    ensures (exists s :: s in DefaultCryptoSymbols && SetupMentions(Lower(query), s)) ==>
              forall s :: s in SetupSymbols(query) <==> s in DefaultCryptoSymbols && SetupMentions(Lower(query), s)
  {
    DefaultSymbolsDistinct();
    SetupSymbolsFromFacts(Lower(query), DefaultCryptoSymbols);
  }

  /** A query naming no default symbol trades BTC and ETH. */
  lemma SetupFallbackIsBtcEth(query: string)
    ensures (forall s :: s in DefaultCryptoSymbols ==> !SetupMentions(Lower(query), s)) ==>
              SetupSymbols(query) == ["BTCUSDT", "ETHUSDT"]
  {
    DefaultSymbolsDistinct();
    SetupSymbolsFromFacts(Lower(query), DefaultCryptoSymbols);
  }

  /** The loop of `_parse_setup_config` that collects the mentioned candidates. */
  method CollectMentioned(queryLower: string, candidates: seq<string>) returns (symbols: seq<string>)
    ensures symbols == MentionedSymbols(queryLower, candidates)
  {
    symbols := [];
    var i := 0;
    while i < |candidates|
      invariant 0 <= i <= |candidates|
      invariant symbols == MentionedSymbols(queryLower, candidates[..i])
    {
      var symbol := candidates[i];
      assert candidates[..i + 1][..i] == candidates[..i];
      if Contains(queryLower, Lower(symbol)) || Contains(queryLower, Lower(Base(symbol))) {
        symbols := symbols + [symbol];
      }
      i := i + 1;
    }
    assert candidates[..i] == candidates;
  }

  /** The symbol selection of `_parse_setup_config`. */
  method SelectSetupSymbols(query: string) returns (symbols: seq<string>)
    ensures symbols == SetupSymbols(query)
  {
    symbols := CollectMentioned(Lower(query), DefaultCryptoSymbols);
    if symbols == [] {
      symbols := DefaultCryptoSymbols[..2];
    }
  }

  // ==================== Routing ====================

  /** The handler `stream` sends a request to. */
  datatype Command = SetupSession | NoSession | Analyze | PortfolioStatus | ClosePosition | Performance | Help

  /** Position of a command in the order `stream` tests them. */
  function Order(c: Command): nat
  {
    match c
    case SetupSession => 0
    case NoSession => 1
    case Analyze => 2
    case PortfolioStatus => 3
    case ClosePosition => 4
    case Performance => 5
    case Help => 6
  }

  /** The keywords of each command occur in the lower-cased request. */
  predicate Triggers(lowerQuery: string, c: Command)
  {
    match c
    case SetupSession => Contains(lowerQuery, "setup") || Contains(lowerQuery, "initialize")
    case NoSession => false
    case Analyze => Contains(lowerQuery, "analyze") || Contains(lowerQuery, "signal")
    case PortfolioStatus => Contains(lowerQuery, "portfolio") || Contains(lowerQuery, "status")
    case ClosePosition => Contains(lowerQuery, "close") || Contains(lowerQuery, "exit")
    case Performance => Contains(lowerQuery, "performance") || Contains(lowerQuery, "history")
    case Help => false
  }

  /** The dispatch of `stream`: setup first whatever the session, then the
      missing-session reply, then the first command whose keywords occur,
      else help. */
  function Route(query: string, hasSession: bool): (c: Command)
    ensures Triggers(Lower(query), SetupSession) <==> c == SetupSession
    ensures c == NoSession <==> !Triggers(Lower(query), SetupSession) && !hasSession
    ensures c != NoSession && c != Help ==> Triggers(Lower(query), c)
    ensures hasSession ==> forall other :: Triggers(Lower(query), other) ==> Order(c) <= Order(other)
  {
    var q := Lower(query);
    if Contains(q, "setup") || Contains(q, "initialize") then SetupSession
    else if !hasSession then NoSession
    else if Contains(q, "analyze") || Contains(q, "signal") then Analyze
    else if Contains(q, "portfolio") || Contains(q, "status") then PortfolioStatus
    else if Contains(q, "close") || Contains(q, "exit") then ClosePosition
    else if Contains(q, "performance") || Contains(q, "history") then Performance
    else Help
  }

  /** Whether a session exists matters only to requests that are not setups. */
  lemma SessionMattersOnlyAfterSetup(query: string)
    ensures Route(query, true) == SetupSession <==> Route(query, false) == SetupSession
    ensures Route(query, false) in {SetupSession, NoSession}
    ensures Route(query, true) != NoSession
  {
  }

  // ==================== Sessions ====================

  datatype SetupError = NonPositiveCapital(capital: real)

  /** The agent's table of live sessions. */
  class TradingAgent {
    var sessions: map<string, Portfolio.PortfolioManager>

    constructor()
      ensures sessions == map[]
    {
      sessions := map[];
    }

    /** `_handle_setup`: build the session configuration from the request
        and register a fresh portfolio manager under `sessionId`, replacing
        any earlier one. `parsedCapital` is the amount the request states,
        if any; a configuration with capital not above 0 is rejected. */
    method HandleSetup(query: string, sessionId: string, parsedCapital: Option<real>)
      returns (r: Result<Portfolio.PortfolioManager, SetupError>)
      modifies this
      ensures var capital := if parsedCapital.Some? then parsedCapital.value else DefaultInitialCapital;
              && (r.Err? <==> capital <= 0.0)
              && (r.Err? ==> sessions == old(sessions) && r.error == NonPositiveCapital(capital))
              && (r.Ok? ==>
                    && fresh(r.value) && r.value.Valid()
                    && sessions == old(sessions)[sessionId := r.value]
                    && r.value.config == DefaultSessionConfig(sessionId, capital, SetupSymbols(query))
                    && ValidSessionConfig(r.value.config)
                    && r.value.positionManager.State() == Ledger.Empty(capital))
    {
      var capital := if parsedCapital.Some? then parsedCapital.value else DefaultInitialCapital;
      var symbols := SelectSetupSymbols(query);
      var config := DefaultSessionConfig(sessionId, capital, symbols);
      if !ValidSessionConfig(config) {
        return Err(NonPositiveCapital(capital));
      }
      var manager := new Portfolio.PortfolioManager(config, capital);
      sessions := sessions[sessionId := manager];
      r := Ok(manager);
    }
  }
}
