/** Performance analytics over closed positions: win/loss statistics, the
    maximum drawdown of an equity curve, the Sharpe ratio's guards and the
    statistics of a reporting period. */
module Performance {
  import opened Common
  import opened Models

  // ==================== Win/loss classification ====================

  /** The closed positions with a strictly positive P&L, in order: every
      winning trade of `cs`, as often as it occurs there, and nothing else. */
  function Winners(cs: seq<ClosedPosition>): (ws: seq<ClosedPosition>)
    ensures |ws| <= |cs|
    ensures forall c :: c in ws <==> c in cs && c.realizedPnl > 0.0
    ensures forall c :: multiset(ws)[c] == if c.realizedPnl > 0.0 then multiset(cs)[c] else 0
  {
    if cs == [] then []
    else
      assert cs == cs[..|cs| - 1] + [cs[|cs| - 1]];
      Winners(cs[..|cs| - 1]) + (if cs[|cs| - 1].realizedPnl > 0.0 then [cs[|cs| - 1]] else [])
  }

  /** The closed positions with a strictly negative P&L, in order: every
      losing trade of `cs`, as often as it occurs there, and nothing else. */
  function Losers(cs: seq<ClosedPosition>): (ls: seq<ClosedPosition>)
    ensures |ls| <= |cs|
    ensures forall c :: c in ls <==> c in cs && c.realizedPnl < 0.0
    ensures forall c :: multiset(ls)[c] == if c.realizedPnl < 0.0 then multiset(cs)[c] else 0
  {
    if cs == [] then []
    else
      assert cs == cs[..|cs| - 1] + [cs[|cs| - 1]];
      Losers(cs[..|cs| - 1]) + (if cs[|cs| - 1].realizedPnl < 0.0 then [cs[|cs| - 1]] else [])
  }

  /** A trade is never both a winner and a loser, and break-even trades are neither. */
  lemma WinnersAndLosersAtMostAll(cs: seq<ClosedPosition>)
    ensures |Winners(cs)| + |Losers(cs)| <= |cs|
    ensures (forall c :: c in cs ==> c.realizedPnl == 0.0) ==> Winners(cs) == [] && Losers(cs) == []
  {
    ClassifiedAtMostAll(cs);
  }

  lemma {:induction false} ClassifiedAtMostAll(cs: seq<ClosedPosition>)
    ensures |Winners(cs)| + |Losers(cs)| <= |cs|
  {
    if cs != [] {
      ClassifiedAtMostAll(cs[..|cs| - 1]);
    }
  }

  /** A sum of positive P&Ls is positive once there is one. */
  lemma {:induction false} SumOfGains(ws: seq<ClosedPosition>)
    requires forall c :: c in ws ==> c.realizedPnl > 0.0
    ensures SumRealizedPnl(ws) >= 0.0
    ensures ws != [] ==> SumRealizedPnl(ws) > 0.0
  {
    if ws != [] {
      assert forall c :: c in ws[..|ws| - 1] ==> c in ws;
      SumOfGains(ws[..|ws| - 1]);
    }
  }

  /** A sum of negative P&Ls is negative once there is one. */
  lemma {:induction false} SumOfLosses(ls: seq<ClosedPosition>)
    requires forall c :: c in ls ==> c.realizedPnl < 0.0
    ensures SumRealizedPnl(ls) <= 0.0
    ensures ls != [] ==> SumRealizedPnl(ls) < 0.0
  {
    if ls != [] {
      assert forall c :: c in ls[..|ls| - 1] ==> c in ls;
      SumOfLosses(ls[..|ls| - 1]);
    }
  }

  /** Python's `max` of the P&Ls of a non-empty list. */
  function MaxPnl(cs: seq<ClosedPosition>): (m: real)
    requires cs != []
    ensures forall c :: c in cs ==> c.realizedPnl <= m
    ensures exists c :: c in cs && c.realizedPnl == m
  {
    if |cs| == 1 then cs[0].realizedPnl
    else
      assert forall c :: c in cs ==> c in cs[..|cs| - 1] || c == cs[|cs| - 1];
      Max(MaxPnl(cs[..|cs| - 1]), cs[|cs| - 1].realizedPnl)
  }

  /** Python's `min` of the P&Ls of a non-empty list. */
  function MinPnl(cs: seq<ClosedPosition>): (m: real)
    requires cs != []
    ensures forall c :: c in cs ==> m <= c.realizedPnl
    ensures exists c :: c in cs && c.realizedPnl == m
  {
    if |cs| == 1 then cs[0].realizedPnl
    else
      assert forall c :: c in cs ==> c in cs[..|cs| - 1] || c == cs[|cs| - 1];
      Min(MinPnl(cs[..|cs| - 1]), cs[|cs| - 1].realizedPnl)
  }

  /** Every P&L at most `b` makes the sum at most `b` per trade. */
  lemma {:induction false} SumAtMostBound(cs: seq<ClosedPosition>, b: real)
    requires forall c :: c in cs ==> c.realizedPnl <= b
    ensures SumRealizedPnl(cs) <= b * |cs| as real
  {
    if cs != [] {
      var init := cs[..|cs| - 1];
      assert forall c :: c in init ==> c in cs;
      SumAtMostBound(init, b);
      assert b * |cs| as real == b * |init| as real + b;
    }
  }

  /** Every P&L at least `b` makes the sum at least `b` per trade. */
  lemma {:induction false} SumAtLeastBound(cs: seq<ClosedPosition>, b: real)
    requires forall c :: c in cs ==> b <= c.realizedPnl
    ensures b * |cs| as real <= SumRealizedPnl(cs)
  {
    if cs != [] {
      var init := cs[..|cs| - 1];
      assert forall c :: c in init ==> c in cs;
      SumAtLeastBound(init, b);
      assert b * |cs| as real == b * |init| as real + b;
    }
  }

  /** Dividing by a positive count keeps the order against `b` and the sign. */
  lemma MeanBounds(b: real, sum: real, n: real)
    requires n > 0.0
    ensures b * n <= sum ==> b <= sum / n
    ensures sum <= b * n ==> sum / n <= b
    ensures sum > 0.0 ==> sum / n > 0.0
    ensures sum < 0.0 ==> sum / n < 0.0
  {
    var q := sum / n;
    assert q * n == sum;
    if b * n <= sum {
      assert (b - q) * n <= 0.0;
    }
    if sum <= b * n {
      assert (q - b) * n <= 0.0;
    }
  }

  /** A ratio of a non-negative amount to a positive one, as Python's `/` gives it. */
  lemma RatioFacts(a: real, b: real)
    ensures b != 0.0 ==> (a / b) * b == a
    ensures b > 0.0 && a >= 0.0 ==> a / b >= 0.0
    ensures b > 0.0 && 0.0 <= a <= b ==> a / b <= 1.0
  {
    if b != 0.0 {
      var q := a / b;
      assert q * b == a;
    }
    if b > 0.0 {
      var q := a / b;
      if 0.0 <= a <= b {
        assert (q - 1.0) * b <= 0.0;
      }
    }
  }

  /** Total holding time in hours. */
  function SumHoldingDuration(cs: seq<ClosedPosition>): real
  {
    if cs == [] then 0.0 else SumHoldingDuration(cs[..|cs| - 1]) + cs[|cs| - 1].holdingDuration
  }

  /** The dictionary `calculate_statistics` returns. The empty-history
      dictionary has no `avg_holding_time` key; it is 0 here. */
  datatype Statistics = Statistics(
    totalTrades: nat,
    winningTrades: nat,
    losingTrades: nat,
    winRate: real,
    avgWin: real,
    avgLoss: real,
    profitFactor: real,
    largestWin: real,
    largestLoss: real,
    avgHoldingTime: real)

  function ZeroStatistics(): Statistics
  {
    Statistics(0, 0, 0, 0.0, 0.0, 0.0, 0.0, 0.0, 0.0, 0.0)
  }

  /** The mean of a non-empty group's P&L, and its extreme, or 0 and 0 for an empty group. */
  function GroupMean(cs: seq<ClosedPosition>): real
  {
    if cs == [] then 0.0 else SumRealizedPnl(cs) / |cs| as real
  }

  /** The share of winning trades, 0 without trades. */
  function WinRate(wins: nat, total: nat): (r: real)
    ensures wins <= total ==> 0.0 <= r <= 1.0
    ensures total > 0 ==> r * total as real == wins as real
  {
    RatioFacts(wins as real, total as real);
    if total > 0 then wins as real / total as real else 0.0
  }

  /** Gross profit over gross loss, 0 without losses. */
  function ProfitFactor(totalWins: real, totalLosses: real): (r: real)
    ensures totalWins >= 0.0 ==> r >= 0.0
    ensures totalLosses > 0.0 ==> r * totalLosses == totalWins
    ensures totalLosses <= 0.0 ==> r == 0.0
  {
    RatioFacts(totalWins, totalLosses);
    if totalLosses > 0.0 then totalWins / totalLosses else 0.0
  }

  /** `calculate_statistics` over a list of closed positions. */
  function StatisticsOf(cs: seq<ClosedPosition>): (st: Statistics)
    ensures st.totalTrades == |cs| && st.winningTrades + st.losingTrades <= |cs|
    ensures 0.0 <= st.winRate <= 1.0
  {
    ClassifiedAtMostAll(cs);
    if cs == [] then ZeroStatistics()
    else
      var ws := Winners(cs);
      var ls := Losers(cs);
      Statistics(
        |cs|, |ws|, |ls|,
        WinRate(|ws|, |cs|),
        GroupMean(ws),
        GroupMean(ls),
        ProfitFactor(SumRealizedPnl(ws), Abs(SumRealizedPnl(ls))),
        LargestWin(ws),
        LargestLoss(ls),
        SumHoldingDuration(cs) / |cs| as real)
  }

  /** An empty history gives all zeros. Otherwise the win and loss counts are
      those of `Winners` and `Losers` (the trades with positive and negative
      P&L), the largest win and loss are the extreme P&Ls among them, the win
      rate is a fraction, the profit factor is never
      negative (and 0 without losses), the average win is positive and at most
      the largest win, and the average loss is negative and at least the
      largest loss; an absent group gives zeros. */
  lemma StatisticsBounds(cs: seq<ClosedPosition>)
    ensures var st := StatisticsOf(cs);
      && (cs == [] ==> st == ZeroStatistics())
      && st.totalTrades == |cs| && st.winningTrades == |Winners(cs)| && st.losingTrades == |Losers(cs)|
      && st.winningTrades + st.losingTrades <= st.totalTrades
      && 0.0 <= st.winRate <= 1.0
      && st.profitFactor >= 0.0
      && (st.winningTrades > 0 ==> 0.0 < st.avgWin <= st.largestWin)
      && (st.winningTrades == 0 ==> st.avgWin == 0.0 && st.largestWin == 0.0)
      && (st.losingTrades > 0 ==> st.largestLoss <= st.avgLoss < 0.0)
      && (st.losingTrades == 0 ==> st.avgLoss == 0.0 && st.largestLoss == 0.0 && st.profitFactor == 0.0)
      && (forall c :: c in cs && c.realizedPnl > 0.0 ==> c.realizedPnl <= st.largestWin)
      && (st.winningTrades > 0 ==> exists c :: c in cs && c.realizedPnl == st.largestWin)
      && (forall c :: c in cs && c.realizedPnl < 0.0 ==> st.largestLoss <= c.realizedPnl)
      && (st.losingTrades > 0 ==> exists c :: c in cs && c.realizedPnl == st.largestLoss)
  {
    if cs != [] {
      WinnersAndLosersAtMostAll(cs);
      SumOfGains(Winners(cs));
      SumOfLosses(Losers(cs));
      if Winners(cs) != [] {
        AverageWinAtMostLargest(Winners(cs));
      }
      if Losers(cs) != [] {
        AverageLossAtLeastLargest(Losers(cs));
      }
    }
  }

  /** `max(..., default=0.0)` over the winners: the largest winning P&L. */
  function LargestWin(ws: seq<ClosedPosition>): (m: real)
    ensures ws == [] ==> m == 0.0
    ensures forall c :: c in ws ==> c.realizedPnl <= m
    ensures ws != [] ==> exists c :: c in ws && c.realizedPnl == m
  {
    if ws == [] then 0.0 else MaxPnl(ws)
  }

  /** `min(..., default=0.0)` over the losers: the smallest losing P&L. */
  function LargestLoss(ls: seq<ClosedPosition>): (m: real)
    ensures ls == [] ==> m == 0.0
    ensures forall c :: c in ls ==> m <= c.realizedPnl
    ensures ls != [] ==> exists c :: c in ls && c.realizedPnl == m
  {
    if ls == [] then 0.0 else MinPnl(ls)
  }

  /** The average win is positive and never above the largest win. */
  lemma AverageWinAtMostLargest(ws: seq<ClosedPosition>)
    requires ws != [] && forall c :: c in ws ==> c.realizedPnl > 0.0
    ensures 0.0 < GroupMean(ws) <= LargestWin(ws)
  {
    MeanAtMost(ws, LargestWin(ws));
    SumOfGains(ws);
    MeanBounds(0.0, SumRealizedPnl(ws), |ws| as real);
  }

  /** The average loss is negative and never below the largest loss. */
  lemma AverageLossAtLeastLargest(ls: seq<ClosedPosition>)
    requires ls != [] && forall c :: c in ls ==> c.realizedPnl < 0.0
    ensures LargestLoss(ls) <= GroupMean(ls) < 0.0
  {
    MeanAtLeast(ls, LargestLoss(ls));
    SumOfLosses(ls);
    MeanBounds(0.0, SumRealizedPnl(ls), |ls| as real);
  }

  /** A lower bound on every P&L bounds their mean. */
  lemma MeanAtLeast(cs: seq<ClosedPosition>, b: real)
    requires cs != [] && forall c :: c in cs ==> b <= c.realizedPnl
    ensures b <= GroupMean(cs)
  {
    SumAtLeastBound(cs, b);
    MeanBounds(b, SumRealizedPnl(cs), |cs| as real);
  }

  /** An upper bound on every P&L bounds their mean. */
  lemma MeanAtMost(cs: seq<ClosedPosition>, b: real)
    requires cs != [] && forall c :: c in cs ==> c.realizedPnl <= b
    ensures GroupMean(cs) <= b
  {
    SumAtMostBound(cs, b);
    MeanBounds(b, SumRealizedPnl(cs), |cs| as real);
  }

  // ==================== Maximum drawdown ====================

  /** The running peak of the curve up to and including index `i`. */
  function RunningPeak(curve: seq<real>, i: nat): (p: real)
    requires i < |curve|
    ensures forall j :: 0 <= j <= i ==> curve[j] <= p
  {
    if i == 0 then curve[0] else Max(RunningPeak(curve, i - 1), curve[i])
  }

  /** Drawdown from the running peak at index `i`. */
  function DrawdownAt(curve: seq<real>, i: nat): (d: real)
    requires i < |curve|
    ensures d >= 0.0
  {
    RunningPeak(curve, i) - curve[i]
  }

  /** That drawdown as a percentage of the peak, or 0 when the peak is not positive. */
  function DrawdownPctAt(curve: seq<real>, i: nat): real
    requires i < |curve|
  {
    var peak := RunningPeak(curve, i);
    if peak > 0.0 then DrawdownAt(curve, i) / peak * 100.0 else 0.0
  }

  /** The walk of `calculate_max_drawdown` over the first `n` values: the
      largest drawdown so far and its percentage, replaced only on a strictly
      larger drawdown. */
  function DrawdownUpTo(curve: seq<real>, n: nat): (real, real)
    requires n <= |curve|
  {
    if n == 0 then (0.0, 0.0)
    else
      var prev := DrawdownUpTo(curve, n - 1);
      if DrawdownAt(curve, n - 1) > prev.0 then (DrawdownAt(curve, n - 1), DrawdownPctAt(curve, n - 1))
      else prev
  }

  function MaxDrawdown(curve: seq<real>): (real, real)
  {
    DrawdownUpTo(curve, |curve|)
  }

  /** Index `i` is the first one where the drawdown reaches `m`. */
  predicate FirstDrawdownOf(curve: seq<real>, i: nat, m: real)
    requires i < |curve|
  {
    DrawdownAt(curve, i) == m && forall j :: 0 <= j < i ==> DrawdownAt(curve, j) < m
  }

  /** The walk finds the largest drawdown, and reports the percentage taken at
      the first index where that drawdown occurs. */
  lemma {:induction false} DrawdownUpToIsFirstMaximum(curve: seq<real>, n: nat)
    requires n <= |curve|
    ensures var (m, pct) := DrawdownUpTo(curve, n);
      && m >= 0.0
      && (forall i :: 0 <= i < n ==> DrawdownAt(curve, i) <= m)
      && (m == 0.0 ==> pct == 0.0)
      && (m > 0.0 ==> exists i :: 0 <= i < n && FirstDrawdownOf(curve, i, m) && pct == DrawdownPctAt(curve, i))
  {
    if n > 0 {
      DrawdownUpToIsFirstMaximum(curve, n - 1);
      var (m, pct) := DrawdownUpTo(curve, n - 1);
      if DrawdownAt(curve, n - 1) > m {
        assert FirstDrawdownOf(curve, n - 1, DrawdownAt(curve, n - 1));
      } else if m > 0.0 {
        var i :| 0 <= i < n - 1 && FirstDrawdownOf(curve, i, m) && pct == DrawdownPctAt(curve, i);
        assert 0 <= i < n && FirstDrawdownOf(curve, i, m);
      }
    }
  }

  /** On a curve that never falls the running peak is the current value. */
  lemma {:induction false} PeakOfNonDecreasing(curve: seq<real>, i: nat)
    requires i < |curve|
    requires forall a, b :: 0 <= a <= b < |curve| ==> curve[a] <= curve[b]
    ensures RunningPeak(curve, i) == curve[i]
  {
    if i > 0 {
      PeakOfNonDecreasing(curve, i - 1);
    }
  }

  /** On a curve that never falls there is no drawdown. */
  lemma NonDecreasingCurveHasNoDrawdown(curve: seq<real>)
    requires forall i, j :: 0 <= i <= j < |curve| ==> curve[i] <= curve[j]
    ensures MaxDrawdown(curve) == (0.0, 0.0)
  {
    DrawdownUpToIsFirstMaximum(curve, |curve|);
    forall i | 0 <= i < |curve|
      ensures DrawdownAt(curve, i) == 0.0
    {
      PeakOfNonDecreasing(curve, i);
    }
  }

  /** `calculate_max_drawdown`: walks the curve tracking the running peak. */
  method CalculateMaxDrawdown(equityCurve: seq<real>) returns (maxDd: real, maxDdPct: real)
    ensures (maxDd, maxDdPct) == MaxDrawdown(equityCurve)
  {
    if equityCurve == [] {
      return 0.0, 0.0;
    }
    var peak := equityCurve[0];
    maxDd, maxDdPct := 0.0, 0.0;
    var i := 0;
    while i < |equityCurve|
      invariant 0 <= i <= |equityCurve|
      invariant peak == RunningPeak(equityCurve, if i == 0 then 0 else i - 1)
      invariant (maxDd, maxDdPct) == DrawdownUpTo(equityCurve, i)
    {
      var value := equityCurve[i];
      if value > peak {
        peak := value;
      }
      assert peak == RunningPeak(equityCurve, i);
      var dd := peak - value;
      var ddPct := if peak > 0.0 then dd / peak * 100.0 else 0.0;
      if dd > maxDd {
        maxDd := dd;
        maxDdPct := ddPct;
      }
      i := i + 1;
    }
  }

  // ==================== Sharpe ratio ====================

  function Sum(xs: seq<real>): real
  {
    if xs == [] then 0.0 else Sum(xs[..|xs| - 1]) + xs[|xs| - 1]
  }

  function Mean(xs: seq<real>): real
    requires xs != []
  {
    Sum(xs) / |xs| as real
  }

  function SumSquaredDeviations(xs: seq<real>, mean: real): real
  {
    if xs == [] then 0.0
    else SumSquaredDeviations(xs[..|xs| - 1], mean) + (xs[|xs| - 1] - mean) * (xs[|xs| - 1] - mean)
  }

  /** `statistics.variance`: the sample variance, over n - 1. */
  function SampleVariance(xs: seq<real>): real
    requires |xs| >= 2
  {
    SumSquaredDeviations(xs, Mean(xs)) / (|xs| - 1) as real
  }

  /** `calculate_sharpe_ratio`. The standard deviation is the square root of
      the sample variance, which `sqrt` stands for. */
  function CalculateSharpeRatio(stepReturns: seq<real>, riskFreeRate: real, sqrt: real -> real): (r: real)
    ensures |stepReturns| < 2 ==> r == 0.0
    ensures |stepReturns| >= 2 && sqrt(SampleVariance(stepReturns)) == 0.0 ==> r == 0.0
    ensures |stepReturns| >= 2 && sqrt(SampleVariance(stepReturns)) != 0.0 ==>
      r * sqrt(SampleVariance(stepReturns)) == Mean(stepReturns) - riskFreeRate
  {
    if |stepReturns| < 2 then 0.0
    else
      var stdReturn := sqrt(SampleVariance(stepReturns));
      if stdReturn == 0.0 then 0.0 else (Mean(stepReturns) - riskFreeRate) / stdReturn
  }

  lemma {:induction false} SumOfConstant(xs: seq<real>, c: real)
    requires forall i :: 0 <= i < |xs| ==> xs[i] == c
    ensures Sum(xs) == |xs| as real * c
  {
    if xs != [] {
      SumOfConstant(xs[..|xs| - 1], c);
    }
  }

  lemma {:induction false} NoDeviationFromConstant(xs: seq<real>, c: real)
    requires forall i :: 0 <= i < |xs| ==> xs[i] == c
    ensures SumSquaredDeviations(xs, c) == 0.0
  {
    if xs != [] {
      NoDeviationFromConstant(xs[..|xs| - 1], c);
    }
  }

  /** Identical returns have no spread, so the ratio is guarded to 0. */
  lemma ConstantReturnsHaveZeroSharpe(stepReturns: seq<real>, riskFreeRate: real, sqrt: real -> real)
    requires sqrt(0.0) == 0.0
    requires forall i :: 0 <= i < |stepReturns| ==> stepReturns[i] == stepReturns[0]
    ensures CalculateSharpeRatio(stepReturns, riskFreeRate, sqrt) == 0.0
  {
    if |stepReturns| >= 2 {
      SumOfConstant(stepReturns, stepReturns[0]);
      assert Mean(stepReturns) == stepReturns[0];
      NoDeviationFromConstant(stepReturns, stepReturns[0]);
    }
  }

  // ==================== Period statistics ====================

  /** The closed positions with `start <= closedAt <= end`, in order. */
  function InPeriod(cs: seq<ClosedPosition>, start: Timestamp, end: Timestamp): (ps: seq<ClosedPosition>)
    ensures forall c :: c in ps <==> c in cs && start <= c.closedAt <= end
  {
    if cs == [] then []
    else
      var last := cs[|cs| - 1];
      assert forall c :: c in cs <==> c in cs[..|cs| - 1] || c == last;
      InPeriod(cs[..|cs| - 1], start, end) + (if start <= last.closedAt <= end then [last] else [])
  }

  predicate SortedByClosedAt(cs: seq<ClosedPosition>)
  {
    forall i, j :: 0 <= i < j < |cs| ==> cs[i].closedAt <= cs[j].closedAt
  }

  /** Inserts `c` after every element that closed no later than it, so equal
      keys keep their order as Python's stable `sorted` does. */
  function InsertByClosedAt(sorted: seq<ClosedPosition>, c: ClosedPosition): (r: seq<ClosedPosition>)
    requires SortedByClosedAt(sorted)
    ensures |r| == |sorted| + 1
    ensures forall x :: x in r <==> x in sorted || x == c
    ensures SortedByClosedAt(r)
    ensures multiset(r) == multiset(sorted) + multiset{c}
  {
    if sorted == [] || sorted[|sorted| - 1].closedAt <= c.closedAt then sorted + [c]
    else
      var init := sorted[..|sorted| - 1];
      var last := sorted[|sorted| - 1];
      assert sorted == init + [last];
      assert forall i :: 0 <= i < |init| ==> init[i].closedAt <= last.closedAt;
      var r := InsertByClosedAt(init, c);
      assert forall i :: 0 <= i < |r| ==> r[i].closedAt <= last.closedAt by {
        forall i | 0 <= i < |r| ensures r[i].closedAt <= last.closedAt {
          assert r[i] in r;
        }
      }
      r + [last]
  }

  lemma {:induction false} InsertKeepsSum(sorted: seq<ClosedPosition>, c: ClosedPosition)
    requires SortedByClosedAt(sorted)
    ensures SumRealizedPnl(InsertByClosedAt(sorted, c)) == SumRealizedPnl(sorted) + c.realizedPnl
  {
    if sorted == [] || sorted[|sorted| - 1].closedAt <= c.closedAt {
      SumRealizedPnlAppend(sorted, c);
    } else {
      var init := sorted[..|sorted| - 1];
      var last := sorted[|sorted| - 1];
      assert sorted == init + [last];
      InsertKeepsSum(init, c);
      SumRealizedPnlAppend(InsertByClosedAt(init, c), last);
      SumRealizedPnlAppend(init, last);
    }
  }

  /** `sorted(positions, key=lambda x: x.closed_at)`: ordered by closing time,
      and a permutation of its input; `SortIsStable` shows that equal times
      keep their order. */
  function SortByClosedAt(cs: seq<ClosedPosition>): (r: seq<ClosedPosition>)
    ensures |r| == |cs|
    ensures SortedByClosedAt(r)
    ensures multiset(r) == multiset(cs)
  {
    if cs == [] then []
    else
      assert cs == cs[..|cs| - 1] + [cs[|cs| - 1]];
      InsertByClosedAt(SortByClosedAt(cs[..|cs| - 1]), cs[|cs| - 1])
  }

  /** The trades that closed at time `t`, in their order in `cs`. */
  function ClosedAtTime(cs: seq<ClosedPosition>, t: Timestamp): seq<ClosedPosition>
  {
    if cs == [] then []
    else
      var last := cs[|cs| - 1];
      ClosedAtTime(cs[..|cs| - 1], t) + (if last.closedAt == t then [last] else [])
  }

  lemma ClosedAtTimeAppend(cs: seq<ClosedPosition>, c: ClosedPosition, t: Timestamp)
    ensures ClosedAtTime(cs + [c], t) == ClosedAtTime(cs, t) + (if c.closedAt == t then [c] else [])
  {
    assert (cs + [c])[..|cs|] == cs;
  }

  /** Insertion is stable: among trades closed at the same time, `c` comes
      after every trade already in the list. */
  lemma {:induction false} InsertIsStable(sorted: seq<ClosedPosition>, c: ClosedPosition, t: Timestamp)
    requires SortedByClosedAt(sorted)
    ensures ClosedAtTime(InsertByClosedAt(sorted, c), t)
            == ClosedAtTime(sorted, t) + (if c.closedAt == t then [c] else [])
  {
    if sorted == [] || sorted[|sorted| - 1].closedAt <= c.closedAt {
      ClosedAtTimeAppend(sorted, c, t);
    } else {
      var init := sorted[..|sorted| - 1];
      var last := sorted[|sorted| - 1];
      assert sorted == init + [last];
      var ins := InsertByClosedAt(init, c);
      assert InsertByClosedAt(sorted, c) == ins + [last];
      InsertIsStable(init, c, t);
      InsertPastLast(init, ins, last, c, t);
    }
  }

  /** The step of `InsertIsStable` where `c` goes before `last`. */
  lemma InsertPastLast(init: seq<ClosedPosition>, ins: seq<ClosedPosition>, last: ClosedPosition,
                       c: ClosedPosition, t: Timestamp)
    requires c.closedAt < last.closedAt
    requires ClosedAtTime(ins, t) == ClosedAtTime(init, t) + (if c.closedAt == t then [c] else [])
    ensures ClosedAtTime(ins + [last], t)
            == ClosedAtTime(init + [last], t) + (if c.closedAt == t then [c] else [])
  {
    var atC: seq<ClosedPosition> := if c.closedAt == t then [c] else [];
    var atLast: seq<ClosedPosition> := if last.closedAt == t then [last] else [];
    // at most one of `c` and `last` closed at time `t`
    assert atC + atLast == atLast + atC;
    ClosedAtTimeAppend(ins, last, t);
    ClosedAtTimeAppend(init, last, t);
    assert ClosedAtTime(ins + [last], t) == ClosedAtTime(init, t) + atC + atLast;
  }

  /** The sort is stable, as Python's `sorted` is: trades that closed at the
      same time keep their relative order. */
  lemma {:induction false} SortIsStable(cs: seq<ClosedPosition>, t: Timestamp)
    ensures ClosedAtTime(SortByClosedAt(cs), t) == ClosedAtTime(cs, t)
  {
    if cs != [] {
      var init := cs[..|cs| - 1];
      var last := cs[|cs| - 1];
      SortIsStable(init, t);
      InsertIsStable(SortByClosedAt(init), last, t);
    }
  }

  /** Reordering the trades does not change their total. */
  lemma {:induction false} SortKeepsSum(cs: seq<ClosedPosition>)
    ensures SumRealizedPnl(SortByClosedAt(cs)) == SumRealizedPnl(cs)
  {
    if cs != [] {
      var init, last := cs[..|cs| - 1], cs[|cs| - 1];
      var sortedInit := SortByClosedAt(init);
      assert SortByClosedAt(cs) == InsertByClosedAt(sortedInit, last);
      SortKeepsSum(init);
      InsertKeepsSum(sortedInit, last);
      assert SumRealizedPnl(cs) == SumRealizedPnl(init) + last.realizedPnl;
    }
  }

  /** The equity curve: the initial capital, then the running total after each trade. */
  function EquityCurve(initialCapital: real, ps: seq<ClosedPosition>): (curve: seq<real>)
    ensures |curve| == |ps| + 1 && curve[0] == initialCapital
    ensures forall i :: 0 <= i < |ps| ==> curve[i + 1] == curve[i] + ps[i].realizedPnl
    ensures curve[|ps|] == initialCapital + SumRealizedPnl(ps)
  {
    if ps == [] then [initialCapital]
    else
      var prev := EquityCurve(initialCapital, ps[..|ps| - 1]);
      prev + [prev[|prev| - 1] + ps[|ps| - 1].realizedPnl]
  }

  /** `x` is the return of a step from `from` to `to`. */
  predicate IsStepReturn(x: real, from: real, to: real)
  {
    x * from == to - from
  }

  /** The per-step returns of the curve, or None when a step starts from zero
      equity (where the division raises). */
  function Returns(curve: seq<real>): (r: Option<seq<real>>)
    ensures r.None? <==> exists i :: 0 <= i < |curve| - 1 && curve[i] == 0.0
    ensures r.Some? ==> |r.value| == MaxInt(|curve| - 1, 0)
    ensures r.Some? ==> forall i :: 0 <= i < |r.value| ==> IsStepReturn(r.value[i], curve[i], curve[i + 1])
  {
    if |curve| <= 1 then Some([])
    else
      var n := |curve|;
      var prev := Returns(curve[..n - 1]);
      assert forall i :: 0 <= i < n - 2 ==> curve[..n - 1][i] == curve[i];
      if prev.None? then None
      else if curve[n - 2] == 0.0 then None
      else
        RatioFacts(curve[n - 1] - curve[n - 2], curve[n - 2]);
        Some(prev.value + [(curve[n - 1] - curve[n - 2]) / curve[n - 2]])
  }

  /** The record `get_trading_statistics` returns. */
  datatype TradingStatistics = TradingStatistics(
    sessionId: string,
    periodStart: Timestamp,
    periodEnd: Timestamp,
    totalTrades: nat,
    winningTrades: nat,
    losingTrades: nat,
    winRate: real,
    totalPnl: real,
    avgWin: real,
    avgLoss: real,
    largestWin: real,
    largestLoss: real,
    profitFactor: real,
    maxDrawdown: real,
    maxDrawdownPct: real,
    sharpeRatio: Option<real>,
    avgHoldingTime: real)

  /** The record with every field at its default. */
  function EmptyTradingStatistics(sessionId: string, start: Timestamp, end: Timestamp): TradingStatistics
  {
    TradingStatistics(sessionId, start, end, 0, 0, 0, 0.0, 0.0, 0.0, 0.0, 0.0, 0.0, 0.0, 0.0, 0.0, None, 0.0)
  }

  /** A step of the equity curve starts from zero equity. */
  datatype AnalyticsError = ZeroEquityStep

  /** What `get_trading_statistics` returns for the period, given the
      session's closed positions. */
  function PeriodStatistics(cfg: SessionConfig, cs: seq<ClosedPosition>, start: Timestamp, end: Timestamp,
                            sqrt: real -> real): (r: Result<TradingStatistics, AnalyticsError>)
    ensures InPeriod(cs, start, end) == [] ==> r.Ok? && r.value.totalTrades == 0
    ensures r.Ok? ==> r.value.sessionId == cfg.sessionId && r.value.periodStart == start && r.value.periodEnd == end
  {
    var period := InPeriod(cs, start, end);
    if period == [] then Ok(EmptyTradingStatistics(cfg.sessionId, start, end))
    else
      var stats := StatisticsOf(cs);
      var curve := EquityCurve(cfg.initialCapital, SortByClosedAt(period));
      var (maxDd, maxDdPct) := MaxDrawdown(curve);
      var stepReturns := Returns(curve);
      if stepReturns.None? then Err(ZeroEquityStep)
      else
        Ok(TradingStatistics(cfg.sessionId, start, end, stats.totalTrades, stats.winningTrades, stats.losingTrades,
                             stats.winRate, SumRealizedPnl(period), stats.avgWin, stats.avgLoss, stats.largestWin,
                             stats.largestLoss, stats.profitFactor, maxDd, maxDdPct,
                             Some(CalculateSharpeRatio(stepReturns.value, 0.02, sqrt)), stats.avgHoldingTime))
  }

  /** With no closed position in the period the record is all defaults;
      otherwise the division error happens exactly when some step of the
      period's equity curve starts from zero. */
  lemma PeriodStatisticsFacts(cfg: SessionConfig, cs: seq<ClosedPosition>, start: Timestamp, end: Timestamp,
                              sqrt: real -> real)
    ensures var period := InPeriod(cs, start, end);
      var r := PeriodStatistics(cfg, cs, start, end, sqrt);
      var curve := EquityCurve(cfg.initialCapital, SortByClosedAt(period));
      && (period == [] ==> r == Ok(EmptyTradingStatistics(cfg.sessionId, start, end)))
      && (period != [] ==> (r.Err? <==> exists i :: 0 <= i < |period| && curve[i] == 0.0))
  {
    var period := InPeriod(cs, start, end);
    if period != [] {
      var curve := EquityCurve(cfg.initialCapital, SortByClosedAt(period));
      PeriodCurveEnds(cfg, cs, start, end);
      assert PeriodStatistics(cfg, cs, start, end, sqrt).Err? <==> Returns(curve).None?;
      assert |curve| - 1 == |period|;
    }
  }

  /** A computed record carries the period's P&L, the statistics of the
      whole history, the drawdown of the period's sorted equity curve (never
      negative) and the Sharpe ratio of that curve's step returns. */
  lemma PeriodStatisticsOk(cfg: SessionConfig, cs: seq<ClosedPosition>, start: Timestamp, end: Timestamp,
                           sqrt: real -> real)
    requires InPeriod(cs, start, end) != [] && PeriodStatistics(cfg, cs, start, end, sqrt).Ok?
    ensures var r := PeriodStatistics(cfg, cs, start, end, sqrt).value;
      && r.totalPnl == SumRealizedPnl(InPeriod(cs, start, end))
      && r.totalTrades == |cs|
      && r.maxDrawdown >= 0.0
      && r.sharpeRatio.Some?
      && var curve := EquityCurve(cfg.initialCapital, SortByClosedAt(InPeriod(cs, start, end)));
         var st := StatisticsOf(cs);
         && (r.maxDrawdown, r.maxDrawdownPct) == MaxDrawdown(curve)
         && r.sharpeRatio == Some(CalculateSharpeRatio(Returns(curve).value, 0.02, sqrt))
         && r.winningTrades == st.winningTrades && r.losingTrades == st.losingTrades
         && r.winRate == st.winRate && r.avgWin == st.avgWin && r.avgLoss == st.avgLoss
         && r.largestWin == st.largestWin && r.largestLoss == st.largestLoss
         && r.profitFactor == st.profitFactor && r.avgHoldingTime == st.avgHoldingTime
  {
    var curve := EquityCurve(cfg.initialCapital, SortByClosedAt(InPeriod(cs, start, end)));
    DrawdownUpToIsFirstMaximum(curve, |curve|);
  }

  /** The period's equity curve has one point per closed position plus the
      start, and ends at the initial capital plus the period's P&L. */
  lemma PeriodCurveEnds(cfg: SessionConfig, cs: seq<ClosedPosition>, start: Timestamp, end: Timestamp)
    ensures var period := InPeriod(cs, start, end);
      var curve := EquityCurve(cfg.initialCapital, SortByClosedAt(period));
      && |curve| == |period| + 1
      && curve[|period|] == cfg.initialCapital + SumRealizedPnl(period)
  {
    SortKeepsSum(InPeriod(cs, start, end));
  }


  /** The equity-curve loop of `get_trading_statistics`. */
  method BuildEquityCurve(initialCapital: real, ordered: seq<ClosedPosition>) returns (equityCurve: seq<real>)
    ensures equityCurve == EquityCurve(initialCapital, ordered)
  {
    equityCurve := [initialCapital];
    var currentEquity := initialCapital;
    var i := 0;
    while i < |ordered|
      invariant 0 <= i <= |ordered|
      invariant equityCurve == EquityCurve(initialCapital, ordered[..i])
      invariant currentEquity == equityCurve[i]
    {
      ghost var prefix := ordered[..i + 1];
      assert prefix[..i] == ordered[..i] && prefix[i] == ordered[i];
      currentEquity := currentEquity + ordered[i].realizedPnl;
      equityCurve := equityCurve + [currentEquity];
      assert equityCurve == EquityCurve(initialCapital, prefix);
      i := i + 1;
    }
    assert ordered[..i] == ordered;
  }

  /** The returns loop of `get_trading_statistics`; None where a step would
      divide by zero equity. */
  method StepReturns(equityCurve: seq<real>) returns (r: Option<seq<real>>)
    requires equityCurve != []
    ensures r == Returns(equityCurve)
  {
    var stepReturns: seq<real> := [];
    var k := 1;
    while k < |equityCurve|
      invariant 1 <= k <= |equityCurve|
      invariant Returns(equityCurve[..k]) == Some(stepReturns)
    {
      assert equityCurve[..k + 1][..k] == equityCurve[..k];
      if equityCurve[k - 1] == 0.0 {
        assert Returns(equityCurve).None?;
        return None;
      }
      stepReturns := stepReturns + [(equityCurve[k] - equityCurve[k - 1]) / equityCurve[k - 1]];
      k := k + 1;
    }
    assert equityCurve[..k] == equityCurve;
    return Some(stepReturns);
  }

  // ==================== The analytics object ====================

  /** `PerformanceAnalytics`: keeps its own list of closed positions, which
      only `add_closed_position` appends to. */
  class PerformanceAnalytics {
    const config: SessionConfig
    var closedPositions: seq<ClosedPosition>

    constructor(cfg: SessionConfig)
      ensures config == cfg && closedPositions == []
    {
      config := cfg;
      closedPositions := [];
    }

    method AddClosedPosition(position: ClosedPosition)
      modifies this
      ensures closedPositions == old(closedPositions) + [position]
    {
      closedPositions := closedPositions + [position];
    }

    /** `calculate_statistics` over the recorded history. */
    function CalculateStatistics(): (st: Statistics)
      reads this
      ensures st == StatisticsOf(closedPositions)
      ensures st.totalTrades == |closedPositions|
    {
      StatisticsOf(closedPositions)
    }

    /** `get_trading_statistics`: filters the period, builds the equity curve
        in closing order, takes its drawdown and per-step returns, and reports
        the Sharpe ratio of those returns. */
    method GetTradingStatistics(periodStart: Timestamp, periodEnd: Timestamp, sqrt: real -> real)
      returns (r: Result<TradingStatistics, AnalyticsError>)
      ensures r == PeriodStatistics(config, closedPositions, periodStart, periodEnd, sqrt)
    {
      var periodPositions := InPeriod(closedPositions, periodStart, periodEnd);
      if periodPositions == [] {
        return Ok(EmptyTradingStatistics(config.sessionId, periodStart, periodEnd));
      }
      var stats := StatisticsOf(closedPositions);
      var ordered := SortByClosedAt(periodPositions);
      var equityCurve := BuildEquityCurve(config.initialCapital, ordered);
      var maxDd, maxDdPct := CalculateMaxDrawdown(equityCurve);
      var stepReturns := StepReturns(equityCurve);
      if stepReturns.None? {
        return Err(ZeroEquityStep);
      }
      var sharpe := CalculateSharpeRatio(stepReturns.value, 0.02, sqrt);
      r := Ok(TradingStatistics(config.sessionId, periodStart, periodEnd, stats.totalTrades, stats.winningTrades,
                                stats.losingTrades, stats.winRate, SumRealizedPnl(periodPositions), stats.avgWin,
                                stats.avgLoss, stats.largestWin, stats.largestLoss, stats.profitFactor, maxDd,
                                maxDdPct, Some(sharpe), stats.avgHoldingTime));
    }
  }
}
