/** Trade-level performance metrics. The drawdown is computed in one pass from
    running peaks; here it is tied to its definition over all pairs of points
    of the equity curve, and the averages to the totals they must agree with. */
module Metrics {
  import opened Common
  import opened ReplayModel
  import ReplayCash

  function Sum(s: seq<real>): real {
    if s == [] then 0.0 else Sum(s[..|s| - 1]) + s[|s| - 1]
  }

  /** `pnls[pnls > 0]`. */
  function Wins(pnls: seq<real>): (w: seq<real>)
    ensures |w| <= |pnls|
  {
    if pnls == [] then []
    else Wins(pnls[..|pnls| - 1]) + (if pnls[|pnls| - 1] > 0.0 then [pnls[|pnls| - 1]] else [])
  }

  /** `pnls[pnls < 0]`. */
  function Losses(pnls: seq<real>): (l: seq<real>)
    ensures |l| <= |pnls|
  {
    if pnls == [] then []
    else Losses(pnls[..|pnls| - 1]) + (if pnls[|pnls| - 1] < 0.0 then [pnls[|pnls| - 1]] else [])
  }

  function Mean(s: seq<real>): real {
    if s == [] then 0.0 else Sum(s) / |s| as real
  }

  /** `k` of `n`, as a rate. */
  function Rate(k: nat, n: nat): real
    requires n > 0
  {
    k as real / n as real
  }

  /** Infinite when there are gains and no losses. */
  function ProfitFactorOf(gains: real, losses: real): ProfitFactor {
    if losses > 0.0 then Finite(gains / losses) else if gains > 0.0 then Infinite else Finite(0.0)
  }

  /** `np.cumsum`. */
  function CumSum(s: seq<real>): (c: seq<real>)
    ensures |c| == |s|
  {
    if s == [] then []
    else
      var c := CumSum(s[..|s| - 1]);
      c + [(if c == [] then 0.0 else c[|c| - 1]) + s[|s| - 1]]
  }

  /** `np.maximum.accumulate`. */
  function RunningMax(s: seq<real>): (m: seq<real>)
    ensures |m| == |s|
  {
    if s == [] then []
    else
      var m := RunningMax(s[..|s| - 1]);
      m + [if m == [] then s[|s| - 1] else Max(m[|m| - 1], s[|s| - 1])]
  }

  function Largest(s: seq<real>): real
    requires s != []
  {
    if |s| == 1 then s[0] else Max(Largest(s[..|s| - 1]), s[|s| - 1])
  }

  /** Peak so far, counted from zero, minus equity. */
  function Drawdowns(pnls: seq<real>): (d: seq<real>)
    ensures |d| == |pnls|
  {
    var equity := CumSum(pnls);
    var peaks := RunningMax([0.0] + equity)[1..];
    seq(|pnls|, i requires 0 <= i < |pnls| => peaks[i] - equity[i])
  }

  datatype ProfitFactor = Finite(value: real) | Infinite

  datatype BacktestMetrics = BacktestMetrics(
    tradeCount: nat, winningTrades: nat, losingTrades: nat, grossPnl: real, netPnl: real, totalFees: real,
    totalSlippage: real, winRate: real, averageWin: real, averageLoss: real, profitFactor: ProfitFactor,
    expectancy: real, maximumDrawdown: real, turnover: real)

  function Pnls(trades: seq<TradeOutcome>): (p: seq<real>)
    ensures |p| == |trades|
  {
    seq(|trades|, i requires 0 <= i < |trades| => trades[i].netPnl)
  }

  function Total(trades: seq<TradeOutcome>, field: TradeOutcome -> real): real {
    if trades == [] then 0.0 else Total(trades[..|trades| - 1], field) + field(trades[|trades| - 1])
  }

  /** `calculate_metrics`. */
  function CalculateMetrics(trades: seq<TradeOutcome>): BacktestMetrics {
    if trades == [] then BacktestMetrics(0, 0, 0, 0.0, 0.0, 0.0, 0.0, 0.0, 0.0, 0.0, Finite(0.0), 0.0, 0.0, 0.0)
    else
      var pnls := Pnls(trades);
      var wins, losses := Wins(pnls), Losses(pnls);
      var grossWins, grossLosses := Sum(wins), Abs(Sum(losses));
      BacktestMetrics(
        |trades|, |wins|, |losses|,
        Total(trades, (t: TradeOutcome) => t.grossPnl), Total(trades, (t: TradeOutcome) => t.netPnl),
        Total(trades, (t: TradeOutcome) => t.fees), Total(trades, (t: TradeOutcome) => t.slippageCost),
        Rate(|wins|, |pnls|), Mean(wins), Mean(losses),
        ProfitFactorOf(grossWins, grossLosses),
        Mean(pnls), Largest(Drawdowns(pnls)),
        Total(trades, (t: TradeOutcome) => t.entryPrice * t.quantity + t.exitPrice * t.quantity))
  }

  // ------------------------------------------------------------ the drawdown

  /** Equity after the first `i` trades, zero before any. */
  function Equity(pnls: seq<real>, i: nat): real
    requires i <= |pnls|
  {
    Sum(pnls[..i])
  }

  lemma {:induction false} CumSumIsEquity(pnls: seq<real>, k: nat)
    requires k < |pnls|
    ensures CumSum(pnls)[k] == Equity(pnls, k + 1)
    decreases |pnls|
  {
    var n := |pnls| - 1;
    if k < n {
      CumSumIsEquity(pnls[..n], k);
      assert pnls[..n][..k + 1] == pnls[..k + 1];
    } else {
      assert pnls[..k + 1] == pnls;
      assert pnls[..0] == [] && Sum([]) == 0.0;
      if n > 0 {
        var last := n - 1;
        CumSumIsEquity(pnls[..n], last);
        assert pnls[..n][..last + 1] == pnls[..n];
      }
    }
  }

  lemma {:induction false} RunningMaxIsPeak(s: seq<real>, k: nat) returns (i: nat)
    requires k < |s|
    ensures i <= k && RunningMax(s)[k] == s[i]
    ensures forall j :: 0 <= j <= k ==> s[j] <= RunningMax(s)[k]
    decreases |s|
  {
    var n := |s| - 1;
    if k < n {
      i := RunningMaxIsPeak(s[..n], k);
    } else if n == 0 {
      i := 0;
    } else {
      i := RunningMaxIsPeak(s[..n], n - 1);
      if s[n] > s[i] {
        i := n;
      }
    }
  }

  lemma {:induction false} LargestIsAttained(s: seq<real>) returns (i: nat)
    requires s != []
    ensures i < |s| && Largest(s) == s[i]
    ensures forall j :: 0 <= j < |s| ==> s[j] <= Largest(s)
  {
    if |s| == 1 {
      i := 0;
    } else {
      i := LargestIsAttained(s[..|s| - 1]);
      if s[|s| - 1] > s[i] {
        i := |s| - 1;
      }
    }
  }

  /** Each drawdown is the equity of some earlier peak minus the equity now, and
      no earlier equity lies higher. */
  lemma DrawdownAt(pnls: seq<real>, k: nat) returns (i: nat)
    requires k < |pnls|
    ensures i <= k + 1 && Drawdowns(pnls)[k] == Equity(pnls, i) - Equity(pnls, k + 1)
    ensures forall j :: 0 <= j <= k + 1 ==> Equity(pnls, j) <= Equity(pnls, i)
  {
    var curve := [0.0] + CumSum(pnls);
    i := RunningMaxIsPeak(curve, k + 1);
    forall j | 0 <= j <= k + 1 ensures curve[j] == Equity(pnls, j) {
      if j > 0 {
        CumSumIsEquity(pnls, j - 1);
      }
    }
    CumSumIsEquity(pnls, k);
    assert Drawdowns(pnls)[k] == RunningMax(curve)[1..][k] - CumSum(pnls)[k];
    assert forall j :: 0 <= j <= k + 1 ==> curve[j] <= curve[i];
  }

  /** The one-pass drawdown is the largest drop of the equity curve from any
      point to the same or a later one, the start at zero included. */
  lemma DrawdownIsTheLargestDrop(pnls: seq<real>) returns (peak: nat, trough: nat)
    requires pnls != []
    ensures peak <= trough <= |pnls| && Largest(Drawdowns(pnls)) == Equity(pnls, peak) - Equity(pnls, trough)
    ensures forall i, j :: 0 <= i <= j <= |pnls| ==> Equity(pnls, i) - Equity(pnls, j) <= Largest(Drawdowns(pnls))
    ensures Largest(Drawdowns(pnls)) >= 0.0
  {
    var d := Drawdowns(pnls);
    var k := LargestIsAttained(d);
    peak := DrawdownAt(pnls, k);
    trough := k + 1;
    hide Drawdowns, Equity, Largest;
    var first := DrawdownAt(pnls, 0);
    assert Equity(pnls, 1) <= Equity(pnls, first);
    forall i, j | 0 <= i <= j <= |pnls| ensures Equity(pnls, i) - Equity(pnls, j) <= Largest(d) {
      if j > 0 {
        var last := j - 1;
        var top := DrawdownAt(pnls, last);
        assert d[last] <= Largest(d);
      } else {
        assert d[0] <= Largest(d);
      }
    }
  }

  // ------------------------------------------------------------ averages and totals

  lemma SumAppend(s: seq<real>, x: real)
    ensures Sum(s + [x]) == Sum(s) + x && s + [] == s
  {
    assert (s + [x])[..|s|] == s;
  }

  lemma {:induction false} WinsAndLossesSplit(pnls: seq<real>)
    ensures Sum(pnls) == Sum(Wins(pnls)) + Sum(Losses(pnls))
    ensures Sum(Wins(pnls)) >= 0.0 && (Sum(Wins(pnls)) > 0.0 <==> Wins(pnls) != [])
    ensures Sum(Losses(pnls)) <= 0.0 && (Sum(Losses(pnls)) < 0.0 <==> Losses(pnls) != [])
  {
    if pnls != [] {
      var n := |pnls| - 1;
      WinsAndLossesSplit(pnls[..n]);
      SumAppend(Wins(pnls[..n]), pnls[n]);
      SumAppend(Losses(pnls[..n]), pnls[n]);
    }
  }

  lemma {:induction false} NetIsTheSum(trades: seq<TradeOutcome>)
    ensures Total(trades, (t: TradeOutcome) => t.netPnl) == Sum(Pnls(trades))
  {
    if trades != [] {
      var n := |trades| - 1;
      NetIsTheSum(trades[..n]);
      assert Pnls(trades)[..n] == Pnls(trades[..n]);
    }
  }

  /** A mean weighted by the share of its elements is its part of the mean of
      everything. */
  lemma WeightedMean(part: seq<real>, n: nat)
    requires |part| <= n && n > 0
    ensures Times(Rate(|part|, n), Mean(part)) == Times(Rate(1, n), Sum(part))
  {
    if part != [] {
      var p, q, total := |part| as real, n as real, Sum(part);
      var mean := total / p;
      assert mean * p == total;
      assert (p / q) * mean == (p * mean) / q;
      assert total / q == (1.0 / q) * total;
    }
  }

  lemma TimesDistributes(a: real, b: real, c: real)
    ensures Times(a, b + c) == Times(a, b) + Times(a, c)
  {
  }

  lemma MeanTimesCount(s: seq<real>)
    requires s != []
    ensures Times(Mean(s), |s| as real) == Sum(s) && Mean(s) == Times(Rate(1, |s|), Sum(s))
  {
    var n, total := |s| as real, Sum(s);
    assert (total / n) * n == total;
    assert total / n == (1.0 / n) * total;
  }

  /** Expectancy is the win rate times the average win plus the loss rate times
      the average loss, and it is the net P&L per trade. */
  lemma ExpectancyAgrees(trades: seq<TradeOutcome>)
    requires trades != []
    ensures var m := CalculateMetrics(trades);
            && m.expectancy == Times(m.winRate, m.averageWin) + Times(Rate(m.losingTrades, m.tradeCount), m.averageLoss)
            && Times(m.expectancy, m.tradeCount as real) == m.netPnl
            && m.winningTrades + m.losingTrades <= m.tradeCount
  {
    var pnls := Pnls(trades);
    WinsAndLossesSplit(pnls);
    NetIsTheSum(trades);
    CountsFit(pnls);
    WeightedMean(Wins(pnls), |pnls|);
    WeightedMean(Losses(pnls), |pnls|);
    MeanTimesCount(pnls);
    TimesDistributes(Rate(1, |pnls|), Sum(Wins(pnls)), Sum(Losses(pnls)));
    hide Sum, Wins, Losses, Largest, Drawdowns, Mean, Total, Times, Rate, ProfitFactorOf, Pnls;
  }

  lemma ProfitFactorFacts(gains: real, losses: real)
    requires gains >= 0.0 && losses >= 0.0
    ensures var f := ProfitFactorOf(gains, losses);
            && (losses > 0.0 ==> f.Finite? && (f.value > 1.0 <==> gains > losses))
            && (f.Infinite? <==> losses == 0.0 && gains > 0.0)
  {
    if losses > 0.0 {
      QuotientAboveOne(gains / losses, gains, losses);
    }
  }

  lemma QuotientAboveOne(q: real, a: real, b: real)
    requires b > 0.0 && q == a / b
    ensures q > 1.0 <==> a > b
  {
    assert q * b == a;
    if q > 1.0 {
      ProductIsPositive(q - 1.0, b);
      assert (q - 1.0) * b == q * b - b;
    } else {
      ProductIsNotNegative(1.0 - q, b);
      assert (1.0 - q) * b == b - q * b;
    }
  }

  lemma ProductIsPositive(a: real, b: real)
    requires a > 0.0 && b > 0.0
    ensures a * b > 0.0
  {
  }

  lemma ProductIsNotNegative(a: real, b: real)
    requires a >= 0.0 && b >= 0.0
    ensures a * b >= 0.0
  {
  }

  /** With at least one losing trade the profit factor is above one exactly when
      the net P&L is positive; it is infinite exactly when there are winning
      trades and no losing one. */
  lemma ProfitFactorAgrees(trades: seq<TradeOutcome>)
    ensures var m := CalculateMetrics(trades);
            && (m.losingTrades > 0 ==> m.profitFactor.Finite? && (m.profitFactor.value > 1.0 <==> m.netPnl > 0.0))
            && (m.profitFactor.Infinite? <==> m.losingTrades == 0 && m.winningTrades > 0)
            && (m.losingTrades == 0 && m.winningTrades == 0 ==> m.netPnl == 0.0 && m.profitFactor == Finite(0.0))
  {
    if trades != [] {
      var pnls := Pnls(trades);
      WinsAndLossesSplit(pnls);
      NetIsTheSum(trades);
      ProfitFactorFacts(Sum(Wins(pnls)), Abs(Sum(Losses(pnls))));
      assert Wins(pnls) == [] && Losses(pnls) == [] ==>
        ProfitFactorOf(Sum(Wins(pnls)), Abs(Sum(Losses(pnls)))) == Finite(0.0);
      hide Sum, Wins, Losses, Largest, Drawdowns, Mean, Total, Rate, ProfitFactorOf, Pnls;
    }
  }

  lemma {:induction false} CountsFit(pnls: seq<real>)
    ensures |Wins(pnls)| + |Losses(pnls)| <= |pnls|
  {
    if pnls != [] {
      CountsFit(pnls[..|pnls| - 1]);
    }
  }

  /** The reported drawdown bounds every drop of the equity curve, so the final
      equity never lies further below zero than it. */
  lemma NetPnlIsAboveTheDrawdown(trades: seq<TradeOutcome>)
    requires trades != []
    ensures CalculateMetrics(trades).netPnl >= -CalculateMetrics(trades).maximumDrawdown
    ensures forall i, j :: 0 <= i <= j <= |trades| ==>
                             Equity(Pnls(trades), i) - Equity(Pnls(trades), j)
                             <= CalculateMetrics(trades).maximumDrawdown
  {
    var pnls := Pnls(trades);
    var peak, trough := DrawdownIsTheLargestDrop(pnls);
    NetIsTheSum(trades);
    assert pnls[..|pnls|] == pnls && pnls[..0] == [];
    assert Equity(pnls, 0) - Equity(pnls, |pnls|) <= Largest(Drawdowns(pnls));
  }

  lemma {:induction false} TotalsBalance(trades: seq<TradeOutcome>)
    requires forall i :: 0 <= i < |trades| ==>
             trades[i].netPnl == trades[i].grossPnl - trades[i].fees - trades[i].slippageCost
    ensures Total(trades, (t: TradeOutcome) => t.netPnl)
            == Total(trades, (t: TradeOutcome) => t.grossPnl) - Total(trades, (t: TradeOutcome) => t.fees)
               - Total(trades, (t: TradeOutcome) => t.slippageCost)
  {
    if trades != [] {
      TotalsBalance(trades[..|trades| - 1]);
    }
  }

  /** The totals reported for any replay on a new engine balance: net is gross
      less fees less slippage, and it is the cash of all the trades. */
  lemma MetricsOfARunBalance(c: Config, decide: ReplayModel.Decide, raw: seq<Row>)
    requires ConfigOk(c) && Run(c, decide, Fresh(c), raw).Ok?
    ensures var trades := Run(c, decide, Fresh(c), raw).value.0.outcomes;
            var m := CalculateMetrics(trades);
            m.netPnl == m.grossPnl - m.totalFees - m.totalSlippage && m.netPnl == ReplayCash.TotalCash(c, trades)
  {
    var trades := Run(c, decide, Fresh(c), raw).value.0.outcomes;
    forall i | 0 <= i < |trades| ensures ReplayCash.NetIsCash(c, trades[i]) {
      ReplayCash.EveryOutcomeIsCash(c, decide, Fresh(c), raw, i);
    }
    hide Run;
    TotalsBalance(trades);
    ReplayCash.NetIsTotalCash(c, trades);
    NetPnlIsTotal(trades);
    hide Total, ReplayCash.TotalCash, NetPnl, ReplayCash.NetIsCash, Wins, Losses, Drawdowns, Largest, Mean;
  }

  lemma {:induction false} NetPnlIsTotal(trades: seq<TradeOutcome>)
    ensures Total(trades, (t: TradeOutcome) => t.netPnl) == NetPnl(trades)
  {
    if trades != [] {
      NetPnlIsTotal(trades[..|trades| - 1]);
    }
  }

  // ------------------------------------------------------------ which total is which

  /** The metrics of one trade, read off its fields. */
  lemma MetricsOfOneTrade(t: TradeOutcome)
    ensures var m := CalculateMetrics([t]);
            && m.tradeCount == 1 && m.grossPnl == t.grossPnl && m.netPnl == t.netPnl && m.totalFees == t.fees
            && m.totalSlippage == t.slippageCost && m.turnover == t.entryPrice * t.quantity + t.exitPrice * t.quantity
            && m.winningTrades == (if t.netPnl > 0.0 then 1 else 0)
               && m.losingTrades == (if t.netPnl < 0.0 then 1 else 0)
  {
    TotalOfOne(t, (u: TradeOutcome) => u.grossPnl);
    TotalOfOne(t, (u: TradeOutcome) => u.netPnl);
    TotalOfOne(t, (u: TradeOutcome) => u.fees);
    TotalOfOne(t, (u: TradeOutcome) => u.slippageCost);
    TotalOfOne(t, (u: TradeOutcome) => u.entryPrice * u.quantity + u.exitPrice * u.quantity);
    var pnls := Pnls([t]);
    assert pnls == [t.netPnl] && pnls[..0] == [];
    hide Mean, Drawdowns, Largest, Rate, ProfitFactorOf, Sum;
  }

  lemma TotalOfOne(t: TradeOutcome, field: TradeOutcome -> real)
    ensures Total([t], field) == field(t)
  {
    assert [t][..0] == [] && Total([], field) == 0.0;
  }

  lemma {:induction false} TotalsAdd(a: seq<TradeOutcome>, b: seq<TradeOutcome>, field: TradeOutcome -> real)
    ensures Total(a + b, field) == Total(a, field) + Total(b, field)
    decreases |b|
  {
    if b == [] {
      assert a + b == a;
    } else {
      TotalsAdd(a, b[..|b| - 1], field);
      assert (a + b)[..|a + b| - 1] == a + b[..|b| - 1];
    }
  }

  lemma {:induction false} SidesAdd(a: seq<real>, b: seq<real>)
    ensures |Wins(a + b)| == |Wins(a)| + |Wins(b)| && |Losses(a + b)| == |Losses(a)| + |Losses(b)|
    decreases |b|
  {
    if b == [] {
      assert a + b == a;
    } else {
      SidesAdd(a, b[..|b| - 1]);
      assert (a + b)[..|a + b| - 1] == a + b[..|b| - 1];
    }
  }

  /** Counts and totals of two histories add up to those of both. */
  lemma MetricsAdd(a: seq<TradeOutcome>, b: seq<TradeOutcome>)
    ensures var m, n, both := CalculateMetrics(a), CalculateMetrics(b), CalculateMetrics(a + b);
            && both.tradeCount == m.tradeCount + n.tradeCount && both.winningTrades == m.winningTrades + n.winningTrades
            && both.losingTrades == m.losingTrades + n.losingTrades && both.grossPnl == m.grossPnl + n.grossPnl
            && both.netPnl == m.netPnl + n.netPnl && both.totalFees == m.totalFees + n.totalFees
            && both.totalSlippage == m.totalSlippage + n.totalSlippage && both.turnover == m.turnover + n.turnover
  {
    TotalsAdd(a, b, (t: TradeOutcome) => t.grossPnl);
    TotalsAdd(a, b, (t: TradeOutcome) => t.netPnl);
    TotalsAdd(a, b, (t: TradeOutcome) => t.fees);
    TotalsAdd(a, b, (t: TradeOutcome) => t.slippageCost);
    TotalsAdd(a, b, (t: TradeOutcome) => t.entryPrice * t.quantity + t.exitPrice * t.quantity);
    assert Pnls(a + b) == Pnls(a) + Pnls(b);
    SidesAdd(Pnls(a), Pnls(b));
    hide Mean, Drawdowns, Largest, Rate, ProfitFactorOf, Sum, Pnls;
    assert a == [] ==> a + b == b;
    assert b == [] ==> a + b == a;
  }

  /** The rate and the averages, as what they are fractions of. */
  lemma RatesAndAverages(trades: seq<TradeOutcome>)
    requires trades != []
    ensures var m := CalculateMetrics(trades);
            && Times(m.winRate, m.tradeCount as real) == m.winningTrades as real
            && Times(m.averageWin, m.winningTrades as real) == Sum(Wins(Pnls(trades)))
            && Times(m.averageLoss, m.losingTrades as real) == Sum(Losses(Pnls(trades)))
            && (forall w :: w in Wins(Pnls(trades)) ==> w > 0.0) && (forall l :: l in Losses(Pnls(trades)) ==> l < 0.0)
  {
    var pnls := Pnls(trades);
    SidesAreSigned(pnls);
    AverageTimesCount(Wins(pnls));
    AverageTimesCount(Losses(pnls));
    RateTimesCount(|Wins(pnls)|, |pnls|);
    hide Mean, Drawdowns, Largest, Rate, ProfitFactorOf, Sum, Wins, Losses, Times, Total, Pnls;
  }

  lemma RateTimesCount(k: nat, n: nat)
    requires n > 0
    ensures Times(Rate(k, n), n as real) == k as real
  {
  }

  lemma AverageTimesCount(s: seq<real>)
    ensures Times(Mean(s), |s| as real) == Sum(s)
  {
    if s != [] {
      MeanTimesCount(s);
    }
  }

  lemma {:induction false} SidesAreSigned(pnls: seq<real>)
    ensures forall w :: w in Wins(pnls) ==> w > 0.0
    ensures forall l :: l in Losses(pnls) ==> l < 0.0
  {
    if pnls != [] {
      SidesAreSigned(pnls[..|pnls| - 1]);
    }
  }
}
