/** The metrics calculator: reduces the trade ledger to the summary a backtest returns. */
module Metrics {
  import opened Ledger

  datatype BacktestResult = BacktestResult(
    finalCapital: real,
    totalPnL: real,
    totalTrades: nat,
    winningTrades: nat,
    losingTrades: nat,
    winRate: real,
    avgWin: real,
    avgLoss: real,
    profitFactor: real,
    trades: seq<Trade>)

  function Abs(x: real): real {
    if x < 0.0 then -x else x
  }

  /** The mean of `total` over `count` items, 0 when there are none. */
  function Mean(total: real, count: nat): (r: real)
    ensures count > 0 ==> r * count as real == total
    ensures count == 0 ==> r == 0.0
  {
    if count > 0 then total / count as real else 0.0
  }

  /**
   * The summary of a ledger: an empty ledger reports the initial capital and zero for
   * everything else; otherwise the final capital, the pnl total, the win and loss
   * counts, the win rate in percent, the average win and loss, and the profit factor.
   */
  function CalculateMetrics(initialCapital: real, capital: real, trades: seq<Trade>): (r: BacktestResult)
    ensures r.trades == trades && r.totalTrades == |trades|
  {
    if trades == [] then
      BacktestResult(initialCapital, 0.0, 0, 0, 0, 0.0, 0.0, 0.0, 0.0, [])
    else
      var wins, losses := Winners(trades), Losers(trades);
      var winCount, lossCount := |wins|, |losses|;
      var winRate := winCount as real / |trades| as real * 100.0;
      var avgWin := Mean(SumPnl(wins), winCount);
      var avgLoss := Mean(SumPnl(losses), lossCount);
      var profitFactor := if avgLoss != 0.0 then Abs(avgWin / avgLoss) else 0.0;
      BacktestResult(capital, SumPnl(trades), |trades|, winCount, lossCount, winRate, avgWin, avgLoss,
        profitFactor, trades)
  }

  /** With no trades every figure is zero, the capital is the initial one and the list is empty. */
  lemma EmptyLedgerMetrics(initialCapital: real, capital: real)
    ensures var r := CalculateMetrics(initialCapital, capital, []);
      && r.finalCapital == initialCapital && r.totalPnL == 0.0 && r.trades == []
      && r.totalTrades == 0 && r.winningTrades == 0 && r.losingTrades == 0
      && r.winRate == 0.0 && r.avgWin == 0.0 && r.avgLoss == 0.0 && r.profitFactor == 0.0
  {
  }

  /** A non-empty ledger reports the engine's capital, every trade, and the sum of their pnl. */
  lemma LedgerMetrics(initialCapital: real, capital: real, trades: seq<Trade>)
    requires trades != []
    ensures var r := CalculateMetrics(initialCapital, capital, trades);
      && r.finalCapital == capital && r.trades == trades && r.totalTrades == |trades|
      && r.totalPnL == SumPnl(trades)
  {
  }

  /** `part` out of `whole` as a percentage. */
  lemma PercentOf(part: nat, whole: nat)
    requires 0 < whole && part <= whole
    ensures var p := part as real / whole as real * 100.0;
      && 0.0 <= p <= 100.0 && (p == 100.0 <==> part == whole) && (p == 0.0 <==> part == 0)
  {
    var q := part as real / whole as real;
    assert q * whole as real == part as real;
    assert q <= 1.0;
    assert q == 1.0 <==> part == whole;
  }

  /**
   * An average scaled back up by the number of items it was taken over. Naming the product
   * keeps the solver from searching nonlinear arithmetic when it is compared to a sum.
   */
  function Weighted(average: real, count: nat): real {
    average * count as real
  }

  /** A mean over a positive count, multiplied back by that count, is the total again. */
  lemma MeanTimesCount(total: real, count: nat)
    requires count == 0 ==> total == 0.0
    ensures Mean(total, count) * count as real == total
    ensures Mean(total, count) > 0.0 <==> count > 0 && total > 0.0
    ensures Mean(total, count) < 0.0 <==> count > 0 && total < 0.0
  {
  }

  lemma WeightedMeans(total: real, gains: real, winCount: nat, losses: real, lossCount: nat)
    requires total == gains + losses
    requires winCount == 0 ==> gains == 0.0
    requires lossCount == 0 ==> losses == 0.0
    ensures total == Weighted(Mean(gains, winCount), winCount) + Weighted(Mean(losses, lossCount), lossCount)
  {
    MeanTimesCount(gains, winCount);
    MeanTimesCount(losses, lossCount);
  }

  /** Wins and losses are disjoint counts and the win rate is a percentage. */
  lemma {:induction false} CountsAndRateBounded(initialCapital: real, capital: real, trades: seq<Trade>)
    ensures var r := CalculateMetrics(initialCapital, capital, trades);
      && r.winningTrades + r.losingTrades <= r.totalTrades
      && 0.0 <= r.winRate <= 100.0
  {
    if trades != [] {
      WinsAndLossesBounded(trades);
      PercentOf(|Winners(trades)|, |trades|);
    }
  }

  /**
   * For a non-empty ledger the win rate is 100 exactly when every trade won; for any ledger
   * it is 0 exactly when none did (an empty ledger reports 0).
   */
  lemma {:induction false} WinRateExtremes(initialCapital: real, capital: real, trades: seq<Trade>)
    ensures var r := CalculateMetrics(initialCapital, capital, trades);
      && (trades != [] ==> (r.winRate == 100.0 <==> forall k :: 0 <= k < |trades| ==> trades[k].pnl > 0.0))
      && (r.winRate == 0.0 <==> forall k :: 0 <= k < |trades| ==> trades[k].pnl <= 0.0)
  {
    if trades != [] {
      var wins := Winners(trades);
      AllWinners(trades);
      PercentOf(|wins|, |trades|);
      if |wins| != 0 {
        assert wins[0] in trades;
      }
      if exists k :: 0 <= k < |trades| && trades[k].pnl > 0.0 {
        var k :| 0 <= k < |trades| && trades[k].pnl > 0.0;
        WinnerIncluded(trades, k);
      }
    }
  }

  /** The average win is positive when some trade won, the average loss negative when some lost. */
  lemma {:induction false} AveragesSigned(initialCapital: real, capital: real, trades: seq<Trade>)
    ensures var r := CalculateMetrics(initialCapital, capital, trades);
      && r.avgWin >= 0.0 && (r.avgWin > 0.0 <==> r.winningTrades > 0)
      && r.avgLoss <= 0.0 && (r.avgLoss < 0.0 <==> r.losingTrades > 0)
      && (r.avgWin > 0.0 <==> exists k :: 0 <= k < |trades| && trades[k].pnl > 0.0)
      && (r.avgLoss < 0.0 <==> exists k :: 0 <= k < |trades| && trades[k].pnl < 0.0)
  {
    if trades != [] {
      var wins, losses := Winners(trades), Losers(trades);
      SumOfGains(wins);
      SumOfLosses(losses);
      MeanTimesCount(SumPnl(wins), |wins|);
      MeanTimesCount(SumPnl(losses), |losses|);
      if |wins| > 0 {
        assert wins[0] in trades;
      }
      if |losses| > 0 {
        assert losses[0] in trades;
      }
      if exists k :: 0 <= k < |trades| && trades[k].pnl > 0.0 {
        var k :| 0 <= k < |trades| && trades[k].pnl > 0.0;
        WinnerIncluded(trades, k);
      }
      if exists k :: 0 <= k < |trades| && trades[k].pnl < 0.0 {
        var k :| 0 <= k < |trades| && trades[k].pnl < 0.0;
        LoserIncluded(trades, k);
      }
    }
  }

  /** The averages weighted by their counts give back the total pnl. */
  lemma {:induction false} AveragesRecoverTotal(initialCapital: real, capital: real, trades: seq<Trade>)
    ensures var r := CalculateMetrics(initialCapital, capital, trades);
      r.totalPnL == Weighted(r.avgWin, r.winningTrades) + Weighted(r.avgLoss, r.losingTrades)
  {
    if trades != [] {
      var wins, losses := Winners(trades), Losers(trades);
      var gains, lossTotal := SumPnl(wins), SumPnl(losses);
      PnlSplitsIntoGainsAndLosses(trades);
      SumOfGains(wins);
      SumOfLosses(losses);
      WeightedMeans(SumPnl(trades), gains, |wins|, lossTotal, |losses|);
    }
  }

  /** The profit factor is |avgWin / avgLoss|, 0 without an average loss, and never negative. */
  lemma ProfitFactorDefined(initialCapital: real, capital: real, trades: seq<Trade>)
    ensures var r := CalculateMetrics(initialCapital, capital, trades);
      && r.profitFactor >= 0.0
      && (r.avgLoss != 0.0 ==> r.profitFactor == Abs(r.avgWin / r.avgLoss))
      && (r.avgLoss == 0.0 ==> r.profitFactor == 0.0)
  {
  }
}
