/**
 * The backtest orchestrator: the engine object whose `RunBacktest` resets its state, picks the
 * strategy named in the request, runs the one generic bar loop and reports the metrics.
 */
module Engine {
  import opened Wrappers
  import opened Signals
  import opened Ledger
  import opened Metrics
  import opened Simulation

  /** The strategy keys the engine reads; `None` is a key missing from the request. */
  datatype StrategyRequest = StrategyRequest(
    kind: Option<string>,
    positionSize: Option<real>,
    oversold: Option<real>,
    overbought: Option<real>)

  /** A completed backtest, or the error reported for an unknown strategy type. */
  datatype Outcome = Completed(result: BacktestResult) | Failed(error: string)

  const UnknownStrategyError: string := "Unknown strategy type"

  /**
   * The strategy a request selects. A missing type means SMA crossover; the RSI levels
   * default to 30 and 70; any type but the three known ones selects nothing.
   */
  function ParseStrategy(request: StrategyRequest): (r: Option<Strategy>)
    ensures r.None? <==> request.kind.Some? && request.kind.value !in {"sma_crossover", "rsi", "macd"}
    ensures r == Some(SmaCross) <==> request.kind in {None, Some("sma_crossover")}
    ensures r == Some(Macd) <==> request.kind == Some("macd")
    ensures r.Some? && r.value.Rsi? <==> request.kind == Some("rsi")
    ensures r.Some? && r.value.Rsi? ==>
      r.value.oversold == request.oversold.GetOr(30.0) && r.value.overbought == request.overbought.GetOr(70.0)
  {
    var kind := request.kind.GetOr("sma_crossover");
    if kind == "sma_crossover" then Some(SmaCross)
    else if kind == "rsi" then Some(Rsi(request.oversold.GetOr(30.0), request.overbought.GetOr(70.0)))
    else if kind == "macd" then Some(Macd)
    else None
  }

  /** The fraction of capital committed per entry: the percentage `positionSize` (default 10) / 100. */
  function PositionFraction(request: StrategyRequest): (r: real)
    ensures r * 100.0 == request.positionSize.GetOr(10.0)
    ensures request.positionSize.None? ==> r == 0.1
  {
    request.positionSize.GetOr(10.0) / 100.0
  }

  /**
   * A request the engine can run on `bars`: an unknown type is rejected before any bar is
   * read, and a known strategy needs a non-zero close wherever its entry test fires.
   */
  predicate Runnable(request: StrategyRequest, bars: seq<Bar>) {
    ParseStrategy(request).Some? ==> PricedSeries(ParseStrategy(request).value, bars)
  }

  /**
   * The engine's capital and ledger after a run from a fresh start: no position is left open,
   * and an unknown strategy leaves the initial capital and an empty ledger.
   */
  function EndState(initialCapital: real, request: StrategyRequest, bars: seq<Bar>): (r: State)
    requires Runnable(request, bars)
    ensures r.position.None?
    ensures ParseStrategy(request).None? ==> r == State(initialCapital, None, [])
    ensures |r.trades| <= |bars|
  {
    var initial := State(initialCapital, None, []);
    match ParseStrategy(request)
    case None => initial
    case Some(s) => Simulate(s, PositionFraction(request), initial, bars)
  }

  /**
   * What a backtest returns: the unknown-type error exactly when the request names no known
   * strategy, and otherwise the metrics of the run's final capital and ledger.
   */
  function Backtest(initialCapital: real, request: StrategyRequest, bars: seq<Bar>): (r: Outcome)
    requires Runnable(request, bars)
    ensures r.Failed? <==> ParseStrategy(request).None?
    ensures r.Failed? ==> r.error == UnknownStrategyError
    ensures r.Completed? ==> r.result.trades == EndState(initialCapital, request, bars).trades
  {
    if ParseStrategy(request).None? then Failed(UnknownStrategyError)
    else
      var end := EndState(initialCapital, request, bars);
      Completed(CalculateMetrics(initialCapital, end.capital, end.trades))
  }

  class BacktestEngine {
    const initialCapital: real
    var capital: real
    var trades: seq<Trade>

    constructor (initialCapital: real)
      ensures this.initialCapital == initialCapital
      ensures capital == initialCapital && trades == []
    {
      this.initialCapital := initialCapital;
      capital := initialCapital;
      trades := [];
    }

    /**
     * Reset capital and ledger, then run the requested strategy. The outcome and the new
     * state depend on the request and the series only, never on an earlier run.
     */
    method RunBacktest(request: StrategyRequest, bars: seq<Bar>) returns (r: Outcome)
      requires Runnable(request, bars)
      modifies this
      ensures r == Backtest(initialCapital, request, bars)
      ensures capital == EndState(initialCapital, request, bars).capital
      ensures trades == EndState(initialCapital, request, bars).trades
    {
      capital := initialCapital;
      trades := [];
      var strategy := ParseStrategy(request);
      if strategy.None? {
        return Failed(UnknownStrategyError);
      }
      var result := RunStrategy(strategy.value, PositionFraction(request), bars);
      r := Completed(result);
    }

    /**
     * The bar loop shared by the three strategies: from bar 1 on (counting from 0), test the pair
     * (previous, current); open when flat on an entry signal with a positive quantity, close
     * when open on an exit signal. Afterwards close a position still open at the last bar.
     */
    method RunStrategy(strategy: Strategy, fraction: real, bars: seq<Bar>) returns (r: BacktestResult)
      requires PricedSeries(strategy, bars)
      modifies this
      ensures State(capital, None, trades) == Simulate(strategy, fraction, State(old(capital), None, old(trades)), bars)
      ensures r == CalculateMetrics(initialCapital, capital, trades)
    {
      ghost var start := State(capital, None, trades);
      var position: Option<Position> := None;
      var i := 1;
      while i < |bars|
        invariant 1 <= i && i - 1 <= Iterations(bars)
        invariant State(capital, position, trades) == Replay(strategy, fraction, start, bars, i - 1)
      {
        var prev, cur := bars[i - 1], bars[i];
        ghost var before := State(capital, position, trades);
        if position.None? && EntrySignal(strategy, prev, cur) {
          var quantity := Quantity(capital, fraction, cur.close);
          if quantity > 0 {
            position := Some(Position(cur.close, quantity, cur.time));
          }
        } else if position.Some? && ExitSignal(strategy, prev, cur) {
          var trade := CloseTrade(position.value, cur.time, cur.close);
          capital := capital + trade.pnl;
          trades := trades + [trade];
          position := None;
        }
        assert State(capital, position, trades) == Step(strategy, fraction, before, prev, cur);
        i := i + 1;
      }
      assert i - 1 == Iterations(bars);
      ghost var end := State(capital, position, trades);
      assert Simulate(strategy, fraction, start, bars) == Finish(end, bars);
      if position.Some? {
        var last := bars[|bars| - 1];
        var trade := CloseTrade(position.value, last.time, last.close);
        capital := capital + trade.pnl;
        trades := trades + [trade];
      }
      assert State(capital, None, trades) == Finish(end, bars);
      r := CalculateMetrics(initialCapital, capital, trades);
    }
  }

  /**
   * Two runs on the same engine with the same input give the same outcome: a direct
   * consequence of `RunBacktest` returning `Backtest` of the initial capital and its input.
   */
  method RunTwice(engine: BacktestEngine, request: StrategyRequest, bars: seq<Bar>)
    returns (first: Outcome, second: Outcome)
    requires Runnable(request, bars)
    modifies engine
    ensures first == second
  {
    first := engine.RunBacktest(request, bars);
    second := engine.RunBacktest(request, bars);
  }

  /** An unknown strategy type is an error and leaves the initial capital and an empty ledger. */
  lemma UnknownStrategyRejected(initialCapital: real, request: StrategyRequest, bars: seq<Bar>)
    requires Runnable(request, bars)
    requires request.kind.Some? && request.kind.value !in {"sma_crossover", "rsi", "macd"}
    ensures Backtest(initialCapital, request, bars) == Failed(UnknownStrategyError)
    ensures EndState(initialCapital, request, bars) == State(initialCapital, None, [])
  {
  }

  /**
   * Capital conservation: the reported final capital is the initial capital plus the total
   * pnl, every trade obeys the accounting rule, and no position is left open.
   */
  lemma BacktestConservesCapital(initialCapital: real, request: StrategyRequest, bars: seq<Bar>)
    requires Runnable(request, bars)
    ensures var end := EndState(initialCapital, request, bars);
      && end.position.None?
      && end.capital == initialCapital + SumPnl(end.trades)
      && AllWellFormed(end.trades)
    ensures var r := Backtest(initialCapital, request, bars);
      r.Completed? ==> r.result.finalCapital == initialCapital + r.result.totalPnL
  {
    var initial := State(initialCapital, None, []);
    var end := EndState(initialCapital, request, bars);
    if ParseStrategy(request).Some? {
      SimulateConservesCapital(ParseStrategy(request).value, PositionFraction(request), initial, bars);
    }
    if end.trades == [] {
      EmptyLedgerMetrics(initialCapital, end.capital);
    } else {
      LedgerMetrics(initialCapital, end.capital, end.trades);
    }
  }

  /** On a chronological series the reported trades are in time order and never overlap. */
  lemma BacktestTradesOrdered(initialCapital: real, request: StrategyRequest, bars: seq<Bar>)
    requires Runnable(request, bars) && Chronological(bars)
    ensures var r := Backtest(initialCapital, request, bars);
      r.Completed? ==>
        var ts := r.result.trades;
        && OrderedLedger(ts)
        && (forall j, k :: 0 <= j < k < |ts| ==> ts[j].exitTime < ts[k].entryTime)
  {
    if ParseStrategy(request).Some? {
      var s, fraction := ParseStrategy(request).value, PositionFraction(request);
      var end := Simulate(s, fraction, State(initialCapital, None, []), bars);
      assert EndState(initialCapital, request, bars) == end;
      SimulateOrdered(s, fraction, initialCapital, bars);
      TradesNeverOverlap(end.trades);
    }
  }

  /** The series of the worked example: closes with a short and a long moving average. */
  function ExampleBars(): seq<Bar> {
    [ Bar(0, 100.0, 9.0, 10.0, 0.0, 0.0, 0.0),
      Bar(1, 102.0, 11.0, 10.0, 0.0, 0.0, 0.0),
      Bar(2, 105.0, 12.0, 10.0, 0.0, 0.0, 0.0),
      Bar(3, 101.0, 8.0, 10.0, 0.0, 0.0, 0.0),
      Bar(4, 99.0, 7.0, 10.0, 0.0, 0.0, 0.0) ]
  }

  function ExampleTrade(): Trade {
    Trade(1, 3, 102.0, 101.0, 980, -980.0, -980.0 / (102.0 * 980.0) * 100.0)
  }

  /**
   * The example's loop, bars counted from 0 as their times: buy 980 units at 102 on bar 1
   * (10% of 1,000,000), sell at 101 on bar 3.
   */
  lemma ExampleReplay()
    ensures Replay(SmaCross, 0.1, State(1000000.0, None, []), ExampleBars(), 4)
      == State(999020.0, None, [ExampleTrade()])
  {
    var bars, start := ExampleBars(), State(1000000.0, None, []);
    var open := Some(Position(102.0, 980, 1));
    assert Replay(SmaCross, 0.1, start, bars, 1) == State(1000000.0, open, []) by {
      assert Quantity(1000000.0, 0.1, 102.0) == 980;
    }
    assert Replay(SmaCross, 0.1, start, bars, 2) == State(1000000.0, open, []);
    assert Replay(SmaCross, 0.1, start, bars, 3) == State(999020.0, None, [ExampleTrade()]);
  }

  /** The example's metrics: one losing trade of 980. */
  lemma ExampleMetrics()
    ensures CalculateMetrics(1000000.0, 999020.0, [ExampleTrade()])
      == BacktestResult(999020.0, -980.0, 1, 0, 1, 0.0, 0.0, -980.0, 0.0, [ExampleTrade()])
  {
    var ts := [ExampleTrade()];
    assert ts[..0] == [];
    assert Winners(ts) == [] && Losers(ts) == ts;
    assert SumPnl(ts) == SumPnl([]) + -980.0 == -980.0;
    assert Mean(0.0, 0) == 0.0 && Mean(-980.0, 1) == -980.0;
  }

  /**
   * A worked SMA-crossover run: the short average crosses above the long one on bar 1 and
   * back below on bar 3 (bars counted from 0, as their times), so the single trade loses 980 and the final capital
   * is 999,020, with no win, one loss, a 0% win rate and a profit factor of 0.
   */
  lemma SmaCrossExample()
    ensures Backtest(1000000.0, StrategyRequest(Some("sma_crossover"), Some(10.0), None, None), ExampleBars())
      == Completed(BacktestResult(999020.0, -980.0, 1, 0, 1, 0.0, 0.0, -980.0, 0.0, [ExampleTrade()]))
  {
    var request := StrategyRequest(Some("sma_crossover"), Some(10.0), None, None);
    assert PositionFraction(request) == 0.1;
    ExampleReplay();
    ExampleMetrics();
  }
}
