# Backtest engine model

A Dafny model of the strategy backtester of a small trading platform backend
(`BacktestEngine` in `backend.py`). The engine replays an indicator-enriched
price series bar by bar for one long position at a time. It opens the position
on a strategy's entry crossover, sized as a whole number of units from a fraction
of the current capital. It closes the position on the exit crossover, and it
force-closes a position still open at the last bar. Every close appends a trade
to the ledger and adds that trade's pnl to the capital. Finally the ledger is
reduced to summary metrics.

The three strategy loops of the source (`_backtest_sma_crossover`,
`_backtest_rsi`, `_backtest_macd`) are the same loop with different signal
tests. Here they are one loop, parameterised by the `Strategy` datatype
(`SmaCross`, `Rsi(oversold, overbought)`, `Macd`).

Modules:

- `Wrappers` (wrappers.dfy): `Option`, used for "no open position" and for a key
  missing from the request.
- `Signals` (signals.dfy): the bar record and the pure entry and exit tests of
  each strategy.
- `Ledger` (ledger.dfy): positions and trades, position sizing (`int(...)` as
  truncation toward zero), the pnl of a close, and the sums and filters used by
  the metrics.
- `Metrics` (metrics.dfy): `_calculate_metrics` as a function, plus lemmas for
  each figure.
- `Simulation` (simulation.dfy): the position tracker. `Step` is one loop
  iteration, `Replay` folds it over the series, `Finish` is the forced close and
  `Simulate` is a whole run. Lemmas prove capital conservation, the accounting
  rule and the ordering of the ledger.
- `Engine` (engine.dfy): the `BacktestEngine` class. It has mutable `capital` and
  `trades` fields. `RunBacktest` resets them and dispatches on the strategy type.
  `RunStrategy` is the imperative loop, proved to compute exactly `Simulate`.

Two behaviours of the code are worth stating up front:

- The engine does not reject an empty series. An empty trimmed series runs no
  iterations and reports the zero-trade metrics (backend.py:203, 378-390). Only
  the HTTP route rejects an empty fetched series (backend.py:476), and it does
  so before the warm-up rows are dropped.
- A position opened on the last bar is force-closed on that same bar
  (backend.py:240-253). So only trades closed by a signal exit are guaranteed
  entry time < exit time. The forced trade has entry time <= exit time. The two
  are equal only when the position was opened on the last bar, and then its pnl
  is 0 (`SimulateOrdered`).

## Model

| member | source | states |
|---|---|---|
| `Signals.CrossesAbove` | backend.py:213 | An upward crossing of `a` over `b` (at or below before, strictly above now) is exactly `b` crossing below `a`, and cannot happen unless one of the two series moved. |
| `Signals.CrossesBelow` | backend.py:223 | A downward crossing (at or above before, strictly below now) cannot happen unless one of the two series moved. |
| `Signals.EntrySignal` | backend.py:213 | The buy tests of the three strategies (short SMA over long SMA at 213, RSI over the oversold level at 274, MACD over its signal line at 332); a row repeated unchanged never triggers one. |
| `Signals.ExitSignal` | backend.py:223 | The sell tests (short SMA under long SMA at 223, RSI under the overbought level at 284, MACD under its signal line at 342); a row repeated unchanged never triggers one. |
| `Signals.SignalsExclusive` | backend.py:212-223 | No pair of bars gives both a buy and a sell signal, for any strategy and any RSI levels (entry and exit tests at 213/223, 274/284, 332/342). |
| `Signals.NoRepeatedSignal` | backend.py:212-223 | The crossover is non-strict on the previous bar and strict on the current one, so an entry (or exit) signal never fires on two consecutive pairs. |
| `Ledger.Truncate` | backend.py:214 | `int(x)` truncates toward zero: for x >= 0 the result is the floor, for x < 0 it is within one above x. |
| `Ledger.Quantity` | backend.py:214-215 | The sized quantity is positive exactly when capital*fraction/close >= 1, and equals its floor when that value is non-negative; a value below 1 buys nothing. |
| `Ledger.SumPnl` | backend.py:392 | The left-to-right sum of the trades' pnl; a ledger of break-even trades sums to 0. |
| `Ledger.CloseTrade` | backend.py:224-235 | A closed trade obeys the accounting rule; its pnl is positive (negative) exactly when the exit price is above (below) the entry price; pnlPercent is the percentage price change from entry to exit. |
| `Ledger.Winners` | backend.py:393 | The winners are drawn from the ledger, all have pnl > 0, and there are at most as many as trades. |
| `Ledger.WinnerIncluded` | backend.py:393 | Every trade with pnl > 0 is among the winners. |
| `Ledger.Losers` | backend.py:394 | The losers are drawn from the ledger, all have pnl < 0, and there are at most as many as trades. |
| `Ledger.LoserIncluded` | backend.py:394 | Every trade with pnl < 0 is among the losers. |
| `Ledger.WinnersCounted` | backend.py:393-396 | The win count is the number of ledger positions holding a trade with pnl > 0. |
| `Ledger.LosersCounted` | backend.py:394-397 | The loss count is the number of ledger positions holding a trade with pnl < 0. |
| `Ledger.SumOfGains` | backend.py:400 | A sum of gains is non-negative, and positive when non-empty. |
| `Ledger.SumOfLosses` | backend.py:401 | A sum of losses is non-positive, and negative when non-empty. |
| `Ledger.PnlSplitsIntoGainsAndLosses` | backend.py:392-394 | The total pnl equals the winners' sum plus the losers' sum; break-even trades contribute nothing. |
| `Ledger.WinsAndLossesBounded` | backend.py:393-397 | win count + loss count <= number of trades. |
| `Ledger.AllWinners` | backend.py:393-396 | The win count equals the trade count exactly when every trade has pnl > 0. |
| `Ledger.TradesNeverOverlap` | backend.py:203-253 | In a time-ordered ledger every earlier trade exits strictly before any later trade enters, and exit times strictly increase. |
| `Metrics.CalculateMetrics` | backend.py:376-416 | The report lists exactly the ledger's trades, and totalTrades is their number. |
| `Metrics.EmptyLedgerMetrics` | backend.py:378-390 | With no trades, finalCapital is the initial capital, the trade list is empty and every count, rate, average and the profit factor is 0. |
| `Metrics.Mean` | backend.py:400-401 | The average over a positive count, multiplied back by that count, is the total; with no items the average is 0. |
| `Metrics.LedgerMetrics` | backend.py:392-416 | With trades, finalCapital is the engine's capital and totalPnL is the sum of the trades' pnl. |
| `Metrics.CountsAndRateBounded` | backend.py:393-398 | winning + losing <= totalTrades, and winRate lies in [0, 100]. |
| `Metrics.WinRateExtremes` | backend.py:398 | For a non-empty ledger, winRate is 100 exactly when every trade won; for any ledger it is 0 exactly when no trade won. |
| `Metrics.AveragesSigned` | backend.py:393-401 | avgWin >= 0, and > 0 exactly when the win count is positive, which is exactly when some trade has pnl > 0; avgLoss <= 0, and < 0 exactly when the loss count is positive, which is exactly when some trade has pnl < 0. |
| `Metrics.AveragesRecoverTotal` | backend.py:392-401 | avgWin times the win count plus avgLoss times the loss count equals totalPnL. The products are written with `Weighted`, a helper that only keeps nonlinear arithmetic out of the solver's search. |
| `Metrics.ProfitFactorDefined` | backend.py:403 | profitFactor is abs(avgWin / avgLoss) when avgLoss != 0, else 0, and never negative. |
| `Simulation.CloseAt` | backend.py:224-237 | Closing appends exactly one trade for the open position at the bar's time and close, adds that trade's pnl to capital, and leaves the engine flat. |
| `Simulation.Step` | backend.py:204-237 | One iteration either leaves capital and ledger unchanged, or closes the open position (one trade appended, capital moved by its pnl); an open position is never replaced by another. |
| `Simulation.Replay` | backend.py:203-237 | The loop only appends to the ledger, at most one trade per iteration, and any position it holds has a positive quantity and a non-zero price. |
| `Simulation.Iterations` | backend.py:203 | `range(1, len(data))` visits no pair unless there are at least two bars, and the last pair it visits ends on a bar of the series. |
| `Simulation.Finish` | backend.py:239-253 | After the forced close the engine is flat; a run that ended flat is left unchanged. |
| `Simulation.Simulate` | backend.py:190-255 | A whole run of one strategy ends flat and only appends to the ledger, at most one trade per bar. |
| `Simulation.EntryRule` | backend.py:213-220 | When flat, a position opens exactly when the entry test holds and the sized quantity is positive. It is bought at the bar's close and time, and capital and ledger do not change. An entry that sizes to zero leaves the state unchanged. |
| `Simulation.OpenPositionRule` | backend.py:223-237 | When a position is open, an entry signal is ignored and only the exit test decides. A close appends exactly that position's trade at the bar's close and adds its pnl to capital. |
| `Simulation.ReplayConservesCapital` | backend.py:224-225 | Over the loop, capital minus the ledger's total pnl never changes. |
| `Simulation.ReplayWellFormed` | backend.py:224-235 | Every trade the loop appends has a positive quantity and satisfies pnl = (exit - entry) * quantity and pnlPercent = pnl / (entry * quantity) * 100. |
| `Simulation.SimulateConservesCapital` | backend.py:201-253 | A whole run, forced close included, ends flat, keeps capital minus total pnl constant, and appends only well-formed trades. |
| `Simulation.StepOrdered` | backend.py:203-237 | On a chronological series one iteration keeps the ledger time-ordered. An open position is entered after the last exit, no later than the current bar, and at that bar's close when on that bar. |
| `Simulation.ReplayOrdered` | backend.py:203-237 | That ordering invariant holds after every number of iterations from an empty ledger. |
| `Simulation.SimulateOrdered` | backend.py:201-253 | On a chronological series the run's ledger is time-ordered. Each trade's exit comes strictly before the next trade's entry. Every trade but the last exits strictly after it entered, and a trade entered and exited on the same bar has pnl 0. |
| `Simulation.ForcedClose` | backend.py:239-253 | A position still open after the loop becomes exactly one more trade, closed at the last bar's time and close, with its pnl added to capital. Otherwise the loop's final state is the result. |
| `Engine.ParseStrategy` | backend.py:179-188 | A missing type selects SMA crossover; "sma_crossover", "rsi" and "macd" select their strategy, with RSI levels defaulting to 30 and 70 (backend.py:260-261); any other type selects nothing. |
| `Engine.PositionFraction` | backend.py:194 | The fraction of capital committed per entry is the `positionSize` percentage over 100, and 10% when the key is missing (also at 262 and 320). |
| `Engine.EndState` | backend.py:173-188 | After a run no position is open, there are at most as many trades as bars, and an unknown strategy leaves the initial capital and an empty ledger. |
| `Engine.Backtest` | backend.py:173-188 | The result is the unknown-type error exactly when the request names no known strategy; otherwise it reports the run's ledger. |
| `Engine.BacktestEngine.constructor` | backend.py:167-171 | A new engine holds the initial capital as its capital and has an empty ledger. |
| `Engine.BacktestEngine.RunBacktest` | backend.py:173-188 | The outcome and the new capital and ledger are functions of the initial capital, the request and the series alone, so earlier runs never leak in. An unknown type returns the error. |
| `Engine.BacktestEngine.RunStrategy` | backend.py:190-255 | The imperative bar loop, with the forced close and the metrics, leaves capital and ledger exactly as `Simulate` computes from their old values, and returns their metrics. |
| `Engine.RunTwice` | backend.py:173-177 | Running the same engine twice on the same request and series gives the same outcome. |
| `Engine.UnknownStrategyRejected` | backend.py:187-188 | A type other than the three known ones returns the error and leaves the initial capital and an empty ledger. |
| `Engine.BacktestConservesCapital` | backend.py:175-255 | A run ends flat, its final capital is the initial capital plus the ledger's total pnl, every trade obeys the accounting rule, and the reported finalCapital equals initial capital + totalPnL. |
| `Engine.BacktestTradesOrdered` | backend.py:203-253 | On a chronological series the reported trades are time-ordered and never overlap. |
| `Engine.ExampleReplay` | backend.py:203-237 | On the five-bar SMA example, the engine buys 980 units at 102 on bar 1 (10% of 1,000,000) and sells at 101 on bar 3. |
| `Engine.ExampleMetrics` | backend.py:392-416 | The example's single trade, a loss of 980, gives 1 trade, 0 wins, 1 loss, win rate 0, avgLoss -980 and profit factor 0. |
| `Engine.SmaCrossExample` | backend.py:190-255 | The whole example run reports final capital 999,020 and total pnl -980. |

## Left out

- `MarketDataProvider` (price fetching over the network, with exceptions swallowed) is I/O and is not part of this model.
- `TechnicalIndicators` calls an external indicator library whose code is not visible. Each bar carries its indicator values (`shortSma`, `longSma`, `rsi`, `macd`, `macdSignal`) as given fields. The dropping of warm-up rows (`dropna`) is modelled only as "the input series is already trimmed".
- The indicator periods `shortPeriod`, `longPeriod` and `rsiPeriod` only feed the indicator library, so the model does not read them.
- The HTTP routes are request parsing, JSON output and CORS: not modelled. This covers the backtest route, strategy validation, paper trades and the health check. The server start-up is not modelled either.
- The default argument `initial_capital=1000000` of the engine constructor (backend.py:167), which the backtest route also supplies (backend.py:480): here the initial capital is always a constructor argument.
- `self.positions` is reset by every run but never read, so the class has no such field.
- Floating point: prices and pnl are exact reals. Rounding, NaN values and the `float(...)` casts are not modelled. Trade dates are the bars' integer times, not the `str(...)` of a timestamp.
- A close price of 0: sizing an entry divides by the close, so a flat engine that gets an entry signal on a bar with close 0 raises in the source (backend.py:214, 275, 333). The model has no error outcome for this. It requires instead (`PricedSeries`, `Runnable`) that every bar on which the strategy's entry test fires has a non-zero close. This is broader than the source's failure: an entry signal that arrives while a position is already open is ignored by the source, whatever that bar's close.
- A `type` value that is present but is not a string, including a JSON `null`, does not raise: the `==` tests fail and the source returns the unknown-type error (backend.py:179-188). A missing `type` still defaults to SMA crossover. The model's `kind: Option<string>` has no null, so such a value is represented as some string that names no strategy, which gives the same error.
- A non-numeric `positionSize` makes the division at backend.py:194 raise. A present but null or non-numeric `oversold` or `overbought` is returned by `.get` as it is (backend.py:260-261), and comparing it with a float at backend.py:274 or 284 raises on the first iteration that reaches that comparison. The model's request fields are typed `Option<real>`, so these cases do not arise: a missing key is read as its default (10, 30, 70), and a present null cannot be expressed.
- `Simulation.SimulateOrdered`, `Simulation.ReplayOrdered`, `Simulation.StepOrdered`, `Engine.BacktestTradesOrdered`: these assume bar times strictly increase (`Chronological`). The source relies on its data provider for that ordering and does not check it.
