/**
 * The position tracker and the bar-by-bar replay as pure functions: the reference that the
 * engine's imperative loop is proved to follow, and the invariants that replay keeps.
 */
module Simulation {
  import opened Wrappers
  import opened Signals
  import opened Ledger

  /** The engine's state between two bars: capital, the open position if any, and the ledger. */
  datatype State = State(capital: real, position: Option<Position>, trades: seq<Trade>)

  predicate ValidState(st: State) {
    st.position.Some? ==> ValidPosition(st.position.value)
  }

  /**
   * Every bar on which the strategy's entry test fires has a non-zero close, so that sizing
   * a position there, which divides by that close, is defined.
   */
  predicate PricedSeries(s: Strategy, bars: seq<Bar>) {
    forall i :: 0 < i < |bars| && EntrySignal(s, bars[i - 1], bars[i]) ==> bars[i].close != 0.0
  }

  /** Bar times strictly increase along the series. */
  predicate Chronological(bars: seq<Bar>) {
    forall i :: 0 < i < |bars| ==> bars[i - 1].time < bars[i].time
  }

  /** Close the open position at `bar`'s close: one trade appended, its pnl added to capital. */
  function CloseAt(st: State, bar: Bar): (r: State)
    requires st.position.Some? && ValidPosition(st.position.value)
    ensures r.position.None? && |r.trades| == |st.trades| + 1 && r.trades[..|st.trades|] == st.trades
    ensures r.trades[|st.trades|] == CloseTrade(st.position.value, bar.time, bar.close)
    ensures r.capital == st.capital + r.trades[|st.trades|].pnl
  {
    var t := CloseTrade(st.position.value, bar.time, bar.close);
    State(st.capital + t.pnl, None, st.trades + [t])
  }

  /**
   * One iteration of the loop on the pair (`prev`, `cur`). When flat, an entry signal opens
   * a position if the sized quantity is positive; when open, an exit signal closes it.
   * Either way the ledger only grows by the closed trade, and capital moves only with it.
   */
  function Step(s: Strategy, fraction: real, st: State, prev: Bar, cur: Bar): (r: State)
    requires ValidState(st) && (st.position.None? && EntrySignal(s, prev, cur) ==> cur.close != 0.0)
    ensures ValidState(r)
    ensures (r.capital == st.capital && r.trades == st.trades)
      || (st.position.Some? && r.position.None? && |r.trades| == |st.trades| + 1
          && r.trades[..|st.trades|] == st.trades && r.capital == st.capital + r.trades[|st.trades|].pnl)
    ensures st.position.Some? && r.position.Some? ==> r == st
  {
    if st.position.None? && EntrySignal(s, prev, cur) then
      var quantity := Quantity(st.capital, fraction, cur.close);
      if quantity > 0 then st.(position := Some(Position(cur.close, quantity, cur.time))) else st
    else if st.position.Some? && ExitSignal(s, prev, cur) then
      CloseAt(st, cur)
    else
      st
  }

  /**
   * How many pairs the loop visits, `range(1, len(bars))`: none unless there are two bars,
   * and the last pair visited ends on a bar of the series.
   */
  function Iterations(bars: seq<Bar>): (r: nat)
    ensures r == 0 <==> |bars| <= 1
    ensures r < |bars| || bars == []
  {
    if |bars| == 0 then 0 else |bars| - 1
  }

  /** The state after the first `n` iterations of the loop, started from `start`. */
  function Replay(s: Strategy, fraction: real, start: State, bars: seq<Bar>, n: nat): (r: State)
    requires ValidState(start) && PricedSeries(s, bars) && n <= Iterations(bars)
    ensures ValidState(r)
    ensures start.trades <= r.trades && |r.trades| <= |start.trades| + n
    decreases n
  {
    if n == 0 then start
    else Step(s, fraction, Replay(s, fraction, start, bars, n - 1), bars[n - 1], bars[n])
  }

  /** After the loop: a position still open is closed at the last bar. */
  function Finish(st: State, bars: seq<Bar>): (r: State)
    requires ValidState(st) && (st.position.Some? ==> |bars| > 0)
    ensures r.position.None?
    ensures st.position.None? ==> r == st
  {
    if st.position.Some? then CloseAt(st, bars[|bars| - 1]) else st
  }

  /**
   * A whole run of one strategy over the trimmed series, from a flat `start`: it ends flat
   * and only appends to the ledger, at most one trade per bar.
   */
  function Simulate(s: Strategy, fraction: real, start: State, bars: seq<Bar>): (r: State)
    requires start.position.None? && PricedSeries(s, bars)
    ensures r.position.None?
    ensures start.trades <= r.trades && |r.trades| <= |start.trades| + |bars|
  {
    var end := Replay(s, fraction, start, bars, Iterations(bars));
    Finish(end, bars)
  }

  // ---------------------------------------------------------------------------------------
  // The position tracker's transitions
  // ---------------------------------------------------------------------------------------

  /**
   * When flat, a position is opened exactly when the entry test holds and the sized quantity
   * is positive (at least one whole unit affordable, see `Quantity`); it is bought at the
   * bar's close, and nothing else changes. An entry signal that sizes to zero units leaves
   * the state as it was.
   */
  lemma EntryRule(s: Strategy, fraction: real, st: State, prev: Bar, cur: Bar)
    requires ValidState(st) && st.position.None? && (EntrySignal(s, prev, cur) ==> cur.close != 0.0)
    ensures var r := Step(s, fraction, st, prev, cur);
      && r.capital == st.capital && r.trades == st.trades
      && (!EntrySignal(s, prev, cur) ==> r.position.None?)
      && (EntrySignal(s, prev, cur) ==>
            var q := Quantity(st.capital, fraction, cur.close);
            && (r.position.Some? <==> q > 0)
            && (r.position.Some? ==> r.position.value == Position(cur.close, q, cur.time)))
  {
  }

  /**
   * When a position is open, an entry signal is ignored: the exit test alone decides, and a
   * close appends exactly one trade for that position at the bar's close.
   */
  lemma OpenPositionRule(s: Strategy, fraction: real, st: State, prev: Bar, cur: Bar)
    requires ValidState(st) && st.position.Some?
    ensures var r := Step(s, fraction, st, prev, cur);
      && (!ExitSignal(s, prev, cur) ==> r == st)
      && (ExitSignal(s, prev, cur) ==>
            && r.position.None?
            && r.trades == st.trades + [CloseTrade(st.position.value, cur.time, cur.close)]
            && r.capital == st.capital + CloseTrade(st.position.value, cur.time, cur.close).pnl)
  {
    if ExitSignal(s, prev, cur) {
      var r := Step(s, fraction, st, prev, cur);
      assert r.trades == r.trades[..|st.trades|] + [r.trades[|st.trades|]];
    }
  }

  // ---------------------------------------------------------------------------------------
  // Invariants of a whole run
  // ---------------------------------------------------------------------------------------

  /** Capital minus the ledger's pnl is constant: capital changes only by closed trades' pnl. */
  lemma {:induction false} ReplayConservesCapital(s: Strategy, fraction: real, start: State, bars: seq<Bar>, n: nat)
    requires ValidState(start) && PricedSeries(s, bars) && n <= Iterations(bars)
    ensures var r := Replay(s, fraction, start, bars, n);
      r.capital - SumPnl(r.trades) == start.capital - SumPnl(start.trades)
  {
    if n > 0 {
      ReplayConservesCapital(s, fraction, start, bars, n - 1);
      var st := Replay(s, fraction, start, bars, n - 1);
      var r := Replay(s, fraction, start, bars, n);
      if r.trades != st.trades {
        assert r.trades == st.trades + [r.trades[|st.trades|]];
        SumPnlAppend(st.trades, r.trades[|st.trades|]);
      }
    }
  }

  /** Every trade the replay appends obeys the accounting rule. */
  lemma {:induction false} ReplayWellFormed(s: Strategy, fraction: real, start: State, bars: seq<Bar>, n: nat)
    requires ValidState(start) && PricedSeries(s, bars) && n <= Iterations(bars)
    requires AllWellFormed(start.trades)
    ensures AllWellFormed(Replay(s, fraction, start, bars, n).trades)
  {
    if n > 0 {
      ReplayWellFormed(s, fraction, start, bars, n - 1);
      var st := Replay(s, fraction, start, bars, n - 1);
      var r := Replay(s, fraction, start, bars, n);
      if r.trades != st.trades {
        forall k | 0 <= k < |r.trades| ensures WellFormed(r.trades[k]) {
          if k < |st.trades| {
            assert r.trades[k] == r.trades[..|st.trades|][k];
          }
        }
      }
    }
  }

  /** A whole run keeps the capital identity: final capital is start capital plus new pnl. */
  lemma SimulateConservesCapital(s: Strategy, fraction: real, start: State, bars: seq<Bar>)
    requires start.position.None? && PricedSeries(s, bars)
    ensures var r := Simulate(s, fraction, start, bars);
      && r.position.None?
      && r.capital - SumPnl(r.trades) == start.capital - SumPnl(start.trades)
      && (AllWellFormed(start.trades) ==> AllWellFormed(r.trades))
  {
    var end := Replay(s, fraction, start, bars, Iterations(bars));
    ReplayConservesCapital(s, fraction, start, bars, Iterations(bars));
    if AllWellFormed(start.trades) {
      ReplayWellFormed(s, fraction, start, bars, Iterations(bars));
    }
    if end.position.Some? {
      var r := Finish(end, bars);
      assert r.trades == end.trades + [r.trades[|end.trades|]];
      SumPnlAppend(end.trades, r.trades[|end.trades|]);
    }
  }

  /**
   * What the loop keeps on a chronological series started with an empty ledger, after `n`
   * iterations (so bar `n` is the last one seen): the trades so far are ordered, each exited
   * strictly after it entered, none exited after bar `n`, and an open position was entered
   * after the last exit, no later than bar `n`, and at bar `n`'s close if on bar `n`.
   */
  predicate LoopOrdered(st: State, bars: seq<Bar>, n: nat)
    requires n < |bars|
  {
    var ts := st.trades;
    && OrderedLedger(ts)
    && (forall k :: 0 <= k < |ts| ==> ts[k].entryTime < ts[k].exitTime)
    && (|ts| > 0 ==> ts[|ts| - 1].exitTime <= bars[n].time)
    && (st.position.Some? ==>
          var p := st.position.value;
          && p.entryTime <= bars[n].time
          && (p.entryTime == bars[n].time ==> p.entryPrice == bars[n].close)
          && (|ts| > 0 ==> ts[|ts| - 1].exitTime < p.entryTime))
  }

  /** One iteration keeps `LoopOrdered`, moving from bar `n - 1` to bar `n`. */
  lemma StepOrdered(s: Strategy, fraction: real, st: State, bars: seq<Bar>, n: nat)
    requires PricedSeries(s, bars) && Chronological(bars) && 0 < n < |bars|
    requires ValidState(st) && LoopOrdered(st, bars, n - 1)
    ensures LoopOrdered(Step(s, fraction, st, bars[n - 1], bars[n]), bars, n)
  {
    var prev, cur := bars[n - 1], bars[n];
    assert prev.time < cur.time;
    var r := Step(s, fraction, st, prev, cur);
    if st.position.None? {
      assert r.trades == st.trades;
    } else if ExitSignal(s, prev, cur) {
      var p := st.position.value;
      var t := CloseTrade(p, cur.time, cur.close);
      assert r.trades == st.trades + [t];
      assert t.entryTime == p.entryTime < t.exitTime == cur.time;
      var ts := r.trades;
      assert forall k :: 0 <= k < |st.trades| ==> ts[k] == st.trades[k];
      assert OrderedLedger(ts);
    } else {
      assert r == st;
    }
  }

  lemma {:induction false} ReplayOrdered(s: Strategy, fraction: real, capital: real, bars: seq<Bar>, n: nat)
    requires PricedSeries(s, bars) && Chronological(bars) && |bars| > 0 && n <= Iterations(bars)
    ensures LoopOrdered(Replay(s, fraction, State(capital, None, []), bars, n), bars, n)
  {
    if n > 0 {
      ReplayOrdered(s, fraction, capital, bars, n - 1);
      StepOrdered(s, fraction, Replay(s, fraction, State(capital, None, []), bars, n - 1), bars, n);
    }
  }

  /**
   * On a chronological series the ledger of a run is in time order; every trade but the last
   * exits strictly after it entered (a signal exit is on a later bar), and a trade that exits
   * on its entry bar (a position opened on the last bar and closed there) has zero pnl.
   */
  lemma SimulateOrdered(s: Strategy, fraction: real, capital: real, bars: seq<Bar>)
    requires PricedSeries(s, bars) && Chronological(bars)
    ensures var ts := Simulate(s, fraction, State(capital, None, []), bars).trades;
      && OrderedLedger(ts)
      && (forall k :: 0 <= k < |ts| - 1 ==> ts[k].entryTime < ts[k].exitTime)
      && (forall k :: 0 <= k < |ts| ==> ts[k].entryTime == ts[k].exitTime ==> ts[k].pnl == 0.0)
  {
    var start := State(capital, None, []);
    if |bars| > 0 {
      var n := Iterations(bars);
      ReplayOrdered(s, fraction, capital, bars, n);
      var end := Replay(s, fraction, start, bars, n);
      if end.position.Some? {
        var last := bars[|bars| - 1];
        var t := CloseTrade(end.position.value, last.time, last.close);
        var ts := Simulate(s, fraction, start, bars).trades;
        assert ts == end.trades + [t];
        forall k | 0 <= k < |ts| - 1 ensures ts[k] == end.trades[k] { }
      }
    }
  }

  /**
   * A position still open after the loop becomes exactly one more trade, closed at the last
   * bar's time and close; otherwise the loop's final state is the result.
   */
  lemma ForcedClose(s: Strategy, fraction: real, start: State, bars: seq<Bar>)
    requires start.position.None? && PricedSeries(s, bars)
    ensures var end := Replay(s, fraction, start, bars, Iterations(bars));
      var r := Simulate(s, fraction, start, bars);
      && (end.position.None? ==> r == end)
      && (end.position.Some? ==>
            && |bars| > 1
            && r.position.None?
            && |r.trades| == |end.trades| + 1 && r.trades[..|end.trades|] == end.trades
            && r.trades[|end.trades|] == CloseTrade(end.position.value, bars[|bars| - 1].time, bars[|bars| - 1].close)
            && r.capital == end.capital + r.trades[|end.trades|].pnl)
  {
  }
}
