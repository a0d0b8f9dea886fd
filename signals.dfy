/**
 * Strategy evaluators: the pure entry and exit tests each strategy applies to a pair of
 * consecutive bars of the indicator-enriched series.
 */
module Signals {

  /**
   * One row of the price series after the warm-up rows without indicator values were
   * dropped. `time` is the row label; the indicator fields are the columns the external
   * indicator code attached (each strategy reads only its own).
   */
  datatype Bar = Bar(
    time: int,
    close: real,
    shortSma: real,
    longSma: real,
    rsi: real,
    macd: real,
    macdSignal: real)

  /** The three strategy kinds, with the parameters their signal tests use. */
  datatype Strategy = SmaCross | Rsi(oversold: real, overbought: real) | Macd

  /**
   * Series `a` crosses above series `b`: at or below on the previous bar, strictly above now.
   * It is `b` crossing below `a`, and it needs one of the two series to move.
   */
  predicate CrossesAbove(prevA: real, prevB: real, curA: real, curB: real)
    ensures CrossesAbove(prevA, prevB, curA, curB) <==> CrossesBelow(prevB, prevA, curB, curA)
    ensures CrossesAbove(prevA, prevB, curA, curB) ==> prevA != curA || prevB != curB
  {
    prevA <= prevB && curA > curB
  }

  /**
   * Series `a` crosses below series `b`: at or above on the previous bar, strictly below now.
   * It needs one of the two series to move.
   */
  predicate CrossesBelow(prevA: real, prevB: real, curA: real, curB: real)
    ensures CrossesBelow(prevA, prevB, curA, curB) ==> prevA != curA || prevB != curB
  {
    prevA >= prevB && curA < curB
  }

  /** The buy test of each strategy; a row repeated unchanged never triggers it. */
  predicate EntrySignal(s: Strategy, prev: Bar, cur: Bar)
    ensures EntrySignal(s, prev, cur) ==> prev != cur
  {
    match s
    case SmaCross => CrossesAbove(prev.shortSma, prev.longSma, cur.shortSma, cur.longSma)
    case Rsi(oversold, _) => CrossesAbove(prev.rsi, oversold, cur.rsi, oversold)
    case Macd => CrossesAbove(prev.macd, prev.macdSignal, cur.macd, cur.macdSignal)
  }

  /**
   * The sell test of each strategy; RSI exits on the overbought level, not the oversold one.
   * A row repeated unchanged never triggers it.
   */
  predicate ExitSignal(s: Strategy, prev: Bar, cur: Bar)
    ensures ExitSignal(s, prev, cur) ==> prev != cur
  {
    match s
    case SmaCross => CrossesBelow(prev.shortSma, prev.longSma, cur.shortSma, cur.longSma)
    case Rsi(_, overbought) => CrossesBelow(prev.rsi, overbought, cur.rsi, overbought)
    case Macd => CrossesBelow(prev.macd, prev.macdSignal, cur.macd, cur.macdSignal)
  }

  /** No pair of bars gives both a buy and a sell signal, whatever the RSI levels are. */
  lemma SignalsExclusive(s: Strategy, prev: Bar, cur: Bar)
    ensures !(EntrySignal(s, prev, cur) && ExitSignal(s, prev, cur))
  {
  }

  /**
   * Non-strict on the previous bar and strict on the current one: a crossover never fires
   * on two consecutive pairs, so a series that stays above its reference signals once.
   */
  lemma NoRepeatedSignal(s: Strategy, b0: Bar, b1: Bar, b2: Bar)
    ensures EntrySignal(s, b0, b1) ==> !EntrySignal(s, b1, b2)
    ensures ExitSignal(s, b0, b1) ==> !ExitSignal(s, b1, b2)
  {
  }
}
