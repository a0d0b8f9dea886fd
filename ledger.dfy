/**
 * Positions, trades and the ledger's arithmetic: position sizing, the pnl of a closed
 * trade, and the sums and filters the metrics are built from.
 */
module Ledger {

  /** The one open long position: bought `quantity` units at `entryPrice` on bar `entryTime`. */
  datatype Position = Position(entryPrice: real, quantity: int, entryTime: int)

  /** A completed round trip, as appended to the ledger when a position is closed. */
  datatype Trade = Trade(
    entryTime: int,
    exitTime: int,
    entryPrice: real,
    exitPrice: real,
    quantity: int,
    pnl: real,
    pnlPercent: real)

  /** A position the engine can open: a whole positive quantity at a price that is not zero. */
  predicate ValidPosition(p: Position) {
    p.quantity > 0 && p.entryPrice != 0.0
  }

  /** The accounting rule every ledger entry obeys. */
  predicate WellFormed(t: Trade) {
    && t.quantity > 0
    && t.entryPrice != 0.0
    && t.pnl == (t.exitPrice - t.entryPrice) * t.quantity as real
    && t.pnlPercent == t.pnl / (t.entryPrice * t.quantity as real) * 100.0
  }

  predicate AllWellFormed(ts: seq<Trade>) {
    forall k :: 0 <= k < |ts| ==> WellFormed(ts[k])
  }

  /** Python's `int(x)` on a float: the integer part, truncated toward zero. */
  function Truncate(x: real): (r: int)
    ensures 0.0 <= x ==> r as real <= x < r as real + 1.0
    ensures x < 0.0 ==> r as real - 1.0 < x <= r as real
  {
    if x >= 0.0 then x.Floor else -((-x).Floor)
  }

  /**
   * Units bought at `price` with `fraction` of `capital`. It is positive exactly when
   * `capital * fraction / price` is at least 1; below 1 nothing is bought.
   */
  function Quantity(capital: real, fraction: real, price: real): (q: int)
    requires price != 0.0
    ensures q > 0 <==> capital * fraction / price >= 1.0
    ensures capital * fraction / price >= 0.0 ==> q == (capital * fraction / price).Floor
  {
    Truncate(capital * fraction / price)
  }

  /** The ledger entry for closing position `p` at `exitPrice` on bar `exitTime`. */
  function CloseTrade(p: Position, exitTime: int, exitPrice: real): (t: Trade)
    requires ValidPosition(p)
    ensures WellFormed(t)
    ensures t.entryTime == p.entryTime && t.entryPrice == p.entryPrice && t.quantity == p.quantity
    ensures t.exitTime == exitTime && t.exitPrice == exitPrice
    ensures t.pnl > 0.0 <==> exitPrice > p.entryPrice
    ensures t.pnl < 0.0 <==> exitPrice < p.entryPrice
    ensures t.pnlPercent == (exitPrice - p.entryPrice) / p.entryPrice * 100.0
  {
    var q := p.quantity as real;
    var pnl := (exitPrice - p.entryPrice) * q;
    CancelFactor(exitPrice - p.entryPrice, p.entryPrice, q);
    Trade(p.entryTime, exitTime, p.entryPrice, exitPrice, p.quantity, pnl, pnl / (p.entryPrice * q) * 100.0)
  }

  lemma CancelFactor(a: real, b: real, c: real)
    requires b != 0.0 && c != 0.0
    ensures (a * c) / (b * c) == a / b
  {
    var d := a / b;
    assert a == d * b;
    assert a * c == d * (b * c);
  }

  /**
   * Sum of the trades' pnl, added left to right as Python's `sum` does. Break-even trades add
   * nothing, so a ledger of them sums to zero.
   */
  function SumPnl(ts: seq<Trade>): (r: real)
    ensures (forall k :: 0 <= k < |ts| ==> ts[k].pnl == 0.0) ==> r == 0.0
  {
    if ts == [] then 0.0 else SumPnl(ts[..|ts| - 1]) + ts[|ts| - 1].pnl
  }

  lemma SumPnlAppend(ts: seq<Trade>, t: Trade)
    ensures SumPnl(ts + [t]) == SumPnl(ts) + t.pnl
  {
    assert (ts + [t])[..|ts|] == ts;
  }

  /** The winning trades (pnl > 0), in ledger order. */
  function Winners(ts: seq<Trade>): (r: seq<Trade>)
    ensures |r| <= |ts|
    ensures forall t :: t in r ==> t in ts && t.pnl > 0.0
  {
    if ts == [] then []
    else
      var last := ts[|ts| - 1];
      assert ts == ts[..|ts| - 1] + [last];
      Winners(ts[..|ts| - 1]) + (if last.pnl > 0.0 then [last] else [])
  }

  /** The losing trades (pnl < 0), in ledger order. */
  function Losers(ts: seq<Trade>): (r: seq<Trade>)
    ensures |r| <= |ts|
    ensures forall t :: t in r ==> t in ts && t.pnl < 0.0
  {
    if ts == [] then []
    else
      var last := ts[|ts| - 1];
      assert ts == ts[..|ts| - 1] + [last];
      Losers(ts[..|ts| - 1]) + (if last.pnl < 0.0 then [last] else [])
  }

  /** Every winning trade of the ledger is among the winners. */
  lemma {:induction false} WinnerIncluded(ts: seq<Trade>, k: nat)
    requires k < |ts| && ts[k].pnl > 0.0
    ensures ts[k] in Winners(ts)
  {
    if k < |ts| - 1 {
      var init := ts[..|ts| - 1];
      assert init[k] == ts[k];
      WinnerIncluded(init, k);
    }
  }

  /** Every losing trade of the ledger is among the losers. */
  lemma {:induction false} LoserIncluded(ts: seq<Trade>, k: nat)
    requires k < |ts| && ts[k].pnl < 0.0
    ensures ts[k] in Losers(ts)
  {
    if k < |ts| - 1 {
      var init := ts[..|ts| - 1];
      assert init[k] == ts[k];
      LoserIncluded(init, k);
    }
  }

  /** The number of winners is the number of positions in the ledger holding a trade with pnl > 0. */
  lemma {:induction false} WinnersCounted(ts: seq<Trade>)
    ensures |Winners(ts)| == |set k | 0 <= k < |ts| && ts[k].pnl > 0.0|
  {
    if ts != [] {
      var init, last := ts[..|ts| - 1], ts[|ts| - 1];
      WinnersCounted(init);
      var before := set k | 0 <= k < |init| && init[k].pnl > 0.0;
      var after := set k | 0 <= k < |ts| && ts[k].pnl > 0.0;
      assert forall k :: 0 <= k < |init| ==> init[k] == ts[k];
      if last.pnl > 0.0 {
        assert after == before + {|ts| - 1};
        assert |ts| - 1 !in before;
      } else {
        assert after == before;
      }
    }
  }

  /** The number of losers is the number of positions in the ledger holding a trade with pnl < 0. */
  lemma {:induction false} LosersCounted(ts: seq<Trade>)
    ensures |Losers(ts)| == |set k | 0 <= k < |ts| && ts[k].pnl < 0.0|
  {
    if ts != [] {
      var init, last := ts[..|ts| - 1], ts[|ts| - 1];
      LosersCounted(init);
      var before := set k | 0 <= k < |init| && init[k].pnl < 0.0;
      var after := set k | 0 <= k < |ts| && ts[k].pnl < 0.0;
      assert forall k :: 0 <= k < |init| ==> init[k] == ts[k];
      if last.pnl < 0.0 {
        assert after == before + {|ts| - 1};
        assert |ts| - 1 !in before;
      } else {
        assert after == before;
      }
    }
  }

  /** Gains add up to a positive total. */
  lemma {:induction false} SumOfGains(ts: seq<Trade>)
    requires forall t :: t in ts ==> t.pnl > 0.0
    ensures SumPnl(ts) >= 0.0
    ensures ts != [] ==> SumPnl(ts) > 0.0
  {
    if ts != [] {
      var init := ts[..|ts| - 1];
      assert forall t :: t in init ==> t in ts;
      SumOfGains(init);
      assert ts[|ts| - 1] in ts;
    }
  }

  /** Losses add up to a negative total. */
  lemma {:induction false} SumOfLosses(ts: seq<Trade>)
    requires forall t :: t in ts ==> t.pnl < 0.0
    ensures SumPnl(ts) <= 0.0
    ensures ts != [] ==> SumPnl(ts) < 0.0
  {
    if ts != [] {
      var init := ts[..|ts| - 1];
      assert forall t :: t in init ==> t in ts;
      SumOfLosses(init);
      assert ts[|ts| - 1] in ts;
    }
  }

  /** Break-even trades contribute nothing: the total pnl is gains plus losses. */
  lemma {:induction false} PnlSplitsIntoGainsAndLosses(ts: seq<Trade>)
    ensures SumPnl(ts) == SumPnl(Winners(ts)) + SumPnl(Losers(ts))
  {
    if ts != [] {
      var init, last := ts[..|ts| - 1], ts[|ts| - 1];
      PnlSplitsIntoGainsAndLosses(init);
      SumPnlAppend(init, last);
      if last.pnl > 0.0 {
        assert Winners(ts) == Winners(init) + [last];
        assert Losers(ts) == Losers(init) + [] == Losers(init);
        SumPnlAppend(Winners(init), last);
      } else if last.pnl < 0.0 {
        assert Winners(ts) == Winners(init) + [] == Winners(init);
        assert Losers(ts) == Losers(init) + [last];
        SumPnlAppend(Losers(init), last);
      } else {
        assert Winners(ts) == Winners(init) + [] == Winners(init);
        assert Losers(ts) == Losers(init) + [] == Losers(init);
      }
    }
  }

  /** A trade is a win, a loss or neither, never both. */
  lemma {:induction false} WinsAndLossesBounded(ts: seq<Trade>)
    ensures |Winners(ts)| + |Losers(ts)| <= |ts|
  {
    if ts != [] {
      WinsAndLossesBounded(ts[..|ts| - 1]);
    }
  }

  /** Every trade is a win exactly when the winners are the whole ledger. */
  lemma {:induction false} AllWinners(ts: seq<Trade>)
    ensures |Winners(ts)| == |ts| <==> forall k :: 0 <= k < |ts| ==> ts[k].pnl > 0.0
  {
    if ts != [] {
      var init, last := ts[..|ts| - 1], ts[|ts| - 1];
      AllWinners(init);
      assert |Winners(ts)| == |Winners(init)| + (if last.pnl > 0.0 then 1 else 0);
      assert (forall k :: 0 <= k < |ts| ==> ts[k].pnl > 0.0)
        <==> (forall k :: 0 <= k < |init| ==> init[k].pnl > 0.0) && last.pnl > 0.0
      by {
        assert forall k :: 0 <= k < |init| ==> init[k] == ts[k];
      }
    }
  }

  /**
   * The ledger of one run in time order: each trade exits no earlier than it entered, and
   * the next trade enters strictly after the previous one exited.
   */
  predicate OrderedLedger(ts: seq<Trade>) {
    && (forall k :: 0 <= k < |ts| ==> ts[k].entryTime <= ts[k].exitTime)
    && (forall k :: 0 < k < |ts| ==> ts[k - 1].exitTime < ts[k].entryTime)
  }

  /** In an ordered ledger no two trades overlap, and exit times strictly increase. */
  lemma {:induction false} TradesNeverOverlap(ts: seq<Trade>)
    requires OrderedLedger(ts)
    ensures forall j, k :: 0 <= j < k < |ts| ==> ts[j].exitTime < ts[k].entryTime
    ensures forall j, k :: 0 <= j < k < |ts| ==> ts[j].exitTime < ts[k].exitTime
  {
    if |ts| > 1 {
      var init := ts[..|ts| - 1];
      assert OrderedLedger(init) by {
        forall k | 0 <= k < |init| ensures init[k] == ts[k] { }
      }
      TradesNeverOverlap(init);
      forall j, k | 0 <= j < k < |ts| ensures ts[j].exitTime < ts[k].entryTime {
        if k < |ts| - 1 {
          assert ts[j] == init[j] && ts[k] == init[k];
        } else if j < k - 1 {
          assert ts[j] == init[j] && ts[k - 1] == init[k - 1];
        }
      }
    }
  }
}
