/** The performance summary of a trade log: the number of trades, the sum of
    their percentage profits and the percentage of winning trades, or no
    summary at all when nothing was traded. */
module Performance {
  import opened Wrappers
  import opened Strategy

  datatype Metrics = Metrics(numTrades: nat, totalProfitPct: real, winRate: real)

  /** The sum of the trades' percentage profits. */
  function TotalProfit(trades: seq<Trade>): (total: real)
  {
    if |trades| == 0 then 0.0
    else TotalProfit(trades[..|trades| - 1]) + trades[|trades| - 1].profitPct
  }

  /** The number of trades with a strictly positive profit. */
  function Wins(trades: seq<Trade>): (wins: nat)
  {
    if |trades| == 0 then 0
    else Wins(trades[..|trades| - 1]) + (if trades[|trades| - 1].profitPct > 0.0 then 1 else 0)
  }

  /** The indices of the winning trades: an independent reading of `Wins`. */
  function WinnerIndices(trades: seq<Trade>): (winners: set<nat>)
  {
    set j: nat | j < |trades| && trades[j].profitPct > 0.0
  }

  /** `Wins` counts exactly the winning trades. */
  lemma {:induction false} WinsCountsWinners(trades: seq<Trade>)
    ensures Wins(trades) == |WinnerIndices(trades)|
  {
    if |trades| > 0 {
      var n := |trades| - 1;
      var front := trades[..n];
      WinsCountsWinners(front);
      assert forall j: nat :: j < n ==> front[j] == trades[j];
      if trades[n].profitPct > 0.0 {
        assert WinnerIndices(trades) == WinnerIndices(front) + {n};
      } else {
        assert WinnerIndices(trades) == WinnerIndices(front);
      }
    }
  }

  /** Every trade wins exactly when the win count is the trade count, and
      none does exactly when it is zero; in any case it is at most the trade
      count. */
  lemma {:induction false} WinsBounds(trades: seq<Trade>)
    ensures Wins(trades) <= |trades|
    ensures Wins(trades) == |trades| <==> forall j :: 0 <= j < |trades| ==> trades[j].profitPct > 0.0
    ensures Wins(trades) == 0 <==> forall j :: 0 <= j < |trades| ==> trades[j].profitPct <= 0.0
  {
    if |trades| > 0 {
      var n := |trades| - 1;
      var front := trades[..n];
      WinsBounds(front);
      assert forall j :: 0 <= j < n ==> front[j] == trades[j];
    }
  }

  /** Total profit adds up over a split of the log. */
  lemma {:induction false} TotalProfitAppend(a: seq<Trade>, b: seq<Trade>)
    ensures TotalProfit(a + b) == TotalProfit(a) + TotalProfit(b)
    decreases |b|
  {
    if |b| == 0 {
      assert a + b == a;
    } else {
      var n := |b| - 1;
      assert (a + b)[..|a + b| - 1] == a + b[..n];
      assert (a + b)[|a + b| - 1] == b[n];
      TotalProfitAppend(a, b[..n]);
    }
  }

  lemma RateFacts(w: real, n: real)
    requires 0.0 <= w <= n && n > 0.0
    ensures 0.0 <= w / n * 100.0 <= 100.0
    ensures w / n * 100.0 * n == 100.0 * w
    ensures w / n * 100.0 == 100.0 <==> w == n
    ensures w / n * 100.0 == 0.0 <==> w == 0.0
  {
    assert w / n * n == w;
  }

  /** The summary: none for an empty log; otherwise the trade count, the
      total profit and a win rate in [0, 100] with win rate times count equal
      to 100 times the number of winners, 100 exactly when every trade wins
      and 0 exactly when none does. */
  function Summarise(trades: seq<Trade>): (m: Option<Metrics>)
    ensures m.None? <==> |trades| == 0
    ensures m.Some? ==>
      && m.value.numTrades == |trades|
      && m.value.totalProfitPct == TotalProfit(trades)
      && 0.0 <= m.value.winRate <= 100.0
      && m.value.winRate * (|trades| as real) == 100.0 * (|WinnerIndices(trades)| as real)
      && (m.value.winRate == 100.0 <==> forall j :: 0 <= j < |trades| ==> trades[j].profitPct > 0.0)
      && (m.value.winRate == 0.0 <==> forall j :: 0 <= j < |trades| ==> trades[j].profitPct <= 0.0)
  {
    if |trades| == 0 then None
    else
      var numTrades := |trades|;
      var winning := Wins(trades);
      WinsBounds(trades);
      WinsCountsWinners(trades);
      RateFacts(winning as real, numTrades as real);
      Some(Metrics(numTrades, TotalProfit(trades), (winning as real) / (numTrades as real) * 100.0))
  }
}
