/** The figures computed from the books of a backtest. */
module BacktestMetrics {
  import opened Basics
  import opened HistoryRows
  import opened BacktestLedger

  /** Amounts, ratios and rates are in units of 0.0001; the profit factor is not rounded, and none when nothing was lost
      but something was won. */
  datatype Metrics = Metrics(tradeCount: nat, decisionCount: nat, fillCount: nat, noTradeCount: nat, gross: int,
                             cost: int, net: int, winCount: nat, lossCount: nat, winRate: int, averageWin: int,
                             averageLoss: int, payoff: int, profitFactor: Option<real>, expectancy: int,
                             maxDrawdown: int, endingEquity: int, byUnderlying: map<string, nat>,
                             byType: map<string, nat>)

  /** The deepest fall from any point of the curve to any later one. */
  ghost predicate IsDrawdown(values: seq<int>, d: int) {
    && (forall i, j :: 0 <= i <= j < |values| ==> d <= values[j] - values[i])
    && (if values == [] then d == 0 else exists i, j :: 0 <= i <= j < |values| && d == values[j] - values[i])
  }

  /** One pass with a running peak finds it. */
  method Drawdown(values: seq<int>) returns (d: int)
    ensures IsDrawdown(values, d)
  {
    d := 0;
    if values == [] {
      return;
    }
    var peak := values[0];
    ghost var at, low, high: int := 0, 0, 0;
    for k := 0 to |values|
      invariant 0 <= at < |values| && (k > 0 ==> at < k) && (k == 0 ==> at == 0) && peak == values[at]
      invariant forall i :: 0 <= i < k ==> values[i] <= peak
      invariant forall i, j :: 0 <= i <= j < k ==> d <= values[j] - values[i]
      invariant 0 <= high <= low < |values| && d == values[low] - values[high]
    {
      if values[k] > peak {
        peak, at := values[k], k;
      }
      if values[k] - peak < d {
        d, low, high := values[k] - peak, k, at;
      }
    }
  }

  // Rounding.

  /** `q` is `num / den` rounded to the nearest integer, a tie to the even one. */
  ghost predicate IsRounded(num: int, den: int, q: int) {
    && -den <= 2 * (num - q * den) <= den
    && (2 * (num - q * den) == den || 2 * (num - q * den) == -den ==> q % 2 == 0)
  }

  /** A rounded quotient, and 0 for nothing to divide by. */
  function Rounded(num: int, den: nat): (q: int)
    ensures if den == 0 then q == 0 else IsRounded(num, den, q)
  {
    if den == 0 then 0
    else
      var low, r := num / den, num % den;
      assert num == low * den + r && (low + 1) * den == low * den + den;
      if 2 * r < den || (2 * r == den && low % 2 == 0) then low else low + 1
  }

  // Wins and losses.

  function Won(trades: seq<Trade>): seq<Trade> { Filter(trades, (t: Trade) => t.net > 0) }

  function Lost(trades: seq<Trade>): seq<Trade> { Filter(trades, (t: Trade) => t.net < 0) }

  function WinSum(trades: seq<Trade>): int { Sum(Nets(Won(trades))) }

  function LossSum(trades: seq<Trade>): int { -Sum(Nets(Lost(trades))) }

  /** What was won less what was lost is the net of all, and there is a sum exactly when there is a win or a loss. */
  lemma {:induction false} WinsLessLosses(trades: seq<Trade>)
    ensures Sum(Nets(trades)) == WinSum(trades) - LossSum(trades)
    ensures WinSum(trades) >= |Won(trades)| && LossSum(trades) >= |Lost(trades)|
    ensures |Won(trades)| + |Lost(trades)| <= |trades|
    decreases |trades|
  {
    hide Sum, Nets, Filter;
    NoTrades();
    if trades != [] {
      var front, last := trades[..|trades| - 1], trades[|trades| - 1];
      assert trades == front + [last];
      WinsLessLosses(front);
      WonGrows(front, last);
      NetsLast(front, last);
      NetsLast(Won(front), last);
      NetsLast(Lost(front), last);
    }
  }

  lemma NoTrades()
    ensures Won([]) == [] && Lost([]) == [] && Sum(Nets([])) == 0
  {
  }

  lemma WonGrows(trades: seq<Trade>, t: Trade)
    ensures Won(trades + [t]) == if t.net > 0 then Won(trades) + [t] else Won(trades)
    ensures Lost(trades + [t]) == if t.net < 0 then Lost(trades) + [t] else Lost(trades)
  {
    FilterConcat(trades, [t], (x: Trade) => x.net > 0);
    FilterConcat(trades, [t], (x: Trade) => x.net < 0);
    FilterOne(t, (x: Trade) => x.net > 0);
    FilterOne(t, (x: Trade) => x.net < 0);
  }

  /** The profit factor: won by lost. */
  function ProfitFactor(won: nat, lost: nat): Option<real> {
    if lost > 0 then Some(won as real / lost as real) else if won > 0 then None else Some(0.0)
  }

  /** The average win by the average loss. */
  function Payoff(won: nat, wins: nat, lost: nat, losses: nat): int {
    Rounded(10000 * won * losses, wins * lost)
  }

  /** The profit factor times what was lost is what was won; it is 0 when there was neither and none when only won. */
  lemma ProfitFactorMeaning(trades: seq<Trade>)
    ensures WinSum(trades) >= 0 && LossSum(trades) >= 0
    ensures match ProfitFactor(WinSum(trades), LossSum(trades))
            case Some(factor) => factor * LossSum(trades) as real == WinSum(trades) as real
            case None => LossSum(trades) == 0 < WinSum(trades)
  {
    hide Sum, Filter;
    WinsLessLosses(trades);
  }

  /** The payoff in units of 0.0001 is the average win divided by the average loss to within half a unit; it is 0 when
      nothing was won or nothing was lost. */
  lemma PayoffMeaning(trades: seq<Trade>)
    ensures WinSum(trades) >= 0 && LossSum(trades) >= 0
    ensures var p := Payoff(WinSum(trades), |Won(trades)|, LossSum(trades), |Lost(trades)|);
            if Won(trades) == [] || Lost(trades) == [] then p == 0
            else
              var win := WinSum(trades) as real / |Won(trades)| as real;
              var loss := LossSum(trades) as real / |Lost(trades)| as real;
              loss > 0.0 && -0.5 * loss <= p as real * loss - 10000.0 * win <= 0.5 * loss
  {
    hide Sum, Filter, Rounded;
    WinsLessLosses(trades);
    NoTrades();
    var won, wins, lost, losses := WinSum(trades), |Won(trades)|, LossSum(trades), |Lost(trades)|;
    if wins > 0 && losses > 0 {
      RatioOfAverages(won, wins, lost, losses, Payoff(won, wins, lost, losses));
    }
  }

  lemma RatioOfAverages(won: nat, wins: nat, lost: nat, losses: nat, p: int)
    requires wins > 0 && losses > 0 && lost > 0 && p == Rounded(10000 * won * losses, wins * lost)
    ensures var win, loss := won as real / wins as real, lost as real / losses as real;
            loss > 0.0 && -0.5 * loss <= p as real * loss - 10000.0 * win <= 0.5 * loss
  {
    hide Rounded;
    var win, loss, k := won as real / wins as real, lost as real / losses as real, wins as real * losses as real;
    var num, den := 10000 * won * losses, wins * lost;
    assert k > 0.0;
    Scaled(won, wins, losses);
    Scaled(lost, losses, wins);
    var miss := p as real * loss - 10000.0 * win;
    assert IsRounded(num, den, p) && den > 0;
    assert loss * k == den as real && win * k == (won * losses) as real;
    assert miss * k == p as real * (loss * k) - 10000.0 * (win * k);
    assert miss * k == (p * den - num) as real;
    NotAbove(-0.5 * loss, miss, k);
    NotAbove(miss, 0.5 * loss, k);
  }

  lemma Positive(a: real, k: real)
    requires k > 0.0
    ensures a > 0.0 ==> a * k > 0.0
  {
  }

  lemma NotAbove(a: real, b: real, k: real)
    requires k > 0.0 && a * k <= b * k
    ensures a <= b
  {
    Positive(a - b, k);
  }

  lemma Scaled(a: nat, b: nat, c: nat)
    requires b > 0 && c > 0
    ensures var q := a as real / b as real; q * (b as real * c as real) == (a * c) as real
  {
    var q := a as real / b as real;
    assert q * b as real == a as real;
    assert q * (b as real * c as real) == (q * b as real) * c as real;
  }

  // Counting by a name.

  /** `counts` holds, for exactly the labels that occur, how often they do. */
  ghost predicate Counts(counts: map<string, nat>, trades: seq<Trade>, tag: Trade -> string) {
    forall name: string ::
      && (name in counts <==> Labelled(trades, tag, name) != [])
      && (name in counts ==> counts[name] == |Labelled(trades, tag, name)|)
  }

  function Labelled(trades: seq<Trade>, tag: Trade -> string, name: string): seq<Trade> {
    Filter(trades, (t: Trade) => tag(t) == name)
  }

  method CountBy(trades: seq<Trade>, tag: Trade -> string) returns (counts: map<string, nat>)
    ensures Counts(counts, trades, tag)
  {
    hide Labelled;
    counts := map[];
    LabelledNothing(tag);
    for i := 0 to |trades|
      invariant Counts(counts, trades[..i], tag)
    {
      assert trades[..i + 1] == trades[..i] + [trades[i]];
      LabelledGrows(trades[..i], trades[i], tag);
      var name := tag(trades[i]);
      counts := counts[name := (if name in counts then counts[name] else 0) + 1];
    }
    assert trades[..|trades|] == trades;
  }

  lemma LabelledNothing(tag: Trade -> string)
    ensures forall name :: Labelled([], tag, name) == []
  {
  }

  lemma LabelledGrows(trades: seq<Trade>, t: Trade, tag: Trade -> string)
    ensures forall name ::
              var before := Labelled(trades, tag, name);
              Labelled(trades + [t], tag, name) == if tag(t) == name then before + [t] else before
  {
    hide Filter;
    forall name
      ensures var before := Labelled(trades, tag, name);
              Labelled(trades + [t], tag, name) == if tag(t) == name then before + [t] else before
    {
      FilterConcat(trades, [t], (x: Trade) => tag(x) == name);
      FilterOne(t, (x: Trade) => tag(x) == name);
    }
  }

  // The report.

  method Calculate(ledger: Ledger) returns (m: Metrics)
    ensures m.tradeCount == |ledger.trades| && m.decisionCount == |ledger.decisions|
    ensures m.fillCount == |Fills(ledger.decisions)| && m.fillCount + m.noTradeCount == m.decisionCount
    ensures m.gross == Sum(Grosses(ledger.trades)) && m.cost == Sum(Costs(ledger.trades))
    ensures m.net == Sum(Nets(ledger.trades))
    ensures m.winCount == |Won(ledger.trades)| && m.lossCount == |Lost(ledger.trades)|
    ensures m.winRate == Rounded(10000 * m.winCount, m.tradeCount) && m.expectancy == Rounded(m.net, m.tradeCount)
    ensures m.averageWin == Rounded(WinSum(ledger.trades), m.winCount)
    ensures m.averageLoss == Rounded(LossSum(ledger.trades), m.lossCount)
    ensures WinSum(ledger.trades) >= 0 && LossSum(ledger.trades) >= 0
    ensures m.payoff == Payoff(WinSum(ledger.trades), m.winCount, LossSum(ledger.trades), m.lossCount)
    ensures m.profitFactor == ProfitFactor(WinSum(ledger.trades), LossSum(ledger.trades))
    ensures IsDrawdown(Map((p: (Option<Time>, int)) => p.1, ledger.equity), m.maxDrawdown)
    ensures m.endingEquity == ledger.cash
    ensures Counts(m.byUnderlying, ledger.trades, (t: Trade) => t.ticker)
    ensures Counts(m.byType, ledger.trades, (t: Trade) => t.optionType)
  {
    hide Rounded, Payoff, ProfitFactor, IsDrawdown, Counts, Sum, Filter, Map, Won, Lost;
    var trades := ledger.trades;
    var fills, others := CountRows(ledger.decisions);
    var gross, cost, net := Totals(trades);
    var wins, won, losses, lost := WinsAndLosses(trades);
    WinsLessLosses(trades);
    var values := Map((p: (Option<Time>, int)) => p.1, ledger.equity);
    var d := Drawdown(values);
    var byUnderlying := CountBy(trades, (t: Trade) => t.ticker);
    var byType := CountBy(trades, (t: Trade) => t.optionType);
    return Metrics(|trades|, |ledger.decisions|, fills, others, gross, cost, net, wins, losses,
                   Rounded(10000 * wins, |trades|), Rounded(won, wins), Rounded(lost, losses),
                   Payoff(won, wins, lost, losses), ProfitFactor(won, lost), Rounded(net, |trades|), d, ledger.cash,
                   byUnderlying, byType);
  }

  method WinsAndLosses(trades: seq<Trade>) returns (wins: nat, won: int, losses: nat, lost: int)
    ensures wins == |Won(trades)| && won == WinSum(trades) && losses == |Lost(trades)| && lost == LossSum(trades)
  {
    hide Won, Lost, Nets, Sum;
    NoTrades();
    wins, won, losses, lost := 0, 0, 0, 0;
    for i := 0 to |trades|
      invariant wins == |Won(trades[..i])| && won == WinSum(trades[..i])
      invariant losses == |Lost(trades[..i])| && lost == LossSum(trades[..i])
    {
      assert trades[..i + 1] == trades[..i] + [trades[i]];
      WonGrows(trades[..i], trades[i]);
      NetsLast(Won(trades[..i]), trades[i]);
      NetsLast(Lost(trades[..i]), trades[i]);
      if trades[i].net > 0 {
        wins, won := wins + 1, won + trades[i].net;
      } else if trades[i].net < 0 {
        losses, lost := losses + 1, lost - trades[i].net;
      }
    }
    assert trades[..|trades|] == trades;
  }

  method CountRows(decisions: seq<DecisionRow>) returns (fills: nat, others: nat)
    ensures fills == |Fills(decisions)| && fills + others == |decisions|
  {
    hide Filter;
    fills, others := 0, 0;
    FilterNone([], IsFill);
    for i := 0 to |decisions|
      invariant fills == |Fills(decisions[..i])| && fills + others == i
    {
      assert decisions[..i + 1] == decisions[..i] + [decisions[i]];
      FilterConcat(decisions[..i], [decisions[i]], IsFill);
      FilterOne(decisions[i], IsFill);
      if decisions[i].status == Fill {
        fills := fills + 1;
      } else {
        others := others + 1;
      }
    }
    assert decisions[..|decisions|] == decisions;
  }

  method Totals(trades: seq<Trade>) returns (gross: int, cost: int, net: int)
    ensures gross == Sum(Grosses(trades)) && cost == Sum(Costs(trades)) && net == Sum(Nets(trades))
  {
    hide Sum;
    gross, cost, net := 0, 0, 0;
    SumOfNothing();
    for i := 0 to |trades|
      invariant gross == Sum(Grosses(trades[..i])) && cost == Sum(Costs(trades[..i])) && net == Sum(Nets(trades[..i]))
    {
      assert trades[..i + 1] == trades[..i] + [trades[i]];
      assert Grosses(trades[..i + 1]) == Grosses(trades[..i]) + [trades[i].gross];
      assert Costs(trades[..i + 1]) == Costs(trades[..i]) + [trades[i].cost];
      SumLast(Grosses(trades[..i]), trades[i].gross);
      SumLast(Costs(trades[..i]), trades[i].cost);
      NetsLast(trades[..i], trades[i]);
      gross, cost, net := gross + trades[i].gross, cost + trades[i].cost, net + trades[i].net;
    }
    assert trades[..|trades|] == trades;
  }

  lemma SumOfNothing()
    ensures Sum([]) == 0
  {
  }

  /** Reported net is reported gross minus reported cost. */
  lemma {:induction false} NetIsGrossMinusCost(trades: seq<Trade>)
    requires forall i :: 0 <= i < |trades| ==> trades[i].net == trades[i].gross - trades[i].cost
    ensures Sum(Nets(trades)) == Sum(Grosses(trades)) - Sum(Costs(trades))
    decreases |trades|
  {
    hide Sum;
    if trades == [] {
      SumOfNothing();
    } else {
      var front, last := trades[..|trades| - 1], trades[|trades| - 1];
      NetIsGrossMinusCost(front);
      assert trades == front + [last];
      assert Grosses(trades) == Grosses(front) + [last.gross] && Costs(trades) == Costs(front) + [last.cost];
      SumLast(Grosses(front), last.gross);
      SumLast(Costs(front), last.cost);
      NetsLast(front, last);
    }
  }

  // Leakage.

  datatype Leakage = Leaking | Unsure | Clean

  predicate LooksAhead(row: DecisionRow) { "LOOKAHEAD" <= row.reason }

  function AssessLeakage(decisions: seq<DecisionRow>, complete: bool): Leakage {
    if exists row <- decisions :: LooksAhead(row) then Leaking
    else if !complete || decisions == [] then Unsure
    else Clean
  }
}
