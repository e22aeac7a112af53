/** The books of a backtest. Money is in units of 0.0001, so every rounding to four
    decimals in the books is exact. */
module BacktestLedger {
  import opened Basics
  import opened HistoryRows

  datatype Status = NoTrade | Fill

  datatype DecisionRow = DecisionRow(asOf: Time, ticker: string, status: Status, reason: string, signal: Option<string>,
                                     candidate: Option<string>, decision: Option<string>)

  datatype Trade = Trade(ticker: string, asOf: Time, signal: string, candidate: string, optionType: string,
                         exitReason: string, exitAt: Time, entry: int, exit: int, lots: int, lotSize: int, gross: int,
                         cost: int, net: int)

  /** `equity` starts with the starting cash at no particular time. */
  datatype Book = Book(startingCash: int, cash: int, trades: seq<Trade>, decisions: seq<DecisionRow>,
                       equity: seq<(Option<Time>, int)>)

  function Opened(startingCash: int): Book { Book(startingCash, startingCash, [], [], [(None, startingCash)]) }

  function WithDecision(book: Book, row: DecisionRow): Book { book.(decisions := book.decisions + [row]) }

  /** Every trade of the pipeline is a primary one. */
  function WithTrade(book: Book, trade: Trade): Book {
    book.(trades := book.trades + [trade], cash := book.cash + trade.net,
          equity := book.equity + [(Some(trade.exitAt), book.cash + trade.net)])
  }

  class Ledger {
    const startingCash: int
    var cash: int
    var trades: seq<Trade>
    var decisions: seq<DecisionRow>
    var equity: seq<(Option<Time>, int)>

    ghost function State(): Book
      reads this
    {
      Book(startingCash, cash, trades, decisions, equity)
    }

    constructor (startingCash: int)
      ensures State() == Opened(startingCash)
    {
      this.startingCash := startingCash;
      cash, trades, decisions, equity := startingCash, [], [], [(None, startingCash)];
    }

    method RecordDecision(row: DecisionRow)
      modifies this
      ensures State() == WithDecision(old(State()), row)
    {
      decisions := decisions + [row];
    }

    method RecordTrade(trade: Trade)
      modifies this
      ensures State() == WithTrade(old(State()), trade)
    {
      trades := trades + [trade];
      cash := cash + trade.net;
      equity := equity + [(Some(trade.exitAt), cash)];
    }
  }

  function Nets(trades: seq<Trade>): seq<int> { Map((t: Trade) => t.net, trades) }

  function Grosses(trades: seq<Trade>): seq<int> { Map((t: Trade) => t.gross, trades) }

  function Costs(trades: seq<Trade>): seq<int> { Map((t: Trade) => t.cost, trades) }

  predicate IsFill(row: DecisionRow) { row.status == Fill }

  function Fills(decisions: seq<DecisionRow>): seq<DecisionRow> { Filter(decisions, IsFill) }

  /** The books balance: cash is what was started with plus every net result, the equity curve follows the trades one by
      one, each net is gross minus cost, and there is one FILL row for each trade. */
  ghost predicate Balanced(book: Book) {
    && |book.equity| == |book.trades| + 1
    && (forall i :: 0 <= i < |book.equity| ==> book.equity[i].1 == book.startingCash + Sum(Nets(book.trades[..i])))
    && book.cash == book.equity[|book.equity| - 1].1
    && (forall i :: 0 <= i < |book.trades| ==> book.trades[i].net == book.trades[i].gross - book.trades[i].cost)
    && |Fills(book.decisions)| == |book.trades|
  }

  lemma SumLast(xs: seq<int>, x: int)
    ensures Sum(xs + [x]) == Sum(xs) + x
  {
    SumConcat(xs, [x]);
    assert [x][1..] == [];
  }

  lemma NetsLast(trades: seq<Trade>, t: Trade)
    ensures Sum(Nets(trades + [t])) == Sum(Nets(trades)) + t.net
  {
    assert Nets(trades + [t]) == Nets(trades) + [t.net];
    SumLast(Nets(trades), t.net);
  }

  lemma OpenedIsBalanced(startingCash: int)
    ensures Balanced(Opened(startingCash))
  {
  }

  lemma RejectionKeepsBalance(book: Book, row: DecisionRow)
    requires Balanced(book) && row.status == NoTrade
    ensures Balanced(WithDecision(book, row))
  {
    hide Filter, Sum, Nets;
    FilterConcat(book.decisions, [row], IsFill);
    FilterOne(row, IsFill);
  }

  lemma TradeKeepsBalance(book: Book, trade: Trade, row: DecisionRow)
    requires Balanced(book) && row.status == Fill && trade.net == trade.gross - trade.cost
    ensures Balanced(WithDecision(WithTrade(book, trade), row))
  {
    hide Filter, Sum, Nets;
    FilterConcat(book.decisions, [row], IsFill);
    FilterOne(row, IsFill);
    var after := WithDecision(WithTrade(book, trade), row);
    var n := |book.trades|;
    NetsLast(book.trades, trade);
    assert book.trades[..n] == book.trades && after.trades[..n + 1] == book.trades + [trade];
    forall i | 0 <= i < |after.equity|
      ensures after.equity[i].1 == after.startingCash + Sum(Nets(after.trades[..i]))
    {
      if i <= n {
        assert after.trades[..i] == book.trades[..i];
      }
    }
  }
}
