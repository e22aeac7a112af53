/** A whole backtest run: every session, every ticker, one decision each. */
module BacktestRunner {
  import opened Basics
  import opened HistoryRows
  import opened BacktestLedger
  import opened BacktestMetrics
  import opened BacktestPipeline

  datatype Point = Point(ticker: string, asOf: Time)

  /** Decisions are made at eleven. */
  function DecisionTime(day: Day): Time { day * DAY_SECONDS + 39600 }

  function DayPoints(day: Day, names: seq<string>): seq<Point> {
    Map((name: string) => Point(name, DecisionTime(day)), names)
  }

  function Points(sessions: seq<Day>, names: seq<string>): seq<Point> {
    FlatMap((day: Day) => DayPoints(day, names), sessions)
  }

  /** The book after the decisions of these points, in order. */
  ghost function Played(e: Engines, book: Book, points: seq<Point>): Book {
    if points == [] then book
    else
      var last := points[|points| - 1];
      Logged(Played(e, book, points[..|points| - 1]), Judge(e, last.ticker, last.asOf))
  }

  datatype Coverage = Coverage(sessions: nat, expected: nat, observed: nat, complete: bool)

  datatype Report = Report(metrics: Metrics, coverage: Coverage, leakage: Leakage)

  lemma {:induction false} PlayedConcat(e: Engines, book: Book, a: seq<Point>, b: seq<Point>)
    ensures Played(e, book, a + b) == Played(e, Played(e, book, a), b)
    decreases |b|
  {
    hide Judge, Logged;
    if b == [] {
      assert a + b == a;
    } else {
      assert (a + b)[..|a + b| - 1] == a + b[..|b| - 1];
      PlayedConcat(e, book, a, b[..|b| - 1]);
    }
  }

  lemma PlayedOne(e: Engines, book: Book, point: Point)
    ensures Played(e, book, [point]) == Logged(book, Judge(e, point.ticker, point.asOf))
    ensures Played(e, book, []) == book
  {
    hide Judge, Logged;
    assert [point][..0] == [];
  }

  /** The session × ticker loop. */
  method Run(e: Engines, startingCash: int, sessions: seq<Day>, names: seq<string>)
    returns (ledger: Ledger, report: Report)
    ensures fresh(ledger) && ledger.State() == Played(e, Opened(startingCash), Points(sessions, names))
    ensures report.coverage.sessions == |sessions| && report.coverage.expected == |Points(sessions, names)|
    ensures report.coverage.observed == |ledger.decisions|
    ensures report.coverage.complete <==> |ledger.decisions| == |Points(sessions, names)|
    ensures report.metrics.net == Sum(Nets(ledger.trades)) && report.metrics.gross == Sum(Grosses(ledger.trades))
    ensures report.metrics.cost == Sum(Costs(ledger.trades)) && report.metrics.endingEquity == ledger.cash
    ensures report.metrics.tradeCount == |ledger.trades| && report.metrics.fillCount == |Fills(ledger.decisions)|
    ensures report.leakage == AssessLeakage(ledger.decisions, report.coverage.complete)
  {
    hide Judge, Played, FlatMap, AssessLeakage, Sum, Fills;
    ledger := new Ledger(startingCash);
    var pipeline := new DecisionPipeline(e, ledger);
    ghost var f := (day: Day) => DayPoints(day, names);
    ghost var book := Opened(startingCash);
    var expected := 0;
    EmptyFlatMap(f);
    PlayedOne(e, book, Point("", 0));
    for i := 0 to |sessions|
      invariant pipeline.ledger == ledger && pipeline.e == e && fresh(ledger)
      invariant expected == |FlatMap(f, sessions[..i])|
      invariant ledger.State() == Played(e, book, FlatMap(f, sessions[..i]))
    {
      FlatMapStep(f, sessions, i);
      PlayedConcat(e, book, FlatMap(f, sessions[..i]), f(sessions[i]));
      RunDay(pipeline, sessions[i], names);
      expected := expected + |names|;
    }
    assert sessions[..|sessions|] == sessions;
    var metrics := Calculate(ledger);
    var complete := |ledger.decisions| == expected;
    report := Report(metrics, Coverage(|sessions|, expected, |ledger.decisions|, complete),
                     AssessLeakage(ledger.decisions, complete));
  }

  method RunDay(pipeline: DecisionPipeline, day: Day, names: seq<string>)
    modifies pipeline.ledger
    ensures pipeline.ledger.State() == Played(pipeline.e, old(pipeline.ledger.State()), DayPoints(day, names))
  {
    hide Judge, Played;
    ghost var points := DayPoints(day, names);
    ghost var book := pipeline.ledger.State();
    PlayedOne(pipeline.e, book, Point("", 0));
    for i := 0 to |names|
      invariant pipeline.ledger.State() == Played(pipeline.e, book, points[..i])
    {
      assert points[..i + 1] == points[..i] + [points[i]];
      PlayedConcat(pipeline.e, book, points[..i], [points[i]]);
      PlayedOne(pipeline.e, pipeline.ledger.State(), points[i]);
      pipeline.Evaluate(names[i], DecisionTime(day));
    }
    assert points[..|names|] == points;
  }

  // Every completed run.

  lemma LoggedKeepsBalance(e: Engines, book: Book, point: Point)
    requires Balanced(book)
    ensures Balanced(Logged(book, Judge(e, point.ticker, point.asOf)))
  {
    hide Balanced, Judge;
    JudgeIsWellFormed(e, point.ticker, point.asOf);
    match Judge(e, point.ticker, point.asOf)
    case Rejected(row) => RejectionKeepsBalance(book, row);
    case Traded(trade, row) => TradeKeepsBalance(book, trade, row);
  }

  lemma {:induction false} PlayedIsBalanced(e: Engines, startingCash: int, points: seq<Point>)
    ensures Balanced(Played(e, Opened(startingCash), points))
    ensures Played(e, Opened(startingCash), points).startingCash == startingCash
    decreases |points|
  {
    hide Balanced, Judge;
    if points == [] {
      OpenedIsBalanced(startingCash);
    } else {
      PlayedIsBalanced(e, startingCash, points[..|points| - 1]);
      LoggedKeepsBalance(e, Played(e, Opened(startingCash), points[..|points| - 1]), points[|points| - 1]);
    }
  }

  /** The decision log answers the points one for one, in order. */
  ghost predicate Answers(decisions: seq<DecisionRow>, points: seq<Point>) {
    && |decisions| == |points|
    && forall i :: 0 <= i < |points| ==> decisions[i].ticker == points[i].ticker && decisions[i].asOf == points[i].asOf
  }

  lemma {:induction false} EveryPointIsAnswered(e: Engines, startingCash: int, points: seq<Point>)
    ensures Answers(Played(e, Opened(startingCash), points).decisions, points)
    decreases |points|
  {
    hide Judge;
    if points != [] {
      var last := points[|points| - 1];
      EveryPointIsAnswered(e, startingCash, points[..|points| - 1]);
      EvaluationLogsOnce(e, Played(e, Opened(startingCash), points[..|points| - 1]), last.ticker, last.asOf);
    }
  }

  /** One point for each session and ticker. */
  lemma {:induction false} PointCount(sessions: seq<Day>, names: seq<string>)
    ensures |Points(sessions, names)| == |sessions| * |names|
    decreases |sessions|
  {
    if sessions != [] {
      PointCount(sessions[..|sessions| - 1], names);
      assert |sessions| * |names| == (|sessions| - 1) * |names| + |names|;
    }
  }

  /** Main result, for every run that `Run` completes. One decision for each session and ticker, in order; as many
      FILL rows as trades; cash is starting cash plus the net of every trade and is the last point of the equity
      curve; reported net is gross minus cost. So the coverage is always complete, and the run is unsure only when it
      had nothing to do. */
  lemma CompletedRun(e: Engines, startingCash: int, sessions: seq<Day>, names: seq<string>)
    ensures var points := Points(sessions, names);
            var book := Played(e, Opened(startingCash), points);
            && Answers(book.decisions, points) && |book.decisions| == |sessions| * |names|
            && |Fills(book.decisions)| == |book.trades|
            && book.cash == startingCash + Sum(Nets(book.trades))
            && book.equity != [] && book.equity[|book.equity| - 1].1 == book.cash
            && Sum(Nets(book.trades)) == Sum(Grosses(book.trades)) - Sum(Costs(book.trades))
            && (AssessLeakage(book.decisions, |book.decisions| == |points|) == Unsure <==> points == [])
  {
    hide Judge, Played, Points, Sum, Filter, LooksAhead, Nets, Grosses, Costs;
    var points := Points(sessions, names);
    var book := Played(e, Opened(startingCash), points);
    PointCount(sessions, names);
    EveryPointIsAnswered(e, startingCash, points);
    PlayedIsBalanced(e, startingCash, points);
    NetIsGrossMinusCost(book.trades);
    assert book.trades[..|book.trades|] == book.trades;
  }
}
