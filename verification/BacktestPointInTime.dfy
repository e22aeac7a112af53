/** What a backtest decision may depend on: engines that agree up to a moment. */
module BacktestPointInTime {
  import opened HistoryRows
  import opened BacktestLedger
  import opened BacktestPipeline
  import opened BacktestRunner

  // Engines that agree on everything up to a moment.

  /** The two differ at most in what they say about times after `t`. */
  ghost predicate AgreeUntil(e: Engines, f: Engines, t: Time) {
    && f == e.(market := f.market, chain := f.chain, store := f.store)
    && (forall ticker, u :: u <= t ==> e.market(ticker, u) == f.market(ticker, u))
    && (forall ticker, u, spot :: u <= t ==> e.chain(ticker, u, spot) == f.chain(ticker, u, spot))
    && (forall c: Candidate :: c.asOf <= t ==> BindLot(c, e.store, e.fixtureLot) == BindLot(c, f.store, f.fixtureLot))
  }

  /** A candidate carries a time no later than that of the snapshot it was made from. */
  ghost predicate CandidatesDated(options: (Signal, Market, Chain) -> Choice) {
    forall signal, market, chain ::
      options(signal, market, chain).Picked? ==> options(signal, market, chain).candidate.asOf <= market.asOf
  }

  /** And a snapshot one no later than it was asked for. */
  ghost predicate Dated(e: Engines) {
    CandidatesDated(e.options) && forall ticker, t :: e.market(ticker, t).asOf <= t
  }

  lemma EarlierAgree(e: Engines, f: Engines, t: Time, u: Time)
    requires AgreeUntil(e, f, t) && u <= t
    ensures AgreeUntil(e, f, u)
  {
    hide BindLot;
  }

  lemma SameCandidate(e: Engines, f: Engines, ticker: string, asOf: Time, market: Market, signal: Signal,
                      candidate: Candidate, rejected: seq<string>)
    requires f == e.(market := f.market, chain := f.chain, store := f.store)
    ensures DecideCandidate(f, ticker, asOf, market, signal, candidate, rejected)
         == DecideCandidate(e, ticker, asOf, market, signal, candidate, rejected)
  {
  }

  /** Whether a point is refused or entered, and with which signal, contract, lot and price, depends on nothing after
      its decision time. */
  lemma DecisionsUseThePast(e: Engines, f: Engines, ticker: string, asOf: Time)
    requires Dated(e) && AgreeUntil(e, f, asOf)
    ensures Decide(f, ticker, asOf) == Decide(e, ticker, asOf)
  {
    hide BindLot, PickSignal, DecideCandidate;
    forall market: Market, signal: Signal, candidate: Candidate, rejected: seq<string>
      ensures DecideCandidate(f, ticker, asOf, market, signal, candidate, rejected)
           == DecideCandidate(e, ticker, asOf, market, signal, candidate, rejected)
    {
      SameCandidate(e, f, ticker, asOf, market, signal, candidate, rejected);
    }
  }

  /** What becomes of it depends on nothing after the square-off of its day. */
  lemma OutcomesUseTheDay(e: Engines, f: Engines, ticker: string, asOf: Time)
    requires Dated(e) && asOf <= e.squareOff(asOf) && AgreeUntil(e, f, e.squareOff(asOf))
    ensures Judge(f, ticker, asOf) == Judge(e, ticker, asOf)
  {
    hide BindLot, PathExit, Decide, FindContract;
    EarlierAgree(e, f, e.squareOff(asOf), asOf);
    DecisionsUseThePast(e, f, ticker, asOf);
  }

  /** Every point is decided before the square-off of its day, and that is not after `t`. */
  ghost predicate SquaredOffBy(e: Engines, points: seq<Point>, t: Time) {
    forall p <- points :: p.asOf <= e.squareOff(p.asOf) <= t
  }

  lemma {:induction false} RunsUseThePast(e: Engines, f: Engines, book: Book, points: seq<Point>, t: Time)
    requires Dated(e) && AgreeUntil(e, f, t) && SquaredOffBy(e, points, t)
    ensures Played(f, book, points) == Played(e, book, points)
    decreases |points|
  {
    hide Judge, Logged, AgreeUntil, Dated;
    if points != [] {
      var last := points[|points| - 1];
      RunsUseThePast(e, f, book, points[..|points| - 1], t);
      EarlierAgree(e, f, t, e.squareOff(last.asOf));
      OutcomesUseTheDay(e, f, last.ticker, last.asOf);
    }
  }
}
