/** Backtests up to ids. Snapshot ids are digests, and signal, candidate and decision ids are digests of them: two runs
    may differ in every id and still be the same run. */
module BacktestIds {
  import opened Basics
  import opened Ordering
  import opened HistoryRows
  import HistoryStore
  import opened BacktestLedger
  import opened BacktestPipeline
  import opened BacktestRunner
  import opened BacktestPointInTime

  // What is left when the ids are taken out.

  function BareMarket(m: Market): Market { m.(id := "") }

  function BareSignal(s: Signal): Signal { s.(id := "", snapshotId := "") }

  function BareChain(c: Chain): Chain { c.(id := "") }

  function BareCandidate(c: Candidate): Candidate { c.(id := "") }

  function BareChoice(choice: Choice): Choice {
    match choice
    case Picked(candidate, rejected) => Picked(BareCandidate(candidate), rejected)
    case NotPicked(_) => choice
  }

  /** That there is an id still shows. */
  function Hidden(id: Option<string>): Option<string> { if id.Some? then Some("") else None }

  function BareRow(row: DecisionRow): DecisionRow {
    row.(signal := Hidden(row.signal), candidate := Hidden(row.candidate), decision := Hidden(row.decision))
  }

  function BareTrade(t: Trade): Trade { t.(signal := "", candidate := "") }

  function BareDecision(d: Decision): Decision {
    match d
    case Turned(row) => Turned(BareRow(row))
    case Entered(signal, candidate, entry, decision) =>
      Entered(BareSignal(signal), BareCandidate(candidate), entry, Hidden(decision))
  }

  function BareOutcome(o: Outcome): Outcome {
    match o
    case Rejected(row) => Rejected(BareRow(row))
    case Traded(trade, row) => Traded(BareTrade(trade), BareRow(row))
  }

  function BareBook(b: Book): Book {
    b.(trades := Map(BareTrade, b.trades), decisions := Map(BareRow, b.decisions))
  }

  // Engines that use ids for nothing but naming.

  predicate SignalsAlike(a: seq<Signal>, b: seq<Signal>) {
    |a| == |b| && forall i :: 0 <= i < |a| ==> BareSignal(a[i]) == BareSignal(b[i])
  }

  /** No two signals are of one strategy with one confidence, so that the choice never comes down to ids. */
  predicate NoTies(signals: seq<Signal>) {
    forall i, j :: 0 <= i < j < |signals| ==>
      signals[i].confidence != signals[j].confidence || signals[i].strategy != signals[j].strategy
  }

  /** The signals of a snapshot carry its id, do not tie, and are otherwise the same whatever the id is. */
  ghost predicate StrategiesBlind(strategies: Market -> seq<Signal>) {
    && (forall m, n :: BareMarket(m) == BareMarket(n) ==> SignalsAlike(strategies(m), strategies(n)))
    && (forall m, s :: s in strategies(m) ==> s.snapshotId == m.id)
    && (forall m :: NoTies(strategies(m)))
  }

  /** Two signals with the snapshots they were drawn from. */
  predicate Drawn(s: Signal, m: Market, t: Signal, n: Market) {
    && s.snapshotId == m.id && t.snapshotId == n.id
    && BareSignal(s) == BareSignal(t) && BareMarket(m) == BareMarket(n)
  }

  ghost predicate OptionsBlind(options: (Signal, Market, Chain) -> Choice) {
    forall s, m, c, t, n, d :: Drawn(s, m, t, n) && BareChain(c) == BareChain(d) ==>
      BareChoice(options(s, m, c)) == BareChoice(options(t, n, d))
  }

  predicate VerdictsAlike(a: Verdict, x: Choice, b: Verdict, y: Choice) {
    && a.approved == b.approved && a.reasons == b.reasons
    && (x.Picked? && y.Picked? ==> (a.selected == x.candidate.id <==> b.selected == y.candidate.id))
  }

  ghost predicate ResearchBlind(research: (Market, Signal, Choice) -> Verdict) {
    forall s, m, x, t, n, y :: Drawn(s, m, t, n) && BareChoice(x) == BareChoice(y) ==>
      VerdictsAlike(research(m, s, x), x, research(n, t, y), y)
  }

  ghost predicate EntryBlind(enter: (Candidate, Time) -> Result<Entry, string>) {
    forall c, d, t :: BareCandidate(c) == BareCandidate(d) ==> enter(c, t) == enter(d, t)
  }

  ghost predicate IdBlind(e: Engines) {
    && StrategiesBlind(e.strategies) && OptionsBlind(e.options) && ResearchBlind(e.research) && EntryBlind(e.enter)
  }

  /** The two differ at most in ids and in what they say about times after `t`. */
  ghost predicate AlikeUntil(e: Engines, f: Engines, t: Time) {
    && f == e.(market := f.market, chain := f.chain, store := f.store)
    && (forall ticker, u :: u <= t ==> BareMarket(e.market(ticker, u)) == BareMarket(f.market(ticker, u)))
    && (forall ticker, u, spot :: u <= t ==> BareChain(e.chain(ticker, u, spot)) == BareChain(f.chain(ticker, u, spot)))
    && (forall c: Candidate :: c.asOf <= t ==> BindLot(c, e.store, e.fixtureLot) == BindLot(c, f.store, f.fixtureLot))
  }

  lemma EarlierAlike(e: Engines, f: Engines, t: Time, u: Time)
    requires AlikeUntil(e, f, t) && u <= t
    ensures AlikeUntil(e, f, u)
  {
    hide BindLot;
  }

  // The choice of a signal.

  lemma OneBest(a: Signal, b: Signal)
    requires SignalLeq(a, b) && SignalLeq(b, a)
    ensures a.confidence == b.confidence && a.strategy == b.strategy
  {
    hide TextLeq;
    TextTotal(a.strategy, b.strategy);
    TextTotal(b.strategy, a.strategy);
  }

  lemma SameKeys(a: Signal, b: Signal, c: Signal, d: Signal)
    requires BareSignal(a) == BareSignal(c) && BareSignal(b) == BareSignal(d)
    requires a.confidence != b.confidence || a.strategy != b.strategy
    ensures SignalLeq(a, b) == SignalLeq(c, d)
  {
    hide TextLeq;
  }

  /** Alike signals without ties give alike picks. */
  lemma PicksAlike(a: seq<Signal>, b: seq<Signal>)
    requires SignalsAlike(a, b) && NoTies(a)
    ensures PickSignal(a).Some? == PickSignal(b).Some?
    ensures PickSignal(a).Some? ==>
              && PickSignal(a).value in a && PickSignal(b).value in b
              && BareSignal(PickSignal(a).value) == BareSignal(PickSignal(b).value)
  {
    hide PickSignal, SignalLeq;
    if a == [] {
      NothingPicked();
    } else {
      PickedIsBest(a);
      PickedIsBest(b);
      var i :| 0 <= i < |a| && a[i] == PickSignal(a).value;
      var j :| 0 <= j < |b| && b[j] == PickSignal(b).value;
      if i != j {
        assert a[j] in a && b[i] in b;
        SameKeys(a[i], a[j], b[i], b[j]);
        OneBest(b[i], b[j]);
        assert false;
      }
    }
  }

  lemma NothingPicked()
    ensures PickSignal([]) == None
  {
  }

  // One decision.

  lemma EntriesAlike(e: Engines, f: Engines, ticker: string, asOf: Time, s: Signal, t: Signal, c: Candidate,
                     d: Candidate, x: Option<string>, y: Option<string>)
    requires f == e.(market := f.market, chain := f.chain, store := f.store) && EntryBlind(e.enter)
    requires BareSignal(s) == BareSignal(t) && BareCandidate(c) == BareCandidate(d) && Hidden(x) == Hidden(y)
    ensures BareDecision(DecideEntry(e, ticker, asOf, s, c, x)) == BareDecision(DecideEntry(f, ticker, asOf, t, d, y))
  {
  }

  lemma CandidatesAlike(e: Engines, f: Engines, ticker: string, asOf: Time, m: Market, n: Market, s: Signal,
                        t: Signal, c: Candidate, d: Candidate, rejected: seq<string>)
    requires f == e.(market := f.market, chain := f.chain, store := f.store) && IdBlind(e)
    requires Drawn(s, m, t, n) && BareCandidate(c) == BareCandidate(d)
    ensures BareDecision(DecideCandidate(e, ticker, asOf, m, s, c, rejected))
         == BareDecision(DecideCandidate(f, ticker, asOf, n, t, d, rejected))
  {
    hide DecideEntry, StrategiesBlind, OptionsBlind, EntryBlind;
    var x, y := Picked(c, rejected), Picked(d, rejected);
    var a, b := e.research(m, s, x), e.research(n, t, y);
    assert VerdictsAlike(a, x, b, y);
    EntriesAlike(e, f, ticker, asOf, s, t, c, d, None, None);
    EntriesAlike(e, f, ticker, asOf, s, t, c, d, Some(a.id), Some(b.id));
  }

  lemma BoundAlike(c: Candidate, d: Candidate, store: Option<HistoryStore.Store>, lot: int)
    requires BareCandidate(c) == BareCandidate(d)
    ensures var x, y := BindLot(c, store, lot), BindLot(d, store, lot);
            && x.Ok? == y.Ok? && (x.Err? ==> x == y)
            && (x.Ok? ==> BareCandidate(x.value) == BareCandidate(y.value))
  {
    hide HistoryStore.ContractForCandidate;
  }

  lemma SignalsDecideAlike(e: Engines, f: Engines, ticker: string, asOf: Time, m: Market, n: Market, s: Signal,
                           t: Signal)
    requires IdBlind(e) && AlikeUntil(e, f, asOf) && Drawn(s, m, t, n) && m.asOf <= asOf
    requires CandidatesDated(e.options)
    ensures BareDecision(DecideSignal(e, ticker, asOf, m, s)) == BareDecision(DecideSignal(f, ticker, asOf, n, t))
  {
    hide BindLot, DecideCandidate, StrategiesBlind, ResearchBlind, EntryBlind;
    var c, d := e.chain(ticker, asOf, m.price), f.chain(ticker, asOf, n.price);
    assert BareChain(c) == BareChain(d);
    var x, y := e.options(s, m, c), e.options(t, n, d);
    assert BareChoice(x) == BareChoice(y);
    if x.Picked? {
      assert y.Picked? && x.rejected == y.rejected && BareCandidate(x.candidate) == BareCandidate(y.candidate);
      assert y.candidate.asOf == x.candidate.asOf <= asOf;
      BoundAlike(x.candidate, y.candidate, e.store, e.fixtureLot);
      var bound, other := BindLot(x.candidate, e.store, e.fixtureLot), BindLot(y.candidate, f.store, f.fixtureLot);
      if bound.Ok? {
        CandidatesAlike(e, f, ticker, asOf, m, n, s, t, bound.value, other.value, x.rejected);
      }
    }
  }

  /** Up to ids, a decision depends on nothing after its time and on no id. */
  lemma DecisionsAlike(e: Engines, f: Engines, ticker: string, asOf: Time)
    requires IdBlind(e) && Dated(e) && AlikeUntil(e, f, asOf)
    ensures BareDecision(Decide(e, ticker, asOf)) == BareDecision(Decide(f, ticker, asOf))
  {
    hide PickSignal, DecideSignal, BindLot, OptionsBlind, ResearchBlind, EntryBlind, CandidatesDated;
    var m, n := e.market(ticker, asOf), f.market(ticker, asOf);
    assert BareMarket(m) == BareMarket(n);
    assert SignalsAlike(e.strategies(m), e.strategies(n));
    PicksAlike(e.strategies(m), e.strategies(n));
    var s, t := PickSignal(e.strategies(m)), PickSignal(e.strategies(n));
    if s.Some? {
      SignalsDecideAlike(e, f, ticker, asOf, m, n, s.value, t.value);
    }
  }

  // Its outcome.

  lemma HitsAlike(s: Signal, t: Signal, bar: PathBar)
    requires BareSignal(s) == BareSignal(t)
    ensures Hit(s, bar) == Hit(t, bar) && HitReason(s, bar) == HitReason(t, bar)
  {
  }

  lemma {:induction false} PathsAlike(s: Signal, t: Signal, bars: seq<PathBar>, asOf: Time)
    requires BareSignal(s) == BareSignal(t)
    ensures PathExit(s, bars, asOf) == PathExit(t, bars, asOf)
  {
    hide Hit, HitReason;
    if bars != [] {
      HitsAlike(s, t, bars[0]);
      PathsAlike(s, t, bars[1..], asOf);
    }
  }

  lemma ClosesAlike(e: Engines, f: Engines, ticker: string, asOf: Time, s: Signal, t: Signal, c: Candidate,
                    d: Candidate, entry: Entry, x: Option<string>, y: Option<string>)
    requires AlikeUntil(e, f, e.squareOff(asOf))
    requires BareSignal(s) == BareSignal(t) && BareCandidate(c) == BareCandidate(d) && Hidden(x) == Hidden(y)
    ensures BareOutcome(Close(e, ticker, asOf, s, c, entry, x)) == BareOutcome(Close(f, ticker, asOf, t, d, entry, y))
  {
    hide BindLot, PathExit, FindContract;
    var square := e.squareOff(asOf);
    var m, n := e.market(ticker, square), f.market(ticker, square);
    assert BareMarket(m) == BareMarket(n);
    PathsAlike(s, t, m.m15, asOf);
    var at := ExitPoint(e, ticker, asOf, s).0;
    assert BareMarket(e.market(ticker, at)) == BareMarket(f.market(ticker, at));
    var spot := e.market(ticker, at).price;
    assert BareChain(e.chain(ticker, at, spot)) == BareChain(f.chain(ticker, at, spot));
  }

  lemma OutcomesAlike(e: Engines, f: Engines, ticker: string, asOf: Time)
    requires IdBlind(e) && Dated(e) && asOf <= e.squareOff(asOf) && AlikeUntil(e, f, e.squareOff(asOf))
    ensures BareOutcome(Judge(e, ticker, asOf)) == BareOutcome(Judge(f, ticker, asOf))
  {
    hide Decide, Close, AlikeUntil, IdBlind, Dated;
    EarlierAlike(e, f, e.squareOff(asOf), asOf);
    DecisionsAlike(e, f, ticker, asOf);
    match (Decide(e, ticker, asOf), Decide(f, ticker, asOf)) {
      case (Entered(s, c, entry, x), Entered(t, d, _, y)) =>
        ClosesAlike(e, f, ticker, asOf, s, t, c, d, entry, x, y);
      case _ =>
    }
  }

  // A whole run.

  lemma LoggedAlike(a: Book, b: Book, x: Outcome, y: Outcome)
    requires BareBook(a) == BareBook(b) && BareOutcome(x) == BareOutcome(y)
    ensures BareBook(Logged(a, x)) == BareBook(Logged(b, y))
  {
    hide Map;
    MapLast(BareRow, a.decisions, x.row);
    MapLast(BareRow, b.decisions, y.row);
    if x.Traded? {
      MapLast(BareTrade, a.trades, x.trade);
      MapLast(BareTrade, b.trades, y.trade);
    }
  }

  lemma MapLast<S, T>(f: S -> T, xs: seq<S>, x: S)
    ensures Map(f, xs + [x]) == Map(f, xs) + [f(x)]
  {
  }

  /** Up to ids, the decisions, trades, cash and equity of a run depend on nothing after its last square-off. */
  lemma {:induction false} RunsAlike(e: Engines, f: Engines, book: Book, points: seq<Point>, t: Time)
    requires IdBlind(e) && Dated(e) && AlikeUntil(e, f, t) && SquaredOffBy(e, points, t)
    ensures BareBook(Played(e, book, points)) == BareBook(Played(f, book, points))
    decreases |points|
  {
    hide Judge, Logged, AlikeUntil, IdBlind, Dated, BareBook;
    if points != [] {
      var front, last := points[..|points| - 1], points[|points| - 1];
      RunsAlike(e, f, book, front, t);
      EarlierAlike(e, f, t, e.squareOff(last.asOf));
      OutcomesAlike(e, f, last.ticker, last.asOf);
      LoggedAlike(Played(e, book, front), Played(f, book, front), Judge(e, last.ticker, last.asOf),
                  Judge(f, last.ticker, last.asOf));
    }
  }
}
