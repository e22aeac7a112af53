/** Backtests over a historical store: what the rows of a published dataset can and cannot change. */
module BacktestDatasets {
  import opened Basics
  import opened Ordering
  import opened HistoryRows
  import opened HistoryStore
  import opened HistoryCanonical
  import HistoryCoverage
  import HistoryGaps
  import HistoryHull
  import opened BacktestLedger
  import opened BacktestPipeline
  import opened BacktestRunner
  import opened BacktestPointInTime
  import opened BacktestIds

  /** What a snapshot is made from besides the fingerprint. */
  function Known(meta: Meta): Meta { meta.(fingerprint := "", qualityStatus := "", warnings := []) }

  function SessionOn(sessions: seq<Session>, day: Day): Option<Session> {
    if sessions == [] then None
    else if sessions[0].date == day then Some(sessions[0])
    else SessionOn(sessions[1..], day)
  }

  type Series = seq<Result<seq<Bar>, Error>>

  /** How the snapshots are made from the answers of a store; `frames` are the timeframes that are asked for, and
      `digest` makes the id of a snapshot from the fingerprint of the dataset. */
  datatype Bridge = Bridge(frames: seq<string>,
                           digest: (string, string, Time) -> string,
                           market: (Meta, Option<Session>, Series, string, Time) -> Market,
                           chain: (Meta, Result<(seq<Contract>, seq<Quote>), Error>, string, Time, int) -> Chain)

  /** The snapshots of the bridge carry times no later than they were asked for. */
  ghost predicate SnapshotsDated(b: Bridge) {
    forall meta, session, series, ticker, t :: b.market(meta, session, series, ticker, t).asOf <= t
  }

  function SeriesOf(s: Store, frames: seq<string>, ticker: string, t: Time): Series {
    Map((frame: string) => BarsAt(s, ticker, t, Some(frame)), frames)
  }

  function MarketOf(b: Bridge, s: Store, ticker: string, t: Time): Market {
    b.market(Known(s.meta), SessionOn(s.sessions, DayOf(t)), SeriesOf(s, b.frames, ticker, t), ticker, t)
    .(id := b.digest(s.meta.fingerprint, ticker, t))
  }

  function ChainOf(b: Bridge, s: Store, ticker: string, t: Time, spot: int): Chain {
    b.chain(Known(s.meta), SnapshotQuotes(s, ticker, t), ticker, t, spot)
    .(id := b.digest(s.meta.fingerprint, ticker, t))
  }

  /** The engines fed from the store. */
  function Connected(e: Engines, b: Bridge, s: Store): Engines {
    e.(market := (ticker, t) => MarketOf(b, s, ticker, t), chain := (ticker, t, spot) => ChainOf(b, s, ticker, t, spot),
       store := Some(s))
  }

  /** A row about the future of `t`: as for the queries, and a session of a later day. */
  predicate Later(row: Row, t: Time) {
    Future(row, t) && (row.SessionRow? ==> row.session.date > DayOf(t))
  }

  lemma LaterStill(row: Row, t: Time, u: Time)
    requires Later(row, t) && u <= t
    ensures Later(row, u)
  {
  }

  lemma {:induction false} SessionAppended(sessions: seq<Session>, session: Session, day: Day)
    requires session.date != day
    ensures SessionOn(sessions + [session], day) == SessionOn(sessions, day)
  {
    if sessions == [] {
      assert sessions + [session] == [session];
    } else {
      assert (sessions + [session])[1..] == sessions[1..] + [session];
      SessionAppended(sessions[1..], session, day);
    }
  }

  lemma {:induction false} SessionsStay(s: Store, rows: seq<Row>, t: Time)
    requires forall row <- rows :: Later(row, t)
    ensures SessionOn(AddAll(s, rows).sessions, DayOf(t)) == SessionOn(s.sessions, DayOf(t))
    ensures AddAll(s, rows).meta == s.meta
    decreases |rows|
  {
    hide Refuse, SessionOn, Future;
    if rows != [] {
      assert Later(rows[0], t);
      SessionsStay(Add(s, rows[0]), rows[1..], t);
      if rows[0].SessionRow? {
        SessionAppended(s.sessions, rows[0].session, DayOf(t));
      }
    }
  }

  lemma NotListedYet(c: Contract, identity: Identity, t: Time)
    requires t < c.firstSeen
    ensures !Matches(c, identity, t)
  {
  }

  lemma ContractsStay(s: Store, rows: seq<Row>, t: Time, identity: Identity, provider: Option<string>)
    requires forall row <- rows :: Future(row, t)
    ensures ContractForCandidate(AddAll(s, rows), identity, t, provider)
         == ContractForCandidate(s, identity, t, provider)
  {
    hide Filter, AddAll, Future, Matches;
    HistoryHull.AddedContracts(s, rows, t);
    var more := HistoryHull.Joined(s, AddAll(s, rows));
    forall c <- more
      ensures !Matches(c, identity, t)
    {
      NotListedYet(c, identity, t);
    }
    assert AddAll(s, rows).contracts == s.contracts + more;
    FilterConcat(s.contracts, more, (c: Contract) => Matches(c, identity, t));
    FilterNone(more, (c: Contract) => Matches(c, identity, t));
    assert Filter(s.contracts + more, (c: Contract) => Matches(c, identity, t))
        == Filter(s.contracts, (c: Contract) => Matches(c, identity, t));
  }

  /** Two stores that give the engines the same answers as of `t`. */
  ghost predicate SeenAlike(a: Store, b: Store, t: Time) {
    && Known(a.meta) == Known(b.meta) && SessionOn(a.sessions, DayOf(t)) == SessionOn(b.sessions, DayOf(t))
    && SameAnswers(a, b, t)
    && forall identity, provider ::
         ContractForCandidate(a, identity, t, provider) == ContractForCandidate(b, identity, t, provider)
  }

  lemma LaterRowsAreUnseen(s: Store, rows: seq<Row>, t: Time)
    requires forall row <- rows :: Later(row, t)
    ensures SeenAlike(s, AddAll(s, rows), t) && AddAll(s, rows).meta == s.meta
  {
    hide SessionOn, ContractForCandidate, SameAnswers, AddAll, Future;
    SessionsStay(s, rows, t);
    NoLookAhead(s, rows, t);
    forall identity, provider
      ensures ContractForCandidate(AddAll(s, rows), identity, t, provider)
           == ContractForCandidate(s, identity, t, provider)
    {
      ContractsStay(s, rows, t, identity, provider);
    }
  }

  lemma SameTables(s: Store, p: Store, t: Time)
    requires p.bars == s.bars && p.contracts == s.contracts && p.quotes == s.quotes
    ensures SameAnswers(s, p, t)
    ensures forall identity, provider ::
              ContractForCandidate(p, identity, t, provider) == ContractForCandidate(s, identity, t, provider)
  {
    hide Filter, SortBy, Live, LatestQuotes, VisibleBars, Forbidden, Matches;
  }

  lemma GatedAlike(meta: Meta, report: HistoryCoverage.Report)
    ensures var gated := HistoryCoverage.Gate(meta, report);
            && gated.fixture == meta.fixture
            && Known(gated) == Known(if meta.frameworkOnly || meta.fixture then meta.(licenseStatus := "NOT_APPROVED")
                                     else meta)
  {
    hide HistoryCoverage.Coded, Known;
    var coded := HistoryCoverage.Coded(meta, report);
    if meta.frameworkOnly || meta.fixture {
      VerdictIsUnseen(meta.(licenseStatus := "NOT_APPROVED"), "SYNTHETIC", coded);
    } else if report.observed == 0 || report.actualSessions == 0 {
      VerdictIsUnseen(meta, "REJECTED", coded);
    } else if coded != [] {
      VerdictIsUnseen(meta, "APPROVED_WITH_WARNINGS", coded);
    } else {
      VerdictIsUnseen(meta, "APPROVED", []);
    }
  }

  lemma VerdictIsUnseen(meta: Meta, status: string, warnings: seq<Warning>)
    ensures Known(meta.(qualityStatus := status, warnings := warnings)) == Known(meta)
  {
  }

  /** Whatever publishing makes of the two datasets. */
  lemma PublishedAlike(a: Store, b: Store, f: Dump -> string, g: Dump -> string, t: Time)
    requires SeenAlike(a, b, t) && a.meta == b.meta
    ensures SeenAlike(Published(a, f), Published(b, g), t)
  {
    hide SessionOn, ContractForCandidate, BarsAt, ContractsAt, SnapshotQuotes, HistoryCoverage.Coverage,
      HistoryCoverage.Gate, DumpWith;
    GatedAlike(a.meta, HistoryCoverage.Coverage(a));
    GatedAlike(b.meta, HistoryCoverage.Coverage(b));
    SameTables(a, Published(a, f), t);
    SameTables(b, Published(b, g), t);
  }

  lemma SeriesAlike(a: Store, b: Store, frames: seq<string>, ticker: string, t: Time)
    requires SameAnswers(a, b, t)
    ensures SeriesOf(a, frames, ticker, t) == SeriesOf(b, frames, ticker, t)
  {
    hide Map, BarsAt, ContractsAt, SnapshotQuotes;
  }

  lemma SnapshotsAlike(b: Bridge, s: Store, r: Store, t: Time, ticker: string, spot: int)
    requires SeenAlike(s, r, t)
    ensures BareMarket(MarketOf(b, s, ticker, t)) == BareMarket(MarketOf(b, r, ticker, t))
    ensures BareChain(ChainOf(b, s, ticker, t, spot)) == BareChain(ChainOf(b, r, ticker, t, spot))
  {
    hide SeriesOf, SessionOn, BarsAt, SnapshotQuotes, ContractsAt, ContractForCandidate;
    SeriesAlike(s, r, b.frames, ticker, t);
  }

  lemma LotsAlike(s: Store, r: Store, c: Candidate, fixtureLot: int)
    requires SeenAlike(s, r, c.asOf)
    ensures BindLot(c, Some(s), fixtureLot) == BindLot(c, Some(r), fixtureLot)
  {
    hide SessionOn, ContractForCandidate, SameAnswers;
    assert Known(s.meta).fixture == Known(r.meta).fixture;
  }

  lemma EnginesAlike(e: Engines, b: Bridge, s: Store, r: Store, t: Time)
    requires forall u :: u <= t ==> SeenAlike(s, r, u)
    ensures AlikeUntil(Connected(e, b, s), Connected(e, b, r), t)
  {
    hide MarketOf, ChainOf, BindLot, SeenAlike;
    var f, g := Connected(e, b, s), Connected(e, b, r);
    forall ticker: string, u: Time | u <= t
      ensures BareMarket(f.market(ticker, u)) == BareMarket(g.market(ticker, u))
    {
      SnapshotsAlike(b, s, r, u, ticker, 0);
    }
    forall ticker: string, u: Time, spot: int | u <= t
      ensures BareChain(f.chain(ticker, u, spot)) == BareChain(g.chain(ticker, u, spot))
    {
      SnapshotsAlike(b, s, r, u, ticker, spot);
    }
    forall c: Candidate | c.asOf <= t
      ensures BindLot(c, f.store, f.fixtureLot) == BindLot(c, g.store, g.fixtureLot)
    {
      LotsAlike(s, r, c, e.fixtureLot);
    }
  }

  /** Two published datasets, of which the second has further rows, all about the future of `t`. */
  lemma DatasetsAlike(e: Engines, b: Bridge, s: Store, rows: seq<Row>, f: Dump -> string, g: Dump -> string, t: Time)
    requires forall row <- rows :: Later(row, t)
    ensures AlikeUntil(Connected(e, b, Published(s, f)), Connected(e, b, Published(AddAll(s, rows), g)), t)
  {
    hide Published, AddAll, Later, SeenAlike, AlikeUntil, Connected;
    forall u | u <= t
      ensures SeenAlike(Published(s, f), Published(AddAll(s, rows), g), u)
    {
      forall row <- rows
        ensures Later(row, u)
      {
        LaterStill(row, t, u);
      }
      LaterRowsAreUnseen(s, rows, u);
      PublishedAlike(s, AddAll(s, rows), f, g, u);
    }
    EnginesAlike(e, b, Published(s, f), Published(AddAll(s, rows), g), t);
  }

  lemma ConnectedIsDated(e: Engines, b: Bridge, s: Store)
    requires CandidatesDated(e.options) && SnapshotsDated(b)
    ensures Dated(Connected(e, b, s))
  {
    hide CandidatesDated, SessionOn, SeriesOf;
  }

  /** Point-in-time decisions: whatever rows about the future of the decision time a dataset also holds, the point is
      refused for the same reason or entered with the same signal, contract, lot and price, up to their ids. */
  lemma DecisionsIgnoreTheFuture(e: Engines, b: Bridge, s: Store, rows: seq<Row>, f: Dump -> string, g: Dump -> string,
                                 ticker: string, asOf: Time)
    requires forall row <- rows :: Later(row, asOf)
    requires IdBlind(e) && CandidatesDated(e.options) && SnapshotsDated(b)
    ensures BareDecision(Decide(Connected(e, b, Published(AddAll(s, rows), g)), ticker, asOf))
         == BareDecision(Decide(Connected(e, b, Published(s, f)), ticker, asOf))
  {
    hide Decide, AlikeUntil, Dated, StrategiesBlind, OptionsBlind, ResearchBlind, EntryBlind, Later, AddAll, Published,
      MarketOf, ChainOf;
    ConnectedIsDated(e, b, Published(s, f));
    DatasetsAlike(e, b, s, rows, f, g, asOf);
    DecisionsAlike(Connected(e, b, Published(s, f)), Connected(e, b, Published(AddAll(s, rows), g)), ticker, asOf);
  }

  /** Point-in-time backtests: rows about the future of the last square-off, accepted or refused by the store, change
      nothing of a run but ids: not a decision, not a trade, not the cash, not the equity curve. */
  lemma RunsIgnoreTheFuture(e: Engines, b: Bridge, s: Store, rows: seq<Row>, f: Dump -> string, g: Dump -> string,
                            book: Book, points: seq<Point>, t: Time)
    requires (forall row <- rows :: Later(row, t)) && SquaredOffBy(e, points, t)
    requires IdBlind(e) && CandidatesDated(e.options) && SnapshotsDated(b)
    ensures BareBook(Played(Connected(e, b, Published(AddAll(s, rows), g)), book, points))
         == BareBook(Played(Connected(e, b, Published(s, f)), book, points))
  {
    hide Played, AlikeUntil, Dated, StrategiesBlind, OptionsBlind, ResearchBlind, EntryBlind, Later, AddAll, Published,
      MarketOf, ChainOf, BareBook;
    ConnectedIsDated(e, b, Published(s, f));
    DatasetsAlike(e, b, s, rows, f, g, t);
    RunsAlike(Connected(e, b, Published(s, f)), Connected(e, b, Published(AddAll(s, rows), g)), book, points, t);
  }

  // The ids themselves do look ahead.

  function OneSignal(m: Market): seq<Signal> { [Signal(m.id, m.id, "trend", 1, true, 0, 0)] }

  function NoOption(s: Signal, m: Market, c: Chain): Choice { NotPicked([]) }

  function NoVerdict(m: Market, s: Signal, choice: Choice): Verdict {
    Verdict("", false, [], if choice.Picked? then choice.candidate.id else "")
  }

  function NoEntry(c: Candidate, t: Time): Result<Entry, string> { Err("") }

  /** One signal a snapshot, and a chain from the future, so that every point is refused. */
  const ONE_SIGNAL := Engines(
    Full,
    (ticker, t) => Market("", t, [], [], 0),
    OneSignal,
    (ticker, t, spot) => Chain("", t + 1, []),
    NoOption,
    None,
    1,
    NoVerdict,
    NoEntry,
    (row, t, reason) => Err(""),
    (entry, exit, lots, lot) => 0,
    t => t)

  const PLAIN_BRIDGE := Bridge(
    [],
    (fingerprint, ticker, t) => fingerprint,
    (meta, session, series, ticker, t) => Market("", t, [], [], 0),
    (meta, snapshot, ticker, t, spot) => Chain("", t + 1, []))

  const NOTHING := Store(HistoryGaps.CLAIMS_EVERYTHING, [], [], [], [], false)

  const TOMORROW := BarRow(HistoryGaps.BarOfDay(1))

  function CountsBars(dump: Dump): string { if dump.bars == [] then "none" else "some" }

  /** A bar of tomorrow changes the fingerprint of the dataset, with it the id of today's snapshot, and with that the
      signal id in today's decision row, although the engines use ids for nothing but naming. */
  lemma IdsLookAhead()
    ensures IdBlind(ONE_SIGNAL) && CandidatesDated(ONE_SIGNAL.options) && SnapshotsDated(PLAIN_BRIDGE)
    ensures Later(TOMORROW, 0)
    ensures Decide(Connected(ONE_SIGNAL, PLAIN_BRIDGE, Published(AddAll(NOTHING, [TOMORROW]), CountsBars)), "NIFTY", 0)
         != Decide(Connected(ONE_SIGNAL, PLAIN_BRIDGE, Published(NOTHING, CountsBars)), "NIFTY", 0)
  {
    hide Decide, Connected, Published, AddAll, IdBlind, CandidatesDated, SnapshotsDated;
    FingerprintsDiffer();
    OneSignalIsBlind();
    RefusedWithId(Published(NOTHING, CountsBars));
    RefusedWithId(Published(AddAll(NOTHING, [TOMORROW]), CountsBars));
  }

  lemma OneSignalIsBlind()
    ensures IdBlind(ONE_SIGNAL) && CandidatesDated(ONE_SIGNAL.options) && SnapshotsDated(PLAIN_BRIDGE)
  {
    hide StrategiesBlind, OptionsBlind, ResearchBlind, EntryBlind, CandidatesDated, SnapshotsDated;
    OneSignalStrategies();
    ConstantEngines();
    SnapshotsOfToday();
  }

  lemma OneSignalStrategies()
    ensures StrategiesBlind(ONE_SIGNAL.strategies)
  {
    hide BareMarket, SignalsAlike, NoTies, OneSignal;
    var strategies := ONE_SIGNAL.strategies;
    forall m
      ensures strategies(m) == OneSignal(m) && NoTies(OneSignal(m))
      ensures forall s <- OneSignal(m) :: s.snapshotId == m.id
    {
      OneSignalAlone(m);
    }
    forall m: Market, n: Market
      ensures SignalsAlike(OneSignal(m), OneSignal(n))
    {
      OneSignalAlike(m, n);
    }
  }

  lemma OneSignalAlone(m: Market)
    ensures NoTies(OneSignal(m)) && forall s <- OneSignal(m) :: s.snapshotId == m.id
  {
  }

  lemma OneSignalAlike(m: Market, n: Market)
    ensures SignalsAlike(OneSignal(m), OneSignal(n))
  {
  }

  lemma ConstantEngines()
    ensures OptionsBlind(ONE_SIGNAL.options) && ResearchBlind(ONE_SIGNAL.research) && EntryBlind(ONE_SIGNAL.enter)
    ensures CandidatesDated(ONE_SIGNAL.options)
  {
    hide Drawn, BareChain, BareCandidate;
    var options, research, enter := ONE_SIGNAL.options, ONE_SIGNAL.research, ONE_SIGNAL.enter;
    assert forall s, m, c :: options(s, m, c) == NoOption(s, m, c);
    assert forall m, s, x :: research(m, s, x) == NoVerdict(m, s, x);
    assert forall c, t :: enter(c, t) == NoEntry(c, t);
  }

  lemma SnapshotsOfToday()
    ensures SnapshotsDated(PLAIN_BRIDGE)
  {
  }

  /** Over any store the row carries the fingerprint as its signal id. */
  lemma RefusedWithId(s: Store)
    ensures var decided := Decide(Connected(ONE_SIGNAL, PLAIN_BRIDGE, s), "NIFTY", 0);
            decided.Turned? && decided.row.signal == Some(s.meta.fingerprint)
  {
    hide PickSignal, SeriesOf, SessionOn, SnapshotQuotes;
    var id := s.meta.fingerprint;
    OneIsPicked(Signal(id, id, "trend", 1, true, 0, 0));
    var e := Connected(ONE_SIGNAL, PLAIN_BRIDGE, s);
    assert e.market("NIFTY", 0) == Market(id, 0, [], [], 0);
    assert e.strategies(e.market("NIFTY", 0)) == [Signal(id, id, "trend", 1, true, 0, 0)];
    assert e.chain("NIFTY", 0, 0) == Chain(id, 1, []);
  }

  lemma OneIsPicked(s: Signal)
    ensures PickSignal([s]) == Some(s)
  {
  }

  lemma FingerprintsDiffer()
    ensures Published(NOTHING, CountsBars).meta.fingerprint == "none"
    ensures Published(AddAll(NOTHING, [TOMORROW]), CountsBars).meta.fingerprint == "some"
  {
    hide HistoryCoverage.Coverage, HistoryCoverage.Gate, Forbidden;
    HistoryGaps.NiftyIsAllowed();
    assert [TOMORROW][1..] == [];
    var after := Add(NOTHING, TOMORROW);
    assert AddAll(NOTHING, [TOMORROW]) == after;
    assert after.bars == [HistoryGaps.BarOfDay(1)];
  }
}
