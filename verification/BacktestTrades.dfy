/** Which trades a backtest makes, in prices and in the answers of the engines. */
module BacktestTrades {
  import opened Basics
  import opened Ordering
  import opened HistoryRows
  import HistoryStore
  import opened BacktestLedger
  import opened BacktestMetrics
  import opened BacktestPipeline
  import opened BacktestRunner

  // The exit in prices.

  /** A bullish position is left at the end of the first bar from the decision on whose prices reach the stop below or
      the target above: stopped when only the stop is reached or both are. */
  lemma BullishExit(signal: Signal, bars: seq<PathBar>, asOf: Time) returns (n: nat)
    requires signal.bullish
    ensures n <= |bars|
    ensures forall i :: 0 <= i < n && bars[i].start >= asOf ==>
              signal.stop < bars[i].low && bars[i].high < signal.target
    ensures var (when, reason) := PathExit(signal, bars, asOf);
            if n == |bars| then when == None && reason == "SQUARE_OFF"
            else
              var stopped, reached := bars[n].low <= signal.stop, bars[n].high >= signal.target;
              && bars[n].start >= asOf && when == Some(bars[n].end)
              && match (stopped, reached)
                 case (true, true) => reason == "STOP_FIRST_AMBIGUOUS"
                 case (true, false) => reason == "STOP"
                 case (false, true) => reason == "TARGET"
                 case (false, false) => false
  {
    hide PathExit;
    n := PathExitIsFirstHit(signal, bars, asOf);
  }

  /** Prices upside down. */
  function Negated(signal: Signal): Signal {
    signal.(bullish := !signal.bullish, stop := -signal.stop, target := -signal.target)
  }

  function NegatedBars(bars: seq<PathBar>): seq<PathBar> {
    Map((bar: PathBar) => bar.(low := -bar.high, high := -bar.low), bars)
  }

  /** Bearish positions are left as bullish ones are with all prices negated. */
  lemma {:induction false} ExitUpsideDown(signal: Signal, bars: seq<PathBar>, asOf: Time)
    ensures PathExit(Negated(signal), NegatedBars(bars), asOf) == PathExit(signal, bars, asOf)
  {
    if bars != [] {
      ExitUpsideDown(signal, bars[1..], asOf);
      assert NegatedBars(bars)[1..] == NegatedBars(bars[1..]);
    }
  }

  /** Nothing is held over the square-off, which is the exit when the path has none by then. */
  lemma ExitByTheSquareOff(e: Engines, ticker: string, asOf: Time, signal: Signal)
    ensures var square := e.squareOff(asOf);
            var path := PathExit(signal, e.market(ticker, square).m15, asOf);
            var exit :=
              if path.0.Some? && path.0.value <= square then (path.0.value, path.1) else (square, "SQUARE_OFF");
            ExitPoint(e, ticker, asOf, signal) == exit
  {
    hide PathExit;
    if signal.bullish {
      var _ := BullishExit(signal, e.market(ticker, e.squareOff(asOf)).m15, asOf);
    } else {
      var bars := e.market(ticker, e.squareOff(asOf)).m15;
      ExitUpsideDown(signal, bars, asOf);
      var _ := BullishExit(Negated(signal), NegatedBars(bars), asOf);
    }
  }

  // The entry.

  /** One signal goes before another: more confidence, then the earlier strategy name, then the earlier id. */
  predicate Outranks(a: Signal, b: Signal) {
    || a.confidence > b.confidence
    || (a.confidence == b.confidence && a.strategy != b.strategy && TextLeq(a.strategy, b.strategy))
    || (a.confidence == b.confidence && a.strategy == b.strategy && a.id != b.id && TextLeq(a.id, b.id))
  }

  /** The first signal that no other outranks. */
  ghost predicate Foremost(signals: seq<Signal>, signal: Signal) {
    exists i :: 0 <= i < |signals| && signals[i] == signal && forall j :: 0 <= j < |signals| && j != i ==>
      if j < i then Outranks(signal, signals[j]) else !Outranks(signals[j], signal)
  }

  lemma RankMeaning(a: Signal, b: Signal)
    ensures SignalLeq(a, b) <==> !Outranks(b, a)
  {
    TextTotal(a.strategy, b.strategy);
    TextTotal(a.id, b.id);
  }

  lemma PickedExactlyWhen(signals: seq<Signal>, signal: Signal)
    ensures PickSignal(signals) == Some(signal) <==> Foremost(signals, signal)
  {
    hide SortBy, TextLeq, SignalLeq, Outranks;
    if signals != [] {
      SignalOrder();
      var i := SortHead(signals, SignalLeq);
      forall j | 0 <= j < |signals|
        ensures SignalLeq(signals[i], signals[j]) <==> !Outranks(signals[j], signals[i])
        ensures SignalLeq(signals[j], signals[i]) <==> !Outranks(signals[i], signals[j])
        ensures SignalLeq(signals[j], signal) <==> !Outranks(signal, signals[j])
        ensures SignalLeq(signal, signals[j]) <==> !Outranks(signals[j], signal)
      {
        RankMeaning(signals[i], signals[j]);
        RankMeaning(signals[j], signals[i]);
        RankMeaning(signals[j], signal);
        RankMeaning(signal, signals[j]);
      }
    }
  }

  /** The lot of the listed contract with the identity on a historical dataset; without one that of the candidate, or
      the configured one when it has none. */
  ghost predicate HasLot(e: Engines, picked: Candidate, lot: int) {
    && lot >= 1
    && if e.store.Some? && !e.store.value.meta.fixture then
         exists c <- e.store.value.contracts ::
           && c.underlying == picked.identity.underlying && c.expiry == picked.identity.expiry
           && c.strike == picked.identity.strike && c.optionType == picked.identity.optionType
           && c.firstSeen <= picked.asOf <= c.lastSeen && c.lotSize == Some(lot)
       else if picked.lot.Some? && picked.lot.value >= 1 then lot == picked.lot.value
       else lot == e.fixtureLot
  }

  lemma BoundExactlyWhen(e: Engines, picked: Candidate, bound: Candidate)
    requires e.store.Some? ==> HistoryStore.Consistent(e.store.value)
    ensures BindLot(picked, e.store, e.fixtureLot) == Ok(bound) <==>
              bound.lot.Some? && HasLot(e, picked, bound.lot.value) && bound == picked.(lot := bound.lot)
  {
    hide HistoryStore.Consistent, HistoryStore.ContractForCandidate;
    if e.store.Some? && !e.store.value.meta.fixture {
      var store, identity, asOf := e.store.value, picked.identity, picked.asOf;
      forall c: Contract
        ensures HistoryStore.ContractForCandidate(store, identity, asOf, picked.provider) == Some(c)
            <==> c in store.contracts && HistoryStore.Matches(c, identity, asOf)
      {
        HistoryStore.CandidateIsIdentified(store, identity, asOf, picked.provider, c);
      }
    }
  }

  /** What it takes to enter: data that does not look ahead, the foremost signal, a chain of the moment, a pick of the
      side of the signal with a lot, research that approves of that pick, and a fill. */
  ghost predicate Enters(e: Engines, ticker: string, asOf: Time, signal: Signal, bound: Candidate, entry: Entry,
                         decision: Option<string>)
  {
    var market := e.market(ticker, asOf);
    var chain := e.chain(ticker, asOf, market.price);
    var choice := e.options(signal, market, chain);
    && !e.ablation.AlwaysNoTrade?
    && (forall end <- market.ends :: end <= asOf) && chain.asOf == asOf
    && Foremost(e.strategies(market), signal)
    && choice.Picked? && bound == choice.candidate.(lot := bound.lot)
    && bound.lot.Some? && HasLot(e, choice.candidate, bound.lot.value)
    && bound.identity.optionType == (if signal.bullish then "CE" else "PE")
    && (if e.ablation.SkipCeo? then decision == None
        else
          var verdict := e.research(market, signal, Picked(bound, choice.rejected));
          verdict.approved && verdict.selected == bound.id && decision == Some(verdict.id))
    && e.enter(bound, asOf) == Ok(entry)
  }

  lemma EntersExactlyWhen(e: Engines, ticker: string, asOf: Time, signal: Signal, bound: Candidate, entry: Entry,
                          decision: Option<string>)
    requires e.store.Some? ==> HistoryStore.Consistent(e.store.value)
    ensures Decide(e, ticker, asOf) == Entered(signal, bound, entry, decision)
       <==> Enters(e, ticker, asOf, signal, bound, entry, decision)
  {
    hide HistoryStore.Consistent, PickSignal, Foremost, BindLot, HasLot;
    var market := e.market(ticker, asOf);
    PickedExactlyWhen(e.strategies(market), signal);
    var choice := e.options(signal, market, e.chain(ticker, asOf, market.price));
    if choice.Picked? {
      BoundExactlyWhen(e, choice.candidate, bound);
    }
  }

  // The trade.

  lemma {:induction false} FoundIsFirst(rows: seq<OptionRow>, identity: Identity) returns (i: nat)
    ensures i <= |rows| && forall j :: 0 <= j < i ==> rows[j].identity != identity
    ensures FindContract(rows, identity) == if i < |rows| then Some(rows[i]) else None
    ensures i < |rows| ==> rows[i].identity == identity
  {
    i := 0;
    if rows != [] && rows[0].identity != identity {
      var later := FoundIsFirst(rows[1..], identity);
      i := later + 1;
    }
  }

  /** What a position that was entered comes to: the first row of its contract in the chain of the exit prices it; the
      result is the price difference times lots times lot size, less the cost. */
  lemma TradeOfAnEntry(e: Engines, ticker: string, asOf: Time, signal: Signal, bound: Candidate, entry: Entry,
                       decision: Option<string>)
    requires e.store.Some? ==> HistoryStore.Consistent(e.store.value)
    requires Enters(e, ticker, asOf, signal, bound, entry, decision)
    ensures var (at, reason) := ExitPoint(e, ticker, asOf, signal);
            var row := FindContract(e.chain(ticker, at, e.market(ticker, at).price).rows, bound.identity);
            match e.exit(row, at, reason)
            case Err(why) =>
              Judge(e, ticker, asOf)
           == Rejected(DecisionRow(asOf, ticker, NoTrade, why, Some(signal.id), Some(bound.id), decision))
            case Ok(price) =>
              && Judge(e, ticker, asOf).Traded?
              && var t := Judge(e, ticker, asOf).trade;
                 && t.ticker == ticker && t.asOf == asOf && t.signal == signal.id && t.candidate == bound.id
                 && t.optionType == (if signal.bullish then "CE" else "PE")
                 && t.exitReason == reason && t.exitAt == at && t.entry == entry.price && t.exit == price
                 && t.lots == entry.lots && Some(t.lotSize) == bound.lot
                 && t.gross == (t.exit - t.entry) * t.lotSize * t.lots
                 && t.cost == e.cost(t.entry, t.exit, t.lots, t.lotSize) && t.net == t.gross - t.cost
  {
    hide HistoryStore.Consistent, Decide, ExitPoint, FindContract, Foremost;
    EntersExactlyWhen(e, ticker, asOf, signal, bound, entry, decision);
  }

  /** Every trade comes from such an entry. */
  lemma TradedMeansEntered(e: Engines, ticker: string, asOf: Time)
    returns (signal: Signal, bound: Candidate, entry: Entry, decision: Option<string>)
    requires e.store.Some? ==> HistoryStore.Consistent(e.store.value)
    requires Judge(e, ticker, asOf).Traded?
    ensures Enters(e, ticker, asOf, signal, bound, entry, decision)
  {
    hide HistoryStore.Consistent, Decide, Close, Enters;
    var decided := Decide(e, ticker, asOf);
    signal, bound, entry, decision := decided.signal, decided.candidate, decided.entry, decided.decision;
    EntersExactlyWhen(e, ticker, asOf, signal, bound, entry, decision);
  }

  /** What a point is refused for before an engine has a say. */
  lemma Refusals(e: Engines, ticker: string, asOf: Time)
    ensures var market, reason := e.market(ticker, asOf), Judge(e, ticker, asOf).row.reason;
            var signals := e.strategies(market);
            if e.ablation.AlwaysNoTrade? then reason == "ABLATION_ALWAYS_NO_TRADE"
            else if exists end <- market.ends :: end > asOf then reason == "LOOKAHEAD_UNDERLYING"
            else if signals == [] then reason == "NO_SIGNAL"
            else
              var chain := e.chain(ticker, asOf, market.price);
              && (chain.asOf > asOf ==> reason == "LOOKAHEAD_CHAIN")
              && (chain.asOf < asOf ==> reason == "ASOF_MISMATCH")
  {
    hide SortBy, BindLot, DecideCandidate, Close;
  }

  /** And what it is refused for after them: the engine's own first reason if it gives one. */
  lemma EngineRefusals(e: Engines, ticker: string, asOf: Time, signal: Signal)
    requires e.store.Some? ==> HistoryStore.Consistent(e.store.value)
    requires !e.ablation.AlwaysNoTrade? && Foremost(e.strategies(e.market(ticker, asOf)), signal)
    requires forall end <- e.market(ticker, asOf).ends :: end <= asOf
    requires e.chain(ticker, asOf, e.market(ticker, asOf).price).asOf == asOf
    ensures var market, reason := e.market(ticker, asOf), Judge(e, ticker, asOf).row.reason;
            match e.options(signal, market, e.chain(ticker, asOf, market.price))
            case NotPicked(why) => reason == if why == [] then "OPTIONS_NO_TRADE" else why[0]
            case Picked(picked, rejected) =>
              && ((forall lot :: !HasLot(e, picked, lot)) ==> reason == "MISSING_LOT_SIZE")
              && forall lot | HasLot(e, picked, lot) ::
                   var bound := picked.(lot := Some(lot));
                   var verdict := e.research(market, signal, Picked(bound, rejected));
                   && (signal.bullish && bound.identity.optionType != "CE" ==> reason == "BULLISH_PE")
                   && (!signal.bullish && bound.identity.optionType != "PE" ==> reason == "BEARISH_CE")
                   && (bound.identity.optionType == (if signal.bullish then "CE" else "PE") && !e.ablation.SkipCeo? ==>
                         && (!verdict.approved ==>
                               reason == if verdict.reasons == [] then "CEO_NO_TRADE" else verdict.reasons[0])
                         && (verdict.approved && verdict.selected != bound.id ==> reason == "UNKNOWN_CANDIDATE"))
  {
    hide HistoryStore.Consistent, PickSignal, Foremost, BindLot, HasLot, Close;
    var market := e.market(ticker, asOf);
    PickedExactlyWhen(e.strategies(market), signal);
    var choice := e.options(signal, market, e.chain(ticker, asOf, market.price));
    if choice.Picked? {
      forall lot
        ensures BindLot(choice.candidate, e.store, e.fixtureLot) == Ok(choice.candidate.(lot := Some(lot)))
           <==> HasLot(e, choice.candidate, lot)
      {
        BoundExactlyWhen(e, choice.candidate, choice.candidate.(lot := Some(lot)));
      }
      NoLot(e, choice.candidate);
    }
  }

  lemma NoLot(e: Engines, picked: Candidate)
    requires e.store.Some? ==> HistoryStore.Consistent(e.store.value)
    ensures var bound := BindLot(picked, e.store, e.fixtureLot);
            if bound.Err? then bound.error == "MISSING_LOT_SIZE" else exists lot :: HasLot(e, picked, lot)
  {
    hide HistoryStore.Consistent, HasLot;
    var bound := BindLot(picked, e.store, e.fixtureLot);
    if bound.Ok? {
      BoundExactlyWhen(e, picked, bound.value);
    }
  }

  // Runs.

  /** The points of a run: session by session, ticker by ticker, at eleven. */
  lemma {:induction false} PointAt(sessions: seq<Day>, names: seq<string>, i: nat, j: nat)
    requires i < |sessions| && j < |names|
    ensures i * |names| + j < |Points(sessions, names)|
    ensures Points(sessions, names)[i * |names| + j] == Point(names[j], sessions[i] * 86400 + 11 * 3600)
    decreases |sessions|
  {
    hide Map, DayPoints;
    var last := |sessions| - 1;
    PointCount(sessions[..last], names);
    DayPointAt(sessions[last], names, j);
    if i < last {
      PointAt(sessions[..last], names, i, j);
    }
  }

  lemma DayPointAt(day: Day, names: seq<string>, j: nat)
    requires j < |names|
    ensures |DayPoints(day, names)| == |names|
    ensures DayPoints(day, names)[j] == Point(names[j], day * 86400 + 11 * 3600)
  {
  }

  lemma {:induction false} RowsAreJudged(e: Engines, book: Book, points: seq<Point>, i: nat)
    requires i < |points|
    ensures Judge(e, points[i].ticker, points[i].asOf).row in Played(e, book, points).decisions
    decreases |points|
  {
    hide Judge;
    if i < |points| - 1 {
      RowsAreJudged(e, book, points[..|points| - 1], i);
    }
  }

  /** A run in which some point was shown data from after its moment is reported as leaking. */
  lemma LookAheadIsReported(e: Engines, startingCash: int, points: seq<Point>, i: nat, complete: bool)
    requires i < |points| && !e.ablation.AlwaysNoTrade?
    requires var market := e.market(points[i].ticker, points[i].asOf);
             || (exists end <- market.ends :: end > points[i].asOf)
             || (e.strategies(market) != []
                 && e.chain(points[i].ticker, points[i].asOf, market.price).asOf > points[i].asOf)
    ensures AssessLeakage(Played(e, Opened(startingCash), points).decisions, complete) == Leaking
  {
    hide Judge, Played;
    Refusals(e, points[i].ticker, points[i].asOf);
    RowsAreJudged(e, Opened(startingCash), points, i);
    assert LooksAhead(Judge(e, points[i].ticker, points[i].asOf).row);
  }

  /** A run leaks exactly when the reason of some row starts with LOOKAHEAD; otherwise it is unsure exactly when it is
      incomplete or empty. */
  lemma LeakageExactlyWhen(decisions: seq<DecisionRow>, complete: bool)
    ensures AssessLeakage(decisions, complete) == Leaking <==>
              exists row <- decisions, rest: string :: row.reason == "LOOKAHEAD" + rest
    ensures AssessLeakage(decisions, complete) == Unsure <==>
              AssessLeakage(decisions, complete) != Leaking && (decisions == [] || !complete)
  {
    forall row: DecisionRow
      ensures LooksAhead(row) <==> exists rest: string :: row.reason == "LOOKAHEAD" + rest
    {
      if LooksAhead(row) {
        assert row.reason == "LOOKAHEAD" + row.reason[9..];
      }
    }
  }
}
