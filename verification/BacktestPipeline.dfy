/** One historical decision. The market data, the strategy, option and research engines, the fill simulator and the cost
    model are arbitrary functions. */
module BacktestPipeline {
  import opened Basics
  import opened Ordering
  import opened HistoryRows
  import HistoryStore
  import opened BacktestLedger

  /** A bar of the fifteen-minute series. */
  datatype PathBar = PathBar(start: Time, end: Time, low: int, high: int)

  /** A snapshot; `id` is its digest and `ends` holds the end of the last bar of every series that has bars. */
  datatype Market = Market(id: string, asOf: Time, ends: seq<Time>, m15: seq<PathBar>, price: int)

  /** `snapshotId` is the id of the snapshot it was drawn from. */
  datatype Signal = Signal(id: string, snapshotId: string, strategy: string, confidence: int, bullish: bool, stop: int,
                           target: int)

  /** Fields that only the engines read are folded into `body`, here and in the rows of a chain. */
  datatype Candidate = Candidate(id: string, identity: Identity, asOf: Time, provider: Option<string>,
                                 lot: Option<int>, bid: Option<int>, ask: Option<int>, body: string)

  datatype OptionRow = OptionRow(identity: Identity, bid: Option<int>, ask: Option<int>, body: string)

  datatype Chain = Chain(id: string, asOf: Time, rows: seq<OptionRow>)

  /** The options decision; `rejected` are the contracts passed over, with the reasons. */
  datatype Choice = Picked(candidate: Candidate, rejected: seq<string>) | NotPicked(diagnostics: seq<string>)

  datatype Verdict = Verdict(id: string, approved: bool, reasons: seq<string>, selected: string)

  datatype Entry = Entry(price: int, lots: int)

  datatype Ablation = Full | SkipCeo | AlwaysNoTrade

  datatype Engines = Engines(
    ablation: Ablation,
    market: (string, Time) -> Market,
    strategies: Market -> seq<Signal>,
    chain: (string, Time, int) -> Chain,
    options: (Signal, Market, Chain) -> Choice,
    store: Option<HistoryStore.Store>,
    fixtureLot: int,
    research: (Market, Signal, Choice) -> Verdict,
    enter: (Candidate, Time) -> Result<Entry, string>,
    exit: (Option<OptionRow>, Time, string) -> Result<int, string>,
    cost: (int, int, int, int) -> int,
    squareOff: Time -> Time)

  // The choice of a signal.

  /** More confidence first, then the strategy name, then the signal id. */
  predicate SignalLeq(a: Signal, b: Signal) {
    if a.confidence != b.confidence then a.confidence > b.confidence
    else if a.strategy != b.strategy then TextLeq(a.strategy, b.strategy)
    else TextLeq(a.id, b.id)
  }

  function PickSignal(signals: seq<Signal>): Option<Signal> {
    if signals == [] then None
    else
      var ranked := SortBy(signals, SignalLeq);
      assert |ranked| == |multiset(ranked)| == |multiset(signals)| == |signals|;
      Some(ranked[0])
  }

  lemma PickedIsBest(signals: seq<Signal>)
    requires signals != []
    ensures PickSignal(signals).Some? && PickSignal(signals).value in signals
    ensures forall x <- signals :: SignalLeq(PickSignal(signals).value, x)
  {
    hide SortBy, TextLeq;
    var ranked := SortBy(signals, SignalLeq);
    SignalOrder();
    SortBySorted(signals, SignalLeq);
    PermutationMembers(ranked, signals);
    assert ranked[0] in ranked;
    forall x <- signals
      ensures SignalLeq(ranked[0], x)
    {
      var i :| 0 <= i < |ranked| && ranked[i] == x;
      SignalReflexive(x);
    }
  }

  lemma SignalReflexive(x: Signal)
    ensures SignalLeq(x, x)
  {
    TextTotal(x.id, x.id);
  }

  lemma SignalOrder()
    ensures TotalPreorder(SignalLeq)
  {
    hide TextLeq;
    TextOrder();
  }

  // The lot of a candidate.

  const MISSING_LOT := "MISSING_LOT_SIZE"

  /** Without a historical dataset the fixture lot fills in; with one only the canonical contract counts. */
  function BindLot(candidate: Candidate, store: Option<HistoryStore.Store>, fixtureLot: int)
    : (bound: Result<Candidate, string>)
    ensures bound.Ok? ==>
              && bound.value.lot.Some? && bound.value.lot.value >= 1
              && bound.value.(lot := candidate.lot) == candidate
  {
    if store.None? || store.value.meta.fixture then
      var lot := if candidate.lot.Some? && candidate.lot.value >= 1 then candidate.lot.value else fixtureLot;
      if lot < 1 then Err(MISSING_LOT) else Ok(candidate.(lot := Some(lot)))
    else
      match HistoryStore.ContractForCandidate(store.value, candidate.identity, candidate.asOf, candidate.provider)
      case None => Err(MISSING_LOT)
      case Some(contract) =>
        if contract.lotSize.None? || contract.lotSize.value < 1 then Err(MISSING_LOT)
        else Ok(candidate.(lot := contract.lotSize))
  }

  /** On a historical dataset the lot is the one of the listed contract with the candidate's identity, whatever lot or
      provider id the candidate came with. */
  lemma BoundLotIsCanonical(candidate: Candidate, store: HistoryStore.Store, fixtureLot: int, contract: Contract)
    requires HistoryStore.Consistent(store) && !store.meta.fixture
    requires contract in store.contracts && HistoryStore.Matches(contract, candidate.identity, candidate.asOf)
    ensures BindLot(candidate, Some(store), fixtureLot)
         == if contract.lotSize.Some? && contract.lotSize.value >= 1 then Ok(candidate.(lot := contract.lotSize))
            else Err(MISSING_LOT)
  {
    hide HistoryStore.Consistent, HistoryStore.ContractForCandidate, HistoryStore.Matches;
    HistoryStore.CandidateIsIdentified(store, candidate.identity, candidate.asOf, candidate.provider, contract);
  }

  // The exit path.

  predicate StopHit(signal: Signal, bar: PathBar) {
    if signal.bullish then bar.low <= signal.stop else bar.high >= signal.stop
  }

  predicate TargetHit(signal: Signal, bar: PathBar) {
    if signal.bullish then bar.high >= signal.target else bar.low <= signal.target
  }

  predicate Hit(signal: Signal, bar: PathBar) { StopHit(signal, bar) || TargetHit(signal, bar) }

  function HitReason(signal: Signal, bar: PathBar): string {
    if StopHit(signal, bar) && TargetHit(signal, bar) then "STOP_FIRST_AMBIGUOUS"
    else if StopHit(signal, bar) then "STOP"
    else "TARGET"
  }

  function PathExit(signal: Signal, bars: seq<PathBar>, asOf: Time): (Option<Time>, string) {
    if bars == [] then (None, "SQUARE_OFF")
    else if bars[0].start >= asOf && Hit(signal, bars[0]) then (Some(bars[0].end), HitReason(signal, bars[0]))
    else PathExit(signal, bars[1..], asOf)
  }

  method FindPathExit(signal: Signal, bars: seq<PathBar>, asOf: Time) returns (when: Option<Time>, reason: string)
    ensures (when, reason) == PathExit(signal, bars, asOf)
  {
    hide Hit, HitReason;
    for i := 0 to |bars|
      invariant PathExit(signal, bars, asOf) == PathExit(signal, bars[i..], asOf)
    {
      assert bars[i..][0] == bars[i] && bars[i..][1..] == bars[i + 1..];
      if bars[i].start >= asOf && Hit(signal, bars[i]) {
        return Some(bars[i].end), HitReason(signal, bars[i]);
      }
    }
    return None, "SQUARE_OFF";
  }

  predicate Ends(signal: Signal, bar: PathBar, asOf: Time) { bar.start >= asOf && Hit(signal, bar) }

  /** The exit is the end of the first bar from the decision on that touches the stop or the target; a bar that touches
      both counts as stopped; with no such bar the position waits for the square-off. */
  lemma {:induction false} PathExitIsFirstHit(signal: Signal, bars: seq<PathBar>, asOf: Time) returns (n: nat)
    ensures n <= |bars| && forall i :: 0 <= i < n ==> !Ends(signal, bars[i], asOf)
    ensures n == |bars| ==> PathExit(signal, bars, asOf) == (None, "SQUARE_OFF")
    ensures n < |bars| ==> Ends(signal, bars[n], asOf)
                           && PathExit(signal, bars, asOf) == (Some(bars[n].end), HitReason(signal, bars[n]))
  {
    hide Hit, HitReason;
    n := 0;
    if bars != [] && !Ends(signal, bars[0], asOf) {
      var later := PathExitIsFirstHit(signal, bars[1..], asOf);
      n := later + 1;
      assert forall i :: 0 < i < |bars| ==> bars[i] == bars[1..][i - 1];
    }
  }

  /** Bars listed after the first hit never change the exit. */
  lemma {:induction false} LaterBarsDoNotMatter(signal: Signal, bars: seq<PathBar>, more: seq<PathBar>, asOf: Time)
    ensures var exit := PathExit(signal, bars, asOf);
            PathExit(signal, bars + more, asOf) == if exit.0.Some? then exit else PathExit(signal, more, asOf)
  {
    hide Hit, HitReason;
    if bars == [] {
      assert bars + more == more;
    } else {
      assert (bars + more)[1..] == bars[1..] + more;
      LaterBarsDoNotMatter(signal, bars[1..], more, asOf);
    }
  }

  function FindContract(rows: seq<OptionRow>, identity: Identity): (found: Option<OptionRow>)
    ensures found.Some? ==> found.value in rows && found.value.identity == identity
    ensures found.None? ==> forall row <- rows :: row.identity != identity
  {
    if rows == [] then None
    else if rows[0].identity == identity then Some(rows[0])
    else FindContract(rows[1..], identity)
  }

  // One decision.

  /** What a point decides before anything after it is looked at: a refusal, or an entry. */
  datatype Decision = Turned(row: DecisionRow)
                    | Entered(signal: Signal, candidate: Candidate, entry: Entry, decision: Option<string>)

  datatype Outcome = Rejected(row: DecisionRow) | Traded(trade: Trade, row: DecisionRow)

  function Refusal(asOf: Time, ticker: string, reason: string, signal: Option<string>, candidate: Option<string>,
                   decision: Option<string>): DecisionRow
  {
    DecisionRow(asOf, ticker, NoTrade, reason, signal, candidate, decision)
  }

  function Turn(asOf: Time, ticker: string, reason: string, signal: Option<string>, candidate: Option<string>,
                decision: Option<string>): Decision
  {
    Turned(Refusal(asOf, ticker, reason, signal, candidate, decision))
  }

  function FirstOr(reasons: seq<string>, fallback: string): string { if reasons != [] then reasons[0] else fallback }

  function Decide(e: Engines, ticker: string, asOf: Time): Decision {
    if e.ablation.AlwaysNoTrade? then Turn(asOf, ticker, "ABLATION_ALWAYS_NO_TRADE", None, None, None)
    else
      var market := e.market(ticker, asOf);
      if exists end <- market.ends :: end > asOf then Turn(asOf, ticker, "LOOKAHEAD_UNDERLYING", None, None, None)
      else
        match PickSignal(e.strategies(market))
        case None => Turn(asOf, ticker, "NO_SIGNAL", None, None, None)
        case Some(signal) => DecideSignal(e, ticker, asOf, market, signal)
  }

  function DecideSignal(e: Engines, ticker: string, asOf: Time, market: Market, signal: Signal): Decision {
    var chain := e.chain(ticker, asOf, market.price);
    if chain.asOf > asOf then Turn(asOf, ticker, "LOOKAHEAD_CHAIN", Some(signal.id), None, None)
    else if chain.asOf != asOf then Turn(asOf, ticker, "ASOF_MISMATCH", Some(signal.id), None, None)
    else
      match e.options(signal, market, chain)
      case NotPicked(diagnostics) =>
        Turn(asOf, ticker, FirstOr(diagnostics, "OPTIONS_NO_TRADE"), Some(signal.id), None, None)
      case Picked(candidate, rejected) =>
        match BindLot(candidate, e.store, e.fixtureLot)
        case Err(reason) => Turn(asOf, ticker, reason, Some(signal.id), Some(candidate.id), None)
        case Ok(bound) => DecideCandidate(e, ticker, asOf, market, signal, bound, rejected)
  }

  function DecideCandidate(e: Engines, ticker: string, asOf: Time, market: Market, signal: Signal,
                           candidate: Candidate, rejected: seq<string>): Decision
  {
    var kind := candidate.identity.optionType;
    if signal.bullish && kind != "CE" then Turn(asOf, ticker, "BULLISH_PE", Some(signal.id), Some(candidate.id), None)
    else if !signal.bullish && kind != "PE" then
      Turn(asOf, ticker, "BEARISH_CE", Some(signal.id), Some(candidate.id), None)
    else if e.ablation.SkipCeo? then DecideEntry(e, ticker, asOf, signal, candidate, None)
    else
      var ceo := e.research(market, signal, Picked(candidate, rejected));
      if !ceo.approved then
        Turn(asOf, ticker, FirstOr(ceo.reasons, "CEO_NO_TRADE"), Some(signal.id), Some(candidate.id), Some(ceo.id))
      else if ceo.selected != candidate.id then
        Turn(asOf, ticker, "UNKNOWN_CANDIDATE", Some(signal.id), Some(candidate.id), Some(ceo.id))
      else DecideEntry(e, ticker, asOf, signal, candidate, Some(ceo.id))
  }

  function DecideEntry(e: Engines, ticker: string, asOf: Time, signal: Signal, candidate: Candidate,
                       decision: Option<string>): Decision
  {
    match e.enter(candidate, asOf)
    case Err(reason) => Turn(asOf, ticker, reason, Some(signal.id), Some(candidate.id), decision)
    case Ok(entry) => Entered(signal, candidate, entry, decision)
  }

  function ExitPoint(e: Engines, ticker: string, asOf: Time, signal: Signal): (Time, string) {
    var square := e.squareOff(asOf);
    var (when, reason) := PathExit(signal, e.market(ticker, square).m15, asOf);
    if when.None? then (square, reason)
    else if when.value > square then (square, "SQUARE_OFF")
    else (when.value, reason)
  }

  function Close(e: Engines, ticker: string, asOf: Time, signal: Signal, candidate: Candidate, entry: Entry,
                 decision: Option<string>): Outcome
  {
    var (exitAt, reason) := ExitPoint(e, ticker, asOf, signal);
    var chain := e.chain(ticker, exitAt, e.market(ticker, exitAt).price);
    match e.exit(FindContract(chain.rows, candidate.identity), exitAt, reason)
    case Err(why) => Rejected(Refusal(asOf, ticker, why, Some(signal.id), Some(candidate.id), decision))
    case Ok(price) =>
      if candidate.lot.None? || candidate.lot.value < 1 then
        Rejected(Refusal(asOf, ticker, MISSING_LOT, Some(signal.id), Some(candidate.id), decision))
      else
        var lot := candidate.lot.value;
        var gross, cost := (price - entry.price) * lot * entry.lots, e.cost(entry.price, price, entry.lots, lot);
        Traded(Trade(ticker, asOf, signal.id, candidate.id, candidate.identity.optionType, reason, exitAt, entry.price,
                     price, entry.lots, lot, gross, cost, gross - cost),
               DecisionRow(asOf, ticker, Fill, reason, Some(signal.id), Some(candidate.id), decision))
  }

  /** What becomes of a decision by the square-off. */
  function Settle(e: Engines, ticker: string, asOf: Time, decided: Decision): Outcome {
    match decided
    case Turned(row) => Rejected(row)
    case Entered(signal, candidate, entry, decision) => Close(e, ticker, asOf, signal, candidate, entry, decision)
  }

  function Judge(e: Engines, ticker: string, asOf: Time): Outcome { Settle(e, ticker, asOf, Decide(e, ticker, asOf)) }

  function Logged(book: Book, outcome: Outcome): Book {
    match outcome
    case Rejected(row) => WithDecision(book, row)
    case Traded(trade, row) => WithDecision(WithTrade(book, trade), row)
  }

  // The evaluator.

  class DecisionPipeline {
    const e: Engines
    const ledger: Ledger

    constructor (e: Engines, ledger: Ledger)
      ensures this.e == e && this.ledger == ledger
    {
      this.e, this.ledger := e, ledger;
    }

    method Evaluate(ticker: string, asOf: Time)
      modifies ledger
      ensures ledger.State() == Logged(old(ledger.State()), Judge(e, ticker, asOf))
    {
      hide PickSignal, DecideSignal, Close;
      if e.ablation.AlwaysNoTrade? {
        ledger.RecordDecision(DecisionRow(asOf, ticker, NoTrade, "ABLATION_ALWAYS_NO_TRADE", None, None, None));
        return;
      }
      var market := e.market(ticker, asOf);
      if exists end <- market.ends :: end > asOf {
        ledger.RecordDecision(DecisionRow(asOf, ticker, NoTrade, "LOOKAHEAD_UNDERLYING", None, None, None));
        return;
      }
      var signal := PickSignal(e.strategies(market));
      if signal.None? {
        ledger.RecordDecision(DecisionRow(asOf, ticker, NoTrade, "NO_SIGNAL", None, None, None));
        return;
      }
      EvaluateSignal(ticker, asOf, market, signal.value);
    }

    method EvaluateSignal(ticker: string, asOf: Time, market: Market, signal: Signal)
      modifies ledger
      ensures var decided := DecideSignal(e, ticker, asOf, market, signal);
              ledger.State() == Logged(old(ledger.State()), Settle(e, ticker, asOf, decided))
    {
      hide BindLot, DecideCandidate, Close;
      var chain := e.chain(ticker, asOf, market.price);
      if chain.asOf > asOf {
        ledger.RecordDecision(DecisionRow(asOf, ticker, NoTrade, "LOOKAHEAD_CHAIN", Some(signal.id), None, None));
        return;
      }
      if chain.asOf != asOf {
        ledger.RecordDecision(DecisionRow(asOf, ticker, NoTrade, "ASOF_MISMATCH", Some(signal.id), None, None));
        return;
      }
      var choice := e.options(signal, market, chain);
      if choice.NotPicked? {
        ledger.RecordDecision(DecisionRow(asOf, ticker, NoTrade, FirstOr(choice.diagnostics, "OPTIONS_NO_TRADE"),
                                          Some(signal.id), None, None));
        return;
      }
      var bound := BindLot(choice.candidate, e.store, e.fixtureLot);
      if bound.Err? {
        ledger.RecordDecision(DecisionRow(asOf, ticker, NoTrade, bound.error, Some(signal.id),
                                          Some(choice.candidate.id), None));
        return;
      }
      EvaluateCandidate(ticker, asOf, market, signal, bound.value, choice.rejected);
    }

    method EvaluateCandidate(ticker: string, asOf: Time, market: Market, signal: Signal, candidate: Candidate,
                             rejected: seq<string>)
      modifies ledger
      ensures var decided := DecideCandidate(e, ticker, asOf, market, signal, candidate, rejected);
              ledger.State() == Logged(old(ledger.State()), Settle(e, ticker, asOf, decided))
    {
      hide Close;
      var decision: Option<string> := None;
      var reason := "";
      if signal.bullish && candidate.identity.optionType != "CE" {
        reason := "BULLISH_PE";
      } else if !signal.bullish && candidate.identity.optionType != "PE" {
        reason := "BEARISH_CE";
      } else {
        if !e.ablation.SkipCeo? {
          var ceo := e.research(market, signal, Picked(candidate, rejected));
          decision := Some(ceo.id);
          if !ceo.approved || ceo.selected != candidate.id {
            reason := if !ceo.approved then FirstOr(ceo.reasons, "CEO_NO_TRADE") else "UNKNOWN_CANDIDATE";
            ledger.RecordDecision(DecisionRow(asOf, ticker, NoTrade, reason, Some(signal.id), Some(candidate.id),
                                              decision));
            return;
          }
        }
        EnterAndClose(ticker, asOf, signal, candidate, decision);
        return;
      }
      ledger.RecordDecision(DecisionRow(asOf, ticker, NoTrade, reason, Some(signal.id), Some(candidate.id), None));
    }

    method EnterAndClose(ticker: string, asOf: Time, signal: Signal, candidate: Candidate, decision: Option<string>)
      modifies ledger
      ensures var decided := DecideEntry(e, ticker, asOf, signal, candidate, decision);
              ledger.State() == Logged(old(ledger.State()), Settle(e, ticker, asOf, decided))
    {
      hide Close;
      var entry := e.enter(candidate, asOf);
      if entry.Err? {
        ledger.RecordDecision(DecisionRow(asOf, ticker, NoTrade, entry.error, Some(signal.id), Some(candidate.id),
                                          decision));
        return;
      }
      CloseOut(ticker, asOf, signal, candidate, entry.value, decision);
    }

    method CloseOut(ticker: string, asOf: Time, signal: Signal, candidate: Candidate, entry: Entry,
                    decision: Option<string>)
      modifies ledger
      ensures ledger.State() == Logged(old(ledger.State()), Close(e, ticker, asOf, signal, candidate, entry, decision))
    {
      hide PathExit, FindContract;
      var square := e.squareOff(asOf);
      var when, reason := FindPathExit(signal, e.market(ticker, square).m15, asOf);
      var exitAt := if when.Some? then when.value else square;
      if exitAt > square {
        exitAt, reason := square, "SQUARE_OFF";
      }
      var chain := e.chain(ticker, exitAt, e.market(ticker, exitAt).price);
      var filled := e.exit(FindContract(chain.rows, candidate.identity), exitAt, reason);
      if filled.Err? {
        ledger.RecordDecision(DecisionRow(asOf, ticker, NoTrade, filled.error, Some(signal.id), Some(candidate.id),
                                          decision));
        return;
      }
      if candidate.lot.None? || candidate.lot.value < 1 {
        ledger.RecordDecision(DecisionRow(asOf, ticker, NoTrade, MISSING_LOT, Some(signal.id), Some(candidate.id),
                                          decision));
        return;
      }
      var price, lot := filled.value, candidate.lot.value;
      var gross, cost := (price - entry.price) * lot * entry.lots, e.cost(entry.price, price, entry.lots, lot);
      ledger.RecordTrade(Trade(ticker, asOf, signal.id, candidate.id, candidate.identity.optionType, reason, exitAt,
                               entry.price, price, entry.lots, lot, gross, cost, gross - cost));
      ledger.RecordDecision(DecisionRow(asOf, ticker, Fill, reason, Some(signal.id), Some(candidate.id), decision));
    }
  }

  // What every decision is like.

  /** The row answers the question that was asked; a fill carries a trade whose net is gross minus cost. */
  ghost predicate WellFormed(outcome: Outcome, ticker: string, asOf: Time) {
    match outcome
    case Rejected(row) => row.status == NoTrade && row.asOf == asOf && row.ticker == ticker
    case Traded(trade, row) =>
      && row.status == Fill && row.asOf == asOf && row.ticker == ticker
      && trade.ticker == ticker && trade.asOf == asOf && trade.lotSize >= 1
      && trade.net == trade.gross - trade.cost
      && trade.gross == (trade.exit - trade.entry) * trade.lotSize * trade.lots
      && row.signal == Some(trade.signal) && row.candidate == Some(trade.candidate) && row.reason == trade.exitReason
  }

  lemma CloseIsWellFormed(e: Engines, ticker: string, asOf: Time, signal: Signal, candidate: Candidate, entry: Entry,
                          decision: Option<string>)
    ensures WellFormed(Close(e, ticker, asOf, signal, candidate, entry, decision), ticker, asOf)
  {
    hide ExitPoint, FindContract;
  }

  /** A refusal answers the question that was asked. */
  ghost predicate Answering(decided: Decision, ticker: string, asOf: Time) {
    decided.Turned? ==> decided.row.status == NoTrade && decided.row.asOf == asOf && decided.row.ticker == ticker
  }

  lemma CandidateIsAnswered(e: Engines, ticker: string, asOf: Time, market: Market, signal: Signal,
                            candidate: Candidate, rejected: seq<string>)
    ensures Answering(DecideCandidate(e, ticker, asOf, market, signal, candidate, rejected), ticker, asOf)
  {
  }

  lemma DecisionAnswers(e: Engines, ticker: string, asOf: Time)
    ensures Answering(Decide(e, ticker, asOf), ticker, asOf)
  {
    hide PickSignal, BindLot, DecideCandidate;
    forall market: Market, signal: Signal, candidate: Candidate, rejected: seq<string>
      ensures Answering(DecideCandidate(e, ticker, asOf, market, signal, candidate, rejected), ticker, asOf)
    {
      CandidateIsAnswered(e, ticker, asOf, market, signal, candidate, rejected);
    }
  }

  lemma JudgeIsWellFormed(e: Engines, ticker: string, asOf: Time)
    ensures WellFormed(Judge(e, ticker, asOf), ticker, asOf)
  {
    hide Decide, Close;
    DecisionAnswers(e, ticker, asOf);
    match Decide(e, ticker, asOf)
    case Turned(_) =>
    case Entered(signal, candidate, entry, decision) =>
      CloseIsWellFormed(e, ticker, asOf, signal, candidate, entry, decision);
  }

  /** Every evaluation, whichever of its branches it takes, writes exactly one decision row, and a trade exactly when
      that row is a FILL. */
  lemma EvaluationLogsOnce(e: Engines, book: Book, ticker: string, asOf: Time)
    ensures var outcome := Judge(e, ticker, asOf);
            var after := Logged(book, outcome);
            && after.decisions == book.decisions + [outcome.row]
            && outcome.row.asOf == asOf && outcome.row.ticker == ticker
            && (outcome.row.status == Fill <==> outcome.Traded?)
            && after.trades == (if outcome.Traded? then book.trades + [outcome.trade] else book.trades)
            && after.cash == book.cash + (if outcome.Traded? then outcome.trade.gross - outcome.trade.cost else 0)
  {
    hide Judge;
    JudgeIsWellFormed(e, ticker, asOf);
  }
}
