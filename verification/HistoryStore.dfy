/** The canonical store of one dataset version, and what its queries as of a moment may depend on. */
module HistoryStore {
  import opened Basics
  import opened Ordering
  import opened HistoryRows

  datatype Warning = MissingSessions | OptionSnapshotGaps | BidAskGaps | MissingOi | MissingVolume | MissingIv
                   | Unknown(id: string)

  /** `cadence` is in minutes after midnight; fields that no rule reads are folded into `body`. */
  datatype Meta = Meta(version: string, fingerprint: string, timezone: string, qualityStatus: string,
                       licenseStatus: string, bidAsk: bool, oi: bool, volume: bool, iv: bool, frameworkOnly: bool,
                       fixture: bool, cadence: seq<nat>, warnings: seq<Warning>, mappingPolicy: string,
                       slotTolerance: int, qualification: string, body: string)

  /** Dictionaries are kept as lists in insertion order. */
  datatype Store = Store(meta: Meta, sessions: seq<Session>, bars: seq<Bar>, contracts: seq<Contract>,
                         quotes: seq<Quote>, published: bool)

  datatype Row =
    | SessionRow(session: Session)
    | BarRow(bar: Bar)
    | ContractRow(contract: Contract)
    | QuoteRow(quote: Quote)

  function RefuseSession(s: Store, session: Session): Option<Error> {
    if SessionFault(session).Some? then SessionFault(session)
    else if Taken(s.sessions, SessionKeyOf, session.date) then Some(DuplicateSession)
    else None
  }

  function RefuseBar(s: Store, bar: Bar): Option<Error> {
    if BarFault(bar).Some? then BarFault(bar)
    else if Taken(s.bars, BarKeyOf, BarKeyOf(bar)) then Some(DuplicateBar)
    else if bar.version != s.meta.version then Some(WrongVersion)
    else None
  }

  function RefuseContract(s: Store, contract: Contract): Option<Error> {
    if ContractFault(contract).Some? then ContractFault(contract)
    else if Taken(s.contracts, ContractKeyOf, contract.contractId) then Some(DuplicateContract)
    else if Taken(s.contracts, IdentityOf, IdentityOf(contract)) then Some(IdentityCollision)
    else if contract.version != s.meta.version then Some(WrongVersion)
    else None
  }

  function RefuseQuote(s: Store, quote: Quote): Option<Error> {
    if QuoteFault(quote).Some? then QuoteFault(quote)
    else if !Taken(s.contracts, ContractKeyOf, quote.contractId) then Some(UnknownContract)
    else if Taken(s.quotes, QuoteKeyOf, QuoteKeyOf(quote)) then Some(DuplicateQuote)
    else if quote.version != s.meta.version then Some(WrongVersion)
    else None
  }

  /** Why a row is not added, in the order the store checks. */
  function Refuse(s: Store, row: Row): Option<Error> {
    if s.published then Some(DatasetImmutable)
    else
      match row
      case SessionRow(session) => RefuseSession(s, session)
      case BarRow(bar) => RefuseBar(s, bar)
      case ContractRow(contract) => RefuseContract(s, contract)
      case QuoteRow(quote) => RefuseQuote(s, quote)
  }

  function Place(s: Store, row: Row): Store {
    match row
    case SessionRow(session) => s.(sessions := s.sessions + [session])
    case BarRow(bar) => s.(bars := s.bars + [bar])
    case ContractRow(contract) => s.(contracts := s.contracts + [contract])
    case QuoteRow(quote) => s.(quotes := s.quotes + [quote])
  }

  /** One `add_*` call; a call that raises leaves the store as it was. */
  function Add(s: Store, row: Row): Store {
    if Refuse(s, row).None? then Place(s, row) else s
  }

  function AddAll(s: Store, rows: seq<Row>): Store
    decreases |rows|
  {
    if rows == [] then s else AddAll(Add(s, rows[0]), rows[1..])
  }

  // The invariant of every reachable store.

  ghost predicate SessionsOk(sessions: seq<Session>) {
    UniqueBy(sessions, SessionKeyOf) && forall x <- sessions :: SessionFault(x).None?
  }

  ghost predicate BarsOk(bars: seq<Bar>, version: string) {
    UniqueBy(bars, BarKeyOf) && forall x <- bars :: BarFault(x).None? && x.version == version
  }

  ghost predicate ContractsOk(contracts: seq<Contract>, version: string) {
    && UniqueBy(contracts, ContractKeyOf) && UniqueBy(contracts, IdentityOf)
    && forall x <- contracts :: ContractFault(x).None? && x.version == version
  }

  ghost predicate QuotesOk(quotes: seq<Quote>, contracts: seq<Contract>, version: string) {
    && UniqueBy(quotes, QuoteKeyOf)
    && forall x <- quotes ::
         QuoteFault(x).None? && x.version == version && Taken(contracts, ContractKeyOf, x.contractId)
  }

  /** Unique keys, valid rows, one dataset version, and every quote belongs to a stored contract. */
  ghost predicate Consistent(s: Store) {
    && SessionsOk(s.sessions)
    && BarsOk(s.bars, s.meta.version)
    && ContractsOk(s.contracts, s.meta.version)
    && QuotesOk(s.quotes, s.contracts, s.meta.version)
  }

  lemma TakenGrows<T, K>(xs: seq<T>, key: T -> K, k: K, x: T)
    requires Taken(xs, key, k)
    ensures Taken(xs + [x], key, k)
  {
    var y :| y in xs && key(y) == k;
    assert y in xs + [x];
  }

  lemma QuotesKeepContracts(quotes: seq<Quote>, contracts: seq<Contract>, version: string, contract: Contract)
    requires QuotesOk(quotes, contracts, version)
    ensures QuotesOk(quotes, contracts + [contract], version)
  {
    hide QuoteFault, UniqueBy, Taken;
    forall x <- quotes
      ensures Taken(contracts + [contract], ContractKeyOf, x.contractId)
    {
      TakenGrows(contracts, ContractKeyOf, x.contractId, contract);
    }
  }

  /** No call of any `add_*` method breaks a uniqueness or reference rule. */
  lemma AddKeepsConsistent(s: Store, row: Row)
    requires Consistent(s)
    ensures Consistent(Add(s, row))
  {
    hide UniqueBy, Taken, SessionFault, BarFault, ContractFault, QuoteFault;
    if Refuse(s, row).None? {
      match row
      case SessionRow(session) => UniqueGrows(s.sessions, SessionKeyOf, session);
      case BarRow(bar) => UniqueGrows(s.bars, BarKeyOf, bar);
      case ContractRow(contract) =>
        UniqueGrows(s.contracts, ContractKeyOf, contract);
        UniqueGrows(s.contracts, IdentityOf, contract);
        QuotesKeepContracts(s.quotes, s.contracts, s.meta.version, contract);
      case QuoteRow(quote) => UniqueGrows(s.quotes, QuoteKeyOf, quote);
    }
  }

  lemma {:induction false} AddAllKeepsConsistent(s: Store, rows: seq<Row>)
    requires Consistent(s)
    ensures Consistent(AddAll(s, rows))
    decreases |rows|
  {
    hide Consistent, Add;
    if rows != [] {
      AddKeepsConsistent(s, rows[0]);
      AddAllKeepsConsistent(Add(s, rows[0]), rows[1..]);
    }
  }

  /** A published store never changes again. */
  lemma {:induction false} PublishedIsImmutable(s: Store, rows: seq<Row>)
    requires s.published
    ensures AddAll(s, rows) == s
    decreases |rows|
  {
    if rows != [] {
      assert Add(s, rows[0]) == s;
      PublishedIsImmutable(s, rows[1..]);
    }
  }

  // Queries as of a moment.

  /** An empty timeframe means any, as an absent one does. */
  predicate BarVisible(bar: Bar, symbol: string, asOf: Time, timeframe: Option<string>) {
    && bar.symbol == symbol
    && (timeframe.Some? && timeframe.value != "" ==> bar.timeframe == timeframe.value)
    && bar.availableAt <= asOf && bar.end <= asOf
  }

  predicate BarLeq(a: Bar, b: Bar) {
    if a.timeframe == b.timeframe then a.timestamp <= b.timestamp else TextLeq(a.timeframe, b.timeframe)
  }

  function VisibleBars(bars: seq<Bar>, symbol: string, asOf: Time, timeframe: Option<string>): seq<Bar> {
    Filter(bars, (bar: Bar) => BarVisible(bar, symbol, asOf, timeframe))
  }

  function BarsAt(s: Store, symbol: string, asOf: Time, timeframe: Option<string>): Result<seq<Bar>, Error> {
    if Forbidden(symbol) then Err(UnsupportedUnderlying(symbol))
    else Ok(SortBy(VisibleBars(s.bars, symbol, asOf, timeframe), BarLeq))
  }

  predicate ContractVisible(contract: Contract, underlying: string, asOf: Time) {
    contract.underlying == underlying && contract.firstSeen <= asOf <= contract.lastSeen
  }

  function Live(contracts: seq<Contract>, underlying: string, asOf: Time): seq<Contract> {
    Filter(contracts, (contract: Contract) => ContractVisible(contract, underlying, asOf))
  }

  function ContractsAt(s: Store, underlying: string, asOf: Time): Result<seq<Contract>, Error> {
    if Forbidden(underlying) then Err(UnsupportedUnderlying(underlying)) else Ok(Live(s.contracts, underlying, asOf))
  }

  predicate QuoteVisible(quote: Quote, contract: Contract, asOf: Time) {
    && quote.contractId == contract.contractId
    && quote.availableAt <= asOf && quote.timestamp <= asOf
    && contract.firstSeen <= quote.timestamp <= contract.lastSeen
  }

  function Eligible(quotes: seq<Quote>, contract: Contract, asOf: Time): seq<Quote> {
    Filter(quotes, (quote: Quote) => QuoteVisible(quote, contract, asOf))
  }

  /** `max(eligible, key=timestamp)`: the first of the latest. */
  function Latest(quotes: seq<Quote>): (q: Quote)
    requires quotes != []
    ensures q in quotes && forall x <- quotes :: x.timestamp <= q.timestamp
  {
    var last := quotes[|quotes| - 1];
    if |quotes| == 1 then last
    else
      var best := Latest(quotes[..|quotes| - 1]);
      if last.timestamp > best.timestamp then last else best
  }

  function LatestQuotes(live: seq<Contract>, quotes: seq<Quote>, asOf: Time): seq<Quote> {
    if live == [] then []
    else
      var front, last := live[..|live| - 1], live[|live| - 1];
      var eligible := Eligible(quotes, last, asOf);
      LatestQuotes(front, quotes, asOf) + if eligible == [] then [] else [Latest(eligible)]
  }

  function SnapshotQuotes(s: Store, underlying: string, asOf: Time): Result<(seq<Contract>, seq<Quote>), Error> {
    if Forbidden(underlying) then Err(UnsupportedUnderlying(underlying))
    else
      var live := Live(s.contracts, underlying, asOf);
      Ok((live, LatestQuotes(live, s.quotes, asOf)))
  }

  // Meaning of the queries.

  /** `bars_at` lists exactly the visible bars, by timeframe and then time. */
  lemma BarsAtMeaning(s: Store, symbol: string, asOf: Time, timeframe: Option<string>)
    requires !Forbidden(symbol)
    ensures var bars := BarsAt(s, symbol, asOf, timeframe).value;
            && (forall bar :: bar in bars <==> bar in s.bars && BarVisible(bar, symbol, asOf, timeframe))
            && Sorted(bars, BarLeq)
  {
    hide Forbidden, BarVisible;
    var visible := VisibleBars(s.bars, symbol, asOf, timeframe);
    PermutationMembers(SortBy(visible, BarLeq), visible);
    BarOrder();
    SortBySorted(visible, BarLeq);
  }

  lemma BarOrder()
    ensures TotalPreorder(BarLeq)
  {
    TextOrder();
  }

  /** The quotes of a snapshot are exactly the latest eligible quote of every live contract that has one. */
  lemma {:induction false} SnapshotMeaning(live: seq<Contract>, quotes: seq<Quote>, asOf: Time, q: Quote)
    ensures q in LatestQuotes(live, quotes, asOf) <==>
            exists c <- live :: Eligible(quotes, c, asOf) != [] && Latest(Eligible(quotes, c, asOf)) == q
  {
    hide Latest, Eligible;
    if live != [] {
      SnapshotMeaning(live[..|live| - 1], quotes, asOf, q);
      assert live == live[..|live| - 1] + [live[|live| - 1]];
    }
  }

  // Nothing that belongs to the future of `t` can change an answer as of `t`.

  predicate Future(row: Row, t: Time) {
    match row
    case SessionRow(_) => true
    case BarRow(bar) => bar.end > t || bar.availableAt > t
    case ContractRow(contract) => contract.firstSeen > t
    case QuoteRow(quote) => quote.timestamp > t || quote.availableAt > t
  }

  ghost predicate SameAnswers(a: Store, b: Store, t: Time) {
    && (forall symbol, timeframe :: BarsAt(a, symbol, t, timeframe) == BarsAt(b, symbol, t, timeframe))
    && (forall underlying :: ContractsAt(a, underlying, t) == ContractsAt(b, underlying, t))
    && (forall underlying :: SnapshotQuotes(a, underlying, t) == SnapshotQuotes(b, underlying, t))
  }

  lemma FutureBar(bars: seq<Bar>, bar: Bar, symbol: string, t: Time, timeframe: Option<string>)
    requires bar.end > t || bar.availableAt > t
    ensures VisibleBars(bars + [bar], symbol, t, timeframe) == VisibleBars(bars, symbol, t, timeframe)
  {
    FilterConcat(bars, [bar], (b: Bar) => BarVisible(b, symbol, t, timeframe));
  }

  lemma FutureContract(contracts: seq<Contract>, contract: Contract, underlying: string, t: Time)
    requires contract.firstSeen > t
    ensures Live(contracts + [contract], underlying, t) == Live(contracts, underlying, t)
  {
    FilterConcat(contracts, [contract], (c: Contract) => ContractVisible(c, underlying, t));
  }

  lemma NotEligible(quotes: seq<Quote>, quote: Quote, contract: Contract, t: Time)
    requires quote.timestamp > t || quote.availableAt > t
    ensures Eligible(quotes + [quote], contract, t) == Eligible(quotes, contract, t)
  {
    FilterConcat(quotes, [quote], (q: Quote) => QuoteVisible(q, contract, t));
  }

  lemma {:induction false} FutureQuote(live: seq<Contract>, quotes: seq<Quote>, quote: Quote, t: Time)
    requires quote.timestamp > t || quote.availableAt > t
    ensures LatestQuotes(live, quotes + [quote], t) == LatestQuotes(live, quotes, t)
  {
    hide Eligible, Latest;
    if live != [] {
      FutureQuote(live[..|live| - 1], quotes, quote, t);
      NotEligible(quotes, quote, live[|live| - 1], t);
    }
  }

  lemma FutureRow(s: Store, row: Row, t: Time)
    requires Future(row, t)
    ensures SameAnswers(s, Add(s, row), t)
  {
    hide Refuse, Forbidden, VisibleBars, Live, LatestQuotes, SortBy;
    match row
    case SessionRow(_) =>
    case BarRow(bar) =>
      forall symbol, timeframe
        ensures VisibleBars(s.bars + [bar], symbol, t, timeframe) == VisibleBars(s.bars, symbol, t, timeframe)
      {
        FutureBar(s.bars, bar, symbol, t, timeframe);
      }
    case ContractRow(contract) =>
      forall underlying
        ensures Live(s.contracts + [contract], underlying, t) == Live(s.contracts, underlying, t)
      {
        FutureContract(s.contracts, contract, underlying, t);
      }
    case QuoteRow(quote) =>
      forall live
        ensures LatestQuotes(live, s.quotes + [quote], t) == LatestQuotes(live, s.quotes, t)
      {
        FutureQuote(live, s.quotes, quote, t);
      }
  }

  /** Point-in-time: any sequence of adds of future rows, refused or not, leaves every answer as of `t` unchanged. */
  lemma {:induction false} NoLookAhead(s: Store, rows: seq<Row>, t: Time)
    requires forall row <- rows :: Future(row, t)
    ensures SameAnswers(s, AddAll(s, rows), t)
    decreases |rows|
  {
    hide Add, Future, BarsAt, ContractsAt, SnapshotQuotes;
    if rows != [] {
      FutureRow(s, rows[0], t);
      NoLookAhead(Add(s, rows[0]), rows[1..], t);
    }
  }

  /** The other direction for one accepted row: it shows up in the answer exactly when it is not future and matches. */
  lemma VisibleBarAppears(s: Store, bar: Bar, symbol: string, t: Time, timeframe: Option<string>)
    requires !Forbidden(symbol) && Refuse(s, BarRow(bar)).None?
    ensures var before := BarsAt(s, symbol, t, timeframe).value;
            var after := BarsAt(Add(s, BarRow(bar)), symbol, t, timeframe).value;
            var added := if BarVisible(bar, symbol, t, timeframe) then multiset{bar} else multiset{};
            multiset(after) == multiset(before) + added
  {
    hide Forbidden, Refuse;
    FilterConcat(s.bars, [bar], (b: Bar) => BarVisible(b, symbol, t, timeframe));
  }

  lemma VisibleContractAppears(s: Store, contract: Contract, underlying: string, t: Time)
    requires !Forbidden(underlying) && Refuse(s, ContractRow(contract)).None?
    ensures ContractsAt(Add(s, ContractRow(contract)), underlying, t).value
         == ContractsAt(s, underlying, t).value + if ContractVisible(contract, underlying, t) then [contract] else []
  {
    hide Forbidden, Refuse;
    FilterConcat(s.contracts, [contract], (c: Contract) => ContractVisible(c, underlying, t));
  }

  // The contract a candidate stands for.

  predicate Matches(c: Contract, identity: Identity, asOf: Time) {
    IdentityOf(c) == identity && c.firstSeen <= asOf <= c.lastSeen
  }

  /** An empty provider id is as good as none. */
  function ContractForCandidate(s: Store, identity: Identity, asOf: Time, provider: Option<string>): Option<Contract> {
    var matches := Filter(s.contracts, (c: Contract) => Matches(c, identity, asOf));
    var named := Filter(matches, (c: Contract) => provider == Some(c.providerId));
    if provider.Some? && provider.value != "" && |named| == 1 then Some(named[0])
    else if |matches| == 1 then Some(matches[0])
    else None
  }

  lemma AtMostOneMatch(contracts: seq<Contract>, identity: Identity, asOf: Time)
    requires UniqueBy(contracts, IdentityOf)
    ensures |Filter(contracts, (c: Contract) => Matches(c, identity, asOf))| <= 1
  {
    hide Matches;
    if contracts != [] {
      AtMostOneMatch(contracts[1..], identity, asOf);
      var rest := Filter(contracts[1..], (c: Contract) => Matches(c, identity, asOf));
      if Matches(contracts[0], identity, asOf) && rest != [] {
        assert rest[0] in rest;
        var j :| 0 <= j < |contracts| - 1 && contracts[1..][j] == rest[0];
        assert contracts[j + 1] == rest[0] && IdentityOf(contracts[0]) != IdentityOf(contracts[j + 1]);
        SameIdentity(contracts[0], rest[0], identity, asOf);
      }
    }
  }

  lemma SameIdentity(a: Contract, b: Contract, identity: Identity, asOf: Time)
    requires Matches(a, identity, asOf) && Matches(b, identity, asOf)
    ensures IdentityOf(a) == IdentityOf(b)
  {
  }

  /** In every reachable store a candidate is resolved by identity alone: the answer is the one contract of that
      identity that is listed at the moment, whatever provider id is asked for. */
  lemma CandidateIsIdentified(s: Store, identity: Identity, asOf: Time, provider: Option<string>, c: Contract)
    requires Consistent(s)
    ensures ContractForCandidate(s, identity, asOf, provider) == Some(c) <==>
            c in s.contracts && Matches(c, identity, asOf)
  {
    hide Matches, SessionsOk, BarsOk, QuotesOk, Filter;
    var matches := Filter(s.contracts, (x: Contract) => Matches(x, identity, asOf));
    var named := Filter(matches, (x: Contract) => provider == Some(x.providerId));
    AtMostOneMatch(s.contracts, identity, asOf);
    if |named| == 1 {
      assert named[0] in named;
    }
    if |matches| == 1 {
      assert matches[0] in matches;
    }
  }
}
