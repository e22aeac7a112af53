/** `CanonicalStore` itself: the mutable object, proved against the functions of the store and its coverage. */
module HistoryCanonical {
  import opened Basics
  import opened Ordering
  import opened HistoryRows
  import opened HistoryStore
  import opened HistoryCoverage

  datatype Dump = Dump(meta: Meta, sessions: seq<Session>, bars: seq<Bar>, contracts: seq<Contract>, quotes: seq<Quote>,
                       coverage: Report)

  predicate SessionOrder(a: Session, b: Session) { a.date <= b.date }

  predicate BarOrderBySymbol(a: Bar, b: Bar) {
    if a.symbol == b.symbol then BarLeq(a, b) else TextLeq(a.symbol, b.symbol)
  }

  predicate ContractOrder(a: Contract, b: Contract) { TextLeq(a.contractId, b.contractId) }

  predicate QuoteOrder(a: Quote, b: Quote) {
    if a.contractId == b.contractId then a.timestamp <= b.timestamp else TextLeq(a.contractId, b.contractId)
  }

  /** The meta data of a dump leaves the fingerprint out. */
  function DumpWith(meta: Meta, s: Store): Dump {
    Dump(meta.(fingerprint := ""), SortBy(s.sessions, SessionOrder), SortBy(s.bars, BarOrderBySymbol),
         SortBy(s.contracts, ContractOrder), SortBy(s.quotes, QuoteOrder), Coverage(s))
  }

  function DumpOf(s: Store): Dump { DumpWith(s.meta, s) }

  const KNOWN_MAPPING_POLICIES := { "EXACT", "NEAREST_WITHIN_TOLERANCE", "FORWARD_ONLY_WITHIN_TOLERANCE" }

  const QUALIFICATION_STATES := {
    "CANDIDATE", "SAMPLED", "TESTING", "QUALIFIED", "QUALIFIED_WITH_WARNINGS", "QUALIFIED_WITH_LIMITATIONS",
    "QUALIFIED_FOR_ADAPTER_TESTING", "REJECTED", "APPROVED_FOR_2E", "RETIRED"
  }

  /** What the constructor raises. */
  function MetaFault(meta: Meta): Option<Error> {
    if meta.mappingPolicy !in KNOWN_MAPPING_POLICIES then Some(UnknownMappingPolicy(meta.mappingPolicy))
    else if meta.slotTolerance < 0 then Some(SlotTolerance)
    else if exists w <- meta.warnings :: w.Unknown? then Some(UnknownWarning)
    else if meta.qualification !in QUALIFICATION_STATES then Some(UnknownQualification(meta.qualification))
    else None
  }

  /** The digest of a payload is opaque to every result here. */
  function Published(s: Store, fingerprint: Dump -> string): Store {
    var gated := Gate(s.meta, Coverage(s));
    s.(meta := gated.(fingerprint := fingerprint(DumpWith(gated, s))), published := true)
  }

  class CanonicalStore {
    var meta: Meta
    var sessions: seq<Session>
    var bars: seq<Bar>
    var contracts: seq<Contract>
    var quotes: seq<Quote>
    var published: bool

    ghost function State(): Store
      reads this
    {
      Store(meta, sessions, bars, contracts, quotes, published)
    }

    /** Reached only for meta data without a fault. */
    constructor (meta: Meta)
      ensures State() == Store(meta, [], [], [], [], false)
    {
      this.meta, sessions, bars, contracts, quotes, published := meta, [], [], [], [], false;
    }

    method AddSession(session: Session) returns (error: Option<Error>)
      modifies this
      ensures error == Refuse(old(State()), SessionRow(session)) && State() == Add(old(State()), SessionRow(session))
    {
      if published {
        return Some(DatasetImmutable);
      }
      var fault := SessionFault(session);
      if fault.Some? {
        return fault;
      }
      if exists x <- sessions :: SessionKeyOf(x) == session.date {
        return Some(DuplicateSession);
      }
      sessions := sessions + [session];
      return None;
    }

    method AddBar(bar: Bar) returns (error: Option<Error>)
      modifies this
      ensures error == Refuse(old(State()), BarRow(bar)) && State() == Add(old(State()), BarRow(bar))
    {
      hide Forbidden;
      if published {
        return Some(DatasetImmutable);
      }
      var fault := BarFault(bar);
      if fault.Some? {
        return fault;
      }
      var key := BarKeyOf(bar);
      if exists x <- bars :: BarKeyOf(x) == key {
        return Some(DuplicateBar);
      }
      if bar.version != meta.version {
        return Some(WrongVersion);
      }
      bars := bars + [bar];
      return None;
    }

    method AddContract(contract: Contract) returns (error: Option<Error>)
      modifies this
      ensures error == Refuse(old(State()), ContractRow(contract))
      ensures State() == Add(old(State()), ContractRow(contract))
    {
      hide Forbidden;
      if published {
        return Some(DatasetImmutable);
      }
      var fault := ContractFault(contract);
      if fault.Some? {
        return fault;
      }
      if exists x <- contracts :: ContractKeyOf(x) == contract.contractId {
        return Some(DuplicateContract);
      }
      var identities := set c <- contracts :: IdentityOf(c);
      if IdentityOf(contract) in identities {
        return Some(IdentityCollision);
      }
      if contract.version != meta.version {
        return Some(WrongVersion);
      }
      contracts := contracts + [contract];
      return None;
    }

    method AddQuote(quote: Quote) returns (error: Option<Error>)
      modifies this
      ensures error == Refuse(old(State()), QuoteRow(quote)) && State() == Add(old(State()), QuoteRow(quote))
    {
      if published {
        return Some(DatasetImmutable);
      }
      var fault := QuoteFault(quote);
      if fault.Some? {
        return fault;
      }
      if !exists x <- contracts :: ContractKeyOf(x) == quote.contractId {
        return Some(UnknownContract);
      }
      var key := QuoteKeyOf(quote);
      if exists q <- quotes :: QuoteKeyOf(q) == key {
        return Some(DuplicateQuote);
      }
      if quote.version != meta.version {
        return Some(WrongVersion);
      }
      quotes := quotes + [quote];
      return None;
    }

    method BarsAt(symbol: string, asOf: Time, timeframe: Option<string>) returns (result: Result<seq<Bar>, Error>)
      ensures result == HistoryStore.BarsAt(State(), symbol, asOf, timeframe)
    {
      hide Forbidden, SortBy, VisibleBars;
      if Forbidden(symbol) {
        return Err(UnsupportedUnderlying(symbol));
      }
      var found: seq<Bar> := [];
      NoBars(symbol, asOf, timeframe);
      for i := 0 to |bars|
        invariant found == VisibleBars(bars[..i], symbol, asOf, timeframe)
      {
        var bar := bars[i];
        OneMoreBar(bars, i, symbol, asOf, timeframe);
        if bar.symbol != symbol {
          continue;
        }
        if timeframe.Some? && timeframe.value != "" && bar.timeframe != timeframe.value {
          continue;
        }
        if bar.availableAt <= asOf && bar.end <= asOf {
          found := found + [bar];
        }
      }
      assert bars[..|bars|] == bars;
      return Ok(SortBy(found, BarLeq));
    }

    method ContractsAt(underlying: string, asOf: Time) returns (result: Result<seq<Contract>, Error>)
      ensures result == HistoryStore.ContractsAt(State(), underlying, asOf)
    {
      hide Forbidden;
      if Forbidden(underlying) {
        return Err(UnsupportedUnderlying(underlying));
      }
      return Ok(Filter(contracts, (c: Contract) => ContractVisible(c, underlying, asOf)));
    }

    method SnapshotQuotes(underlying: string, asOf: Time) returns (result: Result<(seq<Contract>, seq<Quote>), Error>)
      ensures result == HistoryStore.SnapshotQuotes(State(), underlying, asOf)
    {
      hide Forbidden;
      if Forbidden(underlying) {
        return Err(UnsupportedUnderlying(underlying));
      }
      var live := Filter(contracts, (c: Contract) => ContractVisible(c, underlying, asOf));
      var found: seq<Quote> := [];
      for i := 0 to |live|
        invariant found == LatestQuotes(live[..i], quotes, asOf)
      {
        var contract := live[i];
        assert live[..i + 1][..i] == live[..i];
        var eligible := Filter(quotes, (q: Quote) => QuoteVisible(q, contract, asOf));
        assert eligible == Eligible(quotes, contract, asOf);
        if eligible != [] {
          found := found + [Latest(eligible)];
        }
      }
      assert live[..|live|] == live;
      return Ok((live, found));
    }

    method Coverage() returns (report: Report)
      ensures report == HistoryCoverage.Coverage(State())
    {
      hide Slots, Observed, Missing, Ratio, Share, OpenSessions, SortBy, Filter, MissingDays, HasBars;
      var open := OpenSessions(sessions);
      var openDays := Days(open);
      var barDays := set bar <- bars :: DayOf(bar.timestamp);
      BarDaysMeaning(bars, barDays);
      MissingDaysMeaning(open, bars, barDays);
      var missingDays := Filter(SortBy(openDays, DayLeq), (day: Day) => day !in barDays);
      var actual := set day <- openDays | day in barDays;
      assert actual == BarDays(open, bars);
      var index := IndexQuotes(quotes);
      var tally := CountSlots(open, meta.cadence, contracts, quotes, index);
      return Report(meta.version, |openDays|, |actual|, missingDays, FirstTwenty(tally.missing), tally.expected,
                    tally.observed, Ratio(tally.observed, tally.expected), Share(quotes, HasBidAsk),
                    Share(quotes, HasOi), Share(quotes, HasVolume), Share(quotes, HasIv), Share(quotes, HasGreeks));
    }

    method Publish(fingerprint: Dump -> string) returns (error: Option<Error>)
      modifies this
      ensures error == if old(published) then Some(DatasetImmutable) else None
      ensures State() == if old(published) then old(State()) else Published(old(State()), fingerprint)
    {
      hide HistoryCoverage.Coverage, Gate, DumpWith;
      if published {
        return Some(DatasetImmutable);
      }
      var report := Coverage();
      var gated := Gate(meta, report);
      var payload := Dump(gated.(fingerprint := ""), SortBy(sessions, SessionOrder), SortBy(bars, BarOrderBySymbol),
                          SortBy(contracts, ContractOrder), SortBy(quotes, QuoteOrder), report);
      assert payload == DumpWith(gated, State()) by { DumpFields(gated, State()); }
      meta := gated.(fingerprint := fingerprint(payload));
      published := true;
      return None;
    }
  }

  lemma NoBars(symbol: string, asOf: Time, timeframe: Option<string>)
    ensures VisibleBars([], symbol, asOf, timeframe) == []
  {
  }

  lemma OneMoreBar(bars: seq<Bar>, i: nat, symbol: string, asOf: Time, timeframe: Option<string>)
    requires i < |bars|
    ensures VisibleBars(bars[..i + 1], symbol, asOf, timeframe)
         == VisibleBars(bars[..i], symbol, asOf, timeframe)
            + if BarVisible(bars[i], symbol, asOf, timeframe) then [bars[i]] else []
  {
    hide BarVisible;
    assert bars[..i + 1] == bars[..i] + [bars[i]];
    FilterConcat(bars[..i], [bars[i]], (bar: Bar) => BarVisible(bar, symbol, asOf, timeframe));
  }

  lemma MissingDaysMeaning(open: seq<Session>, bars: seq<Bar>, barDays: set<Day>)
    requires forall day :: day in barDays <==> HasBars(bars, day)
    ensures MissingDays(open, bars) == Filter(SortBy(Days(open), DayLeq), (day: Day) => day !in barDays)
  {
    hide HasBars, SortBy, Days, Filter;
    FilterCongruence(SortBy(Days(open), DayLeq), (day: Day) => day !in barDays, (day: Day) => !HasBars(bars, day));
  }

  lemma DumpFields(meta: Meta, s: Store)
    ensures DumpWith(meta, s)
         == Dump(meta.(fingerprint := ""), SortBy(s.sessions, SessionOrder), SortBy(s.bars, BarOrderBySymbol),
                 SortBy(s.contracts, ContractOrder), SortBy(s.quotes, QuoteOrder), Coverage(s))
  {
  }

  lemma BarDaysMeaning(bars: seq<Bar>, days: set<Day>)
    requires days == set bar <- bars :: DayOf(bar.timestamp)
    ensures forall day :: day in days <==> HasBars(bars, day)
  {
  }

  // The counting loops of `coverage`.

  datatype Tally = Tally(expected: nat, observed: nat, missing: seq<Slot>)

  ghost function TallyOf(slots: seq<Slot>, quotes: seq<Quote>): Tally {
    Tally(|slots|, |Observed(slots, quotes)|, Missing(slots, quotes))
  }

  ghost function Plus(a: Tally, b: Tally): Tally {
    Tally(a.expected + b.expected, a.observed + b.observed, a.missing + b.missing)
  }

  lemma TallyConcat(a: seq<Slot>, b: seq<Slot>, quotes: seq<Quote>)
    ensures TallyOf(a + b, quotes) == Plus(TallyOf(a, quotes), TallyOf(b, quotes))
  {
    hide Quoted, Filter;
    FilterConcat(a, b, (slot: Slot) => Quoted(quotes, slot));
    FilterConcat(a, b, (slot: Slot) => !Quoted(quotes, slot));
  }

  lemma TallyOne(slot: Slot, quotes: seq<Quote>)
    ensures TallyOf([slot], quotes) == if Quoted(quotes, slot) then Tally(1, 1, []) else Tally(1, 0, [slot])
    ensures TallyOf([], quotes) == Tally(0, 0, [])
  {
    hide Quoted, Filter;
    FilterOne(slot, (x: Slot) => Quoted(quotes, x));
    FilterOne(slot, (x: Slot) => !Quoted(quotes, x));
  }

  /** The index says a slot is quoted exactly when a scan of the quotes finds it. */
  ghost predicate Indexes(index: map<QuoteKey, Quote>, quotes: seq<Quote>) {
    forall slot: Slot :: QuoteKey(slot.contractId, slot.at) in index <==> Quoted(quotes, slot)
  }

  method IndexQuotes(quotes: seq<Quote>) returns (index: map<QuoteKey, Quote>)
    ensures Indexes(index, quotes)
  {
    index := map[];
    for i := 0 to |quotes|
      invariant forall key :: key in index <==> exists j :: 0 <= j < i && QuoteKeyOf(quotes[j]) == key
    {
      index := index[QuoteKeyOf(quotes[i]) := quotes[i]];
    }
    IndexMeaning(index, quotes);
  }

  lemma IndexMeaning(index: map<QuoteKey, Quote>, quotes: seq<Quote>)
    requires forall key :: key in index <==> exists j :: 0 <= j < |quotes| && QuoteKeyOf(quotes[j]) == key
    ensures Indexes(index, quotes)
  {
    forall slot: Slot
      ensures QuoteKey(slot.contractId, slot.at) in index <==> Quoted(quotes, slot)
    {
      var key := QuoteKey(slot.contractId, slot.at);
      if key in index {
        var j :| 0 <= j < |quotes| && QuoteKeyOf(quotes[j]) == key;
        assert quotes[j] in quotes;
      }
    }
  }

  method CountMoment(at: Time, contracts: seq<Contract>, quotes: seq<Quote>, index: map<QuoteKey, Quote>)
    returns (tally: Tally)
    requires Indexes(index, quotes)
    ensures tally == TallyOf(SlotsAt(contracts, at), quotes)
  {
    hide Quoted, TallyOf, FlatMap;
    ghost var f := (c: Contract) => if Listed(c, at) then [Slot(c.contractId, at)] else [];
    tally := Tally(0, 0, []);
    EmptyFlatMap(f);
    TallyOne(Slot("", 0), quotes);
    for i := 0 to |contracts|
      invariant tally == TallyOf(FlatMap(f, contracts[..i]), quotes)
    {
      var contract := contracts[i];
      FlatMapStep(f, contracts, i);
      TallyConcat(FlatMap(f, contracts[..i]), f(contract), quotes);
      TallyOne(Slot(contract.contractId, at), quotes);
      if !(contract.firstSeen <= at <= contract.lastSeen) {
        continue;
      }
      if QuoteKey(contract.contractId, at) in index {
        tally := tally.(expected := tally.expected + 1, observed := tally.observed + 1);
      } else {
        tally := tally.(expected := tally.expected + 1, missing := tally.missing + [Slot(contract.contractId, at)]);
      }
    }
    assert contracts[..|contracts|] == contracts;
  }

  method CountSession(session: Session, cadence: seq<nat>, contracts: seq<Contract>, quotes: seq<Quote>,
                      index: map<QuoteKey, Quote>) returns (tally: Tally)
    requires Indexes(index, quotes)
    ensures tally == TallyOf(SessionSlots(session, cadence, contracts), quotes)
  {
    hide Quoted, TallyOf, FlatMap, SlotsAt, Indexes;
    ghost var f := (stamp: nat) => StampSlots(session, stamp, contracts);
    tally := Tally(0, 0, []);
    EmptyFlatMap(f);
    TallyOne(Slot("", 0), quotes);
    for i := 0 to |cadence|
      invariant tally == TallyOf(FlatMap(f, cadence[..i]), quotes)
    {
      var at := SlotTime(session.date, cadence[i]);
      FlatMapStep(f, cadence, i);
      TallyConcat(FlatMap(f, cadence[..i]), f(cadence[i]), quotes);
      if at < session.openAt || at > session.closeAt {
        continue;
      }
      var more := CountMoment(at, contracts, quotes, index);
      tally := Tally(tally.expected + more.expected, tally.observed + more.observed, tally.missing + more.missing);
    }
    assert cadence[..|cadence|] == cadence;
  }

  method CountSlots(open: seq<Session>, cadence: seq<nat>, contracts: seq<Contract>, quotes: seq<Quote>,
                    index: map<QuoteKey, Quote>) returns (tally: Tally)
    requires Indexes(index, quotes)
    ensures tally == TallyOf(Slots(open, cadence, contracts), quotes)
  {
    hide Quoted, TallyOf, FlatMap, SessionSlots, Indexes;
    ghost var f := (session: Session) => SessionSlots(session, cadence, contracts);
    tally := Tally(0, 0, []);
    EmptyFlatMap(f);
    TallyOne(Slot("", 0), quotes);
    for i := 0 to |open|
      invariant tally == TallyOf(FlatMap(f, open[..i]), quotes)
    {
      FlatMapStep(f, open, i);
      TallyConcat(FlatMap(f, open[..i]), f(open[i]), quotes);
      var more := CountSession(open[i], cadence, contracts, quotes, index);
      tally := Tally(tally.expected + more.expected, tally.observed + more.observed, tally.missing + more.missing);
    }
    assert open[..|open|] == open;
  }
}
