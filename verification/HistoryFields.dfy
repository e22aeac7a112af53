/** The store in the fields of its rows: which rows it takes, what its rows are like, and what its queries return. */
module HistoryFields {
  import opened Basics
  import opened Ordering
  import opened HistoryRows
  import opened HistoryStore

  // What a row must satisfy on its own.

  predicate NotNegative(x: Option<int>) { x.Some? ==> x.value >= 0 }

  predicate SoundSession(x: Session) { x.status == "OPEN" || x.status == "CLOSED" }

  /** Positive prices, with low and high around open and close, known no earlier than its time. */
  predicate SoundBar(x: Bar) {
    && !Forbidden(x.symbol) && x.volume >= 0
    && x.open > 0 && x.high > 0 && x.low > 0 && x.close > 0
    && x.low <= x.open <= x.high && x.low <= x.close <= x.high
    && x.timestamp <= x.availableAt && x.timestamp <= x.end
  }

  predicate SoundContract(x: Contract) {
    && !Forbidden(x.underlying) && (x.optionType == "CE" || x.optionType == "PE") && x.strike >= 1
    && (x.lotSize.Some? ==> x.lotSize.value >= 1) && x.firstSeen <= x.lastSeen
  }

  /** Known no earlier than its time, nothing negative, and not crossed. */
  predicate SoundQuote(x: Quote) {
    && x.timestamp <= x.availableAt
    && NotNegative(x.bid) && NotNegative(x.ask) && NotNegative(x.volume) && NotNegative(x.openInterest)
    && (x.bid.Some? && x.ask.Some? ==> x.bid.value <= x.ask.value)
  }

  lemma Faultless()
    ensures forall x: Session :: SessionFault(x).None? <==> SoundSession(x)
    ensures forall x: Bar :: BarFault(x).None? <==> SoundBar(x)
    ensures forall x: Contract :: ContractFault(x).None? <==> SoundContract(x)
    ensures forall x: Quote :: QuoteFault(x).None? <==> SoundQuote(x)
  {
    hide Forbidden;
  }

  // Which rows are taken.

  /** Nothing stored has the key of the row. */
  ghost predicate Free(s: Store, row: Row) {
    match row
    case SessionRow(x) => forall y <- s.sessions :: y.date != x.date
    case BarRow(x) =>
      forall y <- s.bars :: y.symbol != x.symbol || y.timeframe != x.timeframe || y.timestamp != x.timestamp
    case ContractRow(x) =>
      forall y <- s.contracts ::
        && y.contractId != x.contractId
        && (y.underlying, y.expiry, y.strike, y.optionType) != (x.underlying, x.expiry, x.strike, x.optionType)
    case QuoteRow(x) => forall y <- s.quotes :: y.contractId != x.contractId || y.timestamp != x.timestamp
  }

  ghost predicate Belongs(s: Store, row: Row) {
    match row
    case SessionRow(x) => SoundSession(x)
    case BarRow(x) => SoundBar(x) && x.version == s.meta.version
    case ContractRow(x) => SoundContract(x) && x.version == s.meta.version
    case QuoteRow(x) =>
      SoundQuote(x) && x.version == s.meta.version && exists c <- s.contracts :: c.contractId == x.contractId
  }

  /** A row is taken exactly when the store is not published, the row is sound and of its dataset, its contract is known
      and its key is free. */
  lemma TakenExactlyWhen(s: Store, row: Row)
    ensures Refuse(s, row).None? <==> !s.published && Belongs(s, row) && Free(s, row)
  {
    hide SessionFault, BarFault, ContractFault, QuoteFault;
    hide Forbidden, SoundSession, SoundBar, SoundContract, SoundQuote;
    Faultless();
    match row
    case SessionRow(x) => assert Taken(s.sessions, SessionKeyOf, x.date) <==> !Free(s, row);
    case BarRow(x) => assert Taken(s.bars, BarKeyOf, BarKeyOf(x)) <==> !Free(s, row);
    case ContractRow(x) =>
      assert Taken(s.contracts, ContractKeyOf, x.contractId) || Taken(s.contracts, IdentityOf, IdentityOf(x))
        <==> !Free(s, row);
    case QuoteRow(x) =>
      assert Taken(s.quotes, QuoteKeyOf, QuoteKeyOf(x)) <==> !Free(s, row);
      assert Taken(s.contracts, ContractKeyOf, x.contractId)
        <==> exists c <- s.contracts :: c.contractId == x.contractId;
  }

  /** What every stored row is like. */
  ghost predicate Sound(s: Store) {
    && (forall x <- s.sessions :: SoundSession(x)) && (forall x <- s.bars :: SoundBar(x))
    && (forall x <- s.contracts :: SoundContract(x)) && (forall x <- s.quotes :: SoundQuote(x))
    && (forall x <- s.quotes :: exists c <- s.contracts :: c.contractId == x.contractId)
    && (forall i, j :: 0 <= i < j < |s.quotes| ==>
          s.quotes[i].contractId != s.quotes[j].contractId || s.quotes[i].timestamp != s.quotes[j].timestamp)
  }

  lemma ConsistentIsSound(s: Store)
    requires Consistent(s)
    ensures Sound(s)
  {
    hide SessionFault, BarFault, ContractFault, QuoteFault;
    hide Forbidden, SoundSession, SoundBar, SoundContract, SoundQuote;
    Faultless();
    forall x <- s.quotes
      ensures exists c <- s.contracts :: c.contractId == x.contractId
    {
      var c :| c in s.contracts && ContractKeyOf(c) == x.contractId;
    }
    forall i, j | 0 <= i < j < |s.quotes|
      ensures s.quotes[i].contractId != s.quotes[j].contractId || s.quotes[i].timestamp != s.quotes[j].timestamp
    {
      assert QuoteKeyOf(s.quotes[i]) != QuoteKeyOf(s.quotes[j]);
    }
  }

  /** From an empty store, whatever is added: every row is sound, every quote belongs to a stored contract, and no two
      quotes are of one contract and moment. */
  lemma StoresAreSound(s: Store, rows: seq<Row>)
    requires s.sessions == [] && s.bars == [] && s.contracts == [] && s.quotes == []
    ensures Sound(AddAll(s, rows))
  {
    hide AddAll, Sound;
    EmptyIsConsistent(s);
    AddAllKeepsConsistent(s, rows);
    ConsistentIsSound(AddAll(s, rows));
  }

  lemma EmptyIsConsistent(s: Store)
    requires s.sessions == [] && s.bars == [] && s.contracts == [] && s.quotes == []
    ensures Consistent(s)
  {
  }

  // What the queries return.

  /** `bars_at`: the bars of the symbol that had ended and were available, of the timeframe if one is asked for; by
      timeframe, then by time. */
  lemma BarsInFields(s: Store, symbol: string, asOf: Time, timeframe: Option<string>)
    requires !Forbidden(symbol)
    ensures BarsAt(s, symbol, asOf, timeframe).Ok?
    ensures var bars := BarsAt(s, symbol, asOf, timeframe).value;
            && (forall bar :: bar in bars <==>
                  && bar in s.bars && bar.symbol == symbol && bar.end <= asOf && bar.availableAt <= asOf
                  && (timeframe == None || timeframe == Some("") || timeframe == Some(bar.timeframe)))
            && (forall i, j :: 0 <= i < j < |bars| ==>
                  if bars[i].timeframe == bars[j].timeframe then bars[i].timestamp <= bars[j].timestamp
                  else TextLeq(bars[i].timeframe, bars[j].timeframe))
  {
    hide Forbidden, TextLeq, BarsAt;
    BarsAtMeaning(s, symbol, asOf, timeframe);
    BarsAnswered(s, symbol, asOf, timeframe);
    var bars := BarsAt(s, symbol, asOf, timeframe).value;
    forall i, j | 0 <= i < j < |bars|
      ensures if bars[i].timeframe == bars[j].timeframe then bars[i].timestamp <= bars[j].timestamp
              else TextLeq(bars[i].timeframe, bars[j].timeframe)
    {
      assert BarLeq(bars[i], bars[j]);
    }
  }

  lemma BarsAnswered(s: Store, symbol: string, asOf: Time, timeframe: Option<string>)
    requires !Forbidden(symbol)
    ensures BarsAt(s, symbol, asOf, timeframe).Ok?
  {
  }

  /** `contracts_at`: the contracts of the underlying whose sightings cover the moment, in insertion order. */
  lemma ContractsInFields(s: Store, underlying: string, asOf: Time)
    requires !Forbidden(underlying)
    ensures ContractsAt(s, underlying, asOf)
         == Ok(Filter(s.contracts, (c: Contract) => c.underlying == underlying && c.firstSeen <= asOf <= c.lastSeen))
  {
    hide Forbidden, Filter;
    FilterCongruence(s.contracts, (c: Contract) => ContractVisible(c, underlying, asOf),
                     (c: Contract) => c.underlying == underlying && c.firstSeen <= asOf <= c.lastSeen);
  }

  /** A quote of the contract that was made while it was listed, by the moment, and was available by then. */
  predicate QuoteOf(q: Quote, c: Contract, asOf: Time) {
    && q.contractId == c.contractId && q.timestamp <= asOf && q.availableAt <= asOf
    && c.firstSeen <= q.timestamp <= c.lastSeen
  }

  /** `snapshot_quotes`: the quotes are the latest such ones of the contracts that are listed at the moment. */
  lemma SnapshotInFields(s: Store, underlying: string, asOf: Time, q: Quote)
    requires Consistent(s) && !Forbidden(underlying)
    ensures SnapshotQuotes(s, underlying, asOf).Ok?
    ensures q in SnapshotQuotes(s, underlying, asOf).value.1 <==>
            && q in s.quotes
            && exists c <- s.contracts ::
                 && c.underlying == underlying && c.firstSeen <= asOf <= c.lastSeen && QuoteOf(q, c, asOf)
                 && forall x <- s.quotes :: QuoteOf(x, c, asOf) ==> x.timestamp <= q.timestamp
  {
    hide Forbidden, Consistent, LatestQuotes, Latest, Filter, Eligible;
    var live := Live(s.contracts, underlying, asOf);
    SnapshotMeaning(live, s.quotes, asOf, q);
    ConsistentIsSound(s);
    forall c: Contract
      ensures (Eligible(s.quotes, c, asOf) != [] && Latest(Eligible(s.quotes, c, asOf)) == q) <==>
              (q in s.quotes && QuoteOf(q, c, asOf)
               && forall x <- s.quotes :: QuoteOf(x, c, asOf) ==> x.timestamp <= q.timestamp)
    {
      LatestInFields(s, c, asOf, q);
    }
  }

  lemma LatestInFields(s: Store, c: Contract, asOf: Time, q: Quote)
    requires Sound(s)
    ensures (Eligible(s.quotes, c, asOf) != [] && Latest(Eligible(s.quotes, c, asOf)) == q) <==>
            (q in s.quotes && QuoteOf(q, c, asOf)
             && forall x <- s.quotes :: QuoteOf(x, c, asOf) ==> x.timestamp <= q.timestamp)
  {
    hide Filter;
    var eligible := Eligible(s.quotes, c, asOf);
    forall x: Quote
      ensures x in eligible <==> x in s.quotes && QuoteOf(x, c, asOf)
    {
    }
    if q in eligible && forall x <- eligible :: x.timestamp <= q.timestamp {
      var latest := Latest(eligible);
      var i :| 0 <= i < |s.quotes| && s.quotes[i] == q;
      var j :| 0 <= j < |s.quotes| && s.quotes[j] == latest;
      assert i == j;
    }
  }

  // Names.

  /** Upper-casing is letter by letter. */
  lemma {:induction false} UpperInLetters(s: string)
    ensures |Upper(s)| == |s|
    ensures forall i :: 0 <= i < |s| ==>
              if 'a' <= s[i] <= 'z' then Upper(s)[i] as int == s[i] as int - 'a' as int + 'A' as int
              else Upper(s)[i] == s[i]
  {
    if s != "" {
      UpperInLetters(s[1..]);
    }
  }

  /** Letter case does not matter to what is forbidden. */
  lemma CaseDoesNotMatter(s: string, t: string)
    requires Upper(s) == Upper(t)
    ensures Forbidden(s) == Forbidden(t)
  {
  }

  lemma {:induction false} UpperConcat(s: string, t: string)
    ensures Upper(s + t) == Upper(s) + Upper(t)
  {
    if s == "" {
      assert s + t == t;
    } else {
      assert (s + t)[1..] == s[1..] + t;
      UpperConcat(s[1..], t);
    }
  }

  /** Every name that starts or ends with FUT, in any case of letters, is forbidden. */
  lemma FuturesForbidden(fut: string, s: string)
    requires Upper(fut) == "FUT"
    ensures Forbidden(fut + s) && Forbidden(s + fut)
  {
    hide Upper;
    UpperConcat(fut, s);
    UpperConcat(s, fut);
    assert (Upper(s) + "FUT")[|Upper(s)|..] == "FUT";
  }

  lemma StockForbidden()
    ensures Forbidden("RELIANCE")
  {
    hide Upper;
    UpperFixed("RELIANCE");
  }

  /** The indexes are not. */
  lemma NiftyAllowed()
    ensures !Forbidden("NIFTY")
  {
    hide Upper;
    var name := "NIFTY";
    UpperFixed(name);
    assert name[0] == 'N' && forall x <- FORBIDDEN_UNDERLYINGS :: x[0] != 'N';
    assert name[|name| - 3..][0] == 'F' && name[|name| - 3..][1] == 'T';
  }

  lemma BankNiftyAllowed()
    ensures !Forbidden("BANKNIFTY")
  {
    hide Upper;
    var name := "BANKNIFTY";
    UpperFixed(name);
    assert name[1] == 'A' && forall x <- FORBIDDEN_UNDERLYINGS :: x[1] != 'A';
    assert name[|name| - 3..][0] == 'F' && name[|name| - 3..][1] == 'T';
  }
}
