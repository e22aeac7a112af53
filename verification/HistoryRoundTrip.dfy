/** What a dump determines: order independence, and reload as a round trip. */
module HistoryRoundTrip {
  import opened Basics
  import opened Ordering
  import opened HistoryRows
  import opened HistoryStore
  import opened HistoryCoverage
  import opened HistoryCanonical
  import opened HistoryReload

  // The four listing orders identify rows by their keys.

  lemma ListingOrders()
    ensures TotalPreorder(SessionOrder) && TotalPreorder(BarOrderBySymbol)
    ensures TotalPreorder(ContractOrder) && TotalPreorder(QuoteOrder)
  {
    hide TextLeq;
    TextOrder();
  }

  lemma SessionsIdentified(xs: seq<Session>)
    requires UniqueBy(xs, SessionKeyOf)
    ensures KeyIdentifies(xs, SessionOrder)
  {
  }

  lemma BarsIdentified(xs: seq<Bar>)
    requires UniqueBy(xs, BarKeyOf)
    ensures KeyIdentifies(xs, BarOrderBySymbol)
  {
    hide TextLeq;
    TextOrder();
    forall x, y | x in xs && y in xs && BarOrderBySymbol(x, y) && BarOrderBySymbol(y, x)
      ensures x == y
    {
      assert BarKeyOf(x) == BarKeyOf(y);
    }
  }

  lemma ContractsIdentified(xs: seq<Contract>)
    requires UniqueBy(xs, ContractKeyOf)
    ensures KeyIdentifies(xs, ContractOrder)
  {
    hide TextLeq;
    TextOrder();
    forall x, y | x in xs && y in xs && ContractOrder(x, y) && ContractOrder(y, x)
      ensures x == y
    {
      assert ContractKeyOf(x) == ContractKeyOf(y);
    }
  }

  lemma QuotesIdentified(xs: seq<Quote>)
    requires UniqueBy(xs, QuoteKeyOf)
    ensures KeyIdentifies(xs, QuoteOrder)
  {
    hide TextLeq;
    TextOrder();
    forall x, y | x in xs && y in xs && QuoteOrder(x, y) && QuoteOrder(y, x)
      ensures x == y
    {
      assert QuoteKeyOf(x) == QuoteKeyOf(y);
    }
  }

  /** The part of a dump that does not follow insertion order. */
  function Canonical(dump: Dump): Dump { dump.(coverage := dump.coverage.(missingSnapshots := [])) }

  /** Two stores that hold the same rows dump the same, apart from the truncated list of missing snapshots. */
  lemma DumpDependsOnRows(a: Store, b: Store)
    requires Consistent(a) && SameRows(a, b) && a.meta == b.meta
    ensures Canonical(DumpOf(a)) == Canonical(DumpOf(b))
  {
    hide SortBy, Coverage, TotalPreorder, UniqueBy, KeyIdentifies;
    ListingOrders();
    SessionsIdentified(a.sessions);
    BarsIdentified(a.bars);
    ContractsIdentified(a.contracts);
    QuotesIdentified(a.quotes);
    SortOrderIndependent(a.sessions, b.sessions, SessionOrder);
    SortOrderIndependent(a.bars, b.bars, BarOrderBySymbol);
    SortOrderIndependent(a.contracts, b.contracts, ContractOrder);
    SortOrderIndependent(a.quotes, b.quotes, QuoteOrder);
    CoverageReordered(a, b);
  }

  // Loading valid rows never fails.

  lemma NotTaken<T, K>(xs: seq<T>, x: T, ys: seq<T>, key: T -> K)
    requires UniqueBy(xs + [x] + ys, key)
    ensures !Taken(xs, key, key(x))
  {
    forall y <- xs
      ensures key(y) != key(x)
    {
      var i :| 0 <= i < |xs| && xs[i] == y;
      assert (xs + [x] + ys)[i] == y && (xs + [x] + ys)[|xs|] == x;
    }
  }

  lemma {:induction false} InsertSessions(s: Store, xs: seq<Session>)
    requires !s.published && SessionsOk(s.sessions + xs)
    ensures InsertAll(s, SessionRows(xs)) == Ok(s.(sessions := s.sessions + xs))
    decreases |xs|
  {
    hide UniqueBy, Taken, SessionFault;
    if xs == [] {
      assert s.sessions + xs == s.sessions;
    } else {
      assert s.sessions + xs == s.sessions + [xs[0]] + xs[1..];
      NotTaken(s.sessions, xs[0], xs[1..], SessionKeyOf);
      assert xs[0] in s.sessions + xs;
      var next := Place(s, SessionRow(xs[0]));
      InsertSessions(next, xs[1..]);
      assert SessionRows(xs)[1..] == SessionRows(xs[1..]);
    }
  }

  lemma {:induction false} InsertBars(s: Store, xs: seq<Bar>)
    requires !s.published && BarsOk(s.bars + xs, s.meta.version)
    ensures InsertAll(s, BarRows(xs, s.meta.version)) == Ok(s.(bars := s.bars + xs))
    decreases |xs|
  {
    hide UniqueBy, Taken, BarFault;
    if xs == [] {
      assert s.bars + xs == s.bars;
    } else {
      assert s.bars + xs == s.bars + [xs[0]] + xs[1..];
      NotTaken(s.bars, xs[0], xs[1..], BarKeyOf);
      assert xs[0] in s.bars + xs;
      assert xs[0].(version := s.meta.version) == xs[0];
      var next := Place(s, BarRow(xs[0]));
      InsertBars(next, xs[1..]);
      assert BarRows(xs, s.meta.version)[1..] == BarRows(xs[1..], s.meta.version);
    }
  }

  lemma {:induction false} InsertContracts(s: Store, xs: seq<Contract>)
    requires !s.published && ContractsOk(s.contracts + xs, s.meta.version)
    ensures InsertAll(s, ContractRows(xs, s.meta.version)) == Ok(s.(contracts := s.contracts + xs))
    decreases |xs|
  {
    hide UniqueBy, Taken, ContractFault;
    if xs == [] {
      assert s.contracts + xs == s.contracts;
    } else {
      assert s.contracts + xs == s.contracts + [xs[0]] + xs[1..];
      NotTaken(s.contracts, xs[0], xs[1..], ContractKeyOf);
      NotTaken(s.contracts, xs[0], xs[1..], IdentityOf);
      assert xs[0] in s.contracts + xs;
      assert xs[0].(version := s.meta.version) == xs[0];
      var next := Place(s, ContractRow(xs[0]));
      InsertContracts(next, xs[1..]);
      assert ContractRows(xs, s.meta.version)[1..] == ContractRows(xs[1..], s.meta.version);
    }
  }

  lemma {:induction false} InsertQuotes(s: Store, xs: seq<Quote>)
    requires !s.published && QuotesOk(s.quotes + xs, s.contracts, s.meta.version)
    ensures InsertAll(s, QuoteRows(xs, s.meta.version)) == Ok(s.(quotes := s.quotes + xs))
    decreases |xs|
  {
    hide UniqueBy, Taken, QuoteFault;
    if xs == [] {
      assert s.quotes + xs == s.quotes;
    } else {
      assert s.quotes + xs == s.quotes + [xs[0]] + xs[1..];
      NotTaken(s.quotes, xs[0], xs[1..], QuoteKeyOf);
      assert xs[0] in s.quotes + xs;
      assert xs[0].(version := s.meta.version) == xs[0];
      var next := Place(s, QuoteRow(xs[0]));
      InsertQuotes(next, xs[1..]);
      assert QuoteRows(xs, s.meta.version)[1..] == QuoteRows(xs[1..], s.meta.version);
    }
  }

  /** The store a reload builds before it publishes: the listings of the dump. */
  function InOrder(s: Store): Store {
    Store(LoadedMeta(s.meta), SortBy(s.sessions, SessionOrder), SortBy(s.bars, BarOrderBySymbol),
          SortBy(s.contracts, ContractOrder), SortBy(s.quotes, QuoteOrder), false)
  }

  lemma TakenReordered<T, K>(xs: seq<T>, ys: seq<T>, key: T -> K, k: K)
    requires multiset(xs) == multiset(ys) && Taken(xs, key, k)
    ensures Taken(ys, key, k)
  {
    PermutationMembers(xs, ys);
  }

  lemma InOrderConsistent(s: Store)
    requires Consistent(s)
    ensures Consistent(InOrder(s)) && SameRows(s, InOrder(s))
  {
    hide UniqueBy, Taken, SortBy, SessionFault, BarFault, ContractFault, QuoteFault;
    var t := InOrder(s);
    UniquePermutation(s.sessions, t.sessions, SessionKeyOf);
    UniquePermutation(s.bars, t.bars, BarKeyOf);
    UniquePermutation(s.contracts, t.contracts, ContractKeyOf);
    UniquePermutation(s.contracts, t.contracts, IdentityOf);
    UniquePermutation(s.quotes, t.quotes, QuoteKeyOf);
    PermutationMembers(s.sessions, t.sessions);
    PermutationMembers(s.bars, t.bars);
    PermutationMembers(s.contracts, t.contracts);
    PermutationMembers(s.quotes, t.quotes);
    forall x <- t.quotes
      ensures Taken(t.contracts, ContractKeyOf, x.contractId)
    {
      TakenReordered(s.contracts, t.contracts, ContractKeyOf, x.contractId);
    }
  }

  /** A store that passed the constructor, whether published or not. */
  ghost predicate Built(s: Store) { Consistent(s) && MetaFault(s.meta).None? }

  lemma PublishKeepsBuilt(s: Store, fingerprint: Dump -> string)
    requires Built(s)
    ensures Built(Published(s, fingerprint))
  {
    hide Consistent, Coverage, DumpWith, Coded;
    GateKnowsItsWarnings(s.meta, Coverage(s));
    GateKeepsMeta(s.meta, Coverage(s));
    SameTablesConsistent(s, Published(s, fingerprint));
  }

  lemma SameTablesConsistent(s: Store, t: Store)
    requires Consistent(s) && t.meta.version == s.meta.version
    requires t.sessions == s.sessions && t.bars == s.bars && t.contracts == s.contracts && t.quotes == s.quotes
    ensures Consistent(t)
  {
    hide SessionsOk, BarsOk, ContractsOk, QuotesOk;
  }

  lemma GateKeepsMeta(meta: Meta, report: Report)
    ensures var gated := Gate(meta, report);
            && gated.version == meta.version && gated.cadence == meta.cadence
            && gated.mappingPolicy == meta.mappingPolicy && gated.slotTolerance == meta.slotTolerance
            && gated.qualification == meta.qualification
            && gated.fingerprint == meta.fingerprint && gated.timezone == meta.timezone
  {
    hide Coded;
  }

  /** Reloading the dump of any store never fails; it gives the listings of the dump, published. */
  lemma ReloadSucceeds(s: Store, fingerprint: Dump -> string)
    requires Built(s)
    ensures Reload(DumpOf(s), fingerprint) == Ok(Published(InOrder(s), fingerprint))
  {
    hide SortBy, Coverage, InsertAll, UniqueBy, Published, SessionsOk, BarsOk, ContractsOk, QuotesOk,
      SessionRows, BarRows, ContractRows, QuoteRows;
    var t, meta := InOrder(s), LoadedMeta(s.meta);
    InOrderConsistent(s);
    var a, b, c, d := SessionRows(t.sessions), BarRows(t.bars, meta.version),
      ContractRows(t.contracts, meta.version), QuoteRows(t.quotes, meta.version);
    assert [] + t.sessions == t.sessions && [] + t.bars == t.bars && [] + t.contracts == t.contracts
      && [] + t.quotes == t.quotes;
    var s0 := Fresh(meta);
    InsertSessions(s0, t.sessions);
    var s1 := s0.(sessions := t.sessions);
    InsertBars(s1, t.bars);
    var s2 := s1.(bars := t.bars);
    InsertContracts(s2, t.contracts);
    var s3 := s2.(contracts := t.contracts);
    InsertQuotes(s3, t.quotes);
    InsertConcat(s0, a, b);
    InsertConcat(s0, a + b, c);
    InsertConcat(s0, a + b + c, d);
  }

  lemma SortTwice<T(!new)>(xs: seq<T>, leq: (T, T) -> bool)
    requires TotalPreorder(leq)
    ensures SortBy(SortBy(xs, leq), leq) == SortBy(xs, leq)
  {
    hide SortBy, TotalPreorder;
    SortBySorted(xs, leq);
    SortOfSorted(SortBy(xs, leq), leq);
  }

  lemma CoverageReads(s: Store, t: Store)
    requires t.sessions == s.sessions && t.bars == s.bars && t.contracts == s.contracts && t.quotes == s.quotes
    requires t.meta.cadence == s.meta.cadence && t.meta.version == s.meta.version
    ensures Coverage(t) == Coverage(s)
  {
    hide Slots, OpenSessions, Observed, Missing, Ratio, MissingDays, BarDays, Share, FirstTwenty;
  }

  /** Reloading keeps every listing, and every coverage figure but the truncated list. */
  lemma ReloadKeepsListings(s: Store, fingerprint: Dump -> string)
    requires Built(s)
    ensures var d, e := DumpOf(s), DumpOf(Published(InOrder(s), fingerprint));
            && e.sessions == d.sessions && e.bars == d.bars && e.contracts == d.contracts && e.quotes == d.quotes
            && e.coverage.(missingSnapshots := []) == d.coverage.(missingSnapshots := [])
  {
    hide SortBy, Coverage, TotalPreorder, Consistent, Gate;
    var t := InOrder(s);
    ListingOrders();
    SortTwice(s.sessions, SessionOrder);
    SortTwice(s.bars, BarOrderBySymbol);
    SortTwice(s.contracts, ContractOrder);
    SortTwice(s.quotes, QuoteOrder);
    InOrderConsistent(s);
    CoverageReordered(s, t);
    GateKeepsMeta(t.meta, Coverage(t));
    CoverageReads(t, Published(t, fingerprint));
  }

  /** The gate looks at neither the fingerprint nor the zone. */
  lemma GateOfRelabelled(meta: Meta, report: Report, fingerprint: string, timezone: string)
    ensures Gate(meta.(fingerprint := fingerprint, timezone := timezone), report)
         == Gate(meta, report).(fingerprint := fingerprint, timezone := timezone)
  {
    hide Coded;
    CodedDependsOn(meta.(fingerprint := fingerprint, timezone := timezone), meta, report, report);
  }

  /** Publishing has gated the meta data: gating it again changes nothing. */
  lemma PublishedIsGated(u: Store, fingerprint: Dump -> string)
    ensures var s := Published(u, fingerprint); Gate(s.meta, Coverage(s)) == s.meta
  {
    hide Gate, Coverage, DumpWith;
    var report := Coverage(u);
    var gated := Gate(u.meta, report);
    var s := Published(u, fingerprint);
    GateKeepsMeta(u.meta, report);
    CoverageReads(u, s);
    GateIsIdempotent(u.meta, report);
    GateOfRelabelled(gated, report, s.meta.fingerprint, gated.timezone);
    assert s.meta == gated.(fingerprint := s.meta.fingerprint, timezone := gated.timezone);
  }

  /** A published store survives a dump and a reload: same listings, same coverage figures, same meta data and quality
      verdict; only the zone name is normalised. */
  lemma ReloadRoundTrip(u: Store, first: Dump -> string, second: Dump -> string)
    requires Built(u)
    ensures var s := Published(u, first);
            && Reload(DumpOf(s), second).Ok?
            && var r := Reload(DumpOf(s), second).value;
               && r.published
               && Canonical(DumpOf(r))
                  == Canonical(DumpOf(s)).(meta := DumpOf(s).meta.(timezone := "Asia/Kolkata"))
  {
    hide Gate, Coverage, SortBy, Consistent, MetaFault, InsertAll;
    var s := Published(u, first);
    PublishKeepsBuilt(u, first);
    ReloadSucceeds(s, second);
    ReloadKeepsListings(s, second);
    var t := InOrder(s);
    PublishedIsGated(u, first);
    InOrderConsistent(s);
    CoverageReordered(s, t);
    GateIgnoresSnapshots(t.meta, Coverage(t), Coverage(s));
    GateOfRelabelled(s.meta, Coverage(s), "pending", "Asia/Kolkata");
  }

  // A dump in the fields of its rows.

  lemma Listing<T(!new)>(rows: seq<T>, leq: (T, T) -> bool)
    requires TotalPreorder(leq)
    ensures var listed := SortBy(rows, leq);
            multiset(listed) == multiset(rows) && forall i, j :: 0 <= i < j < |listed| ==> leq(listed[i], listed[j])
  {
    SortBySorted(rows, leq);
  }

  /** A dump lists the rows of the store: sessions by date, bars by symbol, timeframe and time, contracts by id,
      quotes by contract and time. */
  lemma DumpInOrder(s: Store, i: nat, j: nat)
    requires i < j
    ensures var d := DumpOf(s);
            && multiset(d.sessions) == multiset(s.sessions) && multiset(d.bars) == multiset(s.bars)
            && multiset(d.contracts) == multiset(s.contracts) && multiset(d.quotes) == multiset(s.quotes)
            && (j < |d.sessions| ==> d.sessions[i].date <= d.sessions[j].date)
            && (j < |d.bars| ==>
                  var a, b := d.bars[i], d.bars[j];
                  if a.symbol != b.symbol then TextLeq(a.symbol, b.symbol)
                  else if a.timeframe != b.timeframe then TextLeq(a.timeframe, b.timeframe)
                  else a.timestamp <= b.timestamp)
            && (j < |d.contracts| ==> TextLeq(d.contracts[i].contractId, d.contracts[j].contractId))
            && (j < |d.quotes| ==>
                  var a, b := d.quotes[i], d.quotes[j];
                  if a.contractId != b.contractId then TextLeq(a.contractId, b.contractId)
                  else a.timestamp <= b.timestamp)
  {
    hide SortBy, TextLeq, Coverage;
    ListingOrders();
    Listing(s.sessions, SessionOrder);
    Listing(s.bars, BarOrderBySymbol);
    Listing(s.contracts, ContractOrder);
    Listing(s.quotes, QuoteOrder);
    var d := DumpOf(s);
    assert j < |d.sessions| ==> SessionOrder(d.sessions[i], d.sessions[j]);
    assert j < |d.bars| ==> BarOrderBySymbol(d.bars[i], d.bars[j]);
    assert j < |d.contracts| ==> ContractOrder(d.contracts[i], d.contracts[j]);
    assert j < |d.quotes| ==> QuoteOrder(d.quotes[i], d.quotes[j]);
  }

  /** A store can be opened on meta data exactly when the mapping policy and the qualification are known names, the
      tolerance is not negative and every warning is a known one. */
  lemma OpensExactlyWhen(meta: Meta)
    ensures MetaFault(meta).None? <==>
              && meta.mappingPolicy in {"EXACT", "NEAREST_WITHIN_TOLERANCE", "FORWARD_ONLY_WITHIN_TOLERANCE"}
              && meta.slotTolerance >= 0 && (forall w <- meta.warnings :: !w.Unknown?)
              && meta.qualification in {"CANDIDATE", "SAMPLED", "TESTING", "QUALIFIED", "QUALIFIED_WITH_WARNINGS",
                                        "QUALIFIED_WITH_LIMITATIONS", "QUALIFIED_FOR_ADAPTER_TESTING", "REJECTED",
                                        "APPROVED_FOR_2E", "RETIRED"}
  {
  }
}
