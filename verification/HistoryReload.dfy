/** Dumping a store and loading the dump again. The JSON encoding between the two is taken to be the identity. */
module HistoryReload {
  import opened Basics
  import opened HistoryRows
  import opened HistoryStore
  import opened HistoryCanonical

  /** Rows added one after another; the first refusal ends the load. */
  function InsertAll(s: Store, rows: seq<Row>): Result<Store, Error>
    decreases |rows|
  {
    if rows == [] then Ok(s)
    else if Refuse(s, rows[0]).Some? then Err(Refuse(s, rows[0]).value)
    else InsertAll(Place(s, rows[0]), rows[1..])
  }

  /** A loaded row takes the dataset version of the file it is in. */
  function SessionRows(sessions: seq<Session>): seq<Row> { Map((x: Session) => SessionRow(x), sessions) }

  function BarRows(bars: seq<Bar>, version: string): seq<Row> {
    Map((x: Bar) => BarRow(x.(version := version)), bars)
  }

  function ContractRows(contracts: seq<Contract>, version: string): seq<Row> {
    Map((x: Contract) => ContractRow(x.(version := version)), contracts)
  }

  function QuoteRows(quotes: seq<Quote>, version: string): seq<Row> {
    Map((x: Quote) => QuoteRow(x.(version := version)), quotes)
  }

  function DumpRows(dump: Dump): seq<Row> {
    var version := dump.meta.version;
    SessionRows(dump.sessions) + BarRows(dump.bars, version)
    + ContractRows(dump.contracts, version) + QuoteRows(dump.quotes, version)
  }

  /** The loader forgets the fingerprint and fixes the zone. */
  function LoadedMeta(meta: Meta): Meta { meta.(fingerprint := "pending", timezone := "Asia/Kolkata") }

  function Fresh(meta: Meta): Store { Store(meta, [], [], [], [], false) }

  function Reload(dump: Dump, fingerprint: Dump -> string): Result<Store, Error> {
    var meta := LoadedMeta(dump.meta);
    if MetaFault(meta).Some? then Err(MetaFault(meta).value)
    else
      match InsertAll(Fresh(meta), DumpRows(dump))
      case Err(error) => Err(error)
      case Ok(loaded) => Ok(Published(loaded, fingerprint))
  }

  lemma {:induction false} InsertConcat(s: Store, a: seq<Row>, b: seq<Row>)
    ensures InsertAll(s, a + b)
         == match InsertAll(s, a) case Err(error) => Err(error) case Ok(t) => InsertAll(t, b)
    decreases |a|
  {
    hide Refuse, Place;
    if a == [] {
      assert a + b == b;
    } else {
      assert (a + b)[0] == a[0] && (a + b)[1..] == a[1..] + b;
      if Refuse(s, a[0]).None? {
        InsertConcat(Place(s, a[0]), a[1..], b);
      }
    }
  }

  lemma InsertStep(s: Store, rows: seq<Row>, i: nat)
    requires i < |rows|
    ensures InsertAll(s, rows[i..])
         == if Refuse(s, rows[i]).Some? then Err(Refuse(s, rows[i]).value)
            else InsertAll(Add(s, rows[i]), rows[i + 1..])
  {
    hide Refuse, Place;
    assert rows[i..][1..] == rows[i + 1..];
  }

  // The loader, loop by loop.

  ghost predicate Loads(before: Store, rows: seq<Row>, after: Store, error: Option<Error>) {
    InsertAll(before, rows) == if error.Some? then Err(error.value) else Ok(after)
  }

  method LoadSessions(store: CanonicalStore, sessions: seq<Session>) returns (error: Option<Error>)
    modifies store
    ensures Loads(old(store.State()), SessionRows(sessions), store.State(), error)
  {
    hide Refuse, Add, InsertAll;
    ghost var rows := SessionRows(sessions);
    assert rows[0..] == rows;
    for i := 0 to |sessions|
      invariant InsertAll(old(store.State()), rows) == InsertAll(store.State(), rows[i..])
    {
      InsertStep(store.State(), rows, i);
      error := store.AddSession(sessions[i]);
      if error.Some? {
        return;
      }
    }
    NothingLeft(store.State(), rows);
    error := None;
  }

  method LoadBars(store: CanonicalStore, bars: seq<Bar>) returns (error: Option<Error>)
    modifies store
    ensures Loads(old(store.State()), BarRows(bars, old(store.meta.version)), store.State(), error)
  {
    hide Refuse, Add, InsertAll;
    var version := store.meta.version;
    ghost var rows := BarRows(bars, version);
    assert rows[0..] == rows;
    for i := 0 to |bars|
      invariant InsertAll(old(store.State()), rows) == InsertAll(store.State(), rows[i..])
    {
      InsertStep(store.State(), rows, i);
      error := store.AddBar(bars[i].(version := version));
      if error.Some? {
        return;
      }
    }
    NothingLeft(store.State(), rows);
    error := None;
  }

  method LoadContracts(store: CanonicalStore, contracts: seq<Contract>) returns (error: Option<Error>)
    modifies store
    ensures Loads(old(store.State()), ContractRows(contracts, old(store.meta.version)), store.State(), error)
  {
    hide Refuse, Add, InsertAll;
    var version := store.meta.version;
    ghost var rows := ContractRows(contracts, version);
    assert rows[0..] == rows;
    for i := 0 to |contracts|
      invariant InsertAll(old(store.State()), rows) == InsertAll(store.State(), rows[i..])
    {
      InsertStep(store.State(), rows, i);
      error := store.AddContract(contracts[i].(version := version));
      if error.Some? {
        return;
      }
    }
    NothingLeft(store.State(), rows);
    error := None;
  }

  method LoadQuotes(store: CanonicalStore, quotes: seq<Quote>) returns (error: Option<Error>)
    modifies store
    ensures Loads(old(store.State()), QuoteRows(quotes, old(store.meta.version)), store.State(), error)
  {
    hide Refuse, Add, InsertAll;
    var version := store.meta.version;
    ghost var rows := QuoteRows(quotes, version);
    assert rows[0..] == rows;
    for i := 0 to |quotes|
      invariant InsertAll(old(store.State()), rows) == InsertAll(store.State(), rows[i..])
    {
      InsertStep(store.State(), rows, i);
      error := store.AddQuote(quotes[i].(version := version));
      if error.Some? {
        return;
      }
    }
    NothingLeft(store.State(), rows);
    error := None;
  }

  lemma NothingLeft(s: Store, rows: seq<Row>)
    ensures InsertAll(s, rows[|rows|..]) == Ok(s)
  {
  }

  lemma {:induction false} InsertKeepsMeta(s: Store, rows: seq<Row>)
    ensures InsertAll(s, rows).Ok? ==>
              InsertAll(s, rows).value.meta == s.meta && InsertAll(s, rows).value.published == s.published
    decreases |rows|
  {
    hide Refuse;
    if rows != [] && Refuse(s, rows[0]).None? {
      InsertKeepsMeta(Place(s, rows[0]), rows[1..]);
    }
  }

  lemma LoadStage(s: Store, before: seq<Row>, part: seq<Row>, after: Store, error: Option<Error>, rest: seq<Row>,
                  mid: Store)
    requires InsertAll(s, before) == Ok(mid) && Loads(mid, part, after, error)
    ensures InsertAll(s, before + part) == if error.Some? then Err(error.value) else Ok(after)
    ensures error.Some? ==> InsertAll(s, before + part + rest) == Err(error.value)
    ensures error.None? ==> after.meta == mid.meta && after.published == mid.published
  {
    hide InsertAll;
    InsertConcat(s, before, part);
    InsertConcat(s, before + part, rest);
    InsertKeepsMeta(mid, part);
  }

  method LoadPayload(raw: Dump, fingerprint: Dump -> string) returns (store: CanonicalStore?, error: Option<Error>)
    ensures error.Some? <==> Reload(raw, fingerprint).Err?
    ensures error.Some? ==> Reload(raw, fingerprint) == Err(error.value)
    ensures error.None? ==> store != null && fresh(store) && Reload(raw, fingerprint) == Ok(store.State())
  {
    hide InsertAll, Published, SessionRows, BarRows, ContractRows, QuoteRows, MetaFault;
    var meta := LoadedMeta(raw.meta);
    var fault := MetaFault(meta);
    if fault.Some? {
      return null, fault;
    }
    var loading := new CanonicalStore(meta);
    ghost var s0 := loading.State();
    ghost var a, b, c, d := SessionRows(raw.sessions), BarRows(raw.bars, meta.version),
      ContractRows(raw.contracts, meta.version), QuoteRows(raw.quotes, meta.version);
    NothingLeft(s0, []);
    assert [] + a == a;
    assert a + b + c + d == a + (b + c + d) == a + b + (c + d);
    ghost var s := s0;
    var failed := LoadSessions(loading, raw.sessions);
    LoadStage(s0, [], a, loading.State(), failed, b + c + d, s);
    if failed.Some? {
      return null, failed;
    }
    s := loading.State();
    failed := LoadBars(loading, raw.bars);
    LoadStage(s0, a, b, loading.State(), failed, c + d, s);
    if failed.Some? {
      return null, failed;
    }
    s := loading.State();
    failed := LoadContracts(loading, raw.contracts);
    LoadStage(s0, a + b, c, loading.State(), failed, d, s);
    if failed.Some? {
      return null, failed;
    }
    s := loading.State();
    failed := LoadQuotes(loading, raw.quotes);
    LoadStage(s0, a + b + c, d, loading.State(), failed, [], s);
    if failed.Some? {
      return null, failed;
    }
    var _ := loading.Publish(fingerprint);
    return loading, None;
  }
}
