/** The call and the put a live session subscribes to. */
module OptionPair {
  import opened Basics
  import opened Ordering
  import opened HistoryRows
  import opened HistoryExpiry
  import opened HistoryResolver

  datatype Instrument = Instrument(token: nat, symbol: string, underlying: string, expiry: Day, strike: int,
                                   kind: string)

  datatype Error = NoValidOption | BadProfile(error: ProfileError)

  /** `classOf` is the classifier: the class of a row, or none when it is not tradable. `profileOf` is the registry,
      with its default for an underlying without a policy. Prices are in units of 0.0001. */
  datatype Market = Market(spots: map<string, int>, asOf: Day, classOf: Instrument -> Option<string>,
                           profileOf: string -> Profile)

  const UNDERLYING_ORDER := ["NIFTY", "BANKNIFTY"]

  predicate Live(m: Market, underlying: string, x: Instrument) {
    x.underlying == underlying && x.expiry >= m.asOf && m.classOf(x).Some?
  }

  function KeyIn(m: Market, x: Instrument): Key {
    Key(x.expiry, match m.classOf(x) case Some(klass) => klass case None => "")
  }

  /** Eleven in the morning; every record is listed for two weeks on either side. */
  function Moment(m: Market): Time { m.asOf * DAY_SECONDS + 39600 }

  const FORTNIGHT := 14 * DAY_SECONDS

  function RecordFor(m: Market, underlying: string, key: Key): ExpiryRecord {
    ExpiryRecord(underlying, key, Moment(m) - FORTNIGHT, Moment(m) + FORTNIGHT, "LISTED", "kite", "v2")
  }

  function LiveRows(m: Market, options: seq<Instrument>, underlying: string): seq<Instrument> {
    Filter(options, (x: Instrument) => Live(m, underlying, x))
  }

  function LiveKeys(m: Market, rows: seq<Instrument>): seq<Key> {
    Distinct(Map((x: Instrument) => KeyIn(m, x), rows))
  }

  function LiveRecords(m: Market, underlying: string, rows: seq<Instrument>): seq<ExpiryRecord> {
    Map((key: Key) => RecordFor(m, underlying, key), LiveKeys(m, rows))
  }

  function PreferredExpiry(m: Market, underlying: string, rows: seq<Instrument>): Result<Option<Key>, ProfileError> {
    match ClassesFor(m.profileOf(underlying))
    case Err(error) => Err(error)
    case Ok(preferred) =>
      Ok(Resolve(Query(underlying, Moment(m), preferred, false), LiveRecords(m, underlying, rows)).selected)
  }

  function Distance(spot: int, strike: int): nat { if strike < spot then spot - strike else strike - spot }

  /** Nearer to spot first; of two equally near strikes the lower. */
  predicate Nearer(spot: int, a: int, b: int) {
    Distance(spot, a) < Distance(spot, b) || (Distance(spot, a) == Distance(spot, b) && a <= b)
  }

  function StrikesOf(pool: seq<Instrument>, spot: int): seq<int> {
    SortBy(Distinct(Map((x: Instrument) => x.strike, pool)), (a: int, b: int) => Nearer(spot, a, b))
  }

  function Side(pool: seq<Instrument>, strike: int, kind: string): seq<Instrument> {
    Filter(pool, (x: Instrument) => x.strike == strike && x.kind == kind)
  }

  function FirstTwoSided(pool: seq<Instrument>, strikes: seq<int>): Option<(Instrument, Instrument)> {
    if strikes == [] then None
    else
      var calls, puts := Side(pool, strikes[0], "CE"), Side(pool, strikes[0], "PE");
      if calls != [] && puts != [] then Some((calls[0], puts[0])) else FirstTwoSided(pool, strikes[1..])
  }

  function PoolOf(rows: seq<Instrument>, expiry: Day): seq<Instrument> {
    Filter(rows, (x: Instrument) => x.expiry == expiry)
  }

  /** The pair of one underlying, if it has one. */
  function PairOf(m: Market, options: seq<Instrument>, underlying: string)
    : Result<Option<(Instrument, Instrument)>, ProfileError>
  {
    var rows := LiveRows(m, options, underlying);
    if underlying !in m.spots || rows == [] then Ok(None)
    else
      match PreferredExpiry(m, underlying, rows)
      case Err(error) => Err(error)
      case Ok(None) => Ok(None)
      case Ok(Some(key)) =>
        var pool := PoolOf(rows, key.expiry);
        Ok(FirstTwoSided(pool, StrikesOf(pool, m.spots[underlying])))
  }

  function PairFrom(m: Market, options: seq<Instrument>, order: seq<string>): Result<(Instrument, Instrument), Error> {
    if order == [] then Err(NoValidOption)
    else
      match PairOf(m, options, order[0])
      case Err(error) => Err(BadProfile(error))
      case Ok(Some(pair)) => Ok(pair)
      case Ok(None) => PairFrom(m, options, order[1..])
  }

  function SelectPair(m: Market, options: seq<Instrument>): Result<(Instrument, Instrument), Error> {
    PairFrom(m, options, UNDERLYING_ORDER)
  }

  // The selection loops.

  method PreferredLiveExpiry(m: Market, rows: seq<Instrument>, underlying: string)
    returns (result: Result<Option<Key>, ProfileError>)
    ensures result == PreferredExpiry(m, underlying, rows)
  {
    hide Resolve, ClassesFor, Distinct, Map;
    var seen: set<Key> := {};
    var records: seq<ExpiryRecord> := [];
    NoKeys(m, underlying);
    for i := 0 to |rows|
      invariant records == LiveRecords(m, underlying, rows[..i])
      invariant forall key :: key in seen <==> key in LiveKeys(m, rows[..i])
    {
      var key := KeyIn(m, rows[i]);
      OneMoreKey(m, underlying, rows, i);
      if key in seen {
        continue;
      }
      seen := seen + {key};
      records := records + [RecordFor(m, underlying, key)];
    }
    assert rows[..|rows|] == rows;
    var resolution := ResolveNearestExpiry(underlying, Moment(m), records, m.profileOf(underlying), false);
    if resolution.Err? {
      return Err(resolution.error);
    }
    return Ok(resolution.value.selected);
  }

  lemma NoKeys(m: Market, underlying: string)
    ensures LiveKeys(m, []) == [] && LiveRecords(m, underlying, []) == []
  {
  }

  lemma OneMoreKey(m: Market, underlying: string, rows: seq<Instrument>, i: nat)
    requires i < |rows|
    ensures var key, keys := KeyIn(m, rows[i]), LiveKeys(m, rows[..i]);
            && LiveKeys(m, rows[..i + 1]) == (if key in keys then keys else keys + [key])
            && LiveRecords(m, underlying, rows[..i + 1])
               == if key in keys then LiveRecords(m, underlying, rows[..i])
                  else LiveRecords(m, underlying, rows[..i]) + [RecordFor(m, underlying, key)]
  {
    hide Distinct, KeyIn, RecordFor;
    var f := (x: Instrument) => KeyIn(m, x);
    assert Map(f, rows[..i + 1]) == Map(f, rows[..i]) + [f(rows[i])];
    DistinctGrows(Map(f, rows[..i]), f(rows[i]));
  }

  method SelectOptionPair(m: Market, options: seq<Instrument>) returns (result: Result<(Instrument, Instrument), Error>)
    ensures result == SelectPair(m, options)
  {
    hide LiveRows, PreferredExpiry, PoolOf, StrikesOf, FirstTwoSided;
    for i := 0 to |UNDERLYING_ORDER|
      invariant SelectPair(m, options) == PairFrom(m, options, UNDERLYING_ORDER[i..])
    {
      var underlying := UNDERLYING_ORDER[i];
      var rows := LiveRows(m, options, underlying);
      assert UNDERLYING_ORDER[i..][1..] == UNDERLYING_ORDER[i + 1..];
      if underlying !in m.spots || rows == [] {
        continue;
      }
      var expiry := PreferredLiveExpiry(m, rows, underlying);
      if expiry.Err? {
        return Err(BadProfile(expiry.error));
      }
      if expiry.value.None? {
        continue;
      }
      var pool := PoolOf(rows, expiry.value.value.expiry);
      var pair := NearestTwoSided(pool, StrikesOf(pool, m.spots[underlying]));
      if pair.Some? {
        return Ok(pair.value);
      }
    }
    return Err(NoValidOption);
  }

  method NearestTwoSided(pool: seq<Instrument>, strikes: seq<int>) returns (pair: Option<(Instrument, Instrument)>)
    ensures pair == FirstTwoSided(pool, strikes)
  {
    for i := 0 to |strikes|
      invariant FirstTwoSided(pool, strikes) == FirstTwoSided(pool, strikes[i..])
    {
      assert strikes[i..][1..] == strikes[i + 1..];
      var calls, puts := Side(pool, strikes[i], "CE"), Side(pool, strikes[i], "PE");
      if calls != [] && puts != [] {
        return Some((calls[0], puts[0]));
      }
    }
    return None;
  }

  // What is selected, in terms of which instruments there are.

  ghost predicate LiveKey(m: Market, options: seq<Instrument>, underlying: string, preferred: seq<string>, key: Key) {
    && key.klass in preferred && key.expiry > m.asOf
    && exists x <- options :: Live(m, underlying, x) && KeyIn(m, x) == key
  }

  /** A call and a put of this underlying, expiry and strike are both live. */
  ghost predicate TwoSided(m: Market, options: seq<Instrument>, underlying: string, expiry: Day, strike: int) {
    && (exists x <- options :: Live(m, underlying, x) && x.expiry == expiry && x.strike == strike && x.kind == "CE")
    && (exists x <- options :: Live(m, underlying, x) && x.expiry == expiry && x.strike == strike && x.kind == "PE")
  }

  lemma RecordsOfKeys(m: Market, options: seq<Instrument>, underlying: string, key: Key)
    ensures var rows := LiveRows(m, options, underlying);
            (exists r <- LiveRecords(m, underlying, rows) :: r.key == key) <==>
            (exists x <- options :: Live(m, underlying, x) && KeyIn(m, x) == key)
  {
    hide Live, KeyIn, Filter, Distinct, Map;
    var rows := LiveRows(m, options, underlying);
    var keys := LiveKeys(m, rows);
    var records := LiveRecords(m, underlying, rows);
    MapMembers((x: Instrument) => KeyIn(m, x), rows, key);
    if key in keys {
      MapMembers((k: Key) => RecordFor(m, underlying, k), keys, RecordFor(m, underlying, key));
    }
    if exists r <- records :: r.key == key {
      var r :| r in records && r.key == key;
      MapMembers((k: Key) => RecordFor(m, underlying, k), keys, r);
    }
  }

  /** The preferred expiry is the best live key: the preferred class first, then the earliest strictly future day. */
  lemma PreferredIsBest(m: Market, options: seq<Instrument>, underlying: string, preferred: seq<string>)
    requires ClassesFor(m.profileOf(underlying)) == Ok(preferred)
    ensures var selected := PreferredExpiry(m, underlying, LiveRows(m, options, underlying));
            && selected.Ok?
            && IsBest(preferred, selected.value, (key: Key) => LiveKey(m, options, underlying, preferred, key))
  {
    hide LiveRows, LiveRecords, IsBest, Choose, Discovered, FlatMap, ClassesFor, Live, KeyIn;
    var records := LiveRecords(m, underlying, LiveRows(m, options, underlying));
    var q := Query(underlying, Moment(m), preferred, false);
    ChooseIsBest(q, records, preferred);
    forall key: Key
      ensures OpenAmong(q, records, preferred, key) <==> LiveKey(m, options, underlying, preferred, key)
    {
      RecordsOfKeys(m, options, underlying, key);
      RecordsAreOpen(m, options, underlying, preferred, key);
    }
    SameBest(preferred, Choose(q, records, preferred), (key: Key) => OpenAmong(q, records, preferred, key),
             (key: Key) => LiveKey(m, options, underlying, preferred, key));
  }

  /** Every record built for a live key is listed at the moment, so only its date and its class can exclude it. */
  lemma RecordsAreOpen(m: Market, options: seq<Instrument>, underlying: string, preferred: seq<string>, key: Key)
    ensures var records := LiveRecords(m, underlying, LiveRows(m, options, underlying));
            OpenAmong(Query(underlying, Moment(m), preferred, false), records, preferred, key) <==>
            key.klass in preferred && key.expiry > m.asOf && exists r <- records :: r.key == key
  {
    hide LiveRows, LiveKeys;
    var records := LiveRecords(m, underlying, LiveRows(m, options, underlying));
    var q := Query(underlying, Moment(m), preferred, false);
    assert DayOf(Moment(m)) == m.asOf;
    forall r <- records
      ensures r == RecordFor(m, underlying, r.key)
      ensures Open(q, r) <==> r.key.klass in preferred && r.key.expiry > m.asOf
    {
      MapMembers((k: Key) => RecordFor(m, underlying, k), LiveKeys(m, LiveRows(m, options, underlying)), r);
    }
  }

  // Strikes.

  ghost predicate BothSides(pool: seq<Instrument>, strike: int) {
    && (exists x <- pool :: x.strike == strike && x.kind == "CE")
    && (exists x <- pool :: x.strike == strike && x.kind == "PE")
  }

  lemma SideMeaning(pool: seq<Instrument>, strike: int, kind: string)
    ensures Side(pool, strike, kind) != [] <==> exists x <- pool :: x.strike == strike && x.kind == kind
    ensures forall x <- Side(pool, strike, kind) :: x in pool && x.strike == strike && x.kind == kind
  {
    hide Filter;
    if Side(pool, strike, kind) != [] {
      assert Side(pool, strike, kind)[0] in Side(pool, strike, kind);
    }
  }

  /** The scan stops at the first strike of the list that has both sides. */
  lemma {:induction false} FirstMeaning(pool: seq<Instrument>, strikes: seq<int>) returns (n: nat)
    ensures n <= |strikes| && forall i :: 0 <= i < n ==> !BothSides(pool, strikes[i])
    ensures var found := FirstTwoSided(pool, strikes);
            && (found.Some? <==> n < |strikes|)
            && (found.Some? ==>
                  && BothSides(pool, strikes[n])
                  && found.value.0 in pool && found.value.0.strike == strikes[n] && found.value.0.kind == "CE"
                  && found.value.1 in pool && found.value.1.strike == strikes[n] && found.value.1.kind == "PE")
  {
    hide Side;
    n := 0;
    if strikes != [] {
      SideMeaning(pool, strikes[0], "CE");
      SideMeaning(pool, strikes[0], "PE");
      var calls, puts := Side(pool, strikes[0], "CE"), Side(pool, strikes[0], "PE");
      if calls == [] || puts == [] {
        var later := FirstMeaning(pool, strikes[1..]);
        n := later + 1;
        forall i | 0 <= i < n
          ensures !BothSides(pool, strikes[i])
        {
          if i > 0 {
            assert strikes[i] == strikes[1..][i - 1];
          }
        }
      } else {
        assert calls[0] in calls && puts[0] in puts;
      }
    }
  }

  lemma StrikesMeaning(pool: seq<Instrument>, spot: int)
    ensures var strikes := StrikesOf(pool, spot);
            && (forall x <- pool :: x.strike in strikes)
            && (forall i, j :: 0 <= i < j < |strikes| ==> Nearer(spot, strikes[i], strikes[j]))
  {
    hide SortBy, Distinct, Map;
    var all := Map((x: Instrument) => x.strike, pool);
    var leq := (a: int, b: int) => Nearer(spot, a, b);
    SortBySorted(Distinct(all), leq);
    PermutationMembers(SortBy(Distinct(all), leq), Distinct(all));
    forall x <- pool
      ensures x.strike in all
    {
      MapMembers((y: Instrument) => y.strike, pool, x.strike);
    }
  }

  /** No two-sided strike of the pool is nearer to spot than the one that is found. */
  lemma NearestMeaning(pool: seq<Instrument>, spot: int)
    ensures var found := FirstTwoSided(pool, StrikesOf(pool, spot));
            && (found.None? ==> forall strike :: !BothSides(pool, strike))
            && (found.Some? ==>
                  && found.value.0 in pool && found.value.0.kind == "CE"
                  && found.value.1 in pool && found.value.1.kind == "PE"
                  && found.value.0.strike == found.value.1.strike && BothSides(pool, found.value.0.strike)
                  && forall strike :: BothSides(pool, strike) ==> Nearer(spot, found.value.0.strike, strike))
  {
    hide StrikesOf, FirstTwoSided;
    var strikes := StrikesOf(pool, spot);
    StrikesMeaning(pool, spot);
    var n := FirstMeaning(pool, strikes);
    forall strike | BothSides(pool, strike)
      ensures n < |strikes| && Nearer(spot, strikes[n], strike)
    {
      var i :| 0 <= i < |strikes| && strikes[i] == strike;
      assert i >= n;
    }
  }

  lemma PoolSides(m: Market, options: seq<Instrument>, underlying: string, expiry: Day, strike: int)
    ensures BothSides(PoolOf(LiveRows(m, options, underlying), expiry), strike)
       <==> TwoSided(m, options, underlying, expiry, strike)
  {
    hide Live, Filter;
    forall x: Instrument
      ensures x in PoolOf(LiveRows(m, options, underlying), expiry) <==>
              x in options && Live(m, underlying, x) && x.expiry == expiry
    {
      PoolMember(m, options, underlying, expiry, x);
    }
  }

  lemma PoolMember(m: Market, options: seq<Instrument>, underlying: string, expiry: Day, x: Instrument)
    ensures x in PoolOf(LiveRows(m, options, underlying), expiry) <==>
            x in options && Live(m, underlying, x) && x.expiry == expiry
  {
    hide Live, Filter;
  }

  /** What the pair of one underlying is. */
  ghost predicate IsPair(m: Market, options: seq<Instrument>, underlying: string, call: Instrument, put: Instrument) {
    && underlying in m.spots
    && call in options && Live(m, underlying, call) && call.kind == "CE"
    && put in options && Live(m, underlying, put) && put.kind == "PE"
    && call.expiry == put.expiry && call.strike == put.strike
    && BestExpiry(m, options, underlying, call.expiry)
    && forall strike :: TwoSided(m, options, underlying, call.expiry, strike) ==>
         Nearer(m.spots[underlying], call.strike, strike)
  }

  /** The earliest strictly future expiry of the most preferred class that has one. */
  ghost predicate BestExpiry(m: Market, options: seq<Instrument>, underlying: string, expiry: Day) {
    var classes := ClassesFor(m.profileOf(underlying));
    && expiry > m.asOf && classes.Ok?
    && exists klass :: IsBest(classes.value, Some(Key(expiry, klass)),
                              (key: Key) => LiveKey(m, options, underlying, classes.value, key))
  }

  lemma PairOfMeaning(m: Market, options: seq<Instrument>, underlying: string)
    ensures var r := PairOf(m, options, underlying);
            && (r.Ok? && r.value.Some? ==> IsPair(m, options, underlying, r.value.value.0, r.value.value.1))
            && (r.Ok? && r.value.None? && underlying in m.spots ==>
                  forall expiry, strike :: BestExpiry(m, options, underlying, expiry) ==>
                    !TwoSided(m, options, underlying, expiry, strike))
            && (r.Err? ==> ClassesFor(m.profileOf(underlying)) == Err(r.error))
  {
    hide Live, LiveRows, PoolOf, FirstTwoSided, StrikesOf, PreferredExpiry, IsBest, ClassesFor, LiveKey;
    var rows := LiveRows(m, options, underlying);
    var classes := ClassesFor(m.profileOf(underlying));
    if classes.Err? {
      ProfileFails(m, underlying, rows);
    } else {
      PreferredIsBest(m, options, underlying, classes.value);
      var selected := PreferredExpiry(m, underlying, rows).value;
      NoBestWithout(m, options, underlying, classes.value, selected);
      if underlying in m.spots && rows != [] && selected.Some? {
        var expiry, spot := selected.value.expiry, m.spots[underlying];
        var pool := PoolOf(rows, expiry);
        NearestMeaning(pool, spot);
        forall strike
          ensures BothSides(pool, strike) <==> TwoSided(m, options, underlying, expiry, strike)
        {
          PoolSides(m, options, underlying, expiry, strike);
        }
        forall x: Instrument
          ensures x in pool <==> x in options && Live(m, underlying, x) && x.expiry == expiry
        {
          PoolMember(m, options, underlying, expiry, x);
        }
      }
      if rows == [] {
        NoRows(m, options, underlying);
      }
    }
  }

  lemma ProfileFails(m: Market, underlying: string, rows: seq<Instrument>)
    requires ClassesFor(m.profileOf(underlying)).Err?
    ensures PreferredExpiry(m, underlying, rows) == Err(ClassesFor(m.profileOf(underlying)).error)
    ensures forall options, expiry :: !BestExpiry(m, options, underlying, expiry)
  {
    hide IsBest, LiveKey;
  }

  lemma NoRows(m: Market, options: seq<Instrument>, underlying: string)
    requires LiveRows(m, options, underlying) == []
    ensures forall expiry, strike :: !TwoSided(m, options, underlying, expiry, strike)
  {
    hide Filter, Live;
    forall x <- options
      ensures !Live(m, underlying, x)
    {
      assert x !in LiveRows(m, options, underlying);
    }
  }

  /** The selected key is the only best one, and it is in the future. */
  lemma NoBestWithout(m: Market, options: seq<Instrument>, underlying: string, classes: seq<string>,
                      selected: Option<Key>)
    requires ClassesFor(m.profileOf(underlying)) == Ok(classes)
    requires IsBest(classes, selected, (key: Key) => LiveKey(m, options, underlying, classes, key))
    ensures forall expiry :: BestExpiry(m, options, underlying, expiry) <==>
                             selected.Some? && selected.value.expiry == expiry
  {
    hide IsBest;
    var p := (key: Key) => LiveKey(m, options, underlying, classes, key);
    if selected.Some? {
      BestSatisfies(classes, selected.value, p);
      assert selected.value == Key(selected.value.expiry, selected.value.klass);
    }
    forall expiry | BestExpiry(m, options, underlying, expiry)
      ensures selected.Some? && selected.value.expiry == expiry
    {
      var klass :| IsBest(classes, Some(Key(expiry, klass)), p);
      BestIsUnique(classes, selected, Some(Key(expiry, klass)), p);
    }
  }

  lemma BestSatisfies(classes: seq<string>, key: Key, p: Key -> bool)
    requires IsBest(classes, Some(key), p)
    ensures p(key)
  {
  }

  /** No two-sided strike at the best expiry, or no spot, or no such expiry. */
  ghost predicate NoPair(m: Market, options: seq<Instrument>, underlying: string) {
    underlying in m.spots ==>
      forall expiry, strike :: BestExpiry(m, options, underlying, expiry) ==>
        !TwoSided(m, options, underlying, expiry, strike)
  }

  /** Main result. A selected pair is the pair of the first underlying that has one: a call and a put of one
      underlying, strike and expiry; the expiry is the earliest strictly future one of the preferred class; no
      two-sided strike of that expiry is nearer to spot, and of equally near ones the lower is taken. The selection
      fails for want of an option only when no underlying has such a pair. */
  lemma {:induction false} SelectedIsBestPair(m: Market, options: seq<Instrument>, order: seq<string>)
    ensures var r := PairFrom(m, options, order);
            && (r.Ok? ==> exists i :: 0 <= i < |order| && IsPair(m, options, order[i], r.value.0, r.value.1)
                                   && forall j :: 0 <= j < i ==> NoPair(m, options, order[j]))
            && (r == Err(NoValidOption) ==> forall j :: 0 <= j < |order| ==> NoPair(m, options, order[j]))
  {
    hide IsPair, BestExpiry, TwoSided, PairOf;
    if order != [] {
      PairOfMeaning(m, options, order[0]);
      var r := PairFrom(m, options, order);
      var first := PairOf(m, options, order[0]);
      if first == Ok(None) {
        assert NoPair(m, options, order[0]);
        SelectedIsBestPair(m, options, order[1..]);
        assert forall j :: 0 < j < |order| ==> order[j] == order[1..][j - 1];
        if r.Ok? {
          var i :| 0 <= i < |order| - 1 && IsPair(m, options, order[1..][i], r.value.0, r.value.1)
                && forall j :: 0 <= j < i ==> NoPair(m, options, order[1..][j]);
          assert IsPair(m, options, order[i + 1], r.value.0, r.value.1);
        }
      } else if r.Ok? {
        assert IsPair(m, options, order[0], r.value.0, r.value.1);
      }
    }
  }

  // Instrument order.

  ghost predicate SameInstruments(a: seq<Instrument>, b: seq<Instrument>) {
    forall x :: x in a <==> x in b
  }

  ghost predicate SamePlace<E>(a: Result<(Instrument, Instrument), E>, b: Result<(Instrument, Instrument), E>) {
    if a.Err? || b.Err? then a == b
    else
      && SameContract(a.value.0, b.value.0) && SameContract(a.value.1, b.value.1)
  }

  predicate SameContract(x: Instrument, y: Instrument) {
    x.underlying == y.underlying && x.expiry == y.expiry && x.strike == y.strike && x.kind == y.kind
  }

  lemma SamePairOf(m: Market, a: seq<Instrument>, b: seq<Instrument>, underlying: string)
    requires SameInstruments(a, b)
    ensures var r, t := PairOf(m, a, underlying), PairOf(m, b, underlying);
            if r.Err? || t.Err? || r.value.None? || t.value.None? then r == t
            else SameContract(r.value.value.0, t.value.value.0) && SameContract(r.value.value.1, t.value.value.1)
  {
    hide Live, PreferredExpiry, LiveRows, PoolOf, FirstTwoSided, StrikesOf;
    var r, t := PairOf(m, a, underlying), PairOf(m, b, underlying);
    PairOfMeaning(m, a, underlying);
    PairOfMeaning(m, b, underlying);
    SameMeaning(m, a, b, underlying);
    SameFailures(m, a, b, underlying);
    if r.Ok? && t.Ok? && r.value.Some? && t.value.Some? {
      SamePairs(m, a, b, underlying, r.value.value.0, r.value.value.1, t.value.value.0, t.value.value.1);
    } else if r.Ok? && r.value.Some? {
      PairExists(m, a, underlying, r.value.value.0, r.value.value.1);
    } else if t.Ok? && t.value.Some? {
      PairExists(m, b, underlying, t.value.value.0, t.value.value.1);
    }
  }

  lemma PairExists(m: Market, options: seq<Instrument>, underlying: string, call: Instrument, put: Instrument)
    requires IsPair(m, options, underlying, call, put)
    ensures BestExpiry(m, options, underlying, call.expiry)
    ensures TwoSided(m, options, underlying, call.expiry, call.strike)
  {
    hide BestExpiry, Live;
  }

  lemma SameMeaning(m: Market, a: seq<Instrument>, b: seq<Instrument>, underlying: string)
    requires SameInstruments(a, b)
    ensures forall expiry :: BestExpiry(m, a, underlying, expiry) <==> BestExpiry(m, b, underlying, expiry)
    ensures forall expiry, strike ::
              TwoSided(m, a, underlying, expiry, strike) <==> TwoSided(m, b, underlying, expiry, strike)
    ensures forall call, put :: IsPair(m, a, underlying, call, put) <==> IsPair(m, b, underlying, call, put)
  {
    hide Live, IsBest, ClassesFor, KeyIn;
    var classes := ClassesFor(m.profileOf(underlying));
    if classes.Ok? {
      forall key: Key
        ensures LiveKey(m, a, underlying, classes.value, key) <==> LiveKey(m, b, underlying, classes.value, key)
      {
      }
      forall expiry, klass
        ensures IsBest(classes.value, Some(Key(expiry, klass)),
                       (key: Key) => LiveKey(m, a, underlying, classes.value, key))
           <==> IsBest(classes.value, Some(Key(expiry, klass)),
                       (key: Key) => LiveKey(m, b, underlying, classes.value, key))
      {
        SameBestBoth(classes.value, Some(Key(expiry, klass)),
                     (key: Key) => LiveKey(m, a, underlying, classes.value, key),
                     (key: Key) => LiveKey(m, b, underlying, classes.value, key));
      }
    }
  }

  lemma SameBestBoth(classes: seq<string>, best: Option<Key>, p: Key -> bool, p': Key -> bool)
    requires forall key: Key :: p(key) <==> p'(key)
    ensures IsBest(classes, best, p) <==> IsBest(classes, best, p')
  {
  }

  lemma SameFailures(m: Market, a: seq<Instrument>, b: seq<Instrument>, underlying: string)
    requires SameInstruments(a, b)
    ensures PairOf(m, a, underlying).Err? <==> PairOf(m, b, underlying).Err?
  {
    hide Live, Filter, PoolOf, FirstTwoSided, StrikesOf, Resolve;
    forall x: Instrument
      ensures x in LiveRows(m, a, underlying) <==> x in LiveRows(m, b, underlying)
    {
    }
    if LiveRows(m, a, underlying) != [] {
      assert LiveRows(m, a, underlying)[0] in LiveRows(m, b, underlying);
    }
    if LiveRows(m, b, underlying) != [] {
      assert LiveRows(m, b, underlying)[0] in LiveRows(m, a, underlying);
    }
  }

  lemma SamePairs(m: Market, a: seq<Instrument>, b: seq<Instrument>, underlying: string, call: Instrument,
                  put: Instrument, call': Instrument, put': Instrument)
    requires IsPair(m, a, underlying, call, put) && IsPair(m, b, underlying, call', put')
    requires forall expiry :: BestExpiry(m, a, underlying, expiry) <==> BestExpiry(m, b, underlying, expiry)
    requires forall expiry, strike ::
               TwoSided(m, a, underlying, expiry, strike) <==> TwoSided(m, b, underlying, expiry, strike)
    ensures SameContract(call, call') && SameContract(put, put')
  {
    hide BestExpiry, TwoSided;
    PairExists(m, a, underlying, call, put);
    PairExists(m, b, underlying, call', put');
    OneBestExpiry(m, b, underlying, call.expiry, call'.expiry);
  }

  lemma OneBestExpiry(m: Market, options: seq<Instrument>, underlying: string, e: Day, f: Day)
    requires BestExpiry(m, options, underlying, e) && BestExpiry(m, options, underlying, f)
    ensures e == f
  {
    hide IsBest, ClassesFor;
    var classes := ClassesFor(m.profileOf(underlying)).value;
    PreferredIsBest(m, options, underlying, classes);
    var selected := PreferredExpiry(m, underlying, LiveRows(m, options, underlying)).value;
    NoBestWithout(m, options, underlying, classes, selected);
  }

  /** The selected contracts do not depend on the order of the instrument list, nor on repetitions in it. */
  lemma {:induction false} SelectionIgnoresOrder(m: Market, a: seq<Instrument>, b: seq<Instrument>, order: seq<string>)
    requires SameInstruments(a, b)
    ensures SamePlace(PairFrom(m, a, order), PairFrom(m, b, order))
  {
    hide PairOf, SameContract;
    if order != [] {
      SamePairOf(m, a, b, order[0]);
      SelectionIgnoresOrder(m, a, b, order[1..]);
    }
  }

  // The selection in the fields of the instruments.

  /** The underlying has a classified instrument of this class and strictly future expiry. */
  ghost predicate Offered(m: Market, options: seq<Instrument>, underlying: string, klass: string, expiry: Day) {
    && expiry > m.asOf
    && exists x <- options :: x.underlying == underlying && x.expiry == expiry && m.classOf(x) == Some(klass)
  }

  ghost predicate EarliestOf(m: Market, options: seq<Instrument>, underlying: string, klass: string, expiry: Day) {
    && Offered(m, options, underlying, klass, expiry)
    && forall e :: Offered(m, options, underlying, klass, e) ==> expiry <= e
  }

  /** The expiry the profile asks for: the earliest monthly, the earliest weekly, or the latter and the former only when
      there is no weekly. */
  ghost predicate Chosen(m: Market, options: seq<Instrument>, underlying: string, expiry: Day) {
    match m.profileOf(underlying)
    case MonthlyOnly => EarliestOf(m, options, underlying, "MONTHLY", expiry)
    case WeeklyPreferred => EarliestOf(m, options, underlying, "WEEKLY", expiry)
    case WeeklyThenMonthly =>
      || EarliestOf(m, options, underlying, "WEEKLY", expiry)
      || (EarliestOf(m, options, underlying, "MONTHLY", expiry)
          && forall e :: !Offered(m, options, underlying, "WEEKLY", e))
    case _ => false
  }

  ghost predicate Quoted(m: Market, options: seq<Instrument>, underlying: string, expiry: Day, strike: int,
                         kind: string)
  {
    exists x <- options ::
      x.underlying == underlying && x.expiry == expiry && x.strike == strike && x.kind == kind && m.classOf(x).Some?
  }

  function Off(spot: int, strike: int): int { if strike >= spot then strike - spot else spot - strike }

  /** A call and a put of the underlying, of one strike and the chosen expiry; no strike of that expiry with a
      call and a put is nearer to spot, or as near and lower. */
  ghost predicate Pairs(m: Market, options: seq<Instrument>, underlying: string, call: Instrument, put: Instrument) {
    && underlying in m.spots && call in options && put in options
    && call.underlying == underlying && put.underlying == underlying && call.kind == "CE" && put.kind == "PE"
    && m.classOf(call).Some? && m.classOf(put).Some?
    && call.expiry == put.expiry && call.strike == put.strike && Chosen(m, options, underlying, call.expiry)
    && var e, spot := call.expiry, m.spots[underlying];
       forall k | Quoted(m, options, underlying, e, k, "CE") && Quoted(m, options, underlying, e, k, "PE") ::
         var here, there := Off(spot, call.strike), Off(spot, k);
         here < there || (here == there && call.strike <= k)
  }

  /** There is no such pair: no spot, or no strike of the chosen expiry with a call and a put. */
  ghost predicate Pairless(m: Market, options: seq<Instrument>, underlying: string) {
    underlying in m.spots ==>
      forall e, k :: Chosen(m, options, underlying, e) ==>
        !(Quoted(m, options, underlying, e, k, "CE") && Quoted(m, options, underlying, e, k, "PE"))
  }

  lemma LiveKeyIsOffered(m: Market, options: seq<Instrument>, underlying: string, preferred: seq<string>, key: Key)
    ensures LiveKey(m, options, underlying, preferred, key) <==>
              key.klass in preferred && Offered(m, options, underlying, key.klass, key.expiry)
  {
  }

  /** The best key is the earliest one of its class, and no class before it has any. */
  lemma BestKeyMeaning(m: Market, options: seq<Instrument>, underlying: string, preferred: seq<string>, key: Key)
    requires preferred == ["WEEKLY"] || preferred == ["MONTHLY"] || preferred == ["WEEKLY", "MONTHLY"]
    ensures IsBest(preferred, Some(key), (x: Key) => LiveKey(m, options, underlying, preferred, x)) <==>
              && key.klass in preferred && EarliestOf(m, options, underlying, key.klass, key.expiry)
              && (preferred[0] != key.klass ==> forall e :: !Offered(m, options, underlying, preferred[0], e))
  {
    hide Offered, LiveKey;
    var p := (x: Key) => LiveKey(m, options, underlying, preferred, x);
    forall x: Key
      ensures p(x) <==> x.klass in preferred && Offered(m, options, underlying, x.klass, x.expiry)
    {
      LiveKeyIsOffered(m, options, underlying, preferred, x);
    }
    Ranks(preferred);
    if IsBest(preferred, Some(key), p) {
      forall e | Offered(m, options, underlying, key.klass, e)
        ensures key.expiry <= e
      {
        assert p(Key(e, key.klass));
      }
      if preferred[0] != key.klass {
        forall e
          ensures !Offered(m, options, underlying, preferred[0], e)
        {
          assert p(Key(e, preferred[0])) ==> !Beats(preferred, Key(e, preferred[0]), key);
        }
      }
    }
  }

  lemma Ranks(preferred: seq<string>)
    requires preferred == ["WEEKLY"] || preferred == ["MONTHLY"] || preferred == ["WEEKLY", "MONTHLY"]
    ensures forall a <- preferred, b <- preferred :: Rank(preferred, a) < Rank(preferred, b) <==>
              a != b && a == preferred[0]
  {
    assert "WEEKLY"[0] != "MONTHLY"[0];
  }

  lemma BestExpiryIsChosen(m: Market, options: seq<Instrument>, underlying: string, expiry: Day)
    ensures BestExpiry(m, options, underlying, expiry) <==> Chosen(m, options, underlying, expiry)
  {
    hide IsBest, LiveKey;
    var classes := ClassesFor(m.profileOf(underlying));
    if classes.Ok? {
      var preferred := classes.value;
      forall klass
        ensures IsBest(preferred, Some(Key(expiry, klass)), (x: Key) => LiveKey(m, options, underlying, preferred, x))
           <==> && klass in preferred && EarliestOf(m, options, underlying, klass, expiry)
                && (preferred[0] != klass ==> forall e :: !Offered(m, options, underlying, preferred[0], e))
      {
        BestKeyMeaning(m, options, underlying, preferred, Key(expiry, klass));
      }
      if Chosen(m, options, underlying, expiry) {
        var klass := if EarliestOf(m, options, underlying, preferred[0], expiry) then preferred[0] else "MONTHLY";
        assert IsBest(preferred, Some(Key(expiry, klass)),
                      (x: Key) => LiveKey(m, options, underlying, preferred, x));
      }
    }
  }

  lemma TwoSidedIsQuoted(m: Market, options: seq<Instrument>, underlying: string, expiry: Day, strike: int)
    requires expiry > m.asOf
    ensures TwoSided(m, options, underlying, expiry, strike) <==>
              && Quoted(m, options, underlying, expiry, strike, "CE")
              && Quoted(m, options, underlying, expiry, strike, "PE")
  {
  }

  lemma NearerIsOff(spot: int, a: int, b: int)
    ensures Nearer(spot, a, b) <==> Off(spot, a) < Off(spot, b) || (Off(spot, a) == Off(spot, b) && a <= b)
  {
  }

  lemma PairMeaning(m: Market, options: seq<Instrument>, underlying: string, call: Instrument, put: Instrument)
    requires IsPair(m, options, underlying, call, put)
    ensures Pairs(m, options, underlying, call, put)
  {
    hide BestExpiry, Chosen, TwoSided, Quoted, Nearer, Off;
    BestExpiryIsChosen(m, options, underlying, call.expiry);
    FutureExpiry(m, options, underlying, call.expiry);
    var e := call.expiry;
    forall k | Quoted(m, options, underlying, e, k, "CE") && Quoted(m, options, underlying, e, k, "PE")
      ensures Nearer(m.spots[underlying], call.strike, k)
      ensures Nearer(m.spots[underlying], call.strike, k) <==>
                var here, there := Off(m.spots[underlying], call.strike), Off(m.spots[underlying], k);
                here < there || (here == there && call.strike <= k)
    {
      TwoSidedIsQuoted(m, options, underlying, call.expiry, k);
      NearerIsOff(m.spots[underlying], call.strike, k);
    }
  }

  lemma FutureExpiry(m: Market, options: seq<Instrument>, underlying: string, expiry: Day)
    requires BestExpiry(m, options, underlying, expiry)
    ensures expiry > m.asOf
  {
    hide IsBest;
  }

  lemma PairlessMeaning(m: Market, options: seq<Instrument>, underlying: string)
    requires NoPair(m, options, underlying)
    ensures Pairless(m, options, underlying)
  {
    hide BestExpiry, Chosen, TwoSided, Quoted;
    if underlying in m.spots {
      forall e, k | Chosen(m, options, underlying, e)
        ensures !(Quoted(m, options, underlying, e, k, "CE") && Quoted(m, options, underlying, e, k, "PE"))
      {
        BestExpiryIsChosen(m, options, underlying, e);
        FutureExpiry(m, options, underlying, e);
        TwoSidedIsQuoted(m, options, underlying, e, k);
      }
    }
  }

  predicate Unsupported(m: Market, underlying: string) {
    m.profileOf(underlying).CustomHistorical? || m.profileOf(underlying).Unnamed?
  }

  lemma {:induction false} BadProfiles(m: Market, options: seq<Instrument>, order: seq<string>)
    requires var r := PairFrom(m, options, order); r.Err? && r.error.BadProfile?
    ensures exists underlying <- order :: Unsupported(m, underlying)
  {
    hide PairOf;
    PairOfMeaning(m, options, order[0]);
    if PairOf(m, options, order[0]).Ok? {
      BadProfiles(m, options, order[1..]);
    } else {
      assert Unsupported(m, order[0]);
    }
  }

  /** The selection in fields: a pair of NIFTY, or a pair of BANKNIFTY when NIFTY has none; an error when neither has
      one, or when a profile is not supported. */
  lemma SelectionInFields(m: Market, options: seq<Instrument>)
    ensures match SelectPair(m, options)
            case Ok((call, put)) =>
              || Pairs(m, options, "NIFTY", call, put)
              || (Pairs(m, options, "BANKNIFTY", call, put) && Pairless(m, options, "NIFTY"))
            case Err(NoValidOption) => Pairless(m, options, "NIFTY") && Pairless(m, options, "BANKNIFTY")
            case Err(BadProfile(_)) => Unsupported(m, "NIFTY") || Unsupported(m, "BANKNIFTY")
  {
    hide IsPair, NoPair, Pairs, Pairless, PairFrom, Unsupported;
    var r := SelectPair(m, options);
    SelectedIsBestPair(m, options, UNDERLYING_ORDER);
    if r.Ok? {
      var i :| 0 <= i < 2 && IsPair(m, options, UNDERLYING_ORDER[i], r.value.0, r.value.1)
            && forall j :: 0 <= j < i ==> NoPair(m, options, UNDERLYING_ORDER[j]);
      PairMeaning(m, options, UNDERLYING_ORDER[i], r.value.0, r.value.1);
      if i == 1 {
        PairlessMeaning(m, options, UNDERLYING_ORDER[0]);
      }
    } else if r == Err(NoValidOption) {
      PairlessMeaning(m, options, UNDERLYING_ORDER[0]);
      PairlessMeaning(m, options, UNDERLYING_ORDER[1]);
    } else {
      BadProfiles(m, options, UNDERLYING_ORDER);
    }
  }
}
