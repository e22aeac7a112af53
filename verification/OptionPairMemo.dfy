/** The option pair with its real classifier: the memo behind the classes, filled in the order of the instruments. */
module OptionPairMemo {
  import opened Basics
  import opened HistoryRows
  import opened HistoryExpiry
  import opened HistoryResolver
  import opened CalendarDates
  import ExpiryCalendar
  import C = ExpiryClassifier
  import opened OptionPair

  /** The classifier's configuration, and the dates that the day numbers stand for. */
  datatype Desk = Desk(config: C.Config, dateOf: Day -> Date)

  type Cache = map<C.Key, C.Classification>

  function RequestFor(desk: Desk, m: Market, x: Instrument): C.Request {
    C.Request(x.symbol, x.underlying, Some(desk.dateOf(x.expiry)), Some(x.kind), None, Moment(m), desk.dateOf(m.asOf))
  }

  function KeyFor(desk: Desk, m: Market, x: Instrument): C.Key { C.KeyOf(desk.config, RequestFor(desk, m, x)) }

  /** The tradable classes. */
  function ClassOf(kind: C.Kind): Option<string> {
    match kind
    case Weekly => Some(WEEKLY)
    case Monthly => Some(MONTHLY)
    case Unknown => None
  }

  /** What a cache says of a row. */
  function ClassIn(cache: Cache, desk: Desk, m: Market, x: Instrument): Option<string> {
    var key := KeyFor(desk, m, x);
    if key in cache then ClassOf(cache[key].core.kind) else None
  }

  /** What `_classify` would say of it. */
  ghost function FreshCore(desk: Desk, m: Market, x: Instrument): C.Core {
    C.Fresh(desk.config, RequestFor(desk, m, x)).core
  }

  /** The cache after the rows have been classified one by one; a row past its expiry is passed over. */
  ghost function Filled(cache: Cache, desk: Desk, m: Market, options: seq<Instrument>): Cache {
    if options == [] then cache
    else
      var before, x := Filled(cache, desk, m, options[..|options| - 1]), options[|options| - 1];
      if x.expiry < m.asOf then before else C.Memo(before, desk.config, RequestFor(desk, m, x)).0
  }

  function Graded(cache: Cache, desk: Desk, m: Market): Market {
    m.(classOf := (x: Instrument) => ClassIn(cache, desk, m, x))
  }

  /** The selection as it comes out of a classifier with this cache. */
  ghost function SelectMemo(cache: Cache, desk: Desk, m: Market, options: seq<Instrument>)
    : Result<(Instrument, Instrument), OptionPair.Error>
  {
    SelectPair(Graded(Filled(cache, desk, m, options), desk, m), options)
  }

  lemma FilledStep(cache: Cache, desk: Desk, m: Market, options: seq<Instrument>, i: nat)
    requires i < |options|
    ensures var before, x := Filled(cache, desk, m, options[..i]), options[i];
            var after := if x.expiry < m.asOf then before else C.Memo(before, desk.config, RequestFor(desk, m, x)).0;
            Filled(cache, desk, m, options[..i + 1]) == after
  {
    hide C.Memo;
    assert options[..i + 1][..i] == options[..i];
  }

  /** Classifying the rows with the object and then selecting. `answers` are the classes as they come, none for a row
      past its expiry; each is what the cache still says when the selection is made. */
  method SelectWithClassifier(classifier: C.Classifier, dateOf: Day -> Date, m: Market, options: seq<Instrument>)
    returns (answers: seq<Option<string>>, result: Result<(Instrument, Instrument), OptionPair.Error>)
    modifies classifier
    ensures classifier.config == old(classifier.config)
    ensures var desk := Desk(classifier.config, dateOf);
            && classifier.cache == Filled(old(classifier.cache), desk, m, options)
            && result == SelectMemo(old(classifier.cache), desk, m, options)
            && |answers| == |options|
            && forall i :: 0 <= i < |options| && options[i].expiry >= m.asOf ==>
                 answers[i] == Graded(classifier.cache, desk, m).classOf(options[i])
  {
    hide C.Fresh, C.KeyOf, SelectPair, RequestFor;
    var desk := Desk(classifier.config, dateOf);
    answers := [];
    for i := 0 to |options|
      invariant classifier.config == desk.config && |answers| == i
      invariant classifier.cache == Filled(old(classifier.cache), desk, m, options[..i])
      invariant forall j :: 0 <= j < i && options[j].expiry >= m.asOf ==>
                  KeyFor(desk, m, options[j]) in classifier.cache
                  && answers[j] == ClassIn(classifier.cache, desk, m, options[j])
    {
      FilledStep(old(classifier.cache), desk, m, options, i);
      if options[i].expiry < m.asOf {
        answers := answers + [None];
        continue;
      }
      var classified := classifier.Classify(RequestFor(desk, m, options[i]));
      answers := answers + [ClassOf(classified.core.kind)];
    }
    assert options[..|options|] == options;
    result := SelectOptionPair(Graded(classifier.cache, desk, m), options);
  }

  // Only the classes of the live rows count.

  ghost predicate SameClasses(m: Market, n: Market, options: seq<Instrument>) {
    && n == m.(classOf := n.classOf)
    && forall x <- options :: x.expiry >= m.asOf ==> m.classOf(x) == n.classOf(x)
  }

  lemma SameLiveRows(m: Market, n: Market, options: seq<Instrument>, underlying: string)
    requires SameClasses(m, n, options)
    ensures LiveRows(m, options, underlying) == LiveRows(n, options, underlying)
    ensures forall x <- LiveRows(m, options, underlying) :: KeyIn(m, x) == KeyIn(n, x)
  {
    hide Filter;
    FilterCongruence(options, (x: Instrument) => Live(m, underlying, x), (x: Instrument) => Live(n, underlying, x));
  }

  lemma SamePreference(m: Market, n: Market, options: seq<Instrument>, underlying: string)
    requires SameClasses(m, n, options)
    ensures var rows := LiveRows(m, options, underlying);
            PreferredExpiry(m, underlying, rows) == PreferredExpiry(n, underlying, rows)
  {
    hide Filter, Map, Distinct, Resolve, KeyIn, Live;
    SameLiveRows(m, n, options, underlying);
    var rows := LiveRows(m, options, underlying);
    assert Map((x: Instrument) => KeyIn(m, x), rows) == Map((x: Instrument) => KeyIn(n, x), rows);
    assert LiveRecords(m, underlying, rows) == LiveRecords(n, underlying, rows);
  }

  lemma {:induction false} SamePairs(m: Market, n: Market, options: seq<Instrument>, order: seq<string>)
    requires SameClasses(m, n, options)
    ensures PairFrom(m, options, order) == PairFrom(n, options, order)
  {
    hide LiveRows, PreferredExpiry, PoolOf, StrikesOf, FirstTwoSided;
    if order != [] {
      SameLiveRows(m, n, options, order[0]);
      SamePreference(m, n, options, order[0]);
      SamePairs(m, n, options, order[1..]);
    }
  }

  // When the order of the instruments does not matter.

  /** Rows that share a symbol and an expiry share what the classification depends on. */
  ghost predicate Disciplined(desk: Desk, m: Market, options: seq<Instrument>) {
    forall x, y :: x in options && y in options && KeyFor(desk, m, x) == KeyFor(desk, m, y) ==>
      C.Agreeing(desk.config, RequestFor(desk, m, x), desk.config, RequestFor(desk, m, y))
  }

  /** What the cache already holds of these rows is what `_classify` says of them. */
  ghost predicate Accurate(cache: Cache, desk: Desk, m: Market, options: seq<Instrument>) {
    forall x <- options :: KeyFor(desk, m, x) in cache ==> cache[KeyFor(desk, m, x)].core == FreshCore(desk, m, x)
  }

  lemma {:induction false} FilledIsAccurate(cache: Cache, desk: Desk, m: Market, all: seq<Instrument>,
                                            options: seq<Instrument>)
    requires Disciplined(desk, m, all) && Accurate(cache, desk, m, all)
    requires forall x <- options :: x in all
    ensures var filled := Filled(cache, desk, m, options);
            && Accurate(filled, desk, m, all)
            && forall x <- options :: x.expiry >= m.asOf ==> KeyFor(desk, m, x) in filled
    decreases |options|
  {
    hide C.Fresh, C.KeyOf, C.Agreeing, RequestFor;
    if options != [] {
      var front, last := options[..|options| - 1], options[|options| - 1];
      assert options == front + [last];
      FilledIsAccurate(cache, desk, m, all, front);
      forall x <- all | KeyFor(desk, m, x) == KeyFor(desk, m, last)
        ensures FreshCore(desk, m, x) == FreshCore(desk, m, last)
      {
        C.CoresAgreeExactlyWhen(desk.config, RequestFor(desk, m, x), desk.config, RequestFor(desk, m, last));
      }
    }
  }

  ghost function Ideal(desk: Desk, m: Market): Market {
    m.(classOf := (x: Instrument) => ClassOf(FreshCore(desk, m, x).kind))
  }

  /** Under the discipline the selection is the one of a classifier without a memo. */
  lemma MemoIsInvisible(cache: Cache, desk: Desk, m: Market, options: seq<Instrument>)
    requires Disciplined(desk, m, options) && Accurate(cache, desk, m, options)
    ensures SelectMemo(cache, desk, m, options) == SelectPair(Ideal(desk, m), options)
  {
    hide C.Fresh, KeyFor, FreshCore, Filled, PairFrom, C.Agreeing, RequestFor;
    FilledIsAccurate(cache, desk, m, options, options);
    SamePairs(Graded(Filled(cache, desk, m, options), desk, m), Ideal(desk, m), options, UNDERLYING_ORDER);
  }

  /** So it does not depend on the order or the repetition of the instruments. */
  lemma MemoIgnoresOrder(cache: Cache, desk: Desk, m: Market, a: seq<Instrument>, b: seq<Instrument>)
    requires SameInstruments(a, b) && Disciplined(desk, m, a) && Accurate(cache, desk, m, a)
    ensures SamePlace(SelectMemo(cache, desk, m, a), SelectMemo(cache, desk, m, b))
  {
    hide C.Fresh, KeyFor, FreshCore, SelectMemo, C.Agreeing, RequestFor, PairFrom, SamePlace;
    MemoIsInvisible(cache, desk, m, a);
    MemoIsInvisible(cache, desk, m, b);
    SelectionIgnoresOrder(Ideal(desk, m), a, b, UNDERLYING_ORDER);
  }

  // When it does.

  const SIXTH_OF_JANUARY := YearMonthDay(2026, 1, 6)

  /** NIFTY with a weekly expiry on the weekday of that date, and nothing for BANKNIFTY. */
  const WEEKLY_NIFTY := C.Config([ExpiryCalendar.Schedule("NIFTY", Some(WeekdayOf(SIXTH_OF_JANUARY)), None,
                                                          YearMonthDay(2020, 1, 1), None, None)], {}, {2026}, "", "")

  function InJanuary(day: Day): Date { if day <= 0 then YearMonthDay(2026, 1, 2) else SIXTH_OF_JANUARY }

  const DESK := Desk(WEEKLY_NIFTY, InJanuary)

  const NIFTY_AT_ONE := Market(map["NIFTY" := 1], 0, (x: Instrument) => None, (underlying: string) => WeeklyPreferred)

  const CALL := Instrument(1, "A", "NIFTY", 1, 1, "CE")
  const PUT := Instrument(2, "B", "NIFTY", 1, 1, "PE")

  /** A row of another underlying that goes by the symbol of the call. */
  const NAMESAKE := Instrument(3, "A", "BANKNIFTY", 1, 1, "CE")

  lemma CoresInJanuary()
    ensures FreshCore(DESK, NIFTY_AT_ONE, CALL).kind == C.Weekly
    ensures FreshCore(DESK, NIFTY_AT_ONE, PUT).kind == C.Weekly
    ensures FreshCore(DESK, NIFTY_AT_ONE, NAMESAKE).kind == C.Unknown
  {
    hide Upper, Ordinal, WeekdayOf, ExpiryCalendar.CalendarClass;
    UpperFixed("NIFTY");
    UpperFixed("BANKNIFTY");
    UpperFixed("CE");
    UpperFixed("PE");
    ActiveThen();
    WeeklyThen();
    assert |"NIFTY"| != |"BANKNIFTY"|;
    assert C.ScheduleFor(WEEKLY_NIFTY.schedules, "BANKNIFTY", YearMonthDay(2026, 1, 2)) == None;
  }

  lemma ActiveThen()
    ensures C.ActiveOn(WEEKLY_NIFTY.schedules[0], YearMonthDay(2026, 1, 2))
  {
  }

  lemma WeeklyThen()
    ensures ExpiryCalendar.CalendarClass(C.Calendar(WEEKLY_NIFTY), WEEKLY_NIFTY.schedules[0], SIXTH_OF_JANUARY)
         == Some(ExpiryCalendar.Weekly)
  {
    hide ExpiryCalendar.CalendarClass;
    var c, s := C.Calendar(WEEKLY_NIFTY), WEEKLY_NIFTY.schedules[0];
    assert WeekdayOf(SIXTH_OF_JANUARY) < 5;
    assert ExpiryCalendar.WeeklyOf(c, s, s.weekly.value, SIXTH_OF_JANUARY) == Some(SIXTH_OF_JANUARY);
    ExpiryCalendar.CalendarClassMeaning(c, s, SIXTH_OF_JANUARY);
  }

  lemma KeysInJanuary()
    ensures KeyFor(DESK, NIFTY_AT_ONE, NAMESAKE) == KeyFor(DESK, NIFTY_AT_ONE, CALL)
    ensures KeyFor(DESK, NIFTY_AT_ONE, PUT) != KeyFor(DESK, NIFTY_AT_ONE, CALL)
  {
    assert "A" != "B" by { assert "A"[0] != "B"[0]; }
  }

  /** The classes of the call and the put in the two orders. */
  lemma ClassesInJanuary()
    ensures var last := Graded(Filled(map[], DESK, NIFTY_AT_ONE, [CALL, PUT, NAMESAKE]), DESK, NIFTY_AT_ONE);
            last.classOf(CALL) == Some(WEEKLY) && last.classOf(PUT) == Some(WEEKLY)
    ensures var first := Graded(Filled(map[], DESK, NIFTY_AT_ONE, [NAMESAKE, CALL, PUT]), DESK, NIFTY_AT_ONE);
            first.classOf(CALL) == None
  {
    hide KeyFor, C.Fresh, FreshCore, C.KeyOf, RequestFor;
    CoresInJanuary();
    KeysInJanuary();
    ThreeFilled(CALL, PUT, NAMESAKE);
    ThreeFilled(NAMESAKE, CALL, PUT);
    hide Filled;
  }

  lemma ThreeFilled(x: Instrument, y: Instrument, z: Instrument)
    requires x.expiry == y.expiry == z.expiry == 1
    ensures var filled := Filled(map[], DESK, NIFTY_AT_ONE, [x, y, z]);
            var a, b, c := KeyFor(DESK, NIFTY_AT_ONE, x), KeyFor(DESK, NIFTY_AT_ONE, y), KeyFor(DESK, NIFTY_AT_ONE, z);
            && a in filled && filled[a].core == FreshCore(DESK, NIFTY_AT_ONE, x)
            && b in filled && (b != a ==> filled[b].core == FreshCore(DESK, NIFTY_AT_ONE, y))
            && c in filled && (c != a && c != b ==> filled[c].core == FreshCore(DESK, NIFTY_AT_ONE, z))
  {
    hide C.Fresh, C.KeyOf, RequestFor;
    assert [x, y, z][..2] == [x, y] && [x, y][..1] == [x] && [x][..0] == [];
    assert Filled(map[], DESK, NIFTY_AT_ONE, []) == map[];
    var one := Filled(map[], DESK, NIFTY_AT_ONE, [x]);
    assert one == C.Memo(map[], WEEKLY_NIFTY, RequestFor(DESK, NIFTY_AT_ONE, x)).0;
    var two := Filled(map[], DESK, NIFTY_AT_ONE, [x, y]);
    assert two == C.Memo(one, WEEKLY_NIFTY, RequestFor(DESK, NIFTY_AT_ONE, y)).0;
    var three := Filled(map[], DESK, NIFTY_AT_ONE, [x, y, z]);
    assert three == C.Memo(two, WEEKLY_NIFTY, RequestFor(DESK, NIFTY_AT_ONE, z)).0;
  }

  /** With every profile the weekly one, nothing but a missing option stops a selection. */
  lemma {:induction false} ProfilesAreFine(m: Market, options: seq<Instrument>, order: seq<string>)
    requires forall underlying :: ClassesFor(m.profileOf(underlying)) == Ok([WEEKLY])
    ensures PairFrom(m, options, order).Ok? || PairFrom(m, options, order) == Err(NoValidOption)
  {
    hide PairOf, ClassesFor;
    if order != [] {
      PairOfMeaning(m, options, order[0]);
      ProfilesAreFine(m, options, order[1..]);
    }
  }

  /** A weekly call and put of the same expiry and strike are a pair. */
  lemma WeeklyPairIsBest(m: Market, options: seq<Instrument>)
    requires m.asOf == 0 && ClassesFor(m.profileOf("NIFTY")) == Ok([WEEKLY])
    requires CALL in options && PUT in options && forall x <- options :: x.expiry == 1
    requires m.classOf(CALL) == Some(WEEKLY) && m.classOf(PUT) == Some(WEEKLY)
    ensures BestExpiry(m, options, "NIFTY", 1) && TwoSided(m, options, "NIFTY", 1, 1)
  {
    hide ClassesFor;
    var p := (key: Key) => LiveKey(m, options, "NIFTY", [WEEKLY], key);
    assert Live(m, "NIFTY", CALL) && KeyIn(m, CALL) == Key(1, WEEKLY);
    assert p(Key(1, WEEKLY));
    assert IsBest([WEEKLY], Some(Key(1, WEEKLY)), p);
    assert Live(m, "NIFTY", PUT);
  }

  /** Without the discipline it can matter: after its namesake the call is not tradable, before it the pair is found. */
  lemma OrderCanMatter()
    ensures SelectMemo(map[], DESK, NIFTY_AT_ONE, [NAMESAKE, CALL, PUT]) == Err(NoValidOption)
    ensures SelectMemo(map[], DESK, NIFTY_AT_ONE, [CALL, PUT, NAMESAKE]).Ok?
  {
    hide Filled, PairFrom, BestExpiry, Live;
    ClassesInJanuary();
    NamesakeFirst(Graded(Filled(map[], DESK, NIFTY_AT_ONE, [NAMESAKE, CALL, PUT]), DESK, NIFTY_AT_ONE));
    NamesakeLast(Graded(Filled(map[], DESK, NIFTY_AT_ONE, [CALL, PUT, NAMESAKE]), DESK, NIFTY_AT_ONE));
  }

  lemma NamesakeFirst(m: Market)
    requires m == NIFTY_AT_ONE.(classOf := m.classOf) && m.classOf(CALL) == None
    ensures SelectPair(m, [NAMESAKE, CALL, PUT]) == Err(NoValidOption)
  {
    hide PairFrom, BestExpiry;
    var options := [NAMESAKE, CALL, PUT];
    ProfilesAreFine(m, options, UNDERLYING_ORDER);
    SelectedIsBestPair(m, options, UNDERLYING_ORDER);
    assert "CE" != "PE" by { assert "CE"[0] != "PE"[0]; }
    assert |"NIFTY"| != |"BANKNIFTY"|;
    forall i, call, put | 0 <= i < |UNDERLYING_ORDER|
      ensures !IsPair(m, options, UNDERLYING_ORDER[i], call, put)
    {
      assert UNDERLYING_ORDER[i] == "NIFTY" || UNDERLYING_ORDER[i] == "BANKNIFTY";
    }
  }

  lemma NamesakeLast(m: Market)
    requires m == NIFTY_AT_ONE.(classOf := m.classOf)
    requires m.classOf(CALL) == Some(WEEKLY) && m.classOf(PUT) == Some(WEEKLY)
    ensures SelectPair(m, [CALL, PUT, NAMESAKE]).Ok?
  {
    hide PairFrom, BestExpiry, TwoSided;
    var options := [CALL, PUT, NAMESAKE];
    ProfilesAreFine(m, options, UNDERLYING_ORDER);
    SelectedIsBestPair(m, options, UNDERLYING_ORDER);
    WeeklyPairIsBest(m, options);
    assert UNDERLYING_ORDER[0] == "NIFTY";
    assert !NoPair(m, options, "NIFTY");
  }
}
