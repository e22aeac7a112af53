/** The memoised expiry classifier, over any sequence of calls. */
module ExpiryClassifier {
  import opened Basics
  import opened CalendarDates
  import ExpiryCalendar
  import YamlText
  import HistoryRows

  type Schedule = ExpiryCalendar.Schedule

  /** The attributes of a classifier object; they may change between calls. */
  datatype Config = Config(schedules: seq<Schedule>, holidays: set<Date>, supported: set<int>, policyVersion: string,
                           calendarVersion: string)

  datatype Request = Request(providerSymbol: string, canonical: string, expiry: Option<Date>,
                             optionType: Option<string>, providerClass: Option<string>, classifiedAt: int,
                             validFor: Date)

  datatype Rule = ByProvider | ByCalendarWeekly | ByCalendarMonthly | ByConflict | ByUnsupported | ByUnknown
                | ByNotReady | ByUnsupportedYear

  datatype Diagnostic = NotAnOption | MissingExpiry | ClassifierNotReady | CalendarUnsupportedYear
                      | ClassificationConflict | ProviderClassUnsupported | UnknownClass

  datatype Evidence = FromProvider | FromCalendar | NoEvidence

  datatype Kind = Weekly | Monthly | Unknown

  /** What the classification says; the digest of its evidence is opaque and left out. */
  datatype Core = Core(kind: Kind, rule: Rule, evidence: Evidence, diagnostic: Option<Diagnostic>)

  datatype Classification = Classification(core: Core, policyVersion: string, calendarVersion: string,
                                           classifiedAt: int, validFor: Date, providerSymbol: string, canonical: string)

  /** `None` and the empty string are both absent. */
  function Given(text: Option<string>): Option<string> {
    if text.Some? && text.value == "" then None else text
  }

  function ProviderRaw(raw: Option<string>): Option<string> {
    match Given(raw)
    case None => None
    case Some(text) => Some(HistoryRows.Upper(YamlText.Strip(text)))
  }

  function OptionType(request: Request): Option<string> {
    match Given(request.optionType)
    case None => None
    case Some(text) => Some(HistoryRows.Upper(text))
  }

  predicate ActiveOn(s: Schedule, day: Date) {
    Ordinal(s.activeFrom) <= Ordinal(day) && (s.activeTo.Some? ==> Ordinal(day) <= Ordinal(s.activeTo.value))
  }

  function ScheduleFor(schedules: seq<Schedule>, underlying: string, day: Date): Option<Schedule> {
    if schedules == [] then None
    else if schedules[0].symbol == HistoryRows.Upper(underlying) && ActiveOn(schedules[0], day) then Some(schedules[0])
    else ScheduleFor(schedules[1..], underlying, day)
  }

  function ActiveSchedule(config: Config, request: Request): Option<Schedule> {
    ScheduleFor(config.schedules, HistoryRows.Upper(request.canonical), request.validFor)
  }

  function Calendar(config: Config): ExpiryCalendar.Calendar {
    ExpiryCalendar.Calendar(config.holidays, config.supported)
  }

  predicate IsOption(kind: Option<string>) { kind == Some("CE") || kind == Some("PE") }

  /** The branches of `_classify`, given the calendar's verdict. */
  function Decide(kind: Option<string>, expiry: Option<Date>, schedule: Option<Schedule>, supported: set<int>,
                  raw: Option<string>, calendar: Option<ExpiryCalendar.Class>): Core {
    if !IsOption(kind) then Core(Unknown, ByUnknown, NoEvidence, Some(NotAnOption))
    else if expiry.None? then Core(Unknown, ByUnknown, NoEvidence, Some(MissingExpiry))
    else if schedule.None? then Core(Unknown, ByNotReady, NoEvidence, Some(ClassifierNotReady))
    else if expiry.value.year !in supported then
      Core(Unknown, ByUnsupportedYear, NoEvidence, Some(CalendarUnsupportedYear))
    else
      var fromCalendar := if calendar == Some(ExpiryCalendar.Weekly) then Weekly
                          else if calendar == Some(ExpiryCalendar.Monthly) then Monthly else Unknown;
      var fromProvider := if raw == Some("WEEKLY") then Weekly else if raw == Some("MONTHLY") then Monthly else Unknown;
      if fromProvider != Unknown && fromCalendar != Unknown && fromProvider != fromCalendar then
        Core(Unknown, ByConflict, NoEvidence, Some(ClassificationConflict))
      else if fromProvider != Unknown then Core(fromProvider, ByProvider, FromProvider, None)
      else if fromCalendar == Weekly then Core(Weekly, ByCalendarWeekly, FromCalendar, None)
      else if fromCalendar == Monthly then Core(Monthly, ByCalendarMonthly, FromCalendar, None)
      else if raw.Some? then Core(Unknown, ByUnsupported, NoEvidence, Some(ProviderClassUnsupported))
      else Core(Unknown, ByUnknown, NoEvidence, Some(UnknownClass))
  }

  ghost function CalendarVerdict(config: Config, request: Request): Option<ExpiryCalendar.Class> {
    var schedule := ActiveSchedule(config, request);
    if schedule.None? || request.expiry.None? then None
    else ExpiryCalendar.CalendarClass(Calendar(config), schedule.value, request.expiry.value)
  }

  /** `_classify` */
  ghost function Fresh(config: Config, request: Request): Classification {
    Classification(Decide(OptionType(request), request.expiry, ActiveSchedule(config, request), config.supported,
                          ProviderRaw(request.providerClass), CalendarVerdict(config, request)),
                   config.policyVersion, config.calendarVersion, request.classifiedAt, request.validFor,
                   request.providerSymbol, HistoryRows.Upper(request.canonical))
  }

  /** The key leaves out the underlying, the option type, the moment and the schedules. */
  datatype Key = Key(providerSymbol: string, expiry: Option<Date>, raw: Option<string>, policyVersion: string,
                     calendarVersion: string, holidays: set<Date>, supported: set<int>)

  function KeyOf(config: Config, request: Request): Key {
    Key(request.providerSymbol, request.expiry, ProviderRaw(request.providerClass), config.policyVersion,
        config.calendarVersion, config.holidays, config.supported)
  }

  class Classifier {
    var config: Config
    var cache: map<Key, Classification>

    constructor (config: Config)
      ensures this.config == config && cache == map[]
    {
      this.config, cache := config, map[];
    }

    method Invalidate()
      modifies this
      ensures config == old(config) && cache == map[]
    {
      cache := map[];
    }

    method Classify(request: Request) returns (result: Classification)
      modifies this
      ensures config == old(config)
      ensures (cache, result) == Memo(old(cache), config, request)
    {
      hide Fresh;
      var key := KeyOf(config, request);
      if key in cache {
        return cache[key];
      }
      result := ClassifyFresh(config, request);
      cache := cache[key := result];
    }
  }

  method ClassifyFresh(config: Config, request: Request) returns (result: Classification)
    ensures result == Fresh(config, request)
  {
    hide Decide, ScheduleFor, ExpiryCalendar.CalendarClass;
    var schedule := ScheduleFor(config.schedules, HistoryRows.Upper(request.canonical), request.validFor);
    var calendar := None;
    if schedule.Some? && request.expiry.Some? {
      calendar := ExpiryCalendar.Classify(Calendar(config), schedule.value, request.expiry.value);
    }
    var core := Decide(OptionType(request), request.expiry, schedule, config.supported,
                       ProviderRaw(request.providerClass), calendar);
    return Classification(core, config.policyVersion, config.calendarVersion, request.classifiedAt, request.validFor,
                          request.providerSymbol, HistoryRows.Upper(request.canonical));
  }

  // Whole call sequences.

  datatype Event = Call(config: Config, request: Request) | Invalidated

  ghost function Memo(cache: map<Key, Classification>, config: Config, request: Request)
    : (map<Key, Classification>, Classification)
  {
    var key := KeyOf(config, request);
    if key in cache then (cache, cache[key])
    else (cache[key := Fresh(config, request)], Fresh(config, request))
  }

  /** The cache after the events. */
  ghost function CacheAfter(events: seq<Event>): map<Key, Classification> {
    if events == [] then map[]
    else
      var before := CacheAfter(events[..|events| - 1]);
      match events[|events| - 1]
      case Invalidated => map[]
      case Call(config, request) => Memo(before, config, request).0
  }

  /** What call `i` returned. */
  ghost function Returned(events: seq<Event>, i: nat): Classification
    requires i < |events| && events[i].Call?
  {
    Memo(CacheAfter(events[..i]), events[i].config, events[i].request).1
  }

  /** The first call with this key since the cache was last emptied. */
  ghost function FirstWith(events: seq<Event>, key: Key): (first: Option<nat>)
    ensures first.Some? ==>
              && first.value < |events| && events[first.value].Call?
              && KeyOf(events[first.value].config, events[first.value].request) == key
  {
    if events == [] then None
    else
      var last := |events| - 1;
      var first := FirstWith(events[..last], key);
      if events[last].Invalidated? then None
      else if first.Some? then first
      else if KeyOf(events[last].config, events[last].request) == key then Some(last)
      else None
  }

  lemma {:induction false} CacheHoldsFirst(events: seq<Event>, key: Key)
    ensures var first := FirstWith(events, key);
            && (key in CacheAfter(events) <==> first.Some?)
            && (first.Some? ==>
                  CacheAfter(events)[key] == Fresh(events[first.value].config, events[first.value].request))
    decreases |events|
  {
    hide Fresh, KeyOf;
    if events != [] {
      CacheHoldsFirst(events[..|events| - 1], key);
    }
  }

  /** Every call returns what `_classify` gives for the first call with the same key since the cache was emptied. */
  lemma MemoReturnsFirst(events: seq<Event>, i: nat)
    requires i < |events| && events[i].Call?
    ensures var first := FirstWith(events[..i + 1], KeyOf(events[i].config, events[i].request));
            first.Some? && Returned(events, i) == Fresh(events[first.value].config, events[first.value].request)
  {
    hide Fresh, KeyOf;
    CacheHoldsFirst(events[..i], KeyOf(events[i].config, events[i].request));
    assert events[..i + 1][..i] == events[..i];
  }

  function Claimed(raw: Option<string>): Kind {
    if raw == Some("WEEKLY") then Weekly else if raw == Some("MONTHLY") then Monthly else Unknown
  }

  function Scheduled(calendar: Option<ExpiryCalendar.Class>): Kind {
    if calendar == Some(ExpiryCalendar.Weekly) then Weekly
    else if calendar == Some(ExpiryCalendar.Monthly) then Monthly else Unknown
  }

  /** The provider's class leaves no room for the difference: the two verdicts are the same, or each is that class or
      none. */
  predicate SameVerdict(claimed: Kind, a: Kind, b: Kind) {
    a == b || (claimed != Unknown && (a == Unknown || a == claimed) && (b == Unknown || b == claimed))
  }

  /** What two calls with one key must share beyond the key. */
  ghost predicate Agreeing(c: Config, r: Request, d: Config, q: Request) {
    var here, there := ActiveSchedule(c, r), ActiveSchedule(d, q);
    && IsOption(OptionType(r)) == IsOption(OptionType(q))
    && (IsOption(OptionType(r)) && r.expiry.Some? ==>
          && here.Some? == there.Some?
          && (here.Some? && r.expiry.value.year in c.supported ==>
                SameVerdict(Claimed(ProviderRaw(r.providerClass)), Scheduled(CalendarVerdict(c, r)),
                            Scheduled(CalendarVerdict(d, q)))))
  }

  /** Two calls with one key are classified alike exactly when both or neither are options, under a schedule both or
      neither, and with verdicts of the calendar that the provider's class does not tell apart. */
  lemma CoresAgreeExactlyWhen(c: Config, r: Request, d: Config, q: Request)
    requires KeyOf(c, r) == KeyOf(d, q)
    ensures Fresh(c, r).core == Fresh(d, q).core <==> Agreeing(c, r, d, q)
  {
    hide ExpiryCalendar.CalendarClass, ActiveSchedule, OptionType, ProviderRaw, IsOption, CalendarVerdict;
  }

  /** The memo agrees with `_classify` on class, rule, evidence and diagnostic exactly when the call agrees with the
      first call of its key since the cache was emptied. */
  lemma MemoAgreesExactlyWhen(events: seq<Event>, i: nat)
    requires i < |events| && events[i].Call?
    ensures var first := FirstWith(events[..i + 1], KeyOf(events[i].config, events[i].request));
            && first.Some?
            && (Returned(events, i).core == Fresh(events[i].config, events[i].request).core <==>
                Agreeing(events[first.value].config, events[first.value].request, events[i].config, events[i].request))
  {
    hide Fresh, Memo, Agreeing, OptionType, ActiveSchedule, ProviderRaw, FirstWith;
    MemoReturnsFirst(events, i);
    var first := FirstWith(events[..i + 1], KeyOf(events[i].config, events[i].request)).value;
    assert events[..i + 1][first] == events[first];
    CoresAgreeExactlyWhen(events[first].config, events[first].request, events[i].config, events[i].request);
  }

  predicate SameSymbol(a: Event, b: Event) {
    a.Call? && b.Call? && a.request.providerSymbol == b.request.providerSymbol
  }

  /** A provider symbol always comes with one option type and one active schedule. */
  ghost predicate Disciplined(events: seq<Event>) {
    forall i, j :: 0 <= i < |events| && 0 <= j < |events| && SameSymbol(events[i], events[j]) ==>
      && OptionType(events[i].request) == OptionType(events[j].request)
      && ActiveSchedule(events[i].config, events[i].request) == ActiveSchedule(events[j].config, events[j].request)
  }

  /** A discipline that callers can keep, and under which the memo agrees on every run. */
  lemma MemoAgrees(events: seq<Event>, i: nat)
    requires Disciplined(events) && i < |events| && events[i].Call?
    ensures Returned(events, i).core == Fresh(events[i].config, events[i].request).core
  {
    hide Fresh, Memo, OptionType, ActiveSchedule, ProviderRaw, FirstWith, IsOption, ExpiryCalendar.CalendarClass;
    MemoAgreesExactlyWhen(events, i);
    var key := KeyOf(events[i].config, events[i].request);
    var first := FirstWith(events[..i + 1], key).value;
    assert events[..i + 1][first] == events[first];
    assert SameSymbol(events[first], events[i]);
  }

  /** One schedule without weekdays, so that the class is the provider's. */
  const NIFTY_ONLY := Config([ExpiryCalendar.Schedule("NIFTY", None, None, YearMonthDay(2020, 1, 1), None, None)],
                             {}, {2026}, "", "")

  const CALL_OF_JANUARY := Request("NIFTY26JAN", "NIFTY", Some(YearMonthDay(2026, 1, 27)), Some("CE"), Some("WEEKLY"),
                                   0, YearMonthDay(2026, 1, 2))

  /** Without it they can differ, because the key leaves the option type out: a symbol first seen as a weekly call is
      still weekly when it comes back as something that is not an option. */
  lemma MemoCanDisagree()
    ensures var events := [Call(NIFTY_ONLY, CALL_OF_JANUARY), Call(NIFTY_ONLY, CALL_OF_JANUARY.(optionType := None))];
            && Returned(events, 1).core == Core(Weekly, ByProvider, FromProvider, None)
            && Fresh(NIFTY_ONLY, CALL_OF_JANUARY.(optionType := None)).core
            == Core(Unknown, ByUnknown, NoEvidence, Some(NotAnOption))
  {
    hide ActiveSchedule, ProviderRaw, Fresh, HistoryRows.Upper, YamlText.Strip;
    var events := [Call(NIFTY_ONLY, CALL_OF_JANUARY), Call(NIFTY_ONLY, CALL_OF_JANUARY.(optionType := None))];
    MemoReturnsFirst(events, 1);
    var key := KeyOf(NIFTY_ONLY, CALL_OF_JANUARY);
    assert events[..2][..1] == [events[0]] && [events[0]][..0] == [];
    assert FirstWith([events[0]], key) == Some(0);
    WeeklyCall();
  }

  lemma WeeklyCall()
    ensures Fresh(NIFTY_ONLY, CALL_OF_JANUARY).core == Core(Weekly, ByProvider, FromProvider, None)
    ensures Fresh(NIFTY_ONLY, CALL_OF_JANUARY.(optionType := None)).core
         == Core(Unknown, ByUnknown, NoEvidence, Some(NotAnOption))
  {
    hide HistoryRows.Upper, YamlText.Strip, Ordinal;
    HistoryRows.UpperFixed("NIFTY");
    HistoryRows.UpperFixed("CE");
    HistoryRows.UpperFixed("WEEKLY");
    YamlText.StripTrimmed("WEEKLY");
    assert ActiveOn(NIFTY_ONLY.schedules[0], CALL_OF_JANUARY.validFor) by { InJanuary(); }
  }

  lemma InJanuary()
    ensures Ordinal(YearMonthDay(2020, 1, 1)) <= Ordinal(YearMonthDay(2026, 1, 2))
  {
  }

  /** A class is given exactly to an option of a supported year under an active schedule for which the provider and the
      calendar do not contradict each other and at least one of them says so. */
  lemma ClassifiedExactlyWhen(config: Config, request: Request, kind: Kind)
    requires kind != Unknown
    ensures Fresh(config, request).core.kind == kind <==>
            && IsOption(OptionType(request)) && request.expiry.Some? && ActiveSchedule(config, request).Some?
            && request.expiry.value.year in config.supported
            && var claimed := Claimed(ProviderRaw(request.providerClass));
               var scheduled := Scheduled(CalendarVerdict(config, request));
               && (claimed == kind || scheduled == kind)
               && (claimed == kind || claimed == Unknown) && (scheduled == kind || scheduled == Unknown)
  {
    hide OptionType, ActiveSchedule, ProviderRaw, CalendarVerdict, IsOption;
  }

  // The answer in the terms of the request.

  /** The dates of the schedule contain the day. */
  predicate Spans(s: Schedule, day: Date) {
    !Before(day, s.activeFrom) && (s.activeTo.Some? ==> !Before(s.activeTo.value, day))
  }

  /** The schedule that counts is the first one of the upper-cased symbol whose dates contain the day. */
  lemma {:induction false} ScheduleForMeaning(schedules: seq<Schedule>, underlying: string, day: Date) returns (i: nat)
    ensures i <= |schedules|
    ensures ScheduleFor(schedules, underlying, day) == if i < |schedules| then Some(schedules[i]) else None
    ensures i < |schedules| ==>
              schedules[i].symbol == HistoryRows.Upper(underlying) && Spans(schedules[i], day)
    ensures forall j :: 0 <= j < i ==>
              !(schedules[j].symbol == HistoryRows.Upper(underlying) && Spans(schedules[j], day))
  {
    hide Spans, ActiveOn, HistoryRows.Upper;
    i := 0;
    if schedules != [] {
      ActiveIsSpanned(schedules[0], day);
      if !(schedules[0].symbol == HistoryRows.Upper(underlying) && ActiveOn(schedules[0], day)) {
        var later := ScheduleForMeaning(schedules[1..], underlying, day);
        i := later + 1;
      }
    }
  }

  lemma ActiveIsSpanned(s: Schedule, day: Date)
    ensures ActiveOn(s, day) <==> Spans(s, day)
  {
    hide Ordinal;
    OrdinalOrder(day, s.activeFrom);
    if s.activeTo.Some? {
      OrdinalOrder(s.activeTo.value, day);
    }
  }

  /** The texts of a request: what makes it an option and what its provider claims; the case and the white space around
      a claim do not matter, nor does the case of the underlying. */
  lemma RequestMeaning(config: Config, request: Request)
    ensures var text := request.optionType;
            IsOption(OptionType(request)) <==>
              text.Some? && (HistoryRows.Upper(text.value) == "CE" || HistoryRows.Upper(text.value) == "PE")
    ensures var text := request.providerClass;
            && (Claimed(ProviderRaw(text)) == Weekly <==>
                  text.Some? && HistoryRows.Upper(YamlText.Strip(text.value)) == "WEEKLY")
            && (Claimed(ProviderRaw(text)) == Monthly <==>
                  text.Some? && HistoryRows.Upper(YamlText.Strip(text.value)) == "MONTHLY")
    ensures ActiveSchedule(config, request) == ScheduleFor(config.schedules, request.canonical, request.validFor)
    ensures Scheduled(CalendarVerdict(config, request)) != Unknown ==>
              && request.expiry.Some? && ActiveSchedule(config, request).Some?
              && (Scheduled(CalendarVerdict(config, request)) == Weekly <==>
                    ExpiryCalendar.CalendarClass(ExpiryCalendar.Calendar(config.holidays, config.supported),
                                                 ActiveSchedule(config, request).value, request.expiry.value)
                    == Some(ExpiryCalendar.Weekly))
  {
    hide ExpiryCalendar.CalendarClass, ActiveOn;
    HistoryRows.UpperTwice(request.canonical);
    SameSchedule(config.schedules, HistoryRows.Upper(request.canonical), request.canonical, request.validFor);
  }

  lemma {:induction false} SameSchedule(schedules: seq<Schedule>, a: string, b: string, day: Date)
    requires HistoryRows.Upper(a) == HistoryRows.Upper(b)
    ensures ScheduleFor(schedules, a, day) == ScheduleFor(schedules, b, day)
  {
    hide ActiveOn, HistoryRows.Upper;
    if schedules != [] {
      SameSchedule(schedules[1..], a, b, day);
    }
  }

  /** What stands in the way of a class, in the order in which it is looked for, and where a class comes from. */
  lemma DiagnosedExactlyWhen(config: Config, request: Request)
    ensures var core, kind := Fresh(config, request).core, OptionType(request);
            var claimed := Claimed(ProviderRaw(request.providerClass));
            var scheduled := Scheduled(CalendarVerdict(config, request));
            if kind != Some("CE") && kind != Some("PE") then
              core.rule == ByUnknown && core.diagnostic == Some(NotAnOption)
            else if request.expiry == None then core.rule == ByUnknown && core.diagnostic == Some(MissingExpiry)
            else if ActiveSchedule(config, request) == None then
              core.rule == ByNotReady && core.diagnostic == Some(ClassifierNotReady)
            else if request.expiry.value.year !in config.supported then
              core.rule == ByUnsupportedYear && core.diagnostic == Some(CalendarUnsupportedYear)
            else
              match (claimed, scheduled)
              case (Weekly, Monthly) => core.rule == ByConflict && core.diagnostic == Some(ClassificationConflict)
              case (Monthly, Weekly) => core.rule == ByConflict && core.diagnostic == Some(ClassificationConflict)
              case (Unknown, Unknown) =>
                if ProviderRaw(request.providerClass).Some? then
                  core.rule == ByUnsupported && core.diagnostic == Some(ProviderClassUnsupported)
                else core.rule == ByUnknown && core.diagnostic == Some(UnknownClass)
              case (Unknown, Weekly) => core == Core(Weekly, ByCalendarWeekly, FromCalendar, None)
              case (Unknown, Monthly) => core == Core(Monthly, ByCalendarMonthly, FromCalendar, None)
              case (claim, _) => core == Core(claim, ByProvider, FromProvider, None)
  {
    hide OptionType, ActiveSchedule, ProviderRaw, CalendarVerdict;
  }
}
