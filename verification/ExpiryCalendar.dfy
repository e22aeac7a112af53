/** The versioned expiry calendar: which dates are monthly and weekly expiries of an underlying. */
module ExpiryCalendar {
  import opened Basics
  import opened CalendarDates

  function Back(d: Date, k: nat): Date
    decreases k
  {
    if k == 0 then d else Back(PrevDay(d), k - 1)
  }

  function Forward(d: Date, k: nat): Date
    decreases k
  {
    if k == 0 then d else Forward(NextDay(d), k - 1)
  }

  predicate IsSessionDay(d: Date, holidays: set<Date>) { WeekdayOf(d) < 5 && d !in holidays }

  /** The latest session on or before `d` among the last `tries` days. */
  function Previous(d: Date, holidays: set<Date>, tries: nat): Option<Date>
    decreases tries
  {
    if tries == 0 then None
    else if IsSessionDay(d, holidays) then Some(d)
    else Previous(PrevDay(d), holidays, tries - 1)
  }

  const LOOK_BACK := 14

  function PreviousSessionDay(d: Date, holidays: set<Date>): Option<Date> { Previous(d, holidays, LOOK_BACK) }

  method PreviousSession(day: Date, holidays: set<Date>) returns (found: Option<Date>)
    ensures found == PreviousSessionDay(day, holidays)
  {
    hide WeekdayOf;
    var cursor := day;
    for i := 0 to LOOK_BACK
      invariant PreviousSessionDay(day, holidays) == Previous(cursor, holidays, LOOK_BACK - i)
    {
      if IsSessionDay(cursor, holidays) {
        return Some(cursor);
      }
      cursor := PrevDay(cursor);
    }
    return None;
  }

  /** `e` is `k` days before `d`, a session, and nothing in between is one. */
  ghost predicate FirstSession(d: Date, holidays: set<Date>, k: nat, e: Date) {
    && Back(d, k) == e && IsSessionDay(e, holidays)
    && forall j: nat :: j < k ==> !IsSessionDay(Back(d, j), holidays)
  }

  lemma {:induction false} PreviousFound(d: Date, holidays: set<Date>, tries: nat, e: Date) returns (k: nat)
    requires Previous(d, holidays, tries) == Some(e)
    ensures k < tries && FirstSession(d, holidays, k, e)
    decreases tries
  {
    hide WeekdayOf, PrevDay;
    if IsSessionDay(d, holidays) {
      k := 0;
    } else {
      var less := PreviousFound(PrevDay(d), holidays, tries - 1, e);
      k := less + 1;
      forall j: nat | j < k
        ensures !IsSessionDay(Back(d, j), holidays)
      {
        if j > 0 {
          assert Back(d, j) == Back(PrevDay(d), j - 1);
        }
      }
    }
  }

  lemma {:induction false} PreviousIs(d: Date, holidays: set<Date>, tries: nat, k: nat, e: Date)
    requires k < tries && FirstSession(d, holidays, k, e)
    ensures Previous(d, holidays, tries) == Some(e)
    decreases k
  {
    hide WeekdayOf, PrevDay;
    if k > 0 {
      assert !IsSessionDay(Back(d, 0), holidays);
      forall j: nat | j < k - 1
        ensures !IsSessionDay(Back(PrevDay(d), j), holidays)
      {
        assert Back(d, j + 1) == Back(PrevDay(d), j);
      }
      PreviousIs(PrevDay(d), holidays, tries - 1, k - 1, e);
    }
  }

  lemma {:induction false} BackAgain(d: Date, a: nat, b: nat)
    ensures Back(Back(d, a), b) == Back(d, a + b)
    decreases a
  {
    if a > 0 {
      BackAgain(PrevDay(d), a - 1, b);
    }
  }

  lemma {:induction false} BackInMonth(d: Date, k: nat)
    requires k < d.day
    ensures Back(d, k) == Earlier(d, k)
    decreases k
  {
    if k > 0 {
      BackInMonth(PrevDay(d), k - 1);
    }
  }

  /** Less than a month before a date past its month's start is a date of the month before. */
  lemma BackOverMonth(d: Date, k: nat)
    requires d.day <= k < d.day + 28
    ensures FirstOfNext(Back(d, k)) == YearMonthDay(d.year, d.month, 1)
  {
    BackAgain(d, d.day - 1, 1);
    BackInMonth(d, d.day - 1);
    var last := PrevDay(Earlier(d, d.day - 1));
    assert Back(d, d.day) == Back(Back(d, d.day - 1), 1) == last;
    BackAgain(d, d.day, k - d.day);
    BackInMonth(last, k - d.day);
  }

  lemma DayLess(a: Weekday, b: Weekday)
    requires a != b
    ensures ((a + 6) % 7 - b) % 7 == (a - b) % 7 - 1
  {
  }

  /** The latest date on or before `d` that falls on the weekday. */
  function OnWeekday(d: Date, weekday: Weekday): (r: Date)
    decreases (WeekdayOf(d) - weekday) % 7
  {
    WeekdayPrev(d);
    if WeekdayOf(d) == weekday then d
    else
      DayLess(WeekdayOf(d), weekday);
      OnWeekday(PrevDay(d), weekday)
  }

  function LastOfMonth(year: int, month: int): Date
    requires 1 <= month <= 12
  {
    YearMonthDay(year, month, DaysIn(year, month))
  }

  function LastWeekdayOfMonth(year: int, month: int, weekday: Weekday): Date
    requires 1 <= month <= 12
  {
    OnWeekday(LastOfMonth(year, month), weekday)
  }

  method LastWeekday(year: int, month: int, weekday: Weekday) returns (cursor: Date)
    requires 1 <= month <= 12
    ensures cursor == LastWeekdayOfMonth(year, month, weekday)
  {
    hide WeekdayOf;
    cursor := PrevDay(FirstOfNext(YearMonthDay(year, month, 1)));
    assert cursor == LastOfMonth(year, month);
    while WeekdayOf(cursor) != weekday
      invariant OnWeekday(cursor, weekday) == LastWeekdayOfMonth(year, month, weekday)
      decreases (WeekdayOf(cursor) - weekday) % 7
    {
      WeekdayPrev(cursor);
      DayLess(WeekdayOf(cursor), weekday);
      cursor := PrevDay(cursor);
    }
  }

  lemma {:induction false} OnWeekdayIs(d: Date, weekday: Weekday)
    requires (WeekdayOf(d) - weekday) % 7 < d.day
    ensures OnWeekday(d, weekday) == Earlier(d, (WeekdayOf(d) - weekday) % 7)
    ensures WeekdayOf(OnWeekday(d, weekday)) == weekday
    decreases d.day
  {
    hide WeekdayOf;
    WeekdayPrev(d);
    if WeekdayOf(d) != weekday {
      DayLess(WeekdayOf(d), weekday);
      OnWeekdayIs(PrevDay(d), weekday);
    }
  }

  // The calendar of one underlying.

  datatype Schedule = Schedule(symbol: string, weekly: Option<Weekday>, monthly: Option<Weekday>, activeFrom: Date,
                               activeTo: Option<Date>, holidays: Option<set<Date>>)

  datatype Calendar = Calendar(holidays: set<Date>, supported: set<int>)

  function InYear(days: set<Date>, year: int): set<Date> { set d <- days | d.year == year }

  /** A schedule may bring its own holidays; either way only those of the year that is asked for count. */
  function HolidaysOf(c: Calendar, s: Schedule, year: int): set<Date> {
    if year !in c.supported then {}
    else InYear(if s.holidays.Some? then s.holidays.value else c.holidays, year)
  }

  function MonthlyDate(c: Calendar, s: Schedule, year: int, month: int): Option<Date>
    requires 1 <= month <= 12
  {
    if s.monthly.None? || year !in c.supported then None
    else
      var raw := LastWeekdayOfMonth(year, month, s.monthly.value);
      if raw.year !in c.supported then None
      else
        match PreviousSessionDay(raw, HolidaysOf(c, s, year))
        case None => None
        case Some(adjusted) => if adjusted.year in c.supported then Some(adjusted) else None
  }

  function AdjacentMonths(d: Date): seq<(int, int)> {
    [if d.month > 1 then (d.year, d.month - 1) else (d.year - 1, 12), (d.year, d.month),
     if d.month < 12 then (d.year, d.month + 1) else (d.year + 1, 1)]
  }

  /** The adjusted date of one candidate day, if it is one. */
  function WeeklyOf(c: Calendar, s: Schedule, weekday: Weekday, cursor: Date): Option<Date> {
    if WeekdayOf(cursor) != weekday || cursor.year !in c.supported then None
    else
      match PreviousSessionDay(cursor, HolidaysOf(c, s, cursor.year))
      case None => None
      case Some(adjusted) => if adjusted.year in c.supported then Some(adjusted) else None
  }

  function WindowStart(d: Date): Date { Back(YearMonthDay(d.year, d.month, 1), 7) }

  function WindowEnd(d: Date): Date { Forward(FirstOfNext(d), 7) }

  datatype Class = Weekly | Monthly

  ghost predicate InMonthlies(c: Calendar, s: Schedule, e: Date) {
    exists ym <- AdjacentMonths(e) :: MonthlyDate(c, s, ym.0, ym.1) == Some(e)
  }

  /** One of the `n` days from `start` has the adjusted date `e`. */
  ghost predicate WeeklyWithin(c: Calendar, s: Schedule, weekday: Weekday, start: Date, n: int, e: Date) {
    exists i: nat :: i < n && WeeklyOf(c, s, weekday, Forward(start, i)) == Some(e)
  }

  ghost predicate InWeeklies(c: Calendar, s: Schedule, weekday: Weekday, e: Date) {
    WeeklyWithin(c, s, weekday, WindowStart(e), Ordinal(WindowEnd(e)) - Ordinal(WindowStart(e)), e)
  }

  ghost function CalendarClass(c: Calendar, s: Schedule, e: Date): Option<Class> {
    if e.year !in c.supported then None
    else if InMonthlies(c, s, e) then Some(Monthly)
    else if s.weekly.None? then None
    else if InWeeklies(c, s, s.weekly.value, e) then Some(Weekly)
    else None
  }

  // The scans of the classifier.

  method Monthlies(c: Calendar, s: Schedule, e: Date) returns (found: set<Date>)
    ensures e in found <==> InMonthlies(c, s, e)
  {
    hide MonthlyDate;
    found := {};
    var months := AdjacentMonths(e);
    for i := 0 to |months|
      invariant e in found <==> exists j :: 0 <= j < i && MonthlyDate(c, s, months[j].0, months[j].1) == Some(e)
    {
      var marked := MonthlyDate(c, s, months[i].0, months[i].1);
      if marked.Some? {
        found := found + {marked.value};
      }
    }
  }

  lemma {:induction false} OrdinalForward(d: Date, i: nat)
    ensures Ordinal(Forward(d, i)) == Ordinal(d) + i
    decreases i
  {
    hide Ordinal, NextDay;
    if i > 0 {
      OrdinalForward(NextDay(d), i - 1);
      PrevOfNext(d);
      OrdinalPrev(NextDay(d));
    }
  }

  lemma {:induction false} ForwardOne(d: Date, i: nat)
    ensures Forward(d, i + 1) == NextDay(Forward(d, i))
    decreases i
  {
    hide NextDay;
    if i > 0 {
      ForwardOne(NextDay(d), i - 1);
    }
  }

  method Weeklies(c: Calendar, s: Schedule, weekday: Weekday, around: Date) returns (found: set<Date>)
    ensures around in found <==> InWeeklies(c, s, weekday, around)
  {
    hide WeeklyOf, Ordinal, NextDay, Forward, Back;
    var start, end := WindowStart(around), WindowEnd(around);
    var cursor := start;
    found := {};
    ghost var i: nat := 0;
    assert Forward(start, 0) == start by { ForwardZero(start); }
    while Ordinal(cursor) < Ordinal(end)
      invariant cursor == Forward(start, i) && Ordinal(cursor) == Ordinal(start) + i
      invariant i == 0 || i <= Ordinal(end) - Ordinal(start)
      invariant around in found <==> WeeklyWithin(c, s, weekday, start, i, around)
      decreases Ordinal(end) - Ordinal(cursor)
    {
      var adjusted := WeeklyOf(c, s, weekday, cursor);
      if adjusted.Some? {
        found := found + {adjusted.value};
      }
      ForwardOne(start, i);
      OrdinalForward(start, i + 1);
      cursor := NextDay(cursor);
      i := i + 1;
    }
  }

  lemma ForwardZero(d: Date)
    ensures Forward(d, 0) == d
  {
  }

  method Classify(c: Calendar, s: Schedule, expiry: Date) returns (klass: Option<Class>)
    ensures klass == CalendarClass(c, s, expiry)
  {
    hide InMonthlies, InWeeklies;
    if expiry.year !in c.supported {
      return None;
    }
    var monthlies := Monthlies(c, s, expiry);
    if expiry in monthlies {
      return Some(Monthly);
    }
    if s.weekly.None? {
      return None;
    }
    var weeklies := Weeklies(c, s, s.weekly.value, expiry);
    if expiry in weeklies - monthlies {
      return Some(Weekly);
    }
    return None;
  }

  // What the scans amount to.

  /** A monthly expiry lies in its own month: it is at most 13 days before a day that is 22 or later. */
  lemma MonthlyInMonth(c: Calendar, s: Schedule, year: int, month: int, e: Date)
    requires 1 <= month <= 12 && MonthlyDate(c, s, year, month) == Some(e)
    ensures e.year == year && e.month == month
  {
    hide WeekdayOf, OnWeekday, Back, PrevDay;
    var last := LastOfMonth(year, month);
    OnWeekdayIs(last, s.monthly.value);
    var raw := LastWeekdayOfMonth(year, month, s.monthly.value);
    var k := PreviousFound(raw, HolidaysOf(c, s, year), LOOK_BACK, e);
    BackInMonth(raw, k);
  }

  /** The neighbouring months that are scanned never contribute. */
  lemma OnlyOwnMonth(c: Calendar, s: Schedule, e: Date)
    ensures InMonthlies(c, s, e) <==> MonthlyDate(c, s, e.year, e.month) == Some(e)
  {
    hide MonthlyDate;
    var months := AdjacentMonths(e);
    assert months[1] == (e.year, e.month) && months[1] in months;
    if InMonthlies(c, s, e) {
      var ym :| ym in months && MonthlyDate(c, s, ym.0, ym.1) == Some(e);
      MonthlyInMonth(c, s, ym.0, ym.1, e);
    }
  }

  lemma {:induction false} ForwardInMonth(d: Date, k: nat)
    requires d.day + k <= DaysIn(d.year, d.month)
    ensures Forward(d, k) == YearMonthDay(d.year, d.month, d.day + k)
    decreases k
  {
    if k > 0 {
      ForwardInMonth(NextDay(d), k - 1);
    }
  }

  lemma {:induction false} ForwardAgain(d: Date, a: nat, b: nat)
    ensures Forward(Forward(d, a), b) == Forward(d, a + b)
    decreases a
  {
    hide NextDay;
    if a > 0 {
      ForwardAgain(NextDay(d), a - 1, b);
    }
  }

  lemma {:induction false} ForwardOfBack(d: Date, k: nat)
    ensures Forward(Back(d, k), k) == d
    decreases k
  {
    hide NextDay, PrevDay;
    if k > 0 {
      ForwardOfBack(PrevDay(d), k - 1);
      ForwardOne(Back(d, k), k - 1);
      PrevOfNext(d);
    }
  }

  /** The window runs from a week before the month to a week into the next one. */
  lemma WindowCovers(e: Date, c: Date)
    requires (c.year == e.year && c.month == e.month)
             || (YearMonthDay(c.year, c.month, 1) == FirstOfNext(e) && c.day <= 7)
    ensures exists i: nat :: i < Ordinal(WindowEnd(e)) - Ordinal(WindowStart(e)) && Forward(WindowStart(e), i) == c
  {
    hide Ordinal, Back, Forward, NextDay;
    var first, days, next := YearMonthDay(e.year, e.month, 1), DaysIn(e.year, e.month), FirstOfNext(e);
    ForwardOfBack(first, 7);
    ForwardInMonth(first, days - 1);
    ForwardOne(first, days - 1);
    NextOfLast(e);
    ForwardAgain(WindowStart(e), 7, days);
    ForwardAgain(WindowStart(e), 7 + days, 7);
    OrdinalForward(WindowStart(e), 14 + days);
    if c.month == e.month && c.year == e.year {
      ForwardInMonth(first, c.day - 1);
      ForwardAgain(WindowStart(e), 7, c.day - 1);
      assert Forward(WindowStart(e), 7 + (c.day - 1)) == c;
    } else {
      ForwardInMonth(next, c.day - 1);
      ForwardAgain(WindowStart(e), 7 + days, c.day - 1);
      assert Forward(WindowStart(e), 7 + days + (c.day - 1)) == c;
    }
  }

  lemma NextOfLast(e: Date)
    ensures NextDay(YearMonthDay(e.year, e.month, DaysIn(e.year, e.month))) == FirstOfNext(e)
  {
  }

  /** A week earlier in the same month is the same weekday under the same holidays, and moves back to the same
      session. */
  lemma WeekEarlier(c: Calendar, s: Schedule, weekday: Weekday, cursor: Date, e: Date, k: nat)
    requires WeeklyOf(c, s, weekday, cursor) == Some(e) && 7 < cursor.day <= k < LOOK_BACK
    requires FirstSession(cursor, HolidaysOf(c, s, cursor.year), k, e)
    ensures WeeklyOf(c, s, weekday, Earlier(cursor, 7)) == Some(e)
  {
    hide Ordinal, Back, IsSessionDay, HolidaysOf;
    var early, holidays := Earlier(cursor, 7), HolidaysOf(c, s, cursor.year);
    OrdinalEarlier(cursor, 7);
    BackInMonth(cursor, 7);
    forall j: nat
      ensures Back(early, j) == Back(cursor, j + 7)
    {
      BackAgain(cursor, 7, j);
    }
    assert FirstSession(early, holidays, k - 7, e);
    PreviousIs(early, holidays, LOOK_BACK, k - 7, e);
  }

  /** Whatever candidate day moves back to `e`, one inside the window does. */
  lemma WindowSuffices(c: Calendar, s: Schedule, weekday: Weekday, cursor: Date, e: Date)
    requires WeeklyOf(c, s, weekday, cursor) == Some(e)
    ensures InWeeklies(c, s, weekday, e)
  {
    hide WeekdayOf, Ordinal, Back, Forward, IsSessionDay;
    var k := PreviousFound(cursor, HolidaysOf(c, s, cursor.year), LOOK_BACK, e);
    var near := cursor;
    if k < cursor.day {
      BackInMonth(cursor, k);
    } else {
      BackOverMonth(cursor, k);
      if cursor.day > 7 {
        WeekEarlier(c, s, weekday, cursor, e, k);
        near := Earlier(cursor, 7);
      }
    }
    hide WeeklyOf;
    WindowCovers(e, near);
    var i: nat :| i < Ordinal(WindowEnd(e)) - Ordinal(WindowStart(e)) && Forward(WindowStart(e), i) == near;
  }

  /** Scan completeness. A date of a supported year is MONTHLY exactly when it is the session its own month's last
      monthly weekday moves back to, and WEEKLY exactly when it is not MONTHLY and some weekly weekday of a supported
      year, anywhere in the calendar, moves back to it. No assumption on the holidays is needed. */
  lemma CalendarClassMeaning(c: Calendar, s: Schedule, e: Date)
    requires e.year in c.supported
    ensures CalendarClass(c, s, e) == Some(Monthly) <==> MonthlyDate(c, s, e.year, e.month) == Some(e)
    ensures CalendarClass(c, s, e) == Some(Weekly) <==>
            && CalendarClass(c, s, e) != Some(Monthly)
            && s.weekly.Some?
            && exists cursor: Date :: WeeklyOf(c, s, s.weekly.value, cursor) == Some(e)
  {
    hide WeeklyOf, MonthlyDate, Forward, Ordinal, InMonthlies;
    OnlyOwnMonth(c, s, e);
    if s.weekly.Some? && exists cursor: Date :: WeeklyOf(c, s, s.weekly.value, cursor) == Some(e) {
      var cursor: Date :| WeeklyOf(c, s, s.weekly.value, cursor) == Some(e);
      WindowSuffices(c, s, s.weekly.value, cursor, e);
    }
  }

  /** A monthly expiry is the last session on or before the last monthly weekday of its month. */
  lemma MonthlyDateMeaning(c: Calendar, s: Schedule, year: int, month: int, e: Date)
    requires 1 <= month <= 12 && s.monthly.Some? && MonthlyDate(c, s, year, month) == Some(e)
    ensures exists raw: Date, k: nat ::
              && raw.year == year && raw.month == month && WeekdayOf(raw) == s.monthly.value
              && raw.day + 7 > DaysIn(year, month)
              && FirstSession(raw, HolidaysOf(c, s, year), k, e)
  {
    hide WeekdayOf, OnWeekday, Back, PrevDay, FirstSession;
    var last := LastOfMonth(year, month);
    OnWeekdayIs(last, s.monthly.value);
    var raw := LastWeekdayOfMonth(year, month, s.monthly.value);
    var k := PreviousFound(raw, HolidaysOf(c, s, year), LOOK_BACK, e);
    assert FirstSession(raw, HolidaysOf(c, s, year), k, e);
  }

  // The sessions themselves.

  /** The search goes back from the day itself over fourteen days and stops at the first session. */
  lemma PreviousSessionMeans(d: Date, holidays: set<Date>, e: Date)
    ensures PreviousSessionDay(d, holidays) == Some(e) <==> exists k: nat :: k < 14 && FirstSession(d, holidays, k, e)
  {
    hide FirstSession;
    if PreviousSessionDay(d, holidays) == Some(e) {
      var k := PreviousFound(d, holidays, LOOK_BACK, e);
    }
    if exists k: nat :: k < 14 && FirstSession(d, holidays, k, e) {
      var k: nat :| k < 14 && FirstSession(d, holidays, k, e);
      PreviousIs(d, holidays, LOOK_BACK, k, e);
    }
  }

  /** The week from Monday 5 to Sunday 11 January 2026: five sessions, unless they are holidays, and a weekend. */
  lemma SessionsOfAWeek(day: int, holidays: set<Date>)
    requires 5 <= day <= 11
    ensures WeekdayOf(YearMonthDay(2026, 1, day)) == day - 5
    ensures IsSessionDay(YearMonthDay(2026, 1, day), holidays) <==>
            day <= 9 && YearMonthDay(2026, 1, day) !in holidays
  {
    hide WeekdayOf;
    WeekdaysOf2026(day);
  }

  /** What counts as a holiday of a year: the schedule's own list, if it has one, else the calendar's; of that year
      only, and nothing in a year without a calendar. */
  lemma HolidaysMeaning(c: Calendar, s: Schedule, year: int, d: Date)
    ensures d in HolidaysOf(c, s, year) <==>
            && year in c.supported && d.year == year
            && ((s.holidays.None? && d in c.holidays) || (s.holidays.Some? && d in s.holidays.value))
  {
  }

  /** A weekly date is never moved past a session: before a session only the day itself moves back to it. */
  lemma OnlyItself(c: Calendar, s: Schedule, weekday: Weekday, cursor: Date, e: Date, next: Date)
    requires WeeklyOf(c, s, weekday, cursor) == Some(e)
    requires PrevDay(next) == e && forall year <- c.supported :: IsSessionDay(next, HolidaysOf(c, s, year))
    ensures cursor == e
  {
    hide WeekdayOf, PrevDay, Back, HolidaysOf, IsSessionDay;
    var holidays := HolidaysOf(c, s, cursor.year);
    var k := PreviousFound(cursor, holidays, LOOK_BACK, e);
    if k > 0 {
      BackAgain(cursor, k - 1, 1);
      BackOne(Back(cursor, k - 1));
      PrevOnce(Back(cursor, k - 1), next);
      assert false;
    } else {
      BackNone(cursor);
    }
  }

  lemma BackOne(d: Date)
    ensures Back(d, 1) == PrevDay(d)
  {
    assert Back(PrevDay(d), 0) == PrevDay(d);
  }

  lemma BackNone(d: Date)
    ensures Back(d, 0) == d
  {
  }

  lemma PrevOnce(a: Date, b: Date)
    requires PrevDay(a) == PrevDay(b)
    ensures a == b
  {
    PrevOfNext(a);
    PrevOfNext(b);
  }

  // The year 2026 on the exchange's own list.

  const TUESDAY: Weekday := 1

  const HOLIDAYS_2026: set<Date> := {
    YearMonthDay(2026, 1, 26), YearMonthDay(2026, 3, 3), YearMonthDay(2026, 3, 26), YearMonthDay(2026, 3, 31),
    YearMonthDay(2026, 4, 3), YearMonthDay(2026, 4, 14), YearMonthDay(2026, 5, 1), YearMonthDay(2026, 5, 28),
    YearMonthDay(2026, 6, 26), YearMonthDay(2026, 9, 14), YearMonthDay(2026, 10, 2), YearMonthDay(2026, 10, 20),
    YearMonthDay(2026, 11, 10), YearMonthDay(2026, 11, 24), YearMonthDay(2026, 12, 25)
  }

  const YEAR_2026 := Calendar(HOLIDAYS_2026, {2026})

  const NIFTY := Schedule("NIFTY", Some(TUESDAY), Some(TUESDAY), YearMonthDay(2019, 1, 1), None, None)

  lemma ItselfASession(d: Date)
    requires d.year == 2026 && WeekdayOf(d) < 5 && d !in HOLIDAYS_2026
    ensures PreviousSessionDay(d, HolidaysOf(YEAR_2026, NIFTY, 2026)) == Some(d)
  {
    hide WeekdayOf;
  }

  lemma DayBefore(d: Date)
    requires d.year == 2026 && d in HOLIDAYS_2026
    requires PrevDay(d).year == 2026 && WeekdayOf(PrevDay(d)) < 5 && PrevDay(d) !in HOLIDAYS_2026
    ensures PreviousSessionDay(d, HolidaysOf(YEAR_2026, NIFTY, 2026)) == Some(PrevDay(d))
  {
    hide WeekdayOf, PrevDay;
    assert Previous(PrevDay(d), HolidaysOf(YEAR_2026, NIFTY, 2026), 13) == Some(PrevDay(d));
  }

  lemma MonthlyOfJanuary()
    ensures MonthlyDate(YEAR_2026, NIFTY, 2026, 1) == Some(YearMonthDay(2026, 1, 27))
  {
    hide OnWeekday, WeekdayOf, PreviousSessionDay, HolidaysOf;
    WeekdaysOf2026(31);
    WeekdaysOf2026(27);
    OnWeekdayIs(YearMonthDay(2026, 1, 31), TUESDAY);
    ItselfASession(YearMonthDay(2026, 1, 27));
  }

  lemma MonthlyOfMarch()
    ensures MonthlyDate(YEAR_2026, NIFTY, 2026, 3) == Some(YearMonthDay(2026, 3, 30))
  {
    hide OnWeekday, WeekdayOf, PreviousSessionDay, HolidaysOf;
    WeekdaysOf2026(31);
    WeekdaysOf2026(30);
    OnWeekdayIs(YearMonthDay(2026, 3, 31), TUESDAY);
    DayBefore(YearMonthDay(2026, 3, 31));
  }

  /** Real expiries: on NIFTY's schedule 27 January 2026 is the monthly one, the 20th a weekly one and the 28th none;
      with 31 March a holiday the monthly one is the 30th, and with 3 March a holiday the 2nd is a weekly one. */
  lemma Expiries2026()
    ensures CalendarClass(YEAR_2026, NIFTY, YearMonthDay(2026, 1, 27)) == Some(Monthly)
    ensures CalendarClass(YEAR_2026, NIFTY, YearMonthDay(2026, 1, 20)) == Some(Weekly)
    ensures CalendarClass(YEAR_2026, NIFTY, YearMonthDay(2026, 1, 28)) == None
    ensures CalendarClass(YEAR_2026, NIFTY, YearMonthDay(2026, 3, 30)) == Some(Monthly)
    ensures CalendarClass(YEAR_2026, NIFTY, YearMonthDay(2026, 3, 31)) == None
    ensures CalendarClass(YEAR_2026, NIFTY, YearMonthDay(2026, 3, 2)) == Some(Weekly)
  {
    hide CalendarClass, MonthlyDate, WeeklyOf;
    MonthlyOfJanuary();
    MonthlyOfMarch();
    WeekliesOf2026();
    forall cursor: Date
      ensures WeeklyOf(YEAR_2026, NIFTY, TUESDAY, cursor) != Some(YearMonthDay(2026, 1, 28))
      ensures WeeklyOf(YEAR_2026, NIFTY, TUESDAY, cursor) != Some(YearMonthDay(2026, 3, 31))
    {
      NotOnWednesday(cursor);
      NotOnAHoliday(cursor);
    }
    CalendarClassMeaning(YEAR_2026, NIFTY, YearMonthDay(2026, 1, 27));
    CalendarClassMeaning(YEAR_2026, NIFTY, YearMonthDay(2026, 1, 20));
    CalendarClassMeaning(YEAR_2026, NIFTY, YearMonthDay(2026, 1, 28));
    NeitherClass(CalendarClass(YEAR_2026, NIFTY, YearMonthDay(2026, 1, 28)));
    CalendarClassMeaning(YEAR_2026, NIFTY, YearMonthDay(2026, 3, 30));
    CalendarClassMeaning(YEAR_2026, NIFTY, YearMonthDay(2026, 3, 31));
    NeitherClass(CalendarClass(YEAR_2026, NIFTY, YearMonthDay(2026, 3, 31)));
    CalendarClassMeaning(YEAR_2026, NIFTY, YearMonthDay(2026, 3, 2));
  }

  lemma NeitherClass(klass: Option<Class>)
    ensures klass == None || klass == Some(Weekly) || klass == Some(Monthly)
  {
    if klass.Some? && klass.value.Weekly? {
    }
  }

  lemma WeekliesOf2026()
    ensures WeeklyOf(YEAR_2026, NIFTY, TUESDAY, YearMonthDay(2026, 1, 20)) == Some(YearMonthDay(2026, 1, 20))
    ensures WeeklyOf(YEAR_2026, NIFTY, TUESDAY, YearMonthDay(2026, 3, 3)) == Some(YearMonthDay(2026, 3, 2))
  {
    hide WeekdayOf, PreviousSessionDay, HolidaysOf;
    WeekdaysOf2026(20);
    WeekdaysOf2026(3);
    WeekdaysOf2026(2);
    ItselfASession(YearMonthDay(2026, 1, 20));
    DayBefore(YearMonthDay(2026, 3, 3));
  }

  lemma NotOnWednesday(cursor: Date)
    ensures WeeklyOf(YEAR_2026, NIFTY, TUESDAY, cursor) != Some(YearMonthDay(2026, 1, 28))
  {
    hide WeekdayOf, PreviousSessionDay;
    var e, next := YearMonthDay(2026, 1, 28), YearMonthDay(2026, 1, 29);
    WeekdaysOf2026(28);
    WeekdaysOf2026(29);
    if WeeklyOf(YEAR_2026, NIFTY, TUESDAY, cursor) == Some(e) {
      OnlyItself(YEAR_2026, NIFTY, TUESDAY, cursor, e, next);
      assert false;
    }
  }

  lemma NotOnAHoliday(cursor: Date)
    ensures WeeklyOf(YEAR_2026, NIFTY, TUESDAY, cursor) != Some(YearMonthDay(2026, 3, 31))
  {
    hide WeekdayOf, Previous, Back;
    if WeeklyOf(YEAR_2026, NIFTY, TUESDAY, cursor) == Some(YearMonthDay(2026, 3, 31)) {
      var k := PreviousFound(cursor, HolidaysOf(YEAR_2026, NIFTY, cursor.year), LOOK_BACK, YearMonthDay(2026, 3, 31));
      assert false;
    }
  }
}
