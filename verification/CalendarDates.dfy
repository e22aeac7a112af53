/** Dates of the proleptic Gregorian calendar, one day at a time. */
module CalendarDates {
  datatype YearMonthDay = YearMonthDay(year: int, month: int, day: int)

  predicate Leap(year: int) { year % 4 == 0 && (year % 100 != 0 || year % 400 == 0) }

  function DaysIn(year: int, month: int): (n: int)
    ensures 28 <= n <= 31
  {
    if month == 2 then (if Leap(year) then 29 else 28)
    else if month == 4 || month == 6 || month == 9 || month == 11 then 30
    else 31
  }

  predicate IsDate(d: YearMonthDay) { 1 <= d.month <= 12 && 1 <= d.day <= DaysIn(d.year, d.month) }

  type Date = d: YearMonthDay | IsDate(d) witness YearMonthDay(2026, 1, 1)

  function PrevDay(d: Date): Date {
    if d.day > 1 then YearMonthDay(d.year, d.month, d.day - 1)
    else if d.month > 1 then YearMonthDay(d.year, d.month - 1, DaysIn(d.year, d.month - 1))
    else YearMonthDay(d.year - 1, 12, 31)
  }

  function NextDay(d: Date): Date {
    if d.day < DaysIn(d.year, d.month) then YearMonthDay(d.year, d.month, d.day + 1)
    else FirstOfNext(d)
  }

  function FirstOfNext(d: Date): Date {
    if d.month == 12 then YearMonthDay(d.year + 1, 1, 1) else YearMonthDay(d.year, d.month + 1, 1)
  }

  lemma PrevOfNext(d: Date)
    ensures PrevDay(NextDay(d)) == d && NextDay(PrevDay(d)) == d
  {
  }

  function DaysBeforeMonth(year: int, month: int): int
    requires 1 <= month <= 12
    decreases month
  {
    if month == 1 then 0 else DaysBeforeMonth(year, month - 1) + DaysIn(year, month - 1)
  }

  /** `date.toordinal` */
  function Ordinal(d: Date): int {
    YearStart(d.year) + DaysBeforeMonth(d.year, d.month) + d.day
  }

  function YearStart(year: int): int { 365 * (year - 1) + LeapsBefore(year) }

  function LeapsBefore(year: int): int {
    var y := year - 1;
    y / 4 - y / 100 + y / 400
  }

  lemma Multiples(y: int)
    ensures y % 400 == 0 ==> y % 100 == 0
    ensures y % 100 == 0 ==> y % 4 == 0
  {
    Hundreds(4 * (y / 400));
    Fours(25 * (y / 100));
  }

  lemma Hundreds(k: int)
    ensures 100 * k % 100 == 0
  {
  }

  lemma Fours(k: int)
    ensures 4 * k % 4 == 0
  {
  }

  lemma Quarter(y: int)
    ensures y / 4 == (y - 1) / 4 + if y % 4 == 0 then 1 else 0
  {
  }

  lemma Century(y: int)
    ensures y / 100 == (y - 1) / 100 + if y % 100 == 0 then 1 else 0
  {
  }

  lemma FourCenturies(y: int)
    ensures y / 400 == (y - 1) / 400 + if y % 400 == 0 then 1 else 0
  {
  }

  lemma LeapDays(year: int)
    ensures LeapsBefore(year + 1) == LeapsBefore(year) + if Leap(year) then 1 else 0
  {
    Multiples(year);
    Quarter(year);
    Century(year);
    FourCenturies(year);
  }

  lemma YearLength(year: int)
    ensures DaysBeforeMonth(year, 12) == if Leap(year) then 335 else 334
  {
    assert DaysBeforeMonth(year, 4) == if Leap(year) then 91 else 90;
    assert DaysBeforeMonth(year, 8) == DaysBeforeMonth(year, 4) + 122;
  }

  /** The ordinal counts days. */
  lemma OrdinalPrev(d: Date)
    ensures Ordinal(PrevDay(d)) == Ordinal(d) - 1
  {
    hide LeapsBefore, Leap;
    if d.day == 1 && d.month == 1 {
      YearLength(d.year - 1);
      LeapDays(d.year - 1);
    }
  }

  type Weekday = n: int | 0 <= n < 7

  /** Monday is 0. */
  function WeekdayOf(d: Date): Weekday { (Ordinal(d) + 6) % 7 }

  lemma WeekdayPrev(d: Date)
    ensures WeekdayOf(PrevDay(d)) == (WeekdayOf(d) + 6) % 7
  {
    hide Ordinal;
    OrdinalPrev(d);
  }

  lemma LeapYears()
    ensures LeapsBefore(1) == 0 && LeapsBefore(2024) == 490 && LeapsBefore(2026) == 491
  {
  }

  lemma MonthsBefore(year: int)
    ensures DaysBeforeMonth(year, 1) == 0 && DaysBeforeMonth(year, 3) == if Leap(year) then 60 else 59
  {
    assert DaysBeforeMonth(year, 2) == 31;
  }

  /** A fixed point: the first day of the calendar is day 1. With the step of one day it fixes every ordinal. */
  lemma FirstDay()
    ensures Ordinal(YearMonthDay(1, 1, 1)) == 1
  {
    hide LeapsBefore, DaysBeforeMonth;
    LeapYears();
    MonthsBefore(1);
  }

  /** Another: 1 January 2024 was a Monday. With the step of one day it fixes every weekday. */
  lemma MondayIn2024()
    ensures WeekdayOf(YearMonthDay(2024, 1, 1)) == 0
  {
    hide LeapsBefore, DaysBeforeMonth;
    LeapYears();
    MonthsBefore(2024);
  }

  /** 5 January and 2 March 2026 are Mondays. */
  lemma WeekdaysOf2026(day: int)
    requires 1 <= day <= 31
    ensures WeekdayOf(YearMonthDay(2026, 1, day)) == (day - 5) % 7
    ensures WeekdayOf(YearMonthDay(2026, 3, day)) == (day - 2) % 7
  {
    hide LeapsBefore, DaysBeforeMonth;
    LeapYears();
    MonthsBefore(2026);
    assert !Leap(2026);
  }

  /** The months start where they do. */
  lemma MonthStarts(year: int)
    ensures DaysBeforeMonth(year, 1) == 0 && DaysBeforeMonth(year, 2) == 31
    ensures var leap := if year % 4 == 0 && (year % 100 != 0 || year % 400 == 0) then 1 else 0;
            && DaysBeforeMonth(year, 3) == 59 + leap && DaysBeforeMonth(year, 4) == 90 + leap
            && DaysBeforeMonth(year, 5) == 120 + leap && DaysBeforeMonth(year, 6) == 151 + leap
            && DaysBeforeMonth(year, 7) == 181 + leap && DaysBeforeMonth(year, 8) == 212 + leap
            && DaysBeforeMonth(year, 9) == 243 + leap && DaysBeforeMonth(year, 10) == 273 + leap
            && DaysBeforeMonth(year, 11) == 304 + leap && DaysBeforeMonth(year, 12) == 334 + leap
  {
  }

  /** By year, then month, then day. */
  predicate Before(a: Date, b: Date) {
    a.year < b.year || (a.year == b.year && (a.month < b.month || (a.month == b.month && a.day < b.day)))
  }

  lemma {:induction false} MonthsAddUp(year: int, a: int, b: int)
    requires 1 <= a < b <= 12
    ensures DaysBeforeMonth(year, a) + DaysIn(year, a) <= DaysBeforeMonth(year, b)
    decreases b
  {
    hide DaysIn;
    if a < b - 1 {
      MonthsAddUp(year, a, b - 1);
    }
  }

  lemma {:induction false} YearsAddUp(a: int, b: int)
    requires a < b
    ensures YearStart(a) + 365 + (if Leap(a) then 1 else 0) <= YearStart(b)
    decreases b - a
  {
    hide LeapsBefore, Leap;
    LeapDays(b - 1);
    if a < b - 1 {
      YearsAddUp(a, b - 1);
    }
  }

  /** Ordinals are in the order of the calendar. */
  lemma OrdinalOrder(a: Date, b: Date)
    ensures Ordinal(a) < Ordinal(b) <==> Before(a, b)
    ensures Ordinal(a) == Ordinal(b) <==> a == b
  {
    hide DaysBeforeMonth, YearStart, Leap;
    if Before(a, b) {
      Later(a, b);
    } else if Before(b, a) {
      Later(b, a);
    }
  }

  lemma Later(a: Date, b: Date)
    requires Before(a, b)
    ensures Ordinal(a) < Ordinal(b)
  {
    hide DaysBeforeMonth, YearStart, Leap, DaysIn;
    if a.year < b.year {
      YearsAddUp(a.year, b.year);
      YearLength(a.year);
      LastMonth(a);
      NoneBefore(b.year);
      if b.month > 1 {
        MonthsAddUp(b.year, 1, b.month);
      }
    } else if a.month < b.month {
      MonthsAddUp(a.year, a.month, b.month);
    }
  }

  lemma NoneBefore(year: int)
    ensures DaysBeforeMonth(year, 1) == 0 && DaysIn(year, 1) == 31 && DaysIn(year, 12) == 31
  {
  }

  lemma LastMonth(a: Date)
    ensures DaysBeforeMonth(a.year, a.month) + a.day <= DaysBeforeMonth(a.year, 12) + 31
  {
    hide DaysBeforeMonth;
    NoneBefore(a.year);
    if a.month < 12 {
      MonthsAddUp(a.year, a.month, 12);
    }
  }

  /** Earlier days of the same month, without stepping. */
  function Earlier(d: Date, k: nat): Date
    requires k < d.day
  {
    YearMonthDay(d.year, d.month, d.day - k)
  }

  lemma OrdinalEarlier(d: Date, k: nat)
    requires k < d.day
    ensures Ordinal(Earlier(d, k)) == Ordinal(d) - k
  {
    hide LeapsBefore, DaysBeforeMonth, YearStart;
  }
}
