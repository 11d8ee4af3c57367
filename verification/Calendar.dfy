/** The proleptic Gregorian calendar in UTC, and the date stepping schedules use. */
module Calendar {

  /** Nanoseconds since midnight. */
  type Clock = n: nat | n < 86_400_000_000_000

  /** An instant in UTC: the day, counted from 1 January of year 1, and the time of day. */
  datatype Time = Time(day: int, clock: Clock)

  predicate After(t: Time, u: Time) {
    t.day > u.day || (t.day == u.day && t.clock > u.clock)
  }

  const DAY: int := 86_400_000_000_000

  /** The order is that of the nanoseconds since the first day. */
  lemma AfterIsLater(t: Time, u: Time)
    ensures After(t, u) <==> t.day * DAY + t.clock > u.day * DAY + u.clock
  {
    if t.day > u.day {
      assert t.day * DAY >= u.day * DAY + DAY;
    } else if t.day < u.day {
      assert u.day * DAY >= t.day * DAY + DAY;
    }
  }

  datatype Date = Date(year: int, month: int, day: int)

  predicate Leap(y: int) {
    y % 4 == 0 && (y % 100 != 0 || y % 400 == 0)
  }

  function DaysIn(y: int, m: int): (n: int)
    ensures 28 <= n <= 31
  {
    if m == 2 then (if Leap(y) then 29 else 28)
    else if m == 4 || m == 6 || m == 9 || m == 11 then 30
    else 31
  }

  predicate Valid(d: Date) {
    1 <= d.month <= 12 && 1 <= d.day <= DaysIn(d.year, d.month)
  }

  function YearDays(y: int): (n: nat) {
    if Leap(y) then 366 else 365
  }

  /** Days from 1 January of year 1 to 1 January of year y. */
  function DaysBeforeYear(y: int): int
    decreases if y < 1 then 1 - y else y - 1
  {
    if y == 1 then 0
    else if y > 1 then DaysBeforeYear(y - 1) + YearDays(y - 1)
    else DaysBeforeYear(y + 1) - YearDays(y)
  }

  /** The calendar's years by arithmetic: 365 days each, and one more every 4 years, except every 100, and again
      every 400. */
  lemma {:induction false} YearsByArithmetic(y: int)
    ensures DaysBeforeYear(y) == 365 * (y - 1) + (y - 1) / 4 - (y - 1) / 100 + (y - 1) / 400
    decreases if y < 1 then 1 - y else y - 1
  {
    if y > 1 {
      YearsByArithmetic(y - 1);
      LeapDays(y - 1);
    } else if y < 1 {
      YearsByArithmetic(y + 1);
      LeapDays(y);
    }
  }

  lemma LeapDays(y: int)
    ensures y / 4 - y / 100 + y / 400 == (y - 1) / 4 - (y - 1) / 100 + (y - 1) / 400 + (if YearDays(y) == 366 then 1 else 0)
    ensures YearDays(y) in {365, 366}
  {
    assert y / 4 == (y - 1) / 4 + (if y % 4 == 0 then 1 else 0);
    assert y / 100 == (y - 1) / 100 + (if y % 100 == 0 then 1 else 0);
    assert y / 400 == (y - 1) / 400 + (if y % 400 == 0 then 1 else 0);
    assert y % 400 == 0 ==> y % 100 == 0;
    assert y % 100 == 0 ==> y % 4 == 0;
  }

  /** The calendar repeats every 400 years, after 146097 days. */
  lemma FourCenturies(y: int)
    ensures DaysBeforeYear(y + 400) == DaysBeforeYear(y) + 146_097
  {
    hide DaysBeforeYear;
    YearsByArithmetic(y);
    YearsByArithmetic(y + 400);
    assert (y + 399) / 4 == (y - 1) / 4 + 100;
    assert (y + 399) / 100 == (y - 1) / 100 + 4;
    assert (y + 399) / 400 == (y - 1) / 400 + 1;
  }

  /** The days before each month of a year, in a common year and in a leap year. */
  lemma MonthTable(y: int, m: nat)
    requires 1 <= m <= 13
    ensures DaysBeforeMonth(y, m) ==
              [0, 31, 59, 90, 120, 151, 181, 212, 243, 273, 304, 334, 365][m - 1] + if m > 2 && YearDays(y) == 366 then 1 else 0
  {
    assert DaysBeforeMonth(y, 2) == 31 && DaysBeforeMonth(y, 3) == 31 + DaysIn(y, 2);
    assert DaysBeforeMonth(y, 5) == DaysBeforeMonth(y, 3) + 61 && DaysBeforeMonth(y, 4) == DaysBeforeMonth(y, 3) + 31;
    assert DaysBeforeMonth(y, 7) == DaysBeforeMonth(y, 5) + 61 && DaysBeforeMonth(y, 6) == DaysBeforeMonth(y, 5) + 31;
    assert DaysBeforeMonth(y, 9) == DaysBeforeMonth(y, 7) + 62 && DaysBeforeMonth(y, 8) == DaysBeforeMonth(y, 7) + 31;
    assert DaysBeforeMonth(y, 11) == DaysBeforeMonth(y, 9) + 61 && DaysBeforeMonth(y, 10) == DaysBeforeMonth(y, 9) + 30;
    assert DaysBeforeMonth(y, 13) == DaysBeforeMonth(y, 11) + 61 && DaysBeforeMonth(y, 12) == DaysBeforeMonth(y, 11) + 30;
  }

  function DaysBeforeMonth(y: int, m: nat): (n: nat)
    requires 1 <= m <= 13
    decreases m
  {
    if m == 1 then 0 else DaysBeforeMonth(y, m - 1) + DaysIn(y, m - 1)
  }

  /** The day number of a day of a real month; the day itself may be out of range. */
  function Ordinal(y: int, m: int, day: int): int
    requires 1 <= m <= 12
  {
    DaysBeforeYear(y) + DaysBeforeMonth(y, m) + day - 1
  }

  /** time.Date: a month out of range carries into the year, a day out of range into the months. */
  function DayNumber(year: int, month: int, day: int): int
    decreases month < 1, if month < 1 then -month else month
  {
    if month < 1 then DayNumber(year - 1, month + 12, day)
    else if month > 12 then DayNumber(year + 1, month - 12, day)
    else Ordinal(year, month, day)
  }

  lemma YearLength(y: int)
    ensures DaysBeforeYear(y + 1) == DaysBeforeYear(y) + YearDays(y)
  {
  }

  lemma MonthsFillYear(y: int)
    ensures DaysBeforeMonth(y, 13) == YearDays(y)
  {
    assert DaysBeforeMonth(y, 5) == DaysBeforeMonth(y, 3) + 61;
    assert DaysBeforeMonth(y, 9) == DaysBeforeMonth(y, 5) + 123;
    assert DaysBeforeMonth(y, 13) == DaysBeforeMonth(y, 9) + 122;
  }

  /** The year, and the day within it, of the day r days after the start of year y. */
  function YearAndDay(y: int, r: int): (yd: (int, nat))
    ensures DaysBeforeYear(yd.0) + yd.1 == DaysBeforeYear(y) + r
    ensures yd.1 < YearDays(yd.0)
    decreases r < 0, if r < 0 then -r else r
  {
    YearLength(y);
    YearLength(y - 1);
    if r < 0 then YearAndDay(y - 1, r + YearDays(y - 1))
    else if r < YearDays(y) then (y, r)
    else YearAndDay(y + 1, r - YearDays(y))
  }

  function MonthOf(y: int, yday: int, m: nat): (r: nat)
    requires 1 <= m <= 12 && DaysBeforeMonth(y, m) <= yday < DaysBeforeMonth(y, 13)
    ensures m <= r <= 12 && DaysBeforeMonth(y, r) <= yday < DaysBeforeMonth(y, r + 1)
    decreases 12 - m
  {
    if yday < DaysBeforeMonth(y, m + 1) then m else MonthOf(y, yday, m + 1)
  }

  /** The civil date of a day number. */
  function Civil(n: int): (d: Date)
    ensures Valid(d) && Ordinal(d.year, d.month, d.day) == n
  {
    var (y, yday) := YearAndDay(1, n);
    MonthsFillYear(y);
    var m := MonthOf(y, yday, 1);
    Date(y, m, yday - DaysBeforeMonth(y, m) + 1)
  }

  lemma {:induction false} YearsIncrease(y: int, y': int)
    requires y <= y'
    ensures DaysBeforeYear(y) <= DaysBeforeYear(y')
    decreases y' - y
  {
    if y < y' {
      YearLength(y);
      YearsIncrease(y + 1, y');
    }
  }

  lemma {:induction false} MonthsIncrease(y: int, m: nat, m': nat)
    requires 1 <= m <= m' <= 13
    ensures DaysBeforeMonth(y, m) <= DaysBeforeMonth(y, m')
    decreases m'
  {
    if m < m' { MonthsIncrease(y, m, m' - 1); }
  }

  lemma YearBracket(d: Date)
    requires Valid(d)
    ensures DaysBeforeYear(d.year) <= Ordinal(d.year, d.month, d.day) < DaysBeforeYear(d.year + 1)
  {
    YearLength(d.year);
    assert DaysBeforeMonth(d.year, d.month + 1) == DaysBeforeMonth(d.year, d.month) + DaysIn(d.year, d.month);
    MonthEndsInYear(d.year, d.month);
  }

  lemma MonthEndsInYear(y: int, m: nat)
    requires 1 <= m <= 12
    ensures DaysBeforeMonth(y, m + 1) <= YearDays(y)
  {
    MonthsIncrease(y, m + 1, 13);
    MonthsFillYear(y);
  }

  lemma YearsOrdered(d: Date, e: Date)
    requires Valid(d) && Valid(e) && Ordinal(d.year, d.month, d.day) == Ordinal(e.year, e.month, e.day)
    ensures d.year >= e.year
  {
    YearBracket(d);
    YearBracket(e);
    if d.year < e.year { YearsIncrease(d.year + 1, e.year); }
  }

  lemma MonthsOrdered(d: Date, e: Date)
    requires Valid(d) && Valid(e) && d.year == e.year
    requires DaysBeforeMonth(d.year, d.month) + d.day == DaysBeforeMonth(e.year, e.month) + e.day
    ensures d.month >= e.month
  {
    if d.month < e.month { MonthsIncrease(d.year, d.month + 1, e.month); }
  }

  /** Day numbers and valid dates correspond one to one. */
  lemma CivilInvertsOrdinal(d: Date)
    requires Valid(d)
    ensures Civil(Ordinal(d.year, d.month, d.day)) == d
  {
    var e := Civil(Ordinal(d.year, d.month, d.day));
    YearsOrdered(d, e);
    YearsOrdered(e, d);
    MonthsOrdered(d, e);
    MonthsOrdered(e, d);
  }

  /** The same day of the next month is as many days away as the current month has. */
  lemma NextMonth(y: int, m: int, d: int)
    requires 1 <= m <= 12
    ensures DayNumber(y, m + 1, d) == Ordinal(y, m, d) + DaysIn(y, m)
  {
    if m == 12 {
      YearLength(y);
      MonthsFillYear(y);
    }
  }

  function DateOf(t: Time): Date {
    Civil(t.day)
  }

  /** time.Time.AddDate: add to the civil fields, keep the clock, then normalise. */
  function AddDate(t: Time, years: int, months: int, days: int): Time {
    var d := DateOf(t);
    Time(DayNumber(d.year + years, d.month + months, d.day + days), t.clock)
  }

  datatype Frequency = Daily | Weekly | Monthly | Unknown

  function AddInterval(t: Time, f: Frequency): Time {
    match f
    case Daily => AddDate(t, 0, 0, 1)
    case Weekly => AddDate(t, 0, 0, 7)
    case Monthly => AddDate(t, 0, 1, 0)
    case Unknown => t
  }

  /** The days one interval spans, from a given date. */
  function Span(d: Date, f: Frequency): (n: nat)
    ensures n == 0 <==> f.Unknown?
  {
    match f
    case Daily => 1
    case Weekly => 7
    case Monthly => DaysIn(d.year, d.month)
    case Unknown => 0
  }

  /** How far one interval moves: a day, a week, or exactly the days of the current month. */
  lemma IntervalLength(t: Time, f: Frequency)
    ensures AddInterval(t, f) == Time(t.day + Span(DateOf(t), f), t.clock)
    ensures f == Daily ==> AddInterval(t, f).day == t.day + 1
    ensures f == Weekly ==> AddInterval(t, f).day == t.day + 7
    ensures f == Monthly ==>
              AddInterval(t, f).day == t.day + DaysBeforeMonth(DateOf(t).year, DateOf(t).month + 1)
                                             - DaysBeforeMonth(DateOf(t).year, DateOf(t).month)
    ensures f == Unknown ==> AddInterval(t, f) == t
  {
    var d := DateOf(t);
    if f.Monthly? { NextMonth(d.year, d.month, d.day); }
  }

  function DaysInNext(d: Date): int {
    if d.month == 12 then DaysIn(d.year + 1, 1) else DaysIn(d.year, d.month + 1)
  }

  /** Day d of the month after a date, as a valid date: it spills over when that month is too short. */
  lemma MonthAfter(d: Date) returns (r: Date)
    requires Valid(d)
    ensures Valid(r) && Ordinal(r.year, r.month, r.day) == DayNumber(d.year, d.month + 1, d.day)
    ensures r.day == d.day <==> d.day <= DaysInNext(d)
  {
    var y, m := if d.month == 12 then d.year + 1 else d.year, if d.month == 12 then 1 else d.month + 1;
    var len := DaysIn(y, m);
    if d.day <= len {
      r := Date(y, m, d.day);
    } else {
      NextMonth(y, m, d.day - len);
      r := Date(y, m + 1, d.day - len);
    }
  }

  /** A monthly occurrence keeps its day of the month iff the next month has that day. */
  lemma MonthlyKeepsDay(t: Time)
    ensures DateOf(AddInterval(t, Monthly)).day == DateOf(t).day <==> DateOf(t).day <= DaysInNext(DateOf(t))
  {
    var r := MonthAfter(DateOf(t));
    CivilInvertsOrdinal(r);
  }
}
