/** Gregorian dates, their day numbers, and the yearly anniversary of an instant. */
module Calendar {

  /** An instant in UTC: microseconds since 0001-01-01T00:00. */
  type Time = nat

  const DAY: nat := 86_400_000_000
  const MAX_YEAR: nat := 9999

  lemma DayInMicroseconds()
    ensures DAY == 24 * 60 * 60 * 1_000_000
  {
  }

  datatype Date = Date(year: nat, month: nat, day: nat)

  predicate IsLeap(year: nat) {
    year % 4 == 0 && (year % 100 != 0 || year % 400 == 0)
  }

  function DaysInYear(year: nat): (days: nat)
    ensures 365 <= days <= 366
  {
    if IsLeap(year) then 366 else 365
  }

  function DaysInMonth(year: nat, month: nat): (days: nat)
    ensures 28 <= days <= 31
  {
    if month == 2 then (if IsLeap(year) then 29 else 28)
    else if month in {4, 6, 9, 11} then 30
    else 31
  }

  predicate ValidDate(d: Date) {
    1 <= d.year && 1 <= d.month <= 12 && 1 <= d.day <= DaysInMonth(d.year, d.month)
  }

  function DaysBeforeYear(year: nat): nat {
    if year <= 1 then 0 else DaysBeforeYear(year - 1) + DaysInYear(year - 1)
  }

  /** The Gregorian count: a leap day every fourth year, none in a full century, but one in every fourth. */
  lemma {:induction false} DaysInGregorianYears(year: nat)
    requires year >= 1
    ensures DaysBeforeYear(year) == 365 * (year - 1) + (year - 1) / 4 - (year - 1) / 100 + (year - 1) / 400
  {
    hide IsLeap;
    if year > 1 {
      DaysInGregorianYears(year - 1);
      LeapDays(year - 1);
    }
  }

  lemma LeapDays(year: nat)
    requires year >= 1
    ensures DaysInYear(year) == 365 + (year / 4 - (year - 1) / 4) - (year / 100 - (year - 1) / 100)
                                + (year / 400 - (year - 1) / 400)
  {
    Fourths(year);
    Centuries(year);
    assert year % 100 == 0 ==> year % 4 == 0;
    assert year % 400 == 0 ==> year % 100 == 0;
  }

  lemma Fourths(year: nat)
    requires year >= 1
    ensures year / 4 - (year - 1) / 4 == if year % 4 == 0 then 1 else 0
  {
  }

  lemma Centuries(year: nat)
    requires year >= 1
    ensures year / 100 - (year - 1) / 100 == if year % 100 == 0 then 1 else 0
    ensures year / 400 - (year - 1) / 400 == if year % 400 == 0 then 1 else 0
  {
  }

  function DaysBeforeMonth(year: nat, month: nat): nat {
    if month <= 1 then 0 else DaysBeforeMonth(year, month - 1) + DaysInMonth(year, month - 1)
  }

  /** The day number of a date: 0 for 1 January of year 1. */
  function DayNumber(d: Date): nat
    requires ValidDate(d)
  {
    DaysBeforeYear(d.year) + DaysBeforeMonth(d.year, d.month) + d.day - 1
  }

  /** Reads a day number back, skipping whole years and then whole months. */
  function FromYear(year: nat, rest: nat): (d: Date)
    requires 1 <= year
    ensures ValidDate(d) && d.year >= year
    ensures DayNumber(d) == DaysBeforeYear(year) + rest
    decreases rest
  {
    if rest >= DaysInYear(year) then FromYear(year + 1, rest - DaysInYear(year))
    else
      YearLength(year);
      FromMonth(year, 1, rest)
  }

  function FromMonth(year: nat, month: nat, rest: nat): (d: Date)
    requires 1 <= year && 1 <= month <= 12
    requires DaysBeforeMonth(year, month) + rest < DaysInYear(year)
    ensures ValidDate(d) && d.year == year && d.month >= month
    ensures DayNumber(d) == DaysBeforeYear(year) + DaysBeforeMonth(year, month) + rest
    decreases 12 - month
  {
    if rest >= DaysInMonth(year, month) && month < 12
    then FromMonth(year, month + 1, rest - DaysInMonth(year, month))
    else
      YearLength(year);
      Date(year, month, rest + 1)
  }

  lemma YearLength(year: nat)
    ensures DaysBeforeMonth(year, 13) == DaysInYear(year)
    ensures DaysBeforeMonth(year, 12) + DaysInMonth(year, 12) == DaysInYear(year)
    ensures DaysBeforeMonth(year, 3) == 31 + DaysInMonth(year, 2)
    ensures DaysBeforeMonth(year, 2) == 31 && DaysBeforeMonth(year, 1) == 0
  {
    assert DaysBeforeMonth(year, 3) == DaysBeforeMonth(year, 2) + DaysInMonth(year, 2);
    assert DaysBeforeMonth(year, 5) == DaysBeforeMonth(year, 4) + 30;
    assert DaysBeforeMonth(year, 7) == DaysBeforeMonth(year, 6) + 30;
    assert DaysBeforeMonth(year, 9) == DaysBeforeMonth(year, 8) + 31;
    assert DaysBeforeMonth(year, 11) == DaysBeforeMonth(year, 10) + 31;
  }

  function DateOf(day: nat): (d: Date)
    ensures ValidDate(d) && DayNumber(d) == day
  {
    FromYear(1, day)
  }

  lemma {:induction false} MonthsIncrease(year: nat, a: nat, b: nat)
    requires 1 <= a < b
    ensures DaysBeforeMonth(year, a) + DaysInMonth(year, a) <= DaysBeforeMonth(year, b)
    decreases b
  {
    if a + 1 < b {
      MonthsIncrease(year, a, b - 1);
    }
  }

  lemma {:induction false} YearsIncrease(a: nat, b: nat)
    requires 1 <= a < b
    ensures DaysBeforeYear(a) + DaysInYear(a) <= DaysBeforeYear(b)
    decreases b
  {
    if a + 1 < b {
      YearsIncrease(a, b - 1);
    }
  }

  lemma DayWithinYear(d: Date)
    requires ValidDate(d)
    ensures DaysBeforeYear(d.year) <= DayNumber(d) < DaysBeforeYear(d.year) + DaysInYear(d.year)
  {
    YearLength(d.year);
    MonthsIncrease(d.year, d.month, 13);
  }

  /** Two valid dates with one day number are the same date. */
  lemma DayNumberInjective(a: Date, b: Date)
    requires ValidDate(a) && ValidDate(b) && DayNumber(a) == DayNumber(b)
    ensures a == b
  {
    DayWithinYear(a);
    DayWithinYear(b);
    if a.year < b.year {
      YearsIncrease(a.year, b.year);
    } else if b.year < a.year {
      YearsIncrease(b.year, a.year);
    } else if a.month < b.month {
      MonthsIncrease(a.year, a.month, b.month);
    } else if b.month < a.month {
      MonthsIncrease(a.year, b.month, a.month);
    }
  }

  /** Day numbers and valid dates correspond one to one. */
  lemma DateRoundTrip(d: Date)
    requires ValidDate(d)
    ensures DateOf(DayNumber(d)) == d
  {
    DayNumberInjective(DateOf(DayNumber(d)), d);
  }

  /** `value.replace(year=value.year + 1)`, and 28 February where that date does not exist. */
  function NextYearDate(d: Date): (next: Date)
    requires ValidDate(d)
    ensures ValidDate(next)
  {
    var same := Date(d.year + 1, d.month, d.day);
    if ValidDate(same) then same else Date(d.year + 1, d.month, 28)
  }

  /** A 29 February lies after `d` and before its anniversary. */
  predicate PassesLeapDay(d: Date) {
    if d.month == 1 || (d.month == 2 && d.day < 29) then IsLeap(d.year) else d.month > 2 && IsLeap(d.year + 1)
  }

  lemma LeapYearsApart(year: nat)
    ensures IsLeap(year) ==> !IsLeap(year + 1)
  {
  }

  lemma OneYearOn(year: nat)
    requires 1 <= year
    ensures DaysBeforeYear(year + 1) == DaysBeforeYear(year) + DaysInYear(year)
  {
  }

  /** The anniversary is 365 or 366 days ahead, and 366 exactly when it passes a 29 February. */
  lemma NextYearDistance(d: Date)
    requires ValidDate(d)
    ensures DayNumber(NextYearDate(d)) == DayNumber(d) + (if PassesLeapDay(d) then 366 else 365)
  {
    hide DaysBeforeYear, DaysBeforeMonth, IsLeap;
    OneYearOn(d.year);
    LeapYearsApart(d.year);
    YearLength(d.year);
    YearLength(d.year + 1);
    if d.month > 2 {
      MonthsAfterFebruary(d.year, d.month);
    }
  }

  lemma {:induction false} MonthsAfterFebruary(year: nat, month: nat)
    requires 3 <= month
    ensures DaysBeforeMonth(year + 1, month) - DaysBeforeMonth(year, month)
         == DaysInMonth(year + 1, 2) - DaysInMonth(year, 2)
  {
    if month == 3 {
      YearLength(year);
      YearLength(year + 1);
    } else {
      MonthsAfterFebruary(year, month - 1);
    }
  }

  function IterateDate(d: Date, n: nat): (r: Date)
    requires ValidDate(d)
    ensures ValidDate(r)
  {
    if n == 0 then d else NextYearDate(IterateDate(d, n - 1))
  }

  /** n anniversaries add n years and keep month and day, except that a 29 February
      becomes 28 February at the first step and stays there, leap years included. */
  lemma {:induction false} IterateKeepsMonthAndDay(d: Date, n: nat)
    requires ValidDate(d)
    ensures IterateDate(d, n) ==
            Date(d.year + n, d.month, if n > 0 && d.month == 2 && d.day == 29 then 28 else d.day)
  {
    if n > 0 {
      IterateKeepsMonthAndDay(d, n - 1);
    }
  }

  // ---- the same on instants -------------------------------------------------

  function DateAt(t: Time): (d: Date)
    ensures ValidDate(d)
  {
    DateOf(t / DAY)
  }

  /** `datetime` stops at year 9999: past it `replace` raises and the transaction rolls back. */
  predicate HasNextYear(t: Time) {
    DateAt(t).year < MAX_YEAR
  }

  function NextYear(t: Time): (next: Time)
    ensures t + 365 * DAY <= next <= t + 366 * DAY
  {
    NextYearDistance(DateAt(t));
    DayNumber(NextYearDate(DateAt(t))) * DAY + t % DAY
  }

  function IterateYears(t: Time, n: nat): (r: Time)
    ensures r >= t
  {
    if n == 0 then t else NextYear(IterateYears(t, n - 1))
  }

  /** On instants the anniversary keeps the time of day and moves the date. */
  lemma NextYearMovesTheDate(t: Time)
    ensures DateAt(NextYear(t)) == NextYearDate(DateAt(t)) && NextYear(t) % DAY == t % DAY
  {
    var next := NextYearDate(DateAt(t));
    assert NextYear(t) / DAY == DayNumber(next);
    DateRoundTrip(next);
  }

  lemma {:induction false} IterateYearsMovesTheDate(t: Time, n: nat)
    ensures DateAt(IterateYears(t, n)) == IterateDate(DateAt(t), n)
    ensures IterateYears(t, n) % DAY == t % DAY
  {
    hide NextYear, DateAt, NextYearDate;
    if n > 0 {
      IterateYearsMovesTheDate(t, n - 1);
      NextYearMovesTheDate(IterateYears(t, n - 1));
    }
  }

  /** The paid-through instant after n anniversaries, written out as a date. */
  lemma AnniversaryDate(t: Time, n: nat)
    ensures var d := DateAt(t);
            DateAt(IterateYears(t, n)) ==
            Date(d.year + n, d.month, if n > 0 && d.month == 2 && d.day == 29 then 28 else d.day)
    ensures IterateYears(t, n) % DAY == t % DAY
  {
    IterateYearsMovesTheDate(t, n);
    IterateKeepsMonthAndDay(DateAt(t), n);
  }

  lemma OneMoreYear(t: Time, n: nat)
    ensures IterateYears(t, n + 1) == NextYear(IterateYears(t, n)) > IterateYears(t, n)
  {
  }

  lemma {:induction false} IterateYearsIncrease(t: Time, a: nat, b: nat)
    requires a < b
    ensures IterateYears(t, a) < IterateYears(t, b)
    decreases b - a
  {
    OneMoreYear(t, a);
    if a + 1 < b {
      IterateYearsIncrease(t, a + 1, b);
    }
  }
}
