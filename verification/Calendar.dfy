/** An instant as one number, so that "newer" can be said without comparing fields. */
module Calendar {
  import opened Cursor

  /** Days of year `y` before the first of month `m`; month 13 stands for the whole year. */
  function DaysBeforeMonth(y: nat, m: nat): nat
    requires 1 <= m <= 13
  {
    if m == 1 then 0 else DaysBeforeMonth(y, m - 1) + DaysIn(y, m - 1)
  }

  /** Days before the first of January of year `y`, counted from year 1. */
  function DaysBeforeYear(y: nat): nat
    requires 1 <= y
  {
    if y == 1 then 0 else DaysBeforeYear(y - 1) + DaysBeforeMonth(y - 1, 13)
  }

  function DayNumber(t: Moment): nat {
    DaysBeforeYear(t.year) + DaysBeforeMonth(t.year, t.month) + t.day - 1
  }

  function MicrosecondOfDay(t: Moment): nat {
    ((t.hour * 60 + t.minute) * 60 + t.second) * 1000000 + t.microsecond
  }

  /** Microseconds since the first of January of year 1. */
  function Instant(t: Moment): nat {
    DayNumber(t) * 86400000000 + MicrosecondOfDay(t)
  }

  // ----------------------------------------------------------------- the calendar

  lemma YearsHave365Or366Days(y: nat)
    ensures DaysBeforeMonth(y, 13) == if y % 4 == 0 && (y % 100 != 0 || y % 400 == 0) then 366 else 365
  {
    assert DaysBeforeMonth(y, 2) == DaysBeforeMonth(y, 1) + 31;
    assert DaysBeforeMonth(y, 3) == DaysBeforeMonth(y, 2) + DaysIn(y, 2);
    assert DaysBeforeMonth(y, 4) == DaysBeforeMonth(y, 3) + 31;
    assert DaysBeforeMonth(y, 5) == DaysBeforeMonth(y, 4) + 30;
    assert DaysBeforeMonth(y, 6) == DaysBeforeMonth(y, 5) + 31;
    assert DaysBeforeMonth(y, 7) == DaysBeforeMonth(y, 6) + 30;
    assert DaysBeforeMonth(y, 8) == DaysBeforeMonth(y, 7) + 31;
    assert DaysBeforeMonth(y, 9) == DaysBeforeMonth(y, 8) + 31;
    assert DaysBeforeMonth(y, 10) == DaysBeforeMonth(y, 9) + 30;
    assert DaysBeforeMonth(y, 11) == DaysBeforeMonth(y, 10) + 31;
    assert DaysBeforeMonth(y, 12) == DaysBeforeMonth(y, 11) + 30;
    assert DaysBeforeMonth(y, 13) == DaysBeforeMonth(y, 12) + 31;
  }

  lemma LeapCount(y: nat)
    ensures (if y % 4 == 0 && (y % 100 != 0 || y % 400 == 0) then 1 else 0)
            == (if y % 4 == 0 then 1 else 0) - (if y % 100 == 0 then 1 else 0) + (if y % 400 == 0 then 1 else 0)
  {
    if y % 100 == 0 {
      assert y == 100 * (y / 100) && y % 4 == 0;
    }
    if y % 400 == 0 {
      assert y == 400 * (y / 400) && y % 100 == 0;
    }
  }

  lemma QuotientSteps(n: nat)
    requires n > 0
    ensures n / 4 == (n - 1) / 4 + if n % 4 == 0 then 1 else 0
    ensures n / 100 == (n - 1) / 100 + if n % 100 == 0 then 1 else 0
    ensures n / 400 == (n - 1) / 400 + if n % 400 == 0 then 1 else 0
  {
  }

  /** Leap days up to the end of year `y`. */
  function LeapDays(y: nat): int {
    y / 4 - y / 100 + y / 400
  }

  lemma LeapDaysStep(y: nat)
    requires y > 0
    ensures LeapDays(y) == LeapDays(y - 1) + if y % 4 == 0 && (y % 100 != 0 || y % 400 == 0) then 1 else 0
  {
    QuotientSteps(y);
    LeapCount(y);
  }

  /** The Gregorian rule, summed up: a leap day every four years, but not every hundred, but every four hundred. */
  lemma {:induction false} DaysBeforeYearIsGregorian(y: nat)
    requires 1 <= y
    ensures DaysBeforeYear(y) == 365 * (y - 1) + LeapDays(y - 1)
  {
    if y > 1 {
      DaysBeforeYearIsGregorian(y - 1);
      YearsHave365Or366Days(y - 1);
      LeapDaysStep(y - 1);
    }
  }

  // -------------------------------------------------------------------- the order

  lemma {:induction false} MonthsAdd(y: nat, m: nat, n: nat)
    requires 1 <= m < n <= 13
    ensures DaysBeforeMonth(y, m) + DaysIn(y, m) <= DaysBeforeMonth(y, n)
  {
    if m + 1 < n {
      MonthsAdd(y, m, n - 1);
    }
  }

  lemma {:induction false} YearsAdd(y: nat, z: nat)
    requires 1 <= y < z
    ensures DaysBeforeYear(y) + DaysBeforeMonth(y, 13) <= DaysBeforeYear(z)
  {
    if y + 1 < z {
      YearsAdd(y, z - 1);
    }
  }

  /** A date that is later in year, month, day order has a larger day number. */
  lemma LaterDateLaterDay(a: Moment, b: Moment)
    requires a.year < b.year || (a.year == b.year && (a.month < b.month || (a.month == b.month && a.day < b.day)))
    ensures DayNumber(a) < DayNumber(b)
  {
    if a.year < b.year {
      YearsAdd(a.year, b.year);
      MonthsAdd(a.year, a.month, 13);
    } else if a.month < b.month {
      MonthsAdd(a.year, a.month, b.month);
    }
  }

  lemma MicrosecondsFitTheDay(t: Moment)
    ensures MicrosecondOfDay(t) < 86400000000
  {
  }

  lemma LaterDayLaterInstant(a: Moment, b: Moment)
    requires DayNumber(a) < DayNumber(b)
    ensures Instant(a) < Instant(b)
  {
    MicrosecondsFitTheDay(a);
  }

  predicate SameDate(a: Moment, b: Moment) {
    a.year == b.year && a.month == b.month && a.day == b.day
  }

  lemma DifferentDatesDifferentInstants(a: Moment, b: Moment)
    requires !SameDate(a, b)
    ensures Instant(a) != Instant(b)
  {
    if a.year < b.year || (a.year == b.year && (a.month < b.month || (a.month == b.month && a.day < b.day))) {
      LaterDateLaterDay(a, b);
      LaterDayLaterInstant(a, b);
    } else {
      LaterDateLaterDay(b, a);
      LaterDayLaterInstant(b, a);
    }
  }

  lemma SameDayFields(a: Moment, b: Moment)
    requires SameDate(a, b)
    ensures MicrosecondOfDay(a) == MicrosecondOfDay(b) <==>
              a.hour == b.hour && a.minute == b.minute && a.second == b.second && a.microsecond == b.microsecond
    ensures Instant(a) - Instant(b) == MicrosecondOfDay(a) - MicrosecondOfDay(b)
  {
  }

  /** Two moments are one exactly when their instants are. */
  lemma InstantIsInjective(a: Moment, b: Moment)
    ensures Instant(a) == Instant(b) <==> a == b
  {
    if Instant(a) == Instant(b) {
      if !SameDate(a, b) {
        DifferentDatesDifferentInstants(a, b);
      }
      SameDayFields(a, b);
    }
  }
}
