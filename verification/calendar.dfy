/**
 The date facts the sidebar and the sliders show: how many days are left in
 the current month, and which half of the year the semi-annual credits
 currently apply to.  The current date is a parameter.
 */
module Calendar {

  /** A calendar date as the standard library's datetime holds it. */
  datatype Date = Date(year: int, month: int, day: int)

  /** Gregorian leap years: divisible by 4, except centuries not divisible by 400. */
  predicate IsLeapYear(y: int)
  {
    y % 4 == 0 && (y % 100 != 0 || y % 400 == 0)
  }

  /** The number of days in month `m` of year `y` in the Gregorian calendar. */
  function DaysInMonth(y: int, m: int): (n: int)
    requires 1 <= m <= 12
    ensures 28 <= n <= 31
    ensures n == 28 <==> m == 2 && !IsLeapYear(y)
    ensures n == 29 <==> m == 2 && IsLeapYear(y)
    ensures n == 30 <==> m in {4, 6, 9, 11}
  {
    if m == 2 then (if IsLeapYear(y) then 29 else 28)
    else if m == 4 || m == 6 || m == 9 || m == 11 then 30
    else 31
  }

  /** The dates datetime can represent: years 1 to 9999, a real month, a day within it. */
  predicate ValidDate(d: Date)
  {
    && 1 <= d.year <= 9999
    && 1 <= d.month <= 12
    && 1 <= d.day <= DaysInMonth(d.year, d.month)
  }

  /**
   The days left in the month after today: none on the last day of the month,
   at most 30 (on the first of a 31-day month).
   */
  function DaysLeft(today: Date): (r: int)
    requires ValidDate(today)
    ensures 0 <= r <= 30
    ensures r == 0 <==> today.day == DaysInMonth(today.year, today.month)
    ensures r == 30 <==> today.day == 1 && DaysInMonth(today.year, today.month) == 31
  {
    DaysInMonth(today.year, today.month) - today.day
  }

  /** The label of the half of the year a month falls in; January to June is the first. */
  function HalfYear(month: int): (name: string)
    requires 1 <= month <= 12
    ensures name == "First Half" <==> month in {1, 2, 3, 4, 5, 6}
    ensures name == "Second Half" <==> month in {7, 8, 9, 10, 11, 12}
  {
    if month <= 6 then "First Half" else "Second Half"
  }

  /** Six months later is always the other half: a semi-annual credit covers six months at a time. */
  lemma SixMonthsLaterIsOtherHalf(month: int)
    requires 1 <= month <= 6
    ensures HalfYear(month) != HalfYear(month + 6)
  {
  }

  /** The days in the months before month `m` of year `y`. */
  function DaysBefore(y: int, m: int): int
    requires 1 <= m <= 13
    decreases m
  {
    if m == 1 then 0 else DaysBefore(y, m - 1) + DaysInMonth(y, m - 1)
  }

  /** The month lengths add up to the Gregorian year: 366 days in a leap year, 365 otherwise. */
  lemma MonthsMakeAYear(y: int)
    ensures DaysBefore(y, 13) == if IsLeapYear(y) then 366 else 365
  {
  }

  lemma ShiftBy400Mod4(y: int)
    ensures (y + 400) % 4 == y % 4
  {
  }

  lemma ShiftBy400Mod100(y: int)
    ensures (y + 400) % 100 == y % 100
  {
  }

  lemma ShiftBy400Mod400(y: int)
    ensures (y + 400) % 400 == y % 400
  {
  }

  /** The Gregorian calendar repeats every 400 years, so month lengths do too. */
  lemma MonthLengthsRepeatEvery400Years(y: int, m: int)
    requires 1 <= m <= 12
    ensures DaysInMonth(y + 400, m) == DaysInMonth(y, m)
  {
    ShiftBy400Mod4(y);
    ShiftBy400Mod100(y);
    ShiftBy400Mod400(y);
    assert IsLeapYear(y + 400) == IsLeapYear(y);
  }
}
