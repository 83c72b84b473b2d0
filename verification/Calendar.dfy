/** UTC dates as ECMA-262 computes them (section 21.4.1, Time Values and Time Range).
    Days are numbered from 1 January 1970, months from January of year 0:
    month n is month n % 12 of year n / 12. */
module Calendar {

  predicate Leap(year: int) {
    year % 4 == 0 && (year % 100 != 0 || year % 400 == 0)
  }

  function DayFromYear(year: int): int {
    365 * (year - 1970) + (year - 1969) / 4 - (year - 1901) / 100 + (year - 1601) / 400
  }

  lemma EveryFourth(year: int)
    ensures (year - 1968) / 4 == (year - 1969) / 4 + if year % 4 == 0 then 1 else 0
  {
  }

  lemma EveryHundredth(year: int)
    ensures (year - 1900) / 100 == (year - 1901) / 100 + if year % 100 == 0 then 1 else 0
  {
  }

  lemma EveryFourHundredth(year: int)
    ensures (year - 1600) / 400 == (year - 1601) / 400 + if year % 400 == 0 then 1 else 0
  {
  }

  lemma DivisorsNest(year: int)
    ensures (year % 400 == 0 ==> year % 100 == 0) && (year % 100 == 0 ==> year % 4 == 0)
  {
  }

  lemma YearLength(year: int)
    ensures DayFromYear(year + 1) == DayFromYear(year) + if Leap(year) then 366 else 365
  {
    EveryFourth(year);
    EveryHundredth(year);
    EveryFourHundredth(year);
    DivisorsNest(year);
  }

  /** Days of the year before month `m`; 12 stands for the end of the year. */
  function MonthStart(m: int, leap: bool): int
    requires 0 <= m <= 12
  {
    [0, 31, 59, 90, 120, 151, 181, 212, 243, 273, 304, 334, 365][m] + if leap && m >= 2 then 1 else 0
  }

  /** The first day of month number `n`, the month `n % 12` of year `n / 12`. */
  function First(n: int): int {
    DayFromYear(n / 12) + MonthStart(n % 12, Leap(n / 12))
  }

  /** Month 12 of a year is month 0 of the next. */
  lemma FirstOfNext(n: int)
    ensures First(n + 1) == DayFromYear(n / 12) + MonthStart(n % 12 + 1, Leap(n / 12))
  {
    if n % 12 == 11 {
      assert (n + 1) / 12 == n / 12 + 1 && (n + 1) % 12 == 0;
      YearLength(n / 12);
    } else {
      assert (n + 1) / 12 == n / 12 && (n + 1) % 12 == n % 12 + 1;
    }
  }

  lemma MonthLength(n: int)
    ensures First(n) + 28 <= First(n + 1) <= First(n) + 31
  {
    hide DayFromYear, Leap;
    FirstOfNext(n);
  }

  /** The whole calendar: 1 January 1970 is day 0, and every month is as long as it is known to be. */
  lemma MonthLengths(n: int)
    ensures First(12 * 1970) == 0
    ensures First(n + 1) - First(n) ==
      if n % 12 == 1 then (if n / 12 % 4 == 0 && (n / 12 % 100 != 0 || n / 12 % 400 == 0) then 29 else 28)
      else if n % 12 in {3, 5, 8, 10} then 30 else 31
  {
    hide DayFromYear;
    assert First(12 * 1970) == DayFromYear(1970) + MonthStart(0, Leap(1970)) && DayFromYear(1970) == 0 by {
      EpochYear();
    }
    FirstOfNext(n);
  }

  lemma EpochYear()
    ensures DayFromYear(1970) == 0
  {
  }

  lemma {:induction false} FirstIncreases(n: int, m: int)
    requires n <= m
    ensures First(n) + 28 * (m - n) <= First(m)
    decreases m - n
  {
    hide First;
    if n < m {
      FirstIncreases(n, m - 1);
      MonthLength(m - 1);
    }
  }

  // ---------------------------------------------------------------------
  // Reading a date off a day
  // ---------------------------------------------------------------------

  function YearFromAbove(day: int, year: int): (r: int)
    requires day < DayFromYear(year)
    ensures DayFromYear(r) <= day < DayFromYear(r + 1)
    decreases DayFromYear(year) - day
  {
    YearLength(year - 1);
    if DayFromYear(year - 1) <= day then year - 1 else YearFromAbove(day, year - 1)
  }

  function YearFromBelow(day: int, year: int): (r: int)
    requires DayFromYear(year) <= day
    ensures DayFromYear(r) <= day < DayFromYear(r + 1)
    decreases day - DayFromYear(year)
  {
    YearLength(year);
    if day < DayFromYear(year + 1) then year else YearFromBelow(day, year + 1)
  }

  /** getUTCFullYear: the year the day falls into. */
  function Year(day: int): (r: int)
    ensures DayFromYear(r) <= day < DayFromYear(r + 1)
  {
    if day < DayFromYear(1970) then YearFromAbove(day, 1970) else YearFromBelow(day, 1970)
  }

  /** The month of day number `n` of a year, searched from month `m` on. */
  function MonthFrom(n: int, leap: bool, m: int): (r: int)
    requires 0 <= m <= 11 && MonthStart(m, leap) <= n < MonthStart(12, leap)
    ensures 0 <= r <= 11 && MonthStart(r, leap) <= n < MonthStart(r + 1, leap)
    decreases 12 - m
  {
    if n < MonthStart(m + 1, leap) then m else MonthFrom(n, leap, m + 1)
  }

  /** getUTCMonth: 0 to 11. */
  function Month(day: int): (r: int)
    ensures 0 <= r <= 11
    ensures MonthStart(r, Leap(Year(day))) <= day - DayFromYear(Year(day)) < MonthStart(r + 1, Leap(Year(day)))
  {
    YearLength(Year(day));
    MonthFrom(day - DayFromYear(Year(day)), Leap(Year(day)), 0)
  }

  /** The number of the month the day falls into. */
  function MonthOf(day: int): int {
    12 * Year(day) + Month(day)
  }

  /** getUTCDate: 1 to 31. */
  function Date(day: int): int {
    day - First(MonthOf(day)) + 1
  }

  lemma SplitMonth(day: int)
    ensures MonthOf(day) / 12 == Year(day) && MonthOf(day) % 12 == Month(day)
  {
    hide Year, Month;
  }

  lemma DayInItsMonth(day: int)
    ensures First(MonthOf(day)) <= day < First(MonthOf(day) + 1)
  {
    hide Year, Month, MonthOf, DayFromYear, MonthStart, Leap;
    SplitMonth(day);
    FirstOfNext(MonthOf(day));
  }

  /** A day falls into month `n` if and only if it lies between the first of that month and the next. */
  lemma MonthOfIs(day: int, n: int)
    ensures MonthOf(day) == n <==> First(n) <= day < First(n + 1)
  {
    hide MonthOf, First;
    var m := MonthOf(day);
    DayInItsMonth(day);
    if m < n {
      FirstIncreases(m + 1, n);
    } else if n < m {
      FirstIncreases(n + 1, m);
    }
  }

  // ---------------------------------------------------------------------
  // Making a day from a date
  // ---------------------------------------------------------------------

  /** MakeDay: months and dates out of range carry over. */
  function MakeDay(year: int, month: int, date: int): int {
    First(12 * (year + month / 12) + month % 12) + date - 1
  }

  lemma MakeDayCarries(year: int, month: int, date: int)
    ensures MakeDay(year, month, date) == First(12 * year + month) + date - 1
  {
    hide First;
    assert 12 * (month / 12) + month % 12 == month;
  }

  /** Reading a date and making it again gives the day. */
  lemma MakeDayRoundTrip(day: int)
    ensures MakeDay(Year(day), Month(day), Date(day)) == day
    ensures 1 <= Date(day) <= 31
  {
    hide First, Year, Month, MakeDay;
    MakeDayCarries(Year(day), Month(day), Date(day));
    MonthOfIs(day, MonthOf(day));
    MonthLength(MonthOf(day));
  }

  /** Making a day and reading it gives the date, if the month has it. */
  lemma ReadingRoundTrip(year: int, month: int, date: int)
    requires 0 <= month <= 11 && 1 <= date <= First(12 * year + month + 1) - First(12 * year + month)
    ensures var day := MakeDay(year, month, date);
      Year(day) == year && Month(day) == month && Date(day) == date
  {
    hide First, Year, Month, MonthOf, MakeDay;
    var day := MakeDay(year, month, date);
    MakeDayCarries(year, month, date);
    MonthOfIs(day, 12 * year + month);
    SplitMonth(day);
  }

  /** Date.UTC reads the years 0 to 99 as 1900 to 1999. */
  predicate TwoDigits(year: int) {
    0 <= year <= 99
  }

  function Utc(year: int, month: int, date: int): int {
    MakeDay(if TwoDigits(year) then 1900 + year else year, month, date)
  }
}
