/**
 * The part of JavaScript's `Date` the date formatters use: building a
 * local date from (year, monthIndex, day) numbers with month and day
 * rollover, reading back its full year, month index and day of month,
 * and the English month name `toLocaleDateString('en-US', { month: 'long' })`
 * prints. Dates are proleptic Gregorian, as in JavaScript.
 */
module Dates {
  import opened Wrappers
  import opened Text

  /** A date as `getFullYear()`, `getMonth()` (0 = January) and `getDate()` read it. */
  datatype CalendarDate = CalendarDate(year: int, month: int, day: int)

  predicate IsLeapYear(y: int) {
    y % 4 == 0 && (y % 100 != 0 || y % 400 == 0)
  }

  function DaysInMonth(y: int, m: int): (n: int)
    requires 0 <= m < 12
    ensures 28 <= n <= 31
  {
    if m == 1 then (if IsLeapYear(y) then 29 else 28)
    else if m == 3 || m == 5 || m == 8 || m == 10 then 30
    else 31
  }

  predicate IsCalendarDate(d: CalendarDate) {
    0 <= d.month < 12 && 1 <= d.day <= DaysInMonth(d.year, d.month)
  }

  /** `new Date(y, …)` reads a year from 0 to 99 as 1900 to 1999. */
  function FullYear(y: int): int {
    if 0 <= y <= 99 then 1900 + y else y
  }

  /** Moves a day number outside its month into the months before or after it. */
  function RollDays(y: int, m: int, d: int): (r: CalendarDate)
    requires 0 <= m < 12
    ensures IsCalendarDate(r)
    decreases if d < 1 then 1 - d else 0, if d < 1 then 0 else d
  {
    if d < 1 then
      var py := if m == 0 then y - 1 else y;
      var pm := if m == 0 then 11 else m - 1;
      RollDays(py, pm, d + DaysInMonth(py, pm))
    else if d > DaysInMonth(y, m) then
      var ny := if m == 11 then y + 1 else y;
      var nm := if m == 11 then 0 else m + 1;
      RollDays(ny, nm, d - DaysInMonth(y, m))
    else
      CalendarDate(y, m, d)
  }

  /**
   * `new Date(year, monthIndex, day)`: a month index outside 0..11 moves
   * whole years (rounding down), then the day rolls through the months.
   */
  function MakeDate(year: int, monthIndex: int, day: int): (r: CalendarDate)
    ensures IsCalendarDate(r)
  {
    RollDays(FullYear(year) + monthIndex / 12, monthIndex % 12, day)
  }

  /** A date that already exists is built unchanged. */
  lemma MakeDateExisting(year: int, monthIndex: int, day: int)
    requires IsCalendarDate(CalendarDate(FullYear(year), monthIndex, day))
    ensures MakeDate(year, monthIndex, day) == CalendarDate(FullYear(year), monthIndex, day)
  {
  }

  /** The day after an existing date: the next day of the month, or the 1st of the next month. */
  lemma MakeDateNextDay(year: int, monthIndex: int, day: int)
    requires IsCalendarDate(CalendarDate(FullYear(year), monthIndex, day))
    ensures var y := FullYear(year);
            MakeDate(year, monthIndex, day + 1) ==
              if day < DaysInMonth(y, monthIndex) then CalendarDate(y, monthIndex, day + 1)
              else if monthIndex < 11 then CalendarDate(y, monthIndex + 1, 1)
              else CalendarDate(y + 1, 0, 1)
  {
    var y := FullYear(year);
    assert monthIndex / 12 == 0 && monthIndex % 12 == monthIndex;
    if day == DaysInMonth(y, monthIndex) {
      var ny := if monthIndex == 11 then y + 1 else y;
      var nm := if monthIndex == 11 then 0 else monthIndex + 1;
      assert RollDays(y, monthIndex, day + 1) == RollDays(ny, nm, 1);
    }
  }

  /** The Gregorian leap years from year 1 to year y, counted negatively below year 1. */
  function LeapsThrough(y: int): int {
    y / 4 - y / 100 + y / 400
  }

  /** Days from 1 January 1970 to 1 January of year y; negative before 1970. */
  function DaysBeforeYear(y: int): int {
    365 * (y - 1970) + LeapsThrough(y - 1) - LeapsThrough(1969)
  }

  /** Days from 1 January of year y to the first of month m. */
  function DaysBeforeMonth(y: int, m: int): int
    requires 0 <= m < 12
  {
    if m == 0 then 0 else DaysBeforeMonth(y, m - 1) + DaysInMonth(y, m - 1)
  }

  /** The day number of a date counted from 1 January 1970. */
  function DayNumber(y: int, m: int, d: int): int
    requires 0 <= m < 12
  {
    DaysBeforeYear(y) + DaysBeforeMonth(y, m) + d - 1
  }

  /**
   * `Date.UTC(year, monthIndex, day)` in whole days: a year from 0 to 99
   * means 1900 to 1999, a month index outside 0..11 moves whole years, and
   * the day is an offset from the first of the month.
   */
  function UtcDay(year: int, monthIndex: int, day: int): int {
    DayNumber(FullYear(year) + monthIndex / 12, monthIndex % 12, day)
  }

  const MsPerDay := 86400000

  /** `Date.UTC(year, monthIndex, day)`: midnight UTC of that day, in milliseconds since the epoch. */
  function UtcMillis(year: int, monthIndex: int, day: int): int {
    UtcDay(year, monthIndex, day) * MsPerDay
  }

  lemma Div4Step(y: int)
    ensures y / 4 - (y - 1) / 4 == if y % 4 == 0 then 1 else 0
  {
  }

  lemma Div100Step(y: int)
    ensures y / 100 - (y - 1) / 100 == if y % 100 == 0 then 1 else 0
  {
  }

  lemma Div400Step(y: int)
    ensures y / 400 - (y - 1) / 400 == if y % 400 == 0 then 1 else 0
  {
  }

  /** Counting leap years through y adds one exactly when y is a leap year. */
  lemma LeapStep(y: int)
    ensures LeapsThrough(y) - LeapsThrough(y - 1) == if IsLeapYear(y) then 1 else 0
  {
    Div4Step(y);
    Div100Step(y);
    Div400Step(y);
    if y % 400 == 0 {
      assert y % 100 == 0 && y % 4 == 0;
    } else if y % 100 == 0 {
      assert y % 4 == 0;
    }
  }

  lemma {:induction false} DaysBeforeDecember(y: int)
    ensures DaysBeforeMonth(y, 11) + DaysInMonth(y, 11) == if IsLeapYear(y) then 366 else 365
  {
    var feb := DaysInMonth(y, 1);
    assert DaysBeforeMonth(y, 1) == 31;
    assert DaysBeforeMonth(y, 2) == 31 + feb;
    assert DaysBeforeMonth(y, 3) == 62 + feb;
    assert DaysBeforeMonth(y, 4) == 92 + feb;
    assert DaysBeforeMonth(y, 5) == 123 + feb;
    assert DaysBeforeMonth(y, 6) == 153 + feb;
    assert DaysBeforeMonth(y, 7) == 184 + feb;
    assert DaysBeforeMonth(y, 8) == 215 + feb;
    assert DaysBeforeMonth(y, 9) == 245 + feb;
    assert DaysBeforeMonth(y, 10) == 276 + feb;
    assert DaysBeforeMonth(y, 11) == 306 + feb;
  }

  /** A year has 366 days when it is a leap year and 365 otherwise. */
  lemma YearLength(y: int)
    ensures DaysBeforeYear(y + 1) == DaysBeforeYear(y) + (if IsLeapYear(y) then 366 else 365)
  {
    LeapStep(y);
  }

  /** The last day of December and the first of January are consecutive day numbers. */
  lemma NewYearStep(y: int)
    ensures DayNumber(y + 1, 0, 1) == DayNumber(y, 11, DaysInMonth(y, 11)) + 1
  {
    YearLength(y);
    DaysBeforeDecember(y);
  }

  /** Rolling a day number through the months keeps the day it denotes. */
  lemma {:induction false} RollDaysDayNumber(y: int, m: int, d: int)
    requires 0 <= m < 12
    ensures var r := RollDays(y, m, d); DayNumber(r.year, r.month, r.day) == DayNumber(y, m, d)
    decreases if d < 1 then 1 - d else 0, if d < 1 then 0 else d
  {
    if d < 1 {
      var py := if m == 0 then y - 1 else y;
      var pm := if m == 0 then 11 else m - 1;
      RollDaysDayNumber(py, pm, d + DaysInMonth(py, pm));
      if m == 0 {
        NewYearStep(y - 1);
      }
    } else if d > DaysInMonth(y, m) {
      var ny := if m == 11 then y + 1 else y;
      var nm := if m == 11 then 0 else m + 1;
      RollDaysDayNumber(ny, nm, d - DaysInMonth(y, m));
      if m == 11 {
        NewYearStep(y);
      }
    }
  }

  /**
   * `Date.UTC(y, m, d)` and `new Date(y, m, d)` name the same calendar
   * day, whatever rollover the arguments need.
   */
  lemma UtcDayIsMakeDate(year: int, monthIndex: int, day: int)
    ensures var r := MakeDate(year, monthIndex, day); UtcDay(year, monthIndex, day) == DayNumber(r.year, r.month, r.day)
  {
    RollDaysDayNumber(FullYear(year) + monthIndex / 12, monthIndex % 12, day);
  }

  /** Day 0 is 1 January 1970. */
  lemma UtcEpoch()
    ensures UtcDay(1970, 0, 1) == 0
  {
  }

  /** The day after an existing date, however it rolls over, has the next day number. */
  lemma {:induction false} DayNumberMonotone(y: int, m: int, d: int)
    requires IsCalendarDate(CalendarDate(y, m, d))
    ensures DayNumber(y, m, d) < DayNumber(y, m, d + 1)
    ensures d == DaysInMonth(y, m) && m < 11 ==> DayNumber(y, m + 1, 1) == DayNumber(y, m, d) + 1
    ensures d == DaysInMonth(y, m) && m == 11 ==> DayNumber(y + 1, 0, 1) == DayNumber(y, m, d) + 1
  {
    if d == DaysInMonth(y, m) && m == 11 {
      NewYearStep(y);
    }
  }

  /** The long English month name for a month index. */
  function MonthName(m: int): (name: string)
    requires 0 <= m < 12
    ensures |name| >= 3
  {
    ["January", "February", "March", "April", "May", "June", "July",
     "August", "September", "October", "November", "December"][m]
  }

  /**
   * `s.split('-').map(Number)` read as [year, month, day], on the strings
   * whose first three parts are decimal digits only (an empty part is 0).
   * None for any other string: Number would give NaN or read signs, white
   * space or exponents there, and numbers of five digits or more are not
   * modelled.
   */
  function ParseDateParts(s: string): (r: Option<(nat, nat, nat)>)
    ensures r.Some? ==> r.value.0 < 10000 && r.value.1 < 10000 && r.value.2 < 10000
  {
    var parts := Split(s, '-');
    if |parts| < 3 || !AllDigits(parts[0]) || !AllDigits(parts[1]) || !AllDigits(parts[2]) then None
    else
      var y, m, d := DigitsValue(parts[0]), DigitsValue(parts[1]), DigitsValue(parts[2]);
      if y < 10000 && m < 10000 && d < 10000 then Some((y, m, d)) else None
  }

  /** A string of three digit groups joined by '-' parses to the values of the groups. */
  lemma ParseDigitGroups(a: string, b: string, c: string)
    requires AllDigits(a) && AllDigits(b) && AllDigits(c)
    requires DigitsValue(a) < 10000 && DigitsValue(b) < 10000 && DigitsValue(c) < 10000
    ensures ParseDateParts(a + "-" + b + "-" + c) == Some((DigitsValue(a), DigitsValue(b), DigitsValue(c)))
  {
    assert forall i :: 0 <= i < |a| ==> a[i] != '-';
    assert forall i :: 0 <= i < |b| ==> b[i] != '-';
    assert forall i :: 0 <= i < |c| ==> c[i] != '-';
    SplitThree(a, b, c, '-');
  }
}
