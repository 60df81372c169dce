/** Gregorian calendar dates as .NET `DateTime` accepts them (the date part only). */
module Calendar {
  import opened Optional

  datatype Date = Date(year: int, month: int, day: int)

  predicate IsLeapYear(year: int)
  {
    year % 4 == 0 && (year % 100 != 0 || year % 400 == 0)
  }

  /** The number of days in a month of the Gregorian calendar. */
  function DaysInMonth(year: int, month: int): (n: int)
    requires 1 <= month <= 12
    ensures 28 <= n <= 31
    ensures n == 29 <==> month == 2 && IsLeapYear(year)
    ensures n == 28 <==> month == 2 && !IsLeapYear(year)
    ensures n == 30 <==> month in {4, 6, 9, 11}
  {
    if month == 2 then (if IsLeapYear(year) then 29 else 28)
    else if month in {4, 6, 9, 11} then 30
    else 31
  }

  /** The range `DateTime` accepts: years 1 to 9999 and a day that exists in its month. */
  predicate IsValidDate(d: Date)
  {
    1 <= d.year <= 9999 && 1 <= d.month <= 12 && 1 <= d.day <= DaysInMonth(d.year, d.month)
  }

  /** `new DateTime(year, month, day)`: None where the constructor throws. */
  function NewDate(year: int, month: int, day: int): (r: Option<Date>)
    ensures r.Some? <==> IsValidDate(Date(year, month, day))
    ensures r.Some? ==> r.value == Date(year, month, day)
  {
    if IsValidDate(Date(year, month, day)) then Some(Date(year, month, day)) else None
  }

  /** `DateTime.DaysInMonth(year, month)`: None where it throws (year or month out of range). */
  function DaysInMonthChecked(year: int, month: int): (r: Option<int>)
    ensures r.Some? <==> 1 <= year <= 9999 && 1 <= month <= 12
    ensures r.Some? ==> r.value == DaysInMonth(year, month)
  {
    if 1 <= year <= 9999 && 1 <= month <= 12 then Some(DaysInMonth(year, month)) else None
  }

  /** The order of `DateTime` values at midnight: year, then month, then day. */
  predicate OnOrBefore(a: Date, b: Date)
  {
    a.year < b.year
    || (a.year == b.year && (a.month < b.month || (a.month == b.month && a.day <= b.day)))
  }
}
