/** Calendar dates as Python's `datetime.date` sees them: proleptic Gregorian
    calendar, ordered by year, then month, then day. */
module Dates {

  datatype Date = Date(year: int, month: int, day: int)

  predicate IsLeapYear(y: int) {
    y % 4 == 0 && (y % 100 != 0 || y % 400 == 0)
  }

  function DaysInMonth(y: int, m: int): (n: int)
    requires 1 <= m <= 12
    ensures 28 <= n <= 31
    ensures m == 2 ==> (n == 29 <==> IsLeapYear(y))
  {
    if m == 2 then (if IsLeapYear(y) then 29 else 28)
    else if m == 4 || m == 6 || m == 9 || m == 11 then 30
    else 31
  }

  /** What `datetime.date(year, month, day)` accepts without raising
      (years 1 to 9999, months 1 to 12, days within the month). */
  predicate IsValid(d: Date) {
    1 <= d.year <= 9999 && 1 <= d.month <= 12 && 1 <= d.day <= DaysInMonth(d.year, d.month)
  }

  /** `a < b` on dates. */
  predicate Before(a: Date, b: Date) {
    a.year < b.year
    || (a.year == b.year && a.month < b.month)
    || (a.year == b.year && a.month == b.month && a.day < b.day)
  }

  /** `a >= b` on dates. */
  predicate OnOrAfter(a: Date, b: Date) {
    !Before(a, b)
  }

  /** The `%y` directive of `strptime`: a two-digit year 00-68 is read as
      2000-2068 and 69-99 as 1969-1999. */
  function ExpandYear(yy: int): (y: int)
    requires 0 <= yy < 100
    ensures 1969 <= y <= 2068 && y % 100 == yy
    ensures y >= 2000 <==> yy <= 68
  {
    if yy <= 68 then 2000 + yy else 1900 + yy
  }
}
