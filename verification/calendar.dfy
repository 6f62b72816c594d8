/** Calendar dates and English month names. The dashboard parses each
    `Date` cell into a timestamp and labels it with `strftime('%B')`; the
    same twelve names drive the month buttons. */
module Calendar {

  /** A date cell as it stands in a sheet: not yet known to be a real day. */
  datatype Date = Date(year: int, month: int, day: int)

  /** Gregorian leap-year rule. */
  predicate IsLeapYear(y: int) {
    y % 4 == 0 && (y % 100 != 0 || y % 400 == 0)
  }

  /** The length of month `m` of year `y` in the Gregorian calendar. */
  function DaysInMonth(y: int, m: int): (n: int)
    requires 1 <= m <= 12
    ensures 28 <= n <= 31
    ensures n == 28 <==> m == 2 && !IsLeapYear(y)
    ensures n == 29 <==> m == 2 && IsLeapYear(y)
    ensures n == 30 <==> m == 4 || m == 6 || m == 9 || m == 11
  {
    if m == 2 then (if IsLeapYear(y) then 29 else 28)
    else if m == 4 || m == 6 || m == 9 || m == 11 then 30
    else 31
  }

  /** A date the parser accepts: a day that exists in the Gregorian calendar. */
  predicate ValidDate(d: Date) {
    1 <= d.month <= 12 && 1 <= d.day <= DaysInMonth(d.year, d.month)
  }

  /** The full English month names, January first (main.py:211-215). */
  const MonthNames: seq<string> :=
    ["January", "February", "March", "April", "May", "June",
     "July", "August", "September", "October", "November", "December"]

  /** The label `strftime('%B')` gives a date in month `m`. */
  function MonthName(m: int): string
    requires 1 <= m <= 12
  {
    MonthNames[m - 1]
  }

  /** The month number a name stands for, or 0 when it names no month. */
  function MonthNumber(name: string): int {
    if name == "January" then 1
    else if name == "February" then 2
    else if name == "March" then 3
    else if name == "April" then 4
    else if name == "May" then 5
    else if name == "June" then 6
    else if name == "July" then 7
    else if name == "August" then 8
    else if name == "September" then 9
    else if name == "October" then 10
    else if name == "November" then 11
    else if name == "December" then 12
    else 0
  }

  /** Every label is one of the twelve names, no two months share a label,
      and the label determines the month number. */
  lemma MonthNameRoundTrip(m: int)
    requires 1 <= m <= 12
    ensures MonthName(m) in MonthNames
    ensures MonthNumber(MonthName(m)) == m
    ensures MonthName(m) != ""
  {
  }
}
