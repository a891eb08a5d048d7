/**
 * The parts of Python's `datetime` the core relies on: the proleptic
 * Gregorian ordinal (`date.toordinal`, `date.fromordinal`), `weekday()`,
 * the `YYYY-MM` key of `strftime('%Y-%m')` and chronological order.
 * Parsing ISO text (`datetime.fromisoformat`) is not modelled: it is passed
 * in as an `IsoParser`.
 */
module Dates {
  import opened Wrappers
  import Text

  datatype DateTime = DateTime(year: int, month: int, day: int,
                               hour: int, minute: int, second: int, microsecond: int)

  /** `datetime.fromisoformat`, abstract: None stands for the ValueError. */
  type IsoParser = string -> Option<DateTime>

  predicate IsLeap(y: int) { y % 4 == 0 && (y % 100 != 0 || y % 400 == 0) }

  function DaysInMonth(y: int, m: int): int
    requires 1 <= m <= 12
  {
    if m == 2 then (if IsLeap(y) then 29 else 28)
    else if m == 4 || m == 6 || m == 9 || m == 11 then 30
    else 31
  }

  /** Days in the months of year `y` before month `m`. */
  function DaysBeforeMonth(y: int, m: int): int
    requires 1 <= m <= 12
    decreases m
  {
    if m == 1 then 0 else DaysBeforeMonth(y, m - 1) + DaysInMonth(y, m - 1)
  }

  function DaysBeforeYear(y: int): int {
    var p := y - 1;
    p * 365 + p / 4 - p / 100 + p / 400
  }

  /** `date(y, m, d).toordinal()`: 0001-01-01 is day 1. */
  function ToOrdinal(y: int, m: int, d: int): int
    requires 1 <= m <= 12
  {
    DaysBeforeYear(y) + DaysBeforeMonth(y, m) + d
  }

  /** `dt.date()` as an ordinal day number. */
  function DateOf(dt: DateTime): int {
    if 1 <= dt.month <= 12 then ToOrdinal(dt.year, dt.month, dt.day) else DaysBeforeYear(dt.year) + dt.day
  }

  /** `date.weekday()`: Monday is 0, Sunday is 6. */
  function Weekday(ordinal: int): (w: int)
    ensures 0 <= w < 7
  {
    (ordinal + 6) % 7
  }

  /** The (month, day) of `date.fromordinal(n)`, by the algorithm CPython uses. */
  function MonthDayOf(ordinal: int): (md: (int, int))
    ensures 1 <= md.0 <= 12
  {
    var n0 := ordinal - 1;
    var n := n0 % 146097;
    var n100 := n / 36524;
    var n' := n % 36524;
    var n4 := n' / 1461;
    var n'' := n' % 1461;
    var n1 := n'' / 365;
    var r := n'' % 365;
    if n1 == 4 || n100 == 4 then (12, 31)
    else
      var leap := n1 == 3 && (n4 != 24 || n100 == 3);
      // year 4 stands for any leap year, year 1 for any common year
      var m := (r + 50) / 32;
      var preceding := DaysBeforeMonth(if leap then 4 else 1, m);
      if preceding > r then
        (m - 1, r - (preceding - DaysInMonth(if leap then 4 else 1, m - 1)) + 1)
      else
        (m, r - preceding + 1)
  }

  /** `dt.strftime('%Y-%m')`. */
  function MonthKey(dt: DateTime): string {
    Text.PadInt(dt.year, 4) + "-" + Text.PadInt(dt.month, 2)
  }

  /** Microseconds since 0001-01-01: the order in which datetimes compare. */
  function Instant(dt: DateTime): int {
    ((DateOf(dt) * 24 + dt.hour) * 60 + dt.minute) * 60_000_000 + dt.second * 1_000_000 + dt.microsecond
  }
}
