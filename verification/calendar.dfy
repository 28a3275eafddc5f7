/** Python `datetime.date` values as proleptic Gregorian day ordinals (0001-01-01 is day 1). */
module Calendar {

  /** The ordinal of 9999-12-31, `date.max`. */
  const MaxOrdinal := 3652059

  /** A value Python's `date` type can hold. */
  type Date = d: int | 1 <= d <= MaxOrdinal witness 1

  predicate IsLeap(y: int) {
    y % 4 == 0 && (y % 100 != 0 || y % 400 == 0)
  }

  function DaysInMonth(y: int, m: int): int
    requires 1 <= m <= 12
  {
    if m == 2 then (if IsLeap(y) then 29 else 28)
    else if m in {4, 6, 9, 11} then 30
    else 31
  }

  function DaysBeforeYear(y: int): int
    requires y >= 1
  {
    var p := y - 1;
    p * 365 + p / 4 - p / 100 + p / 400
  }

  function DaysBeforeMonth(y: int, m: int): int
    requires 1 <= m <= 12
    decreases m
  {
    if m == 1 then 0 else DaysBeforeMonth(y, m - 1) + DaysInMonth(y, m - 1)
  }

  /** `date(y, m, d).toordinal()`. */
  function DayOrdinal(y: int, m: int, d: int): int
    requires 1 <= y && 1 <= m <= 12 && 1 <= d <= DaysInMonth(y, m)
  {
    DaysBeforeYear(y) + DaysBeforeMonth(y, m) + d
  }
}
