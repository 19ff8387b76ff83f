/** Date keys of the dataset and the Gregorian calendar facts the period
    selection needs. */
module Calendar {
  import opened Sorting

  /** A dataset key: a calendar day (written `yyyy-MM-dd` by the processor),
      or the month-summary pseudo-date `"Итог за месяц"`. */
  datatype DateKey = Date(year: int, month: int, day: int) | MonthSummary

  predicate IsLeapYear(y: int) {
    y % 4 == 0 && (y % 100 != 0 || y % 400 == 0)
  }

  /** `DateTime.DaysInMonth`. */
  function DaysInMonth(y: int, m: int): int
    requires 1 <= m <= 12
  {
    if m == 2 then (if IsLeapYear(y) then 29 else 28)
    else if m == 4 || m == 6 || m == 9 || m == 11 then 30
    else 31
  }

  /** A day that `DateTime` can represent. */
  predicate IsCalendarDate(k: DateKey) {
    k.Date? && 1 <= k.year <= 9999 && 1 <= k.month <= 12 && 1 <= k.day <= DaysInMonth(k.year, k.month)
  }

  /** The order in which `OrderBy` lists the keys: for four-digit years the
      `yyyy-MM-dd` text sorts chronologically, and the Cyrillic summary label
      sorts after every digit. */
  predicate Before(a: DateKey, b: DateKey) {
    match (a, b)
    case (Date(y1, m1, d1), Date(y2, m2, d2)) =>
      y1 < y2 || (y1 == y2 && (m1 < m2 || (m1 == m2 && d1 < d2)))
    case (Date(_, _, _), MonthSummary) => true
    case (MonthSummary, _) => false
  }

  lemma BeforeIsStrictTotalOrder()
    ensures StrictTotalOrder(Before)
  {
  }

  /** February has 29 days exactly in the Gregorian leap years, which skip
      the centuries not divisible by 400. */
  lemma FebruaryLength(y: int)
    ensures DaysInMonth(y, 2) == 29 <==> IsLeapYear(y)
    ensures DaysInMonth(1900, 2) == 28 && DaysInMonth(2000, 2) == 29
    ensures DaysInMonth(2024, 2) == 29 && DaysInMonth(2023, 2) == 28
  {
  }
}
