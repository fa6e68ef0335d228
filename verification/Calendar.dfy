/** Calendar dates and months. */
module Calendar {
  datatype DateParts = DateParts(year: int, month: int, day: int)

  type Date = d: DateParts | 1 <= d.month <= 12 witness DateParts(2026, 1, 1)

  /** Months counted through the years, so that month m of year y is 12 * y + m - 1. */
  function MonthOf(d: Date): int { 12 * d.year + d.month - 1 }

  /** Bucket `i` of a year holds exactly the dates of that month of that year. */
  lemma MonthExactly(d: Date, year: int, i: nat)
    requires i < 12
    ensures MonthOf(d) == 12 * year + i <==> d.year == year && d.month == i + 1
  {
    if d.year != year { assert 12 * d.year - 12 * year >= 12 || 12 * d.year - 12 * year <= -12; }
  }
}
