/** Calendar dates and the inclusive reporting window. */
module Dates {
  import opened Optional

  /** A calendar date once the date column has been coerced to `.dt.date`. */
  datatype Date = Date(year: int, month: int, day: int)

  /** `a <= b` on dates: by year, then month, then day. */
  predicate NotAfter(a: Date, b: Date) {
    || a.year < b.year
    || (a.year == b.year && a.month < b.month)
    || (a.year == b.year && a.month == b.month && a.day <= b.day)
  }

  /** The reporting period. An absent bound leaves that side open; a present
      start later than a present end is not rejected (the window is then empty). */
  datatype Window = Window(start: Option<Date>, end: Option<Date>)

  /** Both bounds are inclusive. */
  predicate InWindow(d: Date, w: Window) {
    && (w.start.None? || NotAfter(w.start.value, d))
    && (w.end.None? || NotAfter(d, w.end.value))
  }

  /** The period the script is configured with: 2025-01-01 to 2025-12-31. */
  const ReportWindow: Window := Window(Some(Date(2025, 1, 1)), Some(Date(2025, 12, 31)))

  /** The comparison used by the window is a total order on dates. */
  lemma NotAfterIsTotalOrder(a: Date, b: Date, c: Date)
    ensures NotAfter(a, a)
    ensures NotAfter(a, b) || NotAfter(b, a)
    ensures NotAfter(a, b) && NotAfter(b, a) ==> a == b
    ensures NotAfter(a, b) && NotAfter(b, c) ==> NotAfter(a, c)
  {
  }
}
