/**
 Billing periods (app/utils/dates.py): half-open calendar-month windows over
 naive UTC timestamps, which compare field by field.
 */
module Dates {

  datatype DateTime = DateTime(year: int, month: int, day: int, micros: int) {
    predicate Valid() {
      1 <= year && 1 <= month <= 12 && 1 <= day <= 31 && 0 <= micros < 86_400_000_000
    }

    predicate Before(that: DateTime) {
      || year < that.year
      || (year == that.year && month < that.month)
      || (year == that.year && month == that.month && day < that.day)
      || (year == that.year && month == that.month && day == that.day && micros < that.micros)
    }

    predicate AtMost(that: DateTime) {
      !that.Before(this)
    }
  }

  type Instant = d: DateTime | d.Valid() witness DateTime(1, 1, 1, 0)

  /** Timestamps compare as one number of microseconds does, in months of 31 days. */
  lemma BeforeIsNumeric(a: Instant, b: Instant)
    ensures a.Before(b) <==>
              ((a.year * 12 + a.month) * 31 + a.day) * 86_400_000_000 + a.micros
              < ((b.year * 12 + b.month) * 31 + b.day) * 86_400_000_000 + b.micros
    ensures a.AtMost(b) <==> a == b || a.Before(b)
  {
  }

  /** Consecutive numbering of calendar months; January of year 1 is 12. */
  function Month(d: Instant): (m: int)
    ensures 12 <= m
  {
    12 * d.year + d.month - 1
  }

  function MonthStart(m: int): (start: Instant)
    requires 12 <= m
    ensures Month(start) == m
  {
    DateTime(m / 12, m % 12 + 1, 1, 0)
  }

  function MonthBounds(reference: Instant): (window: (Instant, Instant)) {
    var start := DateTime(reference.year, reference.month, 1, 0);
    var end :=
      if reference.month == 12 then DateTime(reference.year + 1, 1, 1, 0)
      else DateTime(reference.year, reference.month + 1, 1, 0);
    (start, end)
  }

  predicate InWindow(d: DateTime, window: (Instant, Instant)) {
    window.0.AtMost(d) && d.Before(window.1)
  }

  /** A window holds exactly the instants of its reference's month. */
  lemma WindowIsMonth(reference: Instant, d: Instant)
    ensures InWindow(d, MonthBounds(reference)) <==> Month(d) == Month(reference)
    ensures MonthBounds(reference) == (MonthStart(Month(reference)), MonthStart(Month(reference) + 1))
  {
  }

  lemma MonthIsMonotone(a: Instant, b: Instant)
    requires a.AtMost(b)
    ensures Month(a) <= Month(b)
  {
  }

  /** Between two month starts lie exactly the months between their numbers. */
  lemma SpanIsMonths(lo: int, hi: int, d: Instant)
    requires 12 <= lo && 12 <= hi
    ensures MonthStart(lo).AtMost(d) && d.Before(MonthStart(hi)) <==> lo <= Month(d) < hi
  {
  }

  /** Windows tile time: each instant is in its own, two windows are equal or
      share no instant, and each window ends where the next one starts. */
  lemma WindowsTile(a: Instant, b: Instant)
    ensures InWindow(a, MonthBounds(a))
    ensures MonthBounds(a) == MonthBounds(b) || forall d: Instant ::
              !(InWindow(d, MonthBounds(a)) && InWindow(d, MonthBounds(b)))
    ensures MonthBounds(a).1 == MonthBounds(MonthBounds(a).1).0
    ensures Month(MonthBounds(a).1) == Month(a) + 1
  {
    forall d: Instant | InWindow(d, MonthBounds(a)) && InWindow(d, MonthBounds(b))
      ensures MonthBounds(a) == MonthBounds(b)
    {
      WindowIsMonth(a, d);
      WindowIsMonth(b, d);
      WindowIsMonth(a, a);
      WindowIsMonth(b, b);
    }
  }
}
