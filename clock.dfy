/**
 * Time as integer seconds on the naive local clock the subscription object
 * stamps its fields with, and whole-day counts between two such instants.
 */
module Clock {

  /** Seconds in one day of the naive clock (no leap seconds, no DST shifts). */
  const Day: int := 86400

  /**
   * The `.days` of the difference `to - from`: the largest whole number of
   * days that fits in it, so it rounds towards minus infinity.
   */
  function DaysBetween(from: int, to: int): (d: int)
    ensures d * Day <= to - from < d * Day + Day
  {
    (to - from) / Day
  }

  /** The floor property determines the day count. */
  lemma DaysBetweenUnique(from: int, to: int, d: int)
    requires d * Day <= to - from < d * Day + Day
    ensures DaysBetween(from, to) == d
  {
  }

  /** An interval of exactly `k` days, plus less than one day, counts as `k`. */
  lemma WholeDays(from: int, k: int, extra: int)
    requires 0 <= extra < Day
    ensures DaysBetween(from, from + k * Day + extra) == k
  {
  }

  /** A later end never yields fewer days. */
  lemma DaysMonotone(from: int, to1: int, to2: int)
    requires to1 <= to2
    ensures DaysBetween(from, to1) <= DaysBetween(from, to2)
  {
  }

  /**
   * Splitting an interval at a middle instant: the two day counts add up to
   * the whole count, or to one less than it (the two remainders may make up
   * one more whole day together).
   */
  lemma DaysSplit(from: int, mid: int, to: int)
    ensures DaysBetween(from, to) - DaysBetween(from, mid) == DaysBetween(mid, to)
         || DaysBetween(from, to) - DaysBetween(from, mid) == DaysBetween(mid, to) + 1
  {
  }
}
