/** Calendar dates, times of day and timestamps, as Python's `datetime` module
    represents them, restricted to whole seconds.

    A date is its proleptic Gregorian ordinal (`date.toordinal()`: 0001-01-01 is 1),
    a time of day is the number of seconds since midnight, and a naive `datetime`
    is the pair of the two. */
module Dates {

  /** Ordinals of `date.min` (0001-01-01) and `date.max` (9999-12-31). */
  const MinOrdinal: int := 1
  const MaxOrdinal: int := 3652059

  const SecondsPerHour: int := 3600
  const SecondsPerDay: int := 86400

  /** A `date`: Python refuses any date outside `date.min .. date.max`. */
  type Ordinal = d: int | MinOrdinal <= d <= MaxOrdinal witness MinOrdinal

  /** A whole-second `time` of day. */
  type TimeOfDay = t: int | 0 <= t < SecondsPerDay

  /** A naive whole-second `datetime`. */
  datatype Timestamp = Timestamp(date: Ordinal, time: TimeOfDay)

  /** `date.isoweekday()`: Monday is 1 and Sunday is 7; 0001-01-01 was a Monday. */
  function IsoWeekday(d: Ordinal): (r: int)
    ensures 1 <= r <= 7
    ensures (d - r) % 7 == 0
  {
    if d % 7 == 0 then 7 else d % 7
  }

  /** Seconds since the start of the ordinal calendar: `datetime` subtraction
      and ordering are differences and comparisons of this count. */
  function TotalSeconds(ts: Timestamp): int
  {
    ts.date * SecondsPerDay + ts.time
  }

  /** `a < b` on two naive `datetime` values: by date, then by time of day. */
  predicate Before(a: Timestamp, b: Timestamp)
  {
    a.date < b.date || (a.date == b.date && a.time < b.time)
  }

  /** The weekday advances by one each day, wrapping from Sunday to Monday. */
  lemma IsoWeekdayNext(d: Ordinal)
    requires d < MaxOrdinal
    ensures IsoWeekday(d + 1) == IsoWeekday(d) % 7 + 1
  {
  }

  /** The date-then-time order of `datetime` is the order of the seconds count,
      so it is a strict total order. */
  lemma BeforeIsSecondsOrder(a: Timestamp, b: Timestamp)
    ensures Before(a, b) <==> TotalSeconds(a) < TotalSeconds(b)
    ensures a != b ==> Before(a, b) || Before(b, a)
  {
    if a.date < b.date {
      assert a.date * SecondsPerDay + SecondsPerDay <= b.date * SecondsPerDay;
    } else if b.date < a.date {
      assert b.date * SecondsPerDay + SecondsPerDay <= a.date * SecondsPerDay;
    }
  }
}
