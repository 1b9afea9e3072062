/** Business-time arithmetic of `calendar_logic.py`: which dates are holidays,
    the business window of each kind of day, snapping a timestamp into that
    window, and the business seconds elapsed between two timestamps. */
module CalendarLogic {
  import opened Dates

  datatype DayType = Workday | Holiday

  /** The two exceptions the source raises: `ValueError` from `Day.__sub__`, and
      Python's `OverflowError` when `from_timestamp` steps past `date.min` or
      `date.max`. */
  datatype Error = ValueError | OverflowError

  datatype Result<T> = Ok(value: T) | Err(error: Error)

  /** `DayType.HOLIDAY if is_holiday else DayType.WORKDAY`. */
  function TypeOf(isHoliday: bool): DayType
  {
    if isHoliday then Holiday else Workday
  }

  // ---------------------------------------------------------------- Hours

  /** `Hours.opening_hours`: 06:00 on workdays, 07:00 on holidays. */
  function OpeningHours(t: DayType): (r: TimeOfDay)
    ensures r < ClosingHours(t)
  {
    match t
    case Workday => 6 * SecondsPerHour
    case Holiday => 7 * SecondsPerHour
  }

  /** `Hours.closing_hours`: 20:00 on workdays, 18:00 on holidays. */
  function ClosingHours(t: DayType): TimeOfDay
  {
    match t
    case Workday => 20 * SecondsPerHour
    case Holiday => 18 * SecondsPerHour
  }

  // ------------------------------------------------------ HolidayCalendar

  /** `HolidayCalendar.HOLIDAYS`: the single listed holiday 2021-05-05. */
  const Holidays: seq<Ordinal> := [737915]

  /** `is_holiday` applied to a `date`: listed, or a Saturday or Sunday. */
  function IsHoliday(d: Ordinal): (r: bool)
    ensures r <==> d in Holidays || IsoWeekday(d) in {6, 7}
  {
    d in Holidays || IsoWeekday(d) > 5
  }

  /** `is_holiday` applied to a `datetime`, as `Hours.get_open` and
      `Hours.get_close` are called: a `datetime` never equals a `date`, so the
      membership test in `HOLIDAYS` is always false and only weekends count. */
  function IsHolidayAt(ts: Timestamp): (r: bool)
    ensures r ==> IsHoliday(ts.date)
    ensures ts.date !in Holidays ==> r == IsHoliday(ts.date)
  {
    IsoWeekday(ts.date) > 5
  }

  /** `HolidayCalendar.get_seconds`: the length of the business window of `d`. */
  function GetSeconds(d: Ordinal): (r: int)
    ensures r == if IsHoliday(d) then 11 * SecondsPerHour else 14 * SecondsPerHour
  {
    var dayType := TypeOf(IsHoliday(d));
    ClosingHours(dayType) - OpeningHours(dayType)
  }

  /** `Hours.get_open` as `__sub__` calls it, on a `datetime`. */
  function GetOpen(ts: Timestamp): (r: TimeOfDay)
    ensures ts.date !in Holidays ==> r == OpeningHours(TypeOf(IsHoliday(ts.date)))
  {
    OpeningHours(TypeOf(IsHolidayAt(ts)))
  }

  /** `Hours.get_close` as `__sub__` calls it, on a `datetime`. */
  function GetClose(ts: Timestamp): (r: TimeOfDay)
    ensures ts.date !in Holidays ==> r == ClosingHours(TypeOf(IsHoliday(ts.date)))
  {
    ClosingHours(TypeOf(IsHolidayAt(ts)))
  }

  /** The sum of `get_seconds(d)` over the dates `first .. last`, empty when
      `last < first`; each day contributes between 11 and 14 hours. */
  function SumSeconds(first: int, last: int): (r: int)
    requires MinOrdinal <= first && last <= MaxOrdinal
    ensures last < first ==> r == 0
    ensures first <= last ==>
      11 * SecondsPerHour * (last - first + 1) <= r <= 14 * SecondsPerHour * (last - first + 1)
    decreases last - first
  {
    if last < first then 0 else SumSeconds(first, last - 1) + GetSeconds(last)
  }

  // ------------------------------------------------------------------ Day

  /** `Day.is_time_between`: the inclusive window `begin .. end`, or, when
      `begin >= end`, a window crossing midnight (everything outside the gap
      strictly between `end` and `begin`). */
  predicate IsTimeBetween(begin: TimeOfDay, end: TimeOfDay, check: TimeOfDay)
  {
    if begin < end then check >= begin && check <= end
    else check >= begin || check <= end
  }

  /** A timestamp lies within the business window of its own date. */
  predicate InHours(ts: Timestamp)
  {
    var dayType := TypeOf(IsHoliday(ts.date));
    IsTimeBetween(OpeningHours(dayType), ClosingHours(dayType), ts.time)
  }

  /** The timestamp that `Day.from_timestamp` leaves in `day.timestamp`, or the
      `OverflowError` it raises. */
  function Normalize(ts: Timestamp, issueNotResolve: bool): Result<Timestamp>
  {
    var dayType := TypeOf(IsHoliday(ts.date));
    var open, close := OpeningHours(dayType), ClosingHours(dayType);
    if IsTimeBetween(open, close, ts.time) then Ok(ts)
    else if ts.time > close then
      if !issueNotResolve then Ok(Timestamp(ts.date, close))
      else if ts.date == MaxOrdinal then Err(OverflowError)
      else Ok(Timestamp(ts.date + 1, OpeningHours(TypeOf(IsHoliday(ts.date + 1)))))
    else
      if issueNotResolve then Ok(Timestamp(ts.date, open))
      else if ts.date == MinOrdinal then Err(OverflowError)
      else Ok(Timestamp(ts.date - 1, ClosingHours(TypeOf(IsHoliday(ts.date - 1)))))
  }

  /** `__sub__` on two timestamps on different dates, `later` after `earlier`:
      the whole windows of every date from the earlier to the later one, less
      the tail after `later` and the head before `earlier`. */
  function ElapsedOrdered(later: Timestamp, earlier: Timestamp): int
    requires earlier.date < later.date
  {
    SumSeconds(earlier.date, later.date)
      - (GetClose(later) - later.time)
      - (earlier.time - GetOpen(earlier))
  }

  /** The seconds of the `timedelta` that `minuend - subtrahend` returns when
      both operands are `Day`s. */
  function Elapsed(minuend: Timestamp, subtrahend: Timestamp): int
  {
    if minuend.date == subtrahend.date then TotalSeconds(minuend) - TotalSeconds(subtrahend)
    else if Before(minuend, subtrahend) then -ElapsedOrdered(subtrahend, minuend)
    else ElapsedOrdered(minuend, subtrahend)
  }

  /** A timestamp tagged with its role. The day type and its hours are read
      once, at construction, and never refreshed; only the timestamp changes. */
  class Day {
    const isIssueDay: bool
    const dayType: DayType
    const open: TimeOfDay
    const close: TimeOfDay
    var timestamp: Timestamp

    /** `Day.__init__`. */
    constructor (timestamp: Timestamp, isIssueDay: bool)
      ensures this.isIssueDay == isIssueDay
      ensures dayType == TypeOf(IsHoliday(timestamp.date))
      ensures open == OpeningHours(dayType) && close == ClosingHours(dayType)
      ensures this.timestamp == timestamp
    {
      this.isIssueDay := isIssueDay;
      dayType := TypeOf(IsHoliday(timestamp.date));
      open := OpeningHours(TypeOf(IsHoliday(timestamp.date)));
      close := ClosingHours(TypeOf(IsHoliday(timestamp.date)));
      this.timestamp := timestamp;
    }

    /** `Day.from_timestamp`: a new `Day` whose timestamp is snapped into
        business hours according to its role; its cached day type and hours
        stay those of the original date. */
    static method FromTimestamp(timestamp: Timestamp, issueNotResolve: bool) returns (r: Result<Day>)
      ensures r.Ok? <==> Normalize(timestamp, issueNotResolve).Ok?
      ensures r.Err? ==> r.error == OverflowError
      ensures r.Ok? ==> fresh(r.value) && r.value.timestamp == Normalize(timestamp, issueNotResolve).value
      ensures r.Ok? ==> r.value.isIssueDay == issueNotResolve
      ensures r.Ok? ==> r.value.dayType == TypeOf(IsHoliday(timestamp.date))
      ensures r.Ok? ==> r.value.open == OpeningHours(r.value.dayType)
      ensures r.Ok? ==> r.value.close == ClosingHours(r.value.dayType)
    {
      var day := new Day(timestamp, issueNotResolve);
      if IsTimeBetween(day.open, day.close, timestamp.time) {
        return Ok(day);
      }
      if timestamp.time > day.close {
        if !day.isIssueDay {
          day.timestamp := Timestamp(day.timestamp.date, day.close);
        } else {
          if day.timestamp.date == MaxOrdinal {
            return Err(OverflowError);
          }
          var tomorrow := day.timestamp.date + 1;
          var nextDayType := TypeOf(IsHoliday(tomorrow));
          day.timestamp := Timestamp(day.timestamp.date, OpeningHours(nextDayType));
          day.timestamp := Timestamp(day.timestamp.date + 1, day.timestamp.time);
        }
      } else {
        if day.isIssueDay {
          day.timestamp := Timestamp(day.timestamp.date, day.open);
        } else {
          if day.timestamp.date == MinOrdinal {
            return Err(OverflowError);
          }
          var yesterday := day.timestamp.date - 1;
          var lastDayType := TypeOf(IsHoliday(yesterday));
          day.timestamp := Timestamp(day.timestamp.date, ClosingHours(lastDayType));
          day.timestamp := Timestamp(day.timestamp.date - 1, day.timestamp.time);
        }
      }
      return Ok(day);
    }

    /** `Day.__sub__`: `ValueError` unless `other` is a `Day`, otherwise the
        elapsed seconds from `other` to this day. */
    method Sub(other: object) returns (r: Result<int>)
      ensures !(other is Day) ==> r == Err(ValueError)
      ensures other is Day ==> r == Ok(Elapsed(timestamp, (other as Day).timestamp))
    {
      if !(other is Day) {
        return Err(ValueError);
      }
      var that := other as Day;
      if timestamp.date == that.timestamp.date {
        return Ok(TotalSeconds(timestamp) - TotalSeconds(that.timestamp));
      }
      var multiplicator := 1;
      var minuend, sub;
      if Before(timestamp, that.timestamp) {
        minuend := that.timestamp;
        sub := timestamp;
        multiplicator := -1;
      } else {
        minuend := timestamp;
        sub := that.timestamp;
      }
      var delta := minuend.date - sub.date;
      var secondsSum := 0;
      for i := 0 to delta + 1
        invariant secondsSum == SumSeconds(sub.date, sub.date + i - 1)
      {
        var day: Ordinal := sub.date + i;
        secondsSum := secondsSum + GetSeconds(day);
      }
      var minuendClose := GetClose(minuend);
      secondsSum := secondsSum - (minuendClose - minuend.time);
      var subOpen := GetOpen(sub);
      secondsSum := secondsSum - (sub.time - subOpen);
      return Ok(secondsSum * multiplicator);
    }
  }
}
