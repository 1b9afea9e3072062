# Business-hours calendar logic, in Dafny

A model of `calendar_logic.py` from the `timedelta_business_hours` repository.
The module measures elapsed "business time" between two timestamps. Each date
has a business window: 06:00–20:00 on workdays, and 07:00–18:00 on holidays.
Saturdays, Sundays and the listed date 2021-05-05 are holidays.

The module does two things:

- `Day.from_timestamp` snaps an out-of-hours timestamp to a window boundary.
  The direction depends on the role: an issue starts an interval and a
  resolve ends one.
- `Day.__sub__` gives the business seconds between two `Day`s.

Files:

- `dates.dfy` (module `Dates`) holds the part of Python's `datetime` the code relies on:
  - a date is its ordinal (`toordinal`), limited to `date.min .. date.max`;
  - a time of day is whole seconds since midnight;
  - also `isoweekday`, the seconds count behind `datetime` subtraction, and the `datetime` order.
- `calendar_logic.dfy` (module `CalendarLogic`) is the source file:
  - `DayType`, the hours tables and `HolidayCalendar` as functions;
  - `is_time_between` as a predicate;
  - `Day` as a class. Its role, day type and cached hours are constant fields. `timestamp` is the one field that changes.
  - `Day.FromTimestamp` is proved against the function `Normalize`.
  - `Day.Sub` is proved against the function `Elapsed`. Its day-summing loop carries an invariant over `SumSeconds`.
- `calendar_properties.dfy` (module `CalendarProperties`) holds the lemmas:
  - what normalization guarantees;
  - what subtraction computes, proved equal to an independent date-by-date count of business seconds (`BusinessSeconds`);
  - the weekly structure of the calendar;
  - the scenarios of the test module and of the demo block.

Behaviour the model keeps because the code has it:

- `__sub__` does not use the operands' cached hours. It looks up hours from each timestamp's own date: `Hours.get_close(minuend)` and `Hours.get_open(sub)`. Those calls pass a `datetime`. A `datetime` never equals a `date`, so the `HOLIDAYS` list never matches there, and only the weekend test applies (`IsHolidayAt`). On 2021-05-05 the tail is therefore measured from workday closing time (`ListedHolidayTailScenario`), and the head from workday opening time (`ListedHolidayHeadScenario`).
- The tail and head gaps are not clamped. A later operand after closing time adds its overrun instead of losing it. So on the second test case the code computes 196200 seconds, where the test expects 0 (`RawOperandsScenario`).
- `from_timestamp` does not refresh the cached day type or hours after it moves to another date.
- `from_timestamp` can step past `date.max` (an issue after closing) or `date.min` (a resolve before opening). Python then raises `OverflowError`, which the model returns as `Err(OverflowError)`.

## Model

| member | source | states |
|---|---|---|
| `Dates.IsoWeekday` | calendar_logic.py:157 | the ISO weekday is in 1..7 and congruent to the ordinal modulo 7 (0001-01-01 is a Monday) |
| `Dates.IsoWeekdayNext` | calendar_logic.py:157 | weekdays advance by one per date, wrapping from Sunday to Monday |
| `Dates.BeforeIsSecondsOrder` | calendar_logic.py:31 | the `datetime` order used to pick the sign is the order of the seconds count, and is total on distinct timestamps |
| `CalendarLogic.OpeningHours` | calendar_logic.py:142-149 | opening is strictly before closing for both day types |
| `CalendarLogic.IsHoliday` | calendar_logic.py:155-159 | a date is a holiday iff it is listed in `HOLIDAYS` or is a Saturday or Sunday |
| `CalendarLogic.IsHolidayAt` | calendar_logic.py:131-140 | classifying a `datetime` never gives holiday where the date is not one, and agrees with the date's classification except on a listed holiday |
| `CalendarLogic.GetSeconds` | calendar_logic.py:161-174 | a date's window lasts 11 hours on a holiday and 14 hours on a workday |
| `CalendarLogic.GetOpen` | calendar_logic.py:130-134 | the opening time looked up for a `datetime` is its date's own opening time unless the date is a listed holiday |
| `CalendarLogic.GetClose` | calendar_logic.py:136-140 | the closing time looked up for a `datetime` is its date's own closing time unless the date is a listed holiday |
| `CalendarLogic.SumSeconds` | calendar_logic.py:40-44 | the summed windows of an empty range are 0, and otherwise lie between 11 and 14 hours per date |
| `CalendarLogic.Day.constructor` | calendar_logic.py:14-23 | a new `Day` keeps its role and timestamp and caches its date's day type and that type's hours |
| `CalendarLogic.Day.FromTimestamp` | calendar_logic.py:74-117 | the new `Day`'s timestamp is the normalized one, or the call fails with `OverflowError` exactly when normalization does; the role, day type and hours stay those of the raw date |
| `CalendarLogic.Day.Sub` | calendar_logic.py:25-69 | a non-`Day` operand is a `ValueError`; otherwise the result is the elapsed seconds between the two timestamps |
| `CalendarProperties.IsTimeBetweenCases` | calendar_logic.py:119-126 | an ordinary window is the inclusive range (both bounds inside); a window crossing midnight admits all but the gap between its bounds |
| `CalendarProperties.HoursTrichotomy` | calendar_logic.py:77-79 | every time of day is inside its date's window, before opening or after closing, and exactly one of these |
| `CalendarProperties.GetSecondsByWeekday` | calendar_logic.py:157-174 | an unlisted date's window length depends only on its weekday |
| `CalendarProperties.WeekCycle` | calendar_logic.py:157 | seven cyclically consecutive weekdays hold exactly two weekend days |
| `CalendarProperties.SumSecondsWeek` | calendar_logic.py:153-174 | any seven consecutive unlisted dates sum to five 14-hour and two 11-hour windows |
| `CalendarProperties.NormalizeKeepsInHours` | calendar_logic.py:76-78 | a timestamp inside its date's window is returned unchanged |
| `CalendarProperties.NormalizeSameDate` | calendar_logic.py:79-85 | a resolve after closing snaps to that date's closing time; an issue before opening snaps to that date's opening time (lines 99-103) |
| `CalendarProperties.NormalizeCrossDate` | calendar_logic.py:86-116 | an issue after closing moves to the next date's own opening time; a resolve before opening moves to the previous date's own closing time; stepping off the calendar is `OverflowError` |
| `CalendarProperties.NormalizeFails` | calendar_logic.py:87-105 | normalization fails iff an issue after closing is on `date.max` or a resolve before opening is on `date.min` |
| `CalendarProperties.NormalizeLandsInHours` | calendar_logic.py:75-117 | a normalized timestamp is inside the window of the date it lands on, at most one date away, never earlier for an issue and never later for a resolve |
| `CalendarProperties.NormalizeIdempotent` | calendar_logic.py:75-117 | normalizing a normalized timestamp again with the same role leaves it unchanged |
| `CalendarProperties.ElapsedSameDate` | calendar_logic.py:28-29 | on one date the result is the wall-clock difference, so equal timestamps give 0 |
| `CalendarProperties.ElapsedAntisymmetric` | calendar_logic.py:30-39 | swapping the operands flips the sign of the result (lines 30-39 and 65) |
| `CalendarProperties.SumSecondsFirst` | calendar_logic.py:40-44 | the summed windows of a non-empty range are the first date's window plus the rest |
| `CalendarProperties.BusinessSecondsBeforeLastDate` | calendar_logic.py:40-63 | up to any date before the later one, business time is the rest of the earlier date's window plus whole windows |
| `CalendarProperties.WindowOverlapLastDate` | calendar_logic.py:45-56 | on the later date, a timestamp inside business hours has used its window from opening up to itself |
| `CalendarProperties.ElapsedOrderedByDate` | calendar_logic.py:40-63 | the sum minus tail and head equals the rest of the earlier window, plus the whole windows in between, plus the used part of the later window |
| `CalendarProperties.ElapsedIsBusinessTime` | calendar_logic.py:30-65 | for in-hours timestamps on different unlisted dates, the result is exactly the business seconds between them (non-negative), negated when the operands are swapped |
| `CalendarProperties.ElapsedSameDateIsBusinessTime` | calendar_logic.py:28-29 | for in-hours timestamps in order on one date, the wall-clock difference is exactly the business seconds between them, negated when the operands are swapped |
| `CalendarProperties.ElapsedSignBySecondsOrder` | calendar_logic.py:30-39 | on different dates the operand order that decides the sign is the seconds-count order, which is never a tie; the result is negated exactly when the minuend is the earlier one |
| `CalendarProperties.NormalizedElapsedIsBusinessTime` | calendar_logic.py:75-117 | a normalized resolve minus a normalized issue on different unlisted dates is the business time between them |
| `CalendarProperties.SameTimestampScenario` | tests/test_calendar_logic.py:8-13 | issue and resolve both at 2021-01-01 10:00 are 0 seconds apart |
| `CalendarProperties.RawOperandsScenario` | tests/test_calendar_logic.py:8-13 | unnormalized issue 2021-03-02 19:50 and resolve 2021-03-06 19:20 give 196200 seconds as the code computes them |
| `CalendarProperties.NormalizedOperandsScenario` | calendar_logic.py:178-184 | the same moments built with `from_timestamp` snap the resolve to Saturday 18:00 and give 191400 seconds |
| `CalendarProperties.ListedHolidayTailScenario` | calendar_logic.py:45-57 | from Tuesday 2021-05-04 10:00 to the listed holiday 10:00 the code gives 39600 seconds where the business time is 46800 |
| `CalendarProperties.ListedHolidayHeadScenario` | calendar_logic.py:57-63 | from the listed holiday 2021-05-05 10:00 to Thursday 10:00 the code gives 39600 seconds where the business time is 43200 |

`Normalize`, `Elapsed`, `ElapsedOrdered`, `IsTimeBetween` and `InHours` are
the specification functions that the methods and lemmas above are stated
against.

## Left out

- Logging (`loguru` calls): diagnostics only, no effect on results.
- The `__main__` demo block, including its dead code after `exit()`. Its computation is stated as `NormalizedOperandsScenario`.
- `Day.__repr__`: `strftime` formatting needs ordinal-to-calendar conversion, a library call.
- The `datetime.utcnow()` default of `is_time_between`: it reads the clock. The time to check is always supplied, as every caller does.
- Microseconds and floating point:
  - timestamps are whole seconds;
  - `total_seconds()` and `timedelta` results are integer seconds, which the float arithmetic represents exactly at these magnitudes;
  - `replace(hour, minute, second)` keeps microseconds, so a sub-second timestamp would stay outside the window after snapping. That case is not modelled.
- Time zones: the code uses naive `datetime`s only.
- The holiday list is the fixed constant of the code.
- The test module itself. Its second expectation (0 seconds) does not match the code, and it is not encoded as a property.
- Python subclasses of `Day` and other operand types beyond "a `Day` or not": the operand of subtraction is an `object`, and `is Day` stands for `isinstance`.
