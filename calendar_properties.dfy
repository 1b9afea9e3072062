/** What `calendar_logic.py` promises about its classifier, its normalization
    and its elapsed-time arithmetic, proved of the model in `CalendarLogic`. */
module CalendarProperties {
  import opened Dates
  import opened CalendarLogic

  // ------------------------------------------------- classifier and hours

  /** `is_time_between` is the inclusive range check on an ordinary window
      (a time exactly at opening or closing is inside), and on a window that
      crosses midnight it admits everything but the gap between the bounds. */
  lemma IsTimeBetweenCases(begin: TimeOfDay, end: TimeOfDay, check: TimeOfDay)
    ensures begin < end ==> (IsTimeBetween(begin, end, check) <==> begin <= check <= end)
    ensures begin >= end ==> (IsTimeBetween(begin, end, check) <==> !(end < check < begin))
    ensures IsTimeBetween(begin, end, begin) && IsTimeBetween(begin, end, end)
  {
  }

  /** Every date's window is non-empty, so a time of day is inside it, before
      opening or after closing, and exactly one of the three. */
  lemma HoursTrichotomy(ts: Timestamp)
    ensures var dayType := TypeOf(IsHoliday(ts.date));
      var open, close := OpeningHours(dayType), ClosingHours(dayType);
      && open < close
      && (InHours(ts) <==> open <= ts.time <= close)
      && (!InHours(ts) <==> ts.time < open || ts.time > close)
  {
  }

  /** A date that is not listed has the window of its weekday. */
  lemma GetSecondsByWeekday(d: Ordinal)
    requires d !in Holidays
    ensures GetSeconds(d) == if IsoWeekday(d) > 5 then 11 * SecondsPerHour else 14 * SecondsPerHour
  {
  }

  /** The window length, in hours, of an unlisted date on ISO weekday `w`. */
  function WindowHours(w: int): int
  {
    if w > 5 then 11 else 14
  }

  /** Seven weekdays that follow each other cyclically hold exactly one
      Saturday and one Sunday. */
  lemma WeekCycle(w0: int, w1: int, w2: int, w3: int, w4: int, w5: int, w6: int)
    requires 1 <= w0 <= 7
    requires w1 == w0 % 7 + 1 && w2 == w1 % 7 + 1 && w3 == w2 % 7 + 1
    requires w4 == w3 % 7 + 1 && w5 == w4 % 7 + 1 && w6 == w5 % 7 + 1
    ensures WindowHours(w0) + WindowHours(w1) + WindowHours(w2) + WindowHours(w3)
      + WindowHours(w4) + WindowHours(w5) + WindowHours(w6) == 5 * 14 + 2 * 11
  {
  }

  /** Among any seven consecutive dates without a listed holiday exactly two
      are weekend days, so their windows add up to five workdays of 14 hours
      and two holidays of 11 hours. */
  lemma {:induction false} SumSecondsWeek(first: int)
    requires MinOrdinal <= first && first + 6 <= MaxOrdinal
    requires forall k :: 0 <= k < |Holidays| ==> !(first <= Holidays[k] <= first + 6)
    ensures SumSeconds(first, first + 6) == 5 * 14 * SecondsPerHour + 2 * 11 * SecondsPerHour
  {
    assert !(first <= Holidays[0] <= first + 6);
    assert SumSeconds(first, first + 6) ==
      GetSeconds(first) + GetSeconds(first + 1) + GetSeconds(first + 2) + GetSeconds(first + 3)
      + GetSeconds(first + 4) + GetSeconds(first + 5) + GetSeconds(first + 6)
    by {
      assert SumSeconds(first, first + 6) == SumSeconds(first, first + 5) + GetSeconds(first + 6);
      assert SumSeconds(first, first + 5) == SumSeconds(first, first + 4) + GetSeconds(first + 5);
      assert SumSeconds(first, first + 4) == SumSeconds(first, first + 3) + GetSeconds(first + 4);
      assert SumSeconds(first, first + 3) == SumSeconds(first, first + 2) + GetSeconds(first + 3);
      assert SumSeconds(first, first + 2) == SumSeconds(first, first + 1) + GetSeconds(first + 2);
      assert SumSeconds(first, first + 1) == SumSeconds(first, first) + GetSeconds(first + 1);
      assert SumSeconds(first, first) == GetSeconds(first);
    }
    IsoWeekdayNext(first);
    IsoWeekdayNext(first + 1);
    IsoWeekdayNext(first + 2);
    IsoWeekdayNext(first + 3);
    IsoWeekdayNext(first + 4);
    IsoWeekdayNext(first + 5);
    WeekCycle(IsoWeekday(first), IsoWeekday(first + 1), IsoWeekday(first + 2), IsoWeekday(first + 3),
      IsoWeekday(first + 4), IsoWeekday(first + 5), IsoWeekday(first + 6));
    GetSecondsByWeekday(first);
    GetSecondsByWeekday(first + 1);
    GetSecondsByWeekday(first + 2);
    GetSecondsByWeekday(first + 3);
    GetSecondsByWeekday(first + 4);
    GetSecondsByWeekday(first + 5);
    GetSecondsByWeekday(first + 6);
  }

  // -------------------------------------------------------- normalization

  /** A timestamp already inside its date's window is returned unchanged. */
  lemma NormalizeKeepsInHours(ts: Timestamp, issueNotResolve: bool)
    requires InHours(ts)
    ensures Normalize(ts, issueNotResolve) == Ok(ts)
  {
  }

  /** The same-date snaps: a resolve after closing goes to that date's closing
      time, an issue before opening to that date's opening time. */
  lemma NormalizeSameDate(ts: Timestamp)
    ensures var dayType := TypeOf(IsHoliday(ts.date));
      && (ts.time > ClosingHours(dayType) ==>
            Normalize(ts, false) == Ok(Timestamp(ts.date, ClosingHours(dayType))))
      && (ts.time < OpeningHours(dayType) ==>
            Normalize(ts, true) == Ok(Timestamp(ts.date, OpeningHours(dayType))))
  {
  }

  /** The cross-date snaps: an issue after closing moves to the opening time of
      the next date, a resolve before opening to the closing time of the
      previous date, each by that date's own classification; stepping past
      `date.max` or `date.min` is an `OverflowError`. */
  lemma NormalizeCrossDate(ts: Timestamp)
    ensures var dayType := TypeOf(IsHoliday(ts.date));
      && (ts.time > ClosingHours(dayType) ==>
            Normalize(ts, true) ==
              if ts.date == MaxOrdinal then Err(OverflowError)
              else Ok(Timestamp(ts.date + 1, OpeningHours(TypeOf(IsHoliday(ts.date + 1))))))
      && (ts.time < OpeningHours(dayType) ==>
            Normalize(ts, false) ==
              if ts.date == MinOrdinal then Err(OverflowError)
              else Ok(Timestamp(ts.date - 1, ClosingHours(TypeOf(IsHoliday(ts.date - 1))))))
  {
  }

  /** Normalization fails only when it would have to step off either end of
      the calendar. */
  lemma NormalizeFails(ts: Timestamp, issueNotResolve: bool)
    ensures Normalize(ts, issueNotResolve).Err? <==>
      var dayType := TypeOf(IsHoliday(ts.date));
      || (issueNotResolve && ts.date == MaxOrdinal && ts.time > ClosingHours(dayType))
      || (!issueNotResolve && ts.date == MinOrdinal && ts.time < OpeningHours(dayType))
  {
  }

  /** A normalized timestamp lies within the window of the date it lands on,
      is at most one date away from the raw one, and never moves an issue
      earlier or a resolve later. */
  lemma NormalizeLandsInHours(ts: Timestamp, issueNotResolve: bool)
    requires Normalize(ts, issueNotResolve).Ok?
    ensures var n := Normalize(ts, issueNotResolve).value;
      && InHours(n)
      && ts.date - 1 <= n.date <= ts.date + 1
      && (issueNotResolve ==> !Before(n, ts))
      && (!issueNotResolve ==> !Before(ts, n))
  {
    var n := Normalize(ts, issueNotResolve).value;
    HoursTrichotomy(ts);
    HoursTrichotomy(n);
  }

  /** Normalizing a normalized timestamp again, with the same role, changes
      nothing. */
  lemma NormalizeIdempotent(ts: Timestamp, issueNotResolve: bool)
    requires Normalize(ts, issueNotResolve).Ok?
    ensures var n := Normalize(ts, issueNotResolve).value;
      Normalize(n, issueNotResolve) == Ok(n)
  {
    var n := Normalize(ts, issueNotResolve).value;
    NormalizeLandsInHours(ts, issueNotResolve);
    NormalizeKeepsInHours(n, issueNotResolve);
  }

  // --------------------------------------------------------- subtraction

  /** On one date the difference is the plain wall-clock difference, and
      equal timestamps are zero seconds apart. */
  lemma ElapsedSameDate(a: Timestamp, b: Timestamp)
    requires a.date == b.date
    ensures Elapsed(a, b) == a.time - b.time
    ensures a == b ==> Elapsed(a, b) == 0
  {
  }

  /** Swapping the operands only flips the sign. */
  lemma ElapsedAntisymmetric(a: Timestamp, b: Timestamp)
    ensures Elapsed(a, b) == -Elapsed(b, a)
  {
  }

  function Max(x: int, y: int): int { if x < y then y else x }
  function Min(x: int, y: int): int { if x < y then x else y }

  /** The seconds of date `d`'s business window that lie between `earlier`
      and `later`. */
  function WindowOverlap(d: Ordinal, earlier: Timestamp, later: Timestamp): int
  {
    var dayType := TypeOf(IsHoliday(d));
    var start := if d == earlier.date then Max(earlier.time, OpeningHours(dayType)) else OpeningHours(dayType);
    var end := if d == later.date then Min(later.time, ClosingHours(dayType)) else ClosingHours(dayType);
    if start < end then end - start else 0
  }

  /** The business seconds between `earlier` and `later` that fall on the
      dates from `earlier`'s up to `last`. */
  function BusinessSecondsUpTo(earlier: Timestamp, later: Timestamp, last: int): int
    requires earlier.date - 1 <= last <= later.date
    decreases last - earlier.date
  {
    if last < earlier.date then 0
    else BusinessSecondsUpTo(earlier, later, last - 1) + WindowOverlap(last, earlier, later)
  }

  /** An independent reference for business time: the business seconds
      between two timestamps, date by date. */
  function BusinessSeconds(earlier: Timestamp, later: Timestamp): int
    requires earlier.date <= later.date
  {
    BusinessSecondsUpTo(earlier, later, later.date)
  }

  /** Peeling the first date off a sum of windows. */
  lemma {:induction false} SumSecondsFirst(first: int, last: int)
    requires MinOrdinal <= first <= last <= MaxOrdinal
    ensures SumSeconds(first, last) == GetSeconds(first) + SumSeconds(first + 1, last)
    decreases last - first
  {
    if first < last {
      SumSecondsFirst(first, last - 1);
    }
  }

  /** Up to any date before `later`'s, the business seconds are the rest of
      `earlier`'s window plus the whole windows of the dates after it. */
  lemma {:induction false} BusinessSecondsBeforeLastDate(earlier: Timestamp, later: Timestamp, last: int)
    requires earlier.date <= last < later.date
    requires InHours(earlier)
    ensures BusinessSecondsUpTo(earlier, later, last) ==
      (ClosingHours(TypeOf(IsHoliday(earlier.date))) - earlier.time) + SumSeconds(earlier.date + 1, last)
    decreases last - earlier.date
  {
    HoursTrichotomy(earlier);
    if earlier.date < last {
      BusinessSecondsBeforeLastDate(earlier, later, last - 1);
    }
  }

  /** On `later`'s own date, a timestamp inside business hours has used the
      part of the window up to it. */
  lemma WindowOverlapLastDate(earlier: Timestamp, later: Timestamp)
    requires earlier.date < later.date
    requires InHours(later)
    ensures WindowOverlap(later.date, earlier, later) ==
      later.time - OpeningHours(TypeOf(IsHoliday(later.date)))
  {
    HoursTrichotomy(later);
  }

  /** `__sub__` on ordered timestamps, rewritten date by date: the rest of the
      earlier date's window, the whole windows in between, and the used part
      of the later date's window. */
  lemma ElapsedOrderedByDate(earlier: Timestamp, later: Timestamp)
    requires earlier.date < later.date
    requires earlier.date !in Holidays && later.date !in Holidays
    ensures ElapsedOrdered(later, earlier) ==
      (ClosingHours(TypeOf(IsHoliday(earlier.date))) - earlier.time)
      + SumSeconds(earlier.date + 1, later.date - 1)
      + (later.time - OpeningHours(TypeOf(IsHoliday(later.date))))
  {
    SumSecondsFirst(earlier.date, later.date);
    assert SumSeconds(earlier.date + 1, later.date) ==
      SumSeconds(earlier.date + 1, later.date - 1) + GetSeconds(later.date);
  }

  /** For two timestamps inside business hours on different dates, neither of
      which is a listed holiday, `__sub__` counts exactly the business seconds
      between them, with the sign of their order. */
  lemma ElapsedIsBusinessTime(earlier: Timestamp, later: Timestamp)
    requires earlier.date < later.date
    requires InHours(earlier) && InHours(later)
    requires earlier.date !in Holidays && later.date !in Holidays
    ensures Elapsed(later, earlier) == BusinessSeconds(earlier, later) >= 0
    ensures Elapsed(earlier, later) == -BusinessSeconds(earlier, later)
  {
    assert Elapsed(later, earlier) == ElapsedOrdered(later, earlier);
    ElapsedOrderedByDate(earlier, later);
    BusinessSecondsBeforeLastDate(earlier, later, later.date - 1);
    WindowOverlapLastDate(earlier, later);
    assert BusinessSeconds(earlier, later) ==
      BusinessSecondsUpTo(earlier, later, later.date - 1) + WindowOverlap(later.date, earlier, later);
    HoursTrichotomy(earlier);
    HoursTrichotomy(later);
    ElapsedAntisymmetric(earlier, later);
  }

  /** Two timestamps inside business hours on the same date, in order: the
      wall-clock difference `__sub__` returns is the business time between
      them, whatever the date's classification. */
  lemma ElapsedSameDateIsBusinessTime(earlier: Timestamp, later: Timestamp)
    requires earlier.date == later.date && earlier.time <= later.time
    requires InHours(earlier) && InHours(later)
    ensures Elapsed(later, earlier) == BusinessSeconds(earlier, later) >= 0
    ensures Elapsed(earlier, later) == -BusinessSeconds(earlier, later)
  {
    HoursTrichotomy(earlier);
    HoursTrichotomy(later);
    assert BusinessSecondsUpTo(earlier, later, later.date - 1) == 0;
  }

  /** On different dates `__sub__` takes the later operand by the `datetime`
      order, which is the order of the seconds count: the result is negated
      exactly when the minuend's count is the smaller one. */
  lemma ElapsedSignBySecondsOrder(a: Timestamp, b: Timestamp)
    requires a.date != b.date
    ensures TotalSeconds(a) < TotalSeconds(b) ==> a.date < b.date && Elapsed(a, b) == -ElapsedOrdered(b, a)
    ensures TotalSeconds(b) < TotalSeconds(a) ==> b.date < a.date && Elapsed(a, b) == ElapsedOrdered(a, b)
    ensures TotalSeconds(a) != TotalSeconds(b)
  {
    BeforeIsSecondsOrder(a, b);
    BeforeIsSecondsOrder(b, a);
  }

  /** An issue and a resolve built with `from_timestamp` on different dates,
      neither of them a listed holiday: the resolve minus the issue is the
      business time between the two snapped timestamps. */
  lemma NormalizedElapsedIsBusinessTime(issueRaw: Timestamp, resolveRaw: Timestamp)
    requires Normalize(issueRaw, true).Ok? && Normalize(resolveRaw, false).Ok?
    requires var issue, resolve := Normalize(issueRaw, true).value, Normalize(resolveRaw, false).value;
      && issue.date < resolve.date
      && issue.date !in Holidays && resolve.date !in Holidays
    ensures var issue, resolve := Normalize(issueRaw, true).value, Normalize(resolveRaw, false).value;
      Elapsed(resolve, issue) == BusinessSeconds(issue, resolve) >= 0
  {
    NormalizeLandsInHours(issueRaw, true);
    NormalizeLandsInHours(resolveRaw, false);
    ElapsedIsBusinessTime(Normalize(issueRaw, true).value, Normalize(resolveRaw, false).value);
  }

  // ------------------------------------------------------------ scenarios

  /** First case of the test module: issue and resolve both at
      2021-01-01 10:00 are zero seconds apart. */
  lemma SameTimestampScenario()
    ensures Elapsed(Timestamp(737791, 10 * SecondsPerHour), Timestamp(737791, 10 * SecondsPerHour)) == 0
  {
  }

  /** Second case of the test module, computed as the code does: the resolve
      at Saturday 2021-03-06 19:20, past its closing time, less the issue at
      Tuesday 2021-03-02 19:50, is 196200 seconds (the test expects 0). */
  lemma RawOperandsScenario()
    ensures Elapsed(Timestamp(737855, 69600), Timestamp(737851, 71400)) == 196200
  {
    assert IsoWeekday(737851) == 2;
    assert SumSeconds(737851, 737855) == 4 * 14 * SecondsPerHour + 11 * SecondsPerHour;
  }

  /** The same two moments built with `from_timestamp`: the issue is already
      inside Tuesday's window, the resolve snaps back to Saturday 18:00, and
      the difference is 191400 seconds. */
  lemma NormalizedOperandsScenario()
    ensures Normalize(Timestamp(737851, 71400), true) == Ok(Timestamp(737851, 71400))
    ensures Normalize(Timestamp(737855, 69600), false) == Ok(Timestamp(737855, 18 * SecondsPerHour))
    ensures Elapsed(Timestamp(737855, 18 * SecondsPerHour), Timestamp(737851, 71400)) == 191400
  {
    assert IsoWeekday(737851) == 2;
    assert SumSeconds(737851, 737855) == 4 * 14 * SecondsPerHour + 11 * SecondsPerHour;
  }

  /** On the listed holiday 2021-05-05 (a Wednesday) the tail is measured from
      workday closing time: from Tuesday 10:00 to Wednesday 10:00 `__sub__`
      gives 39600 seconds where the business time is 46800. */
  lemma ListedHolidayTailScenario()
    ensures var earlier, later := Timestamp(737914, 10 * SecondsPerHour), Timestamp(737915, 10 * SecondsPerHour);
      && IsHoliday(later.date) && !IsHolidayAt(later)
      && Elapsed(later, earlier) == 39600
      && BusinessSeconds(earlier, later) == 46800
  {
    var earlier, later := Timestamp(737914, 10 * SecondsPerHour), Timestamp(737915, 10 * SecondsPerHour);
    assert IsoWeekday(737914) == 2 && IsoWeekday(737915) == 3;
    assert SumSeconds(737914, 737915) == 14 * SecondsPerHour + 11 * SecondsPerHour;
    assert BusinessSecondsUpTo(earlier, later, 737914) == 10 * SecondsPerHour;
  }

  /** The head side of the same lookup: from the listed holiday Wednesday
      2021-05-05 10:00 to Thursday 10:00 the head is measured from workday
      opening time, and `__sub__` gives 39600 seconds where the business time
      is 43200. */
  lemma ListedHolidayHeadScenario()
    ensures var earlier, later := Timestamp(737915, 10 * SecondsPerHour), Timestamp(737916, 10 * SecondsPerHour);
      && IsHoliday(earlier.date) && !IsHolidayAt(earlier)
      && Elapsed(later, earlier) == 39600
      && BusinessSeconds(earlier, later) == 43200
  {
    var earlier, later := Timestamp(737915, 10 * SecondsPerHour), Timestamp(737916, 10 * SecondsPerHour);
    assert IsoWeekday(737915) == 3 && IsoWeekday(737916) == 4;
    assert SumSeconds(737915, 737916) == 11 * SecondsPerHour + 14 * SecondsPerHour;
    assert BusinessSecondsUpTo(earlier, later, 737915) == 8 * SecondsPerHour;
  }
}
