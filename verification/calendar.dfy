/**
 * Civil date arithmetic behind `Date.prototype.setMonth` in one fixed time zone
 * (proleptic Gregorian calendar, ECMA-262 MakeDay/MakeDate/TimeClip), and the
 * cancellation timestamp the checkout derives from it: the request instant moved
 * forward by a number of calendar months, in whole UNIX seconds.
 */
module Calendar {
  import opened Decimal

  const MsPerDay: nat := 86_400_000

  /** The largest magnitude of a valid time value: 100 000 000 days either side of the epoch. */
  const MaxTimeValue: int := 8_640_000_000_000_000

  /** A civil date-time: `month` counts from 0 (January), `msOfDay` is the time within the day. */
  datatype DateTime = DateTime(year: int, month: int, day: int, msOfDay: int)

  predicate IsLeap(y: int)
  {
    y % 4 == 0 && (y % 100 != 0 || y % 400 == 0)
  }

  function DaysInMonth(y: int, m: int): (n: nat)
    requires 0 <= m < 12
    ensures 28 <= n <= 31
  {
    if m == 1 then (if IsLeap(y) then 29 else 28)
    else if m == 3 || m == 5 || m == 8 || m == 10 then 30
    else 31
  }

  predicate Valid(t: DateTime)
  {
    && 0 <= t.month < 12
    && 1 <= t.day <= DaysInMonth(t.year, t.month)
    && 0 <= t.msOfDay < MsPerDay
  }

  /** Leap years among years 1..`y` (floor division throughout, so it also holds below year 1). */
  function LeapsThrough(y: int): int
  {
    y / 4 - y / 100 + y / 400
  }

  /**
   * Day number (days since 1970-01-01) of the first day of the month with linear
   * index `k` = 12 * year + month. Years are counted from March so that the leap
   * day closes a year; months from March then follow the 153-days-per-5-months
   * pattern 31, 30, 31, 30, 31. 719 468 is the day number of 0000-03-01 before the epoch.
   */
  function MonthStartAt(k: int): int
  {
    var y := (k - 2) / 12;
    var m := (k - 2) % 12;
    365 * y + LeapsThrough(y) + (153 * m + 2) / 5 - 719_468
  }

  /**
   * MakeDay(year, month, date): the month may lie outside 0..11 and is carried into
   * the year; the date is counted from the first of that month without clamping,
   * so a date past the month's end rolls into the following month.
   */
  function MakeDay(year: int, month: int, date: int): int
  {
    MonthStartAt(12 * year + month) + date - 1
  }

  /** The time value (milliseconds since the epoch) of a civil date-time. */
  function TimeValue(t: DateTime): int
  {
    MakeDay(t.year, t.month, t.day) * MsPerDay + t.msOfDay
  }

  /** TimeClip: out-of-range time values become NaN ("Invalid Date"). */
  function TimeClip(ms: int): (r: JsNumber)
    ensures r.Finite? <==> -MaxTimeValue <= ms <= MaxTimeValue
    ensures r.Finite? ==> r.value == ms
  {
    if -MaxTimeValue <= ms <= MaxTimeValue then Finite(ms) else NaN
  }

  /** `d.setMonth(month)`: keeps year, day of month and time of day, recomputes the time value. */
  function SetMonth(t: DateTime, month: int): JsNumber
  {
    TimeClip(MakeDay(t.year, month, t.day) * MsPerDay + t.msOfDay)
  }

  /** `Math.floor(ms / 1000)`, NaN staying NaN. */
  function FloorSeconds(ms: JsNumber): JsNumber
  {
    match ms
    case NaN => NaN
    case Finite(v) => Finite(v / 1000)
  }

  /** The cancellation instant: `now` plus `count` calendar months, in UNIX seconds. */
  function CancelAtTimestamp(now: DateTime, count: int): JsNumber
  {
    FloorSeconds(SetMonth(now, now.month + count))
  }

  // ---------------------------------------------------------------------------
  // Lemmas
  // ---------------------------------------------------------------------------

  lemma LeapStep(y: int)
    ensures LeapsThrough(y + 1) - LeapsThrough(y) == if IsLeap(y + 1) then 1 else 0
  {
    assert (y + 1) / 4 - y / 4 == if (y + 1) % 4 == 0 then 1 else 0;
    assert (y + 1) / 100 - y / 100 == if (y + 1) % 100 == 0 then 1 else 0;
    assert (y + 1) / 400 - y / 400 == if (y + 1) % 400 == 0 then 1 else 0;
  }

  /** The next month starts exactly one month-length after this one. */
  lemma NextMonthStart(k: int)
    ensures MonthStartAt(k + 1) == MonthStartAt(k) + DaysInMonth(k / 12, k % 12)
  {
    var y, m := (k - 2) / 12, (k - 2) % 12;
    if m < 11 {
      assert (k + 1 - 2) / 12 == y && (k + 1 - 2) % 12 == m + 1;
      assert k / 12 == (if m < 10 then y else y + 1) && k % 12 == (m + 2) % 12;
    } else {
      assert (k + 1 - 2) / 12 == y + 1 && (k + 1 - 2) % 12 == 0;
      assert k / 12 == y + 1 && k % 12 == 1;
      LeapStep(y);
    }
  }

  /** Months are at least 28 days long, so month starts grow by 28 days per month or more. */
  lemma {:induction false} MonthStartGrows(k: int, j: nat)
    ensures MonthStartAt(k + j) >= MonthStartAt(k) + 28 * j
  {
    if j > 0 {
      MonthStartGrows(k, j - 1);
      NextMonthStart(k + j - 1);
    }
  }

  /** The time value keeps the civil day number and the time of day apart. */
  lemma TimeValueParts(day: int, ms: int)
    requires 0 <= ms < MsPerDay
    ensures (day * MsPerDay + ms) / MsPerDay == day
    ensures (day * MsPerDay + ms) % MsPerDay == ms
  {
  }

  /**
   * `setMonth` preserves the time of day, and lands `day - 1` days after the
   * first of the target month (month index `now.month + count` carried into the year).
   */
  lemma SetMonthParts(now: DateTime, count: int)
    requires Valid(now)
    ensures SetMonth(now, now.month + count).Finite? ==>
      var ms := SetMonth(now, now.month + count).value;
      && ms % MsPerDay == now.msOfDay
      && ms / MsPerDay - MonthStartAt(12 * now.year + now.month + count) == now.day - 1
  {
    TimeValueParts(MakeDay(now.year, now.month + count, now.day), now.msOfDay);
  }

  /**
   * No end-of-month clamping: when the day of month does not exist in the target
   * month `k`, the shifted day lies in month `k + 1`, the surplus days counted from its first.
   */
  lemma OverflowRollsForward(now: DateTime, count: int)
    requires Valid(now)
    requires var k := 12 * now.year + now.month + count; now.day > DaysInMonth(k / 12, k % 12)
    ensures var k := 12 * now.year + now.month + count;
      && MakeDay(now.year, now.month + count, now.day)
           == MonthStartAt(k + 1) + (now.day - DaysInMonth(k / 12, k % 12) - 1)
      && MakeDay(now.year, now.month + count, now.day) < MonthStartAt(k + 2)
  {
    var k := 12 * now.year + now.month + count;
    NextMonthStart(k);
    NextMonthStart(k + 1);
    assert 12 * now.year + (now.month + count) == k;
  }

  /** The cancellation timestamp, when finite, is the shifted day's time value in whole seconds. */
  lemma CancelAtValue(now: DateTime, count: int)
    ensures CancelAtTimestamp(now, count).Finite? ==>
      CancelAtTimestamp(now, count).value
        == (MakeDay(now.year, now.month + count, now.day) * MsPerDay + now.msOfDay) / 1000
  {
  }

  /** Day numbers `gap` days apart at the same time of day are `gap` days of seconds apart. */
  lemma SecondsOfDays(later: int, earlier: int, gap: int, ms: int)
    requires later >= earlier + gap
    ensures (later * MsPerDay + ms) / 1000 >= (earlier * MsPerDay + ms) / 1000 + gap * 86_400
  {
    assert later * MsPerDay + ms >= (earlier * MsPerDay + ms) + gap * MsPerDay;
  }

  /** One or more months on, a month starts no earlier than the end of month `k`. */
  lemma MonthGap(k: int, j: nat)
    requires j >= 1
    ensures MonthStartAt(k + j) >= MonthStartAt(k) + DaysInMonth(k / 12, k % 12)
  {
    NextMonthStart(k);
    MonthStartGrows(k + 1, j - 1);
    assert k + 1 + (j - 1) == k + j;
  }

  /** From any valid day, the same day of month one or more months on is at least 28 days away. */
  lemma ShiftedDayIsLater(now: DateTime, count: int)
    requires Valid(now) && count >= 1
    ensures MakeDay(now.year, now.month + count, now.day) >= MakeDay(now.year, now.month, now.day) + 28
  {
    var k := 12 * now.year + now.month;
    assert k / 12 == now.year && k % 12 == now.month;
    var gap := DaysInMonth(now.year, now.month);
    assert now.day <= gap;
    MonthGap(k, count);
    assert 12 * now.year + (now.month + count) == k + count;
    assert MonthStartAt(k + count) >= MonthStartAt(k) + gap;
  }

  /** Moving forward by one or more months gives an instant at least 28 days later. */
  lemma CancelAtIsLater(now: DateTime, count: int)
    requires Valid(now) && count >= 1
    requires CancelAtTimestamp(now, count).Finite?
    ensures CancelAtTimestamp(now, count).value >= TimeValue(now) / 1000 + 28 * 86_400
  {
    CancelAtValue(now, count);
    ShiftedDayIsLater(now, count);
    SecondsOfDays(MakeDay(now.year, now.month + count, now.day), MakeDay(now.year, now.month, now.day), 28, now.msOfDay);
  }

  /** Shifting by more months never gives an earlier day. */
  lemma ShiftedDayMonotone(now: DateTime, count: int, more: nat)
    ensures MakeDay(now.year, now.month + count, now.day) <= MakeDay(now.year, now.month + (count + more), now.day)
  {
    var k := 12 * now.year + now.month + count;
    MonthStartGrows(k, more);
    assert k + more == 12 * now.year + (now.month + (count + more));
  }

  /** More payments never move the cancellation earlier. */
  lemma CancelAtMonotone(now: DateTime, count: int, more: nat)
    requires CancelAtTimestamp(now, count).Finite? && CancelAtTimestamp(now, count + more).Finite?
    ensures CancelAtTimestamp(now, count).value <= CancelAtTimestamp(now, count + more).value
  {
    var early, late := MakeDay(now.year, now.month + count, now.day), MakeDay(now.year, now.month + (count + more), now.day);
    ShiftedDayMonotone(now, count, more);
    CancelAtValue(now, count);
    CancelAtValue(now, count + more);
    SecondsOfDays(late, early, 0, now.msOfDay);
  }

  /** Month starts from year 0 to year 210 000 stay within 80 000 000 days of the epoch. */
  lemma MonthStartBounds(k: int)
    requires 2 <= k <= 2_520_000
    ensures -719_468 <= MonthStartAt(k) <= 80_000_000
  {
    var y, m := (k - 2) / 12, (k - 2) % 12;
    assert 0 <= y <= 210_000 && 0 <= m < 12;
    assert y / 100 <= y / 4 && y / 4 <= y && 0 <= y / 400 <= y / 4;
    assert 0 <= LeapsThrough(y) <= 2 * y;
    assert 0 <= (153 * m + 2) / 5 <= 337;
  }

  /**
   * For any valid request instant between years 1 and 200 000 and up to 100 000
   * payments, the cancellation instant is a real date: TimeClip keeps it.
   */
  lemma CutoffIsFinite(now: DateTime, count: int)
    requires Valid(now) && 1 <= now.year <= 200_000 && 0 <= count <= 100_000
    ensures CancelAtTimestamp(now, count).Finite?
  {
    var k := 12 * now.year + (now.month + count);
    MonthStartBounds(k);
    var day := MakeDay(now.year, now.month + count, now.day);
    assert -719_468 <= day <= 80_000_030;
    assert -MaxTimeValue <= day * MsPerDay + now.msOfDay <= MaxTimeValue;
  }

  /** A whole-second count taken from a valid time value is itself valid in milliseconds. */
  lemma SecondsStayValid(ms: int)
    requires -MaxTimeValue <= ms <= MaxTimeValue
    ensures TimeClip(ms / 1000 * 1000).Finite?
  {
    assert ms / 1000 * 1000 <= ms;
    assert -MaxTimeValue / 1000 <= ms / 1000;
  }

  /**
   * A finite cutoff read back as seconds and turned into milliseconds again is a
   * valid date, so `new Date(cancelAt * 1000)` never throws for it.
   */
  lemma CutoffSecondsInRange(now: DateTime, count: int)
    requires CancelAtTimestamp(now, count).Finite?
    ensures TimeClip(CancelAtTimestamp(now, count).value * 1000).Finite?
  {
    SecondsStayValid(SetMonth(now, now.month + count).value);
  }

  /** Day 0 is January 1 1970, the epoch. */
  lemma EpochDay()
    ensures MakeDay(1970, 0, 1) == 0
    ensures TimeValue(DateTime(1970, 0, 1, 0)) == 0
  {
    assert (12 * 1970 + 0 - 2) / 12 == 1969 && (12 * 1970 + 0 - 2) % 12 == 10;
    assert LeapsThrough(1969) == 477;
  }

  /** February 1 2024 is day 19 754 and March 1 2024 is day 19 783. */
  lemma FebruaryAndMarch2024()
    ensures MonthStartAt(12 * 2024 + 1) == 19_754
    ensures MonthStartAt(12 * 2024 + 2) == 19_783
  {
    assert (12 * 2024 + 1 - 2) / 12 == 2023 && (12 * 2024 + 1 - 2) % 12 == 11;
    assert (12 * 2024 + 2 - 2) / 12 == 2024 && (12 * 2024 + 2 - 2) % 12 == 0;
    assert LeapsThrough(2023) == 490 && LeapsThrough(2024) == 491;
  }

  /** January 31 2024 plus one month is March 2 2024 (2024 is a leap year), not February 29. */
  lemma JanuaryThirtyFirstPlusOneMonth()
    ensures CancelAtTimestamp(DateTime(2024, 0, 31, 0), 1) == Finite(1_709_337_600)
    ensures TimeValue(DateTime(2024, 2, 2, 0)) == 1_709_337_600_000
    ensures TimeValue(DateTime(2024, 1, 29, 0)) == 1_709_164_800_000
  {
    FebruaryAndMarch2024();
    assert MakeDay(2024, 0 + 1, 31) == 19_784;
    assert SetMonth(DateTime(2024, 0, 31, 0), 0 + 1) == Finite(19_784 * MsPerDay);
  }
}
