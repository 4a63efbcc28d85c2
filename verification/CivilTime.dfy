/**
 Dates and instants counted from 1970-01-01 by the printed lengths of the months,
 and what Next answers in terms of them.
 */
module CivilTime {
  import opened Calendar
  import opened CronNext

  // ---------- counting from 1970 ----------

  /** The lengths of a year's months. */
  function Months(y: int): (s: seq<int>)
    ensures |s| == 12
  {
    if y % 400 == 0 || (y % 100 != 0 && y % 4 == 0) then [31, 29, 31, 30, 31, 30, 31, 31, 30, 31, 30, 31]
    else [31, 28, 31, 30, 31, 30, 31, 31, 30, 31, 30, 31]
  }

  function Total(s: seq<int>): int {
    if s == [] then 0 else Total(s[..|s| - 1]) + s[|s| - 1]
  }

  /** Days from 1970-01-01 to January 1 of year y, year by year. */
  function DaysToYear(y: int): int
    decreases if y < 1970 then 1970 - y else y - 1970
  {
    if y == 1970 then 0
    else if y > 1970 then DaysToYear(y - 1) + Total(Months(y - 1))
    else DaysToYear(y + 1) - Total(Months(y))
  }

  predicate RealDate(y: int, m: int, d: int) {
    1 <= m <= 12 && 1 <= d <= Months(y)[m - 1]
  }

  function DaysFrom1970(y: int, m: int, d: int): int
    requires 1 <= m <= 12
  {
    DaysToYear(y) + Total(Months(y)[..m - 1]) + d - 1
  }

  predicate RealTime(y: int, m: int, d: int, h: int, minute: int) {
    RealDate(y, m, d) && 0 <= h < 24 && 0 <= minute < 60
  }

  /** Nanoseconds from 1970-01-01T00:00Z. */
  function InstantOf(y: int, m: int, d: int, h: int, minute: int): int
    requires 1 <= m <= 12
  {
    ((DaysFrom1970(y, m, d) * 24 + h) * 60 + minute) * 60_000_000_000
  }

  /** 1970-01-01 was a Thursday. */
  function DayOfWeek(y: int, m: int, d: int): int
    requires 1 <= m <= 12
  {
    (DaysFrom1970(y, m, d) + 4) % 7
  }

  // ---------- the calendar counts the same ----------

  lemma {:induction false} MonthsCount(y: int, m: int)
    requires 1 <= m <= 13
    ensures Total(Months(y)[..m - 1]) == DaysBeforeMonth(y, m)
    ensures m <= 12 ==> Months(y)[m - 1] == MonthLength(y, m)
  {
    if 1 < m {
      MonthsCount(y, m - 1);
      assert Months(y)[..m - 1][..m - 2] == Months(y)[..m - 2];
    }
  }

  lemma YearCounts(y: int)
    ensures Total(Months(y)) == DaysBeforeYear(y + 1) - DaysBeforeYear(y)
  {
    hide DaysBeforeYear;
    MonthsCount(y, 13);
    YearLength(y);
    assert Months(y)[..12] == Months(y);
  }

  lemma {:induction false} YearsCount(y: int)
    ensures DaysToYear(y) == DaysBeforeYear(y) - EPOCH_DAY
    decreases if y < 1970 then 1970 - y else y - 1970
  {
    hide Total, Months;
    if y > 1970 {
      YearsCount(y - 1);
      YearCounts(y - 1);
    } else if y < 1970 {
      YearsCount(y + 1);
      YearCounts(y);
    }
  }

  /** The day number of a date, and the day of an instant, are counted from 1970-01-01, a Thursday. */
  lemma DaysAgree(y: int, m: int, d: int)
    requires 1 <= m <= 12
    ensures DayNumber(y, m, d) - DayOf(0) == DaysFrom1970(y, m, d)
    ensures ValidDate(y, m, d) <==> RealDate(y, m, d)
    ensures Weekday(DayNumber(y, m, d)) == DayOfWeek(y, m, d)
    ensures forall h, minute :: Midnight(DayNumber(y, m, d)) + h * HOUR + minute * MINUTE
              == InstantOf(y, m, d, h, minute)
  {
    hide DaysBeforeYear, Months, Total, DaysToYear, DaysBeforeMonth, MonthLength;
    MonthsCount(y, m);
    YearsCount(y);
  }

  // ---------- fire times ----------

  /** The schedule names this minute: its five lists have the minute, hour, day, month and weekday. */
  predicate FiresAt(s: Schedule, y: int, m: int, d: int, h: int, minute: int) {
    && RealTime(y, m, d, h, minute)
    && minute in s.minute && h in s.hour && d in s.dayOfMonth && m in s.month && DayOfWeek(y, m, d) in s.dayOfWeek
  }

  ghost predicate IsFireTime(s: Schedule, t: int) {
    exists y, m, d, h, minute :: FiresAt(s, y, m, d, h, minute) && t == InstantOf(y, m, d, h, minute)
  }

  lemma MatchesInNumbers(s: Schedule, y: int, m: int, d: int, h: int, minute: int)
    requires RealTime(y, m, d, h, minute)
    ensures Matches(s, InstantOf(y, m, d, h, minute)) <==> FiresAt(s, y, m, d, h, minute)
  {
    hide DayNumber, InstantOf, DayOfWeek, CivilOf, Weekday, DayOf, Midnight, TimeOfDay, Months;
    DaysAgree(y, m, d);
    CivilUnique(y, m, d);
    MinuteFields(DayNumber(y, m, d), 60 * h + minute);
    TimeParts(h, minute);
  }

  lemma TimeParts(h: int, minute: int)
    requires 0 <= h < 24 && 0 <= minute < 60
    ensures (60 * h + minute) % 60 == minute && (60 * h + minute) / 60 == h
    ensures (60 * h + minute) * MINUTE == h * HOUR + minute * MINUTE
  {
  }

  lemma CivilIsValid(n: int)
    ensures var c := CivilOf(n);
      1 <= c.month <= 12 && ValidDate(c.year, c.month, c.day) && DayNumber(c.year, c.month, c.day) == n
  {
    hide YearOf, MonthFrom, DaysBeforeYear, DaysBeforeMonth, MonthLength;
  }

  /** Every instant has a date. */
  lemma DateOf(t: int) returns (y: int, m: int, d: int)
    ensures RealDate(y, m, d) && CivilOf(DayOf(t)) == Civil(y, m, d)
    ensures t == InstantOf(y, m, d, 0, 0) + TimeOfDay(t)
  {
    hide DayNumber, InstantOf, DayOfWeek, YearOf, MonthFrom, Weekday, DayOf, Midnight, TimeOfDay, DaysBeforeYear,
      DaysBeforeMonth, Months;
    var c := CivilOf(DayOf(t));
    y, m, d := c.year, c.month, c.day;
    CivilIsValid(DayOf(t));
    DaysAgree(y, m, d);
    PartsInstant(t);
    assert Midnight(DayNumber(y, m, d)) + 0 * HOUR + 0 * MINUTE == InstantOf(y, m, d, 0, 0);
  }

  lemma MatchHasFields(s: Schedule, t: int)
    requires Matches(s, t)
    ensures IsFireTime(s, t)
  {
    hide DayOfWeek, YearOf, MonthFrom, Weekday, DayOf, Midnight, DaysBeforeYear, DaysBeforeMonth, Months, Total,
      DaysToYear, DayMatches, FiresAt;
    var y, m, d := DateOf(t);
    var n := DayOf(t);
    PartsInstant(t);
    var k := MinuteOfDay(n, t);
    HoursAndMinutes(k);
    DaysAgree(y, m, d);
    assert Midnight(DayNumber(y, m, d)) + k / 60 * HOUR + k % 60 * MINUTE == InstantOf(y, m, d, k / 60, k % 60);
    MatchesInNumbers(s, y, m, d, k / 60, k % 60);
    assert FiresAt(s, y, m, d, k / 60, k % 60);
  }

  lemma HoursAndMinutes(k: int)
    requires 0 <= k < 1440
    ensures 0 <= k / 60 < 24 && 0 <= k % 60 < 60 && k * MINUTE == k / 60 * HOUR + k % 60 * MINUTE
  {
  }

  /** An instant matches if and only if it is a minute that the schedule names. */
  lemma MatchesIff(s: Schedule, t: int)
    ensures Matches(s, t) <==> IsFireTime(s, t)
  {
    hide Matches, InstantOf, DayOfWeek, Months;
    if Matches(s, t) {
      MatchHasFields(s, t);
    }
    if y, m, d, h, minute :| FiresAt(s, y, m, d, h, minute) && t == InstantOf(y, m, d, h, minute) {
      MatchesInNumbers(s, y, m, d, h, minute);
    }
  }

  // ---------- what Next answers ----------

  /** The same date eight years on, or March 1 when that year has no February 29. */
  function EightYearsOn(y: int, m: int, d: int): int
    requires 1 <= m <= 12
  {
    if m == 2 && d == 29 && Months(y + 8)[1] == 28 then InstantOf(y + 8, 3, 1, 0, 0) else InstantOf(y + 8, m, d, 0, 0)
  }

  lemma HorizonIsNinthYear(after: int, y: int, m: int, d: int)
    requires CivilOf(DayOf(after)) == Civil(y, m, d)
    ensures Horizon(after) == InstantOf(y + 9, 1, 1, 0, 0)
  {
    hide InstantOf, MonthFrom, Weekday, DayOf, Midnight, DaysBeforeYear, Months;
    DaysAgree(y + 9, 1, 1);
    assert Midnight(DayNumber(y + 9, 1, 1)) + 0 * HOUR + 0 * MINUTE == InstantOf(y + 9, 1, 1, 0, 0);
  }

  lemma EightYearsLater(after: int, y: int, m: int, d: int)
    requires RealDate(y, m, d) && CivilOf(DayOf(after)) == Civil(y, m, d)
    ensures AddYears(after, 8) == EightYearsOn(y, m, d) + TimeOfDay(after)
  {
    hide InstantOf, CivilOf, Weekday, DayOf, DaysBeforeYear, Months, Total, DaysToYear, TimeOfDay;
    DateFacts(y + 8, m, d);
    DaysAgree(y + 8, m, d);
    DaysAgree(y + 8, 3, 1);
    MonthsCount(y + 8, 2);
    assert Midnight(DayNumber(y + 8, m, d)) + 0 * HOUR + 0 * MINUTE == InstantOf(y + 8, m, d, 0, 0);
    assert Midnight(DayNumber(y + 8, 3, 1)) + 0 * HOUR + 0 * MINUTE == InstantOf(y + 8, 3, 1, 0, 0);
  }

  /**
   The least minute after the given instant that the schedule names, if there is
   one before the ninth new year, and else the same time eight years on.
   */
  lemma NextInNumbers(s: Schedule, after: int, r: int, y: int, m: int, d: int)
    requires IsNext(s, after, r)
    requires RealDate(y, m, d) && InstantOf(y, m, d, 0, 0) <= after < InstantOf(y, m, d, 24, 0)
    ensures if forall t :: after < t < InstantOf(y + 9, 1, 1, 0, 0) ==> !IsFireTime(s, t)
            then r == EightYearsOn(y, m, d) + (after - InstantOf(y, m, d, 0, 0))
            else
              && after < r < InstantOf(y + 9, 1, 1, 0, 0) && IsFireTime(s, r)
              && forall t :: after < t < r ==> !IsFireTime(s, t)
  {
    hide InstantOf, CivilOf, DayOf, Matches, IsFireTime, Horizon, AddYears, EightYearsOn, TimeOfDay, RealDate;
    forall t ensures Matches(s, t) <==> IsFireTime(s, t) {
      MatchesIff(s, t);
    }
    TheDate(after, y, m, d);
    HorizonIsNinthYear(after, y, m, d);
    EightYearsLater(after, y, m, d);
  }

  lemma TheDate(t: int, y: int, m: int, d: int)
    requires RealDate(y, m, d) && InstantOf(y, m, d, 0, 0) <= t < InstantOf(y, m, d, 24, 0)
    ensures CivilOf(DayOf(t)) == Civil(y, m, d) && TimeOfDay(t) == t - InstantOf(y, m, d, 0, 0)
  {
    hide InstantOf, CivilOf, DayNumber, DayOf, TimeOfDay, Months, Midnight;
    DaysAgree(y, m, d);
    CivilUnique(y, m, d);
    assert Midnight(DayNumber(y, m, d)) + 0 * HOUR + 0 * MINUTE == InstantOf(y, m, d, 0, 0);
    assert Midnight(DayNumber(y, m, d)) + 24 * HOUR + 0 * MINUTE == InstantOf(y, m, d, 24, 0);
    InstantParts(DayNumber(y, m, d), t - InstantOf(y, m, d, 0, 0));
  }
}
