/** Schedule.Next: the search for the next fire time. */
module CronNext {
  import opened Calendar

  datatype Schedule = Schedule(
    minute: seq<int>, hour: seq<int>, dayOfMonth: seq<int>, month: seq<int>, dayOfWeek: seq<int>)

  const YEARS := 8

  /** The instant is a whole minute and all five of its fields are listed. */
  predicate Matches(s: Schedule, t: int) {
    && t % MINUTE == 0
    && TimeOfDay(t) / MINUTE % 60 in s.minute
    && TimeOfDay(t) / HOUR in s.hour
    && DayMatches(s, DayOf(t))
  }

  predicate DayMatches(s: Schedule, n: int) {
    var c := CivilOf(n);
    c.day in s.dayOfMonth && c.month in s.month && Weekday(n) in s.dayOfWeek
  }

  /** Strictly between after and x nothing matches. */
  ghost predicate NoneUpTo(s: Schedule, after: int, x: int) {
    forall t :: after < t < x ==> !Matches(s, t)
  }

  /** The first instant past the years that Next looks at. */
  function Horizon(after: int): int {
    Midnight(DaysBeforeYear(Year(after) + YEARS + 1))
  }

  /** The least match after the given instant and within the horizon or, when there is none, eight years on. */
  ghost predicate IsNext(s: Schedule, after: int, r: int) {
    if NoneUpTo(s, after, Horizon(after)) then r == AddYears(after, YEARS)
    else after < r < Horizon(after) && Matches(s, r) && NoneUpTo(s, after, r)
  }

  lemma NextIsUnique(s: Schedule, after: int, a: int, b: int)
    requires IsNext(s, after, a) && IsNext(s, after, b)
    ensures a == b
  {
    if !NoneUpTo(s, after, Horizon(after)) {
      assert a < b ==> !Matches(s, a);
      assert b < a ==> !Matches(s, b);
    }
  }

  lemma {:induction false} LeastMatch(s: Schedule, after: int, x: int)
    ensures NoneUpTo(s, after, x) || exists r :: after < r < x && Matches(s, r) && NoneUpTo(s, after, r)
    decreases x - after
  {
    hide Matches;
    if after < x - 1 && !Matches(s, x - 1) {
      LeastMatch(s, after, x - 1);
    } else if after < x - 1 {
      LeastMatch(s, after, x - 1);
      assert NoneUpTo(s, after, x - 1) ==> after < x - 1 < x && Matches(s, x - 1);
    }
  }

  lemma NextExists(s: Schedule, after: int)
    ensures exists r :: IsNext(s, after, r)
  {
    hide NoneUpTo, Matches, Horizon, AddYears;
    LeastMatch(s, after, Horizon(after));
    assert NoneUpTo(s, after, Horizon(after)) ==> IsNext(s, after, AddYears(after, YEARS));
    if !NoneUpTo(s, after, Horizon(after)) {
      var r :| after < r < Horizon(after) && Matches(s, r) && NoneUpTo(s, after, r);
      assert IsNext(s, after, r);
    }
  }

  /** The instant that IsNext describes. */
  ghost function Upcoming(s: Schedule, after: int): (r: int)
    ensures IsNext(s, after, r)
  {
    hide IsNext;
    NextExists(s, after);
    var r :| IsNext(s, after, r);
    r
  }

  // ---------- what each loop may skip ----------

  /** All instants of a range of days share the failing test. */
  lemma SkipDays(s: Schedule, after: int, from: int, to: int)
    requires from <= to && NoneUpTo(s, after, Midnight(from))
    requires forall n :: from <= n < to ==> !DayMatches(s, n)
    ensures NoneUpTo(s, after, Midnight(to))
  {
    forall t | after < t < Midnight(to) ensures !Matches(s, t) {
      PartsInstant(t);
      if Midnight(from) <= t {
        DayBounds(t, from, to);
      }
    }
  }

  lemma DayBounds(t: int, from: int, to: int)
    requires Midnight(from) <= t < Midnight(to)
    ensures from <= DayOf(t) < to
  {
    PartsInstant(t);
  }

  lemma MonthDays(y: int, m: int, n: int)
    requires 1 <= m <= 12 && DayNumber(y, m, 1) <= n < DayNumber(y, m + 1, 1)
    ensures CivilOf(n) == Civil(y, m, n - DayNumber(y, m, 1) + 1)
  {
    CivilUnique(y, m, n - DayNumber(y, m, 1) + 1);
  }

  /** Every later minute of a day that matches neither by hour nor by minute. */
  lemma SkipMinutes(s: Schedule, after: int, n: int, from: int, to: int)
    requires 0 <= from <= to <= 1440 && NoneUpTo(s, after, Midnight(n) + from * MINUTE)
    requires forall k :: from <= k < to ==>
               k / 60 !in s.hour || k % 60 !in s.minute || Midnight(n) + k * MINUTE <= after
    ensures NoneUpTo(s, after, Midnight(n) + to * MINUTE)
  {
    forall t | after < t < Midnight(n) + to * MINUTE ensures !Matches(s, t) {
      if Midnight(n) + from * MINUTE <= t && t % MINUTE == 0 {
        var k := MinuteOfDay(n, t);
        assert from <= k < to;
      }
    }
  }

  /** A whole minute of day n: which one it is, and its fields. */
  lemma MinuteOfDay(n: int, t: int) returns (k: int)
    requires Midnight(n) <= t < Midnight(n) + DAY && t % MINUTE == 0
    ensures 0 <= k < 1440 && t == Midnight(n) + k * MINUTE
    ensures TimeOfDay(t) / MINUTE % 60 == k % 60 && TimeOfDay(t) / HOUR == k / 60 && DayOf(t) == n
  {
    k := (t - Midnight(n)) / MINUTE;
    QuotientUnique(t, MINUTE, (n - EPOCH_DAY) * 1440 + k, (t - Midnight(n)) % MINUTE);
    MinuteFields(n, k);
  }

  lemma MinuteFields(n: int, k: int)
    requires 0 <= k < 1440
    ensures var t := Midnight(n) + k * MINUTE;
      && t % MINUTE == 0 && TimeOfDay(t) / MINUTE % 60 == k % 60 && TimeOfDay(t) / HOUR == k / 60 && DayOf(t) == n
  {
    InstantParts(n, k * MINUTE);
    QuotientUnique(Midnight(n) + k * MINUTE, MINUTE, (n - EPOCH_DAY) * 1440 + k, 0);
    QuotientUnique(k * MINUTE, MINUTE, k, 0);
    QuotientUnique(k * MINUTE, HOUR, k / 60, k % 60 * MINUTE);
  }

  lemma NoWholeMinute(after: int, t: int)
    requires after < t < after / MINUTE * MINUTE + MINUTE
    ensures t % MINUTE != 0
  {
    QuotientUnique(t, MINUTE, after / MINUTE, t - after / MINUTE * MINUTE);
  }

  lemma SkipHour(s: Schedule, after: int, n: int, h: int)
    requires 0 <= h < 24 && h !in s.hour && NoneUpTo(s, after, Midnight(n) + h * HOUR)
    ensures NoneUpTo(s, after, Midnight(n) + (h + 1) * HOUR)
  {
    hide NoneUpTo;
    forall k | h * 60 <= k < (h + 1) * 60 ensures k / 60 == h {
      QuotientUnique(k, 60, h, k - h * 60);
    }
    SkipMinutes(s, after, n, h * 60, (h + 1) * 60);
  }

  lemma SkipMinute(s: Schedule, after: int, n: int, h: int, minute: int)
    requires 0 <= h < 24 && 0 <= minute < 60 && NoneUpTo(s, after, Midnight(n) + h * HOUR + minute * MINUTE)
    requires minute !in s.minute || Midnight(n) + h * HOUR + minute * MINUTE <= after
    ensures NoneUpTo(s, after, Midnight(n) + h * HOUR + (minute + 1) * MINUTE)
  {
    hide NoneUpTo;
    QuotientUnique(h * 60 + minute, 60, h, minute);
    SkipMinutes(s, after, n, h * 60 + minute, h * 60 + minute + 1);
  }

  lemma YearAsMonths(y: int)
    ensures DayNumber(y, 1, 1) == DaysBeforeYear(y) && DayNumber(y, 13, 1) == DaysBeforeYear(y + 1)
  {
    YearLength(y);
  }

  lemma MonthEnds(y: int, m: int)
    requires 1 <= m <= 12
    ensures DayNumber(y, m, MonthLength(y, m) + 1) == DayNumber(y, m + 1, 1)
  {
  }

  lemma DayEnds(y: int, m: int, d: int)
    requires 1 <= m <= 12
    ensures Midnight(DayNumber(y, m, d)) + 24 * HOUR == Midnight(DayNumber(y, m, d + 1))
  {
  }

  /** Next starts at the year of the next whole minute; no match comes before that year. */
  lemma StartYear(s: Schedule, after: int)
    ensures var y := Year(after / MINUTE * MINUTE + MINUTE);
      NoneUpTo(s, after, Midnight(DaysBeforeYear(y))) && y <= Year(after) + YEARS + 1
  {
    var t0 := after / MINUTE * MINUTE + MINUTE;
    PartsInstant(t0);
    forall t | after < t < Midnight(DaysBeforeYear(Year(t0))) ensures !Matches(s, t) {
      NoWholeMinute(after, t);
    }
    YearWithinADay(after, t0);
  }

  lemma YearWithinADay(a: int, b: int)
    requires a <= b <= a + DAY
    ensures Year(b) <= Year(a) + 1
  {
    hide DaysBeforeYear, YearOf;
    PartsInstant(a);
    PartsInstant(b);
    if Year(a) + 2 <= Year(b) {
      YearLength(Year(a) + 1);
      YearsGrow(Year(a) + 2, Year(b));
    }
  }

  lemma SkipMonth(s: Schedule, after: int, y: int, m: int)
    requires 1 <= m <= 12 && m !in s.month && NoneUpTo(s, after, Midnight(DayNumber(y, m, 1)))
    ensures NoneUpTo(s, after, Midnight(DayNumber(y, m + 1, 1)))
  {
    forall n | DayNumber(y, m, 1) <= n < DayNumber(y, m + 1, 1) ensures !DayMatches(s, n) {
      MonthDays(y, m, n);
    }
    SkipDays(s, after, DayNumber(y, m, 1), DayNumber(y, m + 1, 1));
  }

  lemma SkipDay(s: Schedule, after: int, y: int, m: int, d: int)
    requires ValidDate(y, m, d) && NoneUpTo(s, after, Midnight(DayNumber(y, m, d)))
    requires d !in s.dayOfMonth || Weekday(DayNumber(y, m, d)) !in s.dayOfWeek
    ensures NoneUpTo(s, after, Midnight(DayNumber(y, m, d + 1)))
  {
    hide CivilOf, Weekday, DaysBeforeYear, DaysBeforeMonth;
    CivilUnique(y, m, d);
    SkipDays(s, after, DayNumber(y, m, d), DayNumber(y, m, d) + 1);
  }

  /** time.Date on a proper date, its weekday, and the year's end as month 13. */
  lemma DateFacts(y: int, m: int, d: int)
    requires 1 <= m <= 12
    ensures Date(y, m, d, 0) == Midnight(DayNumber(y, m, d))
    ensures Weekday(DayOf(Date(y, m, d, 0))) == Weekday(DayNumber(y, m, d))
  {
    QuotientUnique(m - 1, 12, 0, m - 1);
    InstantParts(DayNumber(y, m, d), 0);
  }

  /** The candidate of the innermost loop matches, and lies within its year. */
  lemma CandidateMatches(s: Schedule, y: int, m: int, d: int, h: int, minute: int)
    requires ValidDate(y, m, d) && 0 <= h < 24 && 0 <= minute < 60
    requires d in s.dayOfMonth && m in s.month && Weekday(DayNumber(y, m, d)) in s.dayOfWeek && h in s.hour
        && minute in s.minute
    ensures var t := Midnight(DayNumber(y, m, d)) + h * HOUR + minute * MINUTE;
      Matches(s, t) && t < Midnight(DaysBeforeYear(y + 1))
  {
    hide CivilOf, Weekday, DaysBeforeYear, DaysBeforeMonth, TimeOfDay, DayOf;
    MinuteFields(DayNumber(y, m, d), 60 * h + minute);
    CivilUnique(y, m, d);
    DayWithinYear(y, m, d);
  }

  lemma HorizonIsLater(after: int, y: int)
    requires y <= Year(after) + YEARS
    ensures Midnight(DaysBeforeYear(y + 1)) <= Horizon(after)
  {
    YearsGrow(y + 1, Year(after) + YEARS + 1);
  }

  lemma FoundNext(s: Schedule, after: int, y: int, t: int)
    requires y <= Year(after) + YEARS && after < t < Midnight(DaysBeforeYear(y + 1))
    requires Matches(s, t) && NoneUpTo(s, after, t)
    ensures IsNext(s, after, t)
  {
    HorizonIsLater(after, y);
  }

  // ---------- the code ----------

  /** contains */
  method Contains(list: seq<int>, v: int) returns (r: bool)
    ensures r == (v in list)
  {
    for i := 0 to |list|
      invariant v !in list[..i]
    {
      if list[i] == v {
        return true;
      }
    }
    return false;
  }

  /** Five nested loops find the least match, or none within the horizon. */
  method Next(s: Schedule, after: int) returns (r: int)
    ensures IsNext(s, after, r)
  {
    hide NoneUpTo, Matches, DayMatches, DayNumber, Midnight, DaysBeforeYear, Weekday, Year, AddYears, Date,
      DaysInMonth, MonthLength;
    var t := after / MINUTE * MINUTE + MINUTE;
    StartYear(s, after);
    var y := Year(t);
    while y <= Year(after) + YEARS
      invariant y <= Year(after) + YEARS + 1
      invariant NoneUpTo(s, after, Midnight(DaysBeforeYear(y)))
      decreases Year(after) + YEARS - y
    {
      YearAsMonths(y);
      for m := 1 to 13
        invariant NoneUpTo(s, after, Midnight(DayNumber(y, m, 1)))
      {
        var listed := Contains(s.month, m);
        if !listed {
          SkipMonth(s, after, y, m);
          continue;
        }
        DaysInMonthIsLength(y, m);
        var days := DaysInMonth(y, m);
        for d := 1 to days + 1
          invariant NoneUpTo(s, after, Midnight(DayNumber(y, m, d)))
        {
          DateFacts(y, m, d);
          listed := Contains(s.dayOfMonth, d);
          if !listed {
            SkipDay(s, after, y, m, d);
            continue;
          }
          var dow := Weekday(DayOf(Date(y, m, d, 0)));
          listed := Contains(s.dayOfWeek, dow);
          if !listed {
            SkipDay(s, after, y, m, d);
            continue;
          }
          var candidate := Date(y, m, d, 0);
          for h := 0 to 24
            invariant NoneUpTo(s, after, candidate + h * HOUR)
          {
            listed := Contains(s.hour, h);
            if !listed {
              SkipHour(s, after, DayNumber(y, m, d), h);
              continue;
            }
            for minute := 0 to 60
              invariant NoneUpTo(s, after, candidate + h * HOUR + minute * MINUTE)
            {
              listed := Contains(s.minute, minute);
              if listed {
                var c := candidate + (h * HOUR + minute * MINUTE);
                if c > after {
                  CandidateMatches(s, y, m, d, h, minute);
                  FoundNext(s, after, y, c);
                  return c;
                }
              }
              SkipMinute(s, after, DayNumber(y, m, d), h, minute);
            }
          }
          DayEnds(y, m, d);
        }
        MonthEnds(y, m);
      }
      y := y + 1;
    }
    return AddYears(after, YEARS);
  }
}
