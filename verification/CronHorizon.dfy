/** When the eight-year horizon of Next is long enough. */
module CronHorizon {
  import opened Calendar
  import opened CronNext

  /** 2000, or any other leap year: the dates that exist in some year. */
  predicate SomeDate(s: Schedule) {
    exists m, d :: m in s.month && d in s.dayOfMonth && ExistsInLeapYear(m, d)
  }

  predicate ExistsInLeapYear(m: int, d: int) {
    ValidDate(2000, m, d)
  }

  predicate SomeTime(s: Schedule) {
    (exists h :: h in s.hour && 0 <= h < 24) && (exists k :: k in s.minute && 0 <= k < 60)
  }

  predicate EveryWeekday(s: Schedule) {
    forall w :: 0 <= w <= 6 ==> w in s.dayOfWeek
  }

  /** Two multiples of 4 in a row are never both skipped centuries. */
  lemma LeapWithinEightYears(y: int) returns (z: int)
    ensures y < z <= y + 8 && IsLeap(z)
  {
    z := y - y % 4 + 4;
    if z % 100 == 0 {
      QuotientUnique(z + 4, 100, z / 100, 4);
      z := z + 4;
    }
  }

  lemma LeapDates(y: int, m: int, d: int)
    requires ValidDate(y, m, d)
    ensures ExistsInLeapYear(m, d)
  {
  }

  /** A matching date in a later year within the horizon is a match that Next will not miss. */
  lemma DateWithinHorizon(s: Schedule, after: int, y: int, m: int, d: int)
    requires SomeTime(s) && Year(after) < y <= Year(after) + YEARS && ValidDate(y, m, d)
    requires m in s.month && d in s.dayOfMonth && Weekday(DayNumber(y, m, d)) in s.dayOfWeek
    ensures !NoneUpTo(s, after, Horizon(after))
  {
    hide Matches, Weekday, DaysBeforeYear, DaysBeforeMonth;
    var h :| h in s.hour && 0 <= h < 24;
    var k :| k in s.minute && 0 <= k < 60;
    var t := Midnight(DayNumber(y, m, d)) + h * HOUR + k * MINUTE;
    CandidateMatches(s, y, m, d, h, k);
    HorizonIsLater(after, y);
    DayWithinYear(y, m, d);
    YearsGrow(Year(after) + 1, y);
    PartsInstant(after);
    assert after < t < Horizon(after);
  }

  /**
   With the weekday unrestricted, Next finds a match from every instant exactly when some listed date exists at all.
   */
  lemma HorizonSufficesForDates(s: Schedule, after: int)
    requires EveryWeekday(s) && SomeTime(s)
    ensures !NoneUpTo(s, after, Horizon(after)) <==> SomeDate(s)
  {
    if SomeDate(s) {
      var m, d :| m in s.month && d in s.dayOfMonth && ExistsInLeapYear(m, d);
      var y := LeapWithinEightYears(Year(after));
      DateWithinHorizon(s, after, y, m, d);
    }
    if !NoneUpTo(s, after, Horizon(after)) {
      var t :| after < t < Horizon(after) && Matches(s, t);
      var c := CivilOf(DayOf(t));
      LeapDates(c.year, c.month, c.day);
    }
  }

  /** With the day of the month unrestricted, Next finds a match whatever weekdays and months are listed. */
  lemma HorizonSufficesForWeekdays(s: Schedule, after: int, m: int, w: int)
    requires SomeTime(s) && (forall d :: 1 <= d <= 31 ==> d in s.dayOfMonth)
    requires m in s.month && 1 <= m <= 12 && w in s.dayOfWeek && 0 <= w <= 6
    ensures !NoneUpTo(s, after, Horizon(after))
  {
    var y := Year(after) + 1;
    var first := Weekday(DayNumber(y, m, 1));
    var d := 1 + (w - first) % 7;
    WeekdayShift(DayNumber(y, m, 1), w);
    DateWithinHorizon(s, after, y, m, d);
  }

  lemma WeekdayShift(n: int, w: int)
    requires 0 <= w <= 6
    ensures Weekday(n + (w - Weekday(n)) % 7) == w
  {
  }

  /** Midnight on every February 29 that is a Monday. */
  const LEAP_MONDAYS := Schedule([0], [0], [29], [2], [1])

  /**
   From March 1, 1972 there is no such day until 1988: Next answers March 1,
   1980, which does not match.
   */
  lemma FallbackNeedNotMatch(r: int)
    requires IsNext(LEAP_MONDAYS, Midnight(DayNumber(1972, 3, 1)), r)
    ensures r == Midnight(DayNumber(1980, 3, 1)) && !Matches(LEAP_MONDAYS, r)
    ensures Matches(LEAP_MONDAYS, Midnight(DayNumber(1988, 2, 29)))
  {
    hide DayNumber, DaysBeforeYear, Midnight, CivilOf, DayOf, TimeOfDay;
    var after := Midnight(DayNumber(1972, 3, 1));
    SomeDayNumbers();
    DateOfMidnight(1972, 3, 1);
    DateOfMidnight(1980, 3, 1);
    DateOfMidnight(1988, 2, 29);
    forall t | after < t < Horizon(after) ensures !Matches(LEAP_MONDAYS, t) {
      NoLeapMonday(t);
    }
  }

  lemma SomeDayNumbers()
    ensures DayNumber(1972, 3, 1) == 719952 && DayNumber(1976, 2, 29) == 721412
    ensures DayNumber(1980, 2, 29) == 722873 && DayNumber(1988, 2, 29) == 725795
  {
    assert DaysBeforeMonth(1972, 2) == DaysBeforeMonth(1976, 2) == DaysBeforeMonth(1980, 2) == DaysBeforeMonth(1988, 2)
      == 31;
  }

  lemma DateOfMidnight(y: int, m: int, d: int)
    requires ValidDate(y, m, d)
    ensures var t := Midnight(DayNumber(y, m, d));
      CivilOf(DayOf(t)) == Civil(y, m, d) && DayOf(t) == DayNumber(y, m, d) && TimeOfDay(t) == 0 && Year(t) == y
        && t % MINUTE == 0
    ensures AddYears(Midnight(DayNumber(y, m, d)), YEARS) == Date(y + YEARS, m, d, 0)
        == Midnight(DayNumber(y + YEARS, m, 1) + d - 1)
  {
    hide DaysBeforeYear, DaysBeforeMonth, YearOf;
    InstantParts(DayNumber(y, m, d), 0);
    CivilUnique(y, m, d);
    YearOfDate(y, m, d);
    MinuteFields(DayNumber(y, m, d), 0);
    DateFacts(y + YEARS, m, d);
  }

  lemma YearOfDate(y: int, m: int, d: int)
    requires ValidDate(y, m, d)
    ensures YearOf(DayNumber(y, m, d)) == y
  {
    hide DaysBeforeYear, YearOf;
    DayWithinYear(y, m, d);
    YearUnique(DayNumber(y, m, d), y, YearOf(DayNumber(y, m, d)));
  }

  lemma NoLeapMonday(t: int)
    requires Midnight(DayNumber(1972, 3, 1)) < t < Midnight(DaysBeforeYear(1981))
    ensures !Matches(LEAP_MONDAYS, t)
  {
    hide DaysBeforeYear, DaysBeforeMonth, CivilOf;
    var c := CivilOf(DayOf(t));
    PartsInstant(t);
    SomeDayNumbers();
    DayWithinYear(1972, 3, 1);
    YearsBetween(DayOf(t), c, 1972, 1980);
    if c.month == 2 && c.day == 29 {
      assert IsLeap(c.year);
      assert c.year == 1972 || c.year == 1976 || c.year == 1980;
      LeapDay1972();
    }
  }

  lemma LeapDay1972()
    ensures DayNumber(1972, 2, 29) == 719951
  {
    assert DaysBeforeMonth(1972, 2) == 31;
  }

  lemma YearsBetween(n: int, c: Civil, from: int, to: int)
    requires c == CivilOf(n) && DaysBeforeYear(from) <= n < DaysBeforeYear(to + 1)
    ensures from <= c.year <= to
  {
    hide DaysBeforeYear, DaysBeforeMonth, CivilOf;
    DayWithinYear(c.year, c.month, c.day);
    if c.year < from {
      YearsGrow(c.year + 1, from);
    } else if to < c.year {
      YearsGrow(to + 1, c.year);
    }
  }

  // ---------- with both the day and the weekday restricted ----------

  predicate ListedDate(s: Schedule, y: int, m: int, d: int) {
    m in s.month && d in s.dayOfMonth && ValidDate(y, m, d) && Weekday(DayNumber(y, m, d)) in s.dayOfWeek
  }

  /** Some listed day of the year falls on a listed weekday. */
  ghost predicate YearHas(s: Schedule, y: int) {
    exists m, d :: ListedDate(s, y, m, d)
  }

  /** One of the eight years after c has such a day. */
  ghost predicate HasWithinEight(s: Schedule, c: int) {
    exists y :: c < y <= c + YEARS && YearHas(s, y)
  }

  /** The calendar repeats after 400 years, weekdays included. */
  lemma CalendarRepeats(y: int, k: int)
    ensures DaysBeforeYear(y + 400 * k) == DaysBeforeYear(y) + 146097 * k && IsLeap(y + 400 * k) == IsLeap(y)
  {
    QuotientUnique(y - 1 + 400 * k, 4, (y - 1) / 4 + 100 * k, (y - 1) % 4);
    QuotientUnique(y - 1 + 400 * k, 100, (y - 1) / 100 + 4 * k, (y - 1) % 100);
    QuotientUnique(y - 1 + 400 * k, 400, (y - 1) / 400 + k, (y - 1) % 400);
    QuotientUnique(y + 400 * k, 4, y / 4 + 100 * k, y % 4);
    QuotientUnique(y + 400 * k, 100, y / 100 + 4 * k, y % 100);
    QuotientUnique(y + 400 * k, 400, y / 400 + k, y % 400);
  }

  lemma {:induction false} MonthsRepeat(y: int, k: int, m: int)
    requires 1 <= m <= 13
    ensures DaysBeforeMonth(y + 400 * k, m) == DaysBeforeMonth(y, m)
    decreases m
  {
    CalendarRepeats(y, k);
    hide IsLeap, DaysBeforeYear;
    if m > 1 {
      MonthsRepeat(y, k, m - 1);
    }
  }

  lemma WeekdaysRepeat(n: int, k: int)
    ensures Weekday(n + 146097 * k) == Weekday(n)
  {
    QuotientUnique(n + 1 + 146097 * k, 7, (n + 1) / 7 + 20871 * k, (n + 1) % 7);
  }

  lemma DatesRepeat(s: Schedule, y: int, k: int)
    requires YearHas(s, y)
    ensures YearHas(s, y + 400 * k)
  {
    hide DaysBeforeYear, DaysBeforeMonth, IsLeap, Weekday;
    var m, d :| ListedDate(s, y, m, d);
    CalendarRepeats(y, k);
    MonthsRepeat(y, k, m);
    WeekdaysRepeat(DayNumber(y, m, d), k);
    assert ListedDate(s, y + 400 * k, m, d);
  }

  lemma EightYearsRepeat(s: Schedule, c: int, k: int)
    requires HasWithinEight(s, c)
    ensures HasWithinEight(s, c + 400 * k)
  {
    hide YearHas;
    var y :| c < y <= c + YEARS && YearHas(s, y);
    DatesRepeat(s, y, k);
  }

  /** The last nanosecond of year c. */
  function LastOf(c: int): int {
    Midnight(DaysBeforeYear(c + 1)) - 1
  }

  lemma LastOfYear(c: int)
    ensures Year(LastOf(c)) == c
  {
    hide DaysBeforeYear, YearOf;
    InstantParts(DaysBeforeYear(c + 1) - 1, DAY - 1);
    YearsGrow(c, c + 1);
    YearUnique(DaysBeforeYear(c + 1) - 1, c, YearOf(DaysBeforeYear(c + 1) - 1));
  }

  /** At the turn of a year the matches within the horizon are those of the next eight years. */
  lemma MatchAfterLast(s: Schedule, c: int)
    requires !NoneUpTo(s, LastOf(c), Horizon(LastOf(c)))
    ensures HasWithinEight(s, c)
  {
    hide DaysBeforeYear, DaysBeforeMonth, CivilOf, Weekday, Year;
    LastOfYear(c);
    var t :| LastOf(c) < t < Horizon(LastOf(c)) && Matches(s, t);
    var e := CivilOf(DayOf(t));
    PartsInstant(t);
    YearsBetween(DayOf(t), e, c + 1, c + YEARS);
    assert ListedDate(s, e.year, e.month, e.day);
    assert YearHas(s, e.year);
  }

  lemma DateSuffices(s: Schedule, after: int)
    requires SomeTime(s) && HasWithinEight(s, Year(after))
    ensures !NoneUpTo(s, after, Horizon(after))
  {
    hide NoneUpTo, SomeTime, Horizon, Year, Weekday, DayNumber;
    var y :| Year(after) < y <= Year(after) + YEARS && YearHas(s, y);
    var m, d :| ListedDate(s, y, m, d);
    DateWithinHorizon(s, after, y, m, d);
  }

  /**
   Next finds a match from every instant exactly when every eight years in a
   row have a listed date on a listed weekday. The calendar's 400-year period
   makes that a finite check.
   */
  lemma HorizonSufficesIff(s: Schedule)
    requires SomeTime(s)
    ensures (forall after :: !NoneUpTo(s, after, Horizon(after))) <==>
        (forall c :: 0 <= c < 400 ==> HasWithinEight(s, c))
  {
    hide NoneUpTo, SomeTime, HasWithinEight, Horizon, Year, LastOf;
    if forall after :: !NoneUpTo(s, after, Horizon(after)) {
      forall c | 0 <= c < 400 ensures HasWithinEight(s, c) {
        MatchAfterLast(s, c);
      }
    }
    if forall c :: 0 <= c < 400 ==> HasWithinEight(s, c) {
      forall after ensures !NoneUpTo(s, after, Horizon(after)) {
        var c := Year(after) % 400;
        EightYearsRepeat(s, c, Year(after) / 400);
        DateSuffices(s, after);
      }
    }
  }

  /** Eight years on is later, and still within the horizon: February 29 becomes March 1 of the same year. */
  lemma FallbackWithinHorizon(after: int)
    ensures after < AddYears(after, YEARS) < Horizon(after)
  {
    hide DaysBeforeYear, IsLeap, DayOf, TimeOfDay, CivilOf, YearOf;
    var c := CivilOf(DayOf(after));
    var y := c.year + YEARS;
    PartsInstant(after);
    DayWithinYear(c.year, c.month, c.day);
    YearUnique(DayOf(after), c.year, Year(after));
    YearsGrow(c.year + 1, y);
    QuotientUnique(c.month - 1, 12, 0, c.month - 1);
    DayWithinYear(y, c.month, 1);
    if ValidDate(y, c.month, c.day) {
      DayWithinYear(y, c.month, c.day);
    } else {
      DayWithinYear(y, 3, 1);
    }
  }

  /** An answer of Next matches exactly when the horizon holds a match. */
  lemma AnswerMatchesIff(s: Schedule, after: int, r: int)
    requires IsNext(s, after, r)
    ensures Matches(s, r) <==> !NoneUpTo(s, after, Horizon(after))
  {
    hide Matches, Horizon, AddYears;
    FallbackWithinHorizon(after);
  }

  /** So every answer matches exactly under the condition on eight years in a row. */
  lemma AnswersMatchIff(s: Schedule)
    requires SomeTime(s)
    ensures (forall after, r :: IsNext(s, after, r) ==> Matches(s, r)) <==>
        (forall c :: 0 <= c < 400 ==> HasWithinEight(s, c))
  {
    hide SomeTime, HasWithinEight, IsNext, Matches, NoneUpTo, Horizon;
    HorizonSufficesIff(s);
    if forall after, r :: IsNext(s, after, r) ==> Matches(s, r) {
      forall after ensures !NoneUpTo(s, after, Horizon(after)) {
        AnswerMatchesIff(s, after, Upcoming(s, after));
      }
    }
    if forall after :: !NoneUpTo(s, after, Horizon(after)) {
      forall after, r | IsNext(s, after, r) ensures Matches(s, r) {
        AnswerMatchesIff(s, after, r);
      }
    }
  }
}
