/**
 The proleptic Gregorian calendar and UTC instants, as package time presents
 them. Day 0 is 0001-01-01; an instant is a nanosecond count from the Unix epoch.
 */
module Calendar {

  const MINUTE := 60_000_000_000
  const HOUR := 60 * MINUTE
  const DAY := 24 * HOUR
  /** 1970-01-01 */
  const EPOCH_DAY := 719_162

  predicate IsLeap(y: int) {
    y % 4 == 0 && (y % 100 != 0 || y % 400 == 0)
  }

  function MonthLength(y: int, m: int): (n: int)
    ensures 28 <= n <= 31
  {
    if m == 2 then (if IsLeap(y) then 29 else 28)
    else if m == 4 || m == 6 || m == 9 || m == 11 then 30
    else 31
  }

  /** Days from day 0 to January 1 of year y. */
  function DaysBeforeYear(y: int): int {
    365 * (y - 1) + (y - 1) / 4 - (y - 1) / 100 + (y - 1) / 400
  }

  /** Days from January 1 to the first of month m; month 13 is the end of the year. */
  function DaysBeforeMonth(y: int, m: int): int
    requires 1 <= m <= 13
  {
    if m == 1 then 0 else DaysBeforeMonth(y, m - 1) + MonthLength(y, m - 1)
  }

  function DayNumber(y: int, m: int, d: int): int
    requires 1 <= m <= 13
  {
    DaysBeforeYear(y) + DaysBeforeMonth(y, m) + d - 1
  }

  lemma QuotientStep(a: int, k: int)
    requires 0 < k
    ensures a / k - (a - 1) / k == if a % k == 0 then 1 else 0
  {
    var q, r := a / k, a % k;
    assert a == q * k + r;
    if r == 0 {
      assert a - 1 == (q - 1) * k + (k - 1);
      QuotientUnique(a - 1, k, q - 1, k - 1);
    } else {
      QuotientUnique(a - 1, k, q, r - 1);
    }
  }

  lemma QuotientUnique(a: int, k: int, q: int, r: int)
    requires a == q * k + r && 0 <= r < k
    ensures a / k == q && a % k == r
  {
    var d := a / k - q;
    assert d * k == r - a % k;
    NonzeroMultiple(d, k);
  }

  lemma NonzeroMultiple(d: int, k: int)
    requires 0 < k
    ensures (1 <= d ==> k <= d * k) && (d <= -1 ==> d * k <= -k)
  {
    if 1 <= d {
      assert 0 <= (d - 1) * k;
    } else if d <= -1 {
      assert 0 <= (-1 - d) * k;
    }
  }

  lemma YearLength(y: int)
    ensures DaysBeforeYear(y + 1) - DaysBeforeYear(y) == if IsLeap(y) then 366 else 365
    ensures DaysBeforeMonth(y, 13) == if IsLeap(y) then 366 else 365
  {
    QuotientStep(y, 4);
    QuotientStep(y, 100);
    QuotientStep(y, 400);
    MonthTable(y);
  }

  lemma MonthTable(y: int)
    ensures DaysBeforeMonth(y, 13) == if IsLeap(y) then 366 else 365
  {
    var f := MonthLength(y, 2);
    assert DaysBeforeMonth(y, 2) == 31;
    assert DaysBeforeMonth(y, 3) == 31 + f;
    assert DaysBeforeMonth(y, 5) == 92 + f;
    assert DaysBeforeMonth(y, 7) == 153 + f;
    assert DaysBeforeMonth(y, 9) == 215 + f;
    assert DaysBeforeMonth(y, 11) == 276 + f;
  }

  // ---------- from day numbers back to dates ----------

  lemma {:induction false} YearsGrow(y: int, z: int)
    requires y <= z
    ensures DaysBeforeYear(z) >= DaysBeforeYear(y) + 365 * (z - y)
    decreases z - y
  {
    if y < z {
      YearLength(z - 1);
      YearsGrow(y, z - 1);
    }
  }

  /** The year of a day: the first year after y that ends after n. */
  function YearFrom(n: int, y: int): (r: int)
    requires DaysBeforeYear(y) <= n
    ensures DaysBeforeYear(r) <= n < DaysBeforeYear(r + 1)
    decreases n - DaysBeforeYear(y)
  {
    YearLength(y);
    if n < DaysBeforeYear(y + 1) then y else YearFrom(n, y + 1)
  }

  /** The start of a year no later than day n: whole 400-year cycles of 146097 days. */
  function CycleYear(n: int): (y: int)
    ensures DaysBeforeYear(y) <= n
  {
    var q := n / 146097;
    QuotientUnique(400 * q, 4, 100 * q, 0);
    QuotientUnique(400 * q, 100, 4 * q, 0);
    QuotientUnique(400 * q, 400, q, 0);
    400 * q + 1
  }

  function YearOf(n: int): (y: int)
    ensures DaysBeforeYear(y) <= n < DaysBeforeYear(y + 1)
  {
    YearFrom(n, CycleYear(n))
  }

  function MonthFrom(y: int, n: int, m: int): (r: int)
    requires 1 <= m <= 12 && DaysBeforeMonth(y, m) <= n < DaysBeforeMonth(y, 13)
    ensures m <= r <= 12 && DaysBeforeMonth(y, r) <= n < DaysBeforeMonth(y, r + 1)
    decreases 12 - m
  {
    if n < DaysBeforeMonth(y, m + 1) then m else MonthFrom(y, n, m + 1)
  }

  datatype Civil = Civil(year: int, month: int, day: int)

  predicate ValidDate(y: int, m: int, d: int) {
    1 <= m <= 12 && 1 <= d <= MonthLength(y, m)
  }

  function CivilOf(n: int): (c: Civil)
    ensures ValidDate(c.year, c.month, c.day) && DayNumber(c.year, c.month, c.day) == n
  {
    var y := YearOf(n);
    YearLength(y);
    var r := n - DaysBeforeYear(y);
    var m := MonthFrom(y, r, 1);
    Civil(y, m, r - DaysBeforeMonth(y, m) + 1)
  }

  lemma {:induction false} MonthsGrow(y: int, m: int, k: int)
    requires 1 <= m <= k <= 13
    ensures DaysBeforeMonth(y, m) + 28 * (k - m) <= DaysBeforeMonth(y, k)
    decreases k - m
  {
    if m < k {
      MonthsGrow(y, m, k - 1);
    }
  }

  lemma DayWithinYear(y: int, m: int, d: int)
    requires ValidDate(y, m, d)
    ensures DaysBeforeYear(y) <= DayNumber(y, m, d) < DaysBeforeYear(y + 1)
  {
    YearLength(y);
    MonthsGrow(y, 1, m);
    MonthsGrow(y, m + 1, 13);
  }

  lemma YearUnique(n: int, y: int, z: int)
    requires DaysBeforeYear(y) <= n < DaysBeforeYear(y + 1)
    requires DaysBeforeYear(z) <= n < DaysBeforeYear(z + 1)
    ensures y == z
  {
    if y < z {
      YearsGrow(y + 1, z);
    } else if z < y {
      YearsGrow(z + 1, y);
    }
  }

  lemma MonthUnique(y: int, n: int, m: int, k: int)
    requires 1 <= m <= 12 && 1 <= k <= 12
    requires DaysBeforeMonth(y, m) <= n < DaysBeforeMonth(y, m + 1)
    requires DaysBeforeMonth(y, k) <= n < DaysBeforeMonth(y, k + 1)
    ensures m == k
  {
    if m < k {
      MonthsGrow(y, m + 1, k);
    } else if k < m {
      MonthsGrow(y, k + 1, m);
    }
  }

  /** A day has one date. */
  lemma CivilUnique(y: int, m: int, d: int)
    requires ValidDate(y, m, d)
    ensures CivilOf(DayNumber(y, m, d)) == Civil(y, m, d)
  {
    var n := DayNumber(y, m, d);
    var c := CivilOf(n);
    DayWithinYear(y, m, d);
    DayWithinYear(c.year, c.month, c.day);
    YearUnique(n, y, c.year);
    MonthUnique(y, n - DaysBeforeYear(y), m, c.month);
  }

  // ---------- instants ----------

  function DayOf(t: int): int {
    t / DAY + EPOCH_DAY
  }

  function TimeOfDay(t: int): (r: int)
    ensures 0 <= r < DAY
  {
    t % DAY
  }

  /** Midnight of day n. */
  function Midnight(n: int): int {
    (n - EPOCH_DAY) * DAY
  }

  lemma InstantParts(n: int, r: int)
    requires 0 <= r < DAY
    ensures DayOf(Midnight(n) + r) == n && TimeOfDay(Midnight(n) + r) == r
  {
    QuotientUnique(Midnight(n) + r, DAY, n - EPOCH_DAY, r);
  }

  lemma PartsInstant(t: int)
    ensures t == Midnight(DayOf(t)) + TimeOfDay(t)
  {
  }

  /** Sunday is 0; 0001-01-01 was a Monday. */
  function Weekday(n: int): (w: int)
    ensures 0 <= w <= 6
  {
    (n + 1) % 7
  }

  function Year(t: int): int {
    YearOf(DayOf(t))
  }

  /** time.Date in UTC at a time of day: months beyond 12 and days out of range carry over. */
  function Date(y: int, m: int, d: int, timeOfDay: int): int {
    Midnight(DayNumber(y + (m - 1) / 12, (m - 1) % 12 + 1, 1) + d - 1) + timeOfDay
  }

  /** t.AddDate(years, 0, 0) */
  function AddYears(t: int, years: int): int {
    var c := CivilOf(DayOf(t));
    Date(c.year + years, c.month, c.day, TimeOfDay(t))
  }

  /** The last day of the month: day 0 of the month after it. */
  function DaysInMonth(y: int, m: int): int {
    CivilOf(DayOf(Date(y, m + 1, 0, 0))).day
  }

  lemma FirstOfNextMonth(y: int, m: int)
    requires 1 <= m <= 12
    ensures DayNumber(y + m / 12, m % 12 + 1, 1) == DayNumber(y, m, MonthLength(y, m)) + 1
  {
    hide DaysBeforeYear, IsLeap;
    QuotientUnique(m, 12, if m == 12 then 1 else 0, if m == 12 then 0 else m);
    YearLength(y);
  }

  lemma DaysInMonthIsLength(y: int, m: int)
    requires 1 <= m <= 12
    ensures DaysInMonth(y, m) == MonthLength(y, m)
  {
    hide DaysBeforeYear, IsLeap, CivilOf, DayOf, Midnight;
    var last := MonthLength(y, m);
    QuotientUnique(m, 12, if m == 12 then 1 else 0, if m == 12 then 0 else m);
    YearLength(y);
    FirstOfNextMonth(y, m);
    InstantParts(DayNumber(y, m, last), 0);
    CivilUnique(y, m, last);
  }
}
