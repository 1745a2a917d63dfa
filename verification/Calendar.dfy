/**
 * Instants and the proleptic Gregorian calendar in UTC, as far as time.Time.AddDate needs them.
 * An instant counts seconds, a day number counts days, both from 1 January of year 1.
 */
module Calendar {

  const HOUR := 3600
  const DAY := 86400

  predicate IsLeap(y: int) {
    y % 4 == 0 && (y % 100 != 0 || y % 400 == 0)
  }

  /** Days from 1 January of year 1 to 1 January of year y: the lengths of the years in between. */
  function DaysBeforeYear(y: int): int
    decreases if y >= 1 then y else 2 - y
  {
    if y == 1 then 0
    else if y > 1 then DaysBeforeYear(y - 1) + DaysInYear(y - 1)
    else DaysBeforeYear(y + 1) - DaysInYear(y)
  }

  function DaysInYear(y: int): int {
    if IsLeap(y) then 366 else 365
  }

  function DaysIn(m: int, y: int): int {
    if m == 2 then (if IsLeap(y) then 29 else 28)
    else if m == 4 || m == 6 || m == 9 || m == 11 then 30
    else 31
  }

  /** The running sums of the month lengths. */
  function DaysBeforeMonth(m: int, y: int): int
    requires 1 <= m <= 13
  {
    [0, 31, 59, 90, 120, 151, 181, 212, 243, 273, 304, 334, 365][m - 1] + if m > 2 && IsLeap(y) then 1 else 0
  }

  lemma MonthLength(m: int, y: int)
    requires 1 <= m <= 12
    ensures DaysBeforeMonth(m + 1, y) == DaysBeforeMonth(m, y) + DaysIn(m, y)
    ensures DaysBeforeMonth(1, y) == 0 && DaysBeforeMonth(13, y) == DaysInYear(y)
  {
  }

  datatype Civil = Civil(year: int, month: int, day: int)

  predicate IsDate(c: Civil) {
    1 <= c.month <= 12 && 1 <= c.day <= DaysIn(c.month, c.year)
  }

  /** time.Date: months outside 1..12 carry into the year, days outside the month into the months. */
  function DayNumber(year: int, month: int, day: int): int
    decreases if month > 12 then month else if month < 1 then 1 - month else 0
  {
    if month > 12 then DayNumber(year + 1, month - 12, day)
    else if month < 1 then DayNumber(year - 1, month + 12, day)
    else DaysBeforeYear(year) + DaysBeforeMonth(month, year) + day - 1
  }

  lemma YearLength(y: int)
    ensures DaysBeforeYear(y + 1) == DaysBeforeYear(y) + DaysInYear(y)
  {
  }

  // ---------- the Gregorian rule in closed form ----------

  /** A leap day every fourth year, but not in three of four centuries. */
  lemma {:induction false} YearsInClosedForm(y: int)
    ensures DaysBeforeYear(y) == 365 * (y - 1) + (y - 1) / 4 - (y - 1) / 100 + (y - 1) / 400
    decreases if y >= 1 then y else 2 - y
  {
    if y > 1 {
      YearsInClosedForm(y - 1);
      LeapDays(y - 1);
    } else if y < 1 {
      YearsInClosedForm(y + 1);
      LeapDays(y);
    }
  }

  lemma LeapDays(y: int)
    ensures DaysInYear(y) == 365 + (y / 4 - (y - 1) / 4) - (y / 100 - (y - 1) / 100) + (y / 400 - (y - 1) / 400)
  {
    Fourths(y);
    Hundredths(y);
    FourHundredths(y);
    LeapDivisors(y);
  }

  lemma Fourths(y: int)
    ensures y / 4 - (y - 1) / 4 == if y % 4 == 0 then 1 else 0
  {
  }

  lemma Hundredths(y: int)
    ensures y / 100 - (y - 1) / 100 == if y % 100 == 0 then 1 else 0
  {
  }

  lemma FourHundredths(y: int)
    ensures y / 400 - (y - 1) / 400 == if y % 400 == 0 then 1 else 0
  {
  }

  lemma LeapDivisors(y: int)
    ensures y % 400 == 0 ==> y % 100 == 0
    ensures y % 100 == 0 ==> y % 4 == 0
  {
  }

  /** The days before each month, by the rule of thumb for month lengths. */
  lemma MonthsInClosedForm(m: int, y: int)
    requires 1 <= m <= 12
    ensures var leap := y % 4 == 0 && (y % 100 != 0 || y % 400 == 0);
            DaysBeforeMonth(m, y) == (367 * m - 362) / 12 - if m <= 2 then 0 else if leap then 1 else 2
  {
  }

  /** The day of 1 January 1970, which instants are usually counted from. */
  lemma UnixEpoch()
    ensures DayNumber(1970, 1, 1) == 719162
  {
    YearsInClosedForm(1970);
  }

  // ---------- reading a day number as a date ----------

  /** The year of a day number, looked for from a given year. */
  function YearOf(n: int, y: int): (year: int)
    ensures DaysBeforeYear(year) <= n < DaysBeforeYear(year + 1)
    decreases if n < DaysBeforeYear(y) then DaysBeforeYear(y) - n else 0, n - DaysBeforeYear(y)
  {
    YearLength(y);
    YearLength(y - 1);
    if n < DaysBeforeYear(y) then YearOf(n, y - 1)
    else if n >= DaysBeforeYear(y + 1) then YearOf(n, y + 1)
    else y
  }

  function MonthOf(yday: int, y: int, m: int): (month: int)
    requires 1 <= m <= 12 && DaysBeforeMonth(m, y) <= yday < DaysBeforeMonth(13, y)
    ensures m <= month <= 12 && DaysBeforeMonth(month, y) <= yday < DaysBeforeMonth(month, y) + DaysIn(month, y)
    decreases 12 - m
  {
    MonthLength(m, y);
    if yday < DaysBeforeMonth(m + 1, y) then m else MonthOf(yday, y, m + 1)
  }

  /** The date of a day number. */
  function CivilOf(n: int): (c: Civil)
    ensures IsDate(c) && DayNumber(c.year, c.month, c.day) == n
  {
    var y := YearOf(n, 1);
    YearLength(y);
    MonthLength(1, y);
    var yday := n - DaysBeforeYear(y);
    var m := MonthOf(yday, y, 1);
    Civil(y, m, yday - DaysBeforeMonth(m, y) + 1)
  }

  lemma {:induction false} YearsGrow(y: int, z: int)
    requires y < z
    ensures DaysBeforeYear(y + 1) <= DaysBeforeYear(z)
    decreases z - y
  {
    if y + 1 < z {
      YearsGrow(y, z - 1);
      YearLength(z - 1);
    }
  }

  lemma {:induction false} MonthsGrow(m: int, k: int, y: int)
    requires 1 <= m < k <= 13
    ensures DaysBeforeMonth(m + 1, y) <= DaysBeforeMonth(k, y)
  {
    if m + 1 < k {
      MonthsGrow(m, k - 1, y);
      MonthLength(k - 1, y);
    }
  }

  /** Later months have larger day numbers. */
  lemma LaterMonth(a: Civil, b: Civil)
    requires IsDate(a) && IsDate(b) && (a.year < b.year || (a.year == b.year && a.month < b.month))
    ensures DayNumber(a.year, a.month, a.day) < DayNumber(b.year, b.month, b.day)
  {
    if a.year < b.year {
      DateWithinYear(a);
      DateWithinYear(b);
      YearsGrow(a.year, b.year);
    } else {
      MonthLength(a.month, a.year);
      MonthsGrow(a.month, b.month, a.year);
    }
  }

  /** A day number has one date only, so CivilOf and DayNumber are inverse to each other. */
  lemma DateIsUnique(c: Civil)
    requires IsDate(c)
    ensures CivilOf(DayNumber(c.year, c.month, c.day)) == c
  {
    var e := CivilOf(DayNumber(c.year, c.month, c.day));
    if c.year != e.year || c.month != e.month {
      if c.year < e.year || (c.year == e.year && c.month < e.month) {
        LaterMonth(c, e);
      } else {
        LaterMonth(e, c);
      }
    }
  }

  lemma DateWithinYear(c: Civil)
    requires IsDate(c)
    ensures DaysBeforeYear(c.year) <= DayNumber(c.year, c.month, c.day) < DaysBeforeYear(c.year + 1)
    ensures DaysBeforeMonth(c.month + 1, c.year) == DaysBeforeMonth(c.month, c.year) + DaysIn(c.month, c.year)
  {
    YearLength(c.year);
    MonthLength(c.month, c.year);
    MonthsGrow(c.month, 13, c.year);
  }

  // ---------- AddDate ----------

  function AddDate(t: int, months: int, days: int): int {
    var c := CivilOf(t / DAY);
    DayNumber(c.year, c.month + months, c.day + days) * DAY + t % DAY
  }

  lemma AddDays(t: int, days: int)
    ensures AddDate(t, 0, days) == t + days * DAY
  {
    var c := CivilOf(t / DAY);
    assert DayNumber(c.year, c.month, c.day + days) == DayNumber(c.year, c.month, c.day) + days;
    Shift(t, days);
  }

  /**
   * One month later is later by exactly the length of the month one starts in, whatever the day: a
   * day the next month does not have overflows into the month after it.
   */
  lemma AddMonth(t: int)
    ensures var c := CivilOf(t / DAY); AddDate(t, 1, 0) == t + DaysIn(c.month, c.year) * DAY
  {
    var c := CivilOf(t / DAY);
    NextMonth(c);
    Shift(t, DaysIn(c.month, c.year));
  }

  lemma Shift(t: int, days: int)
    ensures (t / DAY + days) * DAY + t % DAY == t + days * DAY
  {
  }

  lemma NextMonth(c: Civil)
    requires IsDate(c)
    ensures DayNumber(c.year, c.month + 1, c.day) == DayNumber(c.year, c.month, c.day) + DaysIn(c.month, c.year)
  {
    MonthLength(c.month, c.year);
    YearLength(c.year);
    if c.month == 12 {
      MonthLength(1, c.year + 1);
    }
  }

  /** The month after a date's. */
  function MonthAfter(c: Civil): (int, int) {
    if c.month == 12 then (c.year + 1, 1) else (c.year, c.month + 1)
  }

  /** The date one month later; a day that month does not have runs over into the month after it. */
  function OneMonthOn(c: Civil): (d: Civil)
    requires IsDate(c)
    ensures IsDate(d)
  {
    var (year, month) := MonthAfter(c);
    if c.day <= DaysIn(month, year) then Civil(year, month, c.day)
    else
      var (later, after) := MonthAfter(Civil(year, month, 1));
      Civil(later, after, c.day - DaysIn(month, year))
  }

  lemma DayOneMonthOn(c: Civil)
    requires IsDate(c)
    ensures var d := OneMonthOn(c); DayNumber(d.year, d.month, d.day) == DayNumber(c.year, c.month + 1, c.day)
  {
    var (year, month) := MonthAfter(c);
    assert DayNumber(year, month, c.day) == DayNumber(c.year, c.month + 1, c.day);
    if c.day > DaysIn(month, year) {
      NextMonth(Civil(year, month, 1));
    }
  }

  lemma DayOf(n: int, r: int)
    requires 0 <= r < DAY
    ensures (n * DAY + r) / DAY == n && (n * DAY + r) % DAY == r
  {
  }

  /** A month step keeps the time of day and leads to the same day of the next month, where that has the day. */
  lemma AddMonthKeepsDay(t: int)
    ensures AddDate(t, 1, 0) % DAY == t % DAY
    ensures CivilOf(AddDate(t, 1, 0) / DAY) == OneMonthOn(CivilOf(t / DAY))
  {
    var c := CivilOf(t / DAY);
    var n := DayNumber(c.year, c.month + 1, c.day);
    DayOneMonthOn(c);
    DayOf(n, t % DAY);
    DateIsUnique(OneMonthOn(c));
  }
}
