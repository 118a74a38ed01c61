/** A proleptic Gregorian calendar, standing in for the JavaScript `Date`
    operations the schedulers use (`getDate`, `getDay`, `setDate`, `setMonth`,
    `getTime`).  A date is kept normalized as year, month (0 = January, as
    `getMonth` counts), day of month and milliseconds into the day; its instant
    is counted in milliseconds from 1970-01-01 00:00.  As in JavaScript, a day
    of month outside the month overflows into the neighbouring months. */
module Calendar {

  /** Milliseconds in one day. */
  const DayMillis: int := 86_400_000

  predicate IsLeapYear(y: int) {
    y % 4 == 0 && (y % 100 != 0 || y % 400 == 0)
  }

  function YearLength(y: int): int {
    if IsLeapYear(y) then 366 else 365
  }

  /** Number of days in month `m` of year `y`. */
  function MonthLength(y: int, m: int): (n: int)
    requires 0 <= m < 12
    ensures 28 <= n <= 31
    ensures n == 29 <==> m == 1 && IsLeapYear(y)
  {
    if m == 1 then (if IsLeapYear(y) then 29 else 28)
    else if m == 3 || m == 5 || m == 8 || m == 10 then 30
    else 31
  }

  /** Leap years among the years before `y`, up to a constant. */
  function LeapsBefore(y: int): int {
    (y - 1) / 4 - (y - 1) / 100 + (y - 1) / 400
  }

  /** Days from 1970-01-01 to the first of January of year `y`. */
  function DaysBeforeYear(y: int): int {
    365 * (y - 1970) + LeapsBefore(y) - LeapsBefore(1970)
  }

  /** Days from the first of January of year `y` to the first of month `m`. */
  function DaysBeforeMonth(y: int, m: int): int
    requires 0 <= m < 12
  {
    [0, 31, 59, 90, 120, 151, 181, 212, 243, 273, 304, 334][m]
      + (if m >= 2 && IsLeapYear(y) then 1 else 0)
  }

  /** Day number (days since 1970-01-01) of the first day of month `m` of `y`. */
  function MonthStart(y: int, m: int): int
    requires 0 <= m < 12
  {
    DaysBeforeYear(y) + DaysBeforeMonth(y, m)
  }

  function NextMonthYear(y: int, m: int): int { if m == 11 then y + 1 else y }
  function NextMonthIndex(m: int): int { if m == 11 then 0 else m + 1 }
  function PrevMonthYear(y: int, m: int): int { if m == 0 then y - 1 else y }
  function PrevMonthIndex(m: int): int { if m == 0 then 11 else m - 1 }

  lemma LeapsBeforeStep(y: int)
    ensures LeapsBefore(y + 1) == LeapsBefore(y) + (if IsLeapYear(y) then 1 else 0)
  {
    DivisionSteps(y);
    DivisorNesting(y);
  }

  /** Going from `y - 1` to `y` adds one multiple of 4, 100 and 400 exactly
      when `y` is one. */
  lemma DivisionSteps(y: int)
    ensures y / 4 - (y - 1) / 4 == (if y % 4 == 0 then 1 else 0)
    ensures y / 100 - (y - 1) / 100 == (if y % 100 == 0 then 1 else 0)
    ensures y / 400 - (y - 1) / 400 == (if y % 400 == 0 then 1 else 0)
  {
  }

  lemma DivisorNesting(y: int)
    ensures y % 400 == 0 ==> y % 100 == 0
    ensures y % 100 == 0 ==> y % 4 == 0
  {
  }

  /** Months are laid end to end: the next month starts right after this one. */
  lemma MonthStartNext(y: int, m: int)
    requires 0 <= m < 12
    ensures MonthStart(NextMonthYear(y, m), NextMonthIndex(m)) == MonthStart(y, m) + MonthLength(y, m)
  {
    if m == 11 {
      LeapsBeforeStep(y);
    }
  }

  datatype LocalDate = LocalDate(year: int, month: int, day: int, millisOfDay: int) {
    /** A normalized date: a real day of a real month, a time within the day. */
    predicate Valid() {
      0 <= month < 12 && 1 <= day <= MonthLength(year, month) && 0 <= millisOfDay < DayMillis
    }
  }

  /** Days since 1970-01-01. */
  function DayNumber(d: LocalDate): int
    requires d.Valid()
  {
    MonthStart(d.year, d.month) + d.day - 1
  }

  /** `getTime()`: milliseconds since 1970-01-01 00:00. */
  function Instant(d: LocalDate): int
    requires d.Valid()
  {
    DayNumber(d) * DayMillis + d.millisOfDay
  }

  /** `getDay()`: 0 is Sunday, 6 is Saturday; 1970-01-01 was a Thursday. */
  function WeekDay(d: LocalDate): (w: int)
    requires d.Valid()
    ensures 0 <= w < 7
  {
    WeekDayOf(DayNumber(d))
  }

  /** The weekday of day number `n`. */
  function WeekDayOf(n: int): (w: int)
    ensures 0 <= w < 7
  {
    (n + 4) % 7
  }

  /** bot.js:291 and app.js:33: `getDay() % 6 == 0`, that is Saturday or Sunday. */
  predicate IsWeekend(d: LocalDate)
    requires d.Valid()
  {
    WeekDay(d) % 6 == 0
  }

  /** The date with day of month `k` in month `m` of year `y` at time `ms`,
      where a `k` outside the month overflows into the following or
      preceding months, as `setDate` and `setMonth` do. */
  function SetDay(y: int, m: int, k: int, ms: int): (d: LocalDate)
    requires 0 <= m < 12 && 0 <= ms < DayMillis
    ensures d.Valid() && d.millisOfDay == ms
    ensures DayNumber(d) == MonthStart(y, m) + k - 1
    ensures 1 <= k <= MonthLength(y, m) ==> d == LocalDate(y, m, k, ms)
    decreases if k < 1 then 1 - k else 0, if k < 1 then 0 else k
  {
    if k < 1 then
      var py, pm := PrevMonthYear(y, m), PrevMonthIndex(m);
      MonthStartNext(py, pm);
      assert NextMonthYear(py, pm) == y && NextMonthIndex(pm) == m;
      SetDay(py, pm, k + MonthLength(py, pm), ms)
    else if k > MonthLength(y, m) then
      MonthStartNext(y, m);
      SetDay(NextMonthYear(y, m), NextMonthIndex(m), k - MonthLength(y, m), ms)
    else
      LocalDate(y, m, k, ms)
  }

  /** `d.setDate(k)`. */
  function SetDate(d: LocalDate, k: int): (r: LocalDate)
    requires d.Valid()
    ensures r.Valid() && r.millisOfDay == d.millisOfDay
    ensures DayNumber(r) == DayNumber(d) + (k - d.day)
    ensures Instant(r) == Instant(d) + (k - d.day) * DayMillis
  {
    SetDay(d.year, d.month, k, d.millisOfDay)
  }

  /** `d.setMonth(d.getMonth() + 1)`: the same day of month in the next month,
      overflowing when that month is shorter. */
  function AddMonth(d: LocalDate): (r: LocalDate)
    requires d.Valid()
    ensures r.Valid() && r.millisOfDay == d.millisOfDay
    ensures DayNumber(r) == DayNumber(d) + MonthLength(d.year, d.month)
  {
    MonthStartNext(d.year, d.month);
    SetDay(NextMonthYear(d.year, d.month), NextMonthIndex(d.month), d.day, d.millisOfDay)
  }

  /** Moving a date by `n` whole days moves its weekday by `n` as well. */
  lemma ShiftWeekDay(d: LocalDate, n: int)
    requires d.Valid()
    ensures WeekDay(SetDate(d, d.day + n)) == (WeekDay(d) + n) % 7
    ensures DayNumber(SetDate(d, d.day + n)) == DayNumber(d) + n
  {
    ModSevenShift(DayNumber(d) + 4, n);
    assert DayNumber(d) + n + 4 == DayNumber(d) + 4 + n;
  }

  lemma ModSevenShift(a: int, n: int)
    ensures (a + n) % 7 == (a % 7 + n) % 7
  {
    var x := a % 7 + n;
    assert a + n == x + 7 * (a / 7);
    assert x == 7 * (x / 7) + x % 7;
    assert a + n == 7 * (x / 7 + a / 7) + x % 7;
  }

  /** Instants order as day numbers do, across different days. */
  lemma InstantOrder(d1: LocalDate, d2: LocalDate)
    requires d1.Valid() && d2.Valid()
    ensures DayNumber(d1) < DayNumber(d2) ==> Instant(d1) < Instant(d2)
    ensures Instant(d1) <= Instant(d2) ==> DayNumber(d1) <= DayNumber(d2)
  {
    var n1, n2 := DayNumber(d1), DayNumber(d2);
    if n1 < n2 {
      assert (n2 - n1) * DayMillis >= DayMillis;
      assert n2 * DayMillis - n1 * DayMillis == (n2 - n1) * DayMillis;
    }
  }

  /** A valid date lies within its month. */
  lemma WithinMonth(d: LocalDate)
    requires d.Valid()
    ensures MonthStart(d.year, d.month) <= DayNumber(d)
    ensures DayNumber(d) < MonthStart(NextMonthYear(d.year, d.month), NextMonthIndex(d.month))
  {
    MonthStartNext(d.year, d.month);
  }
}
