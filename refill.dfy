/** The calendar estimator of bot.js (`estimateNextFiatDepositDate`,
    bot.js:490-513): when the fiat currently allocated is expected to be
    replenished.  The rollover of the branch for later runs is the corrected
    one (see Findings in the README); the first-run branch is as written. */
module Refill {
  import opened Wrappers
  import opened Calendar

  /** bot.js:492: the configured day of the cash refill is used when it is a
      number from 1 to 31.  None stands for an unset or non-numeric value. */
  predicate IsValidRefillDay(day: Option<int>) {
    day.Some? && 0 < day.value <= 31
  }

  /** bot.js:512: a Saturday moves back one day and a Sunday two, onto the
      Friday before. */
  function BackShiftWeekend(d: LocalDate): (r: LocalDate)
    requires d.Valid()
    ensures r.Valid() && !IsWeekend(r) && r.millisOfDay == d.millisOfDay
    ensures IsWeekend(d) ==> WeekDay(r) == 5 && DayNumber(d) - 2 <= DayNumber(r) < DayNumber(d)
    ensures !IsWeekend(d) ==> r == d
  {
    if IsWeekend(d) then
      var back := if WeekDay(d) == 6 then 1 else 2;
      BackToFriday(d, back);
      SetDate(d, d.day - back)
    else
      d
  }

  lemma BackToFriday(d: LocalDate, back: int)
    requires d.Valid() && IsWeekend(d)
    requires back == if WeekDay(d) == 6 then 1 else 2
    ensures WeekDay(SetDate(d, d.day - back)) == 5
    ensures DayNumber(SetDate(d, d.day - back)) == DayNumber(d) - back
    ensures SetDate(d, d.day - back).millisOfDay == d.millisOfDay
  {
    var n := DayNumber(d);
    FridayBefore(n);
  }

  /** Stepping back one day from a Saturday, or two from a Sunday, lands on a Friday. */
  lemma FridayBefore(n: int)
    requires WeekDayOf(n) % 6 == 0
    ensures WeekDayOf(n - (if WeekDayOf(n) == 6 then 1 else 2)) == 5
  {
    ModSevenShift(n + 4, if WeekDayOf(n) == 6 then -1 else -2);
  }

  /** The refill date before the weekend adjustment (bot.js:491-511): without
      a valid day, one month after `now`; with one, day `day` of this month
      when that is still ahead, and otherwise day `day` of the next month
      (a day the month lacks overflows into the month after, as `setDate`
      does). */
  function RefillTarget(now: LocalDate, day: Option<int>): (t: LocalDate)
    requires now.Valid()
    ensures t.Valid() && t.millisOfDay == now.millisOfDay
    ensures Instant(now) < Instant(t) <= Instant(now) + 31 * DayMillis
    ensures !IsValidRefillDay(day) ==> DayNumber(t) == DayNumber(now) + MonthLength(now.year, now.month)
    ensures IsValidRefillDay(day) && now.day < day.value
            ==> DayNumber(t) == MonthStart(now.year, now.month) + day.value - 1
    ensures IsValidRefillDay(day) && day.value <= now.day
            ==> DayNumber(t) == MonthStart(NextMonthYear(now.year, now.month), NextMonthIndex(now.month)) + day.value - 1
    ensures IsValidRefillDay(day) && now.day < day.value <= MonthLength(now.year, now.month)
            ==> t == LocalDate(now.year, now.month, day.value, now.millisOfDay)
    ensures IsValidRefillDay(day) && day.value <= now.day
            && day.value <= MonthLength(NextMonthYear(now.year, now.month), NextMonthIndex(now.month))
            ==> t == LocalDate(NextMonthYear(now.year, now.month), NextMonthIndex(now.month), day.value, now.millisOfDay)
  {
    var ms := now.millisOfDay;
    if !IsValidRefillDay(day) then
      AddMonth(now)
    else
      var current := SetDate(now, day.value);
      if Instant(current) > Instant(now) then
        current
      else
        MonthStartNext(now.year, now.month);
        SetDay(NextMonthYear(now.year, now.month), NextMonthIndex(now.month), day.value, ms)
  }

  /** bot.js:490-513: the estimated instant at which the allocated fiat runs
      out and new fiat arrives. */
  function EstimateNextFiatDeposit(now: LocalDate, day: Option<int>): (e: LocalDate)
    requires now.Valid()
    ensures e.Valid() && !IsWeekend(e)
    ensures Instant(now) - 2 * DayMillis < Instant(e) <= Instant(now) + 31 * DayMillis
  {
    BackShiftWeekend(RefillTarget(now, day))
  }

  /** The first-run rollover of bot.js:494-497 (set the day, then move one
      month on) reaches the refill target. */
  lemma FirstRunRollover(now: LocalDate, day: int)
    requires now.Valid() && IsValidRefillDay(Some(day))
    requires Instant(SetDate(now, day)) <= Instant(now)
    ensures AddMonth(SetDate(now, day)) == RefillTarget(now, Some(day))
  {
    var c := SetDate(now, day);
    SetDateInMonth(now, day);
    assert c == LocalDate(now.year, now.month, day, now.millisOfDay);
  }

  /** The corrected rollover for later runs (first of the month, one month
      on, then the day) reaches the same refill target. */
  lemma LaterRunRollover(now: LocalDate, day: int)
    requires now.Valid() && IsValidRefillDay(Some(day))
    requires Instant(SetDate(now, day)) <= Instant(now)
    ensures SetDate(AddMonth(SetDate(now, 1)), day) == RefillTarget(now, Some(day))
  {
    var first := SetDate(now, 1);
    assert first == LocalDate(now.year, now.month, 1, now.millisOfDay);
    var next := AddMonth(first);
    assert next == LocalDate(NextMonthYear(now.year, now.month), NextMonthIndex(now.month), 1, now.millisOfDay);
  }

  /** A day that is not after today lies within the current month. */
  lemma SetDateInMonth(now: LocalDate, day: int)
    requires now.Valid() && 0 < day
    requires Instant(SetDate(now, day)) <= Instant(now)
    ensures day <= now.day
    ensures SetDate(now, day) == LocalDate(now.year, now.month, day, now.millisOfDay)
  {
    assert (day - now.day) * DayMillis <= 0;
  }
}
