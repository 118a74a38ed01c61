/** The withdrawal rule of bot.js (`isWithdrawalDue` and
    `isWithdrawalDateDue`, bot.js:452-463): an asset with a withdrawal
    address key is withdrawn either once its balance reaches a threshold or,
    without a threshold, on the first purchase on or after the shared monthly
    withdrawal date. */
module Withdrawal {
  import opened Wrappers
  import opened Calendar
  import opened Assets

  /** bot.js:454-455 and 95-97: the first day of the month after `w`. */
  function FirstOfNextMonth(w: LocalDate): (r: LocalDate)
    requires w.Valid()
    ensures r.Valid() && r.day == 1 && r.millisOfDay == w.millisOfDay
    ensures r.year == NextMonthYear(w.year, w.month) && r.month == NextMonthIndex(w.month)
    ensures DayNumber(r) == MonthStart(w.year, w.month) + MonthLength(w.year, w.month)
  {
    var first := SetDate(w, 1);
    assert first == LocalDate(w.year, w.month, 1, w.millisOfDay);
    AddMonth(first)
  }

  /** Whether a withdrawal is due, and the withdrawal date afterwards. */
  datatype WithdrawalDecision = WithdrawalDecision(due: bool, withdrawalDate: LocalDate)

  /** bot.js:461-463.  The date test, which advances the shared withdrawal
      date when it fires, is reached only for an asset with a key and no
      threshold. */
  function IsWithdrawalDue(c: AssetConfig, amount: real, now: int, w: LocalDate): (d: WithdrawalDecision)
    requires w.Valid()
    ensures d.withdrawalDate.Valid()
    ensures d.due ==> HasWithdrawalKey(c)
    ensures !d.due ==> d.withdrawalDate == w
    ensures d.withdrawalDate == w || d.withdrawalDate == FirstOfNextMonth(w)
  {
    if HasWithdrawalKey(c) && !HasWithdrawTarget(c) then
      if now >= Instant(w) then WithdrawalDecision(true, FirstOfNextMonth(w))
      else WithdrawalDecision(false, w)
    else
      WithdrawalDecision(HasWithdrawalKey(c) && c.withdrawTarget.value <= amount, w)
  }

  /** Date mode: with a key and no threshold, a withdrawal is due exactly when
      the withdrawal date has been reached, and then the date moves to the
      first of the following month. */
  lemma DateMode(c: AssetConfig, amount: real, now: int, w: LocalDate)
    requires w.Valid() && HasWithdrawalKey(c) && !HasWithdrawTarget(c)
    ensures IsWithdrawalDue(c, amount, now, w).due <==> now >= Instant(w)
    ensures now >= Instant(w) ==> IsWithdrawalDue(c, amount, now, w).withdrawalDate == FirstOfNextMonth(w)
  {
  }

  /** Threshold mode: with a key and a threshold, a withdrawal is due exactly
      when the amount held reaches the threshold, whatever the date, and the
      withdrawal date is left alone. */
  lemma ThresholdMode(c: AssetConfig, amount: real, now: int, w: LocalDate)
    requires w.Valid() && HasWithdrawalKey(c) && HasWithdrawTarget(c)
    ensures IsWithdrawalDue(c, amount, now, w).due <==> c.withdrawTarget.value <= amount
    ensures IsWithdrawalDue(c, amount, now, w).withdrawalDate == w
  {
  }

  /** Without an address key nothing is ever withdrawn and the date stays. */
  lemma NeverWithoutKey(c: AssetConfig, amount: real, now: int, w: LocalDate)
    requires w.Valid() && !HasWithdrawalKey(c)
    ensures IsWithdrawalDue(c, amount, now, w) == WithdrawalDecision(false, w)
  {
  }

  /** Once the date test has fired, the date lies in the following month, so
      a second date-mode asset asked at the same instant is refused: the
      withdrawal date is shared, and at most one date-mode asset withdraws
      per month. */
  lemma DateFiresOncePerMonth(c1: AssetConfig, c2: AssetConfig, a1: real, a2: real, now: LocalDate, w: LocalDate)
    requires w.Valid() && now.Valid()
    requires HasWithdrawalKey(c1) && !HasWithdrawTarget(c1)
    requires HasWithdrawalKey(c2) && !HasWithdrawTarget(c2)
    requires now.year == w.year && now.month == w.month
    requires IsWithdrawalDue(c1, a1, Instant(now), w).due
    ensures !IsWithdrawalDue(c2, a2, Instant(now), IsWithdrawalDue(c1, a1, Instant(now), w).withdrawalDate).due
  {
    var w2 := FirstOfNextMonth(w);
    WithinMonth(now);
    assert DayNumber(now) < DayNumber(w2);
    assert Instant(now) < Instant(w2);
  }
}
