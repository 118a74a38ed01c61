/** Three places where bot.js, as written, does not do what its own messages
    and checks evidently intend.  Each is modelled here as written, with the
    input that shows the difference; the rest of the model uses the corrected
    behaviour (`Cycle.CycleSpec`, `Refill.RefillTarget`,
    `Allocation.StartupAccepts`). */
module Findings {
  import opened Wrappers
  import opened Calendar
  import opened Assets
  import opened Allocation
  import opened Refill
  import opened Cycle

  // ---------------------------------------------------------------------
  // The escalation of bot.js:469-472 is swallowed by the loop's own catch.

  /** A pass whose balance query failed, as written: bot.js:469 counts the
      failure and throws, but the throw lands in the catch of bot.js:279-283,
      which only logs and sleeps, so the loop goes on. */
  function FailedPassAsWritten(b: BotView, vs: seq<AssetView>): CycleResult {
    CycleResult(b.(interrupted := b.interrupted + 1), vs, Continue, [])
  }

  /** `n` passes in a row whose balance query failed, as written. */
  function FailedPassesAsWritten(b: BotView, vs: seq<AssetView>, n: nat): CycleResult
    decreases n
  {
    if n == 0 then CycleResult(b, vs, Continue, [])
    else
      var r := FailedPassesAsWritten(b, vs, n - 1);
      FailedPassAsWritten(r.bot, r.views)
  }

  /** As written, no number of failed balance queries ever ends the loop:
      the counter grows and nothing else changes. */
  lemma {:induction false} FailuresNeverAbortAsWritten(b: BotView, vs: seq<AssetView>, n: nat)
    ensures var r := FailedPassesAsWritten(b, vs, n);
      && r.outcome == Continue
      && r.bot == b.(interrupted := b.interrupted + n)
      && r.views == vs
  {
    if n > 0 {
      FailuresNeverAbortAsWritten(b, vs, n - 1);
    }
  }

  /** Three failed balance queries from start-up: the corrected pass aborts
      on the third, as the message of bot.js:470 says, while the code as
      written keeps running with the first run never completed. */
  lemma EscalationSwallowed(cs: seq<AssetConfig>, settings: Settings, startup: LocalDate, i1: CycleInput, i2: CycleInput, i3: CycleInput)
    requires startup.Valid() && i1.now.Valid() && i2.now.Valid() && i3.now.Valid()
    requires forall i :: 0 <= i < |cs| ==> cs[i].Valid()
    requires BalanceQueryFailed(i1.balance) && BalanceQueryFailed(i2.balance) && BalanceQueryFailed(i3.balance)
    ensures var w := FailedPassesAsWritten(InitialBot(startup), InitialViews(|cs|, Instant(startup)), 3);
      w.outcome == Continue && w.bot.firstRun && w.bot.interrupted == 3
    ensures var r1 := CycleSpec(cs, settings, InitialBot(startup), InitialViews(|cs|, Instant(startup)), i1);
      var r2 := CycleSpec(cs, settings, r1.bot, r1.views, i2);
      CycleSpec(cs, settings, r2.bot, r2.views, i3).outcome == Aborted
  {
    FailuresNeverAbortAsWritten(InitialBot(startup), InitialViews(|cs|, Instant(startup)), 3);
    ThreeFailuresFromStartAbort(cs, settings, startup, i1, i2, i3);
  }

  // ---------------------------------------------------------------------
  // The later-run rollover of bot.js:504-505 can skip a month.

  /** The refill target of a later run, as written in bot.js:499-506: when
      the day has passed, `setMonth(getMonth() + 1)` on today's date and then
      `setDate(day)`.  On the 29th to 31st the first step can overflow into
      the month after next. */
  function RefillTargetAsWritten(now: LocalDate, day: Option<int>): LocalDate
    requires now.Valid()
  {
    if !IsValidRefillDay(day) then
      AddMonth(now)
    else
      var current := SetDate(now, day.value);
      if Instant(current) > Instant(now) then current
      else SetDate(AddMonth(now), day.value)
  }

  /** On 31 January 2025 with the refill on the 10th, the code as written
      expects the next refill on 10 March; the refill in fact comes on
      10 February, which the corrected target gives. */
  lemma RolloverSkipsFebruary()
    ensures RefillTargetAsWritten(LocalDate(2025, 0, 31, 0), Some(10)) == LocalDate(2025, 2, 10, 0)
    ensures RefillTarget(LocalDate(2025, 0, 31, 0), Some(10)) == LocalDate(2025, 1, 10, 0)
  {
    var now := LocalDate(2025, 0, 31, 0);
    assert MonthLength(2025, 0) == 31 && MonthLength(2025, 1) == 28 && MonthLength(2025, 2) == 31;
    assert now.Valid();
    var current := SetDate(now, 10);
    assert current == LocalDate(2025, 0, 10, 0);
    var skipped := AddMonth(now);
    assert skipped == SetDay(2025, 1, 31, 0);
    assert SetDay(2025, 1, 31, 0) == SetDay(2025, 2, 3, 0);
    assert skipped == LocalDate(2025, 2, 3, 0);
    assert SetDate(skipped, 10) == LocalDate(2025, 2, 10, 0);
    assert SetDay(2025, 1, 10, 0) == LocalDate(2025, 1, 10, 0);
  }

  // ---------------------------------------------------------------------
  // The start-up check of bot.js:558-559 counts negative allocations.

  /** bot.js:558-559 as written: the configuration is accepted when the plain
      sum of the allocations, negative ones included, is at most 100. */
  predicate StartupAcceptsAsWritten(allocs: seq<real>) {
    Total(allocs) <= 100.0
  }

  /** Allocations of 125, -50 and 25 percent pass the check as written, yet
      the negative one is never applied (bot.js:203), so 150 percent of every
      fiat deposit is budgeted.  The corrected check refuses them. */
  lemma OverAllocationAccepted()
    ensures StartupAcceptsAsWritten([125.0, -50.0, 25.0])
    ensures !StartupAccepts([125.0, -50.0, 25.0])
    ensures Sum(Partition(100.0, [125.0, -50.0, 25.0])) == 150.0
  {
    var allocs := [125.0, -50.0, 25.0];
    assert allocs[1..] == [-50.0, 25.0] && allocs[1..][1..] == [25.0] && allocs[1..][1..][1..] == [];
    assert Total(allocs) == 100.0;
    assert AppliedTotal(allocs) == 150.0;
    PartitionSum(100.0, allocs);
  }
}
