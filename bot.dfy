/** The mutable state of bot.js: one `AssetState` object per asset record
    (bot.js:46-91) and the `Bot` object holding the loop-wide variables
    (bot.js:95-105).  Each method changes the objects as the corresponding
    code of bot.js does and is proved to leave exactly the state that the
    functions of the Cycle module describe. */
module Bot {
  import opened Wrappers
  import opened Calendar
  import opened Assets
  import opened Allocation
  import opened Pacing
  import opened Refill
  import Withdrawal
  import opened Cycle

  /** One asset record. */
  class AssetState {
    const config: AssetConfig
    var allocatedFiat: real
    var lastPrice: Option<real>
    var balance: real
    var dateOfNextOrder: int
    var noSuccessfulBuyYet: bool

    function View(): AssetView
      reads this
    {
      AssetView(allocatedFiat, lastPrice, balance, dateOfNextOrder, noSuccessfulBuyYet)
    }

    /** bot.js:46-58: no budget, no price, nothing held, the first order due
        at start-up. */
    constructor(config: AssetConfig, startup: int)
      ensures this.config == config && View() == InitialView(startup)
    {
      this.config := config;
      allocatedFiat := 0.0;
      lastPrice := None;
      balance := 0.0;
      dateOfNextOrder := startup;
      noSuccessfulBuyYet := true;
    }

    /** bot.js:515-541: schedule the next purchase of this asset. */
    method EvaluateMillisUntilNextOrder(now: int, emptyFiat: int, delay: int)
      requires config.Valid()
      modifies this
      ensures View() == old(View()).(dateOfNextOrder := NextOrderTime(config, old(View()), now, emptyFiat, delay))
    {
      if lastPrice.Some? && lastPrice.value > 0.0 && allocatedFiat > 0.0 {
        var valueInCrypto := allocatedFiat / lastPrice.value;
        var numPossibleOrders := (valueInCrypto / config.orderSize).Floor;
        if numPossibleOrders < 1 {
          dateOfNextOrder := now + WeekMillis;
        } else {
          var timeWindow := emptyFiat - now;
          if timeWindow <= delay {
            dateOfNextOrder := now + delay;
          } else {
            dateOfNextOrder := now + Max(delay, timeWindow / numPossibleOrders);
          }
        }
      } else if allocatedFiat <= 0.0 && config.allocation > 0.0 {
        dateOfNextOrder := now + WeekMillis;
      } else if config.allocation > 0.0 {
        dateOfNextOrder := now + 5 * delay;
      }
    }

    /** bot.js:417-437: classify the reply to a buy order; a success marks
        the asset as bought at least once. */
    method BuyCrypto(reply: OrderReply) returns (success: bool)
      modifies this
      ensures success <==> BuySucceeded(reply)
      ensures View() == if success then old(View()).(noSuccessfulBuyYet := false) else old(View())
    {
      match reply
      case Threw =>
        success := false;
      case Replied(errors, txids) =>
        if |errors| > 0 {
          success := false;
        } else if txids.Some? && |txids.value| > 0 {
          noSuccessfulBuyYet := false;
          success := true;
        } else {
          success := false;
        }
    }
  }

  /** The bot: its assets, its settings and the loop-wide variables. */
  class Bot {
    const assets: seq<AssetState>
    const settings: Settings
    var lastFiatBalance: Option<real>
    var firstRun: bool
    var interrupted: nat
    var dateOfEmptyFiat: LocalDate
    var withdrawalDate: LocalDate

    function Configs(): (cs: seq<AssetConfig>)
      ensures |cs| == |assets| && forall i :: 0 <= i < |assets| ==> cs[i] == assets[i].config
    {
      seq(|assets|, i requires 0 <= i < |assets| => assets[i].config)
    }

    function Views(): (vs: seq<AssetView>)
      reads assets
      ensures |vs| == |assets| && forall i :: 0 <= i < |assets| ==> vs[i] == assets[i].View()
    {
      seq(|assets|, i reads assets requires 0 <= i < |assets| => assets[i].View())
    }

    function View(): BotView
      reads this
    {
      BotView(lastFiatBalance, firstRun, interrupted, dateOfEmptyFiat, withdrawalDate)
    }

    /** Distinct asset objects in a valid state. */
    predicate Valid()
      reads this, assets
    {
      && (forall i, j :: 0 <= i < j < |assets| ==> assets[i] != assets[j])
      && ValidState(Configs(), View(), Views())
    }

    /** bot.js:46-105, reached only when the allocations pass the start-up
        check of bot.js:558-562. */
    constructor(configs: seq<AssetConfig>, settings: Settings, startup: LocalDate)
      requires startup.Valid() && StartupAccepts(Allocations(configs))
      requires forall i :: 0 <= i < |configs| ==> configs[i].Valid()
      ensures Valid() && Configs() == configs && this.settings == settings
      ensures View() == InitialBot(startup) && Views() == InitialViews(|configs|, Instant(startup))
      ensures forall i :: 0 <= i < |assets| ==> fresh(assets[i])
    {
      var list := NewAssets(configs, Instant(startup));
      assets := list;
      this.settings := settings;
      lastFiatBalance := None;
      firstRun := true;
      interrupted := 0;
      dateOfEmptyFiat := startup;
      withdrawalDate := Withdrawal.FirstOfNextMonth(startup);
      new;
      assert Configs() == configs;
      assert Views() == InitialViews(|configs|, Instant(startup));
      assert View() == InitialBot(startup);
      InitialStateValid(configs, startup);
    }

    /** bot.js:46-91: one fresh asset record per configured asset, each in
        its start-up state. */
    static method NewAssets(configs: seq<AssetConfig>, startup: int) returns (list: seq<AssetState>)
      ensures |list| == |configs|
      ensures forall j :: 0 <= j < |list| ==> fresh(list[j]) && list[j].config == configs[j]
      ensures forall j :: 0 <= j < |list| ==> list[j].View() == InitialView(startup)
      ensures forall j, k :: 0 <= j < k < |list| ==> list[j] != list[k]
    {
      list := [];
      var i := 0;
      while i < |configs|
        invariant 0 <= i <= |configs| && |list| == i
        invariant forall j :: 0 <= j < i ==> fresh(list[j]) && list[j].config == configs[j]
        invariant forall j :: 0 <= j < i ==> list[j].View() == InitialView(startup)
        invariant forall j, k :: 0 <= j < k < i ==> list[j] != list[k]
      {
        var a := new AssetState(configs[i], startup);
        list := list + [a];
        i := i + 1;
      }
    }

    /** bot.js:490-513: estimate when the allocated fiat runs out and
        record it. */
    method EstimateNextFiatDepositDate(firstRunArg: bool, now: LocalDate)
      requires now.Valid()
      modifies this
      ensures dateOfEmptyFiat == EstimateNextFiatDeposit(now, settings.refillDay)
      ensures lastFiatBalance == old(lastFiatBalance) && firstRun == old(firstRun)
      ensures interrupted == old(interrupted) && withdrawalDate == old(withdrawalDate)
    {
      var d := NextRefillDate(firstRunArg, now);
      d := BackOffWeekend(d);
      dateOfEmptyFiat := d;
    }

    /** bot.js:512: a refill date on a weekend moves back to the Friday. */
    method BackOffWeekend(d: LocalDate) returns (r: LocalDate)
      requires d.Valid()
      ensures r == BackShiftWeekend(d)
    {
      r := d;
      if IsWeekend(r) {
        r := SetDate(r, r.day - (if WeekDay(r) == 6 then 1 else 2));
      }
    }

    /** bot.js:491-511: the refill date before the weekend adjustment.  Both
        branches land on the same date: the rollover of the branch for later
        runs goes to the first of the next month before setting the day, so
        that no month is skipped. */
    method NextRefillDate(firstRunArg: bool, now: LocalDate) returns (d: LocalDate)
      requires now.Valid()
      ensures d == RefillTarget(now, settings.refillDay)
    {
      var refillDay := settings.refillDay;
      d := now;
      if IsValidRefillDay(refillDay) {
        var day := refillDay.value;
        if firstRunArg {
          d := SetDate(d, day);
          if Instant(d) <= Instant(now) {
            FirstRunRollover(now, day);
            d := AddMonth(d);
          }
        } else {
          var currentMonthRefillDate := SetDate(d, day);
          if Instant(currentMonthRefillDate) > Instant(d) {
            d := currentMonthRefillDate;
          } else {
            LaterRunRollover(now, day);
            d := SetDate(d, 1);
            d := AddMonth(d);
            d := SetDate(d, day);
          }
        }
      } else {
        d := AddMonth(d);
      }
    }

    method IsWithdrawalDateDue(now: int) returns (due: bool)
      requires withdrawalDate.Valid()
      modifies this
      ensures due <==> now >= Instant(old(withdrawalDate))
      ensures withdrawalDate == if due then Withdrawal.FirstOfNextMonth(old(withdrawalDate)) else old(withdrawalDate)
      ensures View() == old(View()).(withdrawalDate := withdrawalDate)
    {
      due := false;
      if now >= Instant(withdrawalDate) {
        withdrawalDate := SetDate(withdrawalDate, 1);
        withdrawalDate := AddMonth(withdrawalDate);
        due := true;
      }
    }

    /** bot.js:461-463: whether the holding `amount` of an asset configured
        as `c` is to be withdrawn. */
    method IsWithdrawalDue(c: AssetConfig, amount: real, now: int) returns (due: bool)
      requires withdrawalDate.Valid()
      modifies this
      ensures var d := Withdrawal.IsWithdrawalDue(c, amount, now, old(withdrawalDate));
        due == d.due && withdrawalDate == d.withdrawalDate
      ensures View() == old(View()).(withdrawalDate := withdrawalDate)
    {
      if HasWithdrawalKey(c) && !HasWithdrawTarget(c) {
        due := IsWithdrawalDateDue(now);
      } else {
        due := HasWithdrawalKey(c) && HasWithdrawTarget(c) && c.withdrawTarget.value <= amount;
      }
    }

    /** bot.js:465-473: count a failed balance query; report whether the
        failures are fatal. */
    method PrintBalanceQueryFailedError() returns (fatal: bool)
      modifies this
      ensures interrupted == old(interrupted) + 1
      ensures fatal <==> interrupted >= 3 && firstRun
      ensures View() == old(View()).(interrupted := interrupted)
    {
      interrupted := interrupted + 1;
      fatal := interrupted >= 3 && firstRun;
    }
 
    /** Distinct asset objects: updating one leaves the others alone. */
    predicate Distinct()
    {
      forall i, j :: 0 <= i < j < |assets| ==> assets[i] != assets[j]
    }

    /** bot.js:180-188: take the holdings of the assets with a positive
        allocation from the balance reply. */
    method RefreshHoldings(raw: seq<Option<real>>)
      requires Distinct()
      modifies assets
      ensures Views() == Holdings(Configs(), old(Views()), raw)
    {
      var i := 0;
      while i < |assets|
        invariant 0 <= i <= |assets|
        invariant forall j :: 0 <= j < i ==> assets[j].View() == WithHolding(assets[j].config, old(assets[j].View()), ReadingAt(raw, j))
        invariant forall j :: i <= j < |assets| ==> assets[j].View() == old(assets[j].View())
      {
        var asset := assets[i];
        if asset.config.allocation > 0.0 {
          asset.balance := HoldingOrZero(ReadingAt(raw, i));
        }
        i := i + 1;
      }
    }

    /** bot.js:201-206: give each asset with a positive allocation its share
        of the fiat balance. */
    method Reallocate(fiatAmount: real)
      requires Distinct()
      modifies assets
      ensures Views() == Cycle.Reallocate(Configs(), old(Views()), fiatAmount)
    {
      var i := 0;
      while i < |assets|
        invariant 0 <= i <= |assets|
        invariant forall j :: 0 <= j < i ==> assets[j].View() == Reallocated(assets[j].config, old(assets[j].View()), fiatAmount)
        invariant forall j :: i <= j < |assets| ==> assets[j].View() == old(assets[j].View())
      {
        var asset := assets[i];
        if asset.config.allocation > 0.0 {
          asset.allocatedFiat := fiatAmount * (asset.config.allocation / 100.0);
        }
        i := i + 1;
      }
    }

    /** bot.js:210-220: re-read the price of each asset with fiat to spend. */
    method RefreshPrices(prices: seq<Option<real>>)
      requires Distinct()
      modifies assets
      ensures Views() == Prices(Configs(), old(Views()), prices)
    {
      var i := 0;
      while i < |assets|
        invariant 0 <= i <= |assets|
        invariant forall j :: 0 <= j < i ==> assets[j].View() == WithPrice(assets[j].config, old(assets[j].View()), ReadingAt(prices, j))
        invariant forall j :: i <= j < |assets| ==> assets[j].View() == old(assets[j].View())
      {
        var asset := assets[i];
        if asset.config.allocation > 0.0 && asset.allocatedFiat > 0.0 {
          asset.lastPrice := ReadingAt(prices, i);
        }
        i := i + 1;
      }
    }
 
    /** bot.js:224-275 for asset `i`, given whether anything was bought
        earlier in this pass. */
    method GateAsset(ctx: GateContext, i: nat, executed: bool) returns (event: AssetEvent, executedAfter: bool)
      requires Distinct() && i < |assets| && withdrawalDate.Valid() && assets[i].config.Valid()
      modifies this, assets[i]
      ensures var s := GateStep(assets[i].config, old(assets[i].View()), ctx, i, executed, old(withdrawalDate));
        assets[i].View() == s.view && event == s.event && executedAfter == s.executed && withdrawalDate == s.withdrawalDate
      ensures lastFiatBalance == old(lastFiatBalance) && firstRun == old(firstRun)
      ensures interrupted == old(interrupted) && dateOfEmptyFiat == old(dateOfEmptyFiat)
    {
      var asset := assets[i];
      executedAfter := executed;
      event := AssetEvent(false, false, None);
      if asset.config.allocation == 0.0 {
        return;
      }
      if asset.lastPrice.None? || asset.lastPrice.value <= 0.0 || asset.allocatedFiat <= 0.0 {
        return;
      }
      var canAffordOrder := asset.allocatedFiat >= asset.lastPrice.value * asset.config.orderSize;
      var ordered := (asset.dateOfNextOrder <= ctx.now || ctx.arrived) && canAffordOrder;
      var bought := false;
      if ordered {
        bought := asset.BuyCrypto(OrderAt(ctx.orders, i));
        if bought {
          asset.EvaluateMillisUntilNextOrder(ctx.now, ctx.emptyFiat, ctx.delay);
          executedAfter := true;
          var reading := ReadingAt(ctx.postBuy, i);
          if reading.Some? {
            asset.balance := reading.value;
          }
        }
      }
      var withdrawal := None;
      if executedAfter {
        var due := IsWithdrawalDue(asset.config, asset.balance, ctx.now);
        if due {
          withdrawal := Some(asset.balance);
        }
      }
      event := AssetEvent(ordered, bought, withdrawal);
    }

    /** The assets, the withdrawal date and the purchase flag hold the fold
        state `g` of the purchase stage. */
    ghost predicate Mirrors(g: GateState, executed: bool)
      reads this, assets
    {
      && |g.views| == |assets|
      && (forall j :: 0 <= j < |assets| ==> assets[j].View() == g.views[j])
      && executed == g.executed && withdrawalDate == g.withdrawalDate
    }

    /** bot.js:222-276: the purchase stage over all assets in order. */
    method GateAndBuy(ctx: GateContext) returns (events: seq<AssetEvent>)
      requires Distinct() && withdrawalDate.Valid()
      requires forall i :: 0 <= i < |assets| ==> assets[i].config.Valid()
      modifies this, assets
      ensures var g := GateAll(Configs(), old(Views()), ctx, old(withdrawalDate), |assets|);
        Views() == g.views && withdrawalDate == g.withdrawalDate && events == g.events
      ensures lastFiatBalance == old(lastFiatBalance) && firstRun == old(firstRun)
      ensures interrupted == old(interrupted) && dateOfEmptyFiat == old(dateOfEmptyFiat)
    {
      ghost var cs, v0 := Configs(), Views();
      events := GateLoop(ctx, cs, v0, withdrawalDate);
      assert Views() == GateAll(cs, v0, ctx, old(withdrawalDate), |assets|).views;
    }

    /** The loop of bot.js:222-276, each asset in turn moving the fold of
        `GateAll` one step on. */
    method GateLoop(ctx: GateContext, ghost cs: seq<AssetConfig>, ghost v0: seq<AssetView>, ghost w0: LocalDate)
        returns (events: seq<AssetEvent>)
      requires Distinct() && cs == Configs() && v0 == Views() && w0 == withdrawalDate && w0.Valid()
      requires forall i :: 0 <= i < |cs| ==> cs[i].Valid()
      modifies this, assets
      ensures var g := GateAll(cs, v0, ctx, w0, |cs|);
        Mirrors(g, g.executed) && events == g.events
      ensures lastFiatBalance == old(lastFiatBalance) && firstRun == old(firstRun)
      ensures interrupted == old(interrupted) && dateOfEmptyFiat == old(dateOfEmptyFiat)
    {
      var buyOrderExecutedThisCycle := false;
      events := [];
      var i := 0;
      ghost var g := GateAll(cs, v0, ctx, w0, 0);
      while i < |assets|
        invariant 0 <= i <= |assets| && g == GateAll(cs, v0, ctx, w0, i)
        invariant Mirrors(g, buyOrderExecutedThisCycle) && events == g.events
        invariant lastFiatBalance == old(lastFiatBalance) && firstRun == old(firstRun)
        invariant interrupted == old(interrupted) && dateOfEmptyFiat == old(dateOfEmptyFiat)
      {
        var event;
        event, buyOrderExecutedThisCycle := GateNext(ctx, i, buyOrderExecutedThisCycle, cs, v0, w0);
        events := events + [event];
        i := i + 1;
        g := GateAll(cs, v0, ctx, w0, i);
      }
    }

    /** One iteration of the purchase stage: asset `i` moves the fold of
        `GateAll` from the first `i` assets to the first `i + 1`. */
    method GateNext(ctx: GateContext, i: nat, executed: bool, ghost cs: seq<AssetConfig>, ghost v0: seq<AssetView>, ghost w0: LocalDate)
        returns (event: AssetEvent, executedAfter: bool)
      requires Distinct() && i < |assets| && cs == Configs() && |v0| == |assets| && w0.Valid()
      requires forall j :: 0 <= j < |assets| ==> assets[j].config.Valid()
      requires Mirrors(GateAll(cs, v0, ctx, w0, i), executed)
      modifies this, assets[i]
      ensures Mirrors(GateAll(cs, v0, ctx, w0, i + 1), executedAfter)
      ensures GateAll(cs, v0, ctx, w0, i + 1).events == GateAll(cs, v0, ctx, w0, i).events + [event]
      ensures lastFiatBalance == old(lastFiatBalance) && firstRun == old(firstRun)
      ensures interrupted == old(interrupted) && dateOfEmptyFiat == old(dateOfEmptyFiat)
    {
      ghost var g0, g1 := GateAll(cs, v0, ctx, w0, i), GateAll(cs, v0, ctx, w0, i + 1);
      GateAllUnfold(cs, v0, ctx, w0, i + 1);
      assert g0.views[i] == v0[i];
      event, executedAfter := GateAsset(ctx, i, executed);
      assert assets[i].View() == g1.views[i];
      assert forall j :: 0 <= j < |assets| && j != i ==> assets[j].View() == old(assets[j].View()) == g1.views[j];
    }

    /** One pass of bot.js:138-278.  A failed balance query counts an
        interruption and, when it is fatal, ends the bot (the outcome
        Aborted); otherwise the pass goes on as PassWithBalance says. */
    method RunCycle(input: CycleInput) returns (outcome: CycleOutcome, events: seq<AssetEvent>)
      requires Valid() && input.now.Valid()
      modifies this, assets
      ensures Valid()
      ensures var r := CycleSpec(Configs(), settings, old(View()), old(Views()), input);
        View() == r.bot && Views() == r.views && outcome == r.outcome && events == r.events
    {
      ghost var cs, b0, v0 := Configs(), View(), Views();
      assert ValidState(cs, b0, v0);
      CycleKeepsValid(cs, settings, b0, v0, input);
      if !input.balance.Balances? || input.balance.fiat.None? {
        var fatal := PrintBalanceQueryFailedError();
        outcome := if fatal then Aborted else Continue;
        events := [];
        assert View() == b0.(interrupted := b0.interrupted + 1);
      } else {
        events := PassWithBalance(input);
        outcome := Continue;
      }
    }

    /** bot.js:180-278: a pass that read a fiat balance refreshes holdings,
        re-estimates the refill and reallocates when new fiat arrived or on
        the first reading, refreshes prices and runs the purchase stage. */
    method PassWithBalance(input: CycleInput) returns (events: seq<AssetEvent>)
      requires Distinct() && input.now.Valid() && input.balance.Balances? && input.balance.fiat.Some?
      requires dateOfEmptyFiat.Valid() && withdrawalDate.Valid()
      requires forall i :: 0 <= i < |assets| ==> assets[i].config.Valid()
      modifies this, assets
      ensures var r := CycleSpec(Configs(), settings, old(View()), old(Views()), input);
        View() == r.bot && Views() == r.views && events == r.events
    {
      ghost var cs, b0, v0 := Configs(), View(), Views();
      var newFiatArrived := ReadBalance(input);
      RefreshPrices(input.prices);
      assert Views() == GateInput(cs, b0, v0, input);
      var ctx := GateContext(newFiatArrived, Instant(input.now), Instant(dateOfEmptyFiat), settings.checkDelay,
                             input.orders, input.postBuy);
      assert ctx == GateContextOf(settings, b0, input);
      events := GateAndBuy(ctx);
    }

    /** bot.js:180-207: refresh holdings from the balance reply; when new
        fiat arrived or on the first reading, re-estimate the refill,
        remember the fiat balance and reallocate the budgets. */
    method ReadBalance(input: CycleInput) returns (newFiatArrived: bool)
      requires Distinct() && input.now.Valid() && input.balance.Balances? && input.balance.fiat.Some?
      modifies this, assets
      ensures newFiatArrived == NewFiatArrived(old(lastFiatBalance), input.balance.fiat.value)
      ensures View() == Refreshed(settings, old(View()), input)
      ensures Views() == Budgeted(Configs(), old(View()), old(Views()), input)
    {
      var fiatAmount := input.balance.fiat.value;
      RefreshHoldings(input.balance.holdings);
      newFiatArrived := lastFiatBalance.None? || fiatAmount > lastFiatBalance.value;
      if newFiatArrived || firstRun {
        StartBudget(fiatAmount, input.now);
      }
    }

    /** bot.js:193-207: new fiat arrived, or this is the first reading: the
        refill is re-estimated, the balance remembered and the fiat split
        among the assets. */
    method StartBudget(fiatAmount: real, now: LocalDate)
      requires Distinct() && now.Valid()
      modifies this, assets
      ensures View() == old(View()).(dateOfEmptyFiat := EstimateNextFiatDeposit(now, settings.refillDay),
                                     lastFiatBalance := Some(fiatAmount), firstRun := false)
      ensures Views() == Cycle.Reallocate(Configs(), old(Views()), fiatAmount)
    {
      EstimateNextFiatDepositDate(firstRun, now);
      lastFiatBalance := Some(fiatAmount);
      firstRun := false;
      ghost var b1 := View();
      assert Views() == old(Views());
      Reallocate(fiatAmount);
      assert View() == b1;
    }
  }
}
