/** One pass of the polling loop of bot.js (`runner`, bot.js:137-285), as a
    function of the bot's state before the pass and of everything the pass
    learns from the outside: the balance reply, the ticker prices, the
    replies to buy orders, the balances read after a purchase, and the clock.
    The classes of the Bot module are proved against these functions. */
module Cycle {
  import opened Wrappers
  import opened Calendar
  import opened Assets
  import opened Allocation
  import opened Pacing
  import opened Refill
  import opened Withdrawal

  /** The loop-wide variables of bot.js:95-105.  `lastFiatBalance` None is
      the start value negative infinity. */
  datatype BotView = BotView(
    lastFiatBalance: Option<real>,
    firstRun: bool,
    interrupted: nat,
    dateOfEmptyFiat: LocalDate,
    withdrawalDate: LocalDate)

  /** bot.js:17-18: the refill day of the month and the polling interval. */
  datatype Settings = Settings(refillDay: Option<int>, checkDelay: int)

  /** The reply to the Balance request: an error list, a reply without a
      usable result object, or the balances (the fiat entry None when it is
      missing or not a number; one raw holding per asset). */
  datatype BalanceReply =
    | ErrorReply
    | NoResult
    | Balances(fiat: Option<real>, holdings: seq<Option<real>>)

  /** What one pass learns from outside, per asset where it is per asset; a
      missing entry reads as no price, a thrown order and no reading. */
  datatype CycleInput = CycleInput(
    balance: BalanceReply,
    prices: seq<Option<real>>,
    orders: seq<OrderReply>,
    postBuy: seq<Option<real>>,
    now: LocalDate)

  /** What happened to one asset in the purchase stage. */
  datatype AssetEvent = AssetEvent(ordered: bool, bought: bool, withdrawal: Option<real>)

  datatype CycleOutcome = Continue | Aborted

  datatype CycleResult = CycleResult(
    bot: BotView,
    views: seq<AssetView>,
    outcome: CycleOutcome,
    events: seq<AssetEvent>)

  /** bot.js:95-105: the state before the first pass, started at `startup`. */
  function InitialBot(startup: LocalDate): BotView
    requires startup.Valid()
  {
    BotView(None, true, 0, startup, FirstOfNextMonth(startup))
  }

  function InitialViews(n: nat, startup: int): (vs: seq<AssetView>)
    ensures |vs| == n && forall i :: 0 <= i < n ==> vs[i] == InitialView(startup)
  {
    seq(n, _ => InitialView(startup))
  }

  function Allocations(cs: seq<AssetConfig>): (a: seq<real>)
    ensures |a| == |cs| && forall i :: 0 <= i < |cs| ==> a[i] == cs[i].allocation
  {
    seq(|cs|, i requires 0 <= i < |cs| => cs[i].allocation)
  }

  function AllocatedOf(vs: seq<AssetView>): (a: seq<real>)
    ensures |a| == |vs| && forall i :: 0 <= i < |vs| ==> a[i] == vs[i].allocatedFiat
  {
    seq(|vs|, i requires 0 <= i < |vs| => vs[i].allocatedFiat)
  }

  function ReadingAt(xs: seq<Option<real>>, i: nat): Option<real> {
    if i < |xs| then xs[i] else None
  }

  function OrderAt(xs: seq<OrderReply>, i: nat): OrderReply {
    if i < |xs| then xs[i] else Threw
  }

  /** bot.js:143-148, 158-162 and 169-174: the pass cannot go on without a fiat balance. */
  predicate BalanceQueryFailed(b: BalanceReply) {
    !b.Balances? || b.fiat.None?
  }

  /** bot.js:191: the fiat balance grew since it was last recorded; anything
      beats the start value negative infinity. */
  predicate NewFiatArrived(last: Option<real>, fiat: real) {
    last.None? || fiat > last.value
  }

  /** bot.js:180-188: an asset with a positive allocation takes its holding
      from the balance reply. */
  function WithHolding(c: AssetConfig, v: AssetView, raw: Option<real>): AssetView {
    if c.allocation > 0.0 then v.(balance := HoldingOrZero(raw)) else v
  }

  /** bot.js:201-206: an asset with a positive allocation gets its share of
      the fiat balance. */
  function Reallocated(c: AssetConfig, v: AssetView, fiat: real): AssetView {
    if c.allocation > 0.0 then v.(allocatedFiat := fiat * (c.allocation / 100.0)) else v
  }

  /** bot.js:210-220: an asset with fiat to spend re-reads its price. */
  function WithPrice(c: AssetConfig, v: AssetView, p: Option<real>): AssetView {
    if c.allocation > 0.0 && v.allocatedFiat > 0.0 then v.(lastPrice := p) else v
  }

  function Holdings(cs: seq<AssetConfig>, vs: seq<AssetView>, raw: seq<Option<real>>): (r: seq<AssetView>)
    requires |cs| == |vs|
    ensures |r| == |vs| && forall i :: 0 <= i < |vs| ==> r[i] == WithHolding(cs[i], vs[i], ReadingAt(raw, i))
  {
    seq(|vs|, i requires 0 <= i < |vs| => WithHolding(cs[i], vs[i], ReadingAt(raw, i)))
  }

  function Reallocate(cs: seq<AssetConfig>, vs: seq<AssetView>, fiat: real): (r: seq<AssetView>)
    requires |cs| == |vs|
    ensures |r| == |vs| && forall i :: 0 <= i < |vs| ==> r[i] == Reallocated(cs[i], vs[i], fiat)
  {
    seq(|vs|, i requires 0 <= i < |vs| => Reallocated(cs[i], vs[i], fiat))
  }

  function Prices(cs: seq<AssetConfig>, vs: seq<AssetView>, ps: seq<Option<real>>): (r: seq<AssetView>)
    requires |cs| == |vs|
    ensures |r| == |vs| && forall i :: 0 <= i < |vs| ==> r[i] == WithPrice(cs[i], vs[i], ReadingAt(ps, i))
  {
    seq(|vs|, i requires 0 <= i < |vs| => WithPrice(cs[i], vs[i], ReadingAt(ps, i)))
  }

  /** The inputs of the purchase stage that are the same for every asset. */
  datatype GateContext = GateContext(
    arrived: bool,
    now: int,
    emptyFiat: int,
    delay: int,
    orders: seq<OrderReply>,
    postBuy: seq<Option<real>>)

  /** The record of an asset just bought: bot.js:425 marks the purchase,
      bot.js:240 schedules the next one and bot.js:242-245 takes the holding
      from a fresh balance reply when it has the asset's entry. */
  function AfterPurchase(c: AssetConfig, v: AssetView, ctx: GateContext, reading: Option<real>): AssetView
    requires c.Valid()
  {
    v.(noSuccessfulBuyYet := false,
       dateOfNextOrder := NextOrderTime(c, v, ctx.now, ctx.emptyFiat, ctx.delay),
       balance := reading.GetOr(v.balance))
  }

  /** bot.js:228-230: the purchase stage leaves an asset alone when it has no
      allocation, no usable price or no fiat to spend. */
  predicate Skipped(c: AssetConfig, v: AssetView) {
    c.allocation == 0.0 || !PriceUsable(v.lastPrice) || v.allocatedFiat <= 0.0
  }

  /** bot.js:237: the order is placed when it is due, or new fiat arrived,
      and the budget pays for it. */
  predicate OrderPlaced(c: AssetConfig, v: AssetView, ctx: GateContext) {
    !Skipped(c, v)
    && (v.dateOfNextOrder <= ctx.now || ctx.arrived)
    && CanAfford(v.allocatedFiat, v.lastPrice.value, c.orderSize)
  }

  datatype StepResult = StepResult(view: AssetView, executed: bool, withdrawalDate: LocalDate, event: AssetEvent)

  /** The purchase stage for asset `i` (bot.js:224-276), given whether a
      purchase was already made in this pass and the withdrawal date. */
  function GateStep(c: AssetConfig, v: AssetView, ctx: GateContext, i: nat, executed: bool, w: LocalDate): (r: StepResult)
    requires c.Valid() && w.Valid()
    ensures r.withdrawalDate.Valid()
    ensures r.view.allocatedFiat == v.allocatedFiat && r.view.lastPrice == v.lastPrice
    ensures r.event.ordered <==> OrderPlaced(c, v, ctx)
    ensures r.event.bought <==> OrderPlaced(c, v, ctx) && BuySucceeded(OrderAt(ctx.orders, i))
    ensures r.event.bought ==> r.view == AfterPurchase(c, v, ctx, ReadingAt(ctx.postBuy, i))
    ensures !r.event.bought ==> r.view == v
    ensures r.executed <==> executed || r.event.bought
    ensures r.event.withdrawal.Some? ==> r.executed && HasWithdrawalKey(c) && r.event.withdrawal.value == r.view.balance
    ensures r.withdrawalDate == w || r.withdrawalDate == FirstOfNextMonth(w)
  {
    if Skipped(c, v) then
      StepResult(v, executed, w, AssetEvent(false, false, None))
    else
      var ordered := OrderPlaced(c, v, ctx);
      var bought := ordered && BuySucceeded(OrderAt(ctx.orders, i));
      var v1 := if bought then AfterPurchase(c, v, ctx, ReadingAt(ctx.postBuy, i)) else v;
      var ex := executed || bought;
      if ex then
        var d := IsWithdrawalDue(c, v1.balance, ctx.now, w);
        StepResult(v1, ex, d.withdrawalDate, AssetEvent(ordered, bought, if d.due then Some(v1.balance) else None))
      else
        StepResult(v1, ex, w, AssetEvent(ordered, bought, None))
  }

  /** The withdrawal half of GateStep in both directions (bot.js:272-275):
      an asset that is not skipped, in a pass where something was bought, is
      withdrawn exactly when Withdrawal.IsWithdrawalDue says so on its holding
      after the purchase, and the withdrawal date becomes the one that test
      leaves; otherwise nothing is withdrawn and the date stays. */
  lemma GateStepWithdrawal(c: AssetConfig, v: AssetView, ctx: GateContext, i: nat, executed: bool, w: LocalDate)
    requires c.Valid() && w.Valid()
    ensures var r := GateStep(c, v, ctx, i, executed, w);
      && (!Skipped(c, v) && r.executed ==>
          && r.event.withdrawal == (if IsWithdrawalDue(c, r.view.balance, ctx.now, w).due then Some(r.view.balance) else None)
          && r.withdrawalDate == IsWithdrawalDue(c, r.view.balance, ctx.now, w).withdrawalDate)
      && (Skipped(c, v) || !r.executed ==> r.event.withdrawal.None? && r.withdrawalDate == w)
  {
  }

  datatype GateState = GateState(views: seq<AssetView>, executed: bool, withdrawalDate: LocalDate, events: seq<AssetEvent>)

  /** The purchase stage over the first `n` assets, in order. */
  function GateAll(cs: seq<AssetConfig>, vs: seq<AssetView>, ctx: GateContext, w: LocalDate, n: nat): (g: GateState)
    requires |cs| == |vs| && n <= |cs| && w.Valid()
    requires forall i :: 0 <= i < |cs| ==> cs[i].Valid()
    ensures |g.views| == |vs| && |g.events| == n && g.withdrawalDate.Valid()
    ensures forall j :: n <= j < |vs| ==> g.views[j] == vs[j]
    ensures forall j :: 0 <= j < |vs| ==> g.views[j].allocatedFiat == vs[j].allocatedFiat && g.views[j].lastPrice == vs[j].lastPrice
    ensures w.day == 1 ==> g.withdrawalDate.day == 1
    decreases n
  {
    if n == 0 then GateState(vs, false, w, [])
    else
      var g := GateAll(cs, vs, ctx, w, n - 1);
      var s := GateStep(cs[n - 1], g.views[n - 1], ctx, n - 1, g.executed, g.withdrawalDate);
      GateState(g.views[n - 1 := s.view], s.executed, s.withdrawalDate, g.events + [s.event])
  }

  /** One more asset in the purchase stage: the earlier assets' records and
      events stay as they were. */
  lemma GateAllUnfold(cs: seq<AssetConfig>, vs: seq<AssetView>, ctx: GateContext, w: LocalDate, n: nat)
    requires |cs| == |vs| && 0 < n <= |cs| && w.Valid()
    requires forall i :: 0 <= i < |cs| ==> cs[i].Valid()
    ensures var g0 := GateAll(cs, vs, ctx, w, n - 1);
      var g := GateAll(cs, vs, ctx, w, n);
      var s := GateStep(cs[n - 1], vs[n - 1], ctx, n - 1, g0.executed, g0.withdrawalDate);
      && g.events == g0.events + [s.event] && g.views == g0.views[n - 1 := s.view]
      && g.executed == s.executed && g.withdrawalDate == s.withdrawalDate
  {
  }

  /** Each asset's part of the purchase stage depends only on its own
      record: the order is placed when `OrderPlaced` holds, the purchase
      succeeds when the reply says so, and the record changes exactly when
      the asset was bought. */
  lemma GateAllPerAsset(cs: seq<AssetConfig>, vs: seq<AssetView>, ctx: GateContext, w: LocalDate, n: nat)
    requires |cs| == |vs| && n <= |cs| && w.Valid()
    requires forall i :: 0 <= i < |cs| ==> cs[i].Valid()
    ensures forall j :: 0 <= j < n ==>
      (GateAll(cs, vs, ctx, w, n).events[j].ordered <==> OrderPlaced(cs[j], vs[j], ctx))
    ensures forall j :: 0 <= j < n ==>
      (GateAll(cs, vs, ctx, w, n).events[j].bought <==> OrderPlaced(cs[j], vs[j], ctx) && BuySucceeded(OrderAt(ctx.orders, j)))
    ensures forall j :: 0 <= j < n ==>
      GateAll(cs, vs, ctx, w, n).views[j]
        == if GateAll(cs, vs, ctx, w, n).events[j].bought then AfterPurchase(cs[j], vs[j], ctx, ReadingAt(ctx.postBuy, j)) else vs[j]
  {
    forall j | 0 <= j < n {
      GateAllAt(cs, vs, ctx, w, n, j);
    }
  }

  /** GateAllPerAsset for one asset `j`, by induction on `n`. */
  lemma {:induction false} GateAllAt(cs: seq<AssetConfig>, vs: seq<AssetView>, ctx: GateContext, w: LocalDate, n: nat, j: nat)
    requires |cs| == |vs| && j < n <= |cs| && w.Valid()
    requires forall i :: 0 <= i < |cs| ==> cs[i].Valid()
    ensures GateAll(cs, vs, ctx, w, n).events[j].ordered <==> OrderPlaced(cs[j], vs[j], ctx)
    ensures GateAll(cs, vs, ctx, w, n).events[j].bought <==> OrderPlaced(cs[j], vs[j], ctx) && BuySucceeded(OrderAt(ctx.orders, j))
    ensures GateAll(cs, vs, ctx, w, n).views[j]
      == if GateAll(cs, vs, ctx, w, n).events[j].bought then AfterPurchase(cs[j], vs[j], ctx, ReadingAt(ctx.postBuy, j)) else vs[j]
  {
    GateAllUnfold(cs, vs, ctx, w, n);
    var g0, g := GateAll(cs, vs, ctx, w, n - 1), GateAll(cs, vs, ctx, w, n);
    if j < n - 1 {
      GateAllAt(cs, vs, ctx, w, n - 1, j);
      assert g.events[j] == g0.events[j] && g.views[j] == g0.views[j];
    } else {
      var st := GateStep(cs[j], vs[j], ctx, j, g0.executed, g0.withdrawalDate);
      assert g.events[j] == st.event && g.views[j] == st.view;
    }
  }

  /** Something was bought in the purchase stage exactly when some asset was
      bought. */
  lemma {:induction false} GateAllExecuted(cs: seq<AssetConfig>, vs: seq<AssetView>, ctx: GateContext, w: LocalDate, n: nat)
    requires |cs| == |vs| && n <= |cs| && w.Valid()
    requires forall i :: 0 <= i < |cs| ==> cs[i].Valid()
    ensures GateAll(cs, vs, ctx, w, n).executed <==> exists j :: 0 <= j < n && GateAll(cs, vs, ctx, w, n).events[j].bought
  {
    if n > 0 {
      GateAllExecuted(cs, vs, ctx, w, n - 1);
      GateAllUnfold(cs, vs, ctx, w, n);
      var g0 := GateAll(cs, vs, ctx, w, n - 1);
      var g := GateAll(cs, vs, ctx, w, n);
      if g0.executed {
        var j :| 0 <= j < n - 1 && g0.events[j].bought;
        assert g.events[j] == g0.events[j];
      }
      if g.executed && !g0.executed {
        assert g.events[n - 1].bought;
      }
    }
  }

  /** A withdrawal happens only for an asset with an address key, of its
      whole holding, after a purchase of this or an earlier asset in the same
      pass. */
  lemma GateAllWithdrawals(cs: seq<AssetConfig>, vs: seq<AssetView>, ctx: GateContext, w: LocalDate, n: nat)
    requires |cs| == |vs| && n <= |cs| && w.Valid()
    requires forall i :: 0 <= i < |cs| ==> cs[i].Valid()
    ensures forall j :: 0 <= j < n && GateAll(cs, vs, ctx, w, n).events[j].withdrawal.Some? ==>
      && HasWithdrawalKey(cs[j])
      && GateAll(cs, vs, ctx, w, n).events[j].withdrawal.value == GateAll(cs, vs, ctx, w, n).views[j].balance
      && exists k :: 0 <= k <= j && GateAll(cs, vs, ctx, w, n).events[k].bought
  {
    forall j | 0 <= j < n {
      WithdrawalAt(cs, vs, ctx, w, n, j);
    }
  }

  /** GateAllWithdrawals for one asset `j`, by induction on `n`. */
  lemma {:induction false} WithdrawalAt(cs: seq<AssetConfig>, vs: seq<AssetView>, ctx: GateContext, w: LocalDate, n: nat, j: nat)
    requires |cs| == |vs| && j < n <= |cs| && w.Valid()
    requires forall i :: 0 <= i < |cs| ==> cs[i].Valid()
    ensures GateAll(cs, vs, ctx, w, n).events[j].withdrawal.Some? ==>
      && HasWithdrawalKey(cs[j])
      && GateAll(cs, vs, ctx, w, n).events[j].withdrawal.value == GateAll(cs, vs, ctx, w, n).views[j].balance
      && exists k :: 0 <= k <= j && GateAll(cs, vs, ctx, w, n).events[k].bought
  {
    GateAllUnfold(cs, vs, ctx, w, n);
    var g0, g := GateAll(cs, vs, ctx, w, n - 1), GateAll(cs, vs, ctx, w, n);
    if j < n - 1 {
      WithdrawalAt(cs, vs, ctx, w, n - 1, j);
      assert g.events[j] == g0.events[j] && g.views[j] == g0.views[j];
      if g.events[j].withdrawal.Some? {
        var k :| 0 <= k <= j && g0.events[k].bought;
        assert g.events[k] == g0.events[k];
      }
    } else {
      WithdrawalLast(cs, vs, ctx, w, n);
    }
  }

  /** WithdrawalAt for the last asset of the first `n`. */
  lemma WithdrawalLast(cs: seq<AssetConfig>, vs: seq<AssetView>, ctx: GateContext, w: LocalDate, n: nat)
    requires |cs| == |vs| && 0 < n <= |cs| && w.Valid()
    requires forall i :: 0 <= i < |cs| ==> cs[i].Valid()
    ensures GateAll(cs, vs, ctx, w, n).events[n - 1].withdrawal.Some? ==>
      && HasWithdrawalKey(cs[n - 1])
      && GateAll(cs, vs, ctx, w, n).events[n - 1].withdrawal.value == GateAll(cs, vs, ctx, w, n).views[n - 1].balance
      && exists k :: 0 <= k < n && GateAll(cs, vs, ctx, w, n).events[k].bought
  {
    GateAllUnfold(cs, vs, ctx, w, n);
    var g0, g := GateAll(cs, vs, ctx, w, n - 1), GateAll(cs, vs, ctx, w, n);
    var st := GateStep(cs[n - 1], vs[n - 1], ctx, n - 1, g0.executed, g0.withdrawalDate);
    assert g0.views[n - 1] == vs[n - 1];
    assert g.events[n - 1] == st.event && g.views[n - 1] == st.view;
    if g.events[n - 1].withdrawal.Some? && !g.events[n - 1].bought {
      GateAllExecuted(cs, vs, ctx, w, n - 1);
      var k :| 0 <= k < n - 1 && g0.events[k].bought;
      assert g.events[k] == g0.events[k];
    }
  }

  /** In threshold mode a bought asset is withdrawn in the same pass exactly
      when its holding after the purchase reaches the threshold
      (bot.js:272 with bot.js:463). */
  lemma {:induction false} ThresholdWithdrawalAt(cs: seq<AssetConfig>, vs: seq<AssetView>, ctx: GateContext, w: LocalDate, n: nat, j: nat)
    requires |cs| == |vs| && j < n <= |cs| && w.Valid()
    requires forall i :: 0 <= i < |cs| ==> cs[i].Valid()
    requires HasWithdrawalKey(cs[j]) && HasWithdrawTarget(cs[j])
    requires GateAll(cs, vs, ctx, w, n).events[j].bought
    ensures var g := GateAll(cs, vs, ctx, w, n);
      g.events[j].withdrawal == if cs[j].withdrawTarget.value <= g.views[j].balance then Some(g.views[j].balance) else None
  {
    GateAllUnfold(cs, vs, ctx, w, n);
    var g0, g := GateAll(cs, vs, ctx, w, n - 1), GateAll(cs, vs, ctx, w, n);
    if j < n - 1 {
      assert g.events[j] == g0.events[j] && g.views[j] == g0.views[j];
      ThresholdWithdrawalAt(cs, vs, ctx, w, n - 1, j);
    } else {
      var st := GateStep(cs[j], vs[j], ctx, j, g0.executed, g0.withdrawalDate);
      assert g.events[j] == st.event && g.views[j] == st.view;
      GateStepWithdrawal(cs[j], vs[j], ctx, j, g0.executed, g0.withdrawalDate);
      ThresholdMode(cs[j], st.view.balance, ctx.now, g0.withdrawalDate);
    }
  }

  /** The asset records after a fiat balance was read: holdings refreshed
      (bot.js:180-188) and budgets reallocated when new fiat arrived or on
      the first reading (bot.js:193-207). */
  function Budgeted(cs: seq<AssetConfig>, b: BotView, vs: seq<AssetView>, input: CycleInput): (r: seq<AssetView>)
    requires |cs| == |vs| && input.balance.Balances? && input.balance.fiat.Some?
    ensures |r| == |vs|
  {
    var fiat := input.balance.fiat.value;
    var held := Holdings(cs, vs, input.balance.holdings);
    if NewFiatArrived(b.lastFiatBalance, fiat) || b.firstRun then Reallocate(cs, held, fiat) else held
  }

  /** The asset records entering the purchase stage of a pass that read a
      fiat balance: the budgeted records with prices re-read (bot.js:210-220). */
  function GateInput(cs: seq<AssetConfig>, b: BotView, vs: seq<AssetView>, input: CycleInput): (r: seq<AssetView>)
    requires |cs| == |vs| && input.balance.Balances? && input.balance.fiat.Some?
    ensures |r| == |vs|
  {
    Prices(cs, Budgeted(cs, b, vs, input), input.prices)
  }

  /** The bot after a fiat balance was read: when new fiat arrived or on the
      first reading, the refill is re-estimated and the balance remembered
      (bot.js:193-200). */
  function Refreshed(settings: Settings, b: BotView, input: CycleInput): BotView
    requires input.now.Valid() && input.balance.Balances? && input.balance.fiat.Some?
  {
    var fiat := input.balance.fiat.value;
    if NewFiatArrived(b.lastFiatBalance, fiat) || b.firstRun then
      b.(dateOfEmptyFiat := EstimateNextFiatDeposit(input.now, settings.refillDay),
         lastFiatBalance := Some(fiat), firstRun := false)
    else b
  }

  /** The inputs of the purchase stage of a pass that read a fiat balance:
      the clock, the refill estimate the pass leaves (bot.js:194, read at 526) and
      whether new fiat arrived (bot.js:191). */
  function GateContextOf(settings: Settings, b: BotView, input: CycleInput): GateContext
    requires input.now.Valid() && b.dateOfEmptyFiat.Valid() && input.balance.Balances? && input.balance.fiat.Some?
  {
    var fiat := input.balance.fiat.value;
    var arrived := NewFiatArrived(b.lastFiatBalance, fiat);
    var empty := if arrived || b.firstRun then EstimateNextFiatDeposit(input.now, settings.refillDay) else b.dateOfEmptyFiat;
    GateContext(arrived, Instant(input.now), Instant(empty), settings.checkDelay, input.orders, input.postBuy)
  }

  /** The pass of bot.js:138-278, with the escalation of bot.js:469-471
      ending the loop as its message says it does. */
  function CycleSpec(cs: seq<AssetConfig>, settings: Settings, b: BotView, vs: seq<AssetView>, input: CycleInput): CycleResult
    requires |cs| == |vs| && b.withdrawalDate.Valid() && b.dateOfEmptyFiat.Valid() && input.now.Valid()
    requires forall i :: 0 <= i < |cs| ==> cs[i].Valid()
  {
    if BalanceQueryFailed(input.balance) then
      var k := b.interrupted + 1;
      CycleResult(b.(interrupted := k), vs, if k >= 3 && b.firstRun then Aborted else Continue, [])
    else
      var b1 := Refreshed(settings, b, input);
      var g := GateAll(cs, GateInput(cs, b, vs, input), GateContextOf(settings, b, input), b.withdrawalDate, |cs|);
      CycleResult(b1.(withdrawalDate := g.withdrawalDate), g.views, Continue, g.events)
  }

  /** What every pass keeps true of the bot's state. */
  predicate ValidState(cs: seq<AssetConfig>, b: BotView, vs: seq<AssetView>) {
    && |cs| == |vs|
    && (forall i :: 0 <= i < |cs| ==> cs[i].Valid())
    && StartupAccepts(Allocations(cs))
    && b.dateOfEmptyFiat.Valid()
    && b.withdrawalDate.Valid() && b.withdrawalDate.day == 1
    && (b.firstRun <==> b.lastFiatBalance.None?)
    && (forall i :: 0 <= i < |cs| && cs[i].allocation <= 0.0 ==> vs[i].allocatedFiat == 0.0)
    && (b.firstRun ==> forall i :: 0 <= i < |vs| ==> vs[i].noSuccessfulBuyYet && vs[i].allocatedFiat == 0.0)
  }
  /** The state the bot starts in is valid once the allocations pass the
      start-up check. */
  lemma InitialStateValid(cs: seq<AssetConfig>, startup: LocalDate)
    requires startup.Valid() && StartupAccepts(Allocations(cs))
    requires forall i :: 0 <= i < |cs| ==> cs[i].Valid()
    ensures ValidState(cs, InitialBot(startup), InitialViews(|cs|, Instant(startup)))
  {
  }


  /** A pass keeps the state valid. */
  lemma CycleKeepsValid(cs: seq<AssetConfig>, settings: Settings, b: BotView, vs: seq<AssetView>, input: CycleInput)
    requires ValidState(cs, b, vs) && input.now.Valid()
    ensures var r := CycleSpec(cs, settings, b, vs, input);
      ValidState(cs, r.bot, r.views)
  {
    var r := CycleSpec(cs, settings, b, vs, input);
    if !BalanceQueryFailed(input.balance) {
      var priced := GateInput(cs, b, vs, input);
      assert forall i :: 0 <= i < |cs| ==> r.views[i].allocatedFiat == priced[i].allocatedFiat;
      var budgets := Budgeted(cs, b, vs, input);
      forall i | 0 <= i < |cs| && cs[i].allocation <= 0.0
        ensures priced[i].allocatedFiat == 0.0
      {
        assert budgets[i].allocatedFiat == vs[i].allocatedFiat;
      }
    }
  }

  /** bot.js:465-472: a failed balance query counts one more interruption and
      changes nothing else; it ends the bot exactly when it is the third
      (or later) failure and no balance was ever read. */
  lemma FailedQueryEscalates(cs: seq<AssetConfig>, settings: Settings, b: BotView, vs: seq<AssetView>, input: CycleInput)
    requires ValidState(cs, b, vs) && input.now.Valid() && BalanceQueryFailed(input.balance)
    ensures var r := CycleSpec(cs, settings, b, vs, input);
      && r.bot == b.(interrupted := b.interrupted + 1) && r.views == vs && r.events == []
      && (r.outcome == Aborted <==> b.interrupted >= 2 && b.firstRun)
  {
  }

  /** Once a balance has been read the bot never stops on its own. */
  lemma NoAbortAfterFirstBalance(cs: seq<AssetConfig>, settings: Settings, b: BotView, vs: seq<AssetView>, input: CycleInput)
    requires ValidState(cs, b, vs) && input.now.Valid() && b.lastFiatBalance.Some?
    ensures CycleSpec(cs, settings, b, vs, input).outcome == Continue
  {
  }

  /** The bot stops only while nothing has been bought and no fiat allocated. */
  lemma AbortOnlyBeforePurchase(cs: seq<AssetConfig>, settings: Settings, b: BotView, vs: seq<AssetView>, input: CycleInput)
    requires ValidState(cs, b, vs) && input.now.Valid()
    requires CycleSpec(cs, settings, b, vs, input).outcome == Aborted
    ensures var r := CycleSpec(cs, settings, b, vs, input);
      forall i :: 0 <= i < |r.views| ==> r.views[i].noSuccessfulBuyYet && r.views[i].allocatedFiat == 0.0
  {
  }

  /** The budgets after a pass that saw new fiat (or was the first to read a
      balance) are the allocation percentages of that fiat balance; with the
      start-up check passed they add up to at most the balance. */
  lemma NewFiatReallocates(cs: seq<AssetConfig>, settings: Settings, b: BotView, vs: seq<AssetView>, input: CycleInput)
    requires ValidState(cs, b, vs) && input.now.Valid() && !BalanceQueryFailed(input.balance)
    requires NewFiatArrived(b.lastFiatBalance, input.balance.fiat.value) || b.firstRun
    ensures var r := CycleSpec(cs, settings, b, vs, input);
      && AllocatedOf(r.views) == Partition(input.balance.fiat.value, Allocations(cs))
      && r.bot.lastFiatBalance == Some(input.balance.fiat.value) && !r.bot.firstRun
      && r.bot.dateOfEmptyFiat == EstimateNextFiatDeposit(input.now, settings.refillDay)
      && (input.balance.fiat.value >= 0.0 ==> 0.0 <= Sum(AllocatedOf(r.views)) <= input.balance.fiat.value)
  {
    var fiat := input.balance.fiat.value;
    var held := Holdings(cs, vs, input.balance.holdings);
    var budgets := Reallocate(cs, held, fiat);
    assert Budgeted(cs, b, vs, input) == budgets;
    PassKeepsBudgets(cs, settings, b, vs, input);
    BudgetsArePartition(cs, vs, held, budgets, fiat);
    if fiat >= 0.0 {
      PartitionWithinFiat(fiat, Allocations(cs));
    }
  }

  /** Re-reading prices and the purchase stage leave every budget as the
      holdings and reallocation step of the pass set it. */
  lemma PassKeepsBudgets(cs: seq<AssetConfig>, settings: Settings, b: BotView, vs: seq<AssetView>, input: CycleInput)
    requires ValidState(cs, b, vs) && input.now.Valid() && !BalanceQueryFailed(input.balance)
    ensures AllocatedOf(CycleSpec(cs, settings, b, vs, input).views) == AllocatedOf(Budgeted(cs, b, vs, input))
  {
    var priced := GateInput(cs, b, vs, input);
    var r := CycleSpec(cs, settings, b, vs, input);
    assert r.views == GateAll(cs, priced, GateContextOf(settings, b, input), b.withdrawalDate, |cs|).views;
  }

  lemma BudgetsArePartition(cs: seq<AssetConfig>, vs: seq<AssetView>, held: seq<AssetView>, budgets: seq<AssetView>, fiat: real)
    requires |cs| == |vs| == |held| == |budgets|
    requires forall i :: 0 <= i < |cs| && cs[i].allocation <= 0.0 ==> vs[i].allocatedFiat == 0.0
    requires forall i :: 0 <= i < |cs| ==> held[i].allocatedFiat == vs[i].allocatedFiat
    requires forall i :: 0 <= i < |cs| ==> budgets[i] == Reallocated(cs[i], held[i], fiat)
    ensures AllocatedOf(budgets) == Partition(fiat, Allocations(cs))
  {
    var p := Partition(fiat, Allocations(cs));
    forall i | 0 <= i < |cs|
      ensures AllocatedOf(budgets)[i] == p[i]
    {
      if cs[i].allocation > 0.0 {
        assert fiat * (cs[i].allocation / 100.0) == fiat * cs[i].allocation / 100.0;
      }
    }
  }

  /** A pass that sees no new fiat keeps the budgets, the recorded fiat
      balance and the refill estimate. */
  lemma NoNewFiatKeepsBudgets(cs: seq<AssetConfig>, settings: Settings, b: BotView, vs: seq<AssetView>, input: CycleInput)
    requires ValidState(cs, b, vs) && input.now.Valid() && !BalanceQueryFailed(input.balance)
    requires !NewFiatArrived(b.lastFiatBalance, input.balance.fiat.value)
    ensures var r := CycleSpec(cs, settings, b, vs, input);
      && AllocatedOf(r.views) == AllocatedOf(vs)
      && r.bot.lastFiatBalance == b.lastFiatBalance
      && r.bot.dateOfEmptyFiat == b.dateOfEmptyFiat
  {
    PassKeepsBudgets(cs, settings, b, vs, input);
    var held := Holdings(cs, vs, input.balance.holdings);
    assert Budgeted(cs, b, vs, input) == held;
    assert AllocatedOf(held) == AllocatedOf(vs);
  }

  /** The recorded fiat balance only ever grows: it is replaced only by a
      larger balance. */
  lemma LastFiatNeverDecreases(cs: seq<AssetConfig>, settings: Settings, b: BotView, vs: seq<AssetView>, input: CycleInput)
    requires ValidState(cs, b, vs) && input.now.Valid() && b.lastFiatBalance.Some?
    ensures var r := CycleSpec(cs, settings, b, vs, input);
      r.bot.lastFiatBalance.Some? && r.bot.lastFiatBalance.value >= b.lastFiatBalance.value
  {
  }

  /** An order is placed only for an asset with a positive allocation, a
      positive price and a budget that pays for the minimum order size, and
      only when its order is due or new fiat arrived. */
  lemma OrdersStayWithinBudget(cs: seq<AssetConfig>, settings: Settings, b: BotView, vs: seq<AssetView>, input: CycleInput, j: nat)
    requires ValidState(cs, b, vs) && input.now.Valid()
    requires j < |CycleSpec(cs, settings, b, vs, input).events|
    requires CycleSpec(cs, settings, b, vs, input).events[j].ordered
    ensures var r := CycleSpec(cs, settings, b, vs, input);
      && cs[j].allocation > 0.0
      && PriceUsable(r.views[j].lastPrice)
      && r.views[j].allocatedFiat > 0.0
      && CanAfford(r.views[j].allocatedFiat, r.views[j].lastPrice.value, cs[j].orderSize)
      && (vs[j].dateOfNextOrder <= Instant(input.now) || NewFiatArrived(b.lastFiatBalance, input.balance.fiat.value))
  {
    var r := CycleSpec(cs, settings, b, vs, input);
    var priced := GateInput(cs, b, vs, input);
    var ctx := GateContextOf(settings, b, input);
    GateAllPerAsset(cs, priced, ctx, b.withdrawalDate, |cs|);
    assert OrderPlaced(cs[j], priced[j], ctx);
    CycleKeepsValid(cs, settings, b, vs, input);
    assert priced[j].dateOfNextOrder == vs[j].dateOfNextOrder;
  }

  /** A purchase marks the asset as bought and, for a positive polling
      interval, pushes its next order into the future; an asset not bought
      in a pass keeps its schedule and its mark. */
  lemma PurchaseReschedules(cs: seq<AssetConfig>, settings: Settings, b: BotView, vs: seq<AssetView>, input: CycleInput, j: nat)
    requires ValidState(cs, b, vs) && input.now.Valid() && !BalanceQueryFailed(input.balance)
    requires j < |cs|
    ensures var r := CycleSpec(cs, settings, b, vs, input);
      && (r.events[j].bought ==> !r.views[j].noSuccessfulBuyYet)
      && (r.events[j].bought && settings.checkDelay > 0 ==> r.views[j].dateOfNextOrder > Instant(input.now))
      && (!r.events[j].bought ==> r.views[j].dateOfNextOrder == vs[j].dateOfNextOrder
                                  && r.views[j].noSuccessfulBuyYet == vs[j].noSuccessfulBuyYet)
  {
    var r := CycleSpec(cs, settings, b, vs, input);
    var priced := GateInput(cs, b, vs, input);
    var ctx := GateContextOf(settings, b, input);
    GateAllPerAsset(cs, priced, ctx, b.withdrawalDate, |cs|);
    assert priced[j].dateOfNextOrder == vs[j].dateOfNextOrder;
    assert priced[j].noSuccessfulBuyYet == vs[j].noSuccessfulBuyYet;
    if r.events[j].bought && settings.checkDelay > 0 {
      NextOrderInFuture(cs[j], priced[j], ctx.now, ctx.emptyFiat, ctx.delay);
    }
  }

  /** A withdrawal in a pass is of the whole holding of an asset with an
      address key, and only after some asset was bought in that pass. */
  lemma WithdrawalOnlyAfterPurchase(cs: seq<AssetConfig>, settings: Settings, b: BotView, vs: seq<AssetView>, input: CycleInput, j: nat)
    requires ValidState(cs, b, vs) && input.now.Valid()
    requires j < |CycleSpec(cs, settings, b, vs, input).events|
    requires CycleSpec(cs, settings, b, vs, input).events[j].withdrawal.Some?
    ensures var r := CycleSpec(cs, settings, b, vs, input);
      && HasWithdrawalKey(cs[j])
      && r.events[j].withdrawal.value == r.views[j].balance
      && exists k :: 0 <= k <= j && r.events[k].bought
  {
    var priced := GateInput(cs, b, vs, input);
    GateAllWithdrawals(cs, priced, GateContextOf(settings, b, input), b.withdrawalDate, |cs|);
  }

  /** The converse for threshold mode: an asset with an address key and a
      threshold that is bought in a pass is withdrawn in that pass exactly
      when its holding after the purchase reaches the threshold, so a holding
      of 0.49 against a threshold of 0.5 stays and one of 0.5 goes. */
  lemma ThresholdWithdrawalInPass(cs: seq<AssetConfig>, settings: Settings, b: BotView, vs: seq<AssetView>, input: CycleInput, j: nat)
    requires ValidState(cs, b, vs) && input.now.Valid() && !BalanceQueryFailed(input.balance)
    requires j < |cs| && HasWithdrawalKey(cs[j]) && HasWithdrawTarget(cs[j])
    requires CycleSpec(cs, settings, b, vs, input).events[j].bought
    ensures var r := CycleSpec(cs, settings, b, vs, input);
      r.events[j].withdrawal == if cs[j].withdrawTarget.value <= r.views[j].balance then Some(r.views[j].balance) else None
  {
    ThresholdWithdrawalAt(cs, GateInput(cs, b, vs, input), GateContextOf(settings, b, input), b.withdrawalDate, |cs|, j);
  }

  /** bot.js:469: from start-up, three failed balance queries in a row end
      the bot on the third. */
  lemma ThreeFailuresFromStartAbort(cs: seq<AssetConfig>, settings: Settings, startup: LocalDate, i1: CycleInput, i2: CycleInput, i3: CycleInput)
    requires startup.Valid() && i1.now.Valid() && i2.now.Valid() && i3.now.Valid()
    requires forall i :: 0 <= i < |cs| ==> cs[i].Valid()
    requires BalanceQueryFailed(i1.balance) && BalanceQueryFailed(i2.balance) && BalanceQueryFailed(i3.balance)
    ensures var r1 := CycleSpec(cs, settings, InitialBot(startup), InitialViews(|cs|, Instant(startup)), i1);
      var r2 := CycleSpec(cs, settings, r1.bot, r1.views, i2);
      var r3 := CycleSpec(cs, settings, r2.bot, r2.views, i3);
      r1.outcome == Continue && r2.outcome == Continue && r3.outcome == Aborted && r3.bot.interrupted == 3
  {
  }
}
