/** The earlier single-asset scheduler of app.js: the refill day and the
    currency prefixes it is configured with (app.js:23-43), the ticker pair it
    reads the price under (app.js:189-196), and, per pass of its loop, the
    next fiat drop date with its forward weekend shift (app.js:206-220) and
    the wait until the next order (app.js:222-235). */
module App {
  import opened Wrappers
  import opened Calendar

  /** app.js:23: the refill day when none is configured. */
  const DefaultRefillDay: int := 26

  /** app.js:25: the smallest order Kraken takes, in BTC. */
  const MinOrderSize: real := 0.0001

  /** app.js:228: the wait when there is too little fiat for two orders,
      one hour in milliseconds. */
  const DefaultWait: real := 3_600_000.0

  /** app.js:23: `Number(DATE_OF_CASH_REFILL) || 26`.  None stands for an
      unset or non-numeric setting; zero is falsy and falls back as well. */
  function RefillDayOrDefault(configured: Option<int>): (day: int)
    ensures day != 0
    ensures configured.Some? && configured.value != 0 ==> day == configured.value
    ensures configured.None? || configured.value == 0 ==> day == DefaultRefillDay
  {
    if configured.Some? && configured.value != 0 then configured.value else DefaultRefillDay
  }

  datatype Prefixes = Prefixes(crypto: string, fiat: string)

  /** app.js:38-43: Kraken's legacy `X`/`Z` prefixes, for USD and EUR only. */
  function PrefixesFor(currency: string): (p: Prefixes)
    ensures currency == "USD" || currency == "EUR" ==> p == Prefixes("X", "Z")
    ensures currency != "USD" && currency != "EUR" ==> p == Prefixes("", "")
  {
    if currency == "USD" || currency == "EUR" then Prefixes("X", "Z") else Prefixes("", "")
  }

  /** app.js:191-194: the pair the price is queried and looked up under. */
  function TickerPair(currency: string): (pair: string)
    ensures currency == "USD" || currency == "EUR" ==> pair == "XXBTZ" + currency
    ensures currency != "USD" && currency != "EUR" ==> pair == "XBT" + currency
  {
    var p := PrefixesFor(currency);
    p.crypto + "XBT" + p.fiat + currency
  }

  /** app.js:223: the key of the fiat balance. */
  function FiatKey(currency: string): (key: string)
    ensures currency == "USD" || currency == "EUR" ==> key == "Z" + currency
    ensures currency != "USD" && currency != "EUR" ==> key == currency
  {
    PrefixesFor(currency).fiat + currency
  }

  /** Different currencies are looked up under different ticker pairs. */
  lemma TickerPairInjective(c1: string, c2: string)
    requires TickerPair(c1) == TickerPair(c2)
    ensures c1 == c2
  {
    var p1, p2 := TickerPair(c1), TickerPair(c2);
    var legacy1, legacy2 := c1 == "USD" || c1 == "EUR", c2 == "USD" || c2 == "EUR";
    assert p1[1] == (if legacy1 then 'X' else 'B');
    assert p2[1] == (if legacy2 then 'X' else 'B');
    if legacy1 {
      assert c1 == p1[5..] && c2 == p2[5..];
    } else {
      assert c1 == p1[3..] && c2 == p2[3..];
    }
  }

  /** app.js:207-214: the drop date before the weekend shift.  Midnight of
      the refill day of this month (a day the month lacks overflows into the
      next); when that has passed, midnight of the day after the refill day
      in the next month. */
  function DropTarget(now: LocalDate, day: int): (t: LocalDate)
    requires now.Valid() && 1 <= day <= 31
    ensures t.Valid() && t.millisOfDay == 0
    ensures Instant(now) <= Instant(t)
    ensures DayNumber(t) <= DayNumber(now) + 32
    ensures Instant(SetDay(now.year, now.month, day, 0)) >= Instant(now) ==> t == SetDay(now.year, now.month, day, 0)
    ensures Instant(SetDay(now.year, now.month, day, 0)) < Instant(now) ==>
      DayNumber(t) == MonthStart(NextMonthYear(now.year, now.month), NextMonthIndex(now.month)) + day
  {
    var first := SetDay(now.year, now.month, day, 0);
    if Instant(first) >= Instant(now) then
      WithinMonth(now);
      MonthStartNext(now.year, now.month);
      first
    else
      RolloverTarget(now, day);
      SetDate(AddMonth(SetDate(first, 1)), day + 1)
  }

  /** The rollover of app.js:211-213 on a refill day that has passed lands on
      the day after the refill day in the next month, strictly after `now`
      and at most 32 days after it. */
  lemma RolloverTarget(now: LocalDate, day: int)
    requires now.Valid() && 1 <= day <= 31
    requires Instant(SetDay(now.year, now.month, day, 0)) < Instant(now)
    ensures var t := SetDate(AddMonth(SetDate(SetDay(now.year, now.month, day, 0), 1)), day + 1);
      && DayNumber(t) == MonthStart(NextMonthYear(now.year, now.month), NextMonthIndex(now.month)) + day
      && Instant(now) < Instant(t) && DayNumber(t) <= DayNumber(now) + 32
  {
    var y, m := now.year, now.month;
    var first := SetDay(y, m, day, 0);
    WithinMonth(now);
    MonthStartNext(y, m);
    var ms := MonthStart(y, m);
    var next := MonthStart(NextMonthYear(y, m), NextMonthIndex(m));
    assert DayNumber(first) == ms + day - 1;
    InstantOrder(first, now);
    assert day <= MonthLength(y, m);
    assert first == LocalDate(y, m, day, 0);
    var start := SetDate(first, 1);
    assert start == LocalDate(y, m, 1, 0);
    var moved := AddMonth(start);
    assert DayNumber(moved) == next;
    var t := SetDate(moved, day + 1);
    assert DayNumber(t) == next + day;
    InstantOrder(now, t);
  }

  /** app.js:216-220: a Saturday moves forward two days and a Sunday one,
      onto the Monday after. */
  function ForwardShiftWeekend(t: LocalDate): (r: LocalDate)
    requires t.Valid()
    ensures r.Valid() && !IsWeekend(r) && r.millisOfDay == t.millisOfDay
    ensures IsWeekend(t) ==> WeekDay(r) == 1 && DayNumber(t) < DayNumber(r) <= DayNumber(t) + 2
    ensures !IsWeekend(t) ==> r == t
  {
    if IsWeekend(t) then
      var n := DayNumber(t);
      MondayAfter(n);
      var t1 := SetDate(t, t.day + 1);
      assert DayNumber(t1) == n + 1 && WeekDay(t1) == WeekDayOf(n + 1);
      if IsWeekend(t1) then
        var t2 := SetDate(t1, t1.day + 1);
        assert DayNumber(t2) == n + 2 && WeekDay(t2) == WeekDayOf(n + 2);
        t2
      else t1
    else
      t
  }

  /** Stepping forward day by day from a Saturday or a Sunday, the first day
      that is not a weekend is the Monday. */
  lemma MondayAfter(n: int)
    requires WeekDayOf(n) % 6 == 0
    ensures WeekDayOf(n) == 6 || WeekDayOf(n) == 0
    ensures WeekDayOf(n) == 6 ==> WeekDayOf(n + 1) == 0 && WeekDayOf(n + 2) == 1
    ensures WeekDayOf(n) == 0 ==> WeekDayOf(n + 1) == 1
  {
    ModSevenShift(n + 4, 1);
    ModSevenShift(n + 4, 2);
  }

  /** app.js:206-220: the next fiat drop date. */
  function DropDate(now: LocalDate, day: int): (d: LocalDate)
    requires now.Valid() && 1 <= day <= 31
    ensures d.Valid() && !IsWeekend(d) && d.millisOfDay == 0
    ensures Instant(now) <= Instant(d) && DayNumber(d) <= DayNumber(now) + 34
  {
    ForwardShiftWeekend(DropTarget(now, day))
  }

  /** app.js:206-220, step by step as the loop mutates `nextFiatDropDate`. */
  method NextFiatDropDate(now: LocalDate, day: int) returns (d: LocalDate)
    requires now.Valid() && 1 <= day <= 31
    ensures d == DropDate(now, day)
  {
    d := SetDay(now.year, now.month, day, 0);
    if Instant(d) < Instant(now) {
      d := SetDate(d, 1);
      d := AddMonth(d);
      d := SetDate(d, day + 1);
    }
    assert d == DropTarget(now, day);
    d := SkipWeekend(d);
  }

  /** app.js:216-220: the two weekend checks, each moving the date one day
      on. */
  method SkipWeekend(t: LocalDate) returns (d: LocalDate)
    requires t.Valid()
    ensures d == ForwardShiftWeekend(t)
  {
    d := t;
    var saturdayOrSunday := IsWeekend(d);
    if saturdayOrSunday {
      d := SetDate(d, d.day + 1);
    }
    if IsWeekend(d) {
      assert saturdayOrSunday;
      d := SetDate(d, d.day + 1);
    }
  }

  /** app.js:225-227: how many minimum-size orders the fiat balance pays for,
      not rounded.  The price is positive here. */
  function ApproxOrderCount(fiat: real, price: real): real
    requires price > 0.0
  {
    fiat / price / MinOrderSize
  }

  /** app.js:222-235: the wait before the next pass, in milliseconds.  A
      missing fiat balance makes the count NaN; a price of zero makes it
      infinite for a positive balance (a wait of zero) and NaN or negative
      otherwise; a count below two waits the default hour. */
  function WaitMillis(millisUntilDrop: int, fiat: Option<real>, price: real): (wait: real)
    requires millisUntilDrop >= 0
    ensures wait >= 0.0
    ensures fiat.None? ==> wait == DefaultWait
    ensures price > 0.0 && fiat.Some? && ApproxOrderCount(fiat.value, price) >= 2.0 ==>
      wait == millisUntilDrop as real / ApproxOrderCount(fiat.value, price)
    ensures price > 0.0 && fiat.Some? && ApproxOrderCount(fiat.value, price) < 2.0 ==> wait == DefaultWait
    ensures price == 0.0 && fiat.Some? ==> wait == (if fiat.value > 0.0 then 0.0 else DefaultWait)
  {
    if fiat.None? then DefaultWait
    else if price == 0.0 then
      if fiat.value > 0.0 then 0.0 else DefaultWait
    else if price < 0.0 then
      var count := fiat.value / price / MinOrderSize;
      if count >= 2.0 then millisUntilDrop as real / count else DefaultWait
    else
      var count := ApproxOrderCount(fiat.value, price);
      if count >= 2.0 then millisUntilDrop as real / count else DefaultWait
  }

  /** With enough fiat for two orders, one wait per order spans exactly the
      time until the drop. */
  lemma WaitSpreadsOrders(millisUntilDrop: int, fiat: real, price: real)
    requires millisUntilDrop >= 0 && price > 0.0 && ApproxOrderCount(fiat, price) >= 2.0
    ensures WaitMillis(millisUntilDrop, Some(fiat), price) * ApproxOrderCount(fiat, price) == millisUntilDrop as real
  {
    Quotient(millisUntilDrop as real, ApproxOrderCount(fiat, price));
  }

  lemma Quotient(a: real, b: real)
    requires b != 0.0
    ensures a / b * b == a
  {
  }

  /** With enough fiat for two orders the wait is at most half the time
      until the drop, so that at least two orders fit before it. */
  lemma WaitAtMostHalf(millisUntilDrop: int, fiat: real, price: real)
    requires millisUntilDrop >= 0 && price > 0.0 && ApproxOrderCount(fiat, price) >= 2.0
    ensures WaitMillis(millisUntilDrop, Some(fiat), price) <= millisUntilDrop as real / 2.0
  {
    DivisorAntitone(millisUntilDrop as real, 2.0, ApproxOrderCount(fiat, price));
  }

  /** More fiat at the same price never waits longer, as long as both
      balances pay for two orders. */
  lemma MoreFiatWaitsLess(millisUntilDrop: int, fiat1: real, fiat2: real, price: real)
    requires millisUntilDrop >= 0 && price > 0.0 && fiat1 <= fiat2
    requires ApproxOrderCount(fiat1, price) >= 2.0
    ensures WaitMillis(millisUntilDrop, Some(fiat2), price) <= WaitMillis(millisUntilDrop, Some(fiat1), price)
  {
    CountMonotone(fiat1, fiat2, price);
    DivisorAntitone(millisUntilDrop as real, ApproxOrderCount(fiat1, price), ApproxOrderCount(fiat2, price));
  }

  lemma DivisorAntitone(a: real, b: real, c: real)
    requires a >= 0.0 && 0.0 < b <= c
    ensures a / c <= a / b
  {
    Quotient(a, b);
    Quotient(a, c);
    assert a / c * b <= a / c * c;
    assert a / c * b <= a / b * b;
  }

  lemma CountMonotone(fiat1: real, fiat2: real, price: real)
    requires price > 0.0 && fiat1 <= fiat2
    ensures ApproxOrderCount(fiat1, price) <= ApproxOrderCount(fiat2, price)
  {
    assert fiat1 / price <= fiat2 / price;
  }

  datatype Pass = Pass(dropDate: LocalDate, wait: real)

  /** app.js:222: the milliseconds from `now` until the drop date. */
  function MillisUntil(now: LocalDate, drop: LocalDate): int
    requires now.Valid() && drop.Valid()
  {
    Instant(drop) - Instant(now)
  }

  /** One pass of the loop of app.js:188-250 with the configured refill day,
      defaulted as at app.js:23, and the replies it reads: the ticker result,
      as the list of volume-weighted average prices (Kraken's field `p`)
      under each pair (app.js:189-194), and the balance result, None when the
      reply carries none (app.js:199-202).  A missing price ends the loop
      with the error of app.js:196; a missing balance result fails on the
      lookup of app.js:223. */
  function Iteration(now: LocalDate, refillDay: Option<int>, currency: string, tickers: map<string, seq<real>>,
                     balance: Option<map<string, real>>): (r: Result<Pass>)
    requires now.Valid() && 1 <= RefillDayOrDefault(refillDay) <= 31
    ensures r.Err? <==> TickerPair(currency) !in tickers || tickers[TickerPair(currency)] == [] || balance.None?
    ensures TickerPair(currency) !in tickers || tickers[TickerPair(currency)] == [] ==>
      r == Err("Probably invalid currency symbol!")
    ensures r.Ok? ==> r.value.dropDate == DropDate(now, RefillDayOrDefault(refillDay)) && r.value.wait >= 0.0
    ensures r.Ok? && FiatKey(currency) !in balance.value ==> r.value.wait == DefaultWait
    ensures r.Ok? && FiatKey(currency) in balance.value ==>
      r.value.wait == WaitMillis(MillisUntil(now, r.value.dropDate), Some(balance.value[FiatKey(currency)]),
                                 tickers[TickerPair(currency)][0])
  {
    var pair := TickerPair(currency);
    if pair !in tickers || tickers[pair] == [] then
      Err("Probably invalid currency symbol!")
    else if balance.None? then
      Err("balance result missing")
    else
      var price := tickers[pair][0];
      var drop := DropDate(now, RefillDayOrDefault(refillDay));
      var key := FiatKey(currency);
      var fiat := if key in balance.value then Some(balance.value[key]) else None;
      Ok(Pass(drop, WaitMillis(MillisUntil(now, drop), fiat, price)))
  }
}
