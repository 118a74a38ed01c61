/** The pacing scheduler of bot.js (`evaluateMillisUntilNextOrder`,
    bot.js:515-541): when the next purchase of an asset is due.  Times are
    milliseconds since 1970-01-01; `new Date(x)` truncates a fractional `x`,
    which for the non-negative instants here is the integer division used
    below. */
module Pacing {
  import opened Wrappers
  import opened Assets

  /** bot.js:522, 535: seven days. */
  const WeekMillis: int := 7 * 24 * 60 * 60 * 1000

  /** bot.js:518-519: whole minimum-size orders the allocated fiat pays for. */
  function PossibleOrders(allocatedFiat: real, price: real, orderSize: real): int
    requires price != 0.0 && orderSize != 0.0
  {
    ((allocatedFiat / price) / orderSize).Floor
  }

  /** The next purchase time of an asset whose configuration is `c` and whose
      record is `v`, evaluated at `now` with the refill estimated at
      `emptyFiat` and a polling interval of `delay` (bot.js:515-541). */
  function NextOrderTime(c: AssetConfig, v: AssetView, now: int, emptyFiat: int, delay: int): int
    requires c.Valid()
  {
    if PriceUsable(v.lastPrice) && v.allocatedFiat > 0.0 then
      var orders := PossibleOrders(v.allocatedFiat, v.lastPrice.value, c.orderSize);
      if orders < 1 then now + WeekMillis
      else
        var window := emptyFiat - now;
        if window <= delay then now + delay
        else now + Max(delay, window / orders)
    else if v.allocatedFiat <= 0.0 && c.allocation > 0.0 then now + WeekMillis
    else if c.allocation > 0.0 then now + 5 * delay
    else v.dateOfNextOrder
  }

  function Max(a: int, b: int): int {
    if a < b then b else a
  }

  /** The orders counted are affordable, and one more is not. */
  lemma PossibleOrdersAffordable(allocatedFiat: real, price: real, orderSize: real)
    requires price > 0.0 && orderSize > 0.0
    ensures PossibleOrders(allocatedFiat, price, orderSize) as real * (price * orderSize) <= allocatedFiat
    ensures allocatedFiat < (PossibleOrders(allocatedFiat, price, orderSize) + 1) as real * (price * orderSize)
  {
    var x := (allocatedFiat / price) / orderSize;
    var n := x.Floor;
    var unit := price * orderSize;
    assert x * unit == allocatedFiat;
    assert n as real <= x < (n + 1) as real;
    assert allocatedFiat < (n + 1) as real * unit by {
      assert ((n + 1) as real - x) * unit > 0.0;
      assert (n + 1) as real * unit - x * unit > 0.0;
    }
    MultiplyMonotone(n as real, x, unit);
  }

  lemma MultiplyMonotone(a: real, b: real, k: real)
    requires a <= b && k >= 0.0
    ensures a * k <= b * k
  {
    assert (b - a) * k >= 0.0;
  }

  /** Fallbacks (bot.js:521-522, 534-539): no affordable order waits a week,
      no allocated fiat waits a week, no usable price retries after five
      polling intervals, and an asset without allocation keeps its time. */
  lemma PacingFallbacks(c: AssetConfig, v: AssetView, now: int, emptyFiat: int, delay: int)
    requires c.Valid()
    ensures PriceUsable(v.lastPrice) && v.allocatedFiat > 0.0
            && PossibleOrders(v.allocatedFiat, v.lastPrice.value, c.orderSize) < 1
            ==> NextOrderTime(c, v, now, emptyFiat, delay) == now + WeekMillis
    ensures v.allocatedFiat <= 0.0 && c.allocation > 0.0
            ==> NextOrderTime(c, v, now, emptyFiat, delay) == now + WeekMillis
    ensures !PriceUsable(v.lastPrice) && v.allocatedFiat > 0.0 && c.allocation > 0.0
            ==> NextOrderTime(c, v, now, emptyFiat, delay) == now + 5 * delay
    ensures c.allocation <= 0.0 && !(PriceUsable(v.lastPrice) && v.allocatedFiat > 0.0)
            ==> NextOrderTime(c, v, now, emptyFiat, delay) == v.dateOfNextOrder
  {
  }

  /** The even-spreading rule (bot.js:524-532): with at least one affordable
      order the next purchase is at least one polling interval away; when the
      refill is further off than that, the remaining orders spaced this way
      all fit before the refill, and the next purchase is no later than the
      refill or one polling interval, whichever is later. */
  lemma EvenSpreading(c: AssetConfig, v: AssetView, now: int, emptyFiat: int, delay: int)
    requires c.Valid() && PriceUsable(v.lastPrice) && v.allocatedFiat > 0.0
    requires PossibleOrders(v.allocatedFiat, v.lastPrice.value, c.orderSize) >= 1
    ensures var next := NextOrderTime(c, v, now, emptyFiat, delay);
            var orders := PossibleOrders(v.allocatedFiat, v.lastPrice.value, c.orderSize);
            && next >= now + delay
            && (emptyFiat - now <= delay ==> next == now + delay)
            && (emptyFiat - now > delay ==> next == now + Max(delay, (emptyFiat - now) / orders))
            && (emptyFiat - now > delay && (emptyFiat - now) / orders >= delay ==> orders * (next - now) <= emptyFiat - now)
            && (delay >= 0 ==> next <= Max(now + delay, emptyFiat))
  {
    var orders := PossibleOrders(v.allocatedFiat, v.lastPrice.value, c.orderSize);
    var window := emptyFiat - now;
    var next := NextOrderTime(c, v, now, emptyFiat, delay);
    if window > delay {
      assert next == now + Max(delay, window / orders);
      SpreadArithmetic(window, orders, delay);
    } else {
      assert next == now + delay;
    }
  }

  /** The spacing `max(delay, window / orders)` of bot.js:530. */
  lemma SpreadArithmetic(window: int, orders: int, delay: int)
    requires orders >= 1 && window > delay
    ensures Max(delay, window / orders) >= delay
    ensures window / orders >= delay ==> orders * Max(delay, window / orders) <= window
    ensures window >= 0 ==> Max(delay, window / orders) <= Max(delay, window)
  {
    DivisionBelow(window, orders);
  }

  lemma DivisionBelow(w: int, n: int)
    requires n >= 1
    ensures n * (w / n) <= w
    ensures w >= 0 ==> 0 <= w / n <= w
    ensures w < 0 ==> w <= w / n
  {
    var q := w / n;
    assert w == n * q + w % n && 0 <= w % n < n;
    if w >= 0 {
      assert q >= 0;
      MultiplyLeq(n - 1, 0, q);
      assert (n - 1) * q == n * q - q;
    } else if q < w {
      MultiplyLeq(n, q, w - 1);
      MultiplyLeq(n - 1, w, 0);
      assert false;
    }
  }

  lemma MultiplyLeq(n: int, a: int, b: int)
    requires n >= 0 && a <= b
    ensures n * a <= n * b
  {
    assert n * b - n * a == n * (b - a);
  }

  /** Once a purchase has been made the next one is strictly in the future,
      whenever the polling interval is positive. */
  lemma NextOrderInFuture(c: AssetConfig, v: AssetView, now: int, emptyFiat: int, delay: int)
    requires c.Valid() && PriceUsable(v.lastPrice) && v.allocatedFiat > 0.0 && delay > 0
    ensures NextOrderTime(c, v, now, emptyFiat, delay) > now
  {
    if PossibleOrders(v.allocatedFiat, v.lastPrice.value, c.orderSize) >= 1 {
      EvenSpreading(c, v, now, emptyFiat, delay);
    }
  }

  /** Re-evaluating straight away gives the same time again: the result
      depends on the record only through fields the evaluation does not
      change. */
  lemma PacingIdempotent(c: AssetConfig, v: AssetView, now: int, emptyFiat: int, delay: int)
    requires c.Valid()
    ensures var v1 := v.(dateOfNextOrder := NextOrderTime(c, v, now, emptyFiat, delay));
            NextOrderTime(c, v1, now, emptyFiat, delay) == NextOrderTime(c, v, now, emptyFiat, delay)
  {
  }

  /** The worked example: 300 of fiat at a price of 100 with orders of size 1
      gives three orders, so with the refill ten days away and a one-hour
      polling interval the next purchase is a third of ten days away. */
  lemma PacingExample(now: int)
    ensures PossibleOrders(300.0, 100.0, 1.0) == 3
    ensures NextOrderTime(AssetConfig(50.0, 1.0, None, None), AssetView(300.0, Some(100.0), 0.0, 0, false),
                          now, now + 10 * 24 * 60 * 60 * 1000, 60 * 60 * 1000)
            == now + 288_000_000
  {
    assert (300.0 / 100.0) / 1.0 == 3.0;
  }
}
