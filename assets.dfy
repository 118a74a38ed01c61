/** The per-asset records of bot.js (bot.js:46-91) as values, and the small
    predicates the purchase gate is made of. */
module Assets {
  import opened Wrappers

  /** Settings of one asset, fixed at start-up.  `withdrawalKey` None or "" and
      `withdrawTarget` None or 0 are the `false` the configuration uses for
      "not set" (bot.js:28-34). */
  datatype AssetConfig = AssetConfig(
    allocation: real,
    orderSize: real,
    withdrawalKey: Option<string>,
    withdrawTarget: Option<real>)
  {
    /** `Number(x) || default` never yields a zero order size (bot.js:24-26). */
    predicate Valid() {
      orderSize != 0.0
    }
  }

  /** The fields of one asset record that the scheduler changes.  `lastPrice`
      None is a missing or unparsable price (null or NaN); the start value
      negative infinity behaves as a non-positive price everywhere and is
      modelled as None too. */
  datatype AssetView = AssetView(
    allocatedFiat: real,
    lastPrice: Option<real>,
    balance: real,
    dateOfNextOrder: int,
    noSuccessfulBuyYet: bool)

  /** bot.js:54-58: a freshly configured asset. */
  function InitialView(startup: int): AssetView {
    AssetView(0.0, None, 0.0, startup, true)
  }

  /** bot.js:229: `!asset.lastPrice || asset.lastPrice <= 0` fails. */
  predicate PriceUsable(p: Option<real>) {
    p.Some? && p.value > 0.0
  }

  /** bot.js:236: the allocation pays for one order of `orderSize` at `price`. */
  predicate CanAfford(allocatedFiat: real, price: real, orderSize: real) {
    allocatedFiat >= price * orderSize
  }

  /** The reply to an AddOrder request: an exception, or a reply with a
      (possibly empty) error list and possibly a list of transaction ids. */
  datatype OrderReply =
    | Threw
    | Replied(errors: seq<string>, txids: Option<seq<string>>)

  /** bot.js:417-437: a buy counts as done only when the reply carries no error
      and at least one transaction id. */
  predicate BuySucceeded(r: OrderReply) {
    r.Replied? && |r.errors| == 0 && r.txids.Some? && |r.txids.value| > 0
  }

  /** bot.js:462-463: a withdrawal address key is a non-empty string. */
  predicate HasWithdrawalKey(c: AssetConfig) {
    c.withdrawalKey.Some? && c.withdrawalKey.value != ""
  }

  /** bot.js:462-463: a threshold is set when `withdrawTarget` is truthy. */
  predicate HasWithdrawTarget(c: AssetConfig) {
    c.withdrawTarget.Some? && c.withdrawTarget.value != 0.0
  }

  /** `Number(raw) || 0` for a balance entry (bot.js:186): a missing or
      unparsable entry reads as zero. */
  function HoldingOrZero(raw: Option<real>): real {
    raw.GetOr(0.0)
  }

  /** bot.js:236 with the figures of an order of 0.001 BTC at 50000: an
      allocation of 40 does not pay for it, one of 60 does. */
  lemma AffordabilityExample()
    ensures !CanAfford(40.0, 50000.0, 0.001)
    ensures CanAfford(60.0, 50000.0, 0.001)
  {
  }
}
