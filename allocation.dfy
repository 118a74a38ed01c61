/** The allocation partitioner of bot.js: the start-up check on the allocation
    percentages (bot.js:558-564) and the split of newly arrived fiat
    (bot.js:201-207). */
module Allocation {

  /** Sum of a sequence of amounts. */
  function Sum(xs: seq<real>): real {
    if xs == [] then 0.0 else xs[0] + Sum(xs[1..])
  }

  /** bot.js:558: the sum of every configured allocation, negative ones included. */
  function Total(allocs: seq<real>): real {
    Sum(allocs)
  }

  /** The part of an allocation that is ever applied: bot.js:203 only
      allocates to assets whose allocation is positive. */
  function Applied(a: real): real {
    if a > 0.0 then a else 0.0
  }

  /** Sum of the allocations that are actually applied. */
  function AppliedTotal(allocs: seq<real>): real {
    if allocs == [] then 0.0 else Applied(allocs[0]) + AppliedTotal(allocs[1..])
  }

  /** Start-up acceptance of the allocations: the applied percentages add up
      to at most 100.  This is the check of bot.js:559 with the negative
      allocations, which are never applied, left out of the sum. */
  predicate StartupAccepts(allocs: seq<real>) {
    AppliedTotal(allocs) <= 100.0
  }

  /** bot.js:204: the fiat budget of one asset after new fiat arrived. */
  function Share(fiat: real, allocation: real): real {
    if allocation > 0.0 then fiat * (allocation / 100.0) else 0.0
  }

  /** The budgets of all assets after a reallocation of `fiat`. */
  function Partition(fiat: real, allocs: seq<real>): (p: seq<real>)
    ensures |p| == |allocs|
  {
    seq(|allocs|, i requires 0 <= i < |allocs| => Share(fiat, allocs[i]))
  }

  /** Each asset with a positive allocation gets that percentage of the fiat,
      every other asset gets nothing. */
  lemma PartitionShares(fiat: real, allocs: seq<real>)
    ensures forall i :: 0 <= i < |allocs| && allocs[i] > 0.0 ==> Partition(fiat, allocs)[i] == fiat * allocs[i] / 100.0
    ensures forall i :: 0 <= i < |allocs| && allocs[i] <= 0.0 ==> Partition(fiat, allocs)[i] == 0.0
  {
  }

  /** The budgets add up to the applied share of the fiat. */
  lemma {:induction false} PartitionSum(fiat: real, allocs: seq<real>)
    ensures Sum(Partition(fiat, allocs)) == fiat * AppliedTotal(allocs) / 100.0
  {
    if allocs != [] {
      var p := Partition(fiat, allocs);
      PartitionSum(fiat, allocs[1..]);
      assert p[1..] == Partition(fiat, allocs[1..]);
      assert Sum(p) == p[0] + Sum(p[1..]);
      ShareSum(fiat, allocs[0], AppliedTotal(allocs[1..]), AppliedTotal(allocs), p[0], Sum(p[1..]));
    }
  }

  /** One more share on top of the shares of the rest. */
  lemma ShareSum(fiat: real, a: real, t: real, total: real, first: real, rest: real)
    requires total == Applied(a) + t
    requires first == Share(fiat, a) && rest == fiat * t / 100.0
    ensures first + rest == fiat * total / 100.0
  {
  }

  lemma {:induction false} AppliedTotalNonNegative(allocs: seq<real>)
    ensures AppliedTotal(allocs) >= 0.0
  {
    if allocs != [] {
      AppliedTotalNonNegative(allocs[1..]);
    }
  }

  /** With an accepted configuration no more fiat is budgeted than there is. */
  lemma PartitionWithinFiat(fiat: real, allocs: seq<real>)
    requires StartupAccepts(allocs) && fiat >= 0.0
    ensures 0.0 <= Sum(Partition(fiat, allocs)) <= fiat
  {
    PartitionSum(fiat, allocs);
    AppliedTotalNonNegative(allocs);
    var t := AppliedTotal(allocs);
    assert fiat * t <= fiat * 100.0;
    assert fiat * t / 100.0 <= fiat;
    assert 0.0 <= fiat * t;
    assert Sum(Partition(fiat, allocs)) == fiat * t / 100.0;
  }

  /** When no allocation is negative, the start-up sum of bot.js:558 and the
      applied total agree, so the check accepts the same configurations. */
  lemma {:induction false} NonNegativeTotals(allocs: seq<real>)
    requires forall i :: 0 <= i < |allocs| ==> allocs[i] >= 0.0
    ensures AppliedTotal(allocs) == Total(allocs)
  {
    if allocs != [] {
      NonNegativeTotals(allocs[1..]);
    }
  }
}
