/** The weight-tier pricing rule and the fixed table of credit plans. */
module Pricing {
  import opened Records

  /** Cost multiplier of a total weight: 3 above 6, 2 above 3, otherwise 1. */
  function Multiplier(totalWeight: real): (m: int)
    ensures 1 <= m <= 3
  {
    if totalWeight > 6.0 then 3
    else if totalWeight > 3.0 then 2
    else 1
  }

  /** The price of a shipment of the given total weight at the owner's base rate
      (`calculateCost`, and the rule the three product workflows repeat inline). */
  function CalculateCost(baseCost: real, totalWeight: real): (cost: real)
    ensures baseCost >= 0.0 ==> baseCost <= cost <= 3.0 * baseCost
  {
    baseCost * Multiplier(totalWeight) as real
  }

  /** The price a product deletion charges: nothing once no positive weight remains. */
  function CostAfterDelete(baseCost: real, totalWeight: real): (cost: real)
    ensures baseCost >= 0.0 ==> 0.0 <= cost <= CalculateCost(baseCost, totalWeight)
    ensures baseCost > 0.0 ==> (cost == 0.0 <==> totalWeight <= 0.0)
  {
    if totalWeight > 0.0 then CalculateCost(baseCost, totalWeight) else 0.0
  }

  /** The tiers, including the boundaries: exactly 3 is still the first tier and
      exactly 6 still the second. */
  lemma Tiers(baseCost: real, w: real)
    ensures Multiplier(w) == 3 <==> w > 6.0
    ensures Multiplier(w) == 2 <==> 3.0 < w <= 6.0
    ensures Multiplier(w) == 1 <==> w <= 3.0
    ensures CalculateCost(baseCost, w) == baseCost * Multiplier(w) as real
    ensures CalculateCost(baseCost, 3.0) == baseCost
    ensures CalculateCost(baseCost, 6.0) == 2.0 * baseCost
    ensures CalculateCost(baseCost, 6.01) == 3.0 * baseCost
  {
  }

  /** At a non-negative base rate a heavier shipment never costs less. */
  lemma CostMonotone(baseCost: real, w1: real, w2: real)
    requires baseCost >= 0.0 && w1 <= w2
    ensures CalculateCost(baseCost, w1) <= CalculateCost(baseCost, w2)
  {
  }

  /** The credit plan table of `buyCredits`: plan id to the credits block it installs. */
  function Plan(plan: int): (c: Option<Credits>)
    ensures c.Some? <==> plan in {1, 2, 3}
    ensures c.Some? ==> c.value.shipments > 0 && c.value.amount > 0.0
    ensures c.Some? ==> c.value.cost * c.value.shipments as real == c.value.amount
  {
    if plan == 1 then Some(Credits(135.0, 30, 135.0 / 30.0))
    else if plan == 2 then Some(Credits(160.0, 40, 160.0 / 40.0))
    else if plan == 3 then Some(Credits(180.0, 60, 180.0 / 60.0))
    else None
  }

  /** The three plans written out, with their per-shipment costs. */
  lemma PlanTable()
    ensures Plan(1) == Some(Credits(135.0, 30, 4.5))
    ensures Plan(2) == Some(Credits(160.0, 40, 4.0))
    ensures Plan(3) == Some(Credits(180.0, 60, 3.0))
  {
  }
}
