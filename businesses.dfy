/**
 * The business record the views are rendered from: a row of the
 * `businesses` table, with the two counters the dashboard reads from it
 * left optional (absent counters read as `undefined`).
 */
module Businesses {
  import opened Wrappers
  import opened JsValues

  /** The loyalty type strings the code compares against. */
  const VisitBased := "Visit-based"
  const PointsBased := "Points-based"

  /** The unit a progress text ends with: " visits" for a visit-based business, " points" for any other type. */
  function CounterUnit(loyaltyType: string): (u: string)
    ensures |u| == 7
  {
    if loyaltyType == VisitBased then " visits" else " points"
  }

  datatype Business = Business(
    id: string,
    name: string,
    category: string,        // the `type` column: "Salon", "Barbershop", "Eatery", ...
    address: string,
    phone: string,
    rating: real,
    loyaltyType: string,     // "Visit-based", "Points-based", or anything else
    rewardThreshold: int,
    nextReward: string,
    currentVisits: Option<int>,
    currentPoints: Option<int>)

  /**
   * The counter a business's reward is measured by, read with `|| 0`:
   * visits for "Visit-based", points for any other loyalty type. The
   * dashboard and the card both select it this way.
   */
  function SelectedCounter(b: Business): int
  {
    if b.loyaltyType == VisitBased then OrZero(b.currentVisits) else OrZero(b.currentPoints)
  }
}
