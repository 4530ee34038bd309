/**
 * The directory card of one business: its progress value (not clamped),
 * its progress text and the badge colour of its category.
 */
module BusinessCard {
  import opened Wrappers
  import opened Businesses
  import opened JsValues

  /**
   * `getProgressValue`: a visit-based business with a truthy visit count,
   * or a points-based one with a truthy points count, shows
   * `(counter / rewardThreshold) * 100`; anything else shows 0.
   */
  function ProgressValue(b: Business): Quotient
  {
    if b.loyaltyType == VisitBased && Truthy(b.currentVisits) then
      Percent(Divide(b.currentVisits.value, b.rewardThreshold))
    else if b.loyaltyType == PointsBased && Truthy(b.currentPoints) then
      Percent(Divide(b.currentPoints.value, b.rewardThreshold))
    else Finite(0.0)
  }

  /** The same business with its measured counter set to `c`. */
  function WithCounter(b: Business, c: int): Business
  {
    if b.loyaltyType == VisitBased then b.(currentVisits := Some(c)) else b.(currentPoints := Some(c))
  }

  predicate KnownType(b: Business)
  {
    b.loyaltyType == VisitBased || b.loyaltyType == PointsBased
  }

  /** An unrecognised loyalty type always shows 0%. */
  lemma UnknownTypeShowsZero(b: Business)
    requires !KnownType(b)
    ensures ProgressValue(b) == Finite(0.0)
  {
  }

  /** A missing or zero counter shows 0%, whatever the threshold. */
  lemma MissingCounterShowsZero(b: Business)
    requires KnownType(b) && SelectedCounter(b) == 0
    ensures ProgressValue(b) == Finite(0.0)
  {
  }

  /** The counter of the other loyalty type never affects the value. */
  lemma OtherCounterIrrelevant(b: Business, visits: Option<int>, points: Option<int>)
    ensures b.loyaltyType == VisitBased ==> ProgressValue(b.(currentPoints := points)) == ProgressValue(b)
    ensures b.loyaltyType == PointsBased ==> ProgressValue(b.(currentVisits := visits)) == ProgressValue(b)
  {
  }

  /**
   * With a positive threshold and a known loyalty type, the value is the
   * counter's share of the threshold in percent: the truthiness test only
   * short-cuts a missing or zero counter to the 0 that division gives anyway.
   */
  lemma ProgressValueIsShare(b: Business)
    requires KnownType(b) && b.rewardThreshold > 0
    ensures ProgressValue(b) == Percent(Divide(SelectedCounter(b), b.rewardThreshold))
    ensures ProgressValue(b).Finite?
  {
  }

  /** With a positive threshold, the value grows with the counter. */
  lemma ProgressValueMonotone(b: Business, c1: int, c2: int)
    requires KnownType(b) && b.rewardThreshold > 0 && c1 <= c2
    ensures ProgressValue(WithCounter(b, c1)).Finite? && ProgressValue(WithCounter(b, c2)).Finite?
    ensures ProgressValue(WithCounter(b, c1)).value <= ProgressValue(WithCounter(b, c2)).value
  {
    ProgressValueIsShare(WithCounter(b, c1));
    ProgressValueIsShare(WithCounter(b, c2));
    PercentMonotone(c1, c2, b.rewardThreshold);
  }

  /** With a positive threshold, the value reaches 100 exactly when the counter reaches the threshold. */
  lemma ProgressValueReaches100(b: Business)
    requires KnownType(b) && b.rewardThreshold > 0
    ensures AtLeast(ProgressValue(b), 100.0) <==> SelectedCounter(b) >= b.rewardThreshold
  {
    ProgressValueIsShare(b);
    PercentReaches100(SelectedCounter(b), b.rewardThreshold);
  }

  /** The value is not clamped: a counter past the threshold shows more than 100. */
  lemma ProgressValueCanExceed100(b: Business)
    requires KnownType(b) && b.rewardThreshold > 0 && SelectedCounter(b) > b.rewardThreshold
    ensures ProgressValue(b).Finite? && ProgressValue(b).value > 100.0
  {
    ProgressValueIsShare(b);
    var t := b.rewardThreshold;
    PercentMonotone(t + 1, SelectedCounter(b), t);
    var q := (t + 1) as real / t as real;
    assert q * t as real == (t + 1) as real;
    assert q > 1.0;
  }

  /** `getProgressText`: `${counter}/${rewardThreshold} visits` (or `points`), printing `undefined` for a missing counter. */
  function ProgressText(b: Business): (t: string)
    ensures var unit := CounterUnit(b.loyaltyType);
            |t| > |unit| && t[|t| - |unit|..] == unit
    ensures var shown := ShowOptional(if b.loyaltyType == VisitBased then b.currentVisits else b.currentPoints);
            |t| > |shown| && t[..|shown| + 1] == shown + "/"
    ensures var unit := CounterUnit(b.loyaltyType);
            var shown := ShowOptional(if b.loyaltyType == VisitBased then b.currentVisits else b.currentPoints);
            |shown| + 1 <= |t| - |unit| && t[|shown| + 1..|t| - |unit|] == ShowInt(b.rewardThreshold)
  {
    var unit := CounterUnit(b.loyaltyType);
    var shown := ShowOptional(if b.loyaltyType == VisitBased then b.currentVisits else b.currentPoints);
    var t := shown + "/" + ShowInt(b.rewardThreshold) + unit;
    FractionParts(shown, ShowInt(b.rewardThreshold), unit);
    t
  }

  const SalonColor := "bg-pink-100 text-pink-700"
  const BarbershopColor := "bg-blue-100 text-blue-700"
  const EateryColor := "bg-orange-100 text-orange-700"
  const DefaultColor := "bg-gray-100 text-gray-700"

  /** `getTypeColor`: the badge classes of a business category. */
  function TypeColor(category: string): string
  {
    match category
    case "Salon" => SalonColor
    case "Barbershop" => BarbershopColor
    case "Eatery" => EateryColor
    case _ => DefaultColor
  }

  /** The three known categories get three distinct colours; every other category is gray. */
  lemma TypeColorMapping(category: string)
    ensures TypeColor("Salon") != TypeColor("Barbershop")
    ensures TypeColor("Salon") != TypeColor("Eatery")
    ensures TypeColor("Barbershop") != TypeColor("Eatery")
    ensures TypeColor(category) == DefaultColor <==>
              category != "Salon" && category != "Barbershop" && category != "Eatery"
  {
  }
}
