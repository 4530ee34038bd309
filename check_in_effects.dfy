/**
 * How a run of check-ins shows up on the dashboard, and how the form's
 * success message compares with what a check-in actually accrues.
 */
module CheckInEffects {
  import opened Wrappers
  import opened JsValues
  import opened Businesses
  import opened CustomerLoyalty
  import Dashboard
  import CheckInForm

  /** The dashboard row of a business, carrying a customer's current counters. */
  function WithRecord(b: Business, r: LoyaltyRecord): (row: Business)
    ensures Dashboard.VisitsOf(row) == r.currentVisits && Dashboard.PointsOf(row) == r.currentPoints
  {
    b.(currentVisits := Some(r.currentVisits), currentPoints := Some(r.currentPoints))
  }

  /** The record of (customer with `phone`, `businessId`) after `n` check-ins from none. */
  function RecordAfter(t: Tables, phone: string, businessId: string, n: nat): LoyaltyRecord
    requires Consistent(t) && businessId in t.businesses && n >= 1
    requires (CustomerIdFor(t, phone), businessId) !in t.loyalty
  {
    RepeatedCheckIns(t, phone, businessId, n);
    RecordOf(CheckInTimes(t, phone, businessId, n), phone, businessId)
  }

  /**
   * At a visit-based business, the reward becomes available on the
   * dashboard exactly at the check-in that brings the visits to the
   * threshold; with a positive threshold the "Ready!" badge agrees.
   */
  lemma VisitRewardAfterCheckIns(t: Tables, phone: string, businessId: string, n: nat)
    requires Consistent(t) && businessId in t.businesses && n >= 1
    requires (CustomerIdFor(t, phone), businessId) !in t.loyalty
    requires t.businesses[businessId].loyaltyType == VisitBased
    ensures var row := WithRecord(t.businesses[businessId], RecordAfter(t, phone, businessId, n));
            Dashboard.VisitsOf(row) == n
            && (Dashboard.RewardReady(row) <==> n >= t.businesses[businessId].rewardThreshold)
            && (t.businesses[businessId].rewardThreshold > 0 ==>
                  (Dashboard.ReadyBadge(row) <==> n >= t.businesses[businessId].rewardThreshold))
  {
    RepeatedCheckIns(t, phone, businessId, n);
    var row := WithRecord(t.businesses[businessId], RecordAfter(t, phone, businessId, n));
    if row.rewardThreshold > 0 {
      Dashboard.ReadyBadgeIffAvailable([row], row);
    }
  }

  /**
   * At a points-based business each check-in is worth 50 points, so the
   * reward becomes available once 50 n reaches the threshold.
   */
  lemma PointsRewardAfterCheckIns(t: Tables, phone: string, businessId: string, n: nat)
    requires Consistent(t) && businessId in t.businesses && n >= 1
    requires (CustomerIdFor(t, phone), businessId) !in t.loyalty
    requires t.businesses[businessId].loyaltyType == PointsBased
    ensures var row := WithRecord(t.businesses[businessId], RecordAfter(t, phone, businessId, n));
            Dashboard.PointsOf(row) == 50 * n && Dashboard.VisitsOf(row) == n
            && (Dashboard.RewardReady(row) <==> 50 * n >= t.businesses[businessId].rewardThreshold)
  {
    RepeatedCheckIns(t, phone, businessId, n);
  }

  /** A visit-based row at 7 of 10 visits shows 70% and is not ready; at 10 it shows 100% and is. */
  lemma SevenOfTenExample(b: Business)
    requires b.loyaltyType == VisitBased && b.rewardThreshold == 10
    ensures Dashboard.Progress(b.(currentVisits := Some(7))) == Finite(70.0)
    ensures !Dashboard.RewardReady(b.(currentVisits := Some(7)))
    ensures Dashboard.Progress(b.(currentVisits := Some(10))) == Finite(100.0)
    ensures Dashboard.RewardReady(b.(currentVisits := Some(10)))
  {
  }

  /**
   * The form's success message and the accrual part ways for every
   * loyalty type other than "Visit-based": the message always promises 50
   * points, a "Points-based" check-in also adds a visit, and any other type
   * earns no points at all.
   */
  lemma SuccessMessageVersusAccrual(b: Business)
    ensures b.loyaltyType == VisitBased ==>
              CheckInForm.SuccessMessage(Some(b)) == CheckInForm.VisitAddedMessage
              && PointsToAdd(b.loyaltyType) == 0
    ensures b.loyaltyType != VisitBased ==>
              CheckInForm.SuccessMessage(Some(b)) == CheckInForm.PointsAddedMessage
    ensures b.loyaltyType != VisitBased && b.loyaltyType != PointsBased ==>
              PointsToAdd(b.loyaltyType) == 0
  {
  }
}
