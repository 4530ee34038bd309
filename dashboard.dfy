/**
 * The loyalty dashboard: totals over the listed businesses, the list of
 * businesses whose reward is ready, and each business's progress row
 * (percentage, "Ready!" badge, clamped progress bar, "n/T visits" text).
 */
module Dashboard {
  import opened Wrappers
  import opened Businesses
  import opened JsValues

  /** `business.current_visits || 0` */
  function VisitsOf(b: Business): int
  {
    OrZero(b.currentVisits)
  }

  /** `business.current_points || 0` */
  function PointsOf(b: Business): int
  {
    OrZero(b.currentPoints)
  }

  /** `businesses.reduce((sum, b) => sum + (b.current_points || 0), 0)`, folded from the left. */
  function TotalPoints(bs: seq<Business>): int
  {
    if bs == [] then 0 else TotalPoints(bs[..|bs| - 1]) + PointsOf(bs[|bs| - 1])
  }

  /** `businesses.reduce((sum, b) => sum + (b.current_visits || 0), 0)`, folded from the left. */
  function TotalVisits(bs: seq<Business>): int
  {
    if bs == [] then 0 else TotalVisits(bs[..|bs| - 1]) + VisitsOf(bs[|bs| - 1])
  }

  /** The `availableRewards` filter's test. */
  predicate RewardReady(b: Business)
  {
    SelectedCounter(b) >= b.rewardThreshold
  }

  /** `businesses.filter(...)`: the reward-ready businesses, in list order. */
  function AvailableRewards(bs: seq<Business>): (r: seq<Business>)
    ensures |r| <= |bs|
    ensures forall b :: b in r <==> b in bs && RewardReady(b)
  {
    if bs == [] then []
    else (if RewardReady(bs[0]) then [bs[0]] else []) + AvailableRewards(bs[1..])
  }

  /** `xs` is `ys` with some elements left out and the rest in their order. */
  predicate IsSublist<T(==)>(xs: seq<T>, ys: seq<T>)
    decreases |ys|
  {
    xs == [] ||
    (ys != [] && ((xs[0] == ys[0] && IsSublist(xs[1..], ys[1..])) || IsSublist(xs, ys[1..])))
  }

  /** The filter keeps the list order: its result is a sublist of the input. */
  lemma {:induction false} AvailableRewardsIsSublist(bs: seq<Business>)
    ensures IsSublist(AvailableRewards(bs), bs)
  {
    if bs != [] {
      AvailableRewardsIsSublist(bs[1..]);
      var rest := AvailableRewards(bs[1..]);
      if RewardReady(bs[0]) {
        assert AvailableRewards(bs) == [bs[0]] + rest;
        assert ([bs[0]] + rest)[1..] == rest;
      } else {
        assert AvailableRewards(bs) == rest;
      }
    }
  }

  /** Filtering a concatenation filters each part. */
  lemma {:induction false} AvailableRewardsAppend(a: seq<Business>, b: seq<Business>)
    ensures AvailableRewards(a + b) == AvailableRewards(a) + AvailableRewards(b)
  {
    if a == [] {
      assert a + b == b;
    } else {
      assert (a + b)[0] == a[0];
      assert (a + b)[1..] == a[1..] + b;
      AvailableRewardsAppend(a[1..], b);
    }
  }

  /** The points total distributes over concatenation. */
  lemma {:induction false} TotalPointsAppend(a: seq<Business>, b: seq<Business>)
    ensures TotalPoints(a + b) == TotalPoints(a) + TotalPoints(b)
    decreases |b|
  {
    if b == [] {
      assert a + b == a;
    } else {
      var b' := b[..|b| - 1];
      assert (a + b)[..|a + b| - 1] == a + b';
      TotalPointsAppend(a, b');
    }
  }

  /** The visits total distributes over concatenation. */
  lemma {:induction false} TotalVisitsAppend(a: seq<Business>, b: seq<Business>)
    ensures TotalVisits(a + b) == TotalVisits(a) + TotalVisits(b)
    decreases |b|
  {
    if b == [] {
      assert a + b == a;
    } else {
      var b' := b[..|b| - 1];
      assert (a + b)[..|a + b| - 1] == a + b';
      TotalVisitsAppend(a, b');
    }
  }

  /** Adding a business to the front adds its points to the total. */
  lemma TotalPointsCons(b: Business, bs: seq<Business>)
    ensures TotalPoints([b] + bs) == PointsOf(b) + TotalPoints(bs)
  {
    TotalPointsAppend([b], bs);
    assert [b][..0] == [];
  }

  /** Adding a business to the front adds its visits to the total. */
  lemma TotalVisitsCons(b: Business, bs: seq<Business>)
    ensures TotalVisits([b] + bs) == VisitsOf(b) + TotalVisits(bs)
  {
    TotalVisitsAppend([b], bs);
    assert [b][..0] == [];
  }

  /** Non-negative counters give a non-negative points total. */
  lemma {:induction false} TotalPointsNonNegative(bs: seq<Business>)
    requires forall i :: 0 <= i < |bs| ==> PointsOf(bs[i]) >= 0
    ensures TotalPoints(bs) >= 0
  {
    if bs != [] {
      TotalPointsNonNegative(bs[..|bs| - 1]);
    }
  }

  /** Non-negative counters give a non-negative visits total. */
  lemma {:induction false} TotalVisitsNonNegative(bs: seq<Business>)
    requires forall i :: 0 <= i < |bs| ==> VisitsOf(bs[i]) >= 0
    ensures TotalVisits(bs) >= 0
  {
    if bs != [] {
      TotalVisitsNonNegative(bs[..|bs| - 1]);
    }
  }

  /** The progress of one row: `(counter / reward_threshold) * 100`. */
  function Progress(b: Business): Quotient
  {
    Percent(Divide(SelectedCounter(b), b.rewardThreshold))
  }

  /** The "Ready!" badge: `progress >= 100`. */
  predicate ReadyBadge(b: Business)
  {
    AtLeast(Progress(b), 100.0)
  }

  /** The progress bar's value: `Math.min(progress, 100)`. */
  function ProgressBar(b: Business): (v: Quotient)
    ensures v != PosInfinity
    ensures v.Finite? ==> v.value <= 100.0
    ensures Progress(b).Finite? && Progress(b).value <= 100.0 ==> v == Progress(b)
    ensures AtLeast(Progress(b), 100.0) ==> v == Finite(100.0)
    ensures Progress(b) == NaN <==> v == NaN
    ensures Progress(b) == NegInfinity <==> v == NegInfinity
  {
    Min(Progress(b), 100.0)
  }

  /**
   * With a positive threshold, a row shows "Ready!" exactly when its
   * business is among the available rewards.
   */
  lemma ReadyBadgeIffAvailable(bs: seq<Business>, b: Business)
    requires b in bs && b.rewardThreshold > 0
    ensures ReadyBadge(b) <==> b in AvailableRewards(bs)
  {
    PercentReaches100(SelectedCounter(b), b.rewardThreshold);
  }

  /**
   * With a zero threshold and a zero counter the two tests part: the
   * business is listed as a ready reward, but 0 / 0 is NaN and its row
   * shows "In Progress".
   */
  lemma ZeroThresholdDisagrees(b: Business)
    requires b.rewardThreshold == 0 && SelectedCounter(b) == 0
    ensures b in AvailableRewards([b]) && !ReadyBadge(b)
  {
  }

  /** The row text: `${counter}/${reward_threshold} visits` (or `points`). */
  function ProgressText(b: Business): (t: string)
    ensures var unit := CounterUnit(b.loyaltyType);
            |t| > |unit| && t[|t| - |unit|..] == unit
    ensures var shown := ShowInt(SelectedCounter(b));
            |t| > |shown| && t[..|shown| + 1] == shown + "/"
    ensures var unit := CounterUnit(b.loyaltyType);
            var shown := ShowInt(SelectedCounter(b));
            |shown| + 1 <= |t| - |unit| && t[|shown| + 1..|t| - |unit|] == ShowInt(b.rewardThreshold)
  {
    var unit := CounterUnit(b.loyaltyType);
    var shown := ShowInt(SelectedCounter(b));
    var t := shown + "/" + ShowInt(b.rewardThreshold) + unit;
    FractionParts(shown, ShowInt(b.rewardThreshold), unit);
    t
  }
}
