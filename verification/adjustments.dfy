/** The multiplicative and additive stages between the base amount and the
    final bonuses: `apply_cluster_adjustments`, `apply_threshold_effects` and
    `apply_rounding_bug`. */
module Adjustments {
  import opened RealMath
  import opened Config
  import opened Features
  import opened Clusters

  /** The multiplier `apply_cluster_adjustments` picks: cluster 4 is split by
      the vacation flag, every other cluster reads its own entry. */
  function ClusterMultiplier(cluster: ClusterId, vacation: bool, c: Config): real {
    if cluster == 4 && vacation then c.vacationBonusMultiplier
    else if cluster == 4 then c.vacationBaseMultiplier
    else c.clusterMultipliers[cluster]
  }

  /** Scales the base amount by the cluster's multiplier. */
  function ApplyClusterAdjustment(base: real, cluster: ClusterId, vacation: bool, c: Config): real {
    base * ClusterMultiplier(cluster, vacation, c)
  }

  /** Entry 4 of the cluster multipliers is never read: cluster 4 always takes
      one of the two vacation multipliers instead. */
  lemma ClusterMultiplierFourIsUnused(base: real, cluster: ClusterId, vacation: bool, c: Config, m: real)
    ensures ApplyClusterAdjustment(base, cluster, vacation, c)
         == ApplyClusterAdjustment(base, cluster, vacation, c.(clusterMultipliers := c.clusterMultipliers[4 := m]))
  {
  }

  /** Over a raw trip: the vacation bonus multiplier applies exactly when the
      trip lands in cluster 4 and spends more than 120 dollars (12000 cents)
      a day; inside cluster 4 the duration part of the flag always holds. */
  lemma VacationBonusIff(t: Trip, ln: real -> real, c: Config)
    requires Engineer(t, ln).Success?
    ensures var f := Engineer(t, ln).value;
            var k := DetermineCluster(f);
            ClusterMultiplier(k, f.vacationPenalty, c)
            == if k == 4 && t.receiptCents > 12000 * t.days then c.vacationBonusMultiplier
               else if k == 4 then c.vacationBaseMultiplier
               else c.clusterMultipliers[k]
  {
    var f := Engineer(t, ln).value;
    if DetermineCluster(f) == 4 {
      assert Rule(4, f);
      assert t.days >= 8;
    }
  }

  /** One threshold's contribution to the product: its multiplier when the
      condition holds, 1 otherwise. */
  function Factor(holds: bool, multiplier: real): real {
    if holds then multiplier else 1.0
  }

  /** The four threshold conditions, in the order the source tests them. */
  predicate FiveDayHolds(f: Features) { f.isFiveDayTrip }
  predicate ReceiptThresholdHolds(f: Features) { f.receipts > 660.54 }
  predicate EfficiencyThresholdHolds(f: Features) { f.milesPerDay > 187.01 }
  predicate MilesThresholdHolds(f: Features) { f.miles > 473.8 }

  /** The product of the multipliers whose conditions hold. */
  function ThresholdFactor(f: Features, c: Config): real {
    Factor(FiveDayHolds(f), c.fiveDayMultiplier)
    * Factor(ReceiptThresholdHolds(f), c.receiptThresholdMultiplier)
    * Factor(EfficiencyThresholdHolds(f), c.efficiencyThresholdMultiplier)
    * Factor(MilesThresholdHolds(f), c.milesThresholdMultiplier)
  }

  /** `apply_threshold_effects`: four conditional in-place multiplications,
      one after the other. */
  function ApplyThresholds(amount: real, f: Features, c: Config): real {
    var a1 := if f.isFiveDayTrip then amount * c.fiveDayMultiplier else amount;
    var a2 := if f.receipts > 660.54 then a1 * c.receiptThresholdMultiplier else a1;
    var a3 := if f.milesPerDay > 187.01 then a2 * c.efficiencyThresholdMultiplier else a2;
    if f.miles > 473.8 then a3 * c.milesThresholdMultiplier else a3
  }

  /** The sequential multiplications compound: the result is the amount times
      the product of exactly the multipliers whose conditions hold. */
  lemma ThresholdsAreAProduct(amount: real, f: Features, c: Config)
    ensures ApplyThresholds(amount, f, c) == amount * ThresholdFactor(f, c)
  {
    var m0 := Factor(FiveDayHolds(f), c.fiveDayMultiplier);
    var m1 := Factor(ReceiptThresholdHolds(f), c.receiptThresholdMultiplier);
    var m2 := Factor(EfficiencyThresholdHolds(f), c.efficiencyThresholdMultiplier);
    var m3 := Factor(MilesThresholdHolds(f), c.milesThresholdMultiplier);
    StepIsFactor(amount, FiveDayHolds(f), c.fiveDayMultiplier);
    StepIsFactor(amount * m0, ReceiptThresholdHolds(f), c.receiptThresholdMultiplier);
    StepIsFactor(amount * m0 * m1, EfficiencyThresholdHolds(f), c.efficiencyThresholdMultiplier);
    StepIsFactor(amount * m0 * m1 * m2, MilesThresholdHolds(f), c.milesThresholdMultiplier);
    ProductRegroup(amount, m0, m1, m2, m3);
  }

  /** One conditional multiplication is a multiplication by its factor. */
  lemma StepIsFactor(a: real, holds: bool, multiplier: real)
    ensures (if holds then a * multiplier else a) == a * Factor(holds, multiplier)
  {
  }

  lemma ProductRegroup(a: real, m0: real, m1: real, m2: real, m3: real)
    ensures a * m0 * m1 * m2 * m3 == a * (m0 * m1 * m2 * m3)
  {
  }

  /** Only the four conditions matter: two feature records that agree on
      them get the same result, whatever else (the high-spending flag
      included) differs. */
  lemma ThresholdsReadOnlyTheirConditions(amount: real, f: Features, g: Features, c: Config)
    requires FiveDayHolds(f) == FiveDayHolds(g)
    requires ReceiptThresholdHolds(f) == ReceiptThresholdHolds(g)
    requires EfficiencyThresholdHolds(f) == EfficiencyThresholdHolds(g)
    requires MilesThresholdHolds(f) == MilesThresholdHolds(g)
    ensures ApplyThresholds(amount, f, c) == ApplyThresholds(amount, g, c)
  {
  }

  /** With every threshold multiplier at least 1, the step never lowers a
      non-negative amount. */
  lemma ThresholdsNeverLower(amount: real, f: Features, c: Config)
    requires amount >= 0.0
    requires c.fiveDayMultiplier >= 1.0 && c.receiptThresholdMultiplier >= 1.0
    requires c.efficiencyThresholdMultiplier >= 1.0 && c.milesThresholdMultiplier >= 1.0
    ensures ApplyThresholds(amount, f, c) >= amount
  {
    ThresholdsAreAProduct(amount, f, c);
    FactorsAtLeastOne(Factor(FiveDayHolds(f), c.fiveDayMultiplier),
                      Factor(ReceiptThresholdHolds(f), c.receiptThresholdMultiplier),
                      Factor(EfficiencyThresholdHolds(f), c.efficiencyThresholdMultiplier),
                      Factor(MilesThresholdHolds(f), c.milesThresholdMultiplier));
    ScaleUp(amount, ThresholdFactor(f, c));
  }

  /** Both scorer files' default multipliers are at least 1, so with either
      default configuration the thresholds never lower an amount. */
  lemma DefaultThresholdsNeverLower(amount: real, f: Features)
    requires amount >= 0.0
    ensures ApplyThresholds(amount, f, BaseDefaults) >= amount
    ensures ApplyThresholds(amount, f, OptimizedDefaults) >= amount
  {
    ThresholdsNeverLower(amount, f, BaseDefaults);
    ThresholdsNeverLower(amount, f, OptimizedDefaults);
  }

  /** A product of four factors, each at least 1, is at least 1. */
  lemma FactorsAtLeastOne(m0: real, m1: real, m2: real, m3: real)
    requires m0 >= 1.0 && m1 >= 1.0 && m2 >= 1.0 && m3 >= 1.0
    ensures m0 * m1 * m2 * m3 >= 1.0
  {
    ScaleUp(m0, m1);
    ScaleUp(m0 * m1, m2);
    ScaleUp(m0 * m1 * m2, m3);
  }

  /** Scaling a non-negative amount by at least 1 keeps it at least as large. */
  lemma ScaleUp(a: real, m: real)
    requires a >= 0.0 && m >= 1.0
    ensures a * m >= a
  {
    MulMonotone(a, 1.0, m);
  }

  /** `apply_rounding_bug`: when the receipts end in 49 or 99 cents, add the
      base bonus plus a proportional bonus. */
  function ApplyRoundingBug(amount: real, flag: bool, c: Config): real {
    if flag then amount + (c.bugBaseBonus + amount * c.bugMultiplier) else amount
  }

  /** The bug step is the identity without the flag and an affine map with
      slope 1 + bug multiplier and intercept the base bonus with it. */
  lemma RoundingBugIsAffine(amount: real, flag: bool, c: Config)
    ensures !flag ==> ApplyRoundingBug(amount, flag, c) == amount
    ensures flag ==> ApplyRoundingBug(amount, flag, c)
                     == amount * (1.0 + c.bugMultiplier) + c.bugBaseBonus
  {
  }

  /** With non-negative bug parameters the bonus never lowers a non-negative
      amount. */
  lemma RoundingBugNeverLowers(amount: real, flag: bool, c: Config)
    requires amount >= 0.0 && c.bugBaseBonus >= 0.0 && c.bugMultiplier >= 0.0
    ensures ApplyRoundingBug(amount, flag, c) >= amount
  {
    MulMonotone(amount, 0.0, c.bugMultiplier);
  }
}
