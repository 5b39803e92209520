/** `calculate_reimbursement`: the whole pipeline, for either receipts scheme. */
module Scorer {
  import opened Wrappers
  import opened RealMath
  import opened Config
  import opened Features
  import opened Clusters
  import opened Tiers
  import opened Adjustments
  import opened Rounding

  /** `calculate_base_reimbursement`: per diem plus the mileage and receipts subtotals. */
  function BaseReimbursement(tiers: ReceiptTiers, days: int, miles: real, receipts: real, c: Config): real {
    c.basePerDiem * (days as real) + MileageTier(miles, c.mileageRates)
    + ReceiptTier(tiers, receipts, c.receiptRates)
  }

  /** The stages after the base amount: cluster multiplier, thresholds,
      rounding bug, then the interaction and log bonuses, in that order. The
      log bonus is taken over log(receipts + 1), as the variable
      `log_receipts` and the comment on the bonus name it; `AdjustAsWritten`
      is what the source computes instead. */
  function Adjust(base: real, cluster: ClusterId, f: Features, c: Config): real {
    var adjusted := ApplyClusterAdjustment(base, cluster, f.vacationPenalty, c);
    var thresholded := ApplyThresholds(adjusted, f, c);
    var bugged := ApplyRoundingBug(thresholded, f.receiptEnds49Or99, c);
    bugged + (f.durationSpendingInteraction * c.interactionCoeff + f.logReceipts * c.logBonusCoeff)
  }

  /** The amount before the clamp, with the log bonus as selected. */
  function PreClamp(f: Features, c: Config, tiers: ReceiptTiers, logs: LogBonus): real {
    var base := BaseReimbursement(tiers, f.days, f.miles, f.receipts, c);
    match logs
    case AsWritten => AdjustAsWritten(base, DetermineCluster(f), f, c)
    case Corrected => Adjust(base, DetermineCluster(f), f, c)
  }

  /** The reimbursement for one trip: an error exactly where feature
      engineering raises, otherwise a whole number of cents in [50, 5000]
      within half a cent of the clamped pre-clamp amount. */
  function Score(t: Trip, c: Config, tiers: ReceiptTiers, logs: LogBonus, ln: real -> real)
    : (r: Result<real, ScoreError>)
    ensures r.Success? <==> t.days > 0 && t.miles > -1.0
    ensures r.Failure? ==> r.error == Engineer(t, ln).error
    ensures r.Success? ==> MinAmount <= r.value <= MaxAmount
    ensures r.Success? ==> RoundsToCents(Clamp(PreClamp(Engineer(t, ln).value, c, tiers, logs)), r.value)
    ensures r.Success? ==> Abs(r.value - Clamp(PreClamp(Engineer(t, ln).value, c, tiers, logs))) <= 0.005
  {
    match Engineer(t, ln)
    case Failure(e) => Failure(e)
    case Success(f) => Success(RoundToCents(Clamp(PreClamp(f, c, tiers, logs))))
  }

  /** The stages after the base amount in closed form: the base is scaled by
      the cluster multiplier and by the product of the threshold multipliers
      that apply, the bug step follows, then the interaction and log bonuses. */
  lemma AdjustClosedForm(base: real, cluster: ClusterId, f: Features, c: Config)
    ensures Adjust(base, cluster, f, c)
         == ApplyRoundingBug(base * ClusterMultiplier(cluster, f.vacationPenalty, c)
                             * ThresholdFactor(f, c), f.receiptEnds49Or99, c)
            + (f.durationSpendingInteraction * c.interactionCoeff + f.logReceipts * c.logBonusCoeff)
  {
    ThresholdsAreAProduct(ApplyClusterAdjustment(base, cluster, f.vacationPenalty, c), f, c);
    BugStepOfEqualAmounts(ApplyThresholds(ApplyClusterAdjustment(base, cluster, f.vacationPenalty, c), f, c),
                          base * ClusterMultiplier(cluster, f.vacationPenalty, c) * ThresholdFactor(f, c),
                          f.receiptEnds49Or99, c);
  }

  lemma BugStepOfEqualAmounts(x: real, y: real, flag: bool, c: Config)
    requires x == y
    ensures ApplyRoundingBug(x, flag, c) == ApplyRoundingBug(y, flag, c)
  {
  }

  /** The stages as the source writes them: both scorer files read the log
      bonus's input from position 32 of the feature vector, which holds
      log(miles + 1) (log(receipts + 1) sits at position 33). */
  function AdjustAsWritten(base: real, cluster: ClusterId, f: Features, c: Config): real {
    Adjust(base, cluster, f.(logReceipts := f.logMiles), c)
  }

  /** As written, the log bonus never sees the receipts: changing their log
      leaves the amount unchanged. */
  lemma AsWrittenIgnoresReceiptsLog(base: real, cluster: ClusterId, f: Features, c: Config, x: real)
    ensures AdjustAsWritten(base, cluster, f.(logReceipts := x), c) == AdjustAsWritten(base, cluster, f, c)
  {
    assert f.(logReceipts := x).(logReceipts := f.logMiles) == f.(logReceipts := f.logMiles);
  }

  /** A one-day trip of zero miles and one dollar of receipts: the source's
      log bonus uses log(1), the intended one log(2); with the default
      coefficient the amounts differ whenever those logs do. */
  lemma LogPositionExample(ln: real -> real, base: real, cluster: ClusterId)
    requires ln(1.0) != ln(2.0)
    ensures Engineer(Trip(1, 0.0, 100), ln).Success?
    ensures var f := Engineer(Trip(1, 0.0, 100), ln).value;
            && f.logMiles == ln(1.0) && f.logReceipts == ln(2.0)
            && AdjustAsWritten(base, cluster, f, BaseDefaults) != Adjust(base, cluster, f, BaseDefaults)
  {
    var f := Engineer(Trip(1, 0.0, 100), ln).value;
    assert f.receipts == 1.0;
    LogBonusFollowsReceipts(base, cluster, f, BaseDefaults, ln(1.0));
    assert (ln(1.0) - ln(2.0)) * BaseDefaults.logBonusCoeff != 0.0;
  }

  /** The corrected log bonus: the amount moves by the coefficient times any
      change in log(receipts + 1), and log(miles + 1) does not enter it. */
  lemma LogBonusFollowsReceipts(base: real, cluster: ClusterId, f: Features, c: Config, x: real)
    ensures Adjust(base, cluster, f.(logReceipts := x), c) - Adjust(base, cluster, f, c)
            == (x - f.logReceipts) * c.logBonusCoeff
    ensures Adjust(base, cluster, f.(logMiles := x), c) == Adjust(base, cluster, f, c)
  {
    var adjusted := ApplyClusterAdjustment(base, cluster, f.vacationPenalty, c);
    ThresholdsReadOnlyTheirConditions(adjusted, f.(logReceipts := x), f, c);
    ThresholdsReadOnlyTheirConditions(adjusted, f.(logMiles := x), f, c);
  }

  /** The two readings of the log bonus differ only through their input:
      on a trip whose miles equal its receipts in dollars they agree. */
  lemma LogReadingsAgreeWhenMilesEqualReceipts(t: Trip, c: Config, tiers: ReceiptTiers, ln: real -> real)
    requires t.miles == Dollars(t.receiptCents)
    ensures Score(t, c, tiers, AsWritten, ln) == Score(t, c, tiers, Corrected, ln)
  {
    if t.days > 0 && t.miles > -1.0 {
      var f := Engineer(t, ln).value;
      assert f.(logReceipts := f.logMiles) == f;
    }
  }

  /** Inside the clamp's range the clamp does nothing and the score is the
      pre-clamp amount up to half a cent. */
  lemma ScoreInRangeIsNearPreClamp(t: Trip, c: Config, tiers: ReceiptTiers, logs: LogBonus, ln: real -> real)
    requires t.days > 0 && t.miles > -1.0
    requires MinAmount <= PreClamp(Engineer(t, ln).value, c, tiers, logs) <= MaxAmount
    ensures Abs(Score(t, c, tiers, logs, ln).value - PreClamp(Engineer(t, ln).value, c, tiers, logs)) <= 0.005
  {
  }

  /** The two scorer files agree on every trip with receipts of at most 50
      dollars, where both receipts schemes charge rate 0 only. */
  lemma VariantsAgreeUpTo50Dollars(t: Trip, c: Config, logs: LogBonus, ln: real -> real)
    requires t.receiptCents <= 5000
    ensures Score(t, c, OffsetTiers, logs, ln) == Score(t, c, ProgressiveTiers, logs, ln)
  {
    if t.days > 0 && t.miles > -1.0 {
      assert Dollars(t.receiptCents) <= 50.0;
    }
  }

  /** The two scorer files agree on every trip when the receipts rates are
      the ones the fixed offsets were built from (0.3, 0.4, 0.3). */
  lemma VariantsAgreeAtBakedRates(t: Trip, c: Config, logs: LogBonus, ln: real -> real)
    requires c.receiptRates[0] == 0.3 && c.receiptRates[1] == 0.4 && c.receiptRates[2] == 0.3
    ensures Score(t, c, OffsetTiers, logs, ln) == Score(t, c, ProgressiveTiers, logs, ln)
  {
    if t.days > 0 && t.miles > -1.0 {
      OffsetMatchesProgressiveAtBakedRates(Dollars(t.receiptCents), c.receiptRates);
    }
  }

  /** Five days, 900 miles, 45.00 dollars: no rounding-bug bonus; the
      five-day and the miles thresholds apply, the receipts and the
      efficiency (180 miles a day) thresholds do not. */
  lemma FiveDayTripScenario(c: Config, tiers: ReceiptTiers, logs: LogBonus, ln: real -> real)
    ensures Engineer(Trip(5, 900.0, 4500), ln).Success?
    ensures var f := Engineer(Trip(5, 900.0, 4500), ln).value;
            && !f.receiptEnds49Or99
            && ThresholdFactor(f, c) == c.fiveDayMultiplier * c.milesThresholdMultiplier
    ensures Score(Trip(5, 900.0, 4500), c, tiers, logs, ln).Success?
  {
    var f := Engineer(Trip(5, 900.0, 4500), ln).value;
    assert f.milesPerDay == 180.0;
    assert f.receipts == 45.0;
  }

  /** One day, 850 miles, 300.49 dollars: cluster 0 and the rounding-bug
      bonus both apply; the log bonus takes log(851) as written and
      log(301.49) when corrected. */
  lemma OneDayBugScenario(c: Config, tiers: ReceiptTiers, logs: LogBonus, ln: real -> real)
    ensures Engineer(Trip(1, 850.0, 30049), ln).Success?
    ensures var f := Engineer(Trip(1, 850.0, 30049), ln).value;
            && f.receiptEnds49Or99
            && DetermineCluster(f) == 0
            && PreClamp(f, c, tiers, logs)
               == ApplyThresholds(BaseReimbursement(tiers, 1, 850.0, 300.49, c) * c.clusterMultipliers[0], f, c)
                  * (1.0 + c.bugMultiplier) + c.bugBaseBonus
                  + (300.49 * c.interactionCoeff
                     + (if logs == AsWritten then ln(851.0) else ln(301.49)) * c.logBonusCoeff)
  {
    var f := Engineer(Trip(1, 850.0, 30049), ln).value;
    assert f.milesPerDay == 850.0;
    assert f.receipts == 300.49;
    var scaled := BaseReimbursement(tiers, 1, 850.0, 300.49, c) * c.clusterMultipliers[0];
    RoundingBugIsAffine(ApplyThresholds(scaled, f, c), true, c);
    ThresholdsReadOnlyTheirConditions(scaled, f.(logReceipts := f.logMiles), f, c);
  }
}
