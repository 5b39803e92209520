/** The piecewise mileage and receipts subtotals of `calculate_base_reimbursement`. */
module Tiers {
  import opened RealMath
  import Config

  /** The part of `x` that falls in the first band, below `hi`. A negative `x`
      counts in full, as the source's first branch does. */
  function Below(x: real, hi: real): real {
    if x <= hi then x else hi
  }

  /** The part of `x` that falls in the band (lo, hi]. */
  function Band(x: real, lo: real, hi: real): real
    requires lo <= hi
  {
    if x <= lo then 0.0 else if x <= hi then x - lo else hi - lo
  }

  /** The part of `x` above `lo`. */
  function Above(x: real, lo: real): real {
    if x <= lo then 0.0 else x - lo
  }

  /** Each band's share is non-decreasing in `x` and moves by at most as much as `x`. */
  lemma BandsAreMonotoneAndLipschitz(x: real, y: real, lo: real, hi: real)
    requires x <= y && lo <= hi
    ensures Below(x, hi) <= Below(y, hi) && Below(y, hi) - Below(x, hi) <= y - x
    ensures Band(x, lo, hi) <= Band(y, lo, hi) && Band(y, lo, hi) - Band(x, lo, hi) <= y - x
    ensures Above(x, lo) <= Above(y, lo) && Above(y, lo) - Above(x, lo) <= y - x
  {
  }

  /** Mileage: the first 100 miles at rate 0, miles up to 500 at rate 1, the
      rest at rate 2, each breakpoint belonging to the lower tier. */
  function MileageTier(miles: real, rates: seq<real>): (r: real)
    requires |rates| == 3
    ensures r == rates[0] * Below(miles, 100.0) + rates[1] * Band(miles, 100.0, 500.0)
                 + rates[2] * Above(miles, 500.0)
  {
    if miles <= 100.0 then miles * rates[0]
    else if miles <= 500.0 then 100.0 * rates[0] + (miles - 100.0) * rates[1]
    else 100.0 * rates[0] + 400.0 * rates[1] + (miles - 500.0) * rates[2]
  }

  /** Receipts in the optimized scorer: a true progressive bracket with
      breakpoints 50, 500 and 1500, each belonging to the lower tier. */
  function ProgressiveReceiptTier(receipts: real, rates: seq<real>): (r: real)
    requires |rates| == 4
    ensures r == rates[0] * Below(receipts, 50.0) + rates[1] * Band(receipts, 50.0, 500.0)
                 + rates[2] * Band(receipts, 500.0, 1500.0) + rates[3] * Above(receipts, 1500.0)
  {
    if receipts <= 50.0 then receipts * rates[0]
    else if receipts <= 500.0 then 50.0 * rates[0] + (receipts - 50.0) * rates[1]
    else if receipts <= 1500.0 then
      50.0 * rates[0] + 450.0 * rates[1] + (receipts - 500.0) * rates[2]
    else
      50.0 * rates[0] + 450.0 * rates[1] + 1000.0 * rates[2] + (receipts - 1500.0) * rates[3]
  }

  /** How far the fixed offsets 15, 15+180 and 15+180+300 stand from what the
      rates below each breakpoint would have accumulated. */
  function OffsetDeviation(receipts: real, rates: seq<real>): real
    requires |rates| == 4
  {
    (if receipts > 50.0 then 15.0 - 50.0 * rates[0] else 0.0)
    + (if receipts > 500.0 then 180.0 - 450.0 * rates[1] else 0.0)
    + (if receipts > 1500.0 then 300.0 - 1000.0 * rates[2] else 0.0)
  }

  /** Receipts in the base scorer: above 50 dollars each tier starts from a
      fixed dollar offset instead of from the lower tiers' accumulated total. */
  function OffsetReceiptTier(receipts: real, rates: seq<real>): (r: real)
    requires |rates| == 4
    ensures r == ProgressiveReceiptTier(receipts, rates) + OffsetDeviation(receipts, rates)
  {
    if receipts <= 50.0 then receipts * rates[0]
    else if receipts <= 500.0 then 15.0 + (receipts - 50.0) * rates[1]
    else if receipts <= 1500.0 then 15.0 + 180.0 + (receipts - 500.0) * rates[2]
    else 15.0 + 180.0 + 300.0 + (receipts - 1500.0) * rates[3]
  }

  /** The receipts subtotal of the chosen scorer. */
  function ReceiptTier(tiers: Config.ReceiptTiers, receipts: real, rates: seq<real>): real
    requires |rates| == 4
  {
    match tiers
    case OffsetTiers => OffsetReceiptTier(receipts, rates)
    case ProgressiveTiers => ProgressiveReceiptTier(receipts, rates)
  }

  /** Between two distances the mileage changes tier by tier: each tier
      contributes its rate times the miles it gained, and no tier gains more
      than the distance grew. */
  lemma MileageBands(x: real, y: real, rates: seq<real>)
    requires |rates| == 3 && x <= y
    ensures var d0, d1, d2 := Below(y, 100.0) - Below(x, 100.0),
                              Band(y, 100.0, 500.0) - Band(x, 100.0, 500.0),
                              Above(y, 500.0) - Above(x, 500.0);
            0.0 <= d0 <= y - x && 0.0 <= d1 <= y - x && 0.0 <= d2 <= y - x
            && MileageTier(y, rates) - MileageTier(x, rates)
               == (rates[0] * d0 + rates[1] * d1) + rates[2] * d2
  {
    BandsAreMonotoneAndLipschitz(x, y, 100.0, 500.0);
    assert rates[0] * Below(y, 100.0) - rates[0] * Below(x, 100.0)
        == rates[0] * (Below(y, 100.0) - Below(x, 100.0));
    assert rates[1] * Band(y, 100.0, 500.0) - rates[1] * Band(x, 100.0, 500.0)
        == rates[1] * (Band(y, 100.0, 500.0) - Band(x, 100.0, 500.0));
    assert rates[2] * Above(y, 500.0) - rates[2] * Above(x, 500.0)
        == rates[2] * (Above(y, 500.0) - Above(x, 500.0));
  }

  /** With non-negative rates, more miles never reimburse less, and the
      mileage grows by at most the sum of the rates per extra mile: there is
      no jump at 100 or at 500 miles. */
  lemma MileageGrowth(x: real, y: real, rates: seq<real>)
    requires |rates| == 3 && x <= y
    requires rates[0] >= 0.0 && rates[1] >= 0.0 && rates[2] >= 0.0
    ensures 0.0 <= MileageTier(y, rates) - MileageTier(x, rates)
                <= (rates[0] + rates[1] + rates[2]) * (y - x)
  {
    MileageBands(x, y, rates);
    WeightedGrowth3(rates[0], rates[1], rates[2],
                    Below(y, 100.0) - Below(x, 100.0),
                    Band(y, 100.0, 500.0) - Band(x, 100.0, 500.0),
                    Above(y, 500.0) - Above(x, 500.0),
                    MileageTier(y, rates) - MileageTier(x, rates), y - x);
  }

  /** The progressive bracket's change between two amounts, tier by tier. */
  lemma ProgressiveBands(x: real, y: real, rates: seq<real>)
    requires |rates| == 4 && x <= y
    ensures var d0, d1, d2, d3 := Below(y, 50.0) - Below(x, 50.0),
                                  Band(y, 50.0, 500.0) - Band(x, 50.0, 500.0),
                                  Band(y, 500.0, 1500.0) - Band(x, 500.0, 1500.0),
                                  Above(y, 1500.0) - Above(x, 1500.0);
            0.0 <= d0 <= y - x && 0.0 <= d1 <= y - x && 0.0 <= d2 <= y - x && 0.0 <= d3 <= y - x
            && ProgressiveReceiptTier(y, rates) - ProgressiveReceiptTier(x, rates)
               == (rates[0] * d0 + rates[1] * d1) + (rates[2] * d2 + rates[3] * d3)
  {
    BandsAreMonotoneAndLipschitz(x, y, 50.0, 500.0);
    BandsAreMonotoneAndLipschitz(x, y, 500.0, 1500.0);
    assert rates[0] * Below(y, 50.0) - rates[0] * Below(x, 50.0)
        == rates[0] * (Below(y, 50.0) - Below(x, 50.0));
    assert rates[1] * Band(y, 50.0, 500.0) - rates[1] * Band(x, 50.0, 500.0)
        == rates[1] * (Band(y, 50.0, 500.0) - Band(x, 50.0, 500.0));
    assert rates[2] * Band(y, 500.0, 1500.0) - rates[2] * Band(x, 500.0, 1500.0)
        == rates[2] * (Band(y, 500.0, 1500.0) - Band(x, 500.0, 1500.0));
    assert rates[3] * Above(y, 1500.0) - rates[3] * Above(x, 1500.0)
        == rates[3] * (Above(y, 1500.0) - Above(x, 1500.0));
  }

  /** With non-negative rates, more receipts never reimburse less under the
      progressive bracket. */
  lemma ProgressiveReceiptMonotone(x: real, y: real, rates: seq<real>)
    requires |rates| == 4 && x <= y
    requires rates[0] >= 0.0 && rates[1] >= 0.0 && rates[2] >= 0.0 && rates[3] >= 0.0
    ensures ProgressiveReceiptTier(x, rates) <= ProgressiveReceiptTier(y, rates)
  {
    BandsAreMonotoneAndLipschitz(x, y, 50.0, 500.0);
    BandsAreMonotoneAndLipschitz(x, y, 500.0, 1500.0);
    WeightedSumMonotone4(rates[0], rates[1], rates[2], rates[3],
                         Below(x, 50.0), Band(x, 50.0, 500.0), Band(x, 500.0, 1500.0), Above(x, 1500.0),
                         Below(y, 50.0), Band(y, 50.0, 500.0), Band(y, 500.0, 1500.0), Above(y, 1500.0));
  }

  /** The progressive bracket has no jump at 50, 500 or 1500: with
      non-negative rates it grows by at most the sum of the rates per extra
      dollar. */
  lemma ProgressiveReceiptSlope(x: real, y: real, rates: seq<real>)
    requires |rates| == 4 && x <= y
    requires rates[0] >= 0.0 && rates[1] >= 0.0 && rates[2] >= 0.0 && rates[3] >= 0.0
    ensures ProgressiveReceiptTier(y, rates) - ProgressiveReceiptTier(x, rates)
            <= (rates[0] + rates[1] + rates[2] + rates[3]) * (y - x)
  {
    ProgressiveBands(x, y, rates);
    WeightedUpperBound4(rates[0], rates[1], rates[2], rates[3],
                        Below(y, 50.0) - Below(x, 50.0),
                        Band(y, 50.0, 500.0) - Band(x, 50.0, 500.0),
                        Band(y, 500.0, 1500.0) - Band(x, 500.0, 1500.0),
                        Above(y, 1500.0) - Above(x, 1500.0), y - x);
  }

  /** A value exactly at a breakpoint is charged entirely at the tiers below
      it: the rates above the breakpoint do not matter there. */
  lemma BreakpointsBelongToLowerTier(receiptRates: seq<real>, mileageRates: seq<real>, a: real, b: real, c: real)
    requires |receiptRates| == 4 && |mileageRates| == 3
    ensures ProgressiveReceiptTier(50.0, receiptRates) == 50.0 * receiptRates[0]
    ensures ProgressiveReceiptTier(50.0, receiptRates)
            == ProgressiveReceiptTier(50.0, receiptRates[1 := a][2 := b][3 := c])
    ensures ProgressiveReceiptTier(500.0, receiptRates) == ProgressiveReceiptTier(500.0, receiptRates[2 := b][3 := c])
    ensures ProgressiveReceiptTier(1500.0, receiptRates) == ProgressiveReceiptTier(1500.0, receiptRates[3 := c])
    ensures MileageTier(100.0, mileageRates) == 100.0 * mileageRates[0]
    ensures MileageTier(100.0, mileageRates) == MileageTier(100.0, mileageRates[1 := a][2 := b])
    ensures MileageTier(500.0, mileageRates) == MileageTier(500.0, mileageRates[2 := b])
  {
  }

  /** Between 50 and 500 dollars the base scorer's receipts subtotal is
      15 plus the excess over 50 at rate 1, whatever rate 0 is. */
  lemma OffsetIgnoresFirstRateAbove50(receipts: real, rates: seq<real>, r0: real)
    requires |rates| == 4 && 50.0 < receipts <= 500.0
    ensures OffsetReceiptTier(receipts, rates) == 15.0 + (receipts - 50.0) * rates[1]
    ensures OffsetReceiptTier(receipts, rates) == OffsetReceiptTier(receipts, rates[0 := r0])
  {
  }

  /** The offsets are exactly what rates 0.3, 0.4 and 0.3 accumulate; with
      those rates the two receipt schemes coincide everywhere. */
  lemma OffsetMatchesProgressiveAtBakedRates(receipts: real, rates: seq<real>)
    requires |rates| == 4 && rates[0] == 0.3 && rates[1] == 0.4 && rates[2] == 0.3
    ensures OffsetReceiptTier(receipts, rates) == ProgressiveReceiptTier(receipts, rates)
  {
  }

  /** If 50 * rate 0 equals the offset 15, the base scorer's receipts subtotal
      is continuous at 50 (Lipschitz on [0, 500]). */
  lemma OffsetContinuousAt50(receipts: real, rates: seq<real>)
    requires |rates| == 4 && 50.0 * rates[0] == 15.0 && receipts <= 500.0
    ensures Abs(OffsetReceiptTier(receipts, rates) - OffsetReceiptTier(50.0, rates))
            <= (Abs(rates[0]) + Abs(rates[1])) * Abs(receipts - 50.0)
  {
    if receipts <= 50.0 {
      OffsetStepBelow50(receipts, rates);
      WiderRateBound(rates[0], rates[1], receipts - 50.0);
    } else {
      OffsetStepAbove50(receipts, rates);
      WiderRateBound(rates[1], rates[0], receipts - 50.0);
    }
  }

  /** At or below 50 the base scorer's receipts subtotal moves at rate 0. */
  lemma OffsetStepBelow50(x: real, rates: seq<real>)
    requires |rates| == 4 && x <= 50.0
    ensures OffsetReceiptTier(x, rates) - OffsetReceiptTier(50.0, rates) == rates[0] * (x - 50.0)
  {
  }

  lemma WiderRateBound(k: real, other: real, d: real)
    ensures Abs(k * d) <= (Abs(k) + Abs(other)) * Abs(d)
  {
    MulAbsBound(k, d, Abs(d));
    MulMonotone(Abs(d), Abs(k), Abs(k) + Abs(other));
  }

  /** Just above 50 the base scorer's receipts subtotal differs from its value
      at 50 by the jump 15 - 50 * rate 0 plus the slope of the second tier. */
  lemma OffsetStepAbove50(x: real, rates: seq<real>)
    requires |rates| == 4 && 50.0 < x <= 500.0
    ensures OffsetReceiptTier(x, rates) - OffsetReceiptTier(50.0, rates)
            == (15.0 - 50.0 * rates[0]) + (x - 50.0) * rates[1]
  {
  }

  /** Otherwise it jumps at 50: arbitrarily close above 50 the subtotal stays
      at least half the jump 15 - 50 * rate 0 away from its value at 50. */
  lemma OffsetDiscontinuousAt50(rates: seq<real>, delta: real)
    requires |rates| == 4 && 50.0 * rates[0] != 15.0 && delta > 0.0
    ensures exists x: real :: 50.0 < x < 50.0 + delta
              && Abs(OffsetReceiptTier(x, rates) - OffsetReceiptTier(50.0, rates))
                 >= Abs(15.0 - 50.0 * rates[0]) / 2.0
  {
    var h := Min(Min(delta / 2.0, Abs(15.0 - 50.0 * rates[0]) / (2.0 * (Abs(rates[1]) + 1.0))), 450.0);
    SmallSlopeKeepsJump(15.0 - 50.0 * rates[0], rates[1], h);
    OffsetStepAbove50(50.0 + h, rates);
    assert 50.0 < 50.0 + h < 50.0 + delta;
  }

  /** With the base scorer's own default rates, one more cent above 50
      dollars lowers the receipts subtotal by almost five dollars. */
  lemma OffsetDropsAt50WithBaseDefaults()
    ensures OffsetReceiptTier(50.01, Config.BaseDefaults.receiptRates)
            < OffsetReceiptTier(50.0, Config.BaseDefaults.receiptRates) - 4.9
  {
  }

  /** The optimized scorer's own receipts rates are all non-negative, so its
      bracket never lowers the subtotal as receipts grow and adds at most
      1.3 dollars per extra dollar. */
  lemma OptimizedDefaultsReceiptsAreMonotone(x: real, y: real)
    requires x <= y
    ensures ProgressiveReceiptTier(x, Config.OptimizedDefaults.receiptRates)
            <= ProgressiveReceiptTier(y, Config.OptimizedDefaults.receiptRates)
    ensures ProgressiveReceiptTier(y, Config.OptimizedDefaults.receiptRates)
            - ProgressiveReceiptTier(x, Config.OptimizedDefaults.receiptRates) <= 1.3 * (y - x)
  {
    var rates := Config.OptimizedDefaults.receiptRates;
    ProgressiveReceiptMonotone(x, y, rates);
    ProgressiveReceiptSlope(x, y, rates);
    MulMonotone(y - x, rates[0] + rates[1] + rates[2] + rates[3], 1.3);
  }
}
