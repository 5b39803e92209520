/** The tunable constants of the scorer (`ModelConfig` in both scorer files). */
module Config {

  /** Every scalar and small vector the scorer reads. Rates and multipliers are
      fixed-length sequences: 3 mileage rates, 4 receipt rates, 6 cluster
      multipliers. */
  datatype ModelConfig = ModelConfig(
    basePerDiem: real,
    mileageRates: seq<real>,
    receiptRates: seq<real>,
    clusterMultipliers: seq<real>,
    vacationBonusMultiplier: real,
    vacationBaseMultiplier: real,
    fiveDayMultiplier: real,
    receiptThresholdMultiplier: real,
    efficiencyThresholdMultiplier: real,
    milesThresholdMultiplier: real,
    interactionCoeff: real,
    logBonusCoeff: real,
    bugBaseBonus: real,
    bugMultiplier: real)
  {
    /** The vector lengths every `ModelConfig()` constructor call produces. */
    predicate WellShaped() {
      |mileageRates| == 3 && |receiptRates| == 4 && |clusterMultipliers| == 6
    }
  }

  /** Configurations as the source builds them: the vectors have their fixed lengths. */
  type Config = c: ModelConfig | c.WellShaped()
    witness ModelConfig(0.0, [0.0, 0.0, 0.0], [0.0, 0.0, 0.0, 0.0], [0.0, 0.0, 0.0, 0.0, 0.0, 0.0],
                        0.0, 0.0, 0.0, 0.0, 0.0, 0.0, 0.0, 0.0, 0.0, 0.0)

  /** How the receipts subtotal is computed: the base scorer's fixed dollar
      offsets, or the optimized scorer's progressive bracket. */
  datatype ReceiptTiers = OffsetTiers | ProgressiveTiers

  /** Which logarithm feeds the log bonus: position 32 of the feature vector
      (log of miles + 1), as both scorer files read it, or log of receipts + 1,
      as the variable `log_receipts` is named. */
  datatype LogBonus = AsWritten | Corrected

  /** `ModelConfig()` of calculate_reimbursement.py (five-decimal constants). */
  const BaseDefaults: Config := ModelConfig(
    basePerDiem := 45.51959,
    mileageRates := [0.78707, 0.45114, 0.20083],
    receiptRates := [0.39998, 0.30454, 0.43686, 0.12188],
    clusterMultipliers := [1.14757, 1.11176, 1.20275, 1.19116, 1.07688, 1.21401],
    vacationBonusMultiplier := 1.04678,
    vacationBaseMultiplier := 1.07235,
    fiveDayMultiplier := 1.08250,
    receiptThresholdMultiplier := 1.19667,
    efficiencyThresholdMultiplier := 1.01898,
    milesThresholdMultiplier := 1.02133,
    interactionCoeff := 0.00055520,
    logBonusCoeff := 5.12776,
    bugBaseBonus := 20.69937,
    bugMultiplier := 0.00617)

  /** `ModelConfig()` of calculate_reimbursement_optimized.py (full precision). */
  const OptimizedDefaults: Config := ModelConfig(
    basePerDiem := 45.5195880490612,
    mileageRates := [0.787071175593883, 0.45114227601327, 0.200831651920261],
    receiptRates := [0.399975746217208, 0.3045420665708, 0.436856841815577, 0.121882355942393],
    clusterMultipliers := [1.14756663634639, 1.11176444876928, 1.20275399349877,
                           1.19116480573546, 1.07688362098627, 1.2140054738624],
    vacationBonusMultiplier := 1.04678047616035,
    vacationBaseMultiplier := 1.07234985943884,
    fiveDayMultiplier := 1.08250167328268,
    receiptThresholdMultiplier := 1.19666525936238,
    efficiencyThresholdMultiplier := 1.01898035206799,
    milesThresholdMultiplier := 1.02133465968143,
    interactionCoeff := 0.000555204802994334,
    logBonusCoeff := 5.12776389976777,
    bugBaseBonus := 20.6993690179661,
    bugMultiplier := 0.00616844543255866)
}
