/** `engineer_features`, restricted to the features the score consumes. */
module Features {
  import opened Wrappers
  import opened RealMath

  /** One trip as the scorer receives it: whole days, miles, and the receipts
      total in whole cents (so the cents test is exact). */
  datatype Trip = Trip(days: int, miles: real, receiptCents: nat)

  /** Receipts in dollars. */
  function Dollars(cents: nat): real {
    cents as real / 100.0
  }

  /** The exceptions the scorer raises: division by a zero duration, or
      `math.log` of a non-positive argument. */
  datatype ScoreError = ZeroDivision | MathDomain

  /** The features the later scoring stages read. */
  datatype Features = Features(
    days: int,
    miles: real,
    receipts: real,
    receiptsPerDay: real,
    milesPerDay: real,
    highSpending: bool,
    receiptEnds49Or99: bool,
    isFiveDayTrip: bool,
    vacationPenalty: bool,
    durationSpendingInteraction: real,
    logMiles: real,
    logReceipts: real)

  /** The rounding-bug trigger: the receipts' cents are 49 or 99. */
  predicate EndsIn49Or99(cents: nat) {
    cents % 100 in {49, 99}
  }

  /** What the derived features mean, phrased over the trip's integers and
      without any division. */
  ghost predicate FeaturesOf(t: Trip, f: Features, ln: real -> real) {
    && f.days == t.days && f.miles == t.miles && f.receipts == Dollars(t.receiptCents)
    && f.milesPerDay * (t.days as real) == t.miles
    && f.receiptsPerDay * (t.days as real) == f.receipts
    && (f.isFiveDayTrip <==> t.days == 5)
    && (f.vacationPenalty <==> t.days >= 8 && t.receiptCents > 12000 * t.days)
    && (f.highSpending <==> t.receiptCents > 100000)
    && (f.receiptEnds49Or99 <==> t.receiptCents % 100 == 49 || t.receiptCents % 100 == 99)
    && f.durationSpendingInteraction == f.receipts
    && f.logMiles == ln(t.miles + 1.0)
    && f.logReceipts == ln(f.receipts + 1.0)
  }

  /** Computes the features, failing exactly where the source raises: a zero
      duration divides by zero, a negative duration or miles at or below -1
      take the logarithm of a non-positive number. */
  function Engineer(t: Trip, ln: real -> real): (r: Result<Features, ScoreError>)
    ensures r.Failure? <==> t.days <= 0 || t.miles <= -1.0
    ensures t.days == 0 ==> r == Failure(ZeroDivision)
    ensures t.days != 0 && r.Failure? ==> r.error == MathDomain
    ensures r.Success? ==> FeaturesOf(t, r.value, ln)
  {
    if t.days == 0 then Failure(ZeroDivision)
    else if t.days + 1 <= 0 || t.miles + 1.0 <= 0.0 then Failure(MathDomain)
    else
      var days := t.days as real;
      var receipts := Dollars(t.receiptCents);
      var receiptsPerDay := receipts / days;
      var milesPerDay := t.miles / days;
      VacationFlagInCents(t.receiptCents, t.days);
      Success(Features(
        days := t.days,
        miles := t.miles,
        receipts := receipts,
        receiptsPerDay := receiptsPerDay,
        milesPerDay := milesPerDay,
        highSpending := receipts > 1000.0,
        receiptEnds49Or99 := EndsIn49Or99(t.receiptCents),
        isFiveDayTrip := t.days == 5,
        vacationPenalty := t.days >= 8 && receiptsPerDay > 120.0,
        durationSpendingInteraction := days * receiptsPerDay,
        logMiles := ln(t.miles + 1.0),
        logReceipts := ln(receipts + 1.0)))
  }

  /** Receipts per day above 120 dollars means more than 12000 cents per day. */
  lemma VacationFlagInCents(cents: nat, days: int)
    requires days > 0
    ensures Dollars(cents) / (days as real) > 120.0 <==> cents > 12000 * days
  {
    DivCompare(Dollars(cents), days as real, 120.0);
    DivCompare(cents as real, 100.0, 120.0 * (days as real));
  }

  /** Any whole-dollar amount plus 49 or 99 cents sets the flag; whole dollars
      and half dollars do not. */
  lemma CentsEndings(dollars: nat)
    ensures EndsIn49Or99(100 * dollars + 49) && EndsIn49Or99(100 * dollars + 99)
    ensures !EndsIn49Or99(100 * dollars) && !EndsIn49Or99(100 * dollars + 50)
  {
    assert (100 * dollars + 49) % 100 == 49;
    assert (100 * dollars + 99) % 100 == 99;
    assert (100 * dollars) % 100 == 0;
    assert (100 * dollars + 50) % 100 == 50;
  }
}
