/** The final step of `calculate_reimbursement`: clamp to [50, 5000], then
    `round(x, 2)`, taken as round-half-to-even on the exact value. */
module Rounding {
  import opened RealMath

  const MinAmount: real := 50.0
  const MaxAmount: real := 5000.0

  /** `max(50.0, min(x, 5000.0))`. */
  function Clamp(x: real): (r: real)
    ensures MinAmount <= r <= MaxAmount
    ensures MinAmount <= x <= MaxAmount ==> r == x
    ensures x < MinAmount ==> r == MinAmount
    ensures x > MaxAmount ==> r == MaxAmount
  {
    Max(MinAmount, Min(x, MaxAmount))
  }

  /** Clamping twice is clamping once, and clamping keeps order. */
  lemma ClampIdempotentAndMonotone(x: real, y: real)
    ensures Clamp(Clamp(x)) == Clamp(x)
    ensures x <= y ==> Clamp(x) <= Clamp(y)
  {
  }

  /** `k` is `y` rounded to an integer with ties going to the even neighbour. */
  predicate NearestHalfEven(y: real, k: int) {
    && -0.5 <= k as real - y <= 0.5
    && ((k as real - y == 0.5 || k as real - y == -0.5) ==> k % 2 == 0)
  }

  /** Round half to even, from the floor and the fractional part. */
  function RoundHalfEven(y: real): (k: int)
    ensures NearestHalfEven(y, k)
  {
    var fl := y.Floor;
    var frac := y - fl as real;
    if frac < 0.5 then fl
    else if frac > 0.5 then fl + 1
    else if fl % 2 == 0 then fl
    else fl + 1
  }

  /** There is only one such integer, so `RoundHalfEven` is determined by
      its contract. */
  lemma NearestHalfEvenIsUnique(y: real, k: int)
    requires NearestHalfEven(y, k)
    ensures k == RoundHalfEven(y)
  {
  }

  /** `r` is a whole number of cents. */
  predicate IsWholeCents(r: real) {
    (r * 100.0).Floor as real == r * 100.0
  }

  /** `r` is `x` rounded to whole cents, ties going to an even number of cents. */
  predicate RoundsToCents(x: real, r: real) {
    IsWholeCents(r) && NearestHalfEven(x * 100.0, (r * 100.0).Floor)
  }

  /** `round(x, 2)`: the nearest multiple of a cent, ties to an even number of cents. */
  function RoundToCents(x: real): (r: real)
    ensures RoundsToCents(x, r)
    ensures Abs(r - x) <= 0.005
    ensures MinAmount <= x <= MaxAmount ==> MinAmount <= r <= MaxAmount
  {
    RoundHalfEven(x * 100.0) as real / 100.0
  }

  /** A whole number of cents is left alone, so rounding twice is rounding once. */
  lemma RoundToCentsFixesCents(cents: int)
    ensures RoundToCents(cents as real / 100.0) == cents as real / 100.0
  {
    NearestHalfEvenIsUnique(cents as real / 100.0 * 100.0, cents);
  }

  /** Only one amount of whole cents rounds `x`, so `RoundToCents` is
      determined by its contract. */
  lemma RoundsToCentsIsUnique(x: real, r: real)
    requires RoundsToCents(x, r)
    ensures r == RoundToCents(x)
  {
    NearestHalfEvenIsUnique(x * 100.0, (r * 100.0).Floor);
  }

  lemma RoundToCentsIdempotent(x: real)
    ensures RoundToCents(RoundToCents(x)) == RoundToCents(x)
  {
    RoundToCentsFixesCents(RoundHalfEven(x * 100.0));
  }
}
