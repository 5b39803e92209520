/** `evaluate_config` of train_parameters.py: the mean absolute error of a
    configuration over the training cases, a failing case costing 1000. */
module Evaluation {
  import opened Wrappers
  import opened RealMath
  import opened Config
  import opened Features
  import opened Scorer

  /** The harness's own failures: `statistics.mean` of no errors, and a grid
      with no combination to report. */
  datatype TrainError = EmptyDataset | NoCandidates

  /** The error charged for a case whose scoring raises. */
  const FailurePenalty: real := 1000.0

  /** The harness scores with calculate_reimbursement.py, the fixed-offset variant. */
  const HarnessTiers: ReceiptTiers := OffsetTiers

  /** That file's log bonus reads position 32 of the feature vector, the log
      of miles + 1, and the harness scores with it as written. */
  const HarnessLogs: LogBonus := AsWritten

  /** The number of (input, target) pairs `zip` produces. */
  function CaseCount(trips: seq<Trip>, targets: seq<real>): nat {
    if |trips| <= |targets| then |trips| else |targets|
  }

  /** One case's error: the distance to the target, or the penalty when the
      scorer raises (zero or negative days, miles at or below -1). */
  function CaseError(t: Trip, target: real, c: Config, ln: real -> real): (e: real)
    ensures e >= 0.0
    ensures !(t.days > 0 && t.miles > -1.0) ==> e == FailurePenalty
    ensures t.days > 0 && t.miles > -1.0
            ==> e == Abs(Score(t, c, HarnessTiers, HarnessLogs, ln).value - target)
  {
    match Score(t, c, HarnessTiers, HarnessLogs, ln)
    case Success(prediction) => Abs(prediction - target)
    case Failure(_) => FailurePenalty
  }

  /** The per-case errors, in case order. */
  function Errors(trips: seq<Trip>, targets: seq<real>, c: Config, ln: real -> real): (errs: seq<real>)
    ensures |errs| == CaseCount(trips, targets)
    ensures forall i :: 0 <= i < |errs| ==> errs[i] == CaseError(trips[i], targets[i], c, ln)
  {
    seq(CaseCount(trips, targets), i requires 0 <= i < CaseCount(trips, targets) =>
      CaseError(trips[i], targets[i], c, ln))
  }

  /** Left-to-right sum, the order in which the loop accumulates. */
  function Sum(s: seq<real>): real
    decreases |s|
  {
    if |s| == 0 then 0.0 else Sum(s[..|s| - 1]) + s[|s| - 1]
  }

  /** `evaluate_config`: the mean of the per-case errors; with no cases
      `statistics.mean` raises. */
  function EvaluateConfig(trips: seq<Trip>, targets: seq<real>, c: Config, ln: real -> real)
    : (r: Result<real, TrainError>)
    ensures r.Failure? <==> CaseCount(trips, targets) == 0
    ensures r.Failure? ==> r.error == EmptyDataset
    ensures r.Success? ==> r.value >= 0.0
  {
    var errs := Errors(trips, targets, c, ln);
    if |errs| == 0 then Failure(EmptyDataset)
    else
      MeanNonNegative(errs);
      Success(Mean(errs))
  }

  /** `statistics.mean` of a non-empty sequence: the exact arithmetic mean. */
  function Mean(s: seq<real>): real
    requires |s| > 0
  {
    Sum(s) / (|s| as real)
  }

  lemma MeanNonNegative(s: seq<real>)
    requires |s| > 0
    requires forall i :: 0 <= i < |s| ==> s[i] >= 0.0
    ensures Mean(s) >= 0.0
  {
    SumBounds(s, 0.0);
    DivCompare(Sum(s), |s| as real, 0.0);
  }

  /** `evaluate_config` collects each zipped pair's error (the penalty on
      failure) into a list and takes `statistics.mean` of it. This is a
      running-sum reformulation of that loop, proved equal to
      `EvaluateConfig`. */
  method EvaluateConfigLoop(trips: seq<Trip>, targets: seq<real>, c: Config, ln: real -> real)
    returns (r: Result<real, TrainError>)
    ensures r == EvaluateConfig(trips, targets, c, ln)
  {
    var n := CaseCount(trips, targets);
    ghost var errs := Errors(trips, targets, c, ln);
    var total := 0.0;
    var i := 0;
    while i < n
      invariant 0 <= i <= n
      invariant total == Sum(errs[..i])
    {
      var e;
      match Score(trips[i], c, HarnessTiers, HarnessLogs, ln) {
        case Success(prediction) => e := Abs(prediction - targets[i]);
        case Failure(_) => e := FailurePenalty;
      }
      assert errs[..i + 1][..i] == errs[..i];
      total := total + e;
      i := i + 1;
    }
    assert errs[..n] == errs;
    if n == 0 {
      r := Failure(EmptyDataset);
    } else {
      r := Success(total / (n as real));
      assert r.value == Mean(errs);
    }
  }

  /** Every term at least `lo` puts the sum at least `n * lo`. */
  lemma {:induction false} SumBounds(s: seq<real>, lo: real)
    requires forall i :: 0 <= i < |s| ==> lo <= s[i]
    ensures (|s| as real) * lo <= Sum(s)
    decreases |s|
  {
    if |s| > 0 {
      SumBounds(s[..|s| - 1], lo);
    }
  }

  /** Every term at most `hi` puts the sum at most `n * hi`. */
  lemma {:induction false} SumAtMost(s: seq<real>, hi: real)
    requires forall i :: 0 <= i < |s| ==> s[i] <= hi
    ensures Sum(s) <= (|s| as real) * hi
    decreases |s|
  {
    if |s| > 0 {
      SumAtMost(s[..|s| - 1], hi);
    }
  }

  /** A sum of non-negative terms is zero exactly when every term is. */
  lemma {:induction false} SumZeroIff(s: seq<real>)
    requires forall i :: 0 <= i < |s| ==> s[i] >= 0.0
    ensures Sum(s) == 0.0 <==> forall i :: 0 <= i < |s| ==> s[i] == 0.0
    decreases |s|
  {
    if |s| > 0 {
      var init := s[..|s| - 1];
      SumZeroIff(init);
      SumBounds(init, 0.0);
      if Sum(s) == 0.0 {
        forall i | 0 <= i < |s|
          ensures s[i] == 0.0
        {
          if i < |s| - 1 {
            assert s[i] == init[i];
          }
        }
      }
    }
  }

  /** The mean lies between the smallest and the largest per-case error. */
  lemma MeanBetweenExtremes(trips: seq<Trip>, targets: seq<real>, c: Config, ln: real -> real,
                            lo: real, hi: real)
    requires CaseCount(trips, targets) > 0
    requires forall i :: 0 <= i < CaseCount(trips, targets)
               ==> lo <= CaseError(trips[i], targets[i], c, ln) <= hi
    ensures lo <= EvaluateConfig(trips, targets, c, ln).value <= hi
  {
    MeanBetween(Errors(trips, targets, c, ln), lo, hi);
  }

  /** A mean lies between any lower and upper bound of its terms. */
  lemma MeanBetween(s: seq<real>, lo: real, hi: real)
    requires |s| > 0
    requires forall i :: 0 <= i < |s| ==> lo <= s[i] <= hi
    ensures lo <= Mean(s) <= hi
  {
    SumBounds(s, lo);
    SumAtMost(s, hi);
    DivCompare(Sum(s), |s| as real, lo);
    DivCompare(Sum(s), |s| as real, hi);
  }

  /** The mean error is zero exactly when every case is scored without
      failure and lands exactly on its target. */
  lemma MeanZeroIffExact(trips: seq<Trip>, targets: seq<real>, c: Config, ln: real -> real)
    requires CaseCount(trips, targets) > 0
    ensures EvaluateConfig(trips, targets, c, ln).value == 0.0
            <==> forall i :: 0 <= i < CaseCount(trips, targets)
                   ==> Score(trips[i], c, HarnessTiers, HarnessLogs, ln) == Success(targets[i])
  {
    var errs := Errors(trips, targets, c, ln);
    assert EvaluateConfig(trips, targets, c, ln).value == Mean(errs);
    SumZeroIff(errs);
    MeanZeroIffSumZero(errs);
    forall i | 0 <= i < |errs|
      ensures errs[i] == 0.0 <==> Score(trips[i], c, HarnessTiers, HarnessLogs, ln) == Success(targets[i])
    {
      ExactIffZero(trips[i], targets[i], c, ln);
    }
  }

  /** A mean is zero exactly when the sum is. */
  lemma MeanZeroIffSumZero(s: seq<real>)
    requires |s| > 0
    ensures Mean(s) == 0.0 <==> Sum(s) == 0.0
  {
    var n := |s| as real;
    if Mean(s) == 0.0 {
      assert Sum(s) == Mean(s) * n;
    }
  }

  /** A case costs nothing exactly when it is scored and hits its target. */
  lemma ExactIffZero(t: Trip, target: real, c: Config, ln: real -> real)
    ensures CaseError(t, target, c, ln) == 0.0 <==> Score(t, c, HarnessTiers, HarnessLogs, ln) == Success(target)
  {
  }

  /** When no case can be scored the mean is the penalty itself. */
  lemma AllFailingCostsThePenalty(trips: seq<Trip>, targets: seq<real>, c: Config, ln: real -> real)
    requires CaseCount(trips, targets) > 0
    requires forall i :: 0 <= i < CaseCount(trips, targets) ==> !(trips[i].days > 0 && trips[i].miles > -1.0)
    ensures EvaluateConfig(trips, targets, c, ln) == Success(FailurePenalty)
  {
    MeanBetweenExtremes(trips, targets, c, ln, FailurePenalty, FailurePenalty);
  }
}
