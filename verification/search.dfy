/** The grid loop of `optimize_parameters`: evaluate every candidate in
    enumeration order and keep the best so far under a strict `<`. */
module Search {
  import opened Wrappers
  import opened Config
  import opened Features
  import opened Grid
  import opened Evaluation

  /** `k` is the first position holding the smallest value. */
  predicate IsFirstArgmin(errs: seq<real>, k: nat) {
    && k < |errs|
    && (forall j :: 0 <= j < |errs| ==> errs[k] <= errs[j])
    && (forall j :: 0 <= j < k ==> errs[j] > errs[k])
  }

  /** The position the loop keeps after seeing `errs`: `None` stands for the
      initial infinite `best_error`, which every finite error beats; after
      that a later error replaces the best only when strictly smaller. */
  function BestIndex(errs: seq<real>): (r: Option<nat>)
    ensures r.None? <==> |errs| == 0
    ensures r.Some? ==> IsFirstArgmin(errs, r.value)
    decreases |errs|
  {
    if |errs| == 0 then None
    else
      var last := |errs| - 1;
      match BestIndex(errs[..last])
      case None => Some(last)
      case Some(b) => if errs[last] < errs[b] then Some(last) else Some(b)
  }

  /** The first minimum is unique, so `BestIndex` is exactly the first argmin. */
  lemma BestIndexIff(errs: seq<real>, k: nat)
    ensures BestIndex(errs) == Some(k) <==> IsFirstArgmin(errs, k)
  {
  }

  /** The best error only goes down as the loop advances. */
  lemma BestErrorNonIncreasing(errs: seq<real>, i: nat, j: nat)
    requires 0 < i <= j <= |errs|
    ensures BestIndex(errs[..i]).Some? && BestIndex(errs[..j]).Some?
    ensures errs[BestIndex(errs[..j]).value] <= errs[BestIndex(errs[..i]).value]
  {
    var bi := BestIndex(errs[..i]).value;
    var bj := BestIndex(errs[..j]).value;
    assert errs[..j][bi] == errs[..i][bi];
  }

  /** What the loop leaves behind: the position of the best combination in
      the enumeration, its error, its parameter values and its configuration. */
  datatype SearchOutcome = SearchOutcome(index: nat, error: real, params: seq<real>, config: Config)

  /** Every combination of five ranges has five values. */
  lemma CombinationsHaveFive(ranges: seq<seq<real>>)
    requires |ranges| == 5
    ensures forall p :: p in Product(ranges) ==> |p| == 5
  {
    forall p | p in Product(ranges)
      ensures |p| == 5
    {
      ProductIsAllCombinations(ranges, p);
    }
  }

  /** The mean error of each candidate, in enumeration order. */
  function GridErrors(ranges: seq<seq<real>>, trips: seq<Trip>, targets: seq<real>, ln: real -> real)
    : (errs: seq<real>)
    requires |ranges| == 5 && CaseCount(trips, targets) > 0
    ensures |errs| == |Product(ranges)|
    ensures forall k :: 0 <= k < |errs| ==> |Product(ranges)[k]| == 5
    ensures forall k :: 0 <= k < |errs|
              ==> Success(errs[k]) == EvaluateConfig(trips, targets, Candidate(Product(ranges)[k]), ln)
  {
    var combos := Product(ranges);
    CombinationsHaveFive(ranges);
    seq(|combos|, k requires 0 <= k < |combos| =>
      EvaluateConfig(trips, targets, Candidate(combos[k]), ln).value)
  }

  /** `optimize_parameters`' search: empty data makes `statistics.mean` raise,
      an empty grid leaves `best_params` at `None`; otherwise the result is
      the first combination in enumeration order with the smallest mean error. */
  function Optimize(ranges: seq<seq<real>>, trips: seq<Trip>, targets: seq<real>, ln: real -> real)
    : (r: Result<SearchOutcome, TrainError>)
    requires |ranges| == 5
    ensures CaseCount(trips, targets) == 0 ==> r == Failure(EmptyDataset)
    ensures CaseCount(trips, targets) > 0 && LengthProduct(ranges) == 0 ==> r == Failure(NoCandidates)
    ensures r.Success? <==> CaseCount(trips, targets) > 0 && LengthProduct(ranges) > 0
    ensures r.Success? ==>
              && IsFirstArgmin(GridErrors(ranges, trips, targets, ln), r.value.index)
              && r.value.params == Product(ranges)[r.value.index]
              && r.value.config == Candidate(r.value.params)
              && Success(r.value.error) == EvaluateConfig(trips, targets, r.value.config, ln)
  {
    ProductLength(ranges);
    if CaseCount(trips, targets) == 0 then Failure(EmptyDataset)
    else
      var errs := GridErrors(ranges, trips, targets, ln);
      match BestIndex(errs)
      case None => Failure(NoCandidates)
      case Some(k) =>
        var params := Product(ranges)[k];
        Success(SearchOutcome(k, errs[k], params, Candidate(params)))
  }

  /** The loop itself: `best_error` starts infinite (here: no best yet), each
      candidate's error is compared with a strict `<`, and the first
      combination attaining the minimum is kept. */
  method OptimizeLoop(ranges: seq<seq<real>>, trips: seq<Trip>, targets: seq<real>, ln: real -> real)
    returns (r: Result<SearchOutcome, TrainError>)
    requires |ranges| == 5
    ensures r == Optimize(ranges, trips, targets, ln)
  {
    if CaseCount(trips, targets) == 0 {
      return Failure(EmptyDataset);
    }
    var combos := Product(ranges);
    ghost var errs := GridErrors(ranges, trips, targets, ln);
    var best: Option<SearchOutcome> := None;
    var tested := 0;
    while tested < |combos|
      invariant 0 <= tested <= |combos|
      invariant best.None? <==> BestIndex(errs[..tested]).None?
      invariant best.Some? ==>
                  && best.value.index == BestIndex(errs[..tested]).value
                  && best.value.index < |combos|
                  && best.value.error == errs[best.value.index]
                  && best.value.params == combos[best.value.index]
                  && best.value.config == Candidate(combos[best.value.index])
    {
      var params := combos[tested];
      var config := Candidate(params);
      var error := EvaluateConfig(trips, targets, config, ln).value;
      assert errs[..tested + 1][..tested] == errs[..tested];
      if best.None? || error < best.value.error {
        best := Some(SearchOutcome(tested, error, params, config));
      }
      tested := tested + 1;
    }
    assert errs[..tested] == errs;
    if best.None? {
      ProductLength(ranges);
      r := Failure(NoCandidates);
    } else {
      r := Success(best.value);
    }
  }

  /** Over the fixed grid the search always returns one of the 2400
      combinations once there is at least one case. */
  lemma GridSearchSucceeds(trips: seq<Trip>, targets: seq<real>, ln: real -> real)
    requires CaseCount(trips, targets) > 0
    ensures Optimize(SearchRanges, trips, targets, ln).Success?
    ensures Optimize(SearchRanges, trips, targets, ln).value.index < 2400
  {
    GridSize();
  }
}
