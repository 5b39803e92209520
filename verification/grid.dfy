/** The search space of `optimize_parameters`: the Cartesian product of five
    value ranges, enumerated as `itertools.product` does, and the candidate
    configuration built from each combination. */
module Grid {
  import opened Config

  /** `itertools.product(*ranges)`: every way of picking one value per range,
      the first range varying slowest and the last fastest. */
  function Product(ranges: seq<seq<real>>): seq<seq<real>>
    decreases |ranges|
  {
    if |ranges| == 0 then [[]]
    else PrependEach(ranges[0], Product(ranges[1..]))
  }

  /** For each head in order, that head in front of every tail in order. */
  function PrependEach(heads: seq<real>, tails: seq<seq<real>>): seq<seq<real>>
    decreases |heads|
  {
    if |heads| == 0 then []
    else ConsAll(heads[0], tails) + PrependEach(heads[1..], tails)
  }

  function ConsAll(h: real, tails: seq<seq<real>>): (r: seq<seq<real>>)
    ensures |r| == |tails|
    ensures forall i :: 0 <= i < |tails| ==> r[i] == [h] + tails[i]
  {
    seq(|tails|, i requires 0 <= i < |tails| => [h] + tails[i])
  }

  /** The product of the range lengths: `total_combinations`. */
  function LengthProduct(ranges: seq<seq<real>>): nat
    decreases |ranges|
  {
    if |ranges| == 0 then 1 else |ranges[0]| * LengthProduct(ranges[1..])
  }

  /** A combination of the ranges: one value from each, position by position. */
  predicate IsCombination(p: seq<real>, ranges: seq<seq<real>>) {
    |p| == |ranges| && forall j :: 0 <= j < |p| ==> p[j] in ranges[j]
  }

  /** The enumeration has exactly as many entries as the range lengths' product. */
  lemma {:induction false} ProductLength(ranges: seq<seq<real>>)
    ensures |Product(ranges)| == LengthProduct(ranges)
    decreases |ranges|
  {
    if |ranges| > 0 {
      ProductLength(ranges[1..]);
      PrependEachLength(ranges[0], Product(ranges[1..]));
    }
  }

  lemma {:induction false} PrependEachLength(heads: seq<real>, tails: seq<seq<real>>)
    ensures |PrependEach(heads, tails)| == |heads| * |tails|
    decreases |heads|
  {
    if |heads| > 0 {
      PrependEachLength(heads[1..], tails);
      assert |heads| * |tails| == |tails| + (|heads| - 1) * |tails|;
    }
  }

  /** Exactly the combinations are enumerated: a sequence appears in the
      product if and only if it takes one value from each range. */
  lemma {:induction false} ProductIsAllCombinations(ranges: seq<seq<real>>, p: seq<real>)
    ensures p in Product(ranges) <==> IsCombination(p, ranges)
    decreases |ranges|
  {
    if |ranges| == 0 {
      assert p in Product(ranges) <==> p == [];
    } else {
      var tails := Product(ranges[1..]);
      if p in Product(ranges) {
        PrependEachMember(ranges[0], tails, p);
        ProductIsAllCombinations(ranges[1..], p[1..]);
        forall j | 0 <= j < |p|
          ensures p[j] in ranges[j]
        {
          if j > 0 {
            assert p[j] == p[1..][j - 1];
          }
        }
      } else if IsCombination(p, ranges) {
        ProductIsAllCombinations(ranges[1..], p[1..]);
        assert IsCombination(p[1..], ranges[1..]) by {
          forall j | 0 <= j < |p[1..]|
            ensures p[1..][j] in ranges[1..][j]
          {
            assert p[1..][j] == p[j + 1];
          }
        }
        assert p[0] in ranges[0];
        assert p == [p[0]] + p[1..];
        PrependEachMember(ranges[0], tails, p);
        assert false;
      }
    }
  }

  /** A member of `PrependEach(heads, tails)` is a head followed by a tail, and
      every such pair is a member. */
  lemma {:induction false} PrependEachMember(heads: seq<real>, tails: seq<seq<real>>, p: seq<real>)
    ensures p in PrependEach(heads, tails)
            <==> |p| > 0 && p[0] in heads && p[1..] in tails
    decreases |heads|
  {
    if |heads| > 0 {
      var first := ConsAll(heads[0], tails);
      var rest := PrependEach(heads[1..], tails);
      PrependEachMember(heads[1..], tails, p);
      assert p in PrependEach(heads, tails) <==> p in first || p in rest;
      if p in first {
        var i :| 0 <= i < |first| && first[i] == p;
        assert p[1..] == tails[i];
      }
      if |p| > 0 && p[0] == heads[0] && p[1..] in tails {
        var i :| 0 <= i < |tails| && tails[i] == p[1..];
        assert first[i] == [heads[0]] + p[1..] == p;
      }
      if |p| > 0 {
        assert p[0] in heads <==> p[0] == heads[0] || p[0] in heads[1..];
      }
    }
  }

  /** Position `k` of the enumeration read as a mixed-radix numeral: the
      first range's digit is `k` divided by the number of combinations of
      the remaining ranges, and the rest is read from the remainder. */
  function Decode(ranges: seq<seq<real>>, k: nat): (p: seq<real>)
    requires k < LengthProduct(ranges)
    decreases |ranges|
  {
    if |ranges| == 0 then []
    else
      var rest := LengthProduct(ranges[1..]);
      DivBelow(k, |ranges[0]|, rest);
      [ranges[0][k / rest]] + Decode(ranges[1..], k % rest)
  }

  /** `k < a * b` with `b > 0` puts `k / b` below `a`. */
  lemma DivBelow(k: nat, a: nat, b: nat)
    requires k < a * b
    ensures b > 0 && k / b < a && k % b < b
  {
  }

  /** The enumeration order of `itertools.product`: entry `k` is the
      combination whose digits are those of `k` in the mixed radix of the
      range lengths. */
  lemma {:induction false} ProductOrder(ranges: seq<seq<real>>, k: nat)
    requires k < LengthProduct(ranges)
    ensures |Product(ranges)| == LengthProduct(ranges) && Product(ranges)[k] == Decode(ranges, k)
    decreases |ranges|
  {
    ProductLength(ranges);
    if |ranges| > 0 {
      var rest := LengthProduct(ranges[1..]);
      DivBelow(k, |ranges[0]|, rest);
      ProductLength(ranges[1..]);
      PrependEachIndex(ranges[0], Product(ranges[1..]), k);
      ProductOrder(ranges[1..], k % rest);
    }
  }

  /** Entry `k` of `PrependEach(heads, tails)` is head `k / |tails|` in front
      of tail `k % |tails|`. */
  lemma {:induction false} PrependEachIndex(heads: seq<real>, tails: seq<seq<real>>, k: nat)
    requires k < |heads| * |tails|
    ensures |tails| > 0 && k / |tails| < |heads|
    ensures |PrependEach(heads, tails)| == |heads| * |tails|
    ensures PrependEach(heads, tails)[k] == [heads[k / |tails|]] + tails[k % |tails|]
    decreases |heads|
  {
    DivBelow(k, |heads|, |tails|);
    PrependEachLength(heads, tails);
    var n := |tails|;
    var first := ConsAll(heads[0], tails);
    var rest := PrependEach(heads[1..], tails);
    if k < n {
      DivUnique(k, n, 0, k);
      assert PrependEach(heads, tails)[k] == first[k];
    } else {
      Distribute(|heads|, 1, n);
      assert k - n < (|heads| - 1) * n;
      PrependEachIndex(heads[1..], tails, k - n);
      ShiftDiv(k - n, n);
      assert PrependEach(heads, tails)[k] == rest[k - n];
      assert heads[1..][(k - n) / n] == heads[k / n];
    }
  }

  /** Adding the divisor once adds one to the quotient and keeps the remainder. */
  lemma ShiftDiv(j: nat, n: nat)
    requires n > 0
    ensures (j + n) / n == j / n + 1 && (j + n) % n == j % n
  {
    DivUnique(j + n, n, j / n + 1, j % n);
  }

  /** Quotient and remainder are the only pair that rebuilds the dividend. */
  lemma DivUnique(j: nat, n: nat, q: int, r: int)
    requires n > 0 && 0 <= r < n && j == q * n + r
    ensures j / n == q && j % n == r
  {
    var q' := j / n;
    var r' := j % n;
    assert j == q' * n + r';
    Distribute(q, q', n);
    if q > q' {
      AtLeastOnce(q - q', n);
    } else if q < q' {
      AtLeastOnce(q' - q, n);
      Distribute(q', q, n);
    }
  }

  lemma Distribute(a: int, b: int, n: int)
    ensures (a - b) * n == a * n - b * n
  {
  }

  lemma AtLeastOnce(x: int, n: nat)
    requires x >= 1
    ensures x * n >= n
  {
    assert x * n - n == (x - 1) * n;
  }

  /** The five ranges of `param_ranges`, in the order the product takes them:
      cluster 3 multiplier, efficiency threshold multiplier, log bonus
      coefficient, base per diem, high mileage rate. */
  const SearchRanges: seq<seq<real>> := [
    [1.0, 1.1, 1.2, 1.3, 1.4, 1.5],
    [1.02, 1.03, 1.05, 1.07, 1.10],
    [1.5, 2.0, 2.5, 3.0, 3.5],
    [45.0, 50.0, 55.0, 60.0],
    [0.25, 0.30, 0.35, 0.40]
  ]

  /** The grid visits 6 * 5 * 5 * 4 * 4 = 2400 combinations. */
  lemma GridSize()
    ensures |Product(SearchRanges)| == LengthProduct(SearchRanges) == 2400
  {
    ProductLength(SearchRanges);
    assert SearchRanges[1..][1..][1..][1..][1..] == [];
  }

  /** The combinations of the ranges after the first `i`: 400, 80, 16, 4, 1. */
  lemma SuffixSizes()
    ensures LengthProduct(SearchRanges[4..]) == 4
    ensures LengthProduct(SearchRanges[3..]) == 16
    ensures LengthProduct(SearchRanges[2..]) == 80
    ensures LengthProduct(SearchRanges[1..]) == 400
    ensures LengthProduct(SearchRanges) == 2400
  {
    assert SearchRanges[4..][1..] == [];
    assert SearchRanges[3..][1..] == SearchRanges[4..];
    assert SearchRanges[2..][1..] == SearchRanges[3..];
    assert SearchRanges[1..][1..] == SearchRanges[2..];
  }

  /** The first two and the last mixed-radix digits of the fixed grid. */
  lemma DecodeGridEnds()
    ensures Decode(SearchRanges, 0) == [1.0, 1.02, 1.5, 45.0, 0.25]
    ensures Decode(SearchRanges, 1) == [1.0, 1.02, 1.5, 45.0, 0.30]
    ensures Decode(SearchRanges, 2399) == [1.5, 1.10, 3.5, 60.0, 0.40]
  {
    SuffixSizes();
  }

  /** The grid starts at the smallest value of every range, and the last
      range varies fastest. */
  lemma GridStartsAtSmallest()
    ensures |Product(SearchRanges)| == 2400
    ensures Product(SearchRanges)[0] == [1.0, 1.02, 1.5, 45.0, 0.25]
    ensures Product(SearchRanges)[1] == [1.0, 1.02, 1.5, 45.0, 0.30]
  {
    GridSize();
    DecodeGridEnds();
    ProductOrder(SearchRanges, 0);
    ProductOrder(SearchRanges, 1);
  }

  /** The grid ends at the largest value of every range. */
  lemma GridEndsAtLargest()
    ensures |Product(SearchRanges)| == 2400
    ensures Product(SearchRanges)[2399] == [1.5, 1.10, 3.5, 60.0, 0.40]
  {
    GridSize();
    DecodeGridEnds();
    ProductOrder(SearchRanges, 2399);
  }

  /** `total_combinations`: the running product of the range lengths. */
  method TotalCombinations(ranges: seq<seq<real>>) returns (total: nat)
    ensures total == LengthProduct(ranges) == |Product(ranges)|
  {
    total := 1;
    var i := 0;
    while i < |ranges|
      invariant 0 <= i <= |ranges|
      invariant total * LengthProduct(ranges[i..]) == LengthProduct(ranges)
    {
      assert ranges[i..][1..] == ranges[i + 1..];
      MulAssoc(total, |ranges[i]|, LengthProduct(ranges[i + 1..]));
      total := total * |ranges[i]|;
      i := i + 1;
    }
    ProductLength(ranges);
  }

  lemma MulAssoc(a: int, b: int, c: int)
    ensures a * (b * c) == (a * b) * c
  {
  }

  /** The configuration tried for one combination: the default configuration
      with the five searched entries overwritten, in the order of the ranges. */
  function Candidate(p: seq<real>): (c: Config)
    requires |p| == 5
    ensures SearchedValues(c) == p
    ensures AgreesOutsideSearch(c, BaseDefaults)
  {
    BaseDefaults.(
      clusterMultipliers := BaseDefaults.clusterMultipliers[3 := p[0]],
      efficiencyThresholdMultiplier := p[1],
      logBonusCoeff := p[2],
      basePerDiem := p[3],
      mileageRates := BaseDefaults.mileageRates[2 := p[4]])
  }

  /** The five searched entries of a configuration, in range order. */
  function SearchedValues(c: Config): seq<real> {
    [c.clusterMultipliers[3], c.efficiencyThresholdMultiplier, c.logBonusCoeff,
     c.basePerDiem, c.mileageRates[2]]
  }

  /** Two configurations agree on every entry the search leaves alone. */
  predicate AgreesOutsideSearch(c: Config, d: Config) {
    && (forall k :: 0 <= k < 6 && k != 3 ==> c.clusterMultipliers[k] == d.clusterMultipliers[k])
    && c.mileageRates[0] == d.mileageRates[0] && c.mileageRates[1] == d.mileageRates[1]
    && c.receiptRates == d.receiptRates
    && c.vacationBonusMultiplier == d.vacationBonusMultiplier
    && c.vacationBaseMultiplier == d.vacationBaseMultiplier
    && c.fiveDayMultiplier == d.fiveDayMultiplier
    && c.receiptThresholdMultiplier == d.receiptThresholdMultiplier
    && c.milesThresholdMultiplier == d.milesThresholdMultiplier
    && c.interactionCoeff == d.interactionCoeff
    && c.bugBaseBonus == d.bugBaseBonus
    && c.bugMultiplier == d.bugMultiplier
  }

  /** A configuration is a candidate exactly when it agrees with the defaults
      outside the five searched entries; it is then the candidate of its own
      searched values. */
  lemma CandidateIsDefaultsElsewhere(c: Config)
    ensures AgreesOutsideSearch(c, BaseDefaults) <==> c == Candidate(SearchedValues(c))
  {
    if AgreesOutsideSearch(c, BaseDefaults) {
      var d := Candidate(SearchedValues(c));
      assert c.clusterMultipliers == d.clusterMultipliers;
      assert c.mileageRates == d.mileageRates;
    }
  }

  /** Distinct combinations give distinct candidates. */
  lemma CandidateInjective(p: seq<real>, q: seq<real>)
    requires |p| == 5 && |q| == 5
    ensures Candidate(p) == Candidate(q) <==> p == q
  {
  }
}
