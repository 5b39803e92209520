/** `analyze_high_error_cases`: one report per case, sorted by error from the
    highest down (a stable sort, so ties stay in case order), then the first ten. */
module HighError {
  import opened Wrappers
  import opened RealMath
  import opened Config
  import opened Features
  import opened Scorer
  import opened Evaluation

  /** The tuple `(i, error, inp, target, prediction)`; a failing case reports
      the penalty as its error and 0 as its prediction. */
  datatype CaseReport = CaseReport(index: nat, error: real, trip: Trip, target: real, prediction: real)

  /** How many entries the analysis keeps. */
  const TopCount: nat := 10

  /** The report of case `i`. */
  function Report(trips: seq<Trip>, targets: seq<real>, c: Config, ln: real -> real, i: nat)
    : (r: CaseReport)
    requires i < CaseCount(trips, targets)
    ensures r.index == i && r.trip == trips[i] && r.target == targets[i]
    ensures r.error == CaseError(trips[i], targets[i], c, ln)
    ensures Score(trips[i], c, HarnessTiers, HarnessLogs, ln).Failure? ==> r.prediction == 0.0
    ensures Score(trips[i], c, HarnessTiers, HarnessLogs, ln).Success?
            ==> r.prediction == Score(trips[i], c, HarnessTiers, HarnessLogs, ln).value
  {
    match Score(trips[i], c, HarnessTiers, HarnessLogs, ln)
    case Success(prediction) => CaseReport(i, Abs(prediction - targets[i]), trips[i], targets[i], prediction)
    case Failure(_) => CaseReport(i, FailurePenalty, trips[i], targets[i], 0.0)
  }

  /** The reports of all cases, in case order. */
  function Reports(trips: seq<Trip>, targets: seq<real>, c: Config, ln: real -> real)
    : (rs: seq<CaseReport>)
    ensures |rs| == CaseCount(trips, targets)
    ensures forall i :: 0 <= i < |rs| ==> rs[i] == Report(trips, targets, c, ln, i)
  {
    seq(CaseCount(trips, targets), i requires 0 <= i < CaseCount(trips, targets) =>
      Report(trips, targets, c, ln, i))
  }

  /** `a` comes before `b` in `sort(key=error, reverse=True)` applied to a
      list in case order: higher error first, ties by case index. */
  predicate Precedes(a: CaseReport, b: CaseReport) {
    a.error > b.error || (a.error == b.error && a.index < b.index)
  }

  /** Every earlier entry precedes every later one. */
  predicate Ordered(s: seq<CaseReport>) {
    forall i, j :: 0 <= i < j < |s| ==> Precedes(s[i], s[j])
  }

  /** Case indices strictly increase along the sequence. */
  predicate IndicesIncrease(s: seq<CaseReport>) {
    forall i, j :: 0 <= i < j < |s| ==> s[i].index < s[j].index
  }

  /** Puts `x` after every entry whose error is at least its own. */
  function Insert(x: CaseReport, s: seq<CaseReport>): (r: seq<CaseReport>)
    ensures multiset(r) == multiset(s) + multiset{x}
    ensures |r| == |s| + 1
    decreases |s|
  {
    if |s| == 0 then [x]
    else if s[0].error >= x.error then
      assert s == [s[0]] + s[1..];
      [s[0]] + Insert(x, s[1..])
    else [x] + s
  }

  /** Inserting a case later than all present keeps the order. */
  lemma {:induction false} InsertOrdered(x: CaseReport, s: seq<CaseReport>)
    requires Ordered(s)
    requires forall e :: e in s ==> e.index < x.index
    ensures Ordered(Insert(x, s))
    decreases |s|
  {
    if |s| > 0 {
      if s[0].error >= x.error {
        var tail := Insert(x, s[1..]);
        assert Ordered(s[1..]) by {
          forall i, j | 0 <= i < j < |s[1..]|
            ensures Precedes(s[1..][i], s[1..][j])
          {
            assert s[1..][i] == s[i + 1] && s[1..][j] == s[j + 1];
          }
        }
        forall e | e in s[1..]
          ensures e.index < x.index
        {
          assert e in s;
        }
        InsertOrdered(x, s[1..]);
        forall y | y in tail
          ensures Precedes(s[0], y)
        {
          assert y in multiset(tail);
          if y != x {
            assert y in multiset(s[1..]);
            var j :| 0 <= j < |s[1..]| && s[1..][j] == y;
            assert s[j + 1] == y;
          }
        }
        ConsOrdered(s[0], tail);
      } else {
        forall y | y in s
          ensures Precedes(x, y)
        {
          var j :| 0 <= j < |s| && s[j] == y;
          if j > 0 {
            assert Precedes(s[0], s[j]);
          }
        }
        ConsOrdered(x, s);
      }
    }
  }

  /** An entry that precedes everything in an ordered tail can lead it. */
  lemma ConsOrdered(a: CaseReport, t: seq<CaseReport>)
    requires Ordered(t)
    requires forall y :: y in t ==> Precedes(a, y)
    ensures Ordered([a] + t)
  {
    var s := [a] + t;
    forall i, j | 0 <= i < j < |s|
      ensures Precedes(s[i], s[j])
    {
      assert s[j] == t[j - 1];
      if i > 0 {
        assert s[i] == t[i - 1];
      }
    }
  }

  /** `list.sort(key=error, reverse=True)`: a permutation of its input, and,
      for input in case order, ordered by error from the highest down with
      ties kept in case order. */
  function SortByError(s: seq<CaseReport>): (r: seq<CaseReport>)
    ensures multiset(r) == multiset(s)
    ensures |r| == |s|
    ensures IndicesIncrease(s) ==> Ordered(r)
    decreases |s|
  {
    if |s| == 0 then []
    else
      var init := s[..|s| - 1];
      var sorted := SortByError(init);
      var x := s[|s| - 1];
      InsertLastOrdered(s, sorted);
      assert s == init + [x];
      Insert(x, sorted)
  }

  /** Inserting the last entry into a sorted prefix keeps the order when the
      indices increase. */
  lemma InsertLastOrdered(s: seq<CaseReport>, sorted: seq<CaseReport>)
    requires |s| > 0
    requires multiset(sorted) == multiset(s[..|s| - 1])
    requires IndicesIncrease(s[..|s| - 1]) ==> Ordered(sorted)
    ensures IndicesIncrease(s) ==> Ordered(Insert(s[|s| - 1], sorted))
  {
    if IndicesIncrease(s) {
      PrefixKeepsIncrease(s);
      EarlierIndices(s, sorted);
      InsertOrdered(s[|s| - 1], sorted);
    }
  }

  lemma PrefixKeepsIncrease(s: seq<CaseReport>)
    requires |s| > 0
    ensures IndicesIncrease(s) ==> IndicesIncrease(s[..|s| - 1])
  {
  }

  /** With increasing indices, everything in a permutation of the prefix comes
      before the last entry. */
  lemma EarlierIndices(s: seq<CaseReport>, sorted: seq<CaseReport>)
    requires |s| > 0
    requires multiset(sorted) == multiset(s[..|s| - 1])
    ensures IndicesIncrease(s) ==> forall e :: e in sorted ==> e.index < s[|s| - 1].index
  {
    if IndicesIncrease(s) {
      forall e | e in sorted
        ensures e.index < s[|s| - 1].index
      {
        assert e in multiset(s[..|s| - 1]);
        var j :| 0 <= j < |s| - 1 && s[..|s| - 1][j] == e;
        assert s[j] == e;
      }
    }
  }

  /** An order-respecting permutation is unique: any two orderings of the
      same reports that both respect `Precedes` are equal, so the sort's
      output is fixed by its contract. */
  lemma {:induction false} OrderedPermutationUnique(a: seq<CaseReport>, b: seq<CaseReport>)
    requires multiset(a) == multiset(b) && Ordered(a) && Ordered(b)
    ensures a == b
    decreases |a|
  {
    assert |a| == |multiset(a)| == |multiset(b)| == |b|;
    if |a| > 0 {
      HeadsEqual(a, b);
      assert a == [a[0]] + a[1..] && b == [b[0]] + b[1..];
      assert multiset(a[1..]) == multiset(a) - multiset{a[0]};
      assert multiset(b[1..]) == multiset(b) - multiset{b[0]};
      OrderedTail(a);
      OrderedTail(b);
      OrderedPermutationUnique(a[1..], b[1..]);
    }
  }

  /** Two orderings of the same reports start with the same report. */
  lemma HeadsEqual(a: seq<CaseReport>, b: seq<CaseReport>)
    requires |a| > 0 && |b| > 0
    requires multiset(a) == multiset(b) && Ordered(a) && Ordered(b)
    ensures a[0] == b[0]
  {
    assert b[0] in multiset(a);
    assert a[0] in multiset(b);
    if a[0] != b[0] {
      HeadPrecedes(a, b[0]);
      HeadPrecedes(b, a[0]);
      assert false;
    }
  }

  /** The head of an ordered sequence precedes every other member. */
  lemma HeadPrecedes(s: seq<CaseReport>, y: CaseReport)
    requires |s| > 0 && Ordered(s) && y in s && y != s[0]
    ensures Precedes(s[0], y)
  {
    var i :| 0 <= i < |s| && s[i] == y;
  }

  lemma OrderedTail(s: seq<CaseReport>)
    requires |s| > 0 && Ordered(s)
    ensures Ordered(s[1..])
  {
    forall i, j | 0 <= i < j < |s| - 1
      ensures Precedes(s[1..][i], s[1..][j])
    {
      assert s[1..][i] == s[i + 1] && s[1..][j] == s[j + 1];
    }
  }

  /** `analyze_high_error_cases`: the first `min(10, n)` reports after sorting. */
  function HighErrorCases(trips: seq<Trip>, targets: seq<real>, c: Config, ln: real -> real)
    : (top: seq<CaseReport>)
    ensures |top| == if CaseCount(trips, targets) < TopCount then CaseCount(trips, targets) else TopCount
    ensures Ordered(top)
    ensures forall i :: 0 <= i < |top|
              ==> top[i].index < CaseCount(trips, targets)
                  && top[i] == Report(trips, targets, c, ln, top[i].index)
    ensures forall i, j :: 0 <= i < j < |top| ==> top[i].index != top[j].index
    ensures forall k, i :: 0 <= k < CaseCount(trips, targets) && 0 <= i < |top|
              && (forall j :: 0 <= j < |top| ==> top[j].index != k)
              ==> Precedes(top[i], Report(trips, targets, c, ln, k))
  {
    var all := Reports(trips, targets, c, ln);
    var sorted := SortByError(all);
    var m := if |all| < TopCount then |all| else TopCount;
    TopFacts(trips, targets, c, ln, all, sorted, sorted[..m]);
    sorted[..m]
  }

  /** The facts behind `HighErrorCases`, for a prefix of the full sorted list. */
  lemma TopFacts(trips: seq<Trip>, targets: seq<real>, c: Config, ln: real -> real,
                 all: seq<CaseReport>, sorted: seq<CaseReport>, top: seq<CaseReport>)
    requires all == Reports(trips, targets, c, ln)
    requires multiset(sorted) == multiset(all) && Ordered(sorted) && |sorted| == |all|
    requires |top| <= |sorted| && top == sorted[..|top|]
    ensures Ordered(top)
    ensures forall i :: 0 <= i < |top|
              ==> top[i].index < CaseCount(trips, targets)
                  && top[i] == Report(trips, targets, c, ln, top[i].index)
    ensures forall i, j :: 0 <= i < j < |top| ==> top[i].index != top[j].index
    ensures forall k, i :: 0 <= k < CaseCount(trips, targets) && 0 <= i < |top|
              && (forall j :: 0 <= j < |top| ==> top[j].index != k)
              ==> Precedes(top[i], Report(trips, targets, c, ln, k))
  {
    TopOfSorted(all, sorted, top);
  }

  /** Each entry sits at the position given by its own index. */
  predicate Indexed(all: seq<CaseReport>) {
    forall i :: 0 <= i < |all| ==> all[i].index == i
  }

  /** A prefix of an ordered permutation of indexed reports is ordered, holds
      distinct cases each equal to its own report, and precedes every case it
      leaves out. */
  lemma TopOfSorted(all: seq<CaseReport>, sorted: seq<CaseReport>, top: seq<CaseReport>)
    requires Indexed(all)
    requires multiset(sorted) == multiset(all) && Ordered(sorted)
    requires |top| <= |sorted| && top == sorted[..|top|]
    ensures Ordered(top)
    ensures forall i :: 0 <= i < |top| ==> top[i].index < |all| && top[i] == all[top[i].index]
    ensures forall i, j :: 0 <= i < j < |top| ==> top[i].index != top[j].index
    ensures forall k, i :: 0 <= k < |all| && 0 <= i < |top|
              && (forall j :: 0 <= j < |top| ==> top[j].index != k)
              ==> Precedes(top[i], all[k])
  {
    SortedEntriesAreIndexed(all, sorted);
    forall k, i | 0 <= k < |all| && 0 <= i < |top| && (forall j :: 0 <= j < |top| ==> top[j].index != k)
      ensures Precedes(top[i], all[k])
    {
      assert all[k] in multiset(sorted);
      var p :| 0 <= p < |sorted| && sorted[p] == all[k];
      assert top[i] == sorted[i];
      if p < |top| {
        assert top[p] == sorted[p];
      }
    }
  }

  /** Every entry of a permutation of indexed reports is the report at its index. */
  lemma SortedEntriesAreIndexed(all: seq<CaseReport>, sorted: seq<CaseReport>)
    requires Indexed(all)
    requires multiset(sorted) == multiset(all)
    ensures forall i :: 0 <= i < |sorted| ==> sorted[i].index < |all| && sorted[i] == all[sorted[i].index]
  {
    forall i | 0 <= i < |sorted|
      ensures sorted[i].index < |all| && sorted[i] == all[sorted[i].index]
    {
      assert sorted[i] in multiset(all);
      var j :| 0 <= j < |all| && all[j] == sorted[i];
    }
  }

  /** A case that cannot be scored reports the penalty and a prediction of 0. */
  lemma FailingCaseReport(trips: seq<Trip>, targets: seq<real>, c: Config, ln: real -> real, i: nat)
    requires i < CaseCount(trips, targets) && !(trips[i].days > 0 && trips[i].miles > -1.0)
    ensures Report(trips, targets, c, ln, i).error == FailurePenalty
    ensures Report(trips, targets, c, ln, i).prediction == 0.0
  {
  }
}
