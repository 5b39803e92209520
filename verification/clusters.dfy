/** The fallback `determine_cluster`: an ordered, first-match-wins chain of six rules. */
module Clusters {
  import opened Features
  import opened RealMath

  /** Cluster labels 0..5. */
  type ClusterId = k: nat | k < 6

  /** Rule `k` of the chain, as a table: each rule is a conjunction over the
      duration, the miles per day and the receipts; rule 5 is the catch-all. */
  predicate Rule(k: nat, f: Features) {
    match k
    case 0 => f.days as real <= 1.5 && f.milesPerDay > 500.0
    case 1 => f.days > 8 && f.milesPerDay < 50.0
    case 2 => 3 <= f.days <= 5 && f.receipts > 1500.0
    case 3 => 4 <= f.days <= 7 && f.milesPerDay > 150.0 && f.receipts < 800.0
    case 4 => f.days > 8 && f.receipts > 1200.0
    case 5 => true
    case _ => false
  }

  /** The label of the first rule in list order that the features satisfy. */
  function DetermineCluster(f: Features): (k: ClusterId)
    ensures Rule(k, f)
    ensures forall j: nat :: j < k ==> !Rule(j, f)
  {
    if f.days as real <= 1.5 && f.milesPerDay > 500.0 then 0
    else if f.days > 8 && f.milesPerDay < 50.0 then 1
    else if 3 <= f.days <= 5 && f.receipts > 1500.0 then 2
    else if 4 <= f.days <= 7 && f.milesPerDay > 150.0 && f.receipts < 800.0 then 3
    else if f.days > 8 && f.receipts > 1200.0 then 4
    else 5
  }

  /** The label is unique: any label that matches and has no earlier match
      is the one the chain returns. */
  lemma ClusterIsFirstMatch(f: Features, k: nat)
    requires Rule(k, f)
    requires forall j: nat :: j < k ==> !Rule(j, f)
    ensures DetermineCluster(f) == k
  {
  }

  /** Precedence: a long, slow, expensive trip satisfies both rule 1 and rule
      4, and the earlier rule wins. Stated over the raw trip. */
  lemma LongSlowExpensiveTripIsCluster1(t: Trip, ln: real -> real)
    requires t.days > 8 && 0.0 <= t.miles < 50.0 * (t.days as real) && t.receiptCents > 120000
    ensures Engineer(t, ln).Success?
    ensures Rule(4, Engineer(t, ln).value)
    ensures DetermineCluster(Engineer(t, ln).value) == 1
  {
    var f := Engineer(t, ln).value;
    DivCompare(t.miles, t.days as real, 50.0);
    assert f.milesPerDay < 50.0;
  }

  /** A one-day trip of 600 miles lands in cluster 0 whatever its receipts. */
  lemma OneDayLongDistanceIsCluster0(cents: nat, ln: real -> real)
    ensures Engineer(Trip(1, 600.0, cents), ln).Success?
    ensures DetermineCluster(Engineer(Trip(1, 600.0, cents), ln).value) == 0
  {
  }
}
