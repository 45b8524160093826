// What every part of the model uses.
module Common {
  datatype Option<+T> = None | Some(value: T)

  /** Distinct elements of a set are no more than the set has. */
  lemma {:induction false} DistinctFit<T>(xs: seq<T>, within: set<T>)
    requires forall i, j :: 0 <= i < j < |xs| ==> xs[i] != xs[j]
    requires forall i :: 0 <= i < |xs| ==> xs[i] in within
    ensures |xs| <= |within|
    decreases |xs|
  {
    if xs != [] {
      DistinctFit(xs[1..], within - {xs[0]});
    }
  }

  /** A sequence longer than the set it draws from repeats itself. */
  lemma SomethingRepeats<T>(xs: seq<T>, within: set<T>) returns (i: nat, j: nat)
    requires forall i :: 0 <= i < |xs| ==> xs[i] in within
    requires |xs| > |within|
    ensures i < j < |xs| && xs[i] == xs[j]
  {
    if forall i, j :: 0 <= i < j < |xs| ==> xs[i] != xs[j] {
      DistinctFit(xs, within);
    }
    i, j :| 0 <= i < j < |xs| && xs[i] == xs[j];
  }
}
