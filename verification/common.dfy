/** Shared vocabulary. */
module Common {
  datatype Option<+T> = None | Some(value: T)

  /** The numbers from `lo` up to, not including, `hi`. */
  function Interval(lo: nat, hi: nat): (r: set<nat>)
    ensures forall i: nat :: i in r <==> lo <= i < hi
    ensures |r| == if lo <= hi then hi - lo else 0
  {
    if hi <= lo then {} else Interval(lo, hi - 1) + {hi - 1}
  }

  predicate Ascending(s: seq<nat>) {
    forall a, b :: 0 <= a < b < |s| ==> s[a] < s[b]
  }

  /** Answers of the API server to a write.  `AppliedUnseen` took effect although
      the caller saw an error. */
  datatype Write = Applied | Rejected | AppliedUnseen

  lemma SubsetIsSmaller(a: set<nat>, b: set<nat>)
    requires a <= b
    ensures |a| <= |b|
  {
    assert b == a + (b - a);
  }
}
