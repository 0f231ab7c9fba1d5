/** Classifying replication by comparing file counts across nodes, in the 32-bit
    arithmetic the code uses and in exact arithmetic. */
module ReplicationHealth {
  import opened Common

  datatype State = Unknown | Healthy | Lagging | Diverged

  const TWO_31 := 0x8000_0000
  const TWO_32 := 0x1_0000_0000

  /** The value a signed 32-bit variable ends up with. */
  function Wrap(x: int): int {
    (x + TWO_31) % TWO_32 - TWO_31
  }

  predicate IsInt32(x: int) {
    -TWO_31 <= x < TWO_31
  }

  /** Division that truncates toward zero. */
  function Quotient(x: int, d: nat): int
    requires d > 0
  {
    if x >= 0 then x / d else -((-x) / d)
  }

  // ---------- the code ----------

  function Classify(max: int, min: int): State {
    if max > 0 && min < Quotient(max, 2) then Diverged
    else if max > 0 && min < Quotient(Wrap(max * 8), 10) then Lagging
    else Healthy
  }

  method CollectCounts(manifests: seq<Option<int>>) returns (counts: seq<int>)
    ensures counts == Counts(manifests)
  {
    counts := [];
    for i := 0 to |manifests|
      invariant counts == Counts(manifests[..i])
    {
      assert manifests[..i + 1][..i] == manifests[..i];
      if manifests[i].Some? {
        counts := counts + [Wrap(manifests[i].value)];
      }
    }
    assert manifests[..|manifests|] == manifests;
  }

  method MaxAndMin(counts: seq<int>) returns (max: int, min: int)
    requires |counts| >= 1
    ensures Extremes(counts, max, min)
  {
    max, min := counts[0], counts[0];
    for i := 1 to |counts|
      invariant max in counts && min in counts
      invariant forall k :: 0 <= k < i ==> min <= counts[k] <= max
    {
      if counts[i] > max {
        max := counts[i];
      }
      if counts[i] < min {
        min := counts[i];
      }
    }
  }

  /** `manifests` holds the file count each node reported, or None. */
  method MonitorReplicationHealth(manifests: seq<Option<int>>) returns (state: State)
    ensures state == StateOf(Counts(manifests))
  {
    var counts := CollectCounts(manifests);
    if |counts| < 2 {
      return Unknown;
    }
    var max, min := MaxAndMin(counts);
    ExtremesAreUnique(counts, max, min);
    state := Classify(max, min);
  }

  /** The counts of the nodes that answered, as 32-bit values. */
  function Counts(manifests: seq<Option<int>>): seq<int> {
    if manifests == [] then []
    else Counts(manifests[..|manifests| - 1]) + One(manifests[|manifests| - 1])
  }

  function One(m: Option<int>): seq<int> {
    if m.Some? then [Wrap(m.value)] else []
  }

  // ---------- which node has which count does not matter ----------

  predicate Extremes(counts: seq<int>, max: int, min: int) {
    max in counts && min in counts && forall c :: c in counts ==> min <= c <= max
  }

  lemma ExtremesAreUnique(counts: seq<int>, max: int, min: int)
    requires Extremes(counts, max, min)
    ensures forall a, b :: Extremes(counts, a, b) ==> a == max && b == min
  {
  }

  /** The state the counts call for: none from fewer than two of them, else by
      the largest and the smallest. */
  ghost function StateOf(counts: seq<int>): State {
    if |counts| < 2 then Unknown
    else if max, min :| Extremes(counts, max, min) then Classify(max, min)
    else Unknown
  }

  /** What the state means, for counts the 32-bit arithmetic takes: of two or more
      nodes that answer, hi and lo are the largest and the smallest count. */
  lemma StateSays(manifests: seq<Option<int>>, a: nat, b: nat)
    requires a < |manifests| && b < |manifests| && a != b && manifests[a].Some? && manifests[b].Some?
    requires forall k :: 0 <= k < |manifests| && manifests[k].Some? ==>
      0 <= manifests[b].value <= manifests[k].value <= manifests[a].value
    requires manifests[a].value <= 268435455
    ensures var hi, lo, state := manifests[a].value, manifests[b].value, StateOf(Counts(manifests));
      && (state == Diverged <==> lo < hi / 2)
      && (state == Lagging <==> hi / 2 <= lo && lo < hi * 8 / 10)
      && (state == Healthy <==> lo >= hi * 8 / 10)
  {
    ReportedExtremes(manifests, a, b);
    ExtremesAreUnique(Counts(manifests), manifests[a].value, manifests[b].value);
    hide Counts, Classify;
    ClassifySays(manifests[a].value, manifests[b].value);
  }

  lemma ClassifySays(hi: int, lo: int)
    requires 0 <= lo <= hi <= 268435455
    ensures Classify(hi, lo) == Diverged <==> lo < hi / 2
    ensures Classify(hi, lo) == Lagging <==> hi / 2 <= lo && lo < hi * 8 / 10
    ensures Classify(hi, lo) == Healthy <==> lo >= hi * 8 / 10
  {
    assert Wrap(hi * 8) == hi * 8;
  }

  lemma ReportedExtremes(manifests: seq<Option<int>>, a: nat, b: nat)
    requires a < |manifests| && b < |manifests| && a != b && manifests[a].Some? && manifests[b].Some?
    requires forall k :: 0 <= k < |manifests| && manifests[k].Some? ==>
      0 <= manifests[b].value <= manifests[k].value <= manifests[a].value
    requires manifests[a].value < TWO_31
    ensures |Counts(manifests)| >= 2 && Extremes(Counts(manifests), manifests[a].value, manifests[b].value)
  {
    var hi, lo := manifests[a].value, manifests[b].value;
    hide Wrap, Counts;
    CountsAre(manifests);
    TwoAnswers(manifests, a, b);
    forall k | 0 <= k < |manifests| && manifests[k].Some?
      ensures Wrap(manifests[k].value) == manifests[k].value
    {
      WrapIsExactBelow(manifests[k].value);
    }
    forall c | c in Counts(manifests)
      ensures lo <= c <= hi
    {
      var k :| 0 <= k < |manifests| && manifests[k].Some? && c == Wrap(manifests[k].value);
    }
  }

  /** The counts are those of the nodes that answered. */
  lemma {:induction false} CountsAre(manifests: seq<Option<int>>)
    ensures forall c :: c in Counts(manifests) ==>
      exists k :: 0 <= k < |manifests| && manifests[k].Some? && c == Wrap(manifests[k].value)
    ensures forall k :: 0 <= k < |manifests| && manifests[k].Some? ==> Wrap(manifests[k].value) in Counts(manifests)
  {
    if manifests != [] {
      var front := manifests[..|manifests| - 1];
      CountsAre(front);
      forall c | c in Counts(front)
        ensures exists k :: 0 <= k < |manifests| && manifests[k].Some? && c == Wrap(manifests[k].value)
      {
        var k :| 0 <= k < |front| && front[k].Some? && c == Wrap(front[k].value);
        assert manifests[k] == front[k];
      }
      forall k | 0 <= k < |manifests| && manifests[k].Some?
        ensures Wrap(manifests[k].value) in Counts(manifests)
      {
        assert k < |front| ==> front[k] == manifests[k];
      }
    }
  }

  lemma {:induction false} TwoAnswers(manifests: seq<Option<int>>, a: nat, b: nat)
    requires a < |manifests| && b < |manifests| && a != b && manifests[a].Some? && manifests[b].Some?
    ensures |Counts(manifests)| >= 2
  {
    var front := manifests[..|manifests| - 1];
    if a < |front| && b < |front| {
      TwoAnswers(front, a, b);
    } else {
      CountsAre(front);
      var k := if a < |front| then a else b;
      assert front[k] == manifests[k];
      assert |Counts(front)| >= 1;
    }
  }

  /** From fewer than two answers there is no verdict. */
  lemma {:induction false} NoVerdictFromOne(manifests: seq<Option<int>>, a: nat)
    requires forall k :: 0 <= k < |manifests| && manifests[k].Some? ==> k == a
    ensures |Counts(manifests)| <= 1 && StateOf(Counts(manifests)) == Unknown
  {
    if manifests != [] {
      var front := manifests[..|manifests| - 1];
      assert forall k :: 0 <= k < |front| ==> front[k] == manifests[k];
      NoVerdictFromOne(front, a);
      if manifests[|front|].Some? {
        NobodyAnswers(front);
      }
    }
  }

  lemma {:induction false} NobodyAnswers(manifests: seq<Option<int>>)
    requires forall k :: 0 <= k < |manifests| ==> manifests[k].None?
    ensures Counts(manifests) == []
  {
    if manifests != [] {
      NobodyAnswers(manifests[..|manifests| - 1]);
    }
  }

  lemma SameCountsSameState(a: seq<int>, b: seq<int>)
    requires multiset(a) == multiset(b)
    ensures StateOf(a) == StateOf(b)
  {
    assert |multiset(a)| == |a| && |multiset(b)| == |b|;
    forall c: int
      ensures c in a <==> c in b
    {
      assert c in a <==> c in multiset(a);
      assert c in b <==> c in multiset(b);
    }
    forall max, min
      ensures Extremes(a, max, min) <==> Extremes(b, max, min)
    {
    }
    if max, min :| Extremes(a, max, min) {
      ExtremesAreUnique(a, max, min);
      ExtremesAreUnique(b, max, min);
    }
  }

  lemma MultisetWithout<T>(b: seq<T>, k: nat)
    requires k < |b|
    ensures multiset(b[..k] + b[k + 1..]) == multiset(b) - multiset{b[k]}
  {
    assert b == b[..k] + [b[k]] + b[k + 1..];
  }

  lemma {:induction false} CountsConcat(a: seq<Option<int>>, b: seq<Option<int>>)
    ensures Counts(a + b) == Counts(a) + Counts(b)
    decreases |b|
  {
    if b == [] {
      assert a + b == a;
    } else {
      assert (a + b)[..|a + b| - 1] == a + b[..|b| - 1];
      CountsConcat(a, b[..|b| - 1]);
    }
  }

  /** Leaving one node out of the counts. */
  lemma CountsWithout(b: seq<Option<int>>, k: nat)
    requires k < |b|
    ensures multiset(Counts(b)) == multiset(Counts(b[..k] + b[k + 1..])) + multiset(One(b[k]))
  {
    hide Counts, One;
    var front, back := b[..k], b[k + 1..];
    assert b == front + ([b[k]] + back);
    CountsConcat(front, [b[k]] + back);
    CountsConcat([b[k]], back);
    CountsConcat(front, back);
    CountsOfOne(b[k]);
  }

  lemma CountsOfOne(m: Option<int>)
    ensures Counts([m]) == One(m)
  {
    assert [m][..0] == [];
  }

  lemma {:induction false} CountsOfPermutation(a: seq<Option<int>>, b: seq<Option<int>>)
    requires multiset(a) == multiset(b)
    ensures multiset(Counts(a)) == multiset(Counts(b))
    decreases |a|
  {
    assert |multiset(a)| == |a| && |multiset(b)| == |b|;
    if a != [] {
      var last := |a| - 1;
      assert a[last] in multiset(b);
      var k :| 0 <= k < |b| && b[k] == a[last];
      MultisetWithout(a, last);
      MultisetWithout(b, k);
      CountsOfPermutation(a[..last] + a[last + 1..], b[..k] + b[k + 1..]);
      CountsWithout(a, last);
      CountsWithout(b, k);
    }
  }

  /** The state depends only on the multiset of reported counts. */
  lemma OnlyTheMultisetMatters(a: seq<Option<int>>, b: seq<Option<int>>)
    requires multiset(a) == multiset(b)
    ensures StateOf(Counts(a)) == StateOf(Counts(b))
  {
    CountsOfPermutation(a, b);
    SameCountsSameState(Counts(a), Counts(b));
  }

  // ---------- exact arithmetic ----------

  function ClassifyExactly(max: int, min: int): State {
    if max > 0 && min < max / 2 then Diverged
    else if max > 0 && min < max * 8 / 10 then Lagging
    else Healthy
  }

  function Severity(s: State): nat {
    match s
    case Diverged => 2
    case Lagging => 1
    case _ => 0
  }

  /** A node that catches up never makes things look worse, in either arithmetic. */
  lemma SeverityFallsAsMinimumRises(max: int, low: int, high: int)
    requires low <= high
    ensures Severity(Classify(max, low)) >= Severity(Classify(max, high))
    ensures Severity(ClassifyExactly(max, low)) >= Severity(ClassifyExactly(max, high))
  {
  }

  const LAST_SAFE_COUNT := 268435455

  lemma WrapIsExactBelow(x: int)
    requires IsInt32(x)
    ensures Wrap(x) == x
  {
  }

  /** Beyond the safe range the product has wrapped too far to reach the minimum. */
  lemma WrappedProductIsSmall(max: int)
    requires LAST_SAFE_COUNT < max < TWO_31
    ensures Quotient(Wrap(max * 8), 10) <= Quotient(max, 2)
  {
    var p := Wrap(max * 8);
    if max < 0x2000_0000 {
      assert p == max * 8 - TWO_32;
    }
  }

  /** For non-negative counts the 32-bit classification is the exact one up to
      268435455 files, and beyond that exactly when the minimum is outside the
      lagging band: there the code never reports Lagging. */
  lemma ThirtyTwoBitsAgreeExactly(max: int, min: int)
    requires 0 <= min <= max < TWO_31
    ensures Classify(max, min) == ClassifyExactly(max, min) <==>
              max <= LAST_SAFE_COUNT || min < max / 2 || min >= max * 8 / 10
    ensures max > LAST_SAFE_COUNT ==> Classify(max, min) != Lagging
  {
    if max <= LAST_SAFE_COUNT {
      WrapIsExactBelow(max * 8);
    } else {
      WrappedProductIsSmall(max);
    }
  }

  /** The second test as coded. */
  predicate PassesLaggingTest(max: int, min: int) {
    max > 0 && min < Quotient(Wrap(max * 8), 10)
  }

  lemma WrappedProductIsSmaller(max: int)
    requires LAST_SAFE_COUNT < max < TWO_31
    ensures Quotient(Wrap(max * 8), 10) < Quotient(max, 2)
  {
    var p := Wrap(max * 8);
    if max < 0x2000_0000 {
      assert p == max * 8 - TWO_32;
    } else if max < 0x3000_0000 {
      assert p <= max * 8 - TWO_32;
    }
  }

  /** Every Diverged minimum passes the test for Lagging too exactly up to
      268435455 files; beyond that some do not. */
  lemma DivergedIsLaggingUpToTheSafeCount(max: int)
    requires 0 <= max < TWO_31
    ensures (forall min :: 0 <= min <= max && Classify(max, min) == Diverged ==> PassesLaggingTest(max, min)) <==>
              max <= LAST_SAFE_COUNT
  {
    if max <= LAST_SAFE_COUNT {
      WrapIsExactBelow(max * 8);
    } else {
      WrappedProductIsSmaller(max);
      var min := Quotient(max, 2) - 1;
      assert 0 <= min <= max && Classify(max, min) == Diverged && !PassesLaggingTest(max, min);
    }
  }

  /** The first count at which the two differ. */
  lemma FirstDisagreement()
    ensures Classify(268435456, 200000000) == Healthy && ClassifyExactly(268435456, 200000000) == Lagging
    ensures Classify(268435456, 0) == Diverged && !PassesLaggingTest(268435456, 0)
  {
    assert Wrap(268435456 * 8) == -0x8000_0000;
  }
}
