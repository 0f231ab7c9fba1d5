/** Version precedence, section 11 of Semantic Versioning 2.0.0. */
module Semver {

  /** A dot-separated part of a pre-release. */
  datatype Ident = Num(n: nat) | Alpha(s: string)

  datatype Version = Version(major: nat, minor: nat, patch: nat, pre: seq<Ident>)

  function CompareInts(a: int, b: int): int {
    if a < b then -1 else if a > b then 1 else 0
  }

  function CompareChars(a: char, b: char): int {
    CompareInts(a as int, b as int)
  }

  /** Element by element; of two sequences that agree as far as both go, the
      shorter is the lower. */
  function Lexicographic<T>(cmp: (T, T) -> int, a: seq<T>, b: seq<T>): int {
    if a == [] && b == [] then 0
    else if a == [] then -1
    else if b == [] then 1
    else if cmp(a[0], b[0]) != 0 then cmp(a[0], b[0])
    else Lexicographic(cmp, a[1..], b[1..])
  }

  /** Numbers numerically, words in ASCII order, numbers below words. */
  function CompareIdents(a: Ident, b: Ident): int {
    match (a, b)
    case (Num(m), Num(n)) => CompareInts(m, n)
    case (Num(_), Alpha(_)) => -1
    case (Alpha(_), Num(_)) => 1
    case (Alpha(s), Alpha(t)) => Lexicographic(CompareChars, s, t)
  }

  /** A pre-release is below the release itself. */
  function ComparePre(a: seq<Ident>, b: seq<Ident>): int {
    if a == [] && b == [] then 0
    else if a == [] then 1
    else if b == [] then -1
    else Lexicographic(CompareIdents, a, b)
  }

  function Compare(a: Version, b: Version): int {
    if a.major != b.major then CompareInts(a.major, b.major)
    else if a.minor != b.minor then CompareInts(a.minor, b.minor)
    else if a.patch != b.patch then CompareInts(a.patch, b.patch)
    else ComparePre(a.pre, b.pre)
  }

  // ---------- precedence as the standard words it ----------

  /** `s` and `t` first differ where `s` has the lower character, or `s` ends first. */
  ghost predicate WordBelow(s: string, t: string) {
    exists k: nat :: k <= |s| && k < |t| && s[..k] == t[..k] && (k == |s| || s[k] < t[k])
  }

  /** Numbers are compared as numbers, words in ASCII order, and a number is lower. */
  ghost predicate IdentBelow(a: Ident, b: Ident) {
    match (a, b)
    case (Num(m), Num(n)) => m < n
    case (Num(_), Alpha(_)) => true
    case (Alpha(_), Num(_)) => false
    case (Alpha(s), Alpha(t)) => WordBelow(s, t)
  }

  /** The first difference decides; a pre-release is below its release, and with
      all identifiers equal as far as both go the one with fewer is lower. */
  ghost predicate Below(a: Version, b: Version) {
    || a.major < b.major
    || (a.major == b.major && a.minor < b.minor)
    || (a.major == b.major && a.minor == b.minor && a.patch < b.patch)
    || (a.major == b.major && a.minor == b.minor && a.patch == b.patch && PreBelow(a.pre, b.pre))
  }

  ghost predicate PreBelow(a: seq<Ident>, b: seq<Ident>) {
    if a == [] then false
    else if b == [] then true
    else exists k: nat :: k <= |a| && k < |b| && a[..k] == b[..k] && (k == |a| || IdentBelow(a[k], b[k]))
  }

  ghost predicate FirstLower<T(!new)>(cmp: (T, T) -> int, a: seq<T>, b: seq<T>, k: nat) {
    k <= |a| && k < |b| && a[..k] == b[..k] && (k == |a| || cmp(a[k], b[k]) < 0)
  }

  lemma {:induction false} LexicographicExactly<T(!new)>(cmp: (T, T) -> int, a: seq<T>, b: seq<T>)
    requires TotalOrder(cmp)
    ensures Lexicographic(cmp, a, b) < 0 <==> exists k: nat :: FirstLower(cmp, a, b, k)
    decreases |a|
  {
    if a == [] || b == [] {
      assert a == [] && b != [] ==> FirstLower(cmp, a, b, 0);
    } else {
      LexicographicExactly(cmp, a[1..], b[1..]);
      if k: nat :| FirstLower(cmp, a[1..], b[1..], k) && a[0] == b[0] {
        assert a[..k + 1] == [a[0]] + a[1..][..k] && b[..k + 1] == [b[0]] + b[1..][..k];
        assert FirstLower(cmp, a, b, k + 1);
      }
      if cmp(a[0], b[0]) < 0 {
        assert FirstLower(cmp, a, b, 0);
      }
      if k: nat :| FirstLower(cmp, a, b, k) && k > 0 {
        assert a[..k][0] == a[0] && b[..k][0] == b[0];
        assert a[1..][..k - 1] == a[..k][1..] && b[1..][..k - 1] == b[..k][1..];
        assert FirstLower(cmp, a[1..], b[1..], k - 1);
      }
    }
  }

  lemma WordsExactly(s: string, t: string)
    ensures Lexicographic(CompareChars, s, t) < 0 <==> WordBelow(s, t)
  {
    CharsAreOrdered();
    LexicographicExactly(CompareChars, s, t);
    if k: nat :| FirstLower(CompareChars, s, t, k) {
      assert WordBelow(s, t);
    }
    if k: nat :| k <= |s| && k < |t| && s[..k] == t[..k] && (k == |s| || s[k] < t[k]) {
      assert FirstLower(CompareChars, s, t, k);
    }
  }

  lemma IdentsExactly(a: Ident, b: Ident)
    ensures CompareIdents(a, b) < 0 <==> IdentBelow(a, b)
  {
    if a.Alpha? && b.Alpha? {
      WordsExactly(a.s, b.s);
    }
  }

  lemma PresExactly(a: seq<Ident>, b: seq<Ident>)
    ensures ComparePre(a, b) < 0 <==> PreBelow(a, b)
  {
    IdentsAreOrdered();
    LexicographicExactly(CompareIdents, a, b);
    if k: nat :| FirstLower(CompareIdents, a, b, k) {
      if k < |a| {
        IdentsExactly(a[k], b[k]);
      }
      assert a != [] && b != [] ==> PreBelow(a, b);
    }
    if a != [] && b != [] && PreBelow(a, b) {
      var k: nat :| k <= |a| && k < |b| && a[..k] == b[..k] && (k == |a| || IdentBelow(a[k], b[k]));
      if k < |a| {
        IdentsExactly(a[k], b[k]);
      }
      assert FirstLower(CompareIdents, a, b, k);
    }
  }

  /** The comparison says lower exactly when the standard does. */
  lemma ComparesAsTheStandardSays(a: Version, b: Version)
    ensures Compare(a, b) < 0 <==> Below(a, b)
  {
    PresExactly(a.pre, b.pre);
  }

  // ---------- precedence is a total order ----------

  /** `cmp` is a total order that tells any two different values apart. */
  ghost predicate TotalOrder<T(!new)>(cmp: (T, T) -> int) {
    && (forall x, y :: cmp(x, y) == 0 <==> x == y)
    && (forall x, y :: cmp(x, y) == -cmp(y, x))
    && (forall x, y, z :: cmp(x, y) < 0 && cmp(y, z) < 0 ==> cmp(x, z) < 0)
  }

  lemma CharsAreOrdered()
    ensures TotalOrder(CompareChars)
  {
  }

  lemma {:induction false} LexicographicPair<T(!new)>(cmp: (T, T) -> int, a: seq<T>, b: seq<T>)
    requires TotalOrder(cmp)
    ensures Lexicographic(cmp, a, b) == 0 <==> a == b
    ensures Lexicographic(cmp, a, b) == -Lexicographic(cmp, b, a)
    decreases |a|
  {
    if a != [] && b != [] {
      LexicographicPair(cmp, a[1..], b[1..]);
      assert a == [a[0]] + a[1..] && b == [b[0]] + b[1..];
    }
  }

  lemma {:induction false} LexicographicChain<T(!new)>(cmp: (T, T) -> int, a: seq<T>, b: seq<T>, c: seq<T>)
    requires TotalOrder(cmp) && Lexicographic(cmp, a, b) < 0 && Lexicographic(cmp, b, c) < 0
    ensures Lexicographic(cmp, a, c) < 0
    decreases |a|
  {
    if a != [] {
      assert b != [] && c != [];
      if cmp(a[0], b[0]) == 0 && cmp(b[0], c[0]) == 0 {
        LexicographicChain(cmp, a[1..], b[1..], c[1..]);
      }
    }
  }

  lemma LexicographicIsOrdered<T(!new)>(cmp: (T, T) -> int)
    requires TotalOrder(cmp)
    ensures TotalOrder((a: seq<T>, b: seq<T>) => Lexicographic(cmp, a, b))
  {
    forall a: seq<T>, b: seq<T>
      ensures Lexicographic(cmp, a, b) == 0 <==> a == b
      ensures Lexicographic(cmp, a, b) == -Lexicographic(cmp, b, a)
    {
      LexicographicPair(cmp, a, b);
    }
    forall a: seq<T>, b: seq<T>, c: seq<T> | Lexicographic(cmp, a, b) < 0 && Lexicographic(cmp, b, c) < 0
      ensures Lexicographic(cmp, a, c) < 0
    {
      LexicographicChain(cmp, a, b, c);
    }
  }

  lemma IdentsAreOrdered()
    ensures TotalOrder(CompareIdents)
  {
    CharsAreOrdered();
    LexicographicIsOrdered(CompareChars);
    var words := (a: string, b: string) => Lexicographic(CompareChars, a, b);
    assert TotalOrder(words);
    forall x: Ident, y: Ident
      ensures CompareIdents(x, y) == 0 <==> x == y
      ensures CompareIdents(x, y) == -CompareIdents(y, x)
    {
      if x.Alpha? && y.Alpha? {
        assert words(x.s, y.s) == -words(y.s, x.s) && (words(x.s, y.s) == 0 <==> x.s == y.s);
      }
    }
    forall x: Ident, y: Ident, z: Ident | CompareIdents(x, y) < 0 && CompareIdents(y, z) < 0
      ensures CompareIdents(x, z) < 0
    {
      if x.Alpha? && y.Alpha? && z.Alpha? {
        assert words(x.s, y.s) < 0 && words(y.s, z.s) < 0;
      }
    }
  }

  /** Precedence is total, antisymmetric and transitive, for every pair and triple
      of versions, pre-releases included. */
  lemma PrecedenceIsATotalOrder()
    ensures TotalOrder(Compare)
  {
    IdentsAreOrdered();
    LexicographicIsOrdered(CompareIdents);
    var pres := (a: seq<Ident>, b: seq<Ident>) => Lexicographic(CompareIdents, a, b);
    assert TotalOrder(pres);
    forall x: Version, y: Version
      ensures Compare(x, y) == 0 <==> x == y
      ensures Compare(x, y) == -Compare(y, x)
    {
      assert pres(x.pre, y.pre) == -pres(y.pre, x.pre) && (pres(x.pre, y.pre) == 0 <==> x.pre == y.pre);
    }
    forall x: Version, y: Version, z: Version | Compare(x, y) < 0 && Compare(y, z) < 0
      ensures Compare(x, z) < 0
    {
      assert pres(x.pre, y.pre) < 0 && pres(y.pre, z.pre) < 0 ==> pres(x.pre, z.pre) < 0;
    }
  }

  lemma AtLeastIsTransitive(a: Version, b: Version, c: Version)
    requires Compare(a, b) >= 0 && Compare(b, c) >= 0
    ensures Compare(a, c) >= 0
  {
    PrecedenceIsATotalOrder();
    assert Compare(c, b) <= 0 && Compare(b, a) <= 0;
    if Compare(c, b) < 0 && Compare(b, a) < 0 {
      assert Compare(c, a) < 0;
    }
    assert Compare(a, c) == -Compare(c, a);
  }
}
