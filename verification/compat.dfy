/** Which capabilities the operator renders for which database version. */
module Compat {
  import opened Common
  import opened Semver

  datatype Capability =
    | SplitChdbPools
    | AutoQueryPool
    | Sharding
    | ControlListener
    | EvacuateTogether
    | ClusterAuth
    | ProxyAdminListener

  datatype Entry = Entry(capability: Capability, since: Version)

  const BETA := [Alpha("beta")]
  const VERSION_090_BETA := Version(0, 9, 0, BETA)
  const VERSION_091_BETA := Version(0, 9, 1, BETA)
  const LATEST := Version(0, 9, 3, BETA)
  const OLDEST := Version(0, 8, 0, [])

  const MATRIX: seq<Entry> := [
    Entry(SplitChdbPools, VERSION_090_BETA),
    Entry(AutoQueryPool, VERSION_090_BETA),
    Entry(Sharding, VERSION_090_BETA),
    Entry(ControlListener, VERSION_090_BETA),
    Entry(EvacuateTogether, VERSION_090_BETA),
    Entry(ClusterAuth, VERSION_091_BETA),
    Entry(ProxyAdminListener, VERSION_090_BETA)]

  /** The first row of the matrix for `capability` decides. */
  predicate SupportedBy(matrix: seq<Entry>, v: Version, capability: Capability) {
    matrix != [] &&
    if matrix[0].capability == capability then Compare(v, matrix[0].since) >= 0
    else SupportedBy(matrix[1..], v, capability)
  }

  predicate VersionSupports(v: Version, capability: Capability) {
    SupportedBy(MATRIX, v, capability)
  }

  // ---------- which version a cluster runs ----------

  datatype Source = Annotation | SpecVersion | ImageTag | Assumed

  datatype DatabaseVersion = DatabaseVersion(version: Version, source: Source)

  /** The first candidate that reads as a version; `parse` decides what does. */
  function FirstVersion(candidates: seq<(Source, string)>, parse: string -> Option<Version>): DatabaseVersion {
    if candidates == [] then DatabaseVersion(LATEST, Assumed)
    else if candidates[0].1 != "" && parse(candidates[0].1).Some?
    then DatabaseVersion(parse(candidates[0].1).value, candidates[0].0)
    else FirstVersion(candidates[1..], parse)
  }

  function ResolveDatabaseVersion(annotation: string, specVersion: string, imageTag: string,
                                  parse: string -> Option<Version>): DatabaseVersion
  {
    FirstVersion([(Annotation, annotation), (SpecVersion, specVersion), (ImageTag, imageTag)], parse)
  }

  predicate Reads(raw: string, parse: string -> Option<Version>) {
    raw != "" && parse(raw).Some?
  }

  /** The annotation wins over spec.version, which wins over the image tag; the
      newest known version is assumed exactly when none of them is a version. */
  lemma VersionPrecedence(annotation: string, specVersion: string, imageTag: string, parse: string -> Option<Version>)
    ensures var r := ResolveDatabaseVersion(annotation, specVersion, imageTag, parse);
      var (first, second, third) := (annotation != "" && parse(annotation).Some?,
                                     specVersion != "" && parse(specVersion).Some?, imageTag != "" && parse(imageTag).Some?);
      match r.source
      case Annotation => first && r.version == parse(annotation).value
      case SpecVersion => !first && second && r.version == parse(specVersion).value
      case ImageTag => !first && !second && third && r.version == parse(imageTag).value
      case Assumed => !first && !second && !third && r.version == Version(0, 9, 3, [Alpha("beta")])
  {
    var tag := [(ImageTag, imageTag)];
    var spec := [(SpecVersion, specVersion)] + tag;
    var all := [(Annotation, annotation)] + spec;
    assert tag[1..] == [] && spec[1..] == tag && all[1..] == spec;
    assert FirstVersion(tag, parse) ==
      if Reads(imageTag, parse) then DatabaseVersion(parse(imageTag).value, ImageTag) else DatabaseVersion(LATEST, Assumed);
    assert FirstVersion(spec, parse) ==
      if Reads(specVersion, parse) then DatabaseVersion(parse(specVersion).value, SpecVersion) else FirstVersion(tag, parse);
    assert all == [(Annotation, annotation), (SpecVersion, specVersion), (ImageTag, imageTag)];
  }

  // ---------- the summary ----------

  datatype Reason = Supported | AssumedLatest | OlderThanSupported | NewerThanKnown

  function MissingFrom(entries: seq<Entry>, v: Version): seq<Capability> {
    if entries == [] then []
    else
      var last := entries[|entries| - 1].capability;
      MissingFrom(entries[..|entries| - 1], v) + if VersionSupports(v, last) then [] else [last]
  }

  method CompatibilitySummary(dv: DatabaseVersion) returns (reason: Reason, missing: seq<Capability>)
    ensures missing == MissingFrom(MATRIX, dv.version)
    ensures reason == AssumedLatest <==> dv.source == Assumed
    ensures reason == OlderThanSupported <==> dv.source != Assumed && Compare(dv.version, Version(0, 8, 0, [])) < 0
    ensures reason == NewerThanKnown <==>
      dv.source != Assumed && Compare(dv.version, Version(0, 8, 0, [])) >= 0
      && Compare(dv.version, Version(0, 9, 3, [Alpha("beta")])) > 0
  {
    missing := [];
    for i := 0 to |MATRIX|
      invariant missing == MissingFrom(MATRIX[..i], dv.version)
    {
      assert MATRIX[..i + 1][..i] == MATRIX[..i];
      if !VersionSupports(dv.version, MATRIX[i].capability) {
        missing := missing + [MATRIX[i].capability];
      }
    }
    assert MATRIX[..|MATRIX|] == MATRIX;
    reason := Supported;
    if dv.source == Assumed {
      reason := AssumedLatest;
    } else if Compare(dv.version, OLDEST) < 0 {
      reason := OlderThanSupported;
    } else if Compare(dv.version, LATEST) > 0 {
      reason := NewerThanKnown;
    }
  }

  // ---------- what follows ----------

  /** What each capability asks for: 0.9.1-beta for cluster auth, 0.9.0-beta for
      every other. */
  lemma SupportedExactly(v: Version, capability: Capability)
    ensures VersionSupports(v, capability) <==>
      Compare(v, Version(0, 9, if capability == ClusterAuth then 1 else 0, [Alpha("beta")])) >= 0
  {
    SupportedFromRow(v, capability, 0);
    assert MATRIX[0..] == MATRIX;
  }

  /** Deciding from row `k` on, when the capability's row is not before. */
  lemma {:induction false} SupportedFromRow(v: Version, capability: Capability, k: nat)
    requires k < 7 && forall j :: 0 <= j < k ==> MATRIX[j].capability != capability
    ensures SupportedBy(MATRIX[k..], v, capability) <==>
      Compare(v, Version(0, 9, if capability == ClusterAuth then 1 else 0, [Alpha("beta")])) >= 0
    decreases 7 - k
  {
    hide Compare;
    assert MATRIX[k..][0] == MATRIX[k] && MATRIX[k..][1..] == MATRIX[k + 1..];
    if MATRIX[k].capability != capability && k < 6 {
      SupportedFromRow(v, capability, k + 1);
    } else {
      assert k in {0, 1, 2, 3, 4, 5, 6};
      assert MATRIX[0].capability == SplitChdbPools && MATRIX[1].capability == AutoQueryPool && MATRIX[2].capability == Sharding
        && MATRIX[3].capability == ControlListener && MATRIX[4].capability == EvacuateTogether && MATRIX[5].capability == ClusterAuth;
    }
  }

  lemma OlderIsBelowNewer()
    ensures Compare(VERSION_091_BETA, VERSION_090_BETA) > 0
  {
  }

  /** So the missing list has one of three values. */
  lemma MissingExactly(v: Version)
    ensures MissingFrom(MATRIX, v) ==
      if Compare(v, Version(0, 9, 1, [Alpha("beta")])) >= 0 then []
      else if Compare(v, Version(0, 9, 0, [Alpha("beta")])) >= 0 then [ClusterAuth]
      else [SplitChdbPools, AutoQueryPool, Sharding, ControlListener, EvacuateTogether, ClusterAuth, ProxyAdminListener]
  {
    if Compare(v, VERSION_091_BETA) >= 0 {
      OlderIsBelowNewer();
      AtLeastIsTransitive(v, VERSION_091_BETA, VERSION_090_BETA);
    }
    MissingUpTo(v, 7);
    assert MATRIX[..7] == MATRIX;
  }

  /** The missing ones among the first `k` rows. */
  lemma {:induction false} MissingUpTo(v: Version, k: nat)
    requires k <= 7
    requires Compare(v, VERSION_091_BETA) >= 0 ==> Compare(v, VERSION_090_BETA) >= 0
    ensures MissingFrom(MATRIX[..k], v) ==
      if Compare(v, VERSION_091_BETA) >= 0 then []
      else if Compare(v, VERSION_090_BETA) >= 0 then if k >= 6 then [ClusterAuth] else []
      else [SplitChdbPools, AutoQueryPool, Sharding, ControlListener, EvacuateTogether, ClusterAuth, ProxyAdminListener][..k]
  {
    hide Compare, SupportedBy;
    if k > 0 {
      MissingUpTo(v, k - 1);
      assert MATRIX[..k][..k - 1] == MATRIX[..k - 1];
      SupportedExactly(v, MATRIX[k - 1].capability);
      assert k in {1, 2, 3, 4, 5, 6, 7};
    }
  }

  /** A newer version has every capability of an older one. */
  lemma {:induction false} SupportIsUpwardClosed(matrix: seq<Entry>, lower: Version, higher: Version, capability: Capability)
    requires Compare(higher, lower) >= 0 && SupportedBy(matrix, lower, capability)
    ensures SupportedBy(matrix, higher, capability)
  {
    if matrix[0].capability == capability {
      AtLeastIsTransitive(higher, lower, matrix[0].since);
    } else {
      SupportIsUpwardClosed(matrix[1..], lower, higher, capability);
    }
  }

  /** `a` is `b` with some elements left out. */
  ghost predicate Sublist<T>(a: seq<T>, b: seq<T>) {
    if a == [] then true
    else if b == [] then false
    else (a[|a| - 1] == b[|b| - 1] && Sublist(a[..|a| - 1], b[..|b| - 1])) || Sublist(a, b[..|b| - 1])
  }

  lemma {:induction false} NewerMissesLess(entries: seq<Entry>, lower: Version, higher: Version)
    requires Compare(higher, lower) >= 0
    ensures Sublist(MissingFrom(entries, higher), MissingFrom(entries, lower))
  {
    if entries != [] {
      var front, last := entries[..|entries| - 1], entries[|entries| - 1].capability;
      NewerMissesLess(front, lower, higher);
      var a, b := MissingFrom(front, higher), MissingFrom(front, lower);
      assert a + [] == a && b + [] == b;
      if VersionSupports(lower, last) {
        SupportIsUpwardClosed(MATRIX, lower, higher, last);
      } else {
        assert (b + [last])[..|b + [last]| - 1] == b && (a + [last])[..|a + [last]| - 1] == a;
      }
    }
  }

  /** What a newer version lacks, an older one lacks too, in the same order. */
  lemma MissingShrinksWithNewerVersions(lower: Version, higher: Version)
    requires Compare(higher, lower) >= 0
    ensures Sublist(MissingFrom(MATRIX, higher), MissingFrom(MATRIX, lower))
  {
    NewerMissesLess(MATRIX, lower, higher);
  }

  /** Assuming the newest version never leaves anything out. */
  lemma NothingIsMissingWhenAssumed()
    ensures MissingFrom(MATRIX, LATEST) == []
  {
    forall i: nat | i <= |MATRIX|
      ensures MissingFrom(MATRIX[..i], LATEST) == []
    {
      NothingMissingUpTo(i);
    }
    assert MATRIX[..|MATRIX|] == MATRIX;
  }

  lemma {:induction false} NothingMissingUpTo(i: nat)
    requires i <= |MATRIX|
    ensures MissingFrom(MATRIX[..i], LATEST) == []
  {
    if i > 0 {
      NothingMissingUpTo(i - 1);
      assert MATRIX[..i][..i - 1] == MATRIX[..i - 1];
      LatestSupports(MATRIX, MATRIX[i - 1].capability);
    }
  }

  lemma {:induction false} LatestSupports(matrix: seq<Entry>, capability: Capability)
    requires exists e :: e in matrix && e.capability == capability
    requires forall e :: e in matrix ==> e in MATRIX
    ensures SupportedBy(matrix, LATEST, capability)
  {
    if matrix[0].capability == capability {
      assert matrix[0] in MATRIX;
      var k :| 0 <= k < |MATRIX| && MATRIX[k] == matrix[0];
      assert k in {0, 1, 2, 3, 4, 5, 6};
      assert matrix[0].since == VERSION_090_BETA || matrix[0].since == VERSION_091_BETA;
    } else {
      LatestSupports(matrix[1..], capability);
    }
  }
}
