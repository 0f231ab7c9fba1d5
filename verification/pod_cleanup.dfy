/** The destructive steps after a shrink: deleting unready pods the StatefulSet
    controller would wait on, and the volumes of departed ordinals. */
module PodCleanup {
  import opened Common

  datatype PodInfo = PodInfo(ordinal: nat, ready: bool, deleting: bool)

  /** Answers of the API server to a read or a delete. */
  datatype Answer = Ok | Failed | DoneUnseen

  predicate Stuck(p: PodInfo) {
    !p.deleting && !p.ready
  }

  function StuckOnly(pods: seq<PodInfo>): seq<PodInfo> {
    if pods == [] then []
    else StuckOnly(pods[..|pods| - 1]) + if Stuck(pods[|pods| - 1]) then [pods[|pods| - 1]] else []
  }

  method StuckDepartedPods(pods: seq<PodInfo>) returns (stuck: seq<PodInfo>)
    ensures stuck == StuckOnly(pods)
  {
    stuck := [];
    for i := 0 to |pods|
      invariant stuck == StuckOnly(pods[..i])
    {
      assert pods[..i + 1][..i] == pods[..i];
      if pods[i].deleting || pods[i].ready {
        continue;
      }
      stuck := stuck + [pods[i]];
    }
    assert pods[..|pods|] == pods;
  }

  /** The pods come by ordinal, lowest first. */
  predicate ByOrdinal(pods: seq<PodInfo>) {
    forall a, b :: 0 <= a < b < |pods| ==> pods[a].ordinal < pods[b].ordinal
  }

  /** Exactly the unready pods not already going, each once, in order. */
  lemma {:induction false} StuckOnlyKeepsEveryStuckPod(pods: seq<PodInfo>)
    ensures multiset(StuckOnly(pods)) <= multiset(pods)
    ensures forall p :: p in StuckOnly(pods) <==> p in pods && !p.ready && !p.deleting
  {
    if pods != [] {
      var rest := pods[..|pods| - 1];
      StuckOnlyKeepsEveryStuckPod(rest);
      assert pods == rest + [pods[|pods| - 1]];
    }
  }

  lemma {:induction false} StuckOnlyKeepsTheOrder(pods: seq<PodInfo>)
    requires ByOrdinal(pods)
    ensures ByOrdinal(StuckOnly(pods))
  {
    if pods != [] {
      var rest := pods[..|pods| - 1];
      StuckOnlyKeepsTheOrder(rest);
      StuckOnlyKeepsEveryStuckPod(rest);
      hide StuckOnly, Stuck;
      forall p | p in StuckOnly(rest)
        ensures p.ordinal < pods[|pods| - 1].ordinal
      {
        assert p in rest;
      }
      LastInOrder(rest, pods[|pods| - 1]);
    }
  }

  lemma LastInOrder(rest: seq<PodInfo>, last: PodInfo)
    requires ByOrdinal(StuckOnly(rest)) && forall p :: p in StuckOnly(rest) ==> p.ordinal < last.ordinal
    ensures ByOrdinal(StuckOnly(rest) + [last]) && StuckOnly(rest) + [] == StuckOnly(rest)
  {
  }

  /** What the loops leave, given the answers: everything from `lo` up to the
      first failure is gone. */
  function DeleteUpTo(objects: set<nat>, lo: nat, hi: nat, read: nat -> Answer, delete: nat -> Answer): (r: (set<nat>, bool))
    decreases hi - lo
  {
    if lo >= hi then (objects, true)
    else if read(lo) != Ok then (objects, false)
    else if lo !in objects || delete(lo) == Ok then DeleteUpTo(objects - {lo}, lo + 1, hi, read, delete)
    else if delete(lo) == DoneUnseen then (objects - {lo}, false)
    else (objects, false)
  }

  /** Only unready pods at or above `spec`, not already going, were deleted. */
  ghost predicate OnlyStuckGone(before: map<nat, PodInfo>, after: map<nat, PodInfo>, spec: nat) {
    && after.Keys <= before.Keys
    && (forall i :: i in after ==> after[i] == before[i])
    && (forall i :: i in before && i !in after ==> spec <= i && !before[i].ready && !before[i].deleting)
  }

  /** Every read of a departed pod that the status still counts succeeds, and so
      does every delete of an unready one not already going. */
  ghost predicate DeletesWork(pods: map<nat, PodInfo>, spec: nat, reported: nat, read: nat -> Answer, delete: nat -> Answer) {
    && (forall i: nat :: spec <= i < reported ==> read(i) == Ok)
    && (forall i: nat :: spec <= i < reported && i in pods && !pods[i].ready && !pods[i].deleting ==> delete(i) == Ok)
  }

  /** Departed pod `i` is deleted exactly when all could be read, it is unready and
      not going, its delete takes effect, and so was every lower such delete seen to. */
  ghost predicate GoneExactly(before: map<nat, PodInfo>, after: map<nat, PodInfo>, spec: nat, reported: nat,
                              read: nat -> Answer, delete: nat -> Answer) {
    forall i :: i in before ==>
      (i !in after <==>
        && spec <= i < reported && !before[i].ready && !before[i].deleting
        && (forall j: nat :: spec <= j < reported ==> read(j) == Ok)
        && delete(i) != Failed
        && (forall j: nat :: spec <= j < i && j in before && !before[j].ready && !before[j].deleting ==> delete(j) == Ok))
  }

  /** Pod `i` is in the list, behind deletes that all succeed. */
  ghost predicate ReachedAt(stuck: seq<PodInfo>, delete: nat -> Answer, i: nat) {
    exists k :: 0 <= k < |stuck| && stuck[k].ordinal == i && forall j :: 0 <= j < k ==> delete(stuck[j].ordinal) == Ok
  }

  /** No departed pod that the status counts is left unready, unless it is going. */
  ghost predicate NoneStuck(pods: map<nat, PodInfo>, spec: nat, reported: nat) {
    forall i :: i in pods && spec <= i < reported ==> pods[i].ready || pods[i].deleting
  }

  /** Only objects from `lo` up to `hi` were deleted. */
  ghost predicate OnlyRangeGone(before: set<nat>, after: set<nat>, lo: nat, hi: nat) {
    after <= before && forall i :: i in before && i !in after ==> lo <= i < hi
  }

  class Store {
    var pods: map<nat, PodInfo>
    var pvcs: set<nat>

    constructor (p: map<nat, PodInfo>, v: set<nat>)
      ensures pods == p && pvcs == v
    {
      pods, pvcs := p, v;
    }

    /** CleanupOrphanPVCs. */
    method CleanupOrphanPVCs(current: nat, desired: nat, read: nat -> Answer, delete: nat -> Answer) returns (ok: bool)
      modifies this`pvcs
      ensures OnlyRangeGone(old(pvcs), pvcs, desired, current)
      ensures ok ==> forall i :: i in pvcs ==> !(desired <= i < current)
      ensures (pvcs, ok) == DeleteUpTo(old(pvcs), desired, current, read, delete)
    {
      OnlyTheRangeIsDeleted(pvcs, desired, current, read, delete);
      var i := desired;
      while i < current
        invariant desired <= i
        invariant DeleteUpTo(pvcs, i, current, read, delete) == DeleteUpTo(old(pvcs), desired, current, read, delete)
        decreases current - i
      {
        if read(i) != Ok {
          return false;
        }
        if i in pvcs {
          if delete(i) != Failed {
            pvcs := pvcs - {i};
          }
          if delete(i) != Ok {
            return false;
          }
        }
        assert pvcs - {i} == pvcs;
        i := i + 1;
      }
      return true;
    }

    method ListDeparted(specReplicas: nat, statusReplicas: nat, read: nat -> Answer) returns (ok: bool, above: seq<PodInfo>)
      requires specReplicas < statusReplicas
      requires forall i :: i in pods ==> pods[i].ordinal == i
      ensures ok <==> forall j: nat :: specReplicas <= j < statusReplicas ==> read(j) == Ok
      ensures ok ==> ByOrdinal(above) && forall p :: p in above <==>
        p.ordinal in pods && pods[p.ordinal] == p && specReplicas <= p.ordinal < statusReplicas
    {
      ok, above := true, [];
      var i := specReplicas;
      while i < statusReplicas
        invariant specReplicas <= i <= statusReplicas
        invariant ByOrdinal(above) && forall p :: p in above <==>
          p.ordinal in pods && pods[p.ordinal] == p && specReplicas <= p.ordinal < i
        invariant forall j: nat :: specReplicas <= j < i ==> read(j) == Ok
      {
        if read(i) != Ok {
          return false, [];
        }
        if i in pods {
          assert forall p :: p in above ==> p.ordinal < i;
          above := above + [pods[i]];
        }
        i := i + 1;
      }
    }

    method DeletePods(stuck: seq<PodInfo>, delete: nat -> Answer) returns (ok: bool)
      requires ByOrdinal(stuck)
      modifies this`pods
      ensures pods.Keys <= old(pods).Keys && forall i :: i in pods ==> pods[i] == old(pods)[i]
      ensures forall i :: i in old(pods) ==>
        (i !in pods <==> delete(i) != Failed && ReachedAt(stuck, delete, i))
      ensures ok <==> forall k :: 0 <= k < |stuck| ==> delete(stuck[k].ordinal) == Ok
    {
      var k := 0;
      while k < |stuck|
        invariant 0 <= k <= |stuck|
        invariant pods.Keys <= old(pods).Keys && forall i :: i in pods ==> pods[i] == old(pods)[i]
        invariant forall i :: i in old(pods) ==> (i !in pods <==> exists j :: 0 <= j < k && stuck[j].ordinal == i)
        invariant forall j :: 0 <= j < k ==> delete(stuck[j].ordinal) == Ok
      {
        var p := stuck[k];
        if delete(p.ordinal) != Failed {
          pods := pods - {p.ordinal};
        }
        if delete(p.ordinal) != Ok {
          return false;
        }
        k := k + 1;
      }
      return true;
    }

    /** deleteStuckDepartedPods: only unready pods at or above spec.replicas go,
        each of them unless an answer was bad. */
    method DeleteStuckDepartedPods(specReplicas: nat, statusReplicas: nat, read: nat -> Answer, delete: nat -> Answer)
      returns (ok: bool)
      requires forall i :: i in pods ==> pods[i].ordinal == i
      modifies this`pods
      ensures OnlyStuckGone(old(pods), pods, specReplicas)
      ensures GoneExactly(old(pods), pods, specReplicas, statusReplicas, read, delete)
      ensures ok <==> DeletesWork(old(pods), specReplicas, statusReplicas, read, delete)
      ensures ok ==> NoneStuck(pods, specReplicas, statusReplicas)
    {
      if statusReplicas <= specReplicas {
        return true;
      }
      var read_ok, above := ListDeparted(specReplicas, statusReplicas, read);
      if !read_ok {
        return false;
      }
      var stuck := StuckDepartedPods(above);
      StuckOnlyKeepsTheOrder(above);
      StuckAre(pods, above, specReplicas, statusReplicas);
      hide *;
      ok := DeletePods(stuck, delete);
      DeletedExactly(old(pods), pods, stuck, specReplicas, statusReplicas, read, delete);
    }
  }

  /** The list holds the stuck pods from `spec` up to `reported`. */
  ghost predicate ListsStuck(pods: map<nat, PodInfo>, stuck: seq<PodInfo>, spec: nat, reported: nat) {
    && (forall k :: 0 <= k < |stuck| ==>
          var i := stuck[k].ordinal; i in pods && spec <= i < reported && !pods[i].ready && !pods[i].deleting)
    && (forall i :: i in pods && spec <= i < reported && !pods[i].ready && !pods[i].deleting ==>
          exists k :: 0 <= k < |stuck| && stuck[k].ordinal == i)
  }

  lemma StuckAre(pods: map<nat, PodInfo>, above: seq<PodInfo>, spec: nat, reported: nat)
    requires forall i :: i in pods ==> pods[i].ordinal == i
    requires forall p :: p in above <==> p.ordinal in pods && pods[p.ordinal] == p && spec <= p.ordinal < reported
    ensures ListsStuck(pods, StuckOnly(above), spec, reported)
  {
    StuckOnlyKeepsEveryStuckPod(above);
    hide StuckOnly;
    forall k | 0 <= k < |StuckOnly(above)|
      ensures var i := StuckOnly(above)[k].ordinal; i in pods && spec <= i < reported && !pods[i].ready && !pods[i].deleting
    {
      assert StuckOnly(above)[k] in StuckOnly(above);
    }
    forall i | i in pods && spec <= i < reported && !pods[i].ready && !pods[i].deleting
      ensures exists k :: 0 <= k < |StuckOnly(above)| && StuckOnly(above)[k].ordinal == i
    {
      assert pods[i] in above && pods[i] in StuckOnly(above);
    }
  }

  lemma ReachedExactly(pods: map<nat, PodInfo>, stuck: seq<PodInfo>, spec: nat, reported: nat, delete: nat -> Answer, i: nat)
    requires ByOrdinal(stuck) && ListsStuck(pods, stuck, spec, reported) && i in pods
    ensures ReachedAt(stuck, delete, i) <==>
      && spec <= i < reported && !pods[i].ready && !pods[i].deleting
      && (forall j: nat :: spec <= j < i && j in pods && !pods[j].ready && !pods[j].deleting ==> delete(j) == Ok)
  {
    if spec <= i < reported && !pods[i].ready && !pods[i].deleting {
      var k :| 0 <= k < |stuck| && stuck[k].ordinal == i;
      assert forall m :: 0 <= m < |stuck| && stuck[m].ordinal == i ==> m == k;
      assert forall m :: 0 <= m < |stuck| ==> (m < k <==> stuck[m].ordinal < i);
    }
  }

  lemma DeletedExactly(before: map<nat, PodInfo>, after: map<nat, PodInfo>, stuck: seq<PodInfo>, spec: nat, reported: nat,
                       read: nat -> Answer, delete: nat -> Answer)
    requires ByOrdinal(stuck) && ListsStuck(before, stuck, spec, reported)
    requires forall j: nat :: spec <= j < reported ==> read(j) == Ok
    requires after.Keys <= before.Keys && forall i :: i in after ==> after[i] == before[i]
    requires forall i :: i in before ==> (i !in after <==> delete(i) != Failed && ReachedAt(stuck, delete, i))
    ensures OnlyStuckGone(before, after, spec) && GoneExactly(before, after, spec, reported, read, delete)
    ensures (forall k :: 0 <= k < |stuck| ==> delete(stuck[k].ordinal) == Ok) <==> DeletesWork(before, spec, reported, read, delete)
    ensures DeletesWork(before, spec, reported, read, delete) ==> NoneStuck(after, spec, reported)
  {
    forall i | i in before
      ensures ReachedAt(stuck, delete, i) <==>
        && spec <= i < reported && !before[i].ready && !before[i].deleting
        && (forall j: nat :: spec <= j < i && j in before && !before[j].ready && !before[j].deleting ==> delete(j) == Ok)
    {
      ReachedExactly(before, stuck, spec, reported, delete, i);
    }
    hide ReachedAt;
  }

  /** The loop goes no further than object `j`. */
  predicate Stops(objects: set<nat>, read: nat -> Answer, delete: nat -> Answer, j: nat) {
    read(j) != Ok || (j in objects && delete(j) != Ok)
  }

  /** An object in the range outlives the loop exactly when its own read or delete
      fails, or the loop stopped at an earlier one. */
  lemma {:induction false} SurvivesExactly(objects: set<nat>, lo: nat, hi: nat, read: nat -> Answer, delete: nat -> Answer, i: nat)
    requires i in objects && lo <= i < hi
    ensures i in DeleteUpTo(objects, lo, hi, read, delete).0 <==>
      read(i) != Ok || delete(i) == Failed || exists j :: lo <= j < i && Stops(objects, read, delete, j)
    decreases hi - lo
  {
    if lo < i {
      if Stops(objects, read, delete, lo) {
        OnlyTheRangeIsDeleted(objects, lo, hi, read, delete);
      } else {
        SurvivesExactly(objects - {lo}, lo + 1, hi, read, delete, i);
        forall j | lo < j < i
          ensures Stops(objects - {lo}, read, delete, j) == Stops(objects, read, delete, j)
        {
        }
      }
    } else if read(i) == Ok && delete(i) == Ok {
      OnlyTheRangeIsDeleted(objects - {i}, i + 1, hi, read, delete);
    }
  }

  /** Volumes below `lo` and from `hi` on are never touched, and on success none
      is left in between. */
  lemma {:induction false} OnlyTheRangeIsDeleted(objects: set<nat>, lo: nat, hi: nat, read: nat -> Answer, delete: nat -> Answer)
    ensures var (left, ok) := DeleteUpTo(objects, lo, hi, read, delete);
      && OnlyRangeGone(objects, left, lo, hi)
      && (ok ==> forall i :: i in left ==> !(lo <= i < hi))
    decreases hi - lo
  {
    if lo < hi && read(lo) == Ok && (lo !in objects || delete(lo) == Ok) {
      OnlyTheRangeIsDeleted(objects - {lo}, lo + 1, hi, read, delete);
    }
  }
}
