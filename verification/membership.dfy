/** Asking the Raft leader to admit every reachable pod it does not know. */
module Membership {
  import opened Common
  import Evacuation
  import opened RaftVoters

  datatype NodeInfo = NodeInfo(id: nat, state: string)

  /** One pod below spec.replicas as this pass saw it; pod `i` is node `i + 1`. */
  datatype PodView = PodView(reachable: bool, nodes: seq<NodeInfo>)

  datatype AddReply = Added | AddedUnseen | Refused

  datatype Formed = AllMembers | NoLeader | Incomplete

  predicate IsDepartedState(state: string) {
    state == Evacuation.LEAVING || state == Evacuation.DECOMMISSIONING
  }

  // ---------- what the pass should find and do ----------

  /** Pod `i` answers and names a leader among the expected pods. */
  predicate PointsAtLeader(views: seq<PodView>, voices: nat -> Voice, i: nat) {
    i < |views| && views[i].reachable && voices(i + 1).Names? && 1 <= voices(i + 1).leader <= |views|
  }

  /** The nodes the leader counts as current members. */
  function Known(views: seq<PodView>, leader: nat): set<nat>
    requires 1 <= leader <= |views|
  {
    {leader} + set n | n in views[leader - 1].nodes && !IsDepartedState(n.state) :: n.id
  }

  predicate Unknown(views: seq<PodView>, leader: nat, id: nat)
    requires 1 <= leader <= |views|
  {
    1 <= id <= |views| && views[id - 1].reachable && id !in Known(views, leader)
  }

  /** Every expected pod is reachable, and known or admitted just now. */
  predicate AllIn(views: seq<PodView>, leader: nat, add: nat -> AddReply)
    requires 1 <= leader <= |views|
  {
    forall id: nat :: 1 <= id <= |views| ==> InOrAdded(views, leader, add, id)
  }

  predicate InOrAdded(views: seq<PodView>, leader: nat, add: nat -> AddReply, id: nat)
    requires 1 <= leader <= |views| && 1 <= id <= |views|
  {
    views[id - 1].reachable && (id in Known(views, leader) || add(id) == Added)
  }

  /** The leader is whom the first reachable pod to name an expected node names,
      and there is none when no pod does. */
  ghost predicate IsLeader(views: seq<PodView>, voices: nat -> Voice, leader: Option<nat>) {
    match leader
    case None => forall i: nat :: i < |views| && views[i].reachable && voices(i + 1).Names? ==> !(1 <= voices(i + 1).leader <= |views|)
    case Some(id) =>
      1 <= id <= |views| && exists i: nat ::
        && i < |views| && views[i].reachable && voices(i + 1) == Names(id)
        && forall j: nat :: j < i && views[j].reachable && voices(j + 1).Names? ==> !(1 <= voices(j + 1).leader <= |views|)
  }

  // ---------- the code ----------

  method FindLeader(views: seq<PodView>, voices: nat -> Voice) returns (leader: Option<nat>)
    ensures IsLeader(views, voices, leader)
  {
    var i := 0;
    while i < |views|
      invariant 0 <= i <= |views|
      invariant forall j: nat :: j < i ==> !PointsAtLeader(views, voices, j)
    {
      if views[i].reachable && voices(i + 1).Names? {
        var id := voices(i + 1).leader;
        assert PointsAtLeader(views, voices, i) <==> 1 <= id <= |views|;
        assert forall j: nat :: j < i && views[j].reachable && voices(j + 1).Names? ==>
          !PointsAtLeader(views, voices, j) && !(1 <= voices(j + 1).leader <= |views|);
        if id == i + 1 {
          return Some(id);
        }
        var w := 0;
        while w < |views|
          invariant 0 <= w <= |views|
          invariant !(1 <= id <= w)
        {
          if w + 1 == id {
            return Some(id);
          }
          w := w + 1;
        }
        assert !(1 <= id <= |views|);
      }
      i := i + 1;
    }
    assert forall j: nat :: j < i && views[j].reachable && voices(j + 1).Names? ==>
      !PointsAtLeader(views, voices, j) && !(1 <= voices(j + 1).leader <= |views|);
    return None;
  }

  method CollectKnown(views: seq<PodView>, leader: nat) returns (known: set<nat>)
    requires 1 <= leader <= |views|
    ensures known == Known(views, leader)
  {
    known := {};
    var nodes := views[leader - 1].nodes;
    var k := 0;
    while k < |nodes|
      invariant 0 <= k <= |nodes|
      invariant known == set n | n in nodes[..k] && !IsDepartedState(n.state) :: n.id
    {
      assert nodes[..k + 1] == nodes[..k] + [nodes[k]];
      if !IsDepartedState(nodes[k].state) {
        known := known + {nodes[k].id};
      }
      k := k + 1;
    }
    assert nodes[..k] == nodes;
    known := known + {leader};
  }

  method ReconcileClusterMembership(views: seq<PodView>, voices: nat -> Voice, add: nat -> AddReply)
    returns (leader: Option<nat>, asked: seq<nat>, formed: Formed)
    ensures IsLeader(views, voices, leader)
    ensures leader.None? ==> asked == [] && formed == NoLeader
    ensures leader.Some? ==> 1 <= leader.value <= |views| && formed != NoLeader
    ensures leader.Some? ==> Ascending(asked) && forall id: nat :: id in asked <==> Unknown(views, leader.value, id)
    ensures leader.Some? ==>
              (formed == AllMembers <==> AllIn(views, leader.value, add) && |Known(views, leader.value)| >= |views|)
  {
    asked, formed := [], NoLeader;
    leader := FindLeader(views, voices);
    if leader.None? {
      return;
    }
    var known := CollectKnown(views, leader.value);
    var all := true;
    var i := 0;
    while i < |views|
      invariant 0 <= i <= |views|
      invariant Ascending(asked) && forall a :: 0 <= a < |asked| ==> asked[a] <= i
      invariant forall id: nat :: id in asked <==> id <= i && Unknown(views, leader.value, id)
      invariant all <==> forall id: nat :: 1 <= id <= i ==> InOrAdded(views, leader.value, add, id)
    {
      assert InOrAdded(views, leader.value, add, i + 1) <==> views[i].reachable && (i + 1 in known || add(i + 1) == Added);
      if !views[i].reachable {
        all := false;
      } else if i + 1 !in known {
        asked := asked + [i + 1];
        if add(i + 1) != Added {
          all := false;
        }
      }
      i := i + 1;
    }
    formed := if all && |known| >= |views| then AllMembers else Incomplete;
  }

  // ---------- what follows ----------

  /** The leader counts itself and whom it lists as anything but departed. */
  lemma KnownExactly(views: seq<PodView>, leader: nat, id: nat)
    requires 1 <= leader <= |views|
    ensures id in Known(views, leader) <==>
      id == leader
      || exists n :: n in views[leader - 1].nodes && n.id == id && n.state != "leaving" && n.state != "decommissioning"
  {
  }

  /** A reachable expected pod is asked for exactly when it is not the leader and
      the leader lists it, if at all, as leaving or decommissioning: so a node that
      had been scaled away comes back in. */
  lemma AskedForExactly(views: seq<PodView>, leader: nat, id: nat)
    requires 1 <= leader <= |views| && 1 <= id <= |views|
    ensures Unknown(views, leader, id) <==>
      && views[id - 1].reachable && id != leader
      && forall n :: n in views[leader - 1].nodes && n.id == id ==> n.state == "leaving" || n.state == "decommissioning"
  {
    KnownExactly(views, leader, id);
  }

  /** What ClusterFormed asks of every expected pod: that it is reachable, and
      counted by the leader or admitted by a call whose answer was seen. */
  lemma AllInExactly(views: seq<PodView>, leader: nat, add: nat -> AddReply)
    requires 1 <= leader <= |views|
    ensures AllIn(views, leader, add) <==>
      && (forall i: nat :: i < |views| ==> views[i].reachable)
      && (forall id: nat :: 1 <= id <= |views| && id !in Known(views, leader) ==> add(id) == Added)
  {
    if AllIn(views, leader, add) {
      forall i: nat | i < |views|
        ensures views[i].reachable
        ensures i + 1 !in Known(views, leader) ==> add(i + 1) == Added
      {
        assert InOrAdded(views, leader, add, i + 1);
      }
      forall id: nat | 1 <= id <= |views| && id !in Known(views, leader)
        ensures add(id) == Added
      {
        assert InOrAdded(views, leader, add, id);
      }
    }
  }

  predicate AlreadyIn(views: seq<PodView>, leader: nat, id: nat)
    requires 1 <= leader <= |views| && 1 <= id <= |views|
  {
    views[id - 1].reachable && id in Known(views, leader)
  }

  /** When the leader lists no node beyond the expected ones, ClusterFormed is
      True exactly when every expected pod is reachable and was a member before
      this pass: a pass that asks for a node never reports True. */
  lemma FormedMeansAlreadyMembers(views: seq<PodView>, leader: nat, add: nat -> AddReply)
    requires 1 <= leader <= |views|
    requires forall id :: id in Known(views, leader) ==> 1 <= id <= |views|
    ensures AllIn(views, leader, add) && |Known(views, leader)| >= |views| <==>
      forall id: nat :: 1 <= id <= |views| ==> AlreadyIn(views, leader, id)
  {
    var known, all := Known(views, leader), Interval(1, |views| + 1);
    if AllIn(views, leader, add) && |known| >= |views| {
      forall id: nat | 1 <= id <= |views|
        ensures AlreadyIn(views, leader, id)
      {
        assert InOrAdded(views, leader, add, id);
        if id !in known {
          SubsetIsSmaller(known, all - {id});
          assert false;
        }
      }
    }
    if forall id: nat :: 1 <= id <= |views| ==> AlreadyIn(views, leader, id) {
      forall id: nat | 1 <= id <= |views|
        ensures InOrAdded(views, leader, add, id)
      {
        assert AlreadyIn(views, leader, id);
      }
      assert forall id :: id in all ==> AlreadyIn(views, leader, id);
      SubsetIsSmaller(all, known);
    }
  }

  /** Without that, stale entries can stand in for nodes admitted only now. */
  lemma StaleEntriesCanFillTheCount() returns (views: seq<PodView>, add: nat -> AddReply)
    ensures |views| == 2 && AllIn(views, 1, add) && |Known(views, 1)| >= 2 && 2 !in Known(views, 1)
  {
    views := [PodView(true, [NodeInfo(7, "active")]), PodView(true, [])];
    add := (id: nat) => Added;
    assert NodeInfo(7, "active") in views[0].nodes && "active"[0] != "leaving"[0] && "active"[0] != "decommissioning"[0];
    assert {1, 7} <= Known(views, 1);
    hide *;
    SubsetIsSmaller({1, 7}, Known(views, 1));
    assert |{1, 7}| == 2 by {
      assert {1, 7} - {1} == {7};
    }
  }
}
