/** Which departing nodes to tell to decommission, and whether all of them have
    released their regions. */
module Evacuation {
  import opened Common

  const LEAVING := "leaving"
  const DECOMMISSIONING := "decommissioning"

  /** A departing node, highest ordinal first, as its health probe reported it. */
  datatype DepartingNode = DepartingNode(state: string, reachable: bool)

  datatype Action = Action(decommission: bool, gate: bool)

  function DepartingNodeAction(state: string, reachable: bool): Action {
    if !reachable then Action(false, false)
    else if state == LEAVING then Action(false, false)
    else if state == DECOMMISSIONING then Action(false, true)
    else Action(true, true)
  }

  // ---------- what a plan must say ----------

  /** The node holds nothing back: it is out of reach or fully evacuated. */
  predicate Released(n: DepartingNode) {
    !n.reachable || n.state == LEAVING
  }

  predicate Untold(n: DepartingNode) {
    n.reachable && n.state != LEAVING && n.state != DECOMMISSIONING
  }

  predicate AllReleased(nodes: seq<DepartingNode>) {
    forall i :: 0 <= i < |nodes| ==> Released(nodes[i])
  }

  /** Together, every node not yet told; one at a time, only a node all of whose
      predecessors have released their regions. */
  predicate ToTell(nodes: seq<DepartingNode>, together: bool, i: int) {
    0 <= i < |nodes| && Untold(nodes[i]) && (together || AllReleased(nodes[..i]))
  }

  function Told(nodes: seq<DepartingNode>, together: bool): set<nat> {
    set i: nat | 0 <= i < |nodes| && ToTell(nodes, together, i) :: i
  }

  // ---------- the code ----------

  method DeparturePlan(nodes: seq<DepartingNode>, together: bool) returns (tell: seq<nat>, evacuated: bool)
    ensures evacuated <==> AllReleased(nodes)
    ensures Ascending(tell)
    ensures forall i :: i in tell <==> ToTell(nodes, together, i)
  {
    evacuated, tell := true, [];
    var i := 0;
    while i < |nodes|
      invariant 0 <= i <= |nodes|
      invariant evacuated <==> AllReleased(nodes[..i])
      invariant !together ==> evacuated
      invariant Ascending(tell) && forall a :: 0 <= a < |tell| ==> tell[a] < i
      invariant forall j :: j in tell <==> j < i && ToTell(nodes, together, j)
    {
      var action := DepartingNodeAction(nodes[i].state, nodes[i].reachable);
      assert nodes[..i + 1] == nodes[..i] + [nodes[i]];
      assert !action.gate <==> Released(nodes[i]);
      if action.decommission {
        tell := tell + [i];
      }
      if action.gate {
        evacuated := false;
        assert !AllReleased(nodes);
        if !together {
          forall j | i < j < |nodes| ensures !ToTell(nodes, together, j) {
            assert nodes[..j][i] == nodes[i];
          }
          break;
        }
      }
      i := i + 1;
    }
    assert i == |nodes| ==> nodes[..i] == nodes;
  }

  /** The probing loop of a scale-down from `prev` to `desired`.  One at a time
      it stops at the first node that still holds data. */
  method ProbeDeparting(prev: nat, desired: nat, together: bool, probe: nat -> DepartingNode)
    returns (departing: seq<DepartingNode>, ordinals: seq<nat>)
    requires desired < prev
    ensures |departing| == |ordinals|
    ensures departing <= Departing(prev, desired, probe)
    ensures forall k :: 0 <= k < |ordinals| ==> ordinals[k] == prev - 1 - k
    ensures departing != Departing(prev, desired, probe) ==>
      !together && departing != [] && !Released(departing[|departing| - 1])
  {
    departing, ordinals := [], [];
    var i: int := prev - 1;
    ghost var all := Departing(prev, desired, probe);
    while i >= desired
      invariant desired - 1 <= i < prev
      invariant |departing| == |ordinals| == prev - 1 - i
      invariant departing == all[..|departing|]
      invariant forall k :: 0 <= k < |ordinals| ==> ordinals[k] == prev - 1 - k
    {
      var node := probe(i);
      departing, ordinals := departing + [node], ordinals + [i];
      if !together && node.reachable && node.state != LEAVING {
        break;
      }
      i := i - 1;
    }
  }

  /** Every departing node, highest ordinal first. */
  function Departing(prev: nat, desired: nat, probe: nat -> DepartingNode): (r: seq<DepartingNode>)
    requires desired <= prev
    ensures |r| == prev - desired
    ensures forall k :: 0 <= k < |r| ==> r[k] == probe(prev - 1 - k)
  {
    seq(prev - desired, k requires 0 <= k < prev - desired => probe(prev - 1 - k))
  }

  // ---------- what follows ----------

  /** One at a time, at most one node is told. */
  lemma SequentialTellsAtMostOne(nodes: seq<DepartingNode>)
    ensures |Told(nodes, false)| <= 1
  {
    var told := Told(nodes, false);
    forall i, j | i in told && j in told
      ensures i == j
    {
    }
    if i :| i in told {
      assert told == {i};
    }
  }

  /** The mode decides who is told, not whether the scale-down may go on; and
      when it may not, some node is told or is already moving its regions. */
  lemma ModesAgreeOnTheGate(nodes: seq<DepartingNode>)
    ensures Told(nodes, false) <= Told(nodes, true)
    ensures AllReleased(nodes) <==>
      Told(nodes, true) == {} && forall i :: 0 <= i < |nodes| ==> !(nodes[i].reachable && nodes[i].state == DECOMMISSIONING)
  {
    forall i: nat | i < |nodes| && Untold(nodes[i])
      ensures i in Told(nodes, true)
    {
      assert ToTell(nodes, true, i);
    }
  }

  /** Looking no further than the first node that still holds data gives the
      plan that looking at every node gives. */
  lemma LazyProbingIsEnough(all: seq<DepartingNode>, seen: seq<DepartingNode>)
    requires seen <= all
    requires seen != all ==> seen != [] && !Released(seen[|seen| - 1])
    ensures AllReleased(seen) <==> AllReleased(all)
    ensures Told(seen, false) == Told(all, false)
  {
    if seen != all {
      var last := |seen| - 1;
      assert all[last] == seen[last];
      forall i: nat
        ensures ToTell(seen, false, i) <==> ToTell(all, false, i)
      {
        if i <= last {
          assert all[..i] == seen[..i];
        } else if i < |all| {
          assert all[..i][last] == all[last];
        }
      }
    }
  }
}
