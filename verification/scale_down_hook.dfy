/** The gate in front of a shrink: evacuate the departing nodes, drop them from
    the Raft voters, tell the survivors. */
module ScaleDownHook {
  import opened Common
  import opened Evacuation
  import opened RaftVoters

  /** The outside world of one scale-down attempt.  Node `id` lives on `host(id)`. */
  datatype HookEnv = HookEnv(
    together: bool,
    host: nat -> string,
    probe: nat -> DepartingNode,
    decommissioned: nat -> bool,   // the call took effect on that ordinal
    rounds: nat -> Round)

  datatype HookResult = HookResult(state: map<nat, string>, voters: set<nat>, proceed: bool)

  function Hosts(prev: nat, host: nat -> string): map<nat, string> {
    map id | id in Interval(1, prev + 1) :: host(id)
  }

  /** The node ids that leave, highest first. */
  function DepartedIds(prev: nat, desired: nat): (r: seq<nat>)
    requires desired <= prev
    ensures |r| == prev - desired
    ensures forall k :: 0 <= k < |r| ==> r[k] == prev - k
  {
    seq(prev - desired, k requires 0 <= k < prev - desired => prev - k)
  }

  lemma DepartedIdsAreTheTop(prev: nat, desired: nat)
    requires desired <= prev
    ensures SetOf(DepartedIds(prev, desired)) == Interval(desired + 1, prev + 1)
  {
    forall id: nat | desired < id <= prev
      ensures id in DepartedIds(prev, desired)
    {
      assert DepartedIds(prev, desired)[prev - id] == id;
    }
  }

  /** The ordinals a pass tells to decommission. */
  function TellOrdinals(prev: nat, desired: nat, env: HookEnv): set<nat>
    requires desired <= prev
  {
    set i | i in Interval(desired, prev) && ToTell(Departing(prev, desired, env.probe), env.together, prev - 1 - i)
  }

  function Decommission(state: map<nat, string>, told: set<nat>, env: HookEnv): map<nat, string> {
    state + map i | i in told && env.decommissioned(i) :: DECOMMISSIONING
  }

  ghost function Hook(state: map<nat, string>, voters: set<nat>, prev: nat, desired: nat, env: HookEnv): HookResult {
    if desired >= prev then HookResult(state, voters, true)
    else
      var told := Decommission(state, TellOrdinals(prev, desired, env), env);
      if !AllReleased(Departing(prev, desired, env.probe)) then HookResult(told, voters, false)
      else
        var (v, ok) := RemoveAll(voters, Hosts(prev, env.host), DepartedIds(prev, desired), env.rounds);
        HookResult(told, v, ok)
  }

  function Picked(tell: seq<nat>, ordinals: seq<nat>): set<nat> {
    set t | t in tell && t < |ordinals| :: ordinals[t]
  }

  lemma PickedOneMore(tell: seq<nat>, ordinals: seq<nat>, k: nat)
    requires k < |tell| && tell[k] < |ordinals|
    ensures Picked(tell[..k + 1], ordinals) == Picked(tell[..k], ordinals) + {ordinals[tell[k]]}
  {
    assert tell[..k + 1] == tell[..k] + [tell[k]];
  }

  lemma DecommissionOneMore(state: map<nat, string>, told: set<nat>, i: nat, env: HookEnv)
    ensures Decommission(state, told + {i}, env) ==
      if env.decommissioned(i) then Decommission(state, told, env)[i := DECOMMISSIONING] else Decommission(state, told, env)
  {
  }

  method DepartedList(prev: nat, desired: nat) returns (departed: seq<nat>)
    requires desired <= prev
    ensures departed == DepartedIds(prev, desired)
  {
    departed := [];
    var i: int := prev - 1;
    while i >= desired
      invariant desired - 1 <= i < prev
      invariant departed == DepartedIds(prev, desired)[..prev - 1 - i]
    {
      departed := departed + [i + 1];
      i := i - 1;
    }
  }

  class ScaleDown {
    var group: RaftGroup
    var state: map<nat, string>
    // (survivor ordinal, departed node id), in the order told
    var notified: seq<(nat, nat)>

    constructor (g: RaftGroup, s: map<nat, string>)
      ensures group == g && state == s && notified == []
    {
      group, state, notified := g, s, [];
    }

    method TellDeparting(tell: seq<nat>, ordinals: seq<nat>, env: HookEnv)
      requires forall k :: 0 <= k < |tell| ==> tell[k] < |ordinals|
      modifies this`state
      ensures state == Decommission(old(state), Picked(tell, ordinals), env)
    {
      for k := 0 to |tell|
        invariant state == Decommission(old(state), Picked(tell[..k], ordinals), env)
      {
        var i := ordinals[tell[k]];
        PickedOneMore(tell, ordinals, k);
        DecommissionOneMore(old(state), Picked(tell[..k], ordinals), i, env);
        if env.decommissioned(i) {
          state := state[i := DECOMMISSIONING];
        }
      }
      assert tell[..|tell|] == tell;
    }

    /** Every survivor is told of every departed node, and nobody else is named. */
    method NotifySurvivors(prev: nat, desired: nat)
      requires desired <= prev
      modifies this`notified
      ensures forall n :: n in notified <==>
        n in old(notified) || (n.0 < desired && desired < n.1 <= prev)
    {
      for i := desired to prev
        invariant forall n :: n in notified <==>
          n in old(notified) || (n.0 < desired && desired < n.1 <= i)
      {
        ghost var before := notified;
        for j := 0 to desired
          invariant forall n :: n in notified <==> n in before || (n.0 < j && n.1 == i + 1)
        {
          notified := notified + [(j, i + 1)];
        }
      }
    }

    method RunScaleDownClusterHooks(prev: nat, desired: nat, env: HookEnv) returns (proceed: bool)
      modifies this, group
      ensures group == old(group)
      ensures HookResult(state, group.voters, proceed) == Hook(old(state), old(group.voters), prev, desired, env)
      ensures !proceed || desired >= prev ==> notified == old(notified)
      ensures proceed ==> forall n :: n in notified <==>
        n in old(notified) || (n.0 < desired && desired < n.1 <= prev)
      ensures GateContract(old(state), old(group.voters), prev, desired, env.together, env.probe, env.decommissioned,
                           RemovalWorks(prev, desired, env.host, env.rounds), HookResult(state, group.voters, proceed))
    {
      HookMeetsItsContract(state, group.voters, prev, desired, env);
      if desired >= prev || prev < 1 {
        return true;
      }
      var departing, ordinals := ProbeDeparting(prev, desired, env.together, env.probe);
      var tell, evacuated := DeparturePlan(departing, env.together);
      ghost var all := Departing(prev, desired, env.probe);
      PlanOfSeenIsPlanOfAll(prev, desired, env, departing, ordinals, tell);
      forall k | 0 <= k < |tell|
        ensures tell[k] < |ordinals|
      {
        assert tell[k] in tell;
      }
      TellDeparting(tell, ordinals, env);
      if !evacuated {
        return false;
      }
      var hosts := map id | id in Interval(1, prev + 1) :: env.host(id);
      var departed := DepartedList(prev, desired);
      var removed := RemoveDepartedVoters(group, hosts, departed, env.rounds);
      if !removed {
        return false;
      }
      NotifySurvivors(prev, desired);
      return true;
    }
  }

  lemma PlanOfSeenIsPlanOfAll(prev: nat, desired: nat, env: HookEnv, seen: seq<DepartingNode>, ordinals: seq<nat>, tell: seq<nat>)
    requires desired < prev && |seen| == |ordinals|
    requires seen <= Departing(prev, desired, env.probe)
    requires forall k :: 0 <= k < |ordinals| ==> ordinals[k] == prev - 1 - k
    requires seen != Departing(prev, desired, env.probe) ==>
      !env.together && seen != [] && !Released(seen[|seen| - 1])
    requires forall i :: i in tell <==> ToTell(seen, env.together, i)
    ensures AllReleased(seen) <==> AllReleased(Departing(prev, desired, env.probe))
    ensures Picked(tell, ordinals) == TellOrdinals(prev, desired, env)
  {
    var all := Departing(prev, desired, env.probe);
    if seen != all {
      LazyProbingIsEnough(all, seen);
    }
    PickedIsTold(prev, desired, env, seen, ordinals, tell);
  }

  lemma PickedIsTold(prev: nat, desired: nat, env: HookEnv, seen: seq<DepartingNode>, ordinals: seq<nat>, tell: seq<nat>)
    requires desired < prev && |seen| == |ordinals|
    requires forall k :: 0 <= k < |ordinals| ==> ordinals[k] == prev - 1 - k
    requires forall i :: i in tell <==> ToTell(seen, env.together, i)
    requires Told(seen, env.together) == Told(Departing(prev, desired, env.probe), env.together)
    ensures Picked(tell, ordinals) == TellOrdinals(prev, desired, env)
  {
    var all := Departing(prev, desired, env.probe);
    hide AllReleased, Untold;
    forall t: nat
      ensures t in tell <==> ToTell(all, env.together, t)
    {
      assert t in Told(seen, env.together) <==> t in Told(all, env.together);
    }
    hide ToTell;
    forall i: nat
      ensures i in Picked(tell, ordinals) <==> i in TellOrdinals(prev, desired, env)
    {
      if i in TellOrdinals(prev, desired, env) {
        ToldIsSeen(seen, all, env.together, prev - 1 - i);
        assert prev - 1 - i in tell && ordinals[prev - 1 - i] == i;
      }
      if i in Picked(tell, ordinals) {
        var t :| t in tell && t < |ordinals| && ordinals[t] == i;
        ToldIsSeen(seen, all, env.together, t);
      }
    }
  }

  lemma ToldIsSeen(seen: seq<DepartingNode>, all: seq<DepartingNode>, together: bool, t: int)
    requires Told(seen, together) == Told(all, together) && ToTell(all, together, t)
    ensures 0 <= t < |seen| && t < |all|
  {
    assert t in Told(all, together);
    assert t in Told(seen, together);
  }

  // ---------- what follows ----------

  function StateAt(state: map<nat, string>, i: nat): string {
    if i in state then state[i] else "active"
  }

  /** Ordinal `i` is the gate's to tell: it answered, is neither evacuated nor being
      so, and one at a time every higher departing node is out of reach or evacuated. */
  ghost predicate MayTell(prev: nat, desired: nat, together: bool, probe: nat -> DepartingNode, i: nat) {
    && desired <= i < prev
    && probe(i).reachable && probe(i).state != "leaving" && probe(i).state != "decommissioning"
    && (!together ==> forall k: nat :: i < k < prev ==> !probe(k).reachable || probe(k).state == "leaving")
  }

  /** Every departing node is out of reach or evacuated. */
  ghost predicate AllGone(prev: nat, desired: nat, probe: nat -> DepartingNode) {
    forall i: nat :: desired <= i < prev ==> !probe(i).reachable || probe(i).state == "leaving"
  }

  /** Every remove call that dropping the departed ids takes is carried out. */
  ghost predicate RemovalWorks(prev: nat, desired: nat, host: nat -> string, rounds: nat -> Round) {
    var hosts := map id: nat | 1 <= id <= prev :: host(id);
    forall k: nat :: k < prev - desired ==> RoundWorks(hosts, rounds(k))
  }

  /** What the gate does.  Exactly the nodes that are its to tell decommission, if
      the call takes effect.  It opens exactly when every departing node is out of
      reach or evacuated and the voter removal works.  Survivors stay voters,
      nobody becomes one, departing ones leave only then, and behind an open gate
      none is left. */
  ghost predicate GateContract(state: map<nat, string>, voters: set<nat>, prev: nat, desired: nat,
                               together: bool, probe: nat -> DepartingNode, decommissioned: nat -> bool, removed: bool,
                               r: HookResult) {
    if desired >= prev then r == HookResult(state, voters, true)
    else
      && (forall i: nat :: StateAt(r.state, i) ==
            if MayTell(prev, desired, together, probe, i) && decommissioned(i) then "decommissioning" else StateAt(state, i))
      && (r.proceed <==> AllGone(prev, desired, probe) && removed)
      && r.voters <= voters
      && (forall v :: v in voters && v !in r.voters ==> desired < v <= prev && AllGone(prev, desired, probe))
      && (r.proceed ==> forall v :: v in r.voters ==> !(desired < v <= prev))
  }

  lemma VoterPart(voters: set<nat>, prev: nat, desired: nat, env: HookEnv)
    requires desired <= prev
    ensures var (v, ok) := RemoveAll(voters, Hosts(prev, env.host), DepartedIds(prev, desired), env.rounds);
      && v <= voters
      && (forall x :: x in voters && x !in v ==> desired < x <= prev)
      && (ok ==> forall x :: x in v ==> !(desired < x <= prev))
      && (ok <==> RemovalWorks(prev, desired, env.host, env.rounds))
  {
    DepartedIdsAreTheTop(prev, desired);
    RemovalIsExact(voters, Hosts(prev, env.host), DepartedIds(prev, desired), env.rounds);
    RemovalSucceedsExactly(voters, Hosts(prev, env.host), DepartedIds(prev, desired), env.rounds, 0);
    assert Hosts(prev, env.host) == map id: nat | 1 <= id <= prev :: env.host(id);
  }

  /** The nodes before ordinal `i` in probing order are the higher departing ones. */
  lemma HigherReleasedExactly(prev: nat, desired: nat, env: HookEnv, i: nat)
    requires desired <= i < prev
    ensures AllReleased(Departing(prev, desired, env.probe)[..prev - 1 - i]) <==>
      forall k: nat :: i < k < prev ==> !env.probe(k).reachable || env.probe(k).state == "leaving"
  {
    var higher := Departing(prev, desired, env.probe)[..prev - 1 - i];
    if AllReleased(higher) {
      forall k: nat | i < k < prev
        ensures !env.probe(k).reachable || env.probe(k).state == "leaving"
      {
        assert higher[prev - 1 - k] == env.probe(k) && Released(higher[prev - 1 - k]);
      }
    } else {
      var t :| 0 <= t < |higher| && !Released(higher[t]);
      assert higher[t] == env.probe(prev - 1 - t);
    }
  }

  lemma TellOrdinalsExactly(prev: nat, desired: nat, env: HookEnv, i: nat)
    requires desired < prev
    ensures i in TellOrdinals(prev, desired, env) <==> MayTell(prev, desired, env.together, env.probe, i)
  {
    if desired <= i < prev {
      HigherReleasedExactly(prev, desired, env, i);
      assert Departing(prev, desired, env.probe)[prev - 1 - i] == env.probe(i);
    }
    hide AllReleased;
  }

  lemma StatePart(state: map<nat, string>, prev: nat, desired: nat, env: HookEnv, i: nat)
    requires desired < prev
    ensures StateAt(Decommission(state, TellOrdinals(prev, desired, env), env), i) ==
      if MayTell(prev, desired, env.together, env.probe, i) && env.decommissioned(i) then "decommissioning" else StateAt(state, i)
  {
    TellOrdinalsExactly(prev, desired, env, i);
  }

  lemma AllGoneIsAllReleased(prev: nat, desired: nat, env: HookEnv)
    requires desired <= prev
    ensures AllReleased(Departing(prev, desired, env.probe)) <==> AllGone(prev, desired, env.probe)
  {
    var all := Departing(prev, desired, env.probe);
    forall i: nat | desired <= i < prev
      ensures all[prev - 1 - i] == env.probe(i)
    {
    }
    assert forall t :: 0 <= t < |all| ==> all[t] == env.probe(prev - 1 - t);
  }

  /** The gate as coded does just that. */
  lemma HookMeetsItsContract(state: map<nat, string>, voters: set<nat>, prev: nat, desired: nat, env: HookEnv)
    ensures GateContract(state, voters, prev, desired, env.together, env.probe, env.decommissioned,
                         RemovalWorks(prev, desired, env.host, env.rounds), Hook(state, voters, prev, desired, env))
  {
    if desired < prev {
      VoterPart(voters, prev, desired, env);
      AllGoneIsAllReleased(prev, desired, env);
      var r := Hook(state, voters, prev, desired, env);
      assert r.state == Decommission(state, TellOrdinals(prev, desired, env), env);
      forall i: nat
        ensures StateAt(r.state, i) ==
          if MayTell(prev, desired, env.together, env.probe, i) && env.decommissioned(i) then "decommissioning" else StateAt(state, i)
      {
        StatePart(state, prev, desired, env, i);
      }
    }
  }
}
