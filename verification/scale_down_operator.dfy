/** The reconciler's scaling steps in the order the code takes them: gate,
    StatefulSet, stuck pods, orphan volumes, membership.  Every run of this code
    is a pass of ScaleDownWorld. */
module ScaleDownOperator {
  import opened Common
  import opened Evacuation
  import opened RaftVoters
  import opened ScaleDownHook
  import opened PodCleanup
  import opened ScaleDownWorld
  import Membership

  /** Everything the outside world answers during one reconcile. */
  datatype Io = Io(
    hook: HookEnv,
    write: Write,
    recreate: bool,
    statusReplicas: nat,
    podRead: nat -> Answer, podDelete: nat -> Answer,
    blocked: bool,                 // a rolling restart returns before step 7
    pvcRead: nat -> Answer, pvcDelete: nat -> Answer,
    view: nat -> Membership.PodView, voices: nat -> Voice, add: nat -> Membership.AddReply)

  /** Of `spec` pods, the views this pass takes. */
  function Views(spec: nat, io: Io): seq<Membership.PodView> {
    seq(spec, i requires 0 <= i => io.view(i))
  }

  /** The reachable pod of node `id` is not the leader, and the leader lists it, if
      at all, as departed. */
  ghost predicate MustAsk(io: Io, leader: nat, id: nat)
    requires leader >= 1 && id >= 1
  {
    && io.view(id - 1).reachable && id != leader
    && forall n :: n in io.view(leader - 1).nodes && n.id == id ==> n.state == "leaving" || n.state == "decommissioning"
  }

  /** Admitted are exactly the nodes that must be asked for and whose add call is
      carried out; none without a leader or in a cluster of one. */
  ghost predicate Admits(spec: nat, io: Io, added: set<nat>) {
    if spec <= 1 then added == {}
    else exists leader: Option<nat> :: Membership.IsLeader(Views(spec, io), io.voices, leader) && AdmitsBy(spec, io, leader, added)
  }

  ghost predicate AdmitsBy(spec: nat, io: Io, leader: Option<nat>, added: set<nat>) {
    if leader.None? || leader.value < 1 then added == {}
    else forall id: nat :: id in added <==>
      1 <= id <= spec && MustAsk(io, leader.value, id) && io.add(id) != Membership.Refused
  }

  function Reported(w: World, io: Io): nat {
    if w.sts.None? then 0 else io.statusReplicas
  }

  /** A pass that gets past the StatefulSet update ends early exactly when a
      rolling restart blocks it or a departed pod cannot be read or deleted; else
      it admits whom it must. */
  ghost predicate Finishes(w: World, io: Io, env: PassEnv) {
    env.gate.proceed && io.write.Applied? && !(w.sts.Some? && io.recreate) ==>
      && (env.early <==> io.blocked || !DeletesWork(w.pods, w.spec, Reported(w, io), io.podRead, io.podDelete))
      && env.reported == Reported(w, io)
      && (!env.early ==> Admits(w.spec, io, env.added))
  }

  class ClusterReconciler {
    var spec: nat
    var sts: Option<nat>
    var store: Store
    var hooks: ScaleDown
    // what only the observer tracks
    ghost var bound: nat
    ghost var holds: set<nat>
    ghost var cleared: map<nat, Evidence>

    constructor (spec: nat, store: Store, hooks: ScaleDown)
      ensures this.spec == spec && sts == None && this.store == store && this.hooks == hooks
      ensures bound == 0 && holds == {} && cleared == map[]
    {
      this.spec, sts, this.store, this.hooks := spec, None, store, hooks;
      bound, holds, cleared := 0, {}, map[];
    }

    ghost function View(): World
      reads this, store, hooks, hooks.group
    {
      World(spec, sts, bound, store.pods, store.pvcs, hooks.group.voters, hooks.state, holds, cleared)
    }

    ghost predicate Valid()
      reads this, store
    {
      forall i :: i in store.pods ==> store.pods[i].ordinal == i
    }

    /** reconcileStatefulSet: what to do next, and how many pods it has. */
    method ReconcileStatefulSet(io: Io) returns (goOn: bool, statusReplicas: nat)
      modifies this`sts
      ensures goOn <==> io.write.Applied? && !(old(sts).Some? && io.recreate)
      ensures sts == if io.write.Rejected? then old(sts) else if old(sts).Some? && io.recreate then None else Some(spec)
      ensures statusReplicas == if old(sts).None? then 0 else io.statusReplicas
    {
      statusReplicas := if sts.None? then 0 else io.statusReplicas;
      if io.write.Rejected? {
        return false, statusReplicas;
      }
      if sts.Some? && io.recreate {
        sts := None;
        return false, statusReplicas;
      }
      sts := Some(spec);
      goOn := io.write.Applied?;
    }

    /** The add-node calls of reconcileClusterMembership that are carried out. */
    method AddNodes(io: Io) returns (added: set<nat>)
      requires spec >= 1
      ensures forall id :: id in added ==> 1 <= id <= spec
      ensures Admits(spec, io, added)
    {
      added := {};
      if spec > 1 {
        var views := Views(spec, io);
        var leader, asked, formed := Membership.ReconcileClusterMembership(views, io.voices, io.add);
        added := set id | id in asked && io.add(id) != Membership.Refused;
        if leader.Some? {
          AskedAre(io, leader.value, asked);
        }
        assert AdmitsBy(spec, io, leader, added);
      }
    }

    lemma AskedAre(io: Io, leader: nat, asked: seq<nat>)
      requires 1 <= leader <= spec
      requires forall id: nat :: id in asked <==> Membership.Unknown(Views(spec, io), leader, id)
      ensures forall id: nat :: id in asked <==> 1 <= id <= spec && MustAsk(io, leader, id)
    {
      forall id: nat
        ensures id in asked <==> 1 <= id <= spec && MustAsk(io, leader, id)
      {
        if 1 <= id <= spec {
          Membership.AskedForExactly(Views(spec, io), leader, id);
        }
      }
    }

    /** Their effect on the group. */
    method Join(added: set<nat>)
      modifies hooks`state, hooks.group
      ensures hooks.group == old(hooks.group)
      ensures hooks.group.voters == old(hooks.group.voters) + added
      ensures hooks.state == Readmitted(old(hooks.state), added)
    {
      hooks.group.voters := hooks.group.voters + added;
      hooks.state := Readmitted(hooks.state, added);
    }

    method AdmitMembers(io: Io) returns (added: set<nat>)
      requires spec >= 1
      modifies hooks`state, hooks.group
      ensures hooks.group == old(hooks.group)
      ensures forall id :: id in added ==> 1 <= id <= spec
      ensures Admits(spec, io, added)
      ensures hooks.group.voters == old(hooks.group.voters) + added
      ensures hooks.state == Readmitted(old(hooks.state), added)
    {
      hide *;
      added := AddNodes(io);
      Join(added);
    }

    /** The gate, seen from outside: it keeps its contract. */
    method RunGate(prev: nat, io: Io) returns (gate: HookResult)
      modifies hooks, hooks.group
      ensures hooks.group == old(hooks.group)
      ensures gate.state == hooks.state && gate.voters == hooks.group.voters
      ensures GateContract(old(hooks.state), old(hooks.group.voters), prev, spec, io.hook.together, io.hook.probe,
                           io.hook.decommissioned, RemovalWorks(prev, spec, io.hook.host, io.hook.rounds), gate)
    {
      var proceed := hooks.RunScaleDownClusterHooks(prev, spec, io.hook);
      gate := HookResult(hooks.state, hooks.group.voters, proceed);
    }

    /** From deleteStuckDepartedPods on. */
    method FinishPass(prev: nat, statusReplicas: nat, io: Io)
      returns (early: bool, podsLeft: map<nat, PodInfo>, added: set<nat>)
      requires Valid() && spec >= 1
      modifies store, hooks`state, hooks.group
      ensures Valid() && hooks.group == old(hooks.group)
      ensures early <==> io.blocked || !DeletesWork(old(store.pods), spec, statusReplicas, io.podRead, io.podDelete)
      ensures OnlyStuckGone(old(store.pods), podsLeft, spec)
      ensures !early ==> NoneStuck(podsLeft, spec, statusReplicas) && Admits(spec, io, added)
      ensures forall id :: id in added ==> 1 <= id <= spec
      ensures store.pods == podsLeft
      ensures store.pvcs ==
        if !early && prev > spec then DeleteUpTo(old(store.pvcs), spec, prev, io.pvcRead, io.pvcDelete).0 else old(store.pvcs)
      ensures early ==> hooks.state == old(hooks.state) && hooks.group.voters == old(hooks.group.voters)
      ensures !early ==> hooks.state == Readmitted(old(hooks.state), added)
                         && hooks.group.voters == old(hooks.group.voters) + added
    {
      // 6a
      var deleted := store.DeleteStuckDepartedPods(spec, statusReplicas, io.podRead, io.podDelete);
      early, podsLeft, added := true, store.pods, {};
      if !deleted || io.blocked {
        return;
      }
      // 8
      if prev > spec {
        var cleaned := store.CleanupOrphanPVCs(prev, spec, io.pvcRead, io.pvcDelete);
      }
      // 13
      added := AdmitMembers(io);
      early := false;
    }

    /** From the StatefulSet update on, once the gate is open. */
    method AfterGate(prev: nat, io: Io, ghost w: World, ghost gated: PassEnv) returns (ghost env: PassEnv)
      requires Valid() && spec >= 1 && prev == Prev(w)
      requires View() == Gated(w, gated) && gated.gate.proceed && Legal(w, gated)
      requires gated.write == io.write && gated.recreate == io.recreate && gated.early && gated.podsLeft == store.pods
      requires gated.pvcRead == io.pvcRead && gated.pvcDelete == io.pvcDelete
      requires gated.reported == Reported(w, io)
      modifies this, store, hooks, hooks.group
      ensures Valid()
      ensures env == gated.(early := env.early, podsLeft := env.podsLeft, added := env.added)
      ensures Finishes(w, io, env)
      ensures Legal(w, env) && View() == PassResult(w, env)
    {
      hide GateContract, OnlyStuckGone, NoneStuck, DeletesWork, Admits, Readmitted, DeleteUpTo, NowCleared;
      env := gated;
      // 6
      var goOn, statusReplicas := ReconcileStatefulSet(io);
      if Resizes(w, env) {
        bound, cleared := spec, NowCleared(w, env);
      }
      if !goOn {
        return;
      }
      var early, podsLeft, added := FinishPass(prev, statusReplicas, io);
      ClearedByProbesOnly(w, gated, gated.(early := early, podsLeft := podsLeft, added := added));
      env := env.(early := early, podsLeft := podsLeft, added := added);
    }

    lemma ClearedByProbesOnly(w: World, a: PassEnv, b: PassEnv)
      requires a.probe == b.probe
      ensures NowCleared(w, a) == NowCleared(w, b)
    {
    }

    method Reconcile(io: Io) returns (ghost env: PassEnv)
      requires Valid() && spec >= 1
      requires forall i: nat :: io.hook.probe(i).reachable ==> io.hook.probe(i).state == StateAt(hooks.state, i)
      modifies this, store, hooks, hooks.group
      ensures env.probe == io.hook.probe && env.together == io.hook.together && env.decommissioned == io.hook.decommissioned
      ensures env.removed == RemovalWorks(Prev(old(View())), old(spec), io.hook.host, io.hook.rounds)
      ensures env.write == io.write && env.recreate == io.recreate && env.pvcRead == io.pvcRead && env.pvcDelete == io.pvcDelete
      ensures Finishes(old(View()), io, env)
      ensures Legal(old(View()), env)
      ensures View() == PassResult(old(View()), env)
      ensures Valid()
    {
      ghost var w := View();
      var prev := if sts.Some? then sts.value else 0;
      // 5b
      var gate := RunGate(prev, io);
      env := PassEnv(io.hook.together, io.hook.probe, io.hook.decommissioned,
                     RemovalWorks(prev, spec, io.hook.host, io.hook.rounds), gate, io.write, io.recreate,
                     if sts.None? then 0 else io.statusReplicas, store.pods, true, io.pvcRead, io.pvcDelete, {});
      if gate.proceed {
        env := AfterGate(prev, io, w, env);
      }
    }
  }
}
