/** Scaling, Raft membership and data placement as a transition system: operator
    passes interleaved with the user, the StatefulSet controller and the
    database.  A node that reports "leaving" holds no regions, and stays so
    until it is added again. */
module ScaleDownWorld {
  import opened Common
  import opened Evacuation
  import opened ScaleDownHook
  import opened PodCleanup

  /** Why an ordinal may be deleted: it had released its regions, or nobody
      could reach it. */
  datatype Evidence = Evacuated | OutOfReach

  datatype World = World(
    spec: nat,                     // spec.replicas
    sts: Option<nat>,              // the StatefulSet's replicas, if it exists
    bound: nat,                    // its replicas when it last existed
    pods: map<nat, PodInfo>,
    pvcs: set<nat>,
    voters: set<nat>,              // node ids; ordinal i is node i + 1
    state: map<nat, string>,       // what each node reports
    holds: set<nat>,               // ordinals holding region copies
    cleared: map<nat, Evidence>)   // ordinals a shrink has removed, and why

  /** How a pass went: the probes, what each of its steps left behind, and where
      it stopped. */
  datatype PassEnv = PassEnv(
    together: bool,
    probe: nat -> DepartingNode,
    decommissioned: nat -> bool,   // that call took effect
    removed: bool,                 // every remove call of the gate was carried out
    gate: HookResult,
    write: Write,                  // the StatefulSet create, update or delete
    recreate: bool,                // podManagementPolicy has changed
    reported: nat,                 // the StatefulSet's status.replicas
    podsLeft: map<nat, PodInfo>,   // after deleteStuckDepartedPods
    early: bool,                   // an error, or a rolling restart in progress
    pvcRead: nat -> Answer,        // the answers CleanupOrphanPVCs gets
    pvcDelete: nat -> Answer,
    added: set<nat>)               // node ids admitted by add-node

  function Prev(w: World): nat {
    if w.sts.Some? then w.sts.value else 0
  }

  function Seen(probe: DepartingNode): Evidence {
    if probe.reachable then Evacuated else OutOfReach
  }

  /** The record of removed ordinals once the StatefulSet has `spec` replicas. */
  function NowCleared(w: World, env: PassEnv): map<nat, Evidence> {
    map i | i in w.cleared.Keys + Interval(w.spec, Prev(w)) && w.spec <= i ::
      if i < Prev(w) || i !in w.cleared then Seen(env.probe(i)) else w.cleared[i]
  }

  function Gated(w: World, env: PassEnv): World {
    w.(state := env.gate.state, voters := env.gate.voters)
  }

  function Resized(w: World, env: PassEnv): World {
    Gated(w, env).(sts := Some(w.spec), bound := w.spec, cleared := NowCleared(w, env))
  }

  /** The ordinals of nodes. */
  function Ordinals(ids: set<nat>): set<nat> {
    set id | id in ids && id >= 1 :: id - 1
  }

  function Readmitted(state: map<nat, string>, added: set<nat>): map<nat, string> {
    state + map i | i in Ordinals(added) :: "active"
  }

  /** The volumes after CleanupOrphanPVCs. */
  function CleanedUp(w: World, env: PassEnv): set<nat> {
    if Prev(w) > w.spec then DeleteUpTo(w.pvcs, w.spec, Prev(w), env.pvcRead, env.pvcDelete).0 else w.pvcs
  }

  predicate Resizes(w: World, env: PassEnv) {
    env.gate.proceed && !env.write.Rejected? && !(w.sts.Some? && env.recreate)
  }

  function PassResult(w: World, env: PassEnv): World {
    if !env.gate.proceed || env.write.Rejected? then Gated(w, env)
    else if w.sts.Some? && env.recreate then Gated(w, env).(sts := None)
    else
      var resized := Resized(w, env);
      if env.write.AppliedUnseen? then resized
      else if env.early then resized.(pods := env.podsLeft)
      else resized.(
        pods := env.podsLeft,
        pvcs := CleanedUp(w, env),
        voters := env.gate.voters + env.added,
        state := Readmitted(env.gate.state, env.added))
  }

  /** What each step may leave.  A probe that gets through reports the node's own
      state; the other clauses are what the step's own code promises. */
  ghost predicate Legal(w: World, env: PassEnv) {
    && (forall i: nat :: env.probe(i).reachable ==> env.probe(i).state == StateAt(w.state, i))
    && GateContract(w.state, w.voters, Prev(w), w.spec, env.together, env.probe, env.decommissioned, env.removed, env.gate)
    && OnlyStuckGone(w.pods, env.podsLeft, w.spec)
    && (!env.early ==> NoneStuck(env.podsLeft, w.spec, env.reported))
    && (forall id :: id in env.added ==> 1 <= id <= w.spec)
  }

  // ---------- everything else ----------

  datatype Step =
    | Pass(env: PassEnv)
    | SetSpec(r: nat)
    | CreatePod(i: nat, pod: PodInfo)
    | ChangePod(i: nat, pod: PodInfo)
    | RemovePod(i: nat)
    | NodeMoves(i: nat, to: string)
    | Gain(i: nat)
    | Lose(i: nat)
    | Bootstrap

  ghost predicate Enabled(w: World, s: Step) {
    match s
    case Pass(env) => Legal(w, env)
    case SetSpec(r) => r >= 1
    case CreatePod(i, pod) => w.sts.Some? && i < w.sts.value && i !in w.pods
    case ChangePod(i, pod) => i in w.pods
    case RemovePod(i) => i in w.pods
    case NodeMoves(i, to) => StateAt(w.state, i) != LEAVING && (to == LEAVING ==> i !in w.holds)
    case Gain(i) => StateAt(w.state, i) != LEAVING
    case Lose(i) => true
    case Bootstrap => w.voters == {} && w.bound >= 1
  }

  function Apply(w: World, s: Step): World {
    match s
    case Pass(env) => PassResult(w, env)
    case SetSpec(r) => w.(spec := r)
    case CreatePod(i, pod) =>
      // a new volume means a node with no memory of having left
      w.(pods := w.pods[i := pod], pvcs := w.pvcs + {i},
         state := if i in w.pvcs then w.state else w.state[i := "joining"])
    case ChangePod(i, pod) => w.(pods := w.pods[i := pod])
    case RemovePod(i) => w.(pods := w.pods - {i})
    case NodeMoves(i, to) => w.(state := w.state[i := to])
    case Gain(i) => w.(holds := w.holds + {i})
    case Lose(i) => w.(holds := w.holds - {i})
    case Bootstrap => w.(voters := {1})
  }

  ghost predicate Init(w: World) {
    w.spec >= 1 && w.sts.None? && w.bound == 0 && w.pods == map[] && w.voters == {} && w.cleared == map[]
    && (forall i: nat :: StateAt(w.state, i) == LEAVING ==> i !in w.holds)
  }

  /** The one unguarded way to shrink: the StatefulSet is gone (it is deleted to
      change its pod management policy) when replicas are lowered. */
  predicate UngatedShrink(w: World, s: Step) {
    s.Pass? && w.sts.None? && w.spec < w.bound
  }

  ghost predicate IsRun(ws: seq<World>, steps: seq<Step>) {
    && |ws| == |steps| + 1
    && Init(ws[0])
    && forall j :: 0 <= j < |steps| ==>
         Enabled(ws[j], steps[j]) && ws[j + 1] == Apply(ws[j], steps[j]) && !UngatedShrink(ws[j], steps[j])
  }
}
