/** What a shrink can and cannot lose, over whole runs. */
module ScaleDownSafety {
  import opened Common
  import opened Evacuation
  import opened ScaleDownHook
  import opened PodCleanup
  import opened ScaleDownWorld
  import RaftVoters

  ghost predicate Inv(w: World) {
    && w.spec >= 1
    && (w.sts.Some? ==> w.bound == w.sts.value)
    && (forall v :: v in w.voters ==> 1 <= v <= w.bound)
    && (forall i :: i in w.pods && i >= w.bound ==> i in w.cleared)
    && (forall i :: i in w.cleared ==> i >= w.bound && (w.cleared[i].Evacuated? ==> StateAt(w.state, i) == LEAVING))
    && (forall i: nat :: StateAt(w.state, i) == LEAVING ==> i !in w.holds)
  }

  // ---------- a pass, piece by piece ----------

  /** A pass never moves a node into or out of "leaving" from the departing side. */
  lemma GateKeepsLeaving(w: World, env: PassEnv, i: nat)
    requires Legal(w, env)
    ensures StateAt(env.gate.state, i) == LEAVING <==> StateAt(w.state, i) == LEAVING
  {
    if StateAt(env.gate.state, i) != StateAt(w.state, i) {
      assert MayTell(Prev(w), w.spec, env.together, env.probe, i);
    }
  }

  lemma GateInv(w: World, env: PassEnv)
    requires Inv(w) && Legal(w, env)
    ensures Inv(Gated(w, env))
  {
    forall i: nat
      ensures StateAt(env.gate.state, i) == LEAVING <==> StateAt(w.state, i) == LEAVING
    {
      GateKeepsLeaving(w, env, i);
    }
  }

  /** Resizing behind an open gate. */
  lemma ResizeInv(w: World, env: PassEnv)
    requires Inv(w) && Legal(w, env) && env.gate.proceed && !(w.sts.None? && w.spec < w.bound)
    ensures Inv(Resized(w, env))
  {
    var w' := Resized(w, env);
    GateInv(w, env);
    forall i | i in w'.cleared && w'.cleared[i].Evacuated?
      ensures StateAt(w'.state, i) == LEAVING
    {
      GateKeepsLeaving(w, env, i);
      if i < Prev(w) {
        assert Released(env.probe(i));
      }
    }
    forall i | i in w'.pods && i >= w'.bound
      ensures i in w'.cleared
    {
      assert i in Interval(w.spec, Prev(w)) || i in w.cleared;
    }
  }

  lemma ReadmittedStates(state: map<nat, string>, added: set<nat>, spec: nat)
    requires forall id :: id in added ==> 1 <= id <= spec
    ensures forall i: nat :: StateAt(Readmitted(state, added), i) != StateAt(state, i) ==>
      i < spec && i + 1 in added && StateAt(Readmitted(state, added), i) == "active"
  {
  }

  lemma CleanedInv(w: World, pods: map<nat, PodInfo>, pvcs: set<nat>)
    requires Inv(w) && pods.Keys <= w.pods.Keys
    ensures Inv(w.(pods := pods, pvcs := pvcs))
  {
  }

  lemma AdmitInv(w: World, added: set<nat>)
    requires Inv(w) && forall id :: id in added ==> 1 <= id <= w.bound
    ensures Inv(w.(voters := w.voters + added, state := Readmitted(w.state, added)))
  {
    ReadmittedStates(w.state, added, w.bound);
  }

  lemma PassInv(w: World, env: PassEnv)
    requires Inv(w) && Legal(w, env) && !UngatedShrink(w, Pass(env))
    ensures Inv(PassResult(w, env))
  {
    if !Resizes(w, env) {
      GateInv(w, env);
    } else {
      ResizeInv(w, env);
      if !env.write.AppliedUnseen? {
        var resized := Resized(w, env);
        CleanedInv(resized, env.podsLeft, w.pvcs);
        var pvcs := CleanedUp(w, env);
        CleanedInv(resized, env.podsLeft, pvcs);
        AdmitInv(resized.(pods := env.podsLeft, pvcs := pvcs), env.added);
      }
    }
  }

  lemma StepInv(w: World, s: Step)
    requires Inv(w) && Enabled(w, s) && !UngatedShrink(w, s)
    ensures Inv(Apply(w, s))
  {
    if s.Pass? {
      PassInv(w, s.env);
    } else {
      assert forall i: nat ::
        StateAt(Apply(w, s).state, i) == StateAt(w.state, i) || ((s.CreatePod? || s.NodeMoves?) && i == s.i);
    }
  }

  lemma {:induction false} RunInv(ws: seq<World>, steps: seq<Step>, j: nat)
    requires IsRun(ws, steps) && j < |ws|
    ensures Inv(ws[j])
  {
    if j > 0 {
      RunInv(ws, steps, j - 1);
      StepInv(ws[j - 1], steps[j - 1]);
    }
  }

  // ---------- data ----------

  /** Whenever a pass lowers the StatefulSet, every ordinal it drops was probed in
      that pass and is out of reach, or evacuated and holding no region. */
  lemma ShrinkDropsNoData(ws: seq<World>, steps: seq<Step>, j: nat, i: nat)
    requires IsRun(ws, steps) && j < |steps|
    requires ws[j].sts.Some? && ws[j + 1].sts.Some? && ws[j + 1].sts.value <= i < ws[j].sts.value
    ensures steps[j].Pass?
    ensures var probe := steps[j].env.probe(i);
      !probe.reachable || (probe.state == LEAVING && i !in ws[j].holds)
  {
    RunInv(ws, steps, j);
    var env := steps[j].env;
    assert Released(env.probe(i));
  }

  /** A cluster of two about to be created, and the same once node 2 has been asked to go and has left. */
  function Beginning(): World {
    World(2, None, 0, map[], {0, 1}, {}, map[], {}, map[])
  }

  function HasLeft(): World {
    World(1, Some(2), 2, map[], {0, 1}, {}, map[1 := LEAVING], {}, map[])
  }

  function Quietly(gate: HookResult, probe: nat -> DepartingNode): PassEnv {
    PassEnv(false, probe, (i: nat) => true, true, gate, Applied, false, 0, map[], true, (i: nat) => Ok, (i: nat) => Ok, {})
  }

  lemma CreatingPass() returns (s: Step)
    ensures s.Pass? && Enabled(Beginning(), s) && !UngatedShrink(Beginning(), s)
    ensures Apply(Beginning(), s) == Beginning().(sts := Some(2), bound := 2)
  {
    s := Pass(Quietly(HookResult(map[], {}, true), (i: nat) => DepartingNode("", false)));
    assert NowCleared(Beginning(), s.env) == map[];
  }

  /** A pass whose gate is the coded one, its write accepted, and which a rolling
      restart ends early. */
  ghost function GatedPass(w: World, hook: HookEnv): PassEnv {
    PassEnv(hook.together, hook.probe, hook.decommissioned, RemovalWorks(Prev(w), w.spec, hook.host, hook.rounds),
            Hook(w.state, w.voters, Prev(w), w.spec, hook), Applied, false, 0, w.pods, true,
            (i: nat) => Ok, (i: nat) => Ok, {})
  }

  lemma GatedPassIsLegal(w: World, hook: HookEnv)
    requires forall i: nat :: hook.probe(i).reachable ==> hook.probe(i).state == StateAt(w.state, i)
    ensures Legal(w, GatedPass(w, hook))
  {
    HookMeetsItsContract(w.state, w.voters, Prev(w), w.spec, hook);
    hide GateContract, Hook, RemovalWorks;
  }

  /** Node 2 reports `state`, every call is carried out, node 1 leads. */
  function Answering(state: string): HookEnv {
    HookEnv(false, (id: nat) => "host",
            (i: nat) => if i == 1 then DepartingNode(state, true) else DepartingNode("", false),
            (i: nat) => true, (k: nat) => RaftVoters.Round((id: nat) => RaftVoters.Names(1), Some(1), RaftVoters.Done))
  }

  lemma FirstRoundWorks(hook: HookEnv, state: string)
    requires hook == Answering(state)
    ensures RemovalWorks(2, 1, hook.host, hook.rounds)
  {
    var hosts := map id: nat | 1 <= id <= 2 :: hook.host(id);
    var r := hook.rounds(0);
    assert 0 !in hosts && 1 in hosts;
    assert r.voices(1) == RaftVoters.Names(1);
  }

  lemma TellingPass()
    ensures var w, env := Beginning().(sts := Some(2), bound := 2, spec := 1), GatedPass(Beginning().(sts := Some(2), bound := 2, spec := 1), Answering("active"));
      && Legal(w, env) && StateAt(w.state, 1) == "active"
      && PassResult(w, env).state.Keys <= {1} && StateAt(PassResult(w, env).state, 1) == "decommissioning"
      && PassResult(w, env) == w.(state := PassResult(w, env).state)
  {
    var w := Beginning().(sts := Some(2), bound := 2, spec := 1);
    GatedPassIsLegal(w, Answering("active"));
    var env := GatedPass(w, Answering("active"));
    assert "active"[0] != "leaving"[0] && "active"[0] != "decommissioning"[0];
    assert env.probe(1) == DepartingNode("active", true);
    assert MayTell(2, 1, false, env.probe, 1);
    assert !env.gate.proceed;
    assert env.gate.voters == {};
    assert env.gate.state.Keys <= {1} by {
      assert TellOrdinals(2, 1, Answering("active")) <= {1};
    }
  }

  lemma ShrinkingPass()
    ensures var env := GatedPass(HasLeft(), Answering("leaving"));
      var after := PassResult(HasLeft(), env);
      && Legal(HasLeft(), env)
      && after.sts == Some(1) && 1 in after.cleared && after.cleared[1] == Evacuated && 1 in after.pvcs
  {
    GatedPassIsLegal(HasLeft(), Answering("leaving"));
    FirstRoundWorks(Answering("leaving"), "leaving");
    var env := GatedPass(HasLeft(), Answering("leaving"));
    assert env.gate.proceed;
    assert 1 in Interval(1, 2);
  }

  /** The results are about runs that exist: replicas are lowered, the coded gate
      tells the departing node, the node leaves, the gate opens; and when a rolling
      restart ends that pass early the volume stays. */
  lemma ShrinksHappen() returns (ws: seq<World>, steps: seq<Step>)
    ensures IsRun(ws, steps) && |steps| == 5
    ensures steps[2] == Pass(GatedPass(ws[2], Answering("active"))) && steps[4] == Pass(GatedPass(ws[4], Answering("leaving")))
    ensures ws[2].sts == ws[3].sts == ws[4].sts == Some(2) && ws[5].sts == Some(1)
    ensures StateAt(ws[2].state, 1) == "active" && StateAt(ws[3].state, 1) == "decommissioning" && StateAt(ws[4].state, 1) == "leaving"
    ensures 1 in ws[5].cleared && ws[5].cleared[1] == Evacuated && 1 in ws[5].pvcs
  {
    var up := CreatingPass();
    TellingPass();
    ShrinkingPass();
    hide Legal, PassResult, GatedPass, Answering, StateAt;
    var w1, w2 := Apply(Beginning(), up), Beginning().(sts := Some(2), bound := 2, spec := 1);
    var tell, down := Pass(GatedPass(w2, Answering("active"))), Pass(GatedPass(HasLeft(), Answering("leaving")));
    var w3 := Apply(w2, tell);
    ws := [Beginning(), w1, w2, w3, HasLeft(), Apply(HasLeft(), down)];
    steps := [up, SetSpec(1), tell, NodeMoves(1, LEAVING), down];
    ThenItLeaves(w3);
  }

  lemma ThenItLeaves(w: World)
    requires w.state.Keys <= {1} && StateAt(w.state, 1) == "decommissioning"
    requires w == HasLeft().(state := w.state)
    ensures Enabled(w, NodeMoves(1, LEAVING)) && Apply(w, NodeMoves(1, LEAVING)) == HasLeft()
    ensures StateAt(HasLeft().state, 1) == "leaving"
  {
    assert "decommissioning"[0] != LEAVING[0];
    assert w.state[1 := LEAVING] == map[1 := LEAVING];
  }

  // ---------- what a pass does, exactly ----------

  /** A pass lowers the StatefulSet exactly when every departing node is out of
      reach or evacuated, the departed voters could all be removed, and the update
      takes effect. */
  lemma ShrinksExactly(w: World, env: PassEnv)
    requires Legal(w, env) && w.sts.Some? && w.spec < w.sts.value
    ensures PassResult(w, env).sts == Some(w.spec) <==>
      && (forall i: nat :: w.spec <= i < w.sts.value ==> !env.probe(i).reachable || env.probe(i).state == "leaving")
      && env.removed && !env.write.Rejected? && !env.recreate
  {
  }

  /** A departing node that has not left is told exactly when it answers, has not
      been told, every higher one is out of reach or gone if they go one at a time,
      and the call takes effect.  Nothing else changes a departing node's state. */
  lemma DepartingStatesExactly(w: World, env: PassEnv, i: nat)
    requires Legal(w, env) && w.sts.Some? && w.spec <= i < w.sts.value
    ensures StateAt(PassResult(w, env).state, i) ==
      if env.probe(i).reachable && StateAt(w.state, i) != "leaving" && StateAt(w.state, i) != "decommissioning"
         && (env.together || forall k: nat :: i < k < w.sts.value ==> !env.probe(k).reachable || StateAt(w.state, k) == "leaving")
         && env.decommissioned(i)
      then "decommissioning" else StateAt(w.state, i)
  {
    PassKeepsGateStates(w, env, i);
    hide PassResult;
  }

  lemma PassKeepsGateStates(w: World, env: PassEnv, i: nat)
    requires Legal(w, env) && w.spec <= i
    ensures StateAt(PassResult(w, env).state, i) == StateAt(env.gate.state, i)
  {
    hide NowCleared, OnlyStuckGone, NoneStuck, GateContract, StateAt, Readmitted, DeleteUpTo;
    ReadmittedStates(env.gate.state, env.added, w.spec);
    assert PassResult(w, env).state in [env.gate.state, Readmitted(env.gate.state, env.added)];
    hide PassResult, Legal;
  }

  /** So as long as one departing node has not left, the highest such node that
      answers is evacuating after a pass whose calls take effect, in either mode. */
  lemma HighestIsEvacuating(w: World, env: PassEnv, i: nat)
    requires Legal(w, env) && w.sts.Some? && w.spec <= i < w.sts.value
    requires env.probe(i).reachable && StateAt(w.state, i) != "leaving" && env.decommissioned(i)
    requires forall k: nat :: i < k < w.sts.value ==> !env.probe(k).reachable || StateAt(w.state, k) == "leaving"
    ensures StateAt(PassResult(w, env).state, i) == "decommissioning"
  {
    DepartingStatesExactly(w, env, i);
  }

  /** Every node admitted votes, and is no longer what it was before it left. */
  lemma AdmittedTakePart(w: World, env: PassEnv, id: nat)
    requires Legal(w, env) && Resizes(w, env) && env.write.Applied? && !env.early && id in env.added
    ensures id in PassResult(w, env).voters && StateAt(PassResult(w, env).state, id - 1) == "active"
  {
    hide NowCleared, OnlyStuckGone, NoneStuck, GateContract, DeleteUpTo, Readmitted, StateAt, CleanedUp;
    ReadmittedAreActive(env.gate.state, env.added, id);
    assert PassResult(w, env).state == Readmitted(env.gate.state, env.added);
    assert PassResult(w, env).voters == env.gate.voters + env.added;
  }

  lemma ReadmittedAreActive(state: map<nat, string>, added: set<nat>, id: nat)
    requires id in added && id >= 1
    ensures StateAt(Readmitted(state, added), id - 1) == "active"
  {
  }

  /** Of the departed pods the status counts, a pass that is not cut short deletes
      exactly those neither Ready nor already going. */
  lemma StuckPodsGoExactly(w: World, env: PassEnv, i: nat)
    requires Legal(w, env) && Resizes(w, env) && env.write.Applied? && !env.early
    requires i in w.pods && w.spec <= i < env.reported
    ensures i !in PassResult(w, env).pods <==> !w.pods[i].ready && !w.pods[i].deleting
  {
  }

  /** Every pod and every volume the operator deletes belongs to an ordinal that
      a shrink has removed; unless nobody could reach it, it holds no region.  A
      survivor's pod or volume is never deleted, nor is any Ready pod. */
  lemma DeletionsAreOfDepartedOrdinals(ws: seq<World>, steps: seq<Step>, j: nat, i: nat)
    requires IsRun(ws, steps) && j < |steps| && steps[j].Pass?
    requires (i in ws[j].pods && i !in ws[j + 1].pods) || (i in ws[j].pvcs && i !in ws[j + 1].pvcs)
    ensures ws[j + 1].sts.Some? && i >= ws[j + 1].sts.value
    ensures i in ws[j + 1].cleared && (ws[j + 1].cleared[i].Evacuated? ==> i !in ws[j + 1].holds)
    ensures i in ws[j].pods && i !in ws[j + 1].pods ==> !ws[j].pods[i].ready && !ws[j].pods[i].deleting
  {
    RunInv(ws, steps, j);
    RunInv(ws, steps, j + 1);
    var w, env := ws[j], steps[j].env;
    OnlyTheRangeIsDeleted(w.pvcs, w.spec, Prev(w), env.pvcRead, env.pvcDelete);
    assert Resizes(w, env) && !env.write.AppliedUnseen?;
    assert i >= w.spec;
    assert i in w.pods && i >= w.bound ==> i in w.cleared;
    assert i in Interval(w.spec, Prev(w)) || i in w.cleared;
    assert i in NowCleared(w, env);
  }

  // ---------- volumes left behind ----------

  /** The pass lowers the StatefulSet from above ordinal `i` to `i` or below. */
  predicate ShrinksOver(w: World, s: Step, i: nat) {
    s.Pass? && Resizes(w, s.env) && w.sts.Some? && w.spec <= i < w.sts.value
  }

  /** The volume of a dropped ordinal survives the pass that drops it exactly when
      that pass ends early, or a read or delete of it, or of a lower one, fails. */
  lemma VolumeSurvivesExactly(w: World, env: PassEnv, i: nat)
    requires ShrinksOver(w, Pass(env), i) && i in w.pvcs
    ensures i in PassResult(w, env).pvcs <==>
      || env.write.AppliedUnseen? || env.early
      || env.pvcRead(i) != Ok || env.pvcDelete(i) == PodCleanup.Failed
      || exists j :: w.spec <= j < i && Stops(w.pvcs, env.pvcRead, env.pvcDelete, j)
  {
    SurvivesExactly(w.pvcs, w.spec, Prev(w), env.pvcRead, env.pvcDelete, i);
  }

  lemma OnlyAShrinkDeletes(w: World, s: Step, i: nat)
    requires Enabled(w, s) && i in w.pvcs && i !in Apply(w, s).pvcs
    ensures ShrinksOver(w, s, i)
  {
    if s.Pass? {
      OnlyTheRangeIsDeleted(w.pvcs, w.spec, Prev(w), s.env.pvcRead, s.env.pvcDelete);
    }
  }

  /** And then it stays: no later pass deletes it unless one shrinks over that
      ordinal again. */
  lemma {:induction false} LeftVolumesStay(ws: seq<World>, steps: seq<Step>, a: nat, b: nat, i: nat)
    requires IsRun(ws, steps) && a <= b < |ws| && i in ws[a].pvcs
    requires forall j :: a <= j < b ==> !ShrinksOver(ws[j], steps[j], i)
    ensures i in ws[b].pvcs
    decreases b
  {
    hide Enabled, Apply, ShrinksOver, Init, UngatedShrink;
    if a < b {
      LeftVolumesStay(ws, steps, a, b - 1, i);
      if i !in ws[b].pvcs {
        OnlyAShrinkDeletes(ws[b - 1], steps[b - 1], i);
      }
    }
  }

  // ---------- quorum ----------

  /** Every voter has a pod slot, always: held passes, shrinks, growth and
      admissions alike. */
  lemma VotersAreWithinReplicas(ws: seq<World>, steps: seq<Step>, j: nat)
    requires IsRun(ws, steps) && j < |ws| && ws[j].sts.Some?
    ensures forall v :: v in ws[j].voters ==> 1 <= v <= ws[j].sts.value
  {
    RunInv(ws, steps, j);
  }

  /** No step removes a voter that stays; so if one survivor votes before a
      shrink, the voters after it are not empty and all among the survivors. */
  lemma SurvivorsKeepVoting(ws: seq<World>, steps: seq<Step>, j: nat, v: nat)
    requires IsRun(ws, steps) && j < |steps| && v in ws[j].voters && v <= ws[j].spec
    ensures v in ws[j + 1].voters
    ensures ws[j + 1].sts.Some? ==> ws[j + 1].voters <= Interval(1, ws[j + 1].sts.value + 1)
  {
    RunInv(ws, steps, j);
    RunInv(ws, steps, j + 1);
    if steps[j].Pass? {
      PassChangesVoters(ws[j], steps[j].env, v);
    }
    hide PassResult, Legal, StateAt, Init;
  }

  // ---------- scale-down and membership never fight ----------

  lemma PassChangesVoters(w: World, env: PassEnv, id: nat)
    requires Inv(w) && Legal(w, env)
    ensures id in w.voters && id !in PassResult(w, env).voters ==> id > w.spec
    ensures id !in w.voters && id in PassResult(w, env).voters ==> id <= w.spec
  {
    hide StateAt, Readmitted, NowCleared;
  }

  lemma PassChangesStates(w: World, env: PassEnv, i: nat)
    requires Legal(w, env)
    ensures var before, after := StateAt(w.state, i), StateAt(PassResult(w, env).state, i);
      after != before ==>
        if i >= w.spec then after == DECOMMISSIONING && before != LEAVING else after == "active"
  {
    hide NowCleared, OnlyStuckGone, OnlyRangeGone;
    if StateAt(env.gate.state, i) != StateAt(w.state, i) {
      assert Untold(env.probe(i));
    }
    ReadmittedStates(env.gate.state, env.added, w.spec);
  }

  /** In one pass: removed and decommissioned nodes are above spec.replicas,
      admitted nodes are not. */
  lemma MembershipAndScaleDownNeverFight(w: World, env: PassEnv, id: nat)
    requires Inv(w) && Legal(w, env) && id >= 1
    ensures var w' := PassResult(w, env);
      && (id in w.voters && id !in w'.voters ==> id > w.spec)
      && (id !in w.voters && id in w'.voters ==> id <= w.spec)
      && (StateAt(w'.state, id - 1) != StateAt(w.state, id - 1) ==>
            if id > w.spec then StateAt(w'.state, id - 1) == DECOMMISSIONING && StateAt(w.state, id - 1) != LEAVING
            else StateAt(w'.state, id - 1) == "active")
  {
    hide PassResult, Inv, Legal, StateAt;
    PassChangesVoters(w, env, id);
    PassChangesStates(w, env, id - 1);
  }

  /** A pass that holds the shrink admits nobody, so ids already removed stay
      removed from one retry to the next. */
  lemma HeldPassAdmitsNobody(w: World, env: PassEnv)
    requires Legal(w, env) && w.spec < Prev(w) && PassResult(w, env).sts == w.sts
    ensures PassResult(w, env).voters <= w.voters
  {
  }

  /** From one retry to the next, over any stretch of a held scale-down, ids
      removed from the voters stay removed. */
  lemma {:induction false} RemovedIdsStayRemoved(ws: seq<World>, steps: seq<Step>, a: nat, b: nat, id: nat)
    requires IsRun(ws, steps) && a <= b < |ws| && ws[a].sts.Some? && ws[a].spec < ws[a].sts.value
    requires forall j :: a <= j <= b ==> ws[j].spec == ws[a].spec && ws[j].sts == ws[a].sts
    requires id > ws[a].spec >= 1 && id !in ws[a].voters
    ensures id !in ws[b].voters
    decreases b
  {
    hide Enabled, Apply, Init, UngatedShrink, Inv;
    if a < b {
      RemovedIdsStayRemoved(ws, steps, a, b - 1, id);
      assert ws[b - 1 + 1] == ws[b];
      HeldStepAdmitsNobody(ws[b - 1], steps[b - 1], id);
    }
  }

  lemma HeldStepAdmitsNobody(w: World, s: Step, id: nat)
    requires Enabled(w, s) && w.sts.Some? && w.spec < w.sts.value && Apply(w, s).sts == w.sts
    requires id > w.spec && id !in w.voters && id >= 2
    ensures id !in Apply(w, s).voters
  {
    if s.Pass? {
      HeldPassAdmitsNobody(w, s.env);
    }
  }

  // ---------- one at a time ----------

  /** The operator may have told ordinal `i` to decommission in this step. */
  ghost predicate Tells(w: World, s: Step, i: nat) {
    s.Pass? && w.spec < Prev(w) && MayTell(Prev(w), w.spec, s.env.together, s.env.probe, i)
  }

  /** A departing pod comes up on an empty volume, as a node with no memory of
      having left. */
  predicate NewDepartingNode(w: World, s: Step) {
    s.CreatePod? && s.i >= w.spec && s.i !in w.pvcs
  }

  /** A stretch of a sequential scale-down in which every departing node answers. */
  ghost predicate SequentialStretch(ws: seq<World>, steps: seq<Step>, a: nat, b: nat) {
    && IsRun(ws, steps) && a <= b < |steps|
    && ws[a].sts.Some? && ws[a].spec < ws[a].sts.value
    && (forall j :: a <= j <= b ==> ws[j].spec == ws[a].spec && ws[j].sts == ws[a].sts && !NewDepartingNode(ws[j], steps[j]))
    && (forall j :: a <= j <= b && steps[j].Pass? ==> Sequential(ws[a], steps[j].env))
  }

  ghost predicate Sequential(w: World, env: PassEnv) {
    !env.together && forall i: nat :: w.spec <= i < Prev(w) ==> env.probe(i).reachable
  }

  lemma TellingMeansHigherHaveLeft(w: World, s: Step, i: nat, k: nat)
    requires Enabled(w, s) && Tells(w, s, i) && !s.env.together && i < k < Prev(w)
    requires s.env.probe(k).reachable
    ensures StateAt(w.state, k) == LEAVING
  {
    assert Released(s.env.probe(k));
  }

  lemma StepKeepsLeft(w: World, s: Step, k: nat)
    requires Enabled(w, s) && !NewDepartingNode(w, s) && w.spec <= k && StateAt(w.state, k) == LEAVING
    ensures StateAt(Apply(w, s).state, k) == LEAVING
  {
    hide PassResult, Legal;
    if s.Pass? {
      PassChangesStates(w, s.env, k);
    }
  }

  lemma {:induction false} LeavingIsTerminal(ws: seq<World>, steps: seq<Step>, a: nat, b: nat, k: nat)
    requires SequentialStretch(ws, steps, a, b) && ws[a].spec <= k && StateAt(ws[a].state, k) == LEAVING
    ensures StateAt(ws[b].state, k) == LEAVING
    decreases b
  {
    if a < b {
      assert SequentialStretch(ws, steps, a, b - 1);
      LeavingIsTerminal(ws, steps, a, b - 1, k);
      hide Enabled, Apply, StateAt, Init, Sequential;
      StepKeepsLeft(ws[b - 1], steps[b - 1], k);
    }
  }

  /** One at a time: when a second node is told, the first one told has left and
      holds nothing, so two told nodes never hold regions together. */
  lemma NeverTwoToldHoldingRegions(ws: seq<World>, steps: seq<Step>, a: nat, b: nat, i: nat, k: nat)
    requires SequentialStretch(ws, steps, a, b) && Tells(ws[a], steps[a], k) && Tells(ws[b], steps[b], i)
    ensures i <= k
    ensures i != k ==> StateAt(ws[b].state, k) == LEAVING && k !in ws[b].holds
  {
    RunInv(ws, steps, b);
    assert Sequential(ws[a], steps[a].env) && Sequential(ws[a], steps[b].env);
    if i > k {
      TellingMeansHigherHaveLeft(ws[a], steps[a], k, i);
      LeavingIsTerminal(ws, steps, a, b, i);
    } else if i < k {
      TellingMeansHigherHaveLeft(ws[b], steps[b], i, k);
    }
  }

  // ---------- the unguarded shrink ----------

  lemma UngatedVoters(w: World, env: PassEnv)
    requires Inv(w) && Legal(w, env) && w.sts.None? && PassResult(w, env).sts.Some?
    ensures var w' := PassResult(w, env);
      && w'.bound == w.spec && w'.holds == w.holds && (forall i :: w.spec <= i < w.bound ==> i !in w'.cleared)
      && w.voters <= w'.voters && (forall v :: v in w'.voters && v !in w.voters ==> 1 <= v <= w.spec)
  {
    hide StateAt, Readmitted, OnlyStuckGone, OnlyRangeGone;
  }

  /** When the StatefulSet is absent the gate does not run.  If replicas were
      lowered meanwhile, every dropped ordinal goes without evidence and with all it
      holds, no voter is removed, and the voters fit the new size exactly when they already did. */
  lemma AbsentStatefulSetIsUngated(w: World, env: PassEnv)
    requires Inv(w) && Legal(w, env) && w.sts.None? && PassResult(w, env).sts.Some?
    ensures var w' := PassResult(w, env);
      && w'.bound == w.spec
      && w'.holds == w.holds && (forall i :: w.spec <= i < w.bound ==> i !in w'.cleared)
      && w.voters <= w'.voters
      && ((forall v :: v in w'.voters ==> 1 <= v <= w'.bound) <==> (forall v :: v in w.voters ==> 1 <= v <= w.spec))
  {
    var w' := PassResult(w, env);
    UngatedVoters(w, env);
    hide PassResult, Legal, Inv;
    forall v | v in w.voters && !(1 <= v <= w.spec)
      ensures v in w'.voters && !(1 <= v <= w'.bound)
    {
    }
  }

  /** Two nodes that vote, the second holding regions. */
  function Formed(): World {
    Beginning().(sts := Some(2), bound := 2, voters := {1, 2}, holds := {1}, state := Readmitted(map[], {2}))
  }

  /** As above before the second node is admitted. */
  function Forming(): World {
    Beginning().(sts := Some(2), bound := 2, voters := {1}, holds := {1})
  }

  function Admission(): PassEnv {
    Quietly(HookResult(map[], {1}, true), (i: nat) => DepartingNode("", false)).(early := false, added := {2})
  }

  lemma AdmissionIsLegal()
    ensures Legal(Forming(), Admission())
  {
  }

  lemma AdmissionForms()
    ensures PassResult(Forming(), Admission()) == Formed()
  {
    assert {1} + {2} == {1, 2};
    NothingCleared();
    hide NowCleared, Readmitted, DeleteUpTo;
  }

  lemma NothingCleared()
    ensures NowCleared(Forming(), Admission()) == map[]
  {
  }

  /** The pass that deletes the StatefulSet to change its pod management, and the
      one that creates it again after replicas were lowered. */
  lemma RecreatingPasses() returns (drop: Step, create: Step)
    ensures drop.Pass? && Enabled(Formed(), drop) && Apply(Formed(), drop) == Formed().(sts := None)
    ensures var w := Formed().(sts := None, spec := 1);
      && Enabled(w, create) && UngatedShrink(w, create)
      && Apply(w, create).sts == Some(1) && Apply(w, create).voters == {1, 2} && Apply(w, create).holds == {1}
  {
    var passive := Quietly(HookResult(Formed().state, Formed().voters, true), (i: nat) => DepartingNode("", false));
    var safe := (i: nat) => DepartingNode("", false);
    drop, create := Pass(passive.(recreate := true)), Pass(passive);
  }

  /** It happens: a run after which the next pass drops a node that holds regions
      and votes, unasked. */
  lemma UngatedShrinkHappens() returns (ws: seq<World>, steps: seq<Step>, last: Step)
    ensures IsRun(ws, steps) && |steps| == 6 && Enabled(ws[6], last) && UngatedShrink(ws[6], last)
    ensures var after := Apply(ws[6], last);
      after.sts == Some(1) && 1 in after.holds && after.voters == {1, 2}
  {
    var up := CreatingPass();
    var drop, create := RecreatingPasses();
    AdmissionIsLegal();
    AdmissionForms();
    FirstVoterHolds();
    hide Legal, PassResult, Admission, StateAt;
    var made := Beginning().(sts := Some(2), bound := 2);
    ws := [Beginning(), made, made.(voters := {1}), Forming(), Formed(), Formed().(sts := None), Formed().(sts := None, spec := 1)];
    steps := [up, Bootstrap, Gain(1), Pass(Admission()), drop, SetSpec(1)];
    last := create;
  }

  lemma FirstVoterHolds()
    ensures var made := Beginning().(sts := Some(2), bound := 2);
      && Enabled(made, Bootstrap) && Apply(made, Bootstrap) == made.(voters := {1})
      && Enabled(made.(voters := {1}), Gain(1)) && Apply(made.(voters := {1}), Gain(1)) == Forming()
  {
    assert {} + {1} == {1};
    assert "active"[0] != LEAVING[0];
  }
}
