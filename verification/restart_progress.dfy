/** A recorded restart ends, and is never dropped half way. */
module RestartProgress {
  import opened Common
  import opened RestartState
  import opened RestartWorld
  import opened RestartSafety

  function Rank(p: Phase): nat {
    match p
    case Excluding => 3
    case Draining => 2
    case WaitingReady => 1
    case _ => 0
  }

  function Measure(st: Restart): int {
    3 * st.ordinal + Rank(st.phase)
  }

  /** How often the saved record changes between worlds `a` and `b`. */
  ghost function Changes(ws: seq<World>, a: nat, b: nat): nat
    requires a <= b < |ws|
    decreases b
  {
    if a == b then 0
    else Changes(ws, a, b - 1) + if ws[b - 1].api.saved != ws[b].api.saved then 1 else 0
  }

  ghost predicate RecordedThroughout(ws: seq<World>, a: nat, b: nat)
    requires a <= b < |ws|
  {
    forall j :: a <= j <= b ==> ws[j].api.saved.Some?
  }

  lemma ChangesCost(w: World, s: Step)
    requires Inv(w) && Enabled(w, s) && w.api.saved.Some? && Apply(w, s).api.saved.Some?
    requires Apply(w, s).api.saved != w.api.saved
    ensures Measure(Apply(w, s).api.saved.value) < Measure(w.api.saved.value)
  {
    OnlyPassesMoveTheRecord(w, s);
    PassEdge(w, s.env);
    hide RestartPass, Inv, Enabled, Apply;
  }

  lemma MeasureIsBounded(w: World)
    requires Inv(w) && w.api.saved.Some?
    ensures 0 <= Measure(w.api.saved.value) <= 3 * w.replicas
  {
  }

  /** Every saved change costs at least one unit of the measure, so a restart of
      n pods makes at most 3n phase changes, whatever writes are lost. */
  lemma {:induction false} PhaseChangesAreBounded(ws: seq<World>, steps: seq<Step>, a: nat, b: nat)
    requires IsRun(ws, steps) && Inv(ws[0]) && a <= b < |ws| && RecordedThroughout(ws, a, b)
    ensures Changes(ws, a, b) <= Measure(ws[a].api.saved.value) - Measure(ws[b].api.saved.value)
    ensures Changes(ws, a, b) <= 3 * ws[a].replicas
    decreases b
  {
    hide Inv, Enabled, Apply, Measure;
    RunInv(ws, steps, a);
    RunInv(ws, steps, b);
    MeasureIsBounded(ws[a]);
    MeasureIsBounded(ws[b]);
    if a < b {
      PhaseChangesAreBounded(ws, steps, a, b - 1);
      RunInv(ws, steps, b - 1);
      if ws[b - 1].api.saved != ws[b].api.saved {
        ChangesCost(ws[b - 1], steps[b - 1]);
      }
    }
  }

  // ---------- no phase is held for ever ----------

  /** The API server answers and accepts everything this pass asks of it. */
  ghost predicate ApiWorks(w: World, env: Env) {
    && Honest(w, env)
    && env.release.Applied? && env.saveOk
    && forall i: int :: env.pods(i) == Observed(w, i)
  }

  /** The phase has lasted as long as it may, given the state of its pod. */
  predicate Due(w: World, env: Env)
    requires w.api.saved.Some?
  {
    var st := w.api.saved.value;
    var elapsed := env.now - st.startedAt;
    match st.phase
    case Excluding => (
      match Observed(w, st.ordinal)
      case Found(pod) => pod.revision == w.report.update || (pod.ip.Some? && elapsed >= 120)
      case _ => true)
    case Draining => elapsed >= if env.drainWaitSecs > 0 then env.drainWaitSecs else 10
    case WaitingReady => (
      match Observed(w, st.ordinal)
      case Found(pod) =>
        pod.revision == w.report.update && pod.ready && !pod.terminating && pod.ip.Some? && elapsed >= 720
      case _ => false)
    case _ => false
  }

  /** Nothing the proxies do can hold a phase beyond its timeout. */
  lemma ProxiesCannotHoldAPhase(w: World, env: Env)
    requires Inv(w) && Synced(w) && w.api.saved.Some? && ApiWorks(w, env) && Due(w, env)
    ensures Apply(w, Coordinate(env)).api.saved != w.api.saved
  {
    var st := w.api.saved.value;
    assert env.pods(st.ordinal) == Observed(w, st.ordinal);
    if !Finished(w.api.saved, w.replicas, w.report) && !NothingToDo(w.api.saved, w.report) {
      assert Dispatch(w.api, st, w.report, env).saved != Some(st);
    }
  }

  ghost predicate DuePass(ws: seq<World>, steps: seq<Step>, j: nat)
    requires IsRun(ws, steps) && j < |steps|
  {
    steps[j].Coordinate? && ws[j].api.saved.Some? && ApiWorks(ws[j], steps[j].env) && Due(ws[j], steps[j].env)
  }

  ghost function DuePasses(ws: seq<World>, steps: seq<Step>, a: nat, b: nat): nat
    requires IsRun(ws, steps) && a <= b <= |steps|
    decreases b
  {
    if a == b then 0
    else DuePasses(ws, steps, a, b - 1) + if DuePass(ws, steps, b - 1) then 1 else 0
  }

  lemma {:induction false} DuePassesMoveTheRecord(ws: seq<World>, steps: seq<Step>, a: nat, b: nat)
    requires IsRun(ws, steps) && Inv(ws[0]) && a <= b <= |steps|
    ensures DuePasses(ws, steps, a, b) <= Changes(ws, a, b)
    decreases b
  {
    if a < b {
      DuePassesMoveTheRecord(ws, steps, a, b - 1);
      RunInv(ws, steps, b - 1);
      if DuePass(ws, steps, b - 1) {
        ProxiesCannotHoldAPhase(ws[b - 1], steps[b - 1].env);
      }
    }
  }

  /** A restart ends: after more due passes than its measure, however they are
      spread over the run, it is no longer recorded or it is Completed. */
  lemma RestartTerminates(ws: seq<World>, steps: seq<Step>, a: nat, b: nat)
    requires IsRun(ws, steps) && Inv(ws[0]) && a <= b <= |steps| && ws[a].api.saved.Some?
    requires DuePasses(ws, steps, a, b) >= Measure(ws[a].api.saved.value)
    ensures exists j :: a <= j <= b
              && (ws[j].api.saved.None? || ws[j].api.saved.value.phase == Completed)
  {
    if RecordedThroughout(ws, a, b) {
      DuePassesMoveTheRecord(ws, steps, a, b);
      PhaseChangesAreBounded(ws, steps, a, b);
      RunInv(ws, steps, b);
      assert Measure(ws[b].api.saved.value) == 0;
    }
  }

  // ---------- the record is never dropped mid-pod ----------

  lemma {:induction false} DoneHasCause(ws: seq<World>, steps: seq<Step>, r: nat)
    requires IsRun(ws, steps) && r < |ws| && Done(ws[r].report) && !Done(ws[0].report)
    ensures exists e :: 0 <= e < r && AllUpdatedAndReady(ws[e])
  {
    if Done(ws[r - 1].report) {
      DoneHasCause(ws, steps, r - 1);
    } else {
      assert AllUpdatedAndReady(ws[r - 1]);
    }
  }

  /** The record is dropped only from Completed, or from an Excluding that has
      confirmed nothing, and only after every pod has been seen updated and
      Ready at once. */
  lemma NeverDroppedMidPod(ws: seq<World>, steps: seq<Step>, r: nat)
    requires IsRun(ws, steps) && Inv(ws[0]) && !Done(ws[0].report) && r < |steps|
    requires ws[r].api.saved.Some? && ws[r + 1].api.saved.None?
    ensures var st := ws[r].api.saved.value;
      st.phase == Completed || (st.phase == Excluding && !st.confirmed)
    ensures exists e :: 0 <= e < r && AllUpdatedAndReady(ws[e])
  {
    RunInv(ws, steps, r);
    OnlyPassesMoveTheRecord(ws[r], steps[r]);
    PassEdge(ws[r], steps[r].env);
    DoneHasCause(ws, steps, r);
  }

  /** Once the update is complete no pod is ever replaced again, and a restart
      still recorded only walks on. */
  lemma {:induction false} NothingReplacedOnceComplete(ws: seq<World>, steps: seq<Step>, a: nat, r: nat)
    requires IsRun(ws, steps) && Inv(ws[0]) && a <= r < |steps| && Done(ws[a].report)
    ensures Done(ws[r].report) && !steps[r].Replace?
    decreases r
  {
    RunInv(ws, steps, r);
    if a < r {
      NothingReplacedOnceComplete(ws, steps, a, r - 1);
    }
  }

  /** A restart over pods that are all updated replaces none of them, unless one
      is lost on the way. */
  lemma {:induction false} UpdatedSetIsLeftAlone(ws: seq<World>, steps: seq<Step>, r: nat)
    requires IsRun(ws, steps) && Inv(ws[0]) && r < |steps|
    requires forall i: nat :: i < ws[0].replicas ==> Present(ws[0], i) && OnUpdate(ws[0], i)
    requires forall j :: 0 <= j < r ==> !steps[j].Vanish?
    ensures !steps[r].Replace?
    ensures forall i: nat :: i < ws[r].replicas ==> Present(ws[r], i) && OnUpdate(ws[r], i)
  {
    if r > 0 {
      UpdatedSetIsLeftAlone(ws, steps, r - 1);
      RunInv(ws, steps, r - 1);
      UpdatedStaysUpdated(ws[r - 1], steps[r - 1]);
    }
    assert steps[r].Replace? ==> Replaceable(ws[r], steps[r].i);
  }

  lemma UpdatedStaysUpdated(w: World, s: Step)
    requires Enabled(w, s) && Steady(s) && !s.Vanish?
    requires forall i: nat :: i < w.replicas ==> Present(w, i) && OnUpdate(w, i)
    ensures forall i: nat :: i < w.replicas ==> Present(Apply(w, s), i) && OnUpdate(Apply(w, s), i)
  {
    forall i: nat | i < w.replicas
      ensures Present(Apply(w, s), i) && OnUpdate(Apply(w, s), i)
    {
      assert Present(w, i) && OnUpdate(w, i);
    }
  }

  lemma ClearedOnlyWhenDoneOrCompleted(w: World, s: Step)
    requires Inv(w) && Enabled(w, s) && w.api.saved.Some? && Apply(w, s).api.saved.None?
    ensures w.api.saved.value.phase == Completed || Done(w.report)
  {
    OnlyPassesMoveTheRecord(w, s);
    PassEdge(w, s.env);
  }

  /** The first world without a record comes after one in Completed. */
  lemma {:induction false} CompletedBeforeCleared(ws: seq<World>, steps: seq<Step>, a: nat, j: nat)
    requires IsRun(ws, steps) && Inv(ws[0]) && a <= j < |ws| && ws[a].api.saved.Some? && ws[j].api.saved.None?
    requires forall m :: a <= m < j ==> !Done(ws[m].report)
    ensures exists m :: a <= m < j && ws[m].api.saved.Some? && ws[m].api.saved.value.phase == Completed
    decreases j
  {
    hide Apply, Enabled, Inv;
    if ws[j - 1].api.saved.None? {
      CompletedBeforeCleared(ws, steps, a, j - 1);
    } else {
      RunInv(ws, steps, j - 1);
      ClearedOnlyWhenDoneOrCompleted(ws[j - 1], steps[j - 1]);
    }
  }

  /** A restart over pods that are all updated, none of which is lost, replaces
      nothing and reaches Completed while the update is still reported pending. */
  lemma UpdatedSetReachesCompleted(ws: seq<World>, steps: seq<Step>, a: nat, b: nat)
    requires IsRun(ws, steps) && Inv(ws[0]) && a <= b <= |steps| && ws[a].api.saved.Some?
    requires forall i: nat :: i < ws[0].replicas ==> Present(ws[0], i) && OnUpdate(ws[0], i)
    requires forall j :: 0 <= j < |steps| ==> !steps[j].Vanish?
    requires forall j :: a <= j <= b ==> !Done(ws[j].report)
    requires DuePasses(ws, steps, a, b) >= Measure(ws[a].api.saved.value)
    ensures exists j :: a <= j <= b && ws[j].api.saved.Some? && ws[j].api.saved.value.phase == Completed
    ensures forall r :: 0 <= r < |steps| ==> !steps[r].Replace?
  {
    RestartTerminates(ws, steps, a, b);
    var j :| a <= j <= b && (ws[j].api.saved.None? || ws[j].api.saved.value.phase == Completed);
    if ws[j].api.saved.None? {
      CompletedBeforeCleared(ws, steps, a, j);
    }
    forall r | 0 <= r < |steps|
      ensures !steps[r].Replace?
    {
      UpdatedSetIsLeftAlone(ws, steps, r);
    }
  }
}
