/** Safety of the rolling restart over whole runs. */
module RestartSafety {
  import opened Common
  import opened RestartState
  import opened RestartWorld

  /** Record and partition move together. */
  predicate Coupled(w: World) {
    w.api.saved.Some? ==>
      var st := w.api.saved.value;
      && 0 <= st.ordinal < w.replicas
      && st.phase != Including
      && (st.phase == Excluding ==> !st.confirmed)
      && (st.phase == Completed ==> st.ordinal == 0 && w.api.partition == 0)
      && (st.phase == WaitingReady ==> w.api.partition == st.ordinal)
      && st.ordinal <= w.api.partition <= st.ordinal + 1
  }

  /** Ordinals the restart has left behind. */
  predicate Behind(w: World, i: nat) {
    match w.api.saved
    case None => w.api.partition <= i
    case Some(st) => i > st.ordinal || st.phase == Completed
  }

  /** What keeps a pod from being replaced undrained, whatever writes are lost. */
  ghost predicate Safe(w: World) {
    && |w.slots| == |w.lastIP| == w.n
    && 1 <= w.replicas <= w.n
    && w.report.update != ""
    && Coupled(w)
    && (forall i: nat :: i < w.replicas && Present(w, i) && Behind(w, i) ==> OnUpdate(w, i))
    && (forall i: nat :: Replaceable(w, i) ==>
          w.api.saved.Some? && i == w.api.saved.value.ordinal && i in w.hist.drained)
  }

  /** Only ordinals the restart has reached have been drained. */
  predicate DrainedInOrder(w: World) {
    match w.api.saved
    case None => w.hist.drained == {} || Done(w.report)
    case Some(st) =>
      && (forall d <- w.hist.drained :: d >= st.ordinal)
      && (st.phase == Excluding ==> forall d <- w.hist.drained :: d != st.ordinal)
  }

  /** What a report of a finished update means, and that a rollout happens once. */
  ghost predicate OneRollout(w: World) {
    && (w.api.saved.None? ==> w.api.partition == w.replicas || Done(w.report))
    && DrainedInOrder(w)
    && (Done(w.report) ==> forall i: nat :: i < w.replicas && Present(w, i) ==> OnUpdate(w, i))
    && (Complete(w.report, w.replicas) ==> Done(w.report))
  }

  /** Everything that survives lost writes. */
  ghost predicate Inv(w: World) {
    Safe(w) && OneRollout(w)
  }

  lemma InitInv(w: World)
    requires Init(w)
    ensures Inv(w)
  {
  }

  // ---------- one handler at a time ----------

  function With(w: World, api: Api): World {
    w.(api := api)
  }

  /** The pods are the same, so what is left to show is about the record. */
  lemma SamePods(w: World, w': World)
    requires w'.slots == w.slots && w'.report.update == w.report.update
    ensures forall i: nat :: Present(w', i) ==> Present(w, i) && OnUpdate(w', i) == OnUpdate(w, i)
  {
  }

  lemma SyncIsSafe(w: World)
    requires Safe(w)
    ensures Safe(Apply(w, Sync))
  {
    SamePods(w, Apply(w, Sync));
    assert forall i: nat :: Replaceable(Apply(w, Sync), i) ==> Replaceable(w, i);
  }

  /** Releasing an ordinal is safe when its pod is gone, updated or drained. */
  lemma ReleaseIsSafe(w: World, env: Env)
    requires Safe(w) && w.api.saved.Some? && w.api.saved.value.phase in {Excluding, Draining}
    requires var k := w.api.saved.value.ordinal; !Present(w, k) || OnUpdate(w, k) || k in w.hist.drained
    ensures Safe(With(w, Release(w.api, w.api.saved.value, env)))
  {
    SamePods(w, With(w, Release(w.api, w.api.saved.value, env)));
  }

  lemma ExcludeIsSafe(w: World, env: Env)
    requires Safe(w) && Honest(w, env) && w.api.saved.Some? && w.api.saved.value.phase == Excluding
    ensures Safe(With(w, ExcludeStep(w.api, w.api.saved.value, w.report.update, env)))
  {
    var st := w.api.saved.value;
    assert env.pods(st.ordinal) == LookupFailed || env.pods(st.ordinal) == Observed(w, st.ordinal);
    if env.pods(st.ordinal).NotFound? ||
       (env.pods(st.ordinal).Found? && env.pods(st.ordinal).pod.revision == w.report.update) {
      ReleaseIsSafe(w, env);
    } else {
      SamePods(w, With(w, ExcludeStep(w.api, st, w.report.update, env)));
    }
  }

  lemma DrainIsSafe(w: World, env: Env)
    requires Safe(w) && w.api.saved.Some? && w.api.saved.value.phase == Draining
    requires env.now - w.api.saved.value.startedAt >= DrainWait(env) ==> w.api.saved.value.ordinal in w.hist.drained
    ensures Safe(With(w, DrainStep(w.api, w.api.saved.value, env)))
  {
    if env.now - w.api.saved.value.startedAt >= DrainWait(env) {
      ReleaseIsSafe(w, env);
    }
  }

  lemma WaitIsSafe(w: World, env: Env)
    requires Safe(w) && Honest(w, env) && w.api.saved.Some? && w.api.saved.value.phase == WaitingReady
    ensures Safe(With(w, WaitStep(w.api, w.api.saved.value, w.report.update, env)))
  {
    var st := w.api.saved.value;
    var w' := With(w, WaitStep(w.api, st, w.report.update, env));
    assert env.pods(st.ordinal) == LookupFailed || env.pods(st.ordinal) == Observed(w, st.ordinal);
    SamePods(w, w');
    assert forall i: nat :: Present(w', i) && Behind(w', i) ==> Behind(w, i) || i == st.ordinal;
    assert forall i: nat :: Replaceable(w', i) ==> Replaceable(w, i);
  }

  lemma StartIsSafe(w: World, st: Restart)
    requires Safe(w) && w.api.saved.None? && w.api.partition == w.replicas
    requires st == Start(w.replicas, st.startedAt)
    ensures Safe(With(w, w.api.(saved := Some(st))))
  {
    SamePods(w, With(w, w.api.(saved := Some(st))));
    assert forall i: nat :: !Replaceable(With(w, w.api.(saved := Some(st))), i);
  }

  lemma ClearIsSafe(w: World, env: Env)
    requires Safe(w) && Synced(w)
    requires Finished(w.api.saved, w.replicas, w.report) || NothingToDo(w.api.saved, w.report)
    ensures Safe(With(w, Save(w.api, None, env.saveOk)))
  {
    var w' := With(w, Save(w.api, None, env.saveOk));
    SamePods(w, w');
    assert forall i: nat :: !Replaceable(w', i) || w' == w;
  }

  lemma DispatchIsSafe(w: World, env: Env)
    requires Safe(w) && Honest(w, env) && w.api.saved.Some?
    requires var st := w.api.saved.value;
      st.phase == Draining && env.now - st.startedAt >= DrainWait(env) ==> st.ordinal in w.hist.drained
    ensures Safe(With(w, Dispatch(w.api, w.api.saved.value, w.report, env)))
  {
    match w.api.saved.value.phase {
      case Excluding => ExcludeIsSafe(w, env);
      case Draining => DrainIsSafe(w, env);
      case WaitingReady => WaitIsSafe(w, env);
      case _ =>
    }
  }

  lemma RestartPassIsSafe(w: World, env: Env)
    requires Safe(w) && Honest(w, env) && Synced(w)
    requires w.api.saved.Some? ==> var st := w.api.saved.value;
      st.phase == Draining && env.now - st.startedAt >= DrainWait(env) ==> st.ordinal in w.hist.drained
    ensures Safe(With(w, RestartPass(w.api, w.replicas, w.report, env)))
  {
    if !Rolling(w.report) && w.api.saved.None? {
      assert With(w, w.api) == w;
    } else if Finished(w.api.saved, w.replicas, w.report) || NothingToDo(w.api.saved, w.report) {
      ClearIsSafe(w, env);
    } else if w.api.saved.Some? {
      DispatchIsSafe(w, env);
    } else if env.startOk {
      var st := Start(w.replicas, env.now);
      StartIsSafe(w, st);
      DispatchIsSafe(With(w, w.api.(saved := Some(st))), env);
    } else {
      assert With(w, w.api) == w;
    }
  }

  /** Noting the drained ordinal first. */
  lemma NotesIsSafe(w: World, env: Env, residue: Option<nat>)
    requires Safe(w)
    ensures Safe(w.(hist := History(Noted(w, env, w.api).drained, residue)))
  {
    var w' := w.(hist := History(Noted(w, env, w.api).drained, residue));
    SamePods(w, w');
    assert forall i: nat :: Replaceable(w', i) ==> Replaceable(w, i);
  }

  lemma CoordinateIsSafe(w: World, env: Env)
    requires Safe(w) && Honest(w, env) && Synced(w)
    ensures Safe(Apply(w, Coordinate(env)))
  {
    var api := RestartPass(w.api, w.replicas, w.report, env);
    var noted := w.(hist := Noted(w, env, api));
    NotesIsSafe(w, env, noted.hist.residue);
    assert forall i: int :: Observed(noted, i) == Observed(w, i);
    RestartPassIsSafe(noted, env);
    assert Apply(w, Coordinate(env)) == With(noted, api);
  }

  // ---------- everything else ----------

  /** Steps that touch one pod. */
  lemma SlotIsSafe(w: World, s: Step)
    requires Safe(w) && Enabled(w, s) && (s.Replace? || s.Terminate? || s.Vanish? || s.Recreate? || s.AssignIP? || s.SetReady?)
    ensures Safe(Apply(w, s))
  {
    var w' := Apply(w, s);
    forall i: nat | Present(w', i) && i < w.replicas
      ensures Behind(w', i) ==> OnUpdate(w', i)
      ensures Replaceable(w', i) ==> Replaceable(w, i)
    {
      assert !s.Recreate? ==> Present(w, i) && OnUpdate(w', i) == OnUpdate(w, i);
      assert Behind(w', i) == Behind(w, i);
      assert s.Recreate? && i != s.i ==> Present(w, i) && OnUpdate(w', i) == OnUpdate(w, i);
    }
  }

  /** Steps that touch neither pods nor record. */
  lemma PodlessIsSafe(w: World, s: Step)
    requires Safe(w) && Enabled(w, s) && (s.ReportStatus? || s.ProxiesChange? || s.Tick?)
    ensures Safe(Apply(w, s))
  {
    SamePods(w, Apply(w, s));
    assert forall i: nat :: Replaceable(Apply(w, s), i) ==> Replaceable(w, i);
  }

  lemma StepIsSafe(w: World, s: Step)
    requires Safe(w) && Enabled(w, s) && Steady(s)
    ensures Safe(Apply(w, s))
  {
    match s {
      case Sync => SyncIsSafe(w);
      case Coordinate(env) => CoordinateIsSafe(w, env);
      case ReportStatus(_) => PodlessIsSafe(w, s);
      case ProxiesChange(_) => PodlessIsSafe(w, s);
      case Tick(_) => PodlessIsSafe(w, s);
      case _ => SlotIsSafe(w, s);
    }
  }

  // ---------- the rest of the invariant ----------

  lemma CoordinateInv(w: World, env: Env)
    requires Inv(w) && Honest(w, env) && Synced(w)
    ensures Inv(Apply(w, Coordinate(env)))
  {
    CoordinateIsSafe(w, env);
    SamePods(w, Apply(w, Coordinate(env)));
  }

  lemma StepInv(w: World, s: Step)
    requires Inv(w) && Enabled(w, s) && Steady(s)
    ensures Inv(Apply(w, s))
  {
    if s.Coordinate? {
      CoordinateInv(w, s.env);
    } else {
      StepIsSafe(w, s);
      forall i: nat | Done(Apply(w, s).report) && i < w.replicas && Present(Apply(w, s), i)
        ensures OnUpdate(Apply(w, s), i)
      {
        assert !s.Recreate? ==> Present(w, i);
        assert s.Recreate? && i != s.i ==> Present(w, i);
      }
    }
  }

  lemma {:induction false} RunIsSafe(ws: seq<World>, steps: seq<Step>, j: nat)
    requires IsRun(ws, steps) && Safe(ws[0]) && j < |ws|
    ensures Safe(ws[j])
  {
    if j > 0 {
      RunIsSafe(ws, steps, j - 1);
      StepIsSafe(ws[j - 1], steps[j - 1]);
    }
  }

  lemma {:induction false} RunInv(ws: seq<World>, steps: seq<Step>, j: nat)
    requires IsRun(ws, steps) && Inv(ws[0]) && j < |ws|
    ensures Inv(ws[j])
    ensures ws[j].report.update == ws[0].report.update && ws[j].n == ws[0].n && ws[j].replicas == ws[0].replicas
  {
    if j > 0 {
      RunInv(ws, steps, j - 1);
      StepInv(ws[j - 1], steps[j - 1]);
    }
  }

  // ---------- which records a pass may leave ----------

  /** Every way a pass can change the saved record. */
  predicate Edge(before: Option<Restart>, after: Option<Restart>, replicas: nat, rep: Report) {
    || after == before
    || (before.Some? && after.None? && (Finished(before, replicas, rep) || NothingToDo(before, rep)))
    || (before.None? && after.Some? && Rolling(rep) && after.value.ordinal == replicas - 1 &&
        after.value.phase in {Excluding, Draining, WaitingReady})
    || (before.Some? && after.Some? && Successor(before.value, after.value))
  }

  predicate Successor(a: Restart, b: Restart) {
    match a.phase
    case Excluding => b.ordinal == a.ordinal && b.phase in {Draining, WaitingReady}
    case Draining => b.ordinal == a.ordinal && b.phase == WaitingReady
    case WaitingReady =>
      if a.ordinal == 0 then b.ordinal == 0 && b.phase == Completed
      else b.ordinal == a.ordinal - 1 && b.phase == Excluding && !b.confirmed
    case _ => false
  }

  lemma PassEdge(w: World, env: Env)
    requires Inv(w)
    ensures Edge(w.api.saved, RestartPass(w.api, w.replicas, w.report, env).saved, w.replicas, w.report)
  {
  }

  lemma OnlyPassesMoveTheRecord(w: World, s: Step)
    requires Enabled(w, s) && Apply(w, s).api.saved != w.api.saved
    ensures s.Coordinate? && Apply(w, s).api.saved == RestartPass(w.api, w.replicas, w.report, s.env).saved
  {
  }

  /** Partition and record stay in step whatever writes are lost: while a
      restart is recorded the partition is its ordinal or one above, every pod
      above the ordinal is on the update revision, and one that is missing
      would come back on it. */
  lemma PartitionFollowsRecord(ws: seq<World>, steps: seq<Step>, j: nat)
    requires IsRun(ws, steps) && Init(ws[0]) && j < |ws| && ws[j].api.saved.Some?
    ensures var v, k := ws[j], ws[j].api.saved.value.ordinal;
      && 0 <= k < v.replicas
      && v.api.partition in {k, k + 1}
      && (forall i: nat :: k < i < v.replicas && Present(v, i) ==> OnUpdate(v, i))
      && (forall i: nat :: k < i && Enabled(v, Recreate(i)) ==>
            Apply(v, Recreate(i)).slots[i].value.revision == v.report.update)
  {
    InitInv(ws[0]);
    RunInv(ws, steps, j);
  }

  // ---------- drained before replaced ----------

  /** The record a pass works on: the saved one, or the one it starts. */
  function Working(w: World, now: int): Restart {
    if w.api.saved.Some? then w.api.saved.value else Start(w.replicas, now)
  }

  /** A pass finished excluding the pod it found at ordinal `i` at time `t`: every
      running proxy accepted the call for that pod's address, or the calls had
      failed for two minutes. */
  predicate ExcludedAt(w: World, s: Step, i: int, t: int) {
    && s.Coordinate? && s.env.now == t
    && Working(w, t).phase == Excluding && Working(w, t).ordinal == i
    && s.env.pods(i).Found? && s.env.pods(i).pod.ip.Some?
    && (SweepAll(Exclude, w.api.proxies, s.env.pods(i).pod.ip.value, s.env).1 || t - Working(w, t).startedAt >= 120)
  }

  /** A pass saw the drain wait of ordinal `i` elapse: the time configured, or ten
      seconds when none is. */
  predicate DrainedAt(w: World, s: Step, i: int) {
    && s.Coordinate? && w.api.saved.Some?
    && w.api.saved.value.phase == Draining && w.api.saved.value.ordinal == i
    && s.env.now - w.api.saved.value.startedAt >= if s.env.drainWaitSecs > 0 then s.env.drainWaitSecs else 10
  }

  lemma DrainingIsBegunByExcluding(w: World, s: Step)
    requires Inv(w) && Enabled(w, s) && Apply(w, s).api.saved != w.api.saved
    requires Apply(w, s).api.saved.Some? && Apply(w, s).api.saved.value.phase == Draining
    ensures ExcludedAt(w, s, Apply(w, s).api.saved.value.ordinal, Apply(w, s).api.saved.value.startedAt)
  {
    OnlyPassesMoveTheRecord(w, s);
  }

  lemma {:induction false} DrainingHasCause(ws: seq<World>, steps: seq<Step>, r: nat)
    requires IsRun(ws, steps) && Init(ws[0]) && r < |ws|
    requires ws[r].api.saved.Some? && ws[r].api.saved.value.phase == Draining
    ensures var st := ws[r].api.saved.value;
      exists e :: 0 <= e < r && ExcludedAt(ws[e], steps[e], st.ordinal, st.startedAt)
  {
    InitInv(ws[0]);
    assert ws[0].api.saved.None?;
    hide Apply, Enabled, Inv, Init, ExcludedAt;
    assert ws[r - 1 + 1] == ws[r];
    if ws[r - 1].api.saved == ws[r].api.saved {
      DrainingHasCause(ws, steps, r - 1);
    } else {
      RunInv(ws, steps, r - 1);
      DrainingIsBegunByExcluding(ws[r - 1], steps[r - 1]);
    }
  }

  lemma {:induction false} DrainedHasCause(ws: seq<World>, steps: seq<Step>, r: nat, i: nat)
    requires IsRun(ws, steps) && i !in ws[0].hist.drained && r < |ws| && i in ws[r].hist.drained
    ensures exists d :: 0 <= d < r && DrainedAt(ws[d], steps[d], i)
  {
    if i in ws[r - 1].hist.drained {
      DrainedHasCause(ws, steps, r - 1, i);
    } else {
      assert DrainedAt(ws[r - 1], steps[r - 1], i);
    }
  }

  /** From a safe world on, no pod is replaced before a pass has seen the drain
      wait of its ordinal elapse, unless that was so to begin with. */
  lemma ReplacedIsDrained(ws: seq<World>, steps: seq<Step>, r: nat)
    requires IsRun(ws, steps) && Safe(ws[0]) && r < |steps| && steps[r].Replace? && steps[r].i !in ws[0].hist.drained
    ensures exists d :: 0 <= d < r && DrainedAt(ws[d], steps[d], steps[r].i)
  {
    RunIsSafe(ws, steps, r);
    DrainedHasCause(ws, steps, r, steps[r].i);
  }

  /** No pod is replaced before a pass has excluded the pod of that ordinal from
      every running proxy, or failed to for the whole timeout, and a later pass
      has then seen a full drain wait, even when writes are lost. */
  lemma ReplacedOnlyAfterDrain(ws: seq<World>, steps: seq<Step>, r: nat)
    requires IsRun(ws, steps) && Init(ws[0]) && r < |steps| && steps[r].Replace?
    ensures exists e, d ::
              && 0 <= e < d < r
              && DrainedAt(ws[d], steps[d], steps[r].i)
              && ExcludedAt(ws[e], steps[e], steps[r].i, ws[d].api.saved.value.startedAt)
  {
    InitInv(ws[0]);
    ReplacedIsDrained(ws, steps, r);
    var d :| 0 <= d < r && DrainedAt(ws[d], steps[d], steps[r].i);
    DrainingHasCause(ws, steps, d);
  }

  // ---------- order ----------

  /** From a recorded restart on, the record only moves down, and once it is
      gone the update is complete. */
  ghost predicate NotAbove(w: World, i: int) {
    match w.api.saved
    case None => Done(w.report)
    case Some(st) => st.ordinal <= i
  }

  lemma StepGoesDown(w: World, s: Step, i: int)
    requires Inv(w) && Enabled(w, s) && Steady(s) && NotAbove(w, i)
    ensures NotAbove(Apply(w, s), i)
  {
    if Apply(w, s).api.saved != w.api.saved {
      OnlyPassesMoveTheRecord(w, s);
      PassEdge(w, s.env);
    }
  }

  lemma {:induction false} OrdinalsFall(ws: seq<World>, steps: seq<Step>, a: nat, b: nat)
    requires IsRun(ws, steps) && Inv(ws[0]) && a <= b < |ws| && ws[a].api.saved.Some?
    ensures NotAbove(ws[b], ws[a].api.saved.value.ordinal)
    decreases b
  {
    if a < b {
      OrdinalsFall(ws, steps, a, b - 1);
      RunInv(ws, steps, b - 1);
      StepGoesDown(ws[b - 1], steps[b - 1], ws[a].api.saved.value.ordinal);
    }
  }

  lemma ReplacedIsCurrent(ws: seq<World>, steps: seq<Step>, a: nat)
    requires IsRun(ws, steps) && Inv(ws[0]) && a < |steps| && steps[a].Replace?
    ensures ws[a].api.saved.Some? && ws[a].api.saved.value.ordinal == steps[a].i && !Done(ws[a].report)
  {
    RunInv(ws, steps, a);
    assert Replaceable(ws[a], steps[a].i);
  }

  /** Over every run, lost writes included, no pod is replaced after one with a
      lower ordinal. */
  lemma ReplacedInOrder(ws: seq<World>, steps: seq<Step>, a: nat, b: nat)
    requires IsRun(ws, steps) && Init(ws[0]) && a < b < |steps| && steps[a].Replace? && steps[b].Replace?
    ensures steps[a].i >= steps[b].i
  {
    InitInv(ws[0]);
    ReplacedIsCurrent(ws, steps, a);
    ReplacedIsCurrent(ws, steps, b);
    OrdinalsFall(ws, steps, a, b);
  }

  /** A pass looked ordinal `i` up and found it back: on the update revision, Ready,
      not on its way out, with an IP. */
  predicate ConfirmedAt(w: World, s: Step, i: nat) {
    && s.Coordinate? && Present(w, i) && s.env.pods(i) == Found(w.slots[i].value)
    && w.slots[i].value.revision == w.report.update
    && w.slots[i].value.ready && !w.slots[i].value.terminating && w.slots[i].value.ip.Some?
  }

  lemma MovingOnConfirms(w: World, s: Step)
    requires Inv(w) && Enabled(w, s) && w.api.saved.Some? && Apply(w, s).api.saved.Some?
    requires Apply(w, s).api.saved.value.ordinal != w.api.saved.value.ordinal
    ensures ConfirmedAt(w, s, w.api.saved.value.ordinal)
  {
    OnlyPassesMoveTheRecord(w, s);
    PassEdge(w, s.env);
    var k := w.api.saved.value.ordinal;
    assert s.env.pods(k) == LookupFailed || s.env.pods(k) == Observed(w, k);
  }

  lemma RecordsStayGone(w: World, s: Step)
    requires Enabled(w, s) && Steady(s)
    ensures w.api.saved.None? && Done(w.report) ==> Apply(w, s).api.saved.None? && Done(Apply(w, s).report)
    ensures Done(w.report) ==> Done(Apply(w, s).report)
  {
  }

  lemma {:induction false} LowerMeansConfirmed(ws: seq<World>, steps: seq<Step>, a: nat, b: nat, i: nat)
    requires IsRun(ws, steps) && Inv(ws[0]) && a <= b < |ws| && ws[a].api.saved.Some? && ws[b].api.saved.Some?
    requires !Done(ws[b].report) && ws[b].api.saved.value.ordinal < i == ws[a].api.saved.value.ordinal
    ensures exists c :: a <= c < b && ConfirmedAt(ws[c], steps[c], i)
    decreases b
  {
    hide Apply, Enabled, Inv, ConfirmedAt;
    var w, s := ws[b - 1], steps[b - 1];
    assert ws[b - 1 + 1] == ws[b];
    RunInv(ws, steps, b - 1);
    OrdinalsFall(ws, steps, a, b - 1);
    RecordsStayGone(w, s);
    if w.api.saved.Some? && w.api.saved.value.ordinal < i {
      LowerMeansConfirmed(ws, steps, a, b - 1, i);
    } else if w.api.saved.Some? {
      MovingOnConfirms(w, s);
    }
  }

  /** Over every run, lost writes included: before a lower pod is replaced, a
      pass has seen the one replaced before it back. */
  lemma ReplacementsDoNotOverlap(ws: seq<World>, steps: seq<Step>, a: nat, b: nat)
    requires IsRun(ws, steps) && Init(ws[0]) && a < b < |steps|
    requires steps[a].Replace? && steps[b].Replace? && steps[a].i != steps[b].i
    ensures exists c :: a < c < b && ConfirmedAt(ws[c], steps[c], steps[a].i)
  {
    InitInv(ws[0]);
    ReplacedIsCurrent(ws, steps, a);
    ReplacedIsCurrent(ws, steps, b);
    OrdinalsFall(ws, steps, a, b);
    LowerMeansConfirmed(ws, steps, a, b, steps[a].i);
    var c :| a <= c < b && ConfirmedAt(ws[c], steps[c], steps[a].i);
    assert c != a;
  }
}
