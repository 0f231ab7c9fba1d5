/** What one lost status write can do, and exactly when. */
module RestartLostWrites {
  import opened Common
  import opened RestartState
  import opened RestartWorld
  import opened RestartSafety

  // ---------- unrecorded releases ----------

  /** The pass gets as far as releasing the ordinal it works on. */
  predicate ReachesRelease(w: World, env: Env) {
    var st := Working(w, env.now);
    && (w.api.saved.None? ==> Rolling(w.report) && env.startOk)
    && !NothingToDo(w.api.saved, w.report)
    && match st.phase
       case Draining => env.now - st.startedAt >= DrainWait(env)
       case Excluding => (
         match env.pods(st.ordinal)
         case LookupFailed => false
         case NotFound => true
         case Found(pod) => pod.revision == w.report.update)
       case _ => false
  }

  /** The pass lowers the partition for ordinal `k`, and that it did is not recorded. */
  predicate Tears(w: World, s: Step, k: int) {
    && s.Coordinate? && ReachesRelease(w, s.env) && Working(w, s.env.now).ordinal == k
    && (s.env.release.AppliedUnseen? || (s.env.release.Applied? && !s.env.saveOk))
  }

  /** Record and partition are apart at ordinal `k`. */
  predicate TornAt(w: World, k: int) {
    Torn(w) && w.api.saved.value.ordinal == k
  }

  /** A pass tears record and partition apart exactly when it releases and the
      release is not recorded; a pass that starts the restart included. */
  lemma TornExactlyWhenReleaseIsUnrecorded(w: World, env: Env, k: int)
    requires Inv(w) && Enabled(w, Coordinate(env))
    ensures TornAt(Apply(w, Coordinate(env)), k) <==> Tears(w, Coordinate(env), k)
  {
    var st := Working(w, env.now);
    assert env.pods(st.ordinal) == LookupFailed || env.pods(st.ordinal) == Observed(w, st.ordinal);
  }

  /** A release of ordinal `k` went unrecorded and no StatefulSet update has followed. */
  ghost predicate TornSince(ws: seq<World>, steps: seq<Step>, j: nat, k: int)
    requires j <= |steps| < |ws|
  {
    exists c :: 0 <= c < j && Tears(ws[c], steps[c], k) && forall m :: c < m < j ==> !steps[m].Sync?
  }

  lemma TornSinceStep(ws: seq<World>, steps: seq<Step>, j: nat, k: int)
    requires 0 < j <= |steps| < |ws|
    ensures TornSince(ws, steps, j, k) <==>
      Tears(ws[j - 1], steps[j - 1], k) || (TornSince(ws, steps, j - 1, k) && !steps[j - 1].Sync?)
  {
    hide Tears;
    if TornSince(ws, steps, j - 1, k) && !steps[j - 1].Sync? {
      var c :| 0 <= c < j - 1 && Tears(ws[c], steps[c], k) && forall m :: c < m < j - 1 ==> !steps[m].Sync?;
      assert forall m :: c < m < j ==> !steps[m].Sync?;
    }
  }

  lemma TornStep(w: World, s: Step, k: int)
    requires Inv(w) && Enabled(w, s) && Steady(s)
    ensures TornAt(Apply(w, s), k) <==> Tears(w, s, k) || (TornAt(w, k) && !s.Sync?)
  {
    if s.Coordinate? {
      TornExactlyWhenReleaseIsUnrecorded(w, s.env, k);
      hide RestartPass, Tears;
    }
  }

  /** Over every run: record and partition are apart at an ordinal exactly when a
      release of it went unrecorded and no StatefulSet update has followed. */
  lemma {:induction false} TornExactlySinceTearing(ws: seq<World>, steps: seq<Step>, j: nat, k: int)
    requires IsRun(ws, steps) && Init(ws[0]) && j < |ws|
    ensures TornAt(ws[j], k) <==> TornSince(ws, steps, j, k)
  {
    if j > 0 {
      InitInv(ws[0]);
      RunInv(ws, steps, j - 1);
      TornStep(ws[j - 1], steps[j - 1], k);
      TornSinceStep(ws, steps, j, k);
      hide TornAt, Tears, Inv, Apply, Enabled, TornSince;
      TornExactlySinceTearing(ws, steps, j - 1, k);
    }
  }

  /** So the update that opens a pass raises the partition of a recorded restart
      exactly when the release before it went unrecorded. */
  lemma PartitionIsRaisedExactlyAfterTearing(ws: seq<World>, steps: seq<Step>, j: nat)
    requires IsRun(ws, steps) && Init(ws[0]) && j < |steps| && steps[j].Sync? && ws[j].api.saved.Some?
    ensures ws[j + 1].api.partition > ws[j].api.partition <==> TornSince(ws, steps, j, ws[j].api.saved.value.ordinal)
  {
    TornExactlySinceTearing(ws, steps, j, ws[j].api.saved.value.ordinal);
  }

  // ---------- replaced twice ----------

  /** Pod `i` came back on the old revision because the partition was above it. */
  predicate ComesBackOld(w: World, s: Step, i: nat) {
    s == Recreate(i) && w.api.partition > i
  }

  /** Not a running outdated pod. */
  predicate Settled(w: World, i: nat) {
    !Present(w, i) || OnUpdate(w, i) || w.slots[i].value.terminating
  }

  lemma {:induction false} SettledUntilOld(ws: seq<World>, steps: seq<Step>, a: nat, b: nat, i: nat)
    requires IsRun(ws, steps) && a < b < |ws| && steps[a] == Replace(i)
    ensures Settled(ws[b], i) || exists c :: a < c < b && ComesBackOld(ws[c], steps[c], i)
    decreases b
  {
    if a + 1 < b {
      SettledUntilOld(ws, steps, a, b - 1, i);
      if Settled(ws[b - 1], i) {
        SettledStep(ws[b - 1], steps[b - 1], i);
      }
    }
  }

  lemma SettledStep(w: World, s: Step, i: nat)
    requires Enabled(w, s) && Steady(s) && Settled(w, i)
    ensures Settled(Apply(w, s), i) || ComesBackOld(w, s, i)
  {
  }

  lemma OnlySyncRaises(w: World, s: Step)
    requires Enabled(w, s) && Steady(s) && Apply(w, s).api.partition > w.api.partition
    ensures s.Sync?
  {
  }

  lemma {:induction false} RaisedBySync(ws: seq<World>, steps: seq<Step>, a: nat, c: nat, i: int)
    requires IsRun(ws, steps) && a <= c < |ws| && ws[a].api.partition <= i < ws[c].api.partition
    ensures exists s :: a <= s < c && steps[s].Sync? && ws[s].api.partition <= i < ws[s + 1].api.partition
    decreases c
  {
    if ws[c - 1].api.partition > i {
      RaisedBySync(ws, steps, a, c - 1, i);
    } else {
      OnlySyncRaises(ws[c - 1], steps[c - 1]);
      assert ws[c - 1 + 1] == ws[c];
    }
  }

  lemma {:induction false} NotDoneBefore(ws: seq<World>, steps: seq<Step>, a: nat, b: nat)
    requires IsRun(ws, steps) && a <= b < |ws| && !Done(ws[b].report)
    ensures !Done(ws[a].report)
    decreases b - a
  {
    if a < b {
      NotDoneBefore(ws, steps, a + 1, b);
      RecordsStayGone(ws[a], steps[a]);
    }
  }

  /** Over every run: a pod replaced a second time came back on the old revision
      in between, because a StatefulSet update had raised the partition, because
      a release of that ordinal had gone unrecorded. */
  lemma ReplacedTwiceOnlyAfterTearing(ws: seq<World>, steps: seq<Step>, a: nat, b: nat)
    requires IsRun(ws, steps) && Init(ws[0]) && a < b < |steps|
    requires steps[a].Replace? && steps[b].Replace? && steps[a].i == steps[b].i
    ensures exists s, c :: a < s < c < b && steps[s].Sync? && TornSince(ws, steps, s, steps[a].i) && ComesBackOld(ws[c], steps[c], steps[a].i)
  {
    var i := steps[a].i;
    InitInv(ws[0]);
    ReplacedIsCurrent(ws, steps, b);
    assert Replaceable(ws[a], i) && Replaceable(ws[b], i);
    SettledUntilOld(ws, steps, a, b, i);
    var c :| a < c < b && ComesBackOld(ws[c], steps[c], i);
    RaisedBySync(ws, steps, a, c, i);
    var s :| a <= s < c && steps[s].Sync? && ws[s].api.partition <= i < ws[s + 1].api.partition;
    RaisedMeansTorn(ws, steps, a, s, b, i);
  }

  lemma RaisedMeansTorn(ws: seq<World>, steps: seq<Step>, a: nat, s: nat, b: nat, i: nat)
    requires IsRun(ws, steps) && Init(ws[0]) && a <= s < b < |ws| && steps[s].Sync? && !Done(ws[b].report)
    requires ws[s].api.partition <= i < ws[s + 1].api.partition && i < ws[a].replicas
    ensures TornSince(ws, steps, s, i)
  {
    InitInv(ws[0]);
    RunInv(ws, steps, a);
    RunInv(ws, steps, s);
    NotDoneBefore(ws, steps, s, b);
    TornExactlySinceTearing(ws, steps, s, i);
  }

  /** A pod whose release never goes unrecorded is replaced at most once. */
  lemma ReplacedOnce(ws: seq<World>, steps: seq<Step>, a: nat, b: nat)
    requires IsRun(ws, steps) && Init(ws[0]) && a < b < |steps| && steps[a].Replace? && steps[b].Replace?
    requires forall c :: 0 <= c < b ==> !Tears(ws[c], steps[c], steps[a].i)
    ensures steps[a].i > steps[b].i
  {
    ReplacedInOrder(ws, steps, a, b);
    if steps[a].i == steps[b].i {
      ReplacedTwiceOnlyAfterTearing(ws, steps, a, b);
    }
  }

  // ---------- and it happens ----------

  /** Everything asked of the API server is accepted. */
  predicate Accepts(env: Env) {
    env.startOk && env.listOk && env.release.Applied? && env.saveOk
  }

  function Quiet(w: World): Env {
    Env(w.now, 0, Applied, true, (i: int) => Observed(w, i), true, (q: nat) => Accepted, Applied, true)
  }

  /** From every torn world in which the pod is still there to be replaced: the
      StatefulSet controller replaces it, the next pass raises the partition, the
      pod comes back old, the same pass releases it, and it is replaced again,
      with every write accepted. */
  lemma TornWorldsReplaceTwice(w: World, k: nat) returns (ws: seq<World>, steps: seq<Step>)
    requires Inv(w) && Torn(w) && Replaceable(w, k)
    ensures IsRun(ws, steps) && ws[0] == w
    ensures |steps| == 7 && steps[0] == steps[6] == Replace(k)
    ensures forall j :: 0 <= j < 7 && steps[j].Coordinate? ==> Accepts(steps[j].env)
  {
    var vs := ComesBack(w, k);
    var d := w.api.saved.value.startedAt + DEFAULT_DRAIN_WAIT - w.now;
    var waited := Apply(vs[4], Tick(if d > 0 then d else 0));
    SecondRelease(waited, k);
    hide Apply, Enabled, Inv, Torn, Replaceable;
    var released := Apply(waited, Coordinate(Quiet(waited)));
    ws := vs + [waited, released, Apply(released, Replace(k))];
    steps := [Replace(k), Vanish(k), Sync, Recreate(k), Tick(if d > 0 then d else 0), Coordinate(Quiet(waited)), Replace(k)];
  }

  lemma ComesBack(w: World, k: nat) returns (ws: seq<World>)
    requires Inv(w) && Torn(w) && Replaceable(w, k)
    ensures |ws| == 5 && ws[0] == w && IsRun(ws, [Replace(k), Vanish(k), Sync, Recreate(k)])
    ensures var v := ws[4];
      && v.api.saved == w.api.saved && v.api.saved.Some? && v.now == w.now && v.replicas == w.replicas
      && v.api.saved.value.phase == Draining && v.api.saved.value.ordinal == k < v.replicas
      && Synced(v) && Present(v, k) && !OnUpdate(v, k) && !v.slots[k].value.terminating
  {
    var w1 := Apply(w, Replace(k));
    var w2 := Apply(w1, Vanish(k));
    var w3 := Apply(w2, Sync);
    ws := [w, w1, w2, w3, Apply(w3, Recreate(k))];
  }

  lemma SecondRelease(w: World, k: nat)
    requires WaitIsOver(w, k)
    ensures Enabled(w, Coordinate(Quiet(w)))
    ensures Enabled(Apply(w, Coordinate(Quiet(w))), Replace(k))
  {
  }

  // ---------- one lost write is enough ----------

  /** `n` running, outdated pods without proxies, and a rollout about to begin. */
  function Pool(n: nat): World
    requires n >= 1
  {
    World(Api(None, n, []), n, n,
          seq(n, i requires 0 <= i => Some(Pod("old", true, false, Some(i)))), seq(n, i requires 0 <= i => Some(i)),
          Interval(0, n), {}, Report(0, 0, 0, "old", "new"), 0, History({}, None))
  }

  /** The pod at `k` is drained and still there. */
  predicate WaitIsOver(w: World, k: nat) {
    && Synced(w) && w.api.saved.Some? && w.api.saved.value.phase == Draining && w.api.saved.value.ordinal == k < w.replicas
    && w.now - w.api.saved.value.startedAt >= DEFAULT_DRAIN_WAIT
    && Present(w, k) && !OnUpdate(w, k) && !w.slots[k].value.terminating
  }

  /** The top pod is excluded, and its drain wait is over. */
  lemma TopIsDrained(n: nat) returns (ws: seq<World>, steps: seq<Step>)
    requires n >= 1
    ensures IsRun(ws, steps) && Init(ws[0]) && ws[0].replicas == n && |steps| == 4
    ensures forall j :: 0 <= j < 4 && steps[j].Coordinate? ==> Accepts(steps[j].env)
    ensures WaitIsOver(ws[4], n - 1)
  {
    var w := Pool(n);
    PoolBegins(n);
    var w2 := Apply(w, Coordinate(Quiet(w)));
    TopIsExcluded(n);
    hide Init, Pool;
    var w3 := Apply(w2, Tick(DEFAULT_DRAIN_WAIT));
    ws := [w, w, w2, w3, Apply(w3, Sync)];
    steps := [Sync, Coordinate(Quiet(w)), Tick(DEFAULT_DRAIN_WAIT), Sync];
  }

  lemma PoolBegins(n: nat)
    requires n >= 1
    ensures Init(Pool(n)) && Apply(Pool(n), Sync) == Pool(n) && Pool(n).replicas == n
  {
    assert Present(Pool(n), n - 1) && !OnUpdate(Pool(n), n - 1);
  }

  lemma TopIsExcluded(n: nat)
    requires n >= 1
    ensures var w := Pool(n);
      && Enabled(w, Coordinate(Quiet(w)))
      && var v := Apply(w, Coordinate(Quiet(w)));
        && v == w.(api := v.api) && Present(v, n - 1) && !OnUpdate(v, n - 1) && !v.slots[n - 1].value.terminating
        && v.api.saved == Some(Restart(n - 1, n, Draining, v.now, Some(n - 1), true))
  {
  }

  /** Every pool has a run in which a single write is lost, every other one
      accepted, and the top pod is replaced twice. */
  lemma LostWriteReplacesTwice(n: nat) returns (ws: seq<World>, steps: seq<Step>)
    requires n >= 1
    ensures IsRun(ws, steps) && Init(ws[0]) && ws[0].replicas == n
    ensures |steps| == 12 && steps[5] == steps[11] == Replace(n - 1)
    ensures steps[4].Coordinate? && !steps[4].env.saveOk && Accepts(steps[4].env.(saveOk := true))
    ensures forall j :: 0 <= j < 12 && j != 4 && steps[j].Coordinate? ==> Accepts(steps[j].env)
  {
    hide Apply, Enabled, Inv, Torn, Replaceable, Init, WaitIsOver;
    var vs, first := TopIsDrained(n);
    InitInv(vs[0]);
    RunInv(vs, first, 4);
    ReleaseIsLost(vs[4], n - 1);
    var lost := Coordinate(Quiet(vs[4]).(saveOk := false));
    var us, second := TornWorldsReplaceTwice(Apply(vs[4], lost), n - 1);
    RunsJoin(vs, first, lost, us, second);
    ws, steps := vs + us, first + [lost] + second;
  }

  lemma ReleaseIsLost(w: World, k: nat)
    requires Inv(w) && WaitIsOver(w, k)
    ensures var lost := Coordinate(Quiet(w).(saveOk := false));
      Enabled(w, lost) && Inv(Apply(w, lost)) && Torn(Apply(w, lost)) && Replaceable(Apply(w, lost), k)
  {
    var lost := Coordinate(Quiet(w).(saveOk := false));
    StepInv(w, lost);
  }

  lemma RunsJoin(vs: seq<World>, first: seq<Step>, s: Step, us: seq<World>, second: seq<Step>)
    requires IsRun(vs, first) && IsRun(us, second) && Steady(s)
    requires Enabled(vs[|first|], s) && us[0] == Apply(vs[|first|], s)
    ensures IsRun(vs + us, first + [s] + second)
  {
    var ws, steps := vs + us, first + [s] + second;
    hide Enabled, Apply;
    forall j | 0 <= j < |steps|
      ensures Enabled(ws[j], steps[j]) && ws[j + 1] == Apply(ws[j], steps[j]) && Steady(steps[j])
    {
      if j < |first| {
        assert ws[j] == vs[j] && ws[j + 1] == vs[j + 1] && steps[j] == first[j];
      } else if j > |first| {
        var m := j - |first| - 1;
        assert ws[j] == us[m] && ws[j + 1] == us[m + 1] && steps[j] == second[m];
      }
    }
  }
}
