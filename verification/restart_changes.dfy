/** What changing the template or the replica count does to a restart on record. */
module RestartChanges {
  import opened Common
  import opened RestartState
  import opened RestartWorld
  import opened RestartSafety
  import opened RestartProgress
  import opened RestartExclusion
  import opened RestartCommands
  import opened RestartLostWrites

  // ---------- changing the template ----------

  ghost predicate AllRunning(w: World) {
    forall i: nat :: i < w.replicas ==> Present(w, i) && !w.slots[i].value.terminating
  }

  /** No ordinal has been released yet: nothing is recorded, or the restart is
      still ahead of releasing the top one. */
  predicate NothingReleased(w: World) {
    w.api.saved.Some? ==> w.api.saved.value.phase in {Excluding, Draining} && w.api.saved.value.ordinal == w.replicas - 1
  }

  /** Or just the top one, whose pod runs the new template already. */
  predicate StillPinned(w: World, rep: Report) {
    || NothingReleased(w)
    || (w.api.saved.Some? && w.api.saved.value.ordinal == w.replicas - 1
        && w.replicas >= 1 && Present(w, w.replicas - 1) && w.slots[w.replicas - 1].value.revision == rep.update)
  }

  /** Changing the template of a pool of running pods, to a new one or back to an
      old one, leaves some pod free to be replaced at once exactly when it is not
      still pinned. */
  lemma TemplateChangeIsPinnedExactly(w: World, rep: Report)
    requires Safe(w) && AllRunning(w) && Enabled(w, SetTemplate(rep)) && rep.update != w.report.update
    ensures (forall i: nat :: !Replaceable(Apply(w, SetTemplate(rep)), i)) <==> StillPinned(w, rep)
  {
    var w' := Apply(w, SetTemplate(rep));
    assert Present(w, w.replicas - 1);
    if !StillPinned(w, rep) {
      assert Replaceable(w', w.replicas - 1);
    }
  }

  lemma PinnedChangeIsSafe(w: World, rep: Report)
    requires Safe(w) && AllRunning(w) && Enabled(w, SetTemplate(rep)) && rep.update != w.report.update
    requires StillPinned(w, rep)
    ensures Safe(Apply(w, SetTemplate(rep)))
  {
    TemplateChangeIsPinnedExactly(w, rep);
  }

  /** Every run from world `w` on replaces only pods whose drain wait a pass has
      seen elapse since. */
  ghost predicate OnlyDrainedFrom(w: World) {
    forall ws: seq<World>, steps: seq<Step>, r: nat ::
      IsRun(ws, steps) && ws[0] == w && r < |steps| && steps[r].Replace? ==>
        exists d :: 0 <= d < r && DrainedAt(ws[d], steps[d], steps[r].i)
  }

  /** After a template change no run ever replaces an undrained pod exactly when
      the change left every pod pinned. */
  lemma TemplateChangeKeepsThePromiseExactly(w: World, rep: Report)
    requires Safe(w) && AllRunning(w) && Enabled(w, SetTemplate(rep)) && rep.update != w.report.update
    ensures OnlyDrainedFrom(Apply(w, SetTemplate(rep))) <==> StillPinned(w, rep)
  {
    var w' := Apply(w, SetTemplate(rep));
    TemplateChangeIsPinnedExactly(w, rep);
    assert w'.hist.drained == {};
    if StillPinned(w, rep) {
      PinnedChangeIsSafe(w, rep);
      forall ws: seq<World>, steps: seq<Step>, r: nat | IsRun(ws, steps) && ws[0] == w' && r < |steps| && steps[r].Replace?
        ensures exists d :: 0 <= d < r && DrainedAt(ws[d], steps[d], steps[r].i)
      {
        ReplacedIsDrained(ws, steps, r);
      }
    } else {
      var i: nat :| Replaceable(w', i);
      ReplacedAtOnce(w', i);
    }
  }

  lemma ReplacedAtOnce(w: World, i: nat)
    requires Replaceable(w, i)
    ensures !OnlyDrainedFrom(w)
  {
    var ws, steps := [w, Apply(w, Replace(i))], [Replace(i)];
    assert IsRun(ws, steps) && ws[0] == w && 0 < |steps| && steps[0].Replace?;
  }

  /** With a new template the whole invariant holds of the new rollout. */
  lemma PinnedChangeKeepsTheInvariant(w: World, rep: Report)
    requires Inv(w) && AllRunning(w) && Enabled(w, SetTemplate(rep)) && rep.update != w.report.update
    requires StillPinned(w, rep) && !Done(rep) && !Complete(rep, w.replicas)
    ensures Inv(Apply(w, SetTemplate(rep)))
  {
    PinnedChangeIsSafe(w, rep);
  }

  /** A pool whose top pod is missing as the rollout begins. */
  function TopMissing(n: nat): World
    requires n >= 1
  {
    Pool(n).(slots := Pool(n).slots[n - 1 := None])
  }

  /** Its top ordinal is released at once and comes back on the update revision. */
  lemma MissingPodComesBack(n: nat) returns (ws: seq<World>, steps: seq<Step>)
    requires n >= 1
    ensures IsHistory(ws, steps) && Init(ws[0]) && ws[0].replicas == n && |steps| == 3
    ensures forall j :: 0 <= j <= 3 ==> ws[j].api.saved.Some? ==> ws[j].api.saved.value.phase == WaitingReady
    ensures var v := ws[3];
      && v.api.saved.Some? && v.api.saved.value.ordinal == n - 1 && v.replicas == n && v.report.current == "old"
      && Present(v, n - 1) && v.slots[n - 1].value.revision == "new" && !v.slots[n - 1].value.terminating
  {
    var w := TopMissing(n);
    assert !Present(w, n - 1);
    var w1 := Apply(w, Sync);
    var w2 := Apply(w1, Coordinate(Quiet(w1)));
    ws := [w, w1, w2, Apply(w2, Recreate(n - 1))];
    steps := [Sync, Coordinate(Quiet(w1)), Recreate(n - 1)];
  }

  lemma ChangeFreesReleasedPod(w: World, k: nat, rep: Report)
    requires w.api.saved.Some? && w.api.saved.value.phase == WaitingReady && w.api.saved.value.ordinal == k < w.replicas
    requires Present(w, k) && !w.slots[k].value.terminating && w.slots[k].value.revision != rep.update
    requires rep.update != "" && rep.current == w.report.current
    ensures Enabled(w, SetTemplate(rep)) && Enabled(Apply(w, SetTemplate(rep)), Replace(k))
  {
  }

  /** Every pool has a history in which a template change makes the StatefulSet
      controller replace a running pod that no pass has ever drained. */
  lemma TemplateChangeReplacesUndrained(n: nat) returns (ws: seq<World>, steps: seq<Step>)
    requires n >= 1
    ensures IsHistory(ws, steps) && Init(ws[0]) && ws[0].replicas == n
    ensures |steps| == 5 && steps[3].SetTemplate? && steps[4] == Replace(n - 1)
    ensures forall j, i :: 0 <= j < 5 ==> !DrainedAt(ws[j], steps[j], i)
  {
    var vs, first := MissingPodComesBack(n);
    var rep := Report(0, 0, 0, "old", "newer");
    assert |"newer"| != |"new"|;
    ChangeFreesReleasedPod(vs[3], n - 1, rep);
    hide Apply, Enabled, Init, Present;
    var changed := Apply(vs[3], SetTemplate(rep));
    ws := vs + [changed, Apply(changed, Replace(n - 1))];
    steps := first + [SetTemplate(rep), Replace(n - 1)];
  }

  // ---------- lowering replicas ----------

  lemma LoweringKeepsTheInvariant(w: World, m: nat, rep: Report)
    requires Inv(w) && Enabled(w, SetReplicas(m, rep)) && m <= w.replicas
    requires w.api.saved.Some? ==> w.api.saved.value.ordinal < m
    ensures Inv(Apply(w, SetReplicas(m, rep)))
  {
    var w' := Apply(w, SetReplicas(m, rep));
    SamePods(w, w');
    assert forall i: nat :: Replaceable(w', i) ==> Replaceable(w, i);
  }

  /** A restart whose ordinal is below the new count still ends. */
  lemma LoweredRestartEnds(w: World, m: nat, rep: Report, ws: seq<World>, steps: seq<Step>, b: nat)
    requires Inv(w) && Enabled(w, SetReplicas(m, rep)) && m <= w.replicas
    requires w.api.saved.Some? && w.api.saved.value.ordinal < m
    requires IsRun(ws, steps) && ws[0] == Apply(w, SetReplicas(m, rep)) && b <= |steps|
    requires DuePasses(ws, steps, 0, b) >= Measure(w.api.saved.value)
    ensures exists j :: 0 <= j <= b && (ws[j].api.saved.None? || ws[j].api.saved.value.phase == Completed)
  {
    LoweringKeepsTheInvariant(w, m, rep);
    RestartTerminates(ws, steps, 0, b);
  }

  /** The restart works on an ordinal the StatefulSet no longer has, and its pod
      is gone. */
  predicate Stranded(w: World, k: nat) {
    && w.api.saved.Some? && w.api.saved.value.phase in {Excluding, Draining, WaitingReady}
    && w.api.saved.value.ordinal == k && w.replicas <= k && !Present(w, k)
  }

  /** The one way out: a restart that confirmed nothing is cleared while no update
      is pending. */
  predicate ClearsUnbegun(w: World, s: Step) {
    s.Coordinate? && NothingToDo(w.api.saved, w.report) && s.env.saveOk
  }

  /** The record is gone, or about a lower ordinal. */
  predicate Past(w: World, k: nat) {
    w.replicas <= k && (w.api.saved.Some? ==> w.api.saved.value.ordinal < k)
  }

  lemma StrandedStep(w: World, s: Step, k: nat)
    requires Stranded(w, k) && Enabled(w, s) && Apply(w, s).replicas <= k
    ensures ClearsUnbegun(w, s) ==> Past(Apply(w, s), k)
    ensures !ClearsUnbegun(w, s) ==> Stranded(Apply(w, s), k)
    ensures w.api.saved.value.phase == WaitingReady ==> Apply(w, s).api.saved == w.api.saved
  {
    if s.Coordinate? {
      assert s.env.pods(k) == LookupFailed || s.env.pods(k) == Observed(w, k);
    }
  }

  lemma PastStep(w: World, s: Step, k: nat)
    requires Past(w, k) && Enabled(w, s) && 1 <= w.replicas && Apply(w, s).replicas <= k
    ensures Past(Apply(w, s), k) && 1 <= Apply(w, s).replicas
  {
  }

  /** Otherwise, as long as nobody raises the count above its ordinal, it stays at
      that ordinal exactly until it is cleared unbegun; then it is gone for good. */
  lemma {:induction false} StrandedUntilClearedExactly(ws: seq<World>, steps: seq<Step>, a: nat, b: nat, k: nat)
    requires IsHistory(ws, steps) && a <= b < |ws| && Stranded(ws[a], k) && 1 <= ws[a].replicas
    requires forall j :: a <= j <= b ==> ws[j].replicas <= k
    ensures if exists j :: a <= j < b && Stranded(ws[j], k) && ClearsUnbegun(ws[j], steps[j])
            then Past(ws[b], k) else Stranded(ws[b], k)
    ensures 1 <= ws[b].replicas
    decreases b
  {
    hide Apply, Enabled, Stranded, Past, ClearsUnbegun;
    if a < b {
      StrandedUntilClearedExactly(ws, steps, a, b - 1, k);
      assert ws[b - 1 + 1] == ws[b];
      ReplicasStayPositive(ws[b - 1], steps[b - 1]);
      if exists j :: a <= j < b - 1 && Stranded(ws[j], k) && ClearsUnbegun(ws[j], steps[j]) {
        PastStep(ws[b - 1], steps[b - 1], k);
      } else {
        StrandedStep(ws[b - 1], steps[b - 1], k);
      }
    }
  }

  lemma ReplicasStayPositive(w: World, s: Step)
    requires Enabled(w, s) && 1 <= w.replicas
    ensures 1 <= Apply(w, s).replicas
  {
  }

  /** Once it waits for the pod there is no way out, and the record does not change. */
  lemma {:induction false} StrandedWaitsForever(ws: seq<World>, steps: seq<Step>, a: nat, b: nat, k: nat)
    requires IsHistory(ws, steps) && a <= b < |ws| && Stranded(ws[a], k) && ws[a].api.saved.value.phase == WaitingReady
    requires forall j :: a <= j <= b ==> ws[j].replicas <= k
    ensures Stranded(ws[b], k) && ws[b].api.saved == ws[a].api.saved
    decreases b
  {
    hide Apply, Enabled;
    if a < b {
      StrandedWaitsForever(ws, steps, a, b - 1, k);
      assert ws[b - 1 + 1] == ws[b];
      StrandedStep(ws[b - 1], steps[b - 1], k);
    }
  }

  lemma HistoriesJoin(vs: seq<World>, first: seq<Step>, us: seq<World>, second: seq<Step>)
    requires IsHistory(vs, first) && IsHistory(us, second) && vs[|first|] == us[0]
    ensures IsHistory(vs + us[1..], first + second)
  {
    var ws, steps := vs + us[1..], first + second;
    hide Enabled, Apply;
    forall j | 0 <= j < |steps|
      ensures Enabled(ws[j], steps[j]) && ws[j + 1] == Apply(ws[j], steps[j])
    {
      if j < |first| {
        assert ws[j] == vs[j] && ws[j + 1] == vs[j + 1] && steps[j] == first[j];
      } else {
        var m := j - |first|;
        assert ws[j] == us[m] && ws[j + 1] == us[m + 1] && steps[j] == second[m];
      }
    }
  }

  lemma StrandingSteps(w: World, k: nat) returns (us: seq<World>, second: seq<Step>)
    requires Inv(w) && WaitIsOver(w, k) && k == w.replicas - 1 >= 1
    ensures IsHistory(us, second) && us[0] == w && |second| == 3 && Stranded(us[3], k)
    ensures us[3].api.saved.value.phase == WaitingReady
  {
    var w1 := Apply(w, Coordinate(Quiet(w)));
    var lower := SetReplicas(k, w.report.(replicas := k + 1, ready := k + 1));
    var w2 := Apply(w1, lower);
    us := [w, w1, w2, Apply(w2, Vanish(k))];
    second := [Coordinate(Quiet(w)), lower, Vanish(k)];
  }

  /** Every pool of two or more has a history that strands a restart. */
  lemma StrandingHappens(n: nat) returns (ws: seq<World>, steps: seq<Step>)
    requires n >= 2
    ensures IsHistory(ws, steps) && Init(ws[0]) && ws[0].replicas == n
    ensures |steps| == 7 && Stranded(ws[7], n - 1) && ws[7].api.saved.value.phase == WaitingReady
  {
    hide Apply, Enabled, Inv, Init, WaitIsOver, Stranded;
    var vs, first := TopIsDrained(n);
    InitInv(vs[0]);
    RunInv(vs, first, 4);
    var us, second := StrandingSteps(vs[4], n - 1);
    HistoriesJoin(vs, first, us, second);
    ws, steps := vs + us[1..], first + second;
  }

  /** The first pass cannot look the top pod up; then the count is lowered and the
      pod goes. */
  lemma StrandedUnbegun(n: nat) returns (ws: seq<World>, steps: seq<Step>)
    requires n >= 2
    ensures IsHistory(ws, steps) && Init(ws[0]) && ws[0].replicas == n && |steps| == 4
    ensures Stranded(ws[4], n - 1) && ws[4].replicas == n - 1 && ws[4].api.saved == Some(Start(n, 0)) && ws[4].report.current == "old"
  {
    var w := Pool(n);
    PoolBegins(n);
    BlindStart(n);
    var blind := Coordinate(Quiet(w).(pods := (i: int) => LookupFailed));
    hide Init, Pool, RestartPass;
    var w2 := Apply(w, blind);
    var lower := SetReplicas(n - 1, w2.report.(replicas := n));
    var w3 := Apply(w2, lower);
    ws := [w, w, w2, w3, Apply(w3, Vanish(n - 1))];
    steps := [Sync, blind, lower, Vanish(n - 1)];
  }

  lemma BlindStart(n: nat)
    requires n >= 2
    ensures var w, blind := Pool(n), Coordinate(Quiet(Pool(n)).(pods := (i: int) => LookupFailed));
      && Enabled(w, blind)
      && var v := Apply(w, blind);
        && v.api.saved == Some(Start(n, 0)) && v.n == v.replicas == |v.slots| == n && Present(v, n - 1)
        && v.report == Report(0, 0, 0, "old", "new")
  {
  }

  lemma RollBackClears(w: World, k: nat) returns (us: seq<World>, second: seq<Step>)
    requires Stranded(w, k) && w.api.saved.value.phase == Excluding && !w.api.saved.value.confirmed && w.report.current == "old"
    ensures IsHistory(us, second) && us[0] == w && |second| == 2
    ensures us[2].api.saved.None? && us[2].replicas == w.replicas
  {
    var back := SetTemplate(Report(0, 0, 0, "old", "old"));
    var w1 := Apply(w, back);
    us := [w, w1, Apply(w1, Coordinate(Quiet(w1)))];
    second := [back, Coordinate(Quiet(w1))];
  }

  /** And every pool of two or more has a history in which a stranded restart is
      cleared, its ordinal still above the count. */
  lemma StrandedCanBeCleared(n: nat) returns (ws: seq<World>, steps: seq<Step>)
    requires n >= 2
    ensures IsHistory(ws, steps) && Init(ws[0]) && ws[0].replicas == n && |steps| == 6
    ensures Stranded(ws[4], n - 1) && ws[6].api.saved.None? && ws[6].replicas == n - 1
  {
    hide Apply, Enabled, Init, Stranded;
    var vs, first := StrandedUnbegun(n);
    var us, second := RollBackClears(vs[4], n - 1);
    HistoriesJoin(vs, first, us, second);
    ws, steps := vs + us[1..], first + second;
  }

  // ---------- a rolled-back template ----------

  lemma ClearingGivesNoOrders(w: World, s: Step)
    requires Enabled(w, s) && w.api.saved.Some? && Apply(w, s).api.saved.None?
    ensures s.Coordinate? && Orders(w, s.env).None? && Apply(w, s).slots == w.slots
  {
  }

  /** Whenever a record is dropped, the live pod it was about is skipped exactly
      by the proxies, still running as they were, that had carried out an exclude
      of its address and no include since. */
  lemma DroppedPodIsSkippedExactly(ws: seq<World>, steps: seq<Step>, r: nat, i: nat)
    requires IsHistory(ws, steps) && Init(ws[0]) && r < |steps|
    requires ws[r].api.saved.Some? && ws[r].api.saved.value.ordinal == i && ws[r + 1].api.saved.None?
    requires Present(ws[r + 1], i) && ws[r + 1].slots[i].value.ip.Some?
    ensures var ip := ws[r + 1].slots[i].value.ip.value;
      LiveExcluded(ws[r + 1], i) <==>
        exists p :: p in ws[r + 1].api.proxies && LastTold(ws, steps, r, p.pid, ip)
  {
    var ip := ws[r + 1].slots[i].value.ip.value;
    ClearingGivesNoOrders(ws[r], steps[r]);
    forall p | p in ws[r + 1].api.proxies
      ensures ip in p.excluded <==> LastTold(ws, steps, r, p.pid, ip)
    {
      var k: nat :| k < |ws[r + 1].api.proxies| && ws[r + 1].api.proxies[k] == p;
      ExclusionsAreWhatWasTold(ws, steps, r + 1, k, ip);
      LastToldStep(ws, steps, r + 1, p.pid, ip);
    }
  }

  /** And a rollback does drop such a record: of two proxies the second refuses
      the exclude, the template is rolled back, the record is cleared, and the
      first proxy goes on skipping the live pod. */
  lemma RollbackLeavesExclusion() returns (ws: seq<World>, steps: seq<Step>)
    ensures IsHistory(ws, steps) && Init(ws[0]) && |steps| == 4
    ensures steps[2].SetTemplate? && ws[4].api.saved.None? && LiveExcluded(ws[4], 0)
  {
    hide Apply, Enabled, Init, LiveExcluded, Present;
    var vs, first := PartlyExcluded();
    var us, second := RollBack(vs[2]);
    HistoriesJoin(vs, first, us, second);
    ws, steps := vs + us[1..], first + second;
  }

  lemma PartlyExcluded() returns (ws: seq<World>, steps: seq<Step>)
    ensures IsHistory(ws, steps) && Init(ws[0]) && |steps| == 2
    ensures var w := ws[2];
      && w.api.saved == Some(Start(1, 0)) && |w.api.proxies| == 2 && 0 in w.api.proxies[0].excluded
      && w.report.current == "old" && Present(w, 0) && w.slots[0].value.ip == Some(0)
  {
    var w := Pool(1).(api := Api(None, 1, [Proxy(0, true, {}), Proxy(1, true, {})]), pids := {0, 1});
    var w1 := Apply(w, Sync);
    var refused := Quiet(w1).(answers := (q: nat) => if q == 1 then Refused else Accepted);
    PartialExclude(w1, refused);
    ws := [w, w1, Apply(w1, Coordinate(refused))];
    steps := [Sync, Coordinate(refused)];
  }

  lemma RollBack(w: World) returns (us: seq<World>, second: seq<Step>)
    requires w.api.saved.Some? && w.api.saved.value.phase == Excluding && !w.api.saved.value.confirmed
    requires |w.api.proxies| == 2 && 0 in w.api.proxies[0].excluded && w.report.current == "old"
    requires Present(w, 0) && w.slots[0].value.ip == Some(0)
    ensures |second| == 2 && second[0].SetTemplate? && IsHistory(us, second) && us[0] == w
    ensures us[2].api.saved.None? && LiveExcluded(us[2], 0)
  {
    var back := SetTemplate(Report(0, 0, 0, "old", "old"));
    var w1 := Apply(w, back);
    second := [back, Coordinate(Quiet(w1))];
    us := [w, w1, Apply(w1, Coordinate(Quiet(w1)))];
    assert 0 in us[2].api.proxies[0].excluded;
  }

  lemma PartialExclude(w: World, env: Env)
    requires w.api == Api(None, 1, [Proxy(0, true, {}), Proxy(1, true, {})]) && w.replicas == 1
    requires Rolling(w.report) && env.startOk && env.listOk && env.pods(0) == Found(Pod("old", true, false, Some(0)))
    requires w.report.update != "old" && env.answers(0) == Accepted && env.answers(1) == Refused
    ensures RestartPass(w.api, 1, w.report, env) == Api(Some(Start(1, env.now)), 1, [Proxy(0, true, {0}), Proxy(1, true, {})])
  {
    var ps := w.api.proxies;
    SweepExactly(Exclude, ps, 0, env.answers, 0);
    var (r, ok) := Sweep(Exclude, ps, 0, env.answers, 0);
    assert !Reached(Exclude, ps, env.answers, 0, 2) by {
      assert ps[1].running && !Succeeds(Exclude, env.answers(1));
    }
    assert After(Exclude, {}, 0) == {0};
    assert Reached(Exclude, ps, env.answers, 0, 0);
    assert r[0] == Proxy(0, true, {0}) && r[1] == Proxy(1, true, {});
    assert r == [Proxy(0, true, {0}), Proxy(1, true, {})];
  }
}
