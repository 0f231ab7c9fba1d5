/** What ends each phase: what a pass must have seen of the pod, the proxies and
    the clock, and what it then leaves, however its calls go. */
module RestartPhases {
  import opened Common
  import opened RestartState
  import opened RestartWorld
  import opened RestartSafety
  import opened RestartExclusion

  /** The proxies could be listed and no running one stands in the way: of an
      exclude, one that knows no such backend or skips it already does not. */
  predicate AllAnswer(cmd: Command, ps: seq<Proxy>, env: Env) {
    env.listOk && forall q: nat :: q < |ps| && ps[q].running ==>
      env.answers(q) == Accepted || (cmd == Exclude && (env.answers(q) == Conflict || env.answers(q) == NotInPool))
  }

  lemma SweepSucceedsExactly(cmd: Command, ps: seq<Proxy>, ip: IP, env: Env)
    ensures SweepAll(cmd, ps, ip, env).1 <==> AllAnswer(cmd, ps, env)
  {
    SweepExactly(cmd, ps, ip, env.answers, 0);
  }

  // ---------- begin and end ----------

  /** A restart begins exactly when an update is pending and its record can be
      saved; at the top ordinal, with the clock of that pass. */
  lemma BeginsExactly(w: World, env: Env)
    requires Inv(w) && Enabled(w, Coordinate(env)) && w.api.saved.None?
    ensures var after := Apply(w, Coordinate(env)).api.saved;
      && (after.Some? <==> w.report.update != w.report.current && env.startOk)
      && (after.Some? ==>
            after.value.ordinal == w.replicas - 1 && after.value.total == w.replicas && after.value.startedAt == w.now)
  {
  }

  /** A restart is dropped exactly when it is Completed and the StatefulSet counts
      every pod ready and updated, or when it has confirmed nothing and no update
      is pending. */
  lemma EndsExactly(w: World, env: Env)
    requires Inv(w) && Enabled(w, Coordinate(env)) && w.api.saved.Some?
    ensures var st := w.api.saved.value;
      Apply(w, Coordinate(env)).api.saved.None? <==>
        (env.saveOk
         && ((st.phase == Completed && w.report.ready == w.report.replicas == w.report.updated == w.replicas)
             || (st.phase == Excluding && w.report.update == w.report.current)))
  {
  }

  // ---------- Excluding ----------

  /** The pass looked the pod at ordinal `k` up, and there is none or it runs the
      update revision already. */
  predicate NeedsNoRestart(w: World, env: Env, k: int) {
    && env.pods(k) != LookupFailed && 0 <= k
    && (!Present(w, k) || w.slots[k].value.revision == w.report.update)
  }

  /** The pass looked the pod at ordinal `k` up, and it is outdated and has an address. */
  predicate CanBeExcluded(w: World, env: Env, k: int) {
    && env.pods(k) != LookupFailed && 0 <= k
    && Present(w, k) && w.slots[k].value.revision != w.report.update && w.slots[k].value.ip.Some?
  }

  /** With an update pending, Excluding ends in Draining exactly when an outdated
      pod with an address was looked up and every running proxy took the exclude,
      or did not for two minutes; it ends in WaitingReady exactly when there is no
      pod to restart and its release was accepted. */
  lemma LeavesExcludingExactly(w: World, env: Env)
    requires Inv(w) && Enabled(w, Coordinate(env)) && w.report.update != w.report.current
    requires w.api.saved.Some? && w.api.saved.value.phase == Excluding
    ensures var st, after := w.api.saved.value, Apply(w, Coordinate(env)).api.saved;
      var everywhere := AllAnswer(Exclude, w.api.proxies, env);
      var draining := CanBeExcluded(w, env, st.ordinal) && env.saveOk && (everywhere || w.now - st.startedAt >= 120);
      var waiting := NeedsNoRestart(w, env, st.ordinal) && env.saveOk && env.release.Applied?;
      && (draining ==> after == Some(Restart(st.ordinal, st.total, Draining, w.now, w.slots[st.ordinal].value.ip, everywhere)))
      && (waiting ==> after == Some(Restart(st.ordinal, st.total, WaitingReady, w.now, st.oldIP, false)))
      && (!draining && !waiting ==> after == w.api.saved)
  {
    var k := w.api.saved.value.ordinal;
    assert env.pods(k) == LookupFailed || env.pods(k) == Observed(w, k);
    if Present(w, k) && w.slots[k].value.ip.Some? {
      SweepSucceedsExactly(Exclude, w.api.proxies, w.slots[k].value.ip.value, env);
    }
  }

  // ---------- Draining ----------

  /** Draining ends exactly when the configured time is over, ten seconds if none
      is configured, and the release went through; the partition is lowered as
      soon as that time is over, and not before. */
  lemma LeavesDrainingExactly(w: World, env: Env)
    requires Inv(w) && Enabled(w, Coordinate(env))
    requires w.api.saved.Some? && w.api.saved.value.phase == Draining
    ensures var st, after := w.api.saved.value, Apply(w, Coordinate(env)).api;
      var over := w.now - st.startedAt >= env.drainWaitSecs && (env.drainWaitSecs <= 0 ==> w.now - st.startedAt >= 10);
      && (after.partition == st.ordinal <==> over && !env.release.Rejected?)
      && (after.partition == w.api.partition == st.ordinal + 1 <==> !over || env.release.Rejected?)
      && after.saved == (if over && env.release.Applied? && env.saveOk
                         then Some(st.(phase := WaitingReady, startedAt := w.now)) else w.api.saved)
      && after.proxies == w.api.proxies
  {
  }

  // ---------- WaitingReady ----------

  /** WaitingReady ends exactly when the pod was looked up and found on the update
      revision, Ready, not on its way out and with an address, and every running
      proxy took the include, or did not for twelve minutes.  The restart then
      moves to the next lower ordinal, or is Completed. */
  lemma LeavesWaitingReadyExactly(w: World, env: Env)
    requires Inv(w) && Enabled(w, Coordinate(env))
    requires w.api.saved.Some? && w.api.saved.value.phase == WaitingReady
    ensures var st, after := w.api.saved.value, Apply(w, Coordinate(env)).api;
      var back := env.pods(st.ordinal) != LookupFailed && Present(w, st.ordinal)
        && w.slots[st.ordinal].value.revision == w.report.update && w.slots[st.ordinal].value.ready
        && !w.slots[st.ordinal].value.terminating && w.slots[st.ordinal].value.ip.Some?;
      && (after.saved != w.api.saved <==>
            back && env.saveOk && (AllAnswer(Include, w.api.proxies, env) || w.now - st.startedAt >= 720))
      && (after.saved != w.api.saved ==>
            after.saved == Some(if st.ordinal == 0 then st.(phase := Completed, startedAt := w.now)
                                else Restart(st.ordinal - 1, st.total, Excluding, w.now, None, false)))
      && after.partition == w.api.partition
  {
    var k := w.api.saved.value.ordinal;
    assert env.pods(k) == LookupFailed || env.pods(k) == Observed(w, k);
    if Present(w, k) && w.slots[k].value.ip.Some? {
      SweepSucceedsExactly(Include, w.api.proxies, w.slots[k].value.ip.value, env);
    }
  }

  // ---------- the partition ----------

  /** The update that opens a pass pins every pod when nothing is recorded, those
      up to the recorded ordinal before its release, those below it after, and
      none once all are done. */
  lemma PinnedExactly(w: World, i: nat)
    requires Inv(w) && i < w.replicas
    ensures var saved := w.api.saved;
      i < Apply(w, Sync).api.partition <==>
        || saved.None?
        || (saved.value.phase in {Excluding, Draining} && i <= saved.value.ordinal)
        || (saved.value.phase == WaitingReady && i < saved.value.ordinal)
  {
  }

  /** Whatever the API server holds, coordinating never raises the partition. */
  lemma CoordinatingNeverRaises(api: Api, replicas: int, rep: Report, env: Env)
    ensures RestartPass(api, replicas, rep, env).partition <= api.partition
  {
  }

  // ---------- the clock of a phase ----------

  /** The pass at `e` brought the restart into the phase it is in at `r`. */
  ghost predicate Entered(ws: seq<World>, steps: seq<Step>, e: nat, r: nat)
    requires IsRun(ws, steps) && e < r < |ws|
  {
    && steps[e].Coordinate? && ws[e].api.saved != ws[r].api.saved
    && forall m :: e < m <= r ==> ws[m].api.saved == ws[r].api.saved
  }

  lemma ChangesAreStamped(w: World, s: Step)
    requires Inv(w) && Enabled(w, s) && Apply(w, s).api.saved.Some? && Apply(w, s).api.saved != w.api.saved
    ensures s.Coordinate? && Apply(w, s).api.saved.value.startedAt == w.now
    ensures Apply(w, s).api.saved.value.total == if w.api.saved.Some? then w.api.saved.value.total else w.replicas
  {
    OnlyPassesMoveTheRecord(w, s);
  }

  lemma StillEntered(ws: seq<World>, steps: seq<Step>, e: nat, r: nat)
    requires IsRun(ws, steps) && e + 1 < r < |ws| && Entered(ws, steps, e, r - 1) && ws[r].api.saved == ws[r - 1].api.saved
    ensures Entered(ws, steps, e, r)
  {
    hide Enabled, Apply;
  }

  /** Over every run: what the timeouts are measured from is the time of the pass
      that entered the phase, and the total is the pool's size. */
  lemma {:induction false} PhasesAreTimed(ws: seq<World>, steps: seq<Step>, r: nat)
    requires IsRun(ws, steps) && Init(ws[0]) && r < |ws| && ws[r].api.saved.Some?
    ensures exists e :: 0 <= e < r && Entered(ws, steps, e, r) && ws[r].api.saved.value.startedAt == ws[e].now
    ensures ws[r].api.saved.value.total == ws[0].replicas
  {
    InitInv(ws[0]);
    assert r > 0;
    RunInv(ws, steps, r - 1);
    hide Inv, Init, Enabled, Apply;
    var w, s := ws[r - 1], steps[r - 1];
    assert ws[r - 1 + 1] == ws[r];
    if w.api.saved == ws[r].api.saved {
      PhasesAreTimed(ws, steps, r - 1);
      var e :| 0 <= e < r - 1 && Entered(ws, steps, e, r - 1) && w.api.saved.value.startedAt == ws[e].now;
      StillEntered(ws, steps, e, r);
    } else {
      ChangesAreStamped(w, s);
      assert Entered(ws, steps, r - 1, r);
      if w.api.saved.Some? {
        PhasesAreTimed(ws, steps, r - 1);
      }
    }
  }

  lemma {:induction false} TimePasses(ws: seq<World>, steps: seq<Step>, a: nat, b: nat)
    requires IsRun(ws, steps) && a <= b < |ws|
    ensures ws[a].now <= ws[b].now
    decreases b
  {
    if a < b {
      TimePasses(ws, steps, a, b - 1);
    }
  }

  lemma PassesKnowTheTime(w: World, s: Step)
    requires Enabled(w, s) && s.Coordinate?
    ensures s.env.now == w.now
  {
  }

  /** So from the exclude of an ordinal to its replacement the drain wait, ten
      seconds at least if none is configured, really passes. */
  lemma DrainWaitPasses(ws: seq<World>, steps: seq<Step>, r: nat)
    requires IsRun(ws, steps) && Init(ws[0]) && r < |steps| && steps[r].Replace?
    ensures exists e, d ::
              && 0 <= e < d < r && steps[d].Coordinate?
              && ExcludedAt(ws[e], steps[e], steps[r].i, ws[e].now)
              && ws[r].now - ws[e].now >= if steps[d].env.drainWaitSecs > 0 then steps[d].env.drainWaitSecs else 10
  {
    ReplacedOnlyAfterDrain(ws, steps, r);
    hide Apply, Init;
    var e, d :| 0 <= e < d < r && DrainedAt(ws[d], steps[d], steps[r].i)
                && ExcludedAt(ws[e], steps[e], steps[r].i, ws[d].api.saved.value.startedAt);
    PassesKnowTheTime(ws[e], steps[e]);
    PassesKnowTheTime(ws[d], steps[d]);
    hide Enabled;
    TimePasses(ws, steps, d, r);
  }
}
