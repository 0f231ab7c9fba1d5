/** The rolling restart as a transition system: operator passes interleaved
    with everything the operator does not control.  A pass is two steps, the
    StatefulSet update that opens it and the coordination that follows, so the
    StatefulSet controller can act in between.  It may replace any released pod
    that is not on the update revision, at any time; pods crash, lose and regain
    readiness; proxies come and go; users scale and change the template. */
module RestartWorld {
  import opened Common
  import opened RestartState

  /** What an observer remembers about the run.
      `drained`: ordinals whose drain wait a pass has seen elapse since the template last changed.
      `residue`: an ordinal whose restart was dropped before it was excluded everywhere. */
  datatype History = History(drained: set<nat>, residue: Option<nat>)

  datatype World = World(
    api: Api,
    n: nat,                    // pod slots
    replicas: nat,             // how many of them the StatefulSet has
    slots: seq<Option<Pod>>,
    lastIP: seq<Option<IP>>,   // the last IP each ordinal has had
    used: set<IP>,             // every IP any pod has had
    pids: set<nat>,            // every proxy process there has been
    report: Report,
    now: int,
    hist: History)

  datatype Step =
    | Tick(d: nat)
    | Sync                               // the StatefulSet update that opens a pass
    | Coordinate(env: Env)               // the rest of the pass
    | Replace(i: nat)                    // the StatefulSet controller deletes an outdated pod
    | Terminate(i: nat)                  // eviction, crash, manual delete, scale-down
    | Vanish(i: nat)
    | Recreate(i: nat)
    | AssignIP(i: nat, ip: IP)
    | SetReady(i: nat, ready: bool)
    | ProxiesChange(proxies: seq<Proxy>)
    | ReportStatus(report: Report)
    | SetReplicas(m: nat, report: Report)   // an update with another replica count
    | SetTemplate(report: Report)           // an update with another pod template

  predicate Present(w: World, i: nat) {
    i < |w.slots| && w.slots[i].Some?
  }

  predicate OnUpdate(w: World, i: nat)
    requires Present(w, i)
  {
    w.slots[i].value.revision == w.report.update
  }

  /** A pod the StatefulSet controller is free to replace now. */
  predicate Replaceable(w: World, i: nat) {
    w.api.partition <= i < w.replicas && Present(w, i) && !OnUpdate(w, i) && !w.slots[i].value.terminating
  }

  /** The update is complete: a recreated pod can only be on the update revision. */
  predicate Done(rep: Report) {
    rep.current == rep.update
  }

  ghost predicate AllUpdatedAndReady(w: World) {
    forall i: nat :: i < w.replicas ==> Present(w, i) && OnUpdate(w, i) && w.slots[i].value.ready
  }

  /** A report that counts every pod as updated and ready. */
  predicate Complete(rep: Report, replicas: nat) {
    rep.ready == replicas && rep.ready == rep.replicas && rep.updated == rep.replicas
  }

  /** Counts may be stale.  A complete report is the truth, and it is what moves
      the current revision. */
  ghost predicate Reportable(w: World, rep: Report) {
    && (rep.current == w.report.current || (rep.current == rep.update && AllUpdatedAndReady(w)))
    && (Complete(rep, w.replicas) ==> AllUpdatedAndReady(w) && Done(rep))
  }

  /** What a pass may be told about a pod: the truth, or nothing. */
  ghost predicate Honest(w: World, env: Env) {
    && env.now == w.now
    && forall i: int :: env.pods(i) == LookupFailed || env.pods(i) == Observed(w, i)
  }

  function Observed(w: World, i: int): Lookup {
    if 0 <= i < |w.slots| && w.slots[i].Some? then Found(w.slots[i].value) else NotFound
  }

  /** The partition is the one the saved record asks for. */
  predicate Synced(w: World) {
    w.api.partition == RolloutPartition(w.api.saved, w.replicas)
  }

  ghost predicate Enabled(w: World, s: Step) {
    match s
    case Tick(_) => true
    case Sync => true
    case Coordinate(env) => Honest(w, env) && Synced(w)
    case Replace(i) => Replaceable(w, i)
    case Terminate(i) => Present(w, i)
    case Vanish(i) => Present(w, i)
    case Recreate(i) => i < w.replicas && i < |w.slots| && w.slots[i].None?
    case AssignIP(i, ip) => Present(w, i) && w.slots[i].value.ip.None? && i < |w.lastIP|
    case SetReady(i, _) => Present(w, i)
    case ProxiesChange(ps) =>
      // a process keeps what it was told; a new one has been told nothing
      && (forall k :: 0 <= k < |ps| ==> ps[k] in w.api.proxies || (ps[k].excluded == {} && ps[k].pid !in w.pids))
      && (forall k, l :: 0 <= k < l < |ps| ==> ps[k].pid != ps[l].pid)
    case ReportStatus(rep) => rep.update == w.report.update && Reportable(w, rep)
    case SetReplicas(m, rep) =>
      1 <= m <= w.n && rep.update == w.report.update && rep.current == w.report.current && Reportable(w.(replicas := m), rep)
    case SetTemplate(rep) => rep.update != "" && rep.current == w.report.current
  }

  function SetSlot(w: World, i: nat, slot: Option<Pod>): World
    requires i < |w.slots|
  {
    w.(slots := w.slots[i := slot])
  }

  /** The StatefulSet update: its partition is computed afresh. */
  function Updated(w: World, replicas: nat, rep: Report): World {
    w.(api := w.api.(partition := RolloutPartition(w.api.saved, replicas)), replicas := replicas, report := rep)
  }

  function Pids(ps: seq<Proxy>): set<nat> {
    set p | p in ps :: p.pid
  }

  function Apply(w: World, s: Step): World
    requires Enabled(w, s)
  {
    match s
    case Tick(d) => w.(now := w.now + d)
    case Sync => Updated(w, w.replicas, w.report)
    case Coordinate(env) =>
      var api := RestartPass(w.api, w.replicas, w.report, env);
      w.(api := api, hist := Noted(w, env, api))
    case Replace(i) => SetSlot(w, i, Some(w.slots[i].value.(terminating := true)))
    case Terminate(i) => SetSlot(w, i, Some(w.slots[i].value.(terminating := true)))
    case Vanish(i) => SetSlot(w, i, None)
    case Recreate(i) =>
      SetSlot(w, i, Some(Pod(if i >= w.api.partition then w.report.update else w.report.current, false, false, None)))
    case AssignIP(i, ip) =>
      SetSlot(w, i, Some(w.slots[i].value.(ip := Some(ip))))
      .(lastIP := w.lastIP[i := Some(ip)], used := w.used + {ip})
    case SetReady(i, ready) => SetSlot(w, i, Some(w.slots[i].value.(ready := ready)))
    case ProxiesChange(ps) => w.(api := w.api.(proxies := ps), pids := w.pids + Pids(ps))
    case ReportStatus(rep) => w.(report := rep)
    case SetReplicas(m, rep) => Updated(w, m, rep)
    case SetTemplate(rep) => Updated(w, w.replicas, rep).(hist := w.hist.(drained := {}))
  }

  /** The observer's notes on a pass. */
  function Noted(w: World, env: Env, api: Api): History {
    var before, after := w.api.saved, api.saved;
    w.hist.(
      drained :=
        if before.Some? && before.value.phase == Draining && before.value.ordinal >= 0 &&
           env.now - before.value.startedAt >= DrainWait(env)
        then w.hist.drained + {before.value.ordinal} else w.hist.drained,
      residue :=
        if before.Some? && before.value.phase == Excluding && before.value.ordinal >= 0 && after.None?
        then Some(before.value.ordinal) else w.hist.residue)
  }

  // ---------- runs ----------

  /** Nobody scales or changes the template. */
  predicate Steady(s: Step) {
    !s.SetReplicas? && !s.SetTemplate?
  }

  /** `ws` are the worlds a history goes through, `steps` the steps between them. */
  ghost predicate IsHistory(ws: seq<World>, steps: seq<Step>) {
    && |ws| == |steps| + 1
    && forall j :: 0 <= j < |steps| ==> Enabled(ws[j], steps[j]) && ws[j + 1] == Apply(ws[j], steps[j])
  }

  /** A history with one replica count and one update revision. */
  ghost predicate IsRun(ws: seq<World>, steps: seq<Step>) {
    IsHistory(ws, steps) && forall j :: 0 <= j < |steps| ==> Steady(steps[j])
  }

  /** A rollout is about to begin: the partition pins every pod, nothing is
      recorded and nothing has happened yet. */
  ghost predicate Init(w: World) {
    && 1 <= w.replicas <= w.n
    && |w.slots| == |w.lastIP| == w.n
    && w.api.saved.None? && w.api.partition == w.replicas
    && w.report.update != ""
    && (Complete(w.report, w.replicas) ==> AllUpdatedAndReady(w) && Done(w.report))
    && (Done(w.report) ==> forall i: nat :: i < w.replicas && Present(w, i) ==> OnUpdate(w, i))
    && w.hist == History({}, None)
    && (forall k :: 0 <= k < |w.api.proxies| ==> w.api.proxies[k].excluded == {} && w.api.proxies[k].pid in w.pids)
    && (forall k, l :: 0 <= k < l < |w.api.proxies| ==> w.api.proxies[k].pid != w.api.proxies[l].pid)
    && (forall i: nat :: Present(w, i) && w.slots[i].value.ip.Some? ==> w.lastIP[i] == w.slots[i].value.ip)
    && (forall i: nat :: i < w.n && w.lastIP[i].Some? ==> w.lastIP[i].value in w.used)
    && (forall i: nat, j: nat :: i < j < w.n && w.lastIP[i].Some? ==> w.lastIP[i] != w.lastIP[j])
  }

  /** A pass that lowered the partition without recording it. */
  predicate Torn(w: World) {
    w.api.saved.Some? && w.api.partition < RolloutPartition(w.api.saved, w.replicas)
  }

  // ---------- the code's passes are these steps ----------

  /** The steps of one pass, given how its StatefulSet update went. */
  function StepsOf(env: Env): seq<Step> {
    match env.sync
    case Rejected => []
    case AppliedUnseen => [Sync]
    case Applied => [Sync, Coordinate(env)]
  }

  /** Every pass of the reconciler is a history of such steps. */
  lemma PassesAreSteps(w: World, env: Env) returns (ws: seq<World>)
    requires Honest(w, env)
    ensures IsHistory(ws, StepsOf(env)) && ws[0] == w
    ensures ws[|ws| - 1].api == ReconcilePass(w.api, w.replicas, w.report, env)
  {
    ws := [w];
    if !env.sync.Rejected? {
      var synced := Apply(w, Sync);
      ws := ws + [synced];
      if env.sync.Applied? {
        assert forall i: int :: Observed(synced, i) == Observed(w, i);
        ws := ws + [Apply(synced, Coordinate(env))];
      }
    }
  }
}
