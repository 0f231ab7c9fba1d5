/** Restoring a cluster: scale to zero, run one job per volume, scale back. */
module Restore {
  import opened Common

  datatype Phase = Pending | ScalingDown | Restoring | Completed | Failed

  /** A restore job's counters. */
  datatype Job = Job(succeeded: nat, failed: nat)

  datatype JobLookup = Found(job: Job) | NotFound | LookupFailed

  /** What survives a pass. */
  datatype Api = Api(phase: Phase, replicas: nat, jobs: map<nat, Job>)

  /** What the outside world answers.  `desired` is the cluster's replica count
      as this pass read it; `launched(i)` is the answer to creating job `i`. */
  datatype Env = Env(
    clusterFound: bool, sourceFound: bool, stsFound: bool,
    desired: nat, readyReplicas: nat,
    scale: Write,
    launched: nat -> Write,
    jobReadOk: nat -> bool,
    saveOk: bool)

  const NEW_JOB := Job(0, 0)

  function Save(api: Api, phase: Phase, env: Env): Api {
    if env.saveOk then api.(phase := phase) else api
  }

  // ---------- what a pass leaves ----------

  function HandleScaleDown(api: Api, env: Env): Api {
    if !env.stsFound || env.scale.Rejected? then api
    else if env.scale.AppliedUnseen? then api.(replicas := 0)
    else Save(api.(replicas := 0), ScalingDown, env)
  }

  /** The jobs after creating those from `i` up to `n`, and whether all calls
      were accepted (a job that exists already is). */
  function Launch(jobs: map<nat, Job>, i: nat, n: nat, env: Env): (map<nat, Job>, bool)
    decreases n - i
  {
    if i >= n then (jobs, true)
    else if i in jobs then Launch(jobs, i + 1, n, env)
    else
      match env.launched(i)
      case Rejected => (jobs, false)
      case AppliedUnseen => (jobs[i := NEW_JOB], false)
      case Applied => Launch(jobs[i := NEW_JOB], i + 1, n, env)
  }

  function CheckScaleDown(api: Api, env: Env): Api {
    if !env.stsFound || env.readyReplicas > 0 then api
    else
      var (jobs, ok) := Launch(api.jobs, 0, env.desired, env);
      if ok then Save(api.(jobs := jobs), Restoring, env) else api.(jobs := jobs)
  }

  predicate ReadsAll(env: Env) {
    forall i: nat :: i < env.desired ==> env.jobReadOk(i)
  }

  predicate AnyFailed(api: Api, n: nat) {
    exists i: nat :: i < n && i in api.jobs && api.jobs[i].failed > 0
  }

  predicate AllSucceeded(api: Api, n: nat) {
    forall i: nat :: i < n ==> i in api.jobs && api.jobs[i].succeeded > 0 && api.jobs[i].failed == 0
  }

  function HandleScaleUp(api: Api, env: Env): Api {
    if !env.stsFound || env.scale.Rejected? then api
    else if env.scale.AppliedUnseen? then api.(replicas := env.desired)
    else Save(api.(replicas := env.desired), Completed, env)
  }

  function CheckRestoreJob(api: Api, env: Env): Api {
    if !ReadsAll(env) then api
    else if AnyFailed(api, env.desired) then Save(api, Failed, env)
    else if AllSucceeded(api, env.desired) then HandleScaleUp(api, env)
    else api
  }

  function ReconcilePass(api: Api, env: Env): Api {
    if api.phase.Completed? || api.phase.Failed? then api
    else if !env.clusterFound || !env.sourceFound then Save(api, Failed, env)
    else
      match api.phase
      case Pending => HandleScaleDown(api, env)
      case ScalingDown => CheckScaleDown(api, env)
      case _ => CheckRestoreJob(api, env)
  }

  // ---------- the code ----------

  class RestoreReconciler {
    var phase: Phase         // restore.Status.Phase as saved
    var replicas: nat        // the StatefulSet's spec.replicas
    var jobs: map<nat, Job>

    constructor (api: Api)
      ensures View() == api
    {
      phase, replicas, jobs := api.phase, api.replicas, api.jobs;
    }

    function View(): Api
      reads this
    {
      Api(phase, replicas, jobs)
    }

    method SetRestorePhase(p: Phase, env: Env)
      modifies this`phase
      ensures phase == if env.saveOk then p else old(phase)
    {
      if env.saveOk {
        phase := p;
      }
    }

    /** Both scale steps: read the StatefulSet, write its replicas. */
    method Scale(n: nat, env: Env) returns (ok: bool)
      modifies this`replicas
      ensures ok <==> env.stsFound && env.scale.Applied?
      ensures replicas == if env.stsFound && !env.scale.Rejected? then n else old(replicas)
    {
      if env.stsFound && !env.scale.Rejected? {
        replicas := n;
      }
      ok := env.stsFound && env.scale.Applied?;
    }

    method CreateJobs(env: Env) returns (ok: bool)
      modifies this`jobs
      ensures (jobs, ok) == Launch(old(jobs), 0, env.desired, env)
    {
      var i := 0;
      while i < env.desired
        invariant Launch(jobs, i, env.desired, env) == Launch(old(jobs), 0, env.desired, env)
        decreases env.desired - i
      {
        if i !in jobs {
          if !env.launched(i).Rejected? {
            jobs := jobs[i := NEW_JOB];
          }
          if !env.launched(i).Applied? {
            return false;
          }
        }
        i := i + 1;
      }
      return true;
    }

    method Lookup(i: nat, env: Env) returns (l: JobLookup)
      ensures l == if !env.jobReadOk(i) then LookupFailed else if i in jobs then Found(jobs[i]) else NotFound
    {
      l := if !env.jobReadOk(i) then LookupFailed else if i in jobs then Found(jobs[i]) else NotFound;
    }

    method CheckJobs(env: Env) returns (read: bool, allDone: bool, anyFailed: bool)
      ensures read <==> ReadsAll(env)
      ensures read ==> (anyFailed <==> AnyFailed(View(), env.desired))
      ensures read && !anyFailed ==> (allDone <==> AllSucceeded(View(), env.desired))
    {
      allDone, anyFailed := true, false;
      var i := 0;
      while i < env.desired
        invariant forall k: nat :: k < i ==> env.jobReadOk(k)
        invariant i <= env.desired
        invariant anyFailed <==> AnyFailed(View(), i)
        invariant !anyFailed ==> (allDone <==> AllSucceeded(View(), i))
      {
        var l := Lookup(i, env);
        match l {
          case LookupFailed =>
            return false, false, false;
          case NotFound =>
            allDone := false;
          case Found(job) =>
            if job.succeeded == 0 && job.failed == 0 {
              allDone := false;
            }
            if job.failed > 0 {
              anyFailed := true;
            }
        }
        i := i + 1;
      }
      read := true;
    }

    method Reconcile(env: Env)
      modifies this
      ensures View() == ReconcilePass(old(View()), env)
    {
      if phase.Completed? || phase.Failed? {
        return;
      }
      if !env.clusterFound || !env.sourceFound {
        SetRestorePhase(Failed, env);
        return;
      }
      match phase {
        case Pending =>
          var ok := Scale(0, env);
          if ok {
            SetRestorePhase(ScalingDown, env);
          }
        case ScalingDown =>
          if !env.stsFound || env.readyReplicas > 0 {
            return;
          }
          var ok := CreateJobs(env);
          if ok {
            SetRestorePhase(Restoring, env);
          }
        case Restoring =>
          var read, allDone, anyFailed := CheckJobs(env);
          if !read {
            return;
          }
          if anyFailed {
            SetRestorePhase(Failed, env);
          } else if allDone {
            var ok := Scale(env.desired, env);
            if ok {
              SetRestorePhase(Completed, env);
            }
          }
        case _ =>
      }
    }
  }

  // ---------- runs ----------

  datatype Step =
    | Pass(env: Env)
    | JobsMove(jobs: map<nat, Job>)
    | ClusterReconciles(spec: nat)   // an unpaused cluster reconciler writes its own count

  /** Jobs only ever count up; none appears or disappears by itself. */
  predicate JobsAdvance(before: map<nat, Job>, after: map<nat, Job>) {
    before.Keys == after.Keys &&
    forall i :: i in before ==> before[i].succeeded <= after[i].succeeded && before[i].failed <= after[i].failed
  }

  predicate Enabled(api: Api, s: Step) {
    s.JobsMove? ==> JobsAdvance(api.jobs, s.jobs)
  }

  function Apply(api: Api, s: Step): Api {
    match s
    case Pass(env) => ReconcilePass(api, env)
    case JobsMove(jobs) => api.(jobs := jobs)
    case ClusterReconciles(spec) => api.(replicas := spec)
  }

  ghost predicate IsRun(apis: seq<Api>, steps: seq<Step>) {
    && |apis| == |steps| + 1
    && apis[0].phase == Pending
    && forall j :: 0 <= j < |steps| ==> Enabled(apis[j], steps[j]) && apis[j + 1] == Apply(apis[j], steps[j])
  }

  function Rank(p: Phase): nat {
    match p
    case Pending => 0
    case ScalingDown => 1
    case Restoring => 2
    case _ => 3
  }

  predicate Final(p: Phase) {
    p.Completed? || p.Failed?
  }

  /** Phases only go forward, one step at a time except to Failed, whatever
      writes are lost, and both ends are final. */
  lemma {:induction false} PhasesOnlyAdvance(apis: seq<Api>, steps: seq<Step>, a: nat, b: nat)
    requires IsRun(apis, steps) && a <= b < |apis|
    ensures Rank(apis[a].phase) <= Rank(apis[b].phase)
    ensures Final(apis[a].phase) ==> apis[b].phase == apis[a].phase
    ensures b == a + 1 && !apis[b].phase.Failed? ==> Rank(apis[b].phase) <= Rank(apis[a].phase) + 1
    decreases b
  {
    if a < b {
      PhasesOnlyAdvance(apis, steps, a, b - 1);
    }
  }

  /** Completion is reached only in a pass that read, for every ordinal below the
      replica count of that pass, a job that succeeded and never failed. */
  lemma CompletedMeansEveryJobSucceeded(apis: seq<Api>, steps: seq<Step>, j: nat)
    requires IsRun(apis, steps) && j < |steps| && !apis[j].phase.Completed? && apis[j + 1].phase.Completed?
    ensures steps[j].Pass? && apis[j].phase.Restoring? && AllSucceeded(apis[j], steps[j].env.desired)
    ensures apis[j + 1].replicas == steps[j].env.desired
  {
    var s := steps[j];
    assert Enabled(apis[j], s) && apis[j + 1] == Apply(apis[j], s);
  }

  /** A restore fails exactly when its cluster or its source is gone, or when a job
      below the replica count has failed in a pass that could read them all; and
      that pass could save it. */
  lemma FailsExactly(apis: seq<Api>, steps: seq<Step>, j: nat)
    requires IsRun(apis, steps) && j < |steps| && steps[j].Pass? && !Final(apis[j].phase)
    ensures var api, env := apis[j], steps[j].env;
      apis[j + 1].phase.Failed? <==>
        && env.saveOk
        && (|| !env.clusterFound || !env.sourceFound
            || (&& api.phase.Restoring?
                && (forall i: nat :: i < env.desired ==> env.jobReadOk(i))
                && (exists i: nat :: i < env.desired && i in api.jobs && api.jobs[i].failed > 0)))
  {
    assert apis[j + 1] == Apply(apis[j], steps[j]);
  }

  /** When each phase is left for the next, whatever the answers, and what the
      StatefulSet is then asked for. */
  lemma AdvancesExactly(api: Api, env: Env)
    requires env.clusterFound && env.sourceFound
    ensures var after := ReconcilePass(api, env);
      match api.phase
      case Pending =>
        && (after.phase.ScalingDown? <==> env.stsFound && env.scale == Applied && env.saveOk)
        && (env.stsFound && env.scale != Rejected ==> after.replicas == 0)
      case ScalingDown =>
        (after.phase.Restoring? <==>
          && env.stsFound && env.readyReplicas == 0 && env.saveOk
          && forall i: nat :: i < env.desired ==> i in api.jobs || env.launched(i) == Applied)
      case Restoring =>
        && (after.phase.Completed? <==>
              && env.stsFound && env.scale == Applied && env.saveOk
              && (forall i: nat :: i < env.desired ==> env.jobReadOk(i))
              && (forall i: nat :: i < env.desired ==> i in api.jobs && api.jobs[i].succeeded > 0 && api.jobs[i].failed == 0))
        && (after.phase.Completed? ==> after.replicas == env.desired)
      case _ => after == api
  {
    LaunchExactly(api.jobs, 0, env.desired, env);
    hide Launch;
  }

  /** Creating the jobs goes on to the first call that fails; jobs there already
      are left as they are. */
  lemma {:induction false} LaunchExactly(jobs: map<nat, Job>, i: nat, n: nat, env: Env)
    ensures var (after, ok) := Launch(jobs, i, n, env);
      && (ok <==> forall k: nat :: i <= k < n ==> k in jobs || env.launched(k) == Applied)
      && (forall k :: k in jobs ==> k in after && after[k] == jobs[k])
      && (forall k: nat :: k !in jobs ==>
            (k in after <==> i <= k < n && env.launched(k) != Rejected
                             && forall m: nat :: i <= m < k ==> m in jobs || env.launched(m) == Applied))
      && (forall k :: k in after && k !in jobs ==> after[k] == Job(0, 0))
    decreases n - i
  {
    if i < n {
      var next := if i in jobs then jobs else jobs[i := NEW_JOB];
      if i in jobs || env.launched(i) == Applied {
        LaunchExactly(next, i + 1, n, env);
        forall k: nat | k !in jobs
          ensures (forall m: nat :: i <= m < k ==> m in jobs || env.launched(m) == Applied) <==>
                  (forall m: nat :: i + 1 <= m < k ==> m in next || env.launched(m) == Applied)
        {
          assert forall m: nat :: i + 1 <= m ==> (m in next <==> m in jobs);
        }
      } else {
        assert !(i in jobs || env.launched(i) == Applied);
      }
    }
  }

  /** The status write of a scale step was lost, or its answer was. */
  predicate LosesTrack(api: Api, s: Step) {
    s.Pass? && !(s.env.saveOk && !s.env.scale.AppliedUnseen?)
  }

  /** With the cluster paused and no write lost, the StatefulSet is at zero from
      ScalingDown through Restoring. */
  lemma {:induction false} ZeroReplicasWhileRestoring(apis: seq<Api>, steps: seq<Step>, j: nat)
    requires IsRun(apis, steps) && j < |apis|
    requires forall a :: 0 <= a < j ==> !steps[a].ClusterReconciles? && !LosesTrack(apis[a], steps[a])
    requires apis[j].phase.ScalingDown? || apis[j].phase.Restoring?
    ensures apis[j].replicas == 0
  {
    if j > 0 {
      var w, s := apis[j - 1], steps[j - 1];
      assert Enabled(w, s) && apis[j] == Apply(w, s) && !LosesTrack(w, s);
      if w.phase.ScalingDown? || w.phase.Restoring? {
        ZeroReplicasWhileRestoring(apis, steps, j - 1);
      }
    }
  }

  predicate Underway(api: Api) {
    api.phase.ScalingDown? || api.phase.Restoring?
  }

  /** A write of another count than zero that the restore does not end with: an
      unpaused cluster's reconcile, or the final scale-up when its answer or the
      status write after it is lost. */
  predicate Raises(api: Api, s: Step) {
    match s
    case ClusterReconciles(spec) => spec > 0
    case JobsMove(_) => false
    case Pass(env) =>
      && api.phase.Restoring? && env.clusterFound && env.sourceFound && env.stsFound && !env.scale.Rejected?
      && ReadsAll(env) && !AnyFailed(api, env.desired) && AllSucceeded(api, env.desired) && env.desired > 0
      && (env.scale.AppliedUnseen? || !env.saveOk)
  }

  lemma UnderwayStep(api: Api, s: Step)
    requires Underway(api) && Enabled(api, s) && Underway(Apply(api, s))
    ensures Raises(api, s) ==> Apply(api, s).replicas > 0
    ensures !Raises(api, s) && api.replicas == 0 ==> Apply(api, s).replicas == 0
  {
  }

  lemma {:induction false} ZeroUntilRaised(apis: seq<Api>, steps: seq<Step>, a: nat, b: nat)
    requires IsRun(apis, steps) && 0 < a <= b < |apis| && apis[a - 1].phase.Pending?
    requires forall j :: a <= j <= b ==> Underway(apis[j])
    requires forall j :: a <= j < b ==> !Raises(apis[j], steps[j])
    ensures apis[b].replicas == 0
    decreases b
  {
    var w, s := apis[b - 1], steps[b - 1];
    assert Enabled(w, s) && apis[b] == Apply(w, s);
    if a < b {
      ZeroUntilRaised(apis, steps, a, b - 1);
      UnderwayStep(w, s);
    }
  }

  /** From the world a restore enters ScalingDown on, the StatefulSet is at zero
      throughout exactly when nobody raises it. */
  lemma ZeroThroughoutExactly(apis: seq<Api>, steps: seq<Step>, a: nat, b: nat)
    requires IsRun(apis, steps) && 0 < a <= b < |apis| && apis[a - 1].phase.Pending?
    requires forall j :: a <= j <= b ==> Underway(apis[j])
    ensures (forall j :: a <= j <= b ==> apis[j].replicas == 0) <==> (forall j :: a <= j < b ==> !Raises(apis[j], steps[j]))
  {
    if forall j :: a <= j < b ==> !Raises(apis[j], steps[j]) {
      forall j | a <= j <= b
        ensures apis[j].replicas == 0
      {
        ZeroUntilRaised(apis, steps, a, j);
      }
    } else {
      var j :| a <= j < b && Raises(apis[j], steps[j]);
      assert Enabled(apis[j], steps[j]) && apis[j + 1] == Apply(apis[j], steps[j]);
      UnderwayStep(apis[j], steps[j]);
    }
  }

  /** A run in which an unpaused cluster scales back up and the jobs start all the same. */
  lemma JobsStartUnderALiveCluster(n: nat) returns (apis: seq<Api>, steps: seq<Step>)
    requires n >= 1
    ensures IsRun(apis, steps) && |steps| == 3 && steps[1] == ClusterReconciles(n)
    ensures apis[3].phase.Restoring? && apis[3].replicas == n && forall i: nat :: i < n ==> i in apis[3].jobs
  {
    var env := Env(true, true, true, n, 0, Applied, (i: nat) => Applied, (i: nat) => true, true);
    var start, down := Api(Pending, n, map[]), Api(ScalingDown, 0, map[]);
    JobsStartExactlyWhenNoPodIsReady(down.(replicas := n), env);
    steps := [Pass(env), ClusterReconciles(n), Pass(env)];
    apis := [start, down, down.(replicas := n), ReconcilePass(down.(replicas := n), env)];
  }

  /** The gate before the jobs looks only at readiness, so jobs start although
      the StatefulSet has been scaled back up, as long as no pod is ready yet. */
  lemma JobsStartExactlyWhenNoPodIsReady(api: Api, env: Env)
    requires api.phase.ScalingDown? && env.clusterFound && env.sourceFound && env.stsFound && env.saveOk
    requires forall i: nat :: env.launched(i) == Applied
    ensures ReconcilePass(api, env).phase.Restoring? <==> env.readyReplicas == 0
    ensures env.readyReplicas == 0 ==> forall i: nat :: i < env.desired ==> i in ReconcilePass(api, env).jobs
  {
    AllLaunched(api.jobs, 0, env.desired, env);
  }

  lemma {:induction false} AllLaunched(jobs: map<nat, Job>, i: nat, n: nat, env: Env)
    requires forall k: nat :: env.launched(k) == Applied
    ensures Launch(jobs, i, n, env).1
    ensures forall k: nat :: k in jobs || i <= k < n ==> k in Launch(jobs, i, n, env).0
    decreases n - i
  {
    if i < n {
      AllLaunched(if i in jobs then jobs else jobs[i := NEW_JOB], i + 1, n, env);
    }
  }

  /** Jobs are only created on leaving ScalingDown: a replica count raised later
      leaves the restore waiting for jobs nobody creates. */
  lemma {:induction false} RaisedReplicasWaitForever(apis: seq<Api>, steps: seq<Step>, a: nat, b: nat, i: nat)
    requires IsRun(apis, steps) && a <= b < |apis| && apis[a].phase.Restoring? && i !in apis[a].jobs
    requires forall j :: a <= j < b && steps[j].Pass? ==> steps[j].env.desired > i
    ensures i !in apis[b].jobs && !apis[b].phase.Completed?
    decreases b
  {
    if a < b {
      RaisedReplicasWaitForever(apis, steps, a, b - 1, i);
      PhasesOnlyAdvance(apis, steps, a, b - 1);
      assert Enabled(apis[b - 1], steps[b - 1]) && apis[b] == Apply(apis[b - 1], steps[b - 1]);
    }
  }

  /** The jobs launched on entering Restoring are the jobs there are from then on. */
  lemma {:induction false} LaunchedJobsStay(apis: seq<Api>, steps: seq<Step>, a: nat, b: nat)
    requires IsRun(apis, steps) && a <= b < |apis| && apis[a].phase.Restoring?
    ensures apis[b].jobs.Keys == apis[a].jobs.Keys
    decreases b
  {
    if a < b {
      LaunchedJobsStay(apis, steps, a, b - 1);
      PhasesOnlyAdvance(apis, steps, a, b - 1);
      assert Enabled(apis[b - 1], steps[b - 1]) && apis[b] == Apply(apis[b - 1], steps[b - 1]);
    }
  }

  /** Every read and write of the pass works. */
  ghost predicate Works(env: Env) {
    env.clusterFound && env.sourceFound && env.stsFound && env.scale.Applied? && env.saveOk && ReadsAll(env)
  }

  /** A restore under way completes in such a pass exactly when the count the pass
      reads is covered by the jobs launched, and these have succeeded. */
  lemma CompletesExactly(apis: seq<Api>, steps: seq<Step>, a: nat, j: nat)
    requires IsRun(apis, steps) && a <= j < |steps| && apis[a].phase.Restoring? && apis[j].phase.Restoring?
    requires steps[j].Pass? && Works(steps[j].env)
    ensures apis[j + 1].phase.Completed? <==>
      forall i: nat :: i < steps[j].env.desired ==>
        i in apis[a].jobs && i in apis[j].jobs && apis[j].jobs[i].succeeded > 0 && apis[j].jobs[i].failed == 0
  {
    LaunchedJobsStay(apis, steps, a, j);
    assert apis[j + 1] == Apply(apis[j], steps[j]);
    assert forall i: nat :: i in apis[a].jobs <==> i in apis[j].jobs;
  }

  /** A run that enters Restoring with a job for every ordinal it read, and none for
      the next. */
  lemma RaisedCountIsReached(n: nat) returns (apis: seq<Api>, steps: seq<Step>)
    requires n >= 1
    ensures IsRun(apis, steps) && |steps| == 2 && steps[1].Pass? && steps[1].env.desired == n
    ensures apis[2].phase.Restoring? && n !in apis[2].jobs && forall i: nat :: i < n ==> i in apis[2].jobs
  {
    var env := Env(true, true, true, n, 0, Applied, (i: nat) => Applied, (i: nat) => true, true);
    var down := Api(ScalingDown, 0, map[]);
    JobsStartExactlyWhenNoPodIsReady(down, env);
    NoJobBeyond(map[], 0, n, env);
    steps, apis := [Pass(env), Pass(env)], [Api(Pending, n, map[]), down, ReconcilePass(down, env)];
  }

  lemma {:induction false} NoJobBeyond(jobs: map<nat, Job>, i: nat, n: nat, env: Env)
    requires n !in jobs
    ensures n !in Launch(jobs, i, n, env).0
    decreases n - i
  {
    if i < n {
      NoJobBeyond(if i in jobs then jobs else jobs[i := NEW_JOB], i + 1, n, env);
    }
  }
}
