/** The reconciler's own code for the rolling restart: it updates the
    in-memory record field by field, patches the partition, walks the proxy
    list and saves the record.  Every method is tied to the function of
    RestartState that says what it leaves behind. */
module RestartOperator {
  import opened Common
  import opened RestartState

  class RestartRecord {
    var currentOrdinal: int
    var totalOrdinals: int
    var phase: Phase
    var phaseStartedAt: int
    var oldPodIP: Option<IP>
    var excludeConfirmed: bool

    constructor (r: Restart)
      ensures Value() == r
    {
      currentOrdinal, totalOrdinals := r.ordinal, r.total;
      phase, phaseStartedAt := r.phase, r.startedAt;
      oldPodIP, excludeConfirmed := r.oldIP, r.confirmed;
    }

    function Value(): Restart
      reads this
    {
      Restart(currentOrdinal, totalOrdinals, phase, phaseStartedAt, oldPodIP, excludeConfirmed)
    }
  }

  class Reconciler {
    // cluster.Status.RollingRestart as this pass holds it
    var restart: RestartRecord?
    // what the API server holds
    var saved: Option<Restart>
    var partition: int
    var proxies: seq<Proxy>

    constructor (api: Api)
      ensures View() == api && restart == null
    {
      saved, partition, proxies := api.saved, api.partition, api.proxies;
      restart := null;
    }

    function View(): Api
      reads this
    {
      Api(saved, partition, proxies)
    }

    function Live(): Option<Restart>
      reads this, restart
    {
      if restart == null then None else Some(restart.Value())
    }

    method UpdateStatus(ok: bool)
      modifies this`saved
      ensures saved == if ok then Live() else old(saved)
    {
      if ok {
        saved := Live();
      }
    }

    /** releaseOrdinal: lower the partition to `ordinal`, never raise it. */
    method ReleaseOrdinal(ordinal: int, answer: Write) returns (ok: bool)
      modifies this`partition
      ensures ok == answer.Applied?
      ensures partition == if answer.Rejected? then old(partition) else Lowered(old(partition), ordinal)
    {
      if !answer.Rejected? && !(partition <= ordinal) {
        partition := ordinal;
      }
      ok := answer.Applied?;
    }

    method ForEachRunningProxy(cmd: Command, ip: IP, env: Env) returns (ok: bool)
      modifies this`proxies
      ensures (proxies, ok) == SweepAll(cmd, old(proxies), ip, env)
    {
      if !env.listOk {
        return false;
      }
      var i := 0;
      while i < |proxies|
        invariant i <= |proxies|
        invariant Sweep(cmd, proxies, ip, env.answers, i) == Sweep(cmd, old(proxies), ip, env.answers, 0)
      {
        if proxies[i].running {
          var (p, sent) := Send(cmd, proxies[i], ip, env.answers(i));
          proxies := proxies[i := p];
          if !sent {
            return false;
          }
        }
        i := i + 1;
      }
      return true;
    }

    method RollingRestartRelease(env: Env)
      requires restart != null
      modifies this`saved, this`partition, restart
      ensures restart == old(restart)
      ensures View() == Release(old(View()), old(restart.Value()), env)
    {
      var ok := ReleaseOrdinal(restart.currentOrdinal, env.release);
      if !ok {
        return;
      }
      restart.phase := WaitingReady;
      restart.phaseStartedAt := env.now;
      UpdateStatus(env.saveOk);
    }

    method RollingRestartExcluding(update: string, env: Env)
      requires restart != null
      modifies this`saved, this`partition, this`proxies, restart
      ensures restart == old(restart)
      ensures View() == ExcludeStep(old(View()), old(restart.Value()), update, env)
    {
      var pod;
      match env.pods(restart.currentOrdinal) {
        case LookupFailed => return;
        case NotFound => RollingRestartRelease(env); return;
        case Found(p) => pod := p;
      }
      if update != "" && pod.revision == update {
        RollingRestartRelease(env);
        return;
      }
      if pod.ip.None? {
        return;
      }
      restart.oldPodIP := pod.ip;
      var ok := ForEachRunningProxy(Exclude, pod.ip.value, env);
      if !ok {
        if env.now - restart.phaseStartedAt < PROXY_CALL_TIMEOUT {
          return;
        }
      } else {
        restart.excludeConfirmed := true;
      }
      restart.phase := Draining;
      restart.phaseStartedAt := env.now;
      UpdateStatus(env.saveOk);
    }

    method RollingRestartDraining(env: Env)
      requires restart != null
      modifies this`saved, this`partition, restart
      ensures restart == old(restart)
      ensures View() == DrainStep(old(View()), old(restart.Value()), env)
    {
      var elapsed := env.now - restart.phaseStartedAt;
      if elapsed < DrainWait(env) {
        return;
      }
      RollingRestartRelease(env);
    }

    method RollingRestartWaitingReady(update: string, env: Env)
      requires restart != null
      modifies this`saved, this`proxies, restart
      ensures restart == old(restart)
      ensures View() == WaitStep(old(View()), old(restart.Value()), update, env)
    {
      var pod;
      match env.pods(restart.currentOrdinal) {
        case LookupFailed => return;
        case NotFound => return;
        case Found(p) => pod := p;
      }
      if update != "" && pod.revision != update {
        return;
      }
      if !pod.ready || pod.terminating {
        return;
      }
      if pod.ip.None? {
        return;
      }
      var ok := ForEachRunningProxy(Include, pod.ip.value, env);
      if !ok && env.now - restart.phaseStartedAt < PROXY_CALL_TIMEOUT + POD_RESTART_ALLOWANCE {
        return;
      }
      if restart.currentOrdinal <= 0 {
        restart.phase := Completed;
        restart.phaseStartedAt := env.now;
        UpdateStatus(env.saveOk);
        return;
      }
      restart.currentOrdinal := restart.currentOrdinal - 1;
      restart.phase := Excluding;
      restart.phaseStartedAt := env.now;
      restart.excludeConfirmed := false;
      restart.oldPodIP := None;
      UpdateStatus(env.saveOk);
    }

    /** reconcileRollingRestart. */
    method ReconcileRollingRestart(replicas: int, rep: Report, env: Env)
      requires Live() == saved
      modifies this, restart
      ensures View() == RestartPass(old(View()), replicas, rep, env)
    {
      var rolling := rep.update != "" && rep.update != rep.current;
      if !rolling && restart == null {
        return;
      }
      // tryClearCompletedRollingRestart
      if restart != null && restart.phase == Completed &&
         rep.ready == replicas && rep.ready == rep.replicas && rep.updated == rep.replicas {
        restart := null;
        UpdateStatus(env.saveOk);
        return;
      }
      if !rolling && restart != null && restart.phase == Excluding && !restart.excludeConfirmed {
        restart := null;
        UpdateStatus(env.saveOk);
        return;
      }
      // ensureRollingRestartState
      if restart == null {
        restart := new RestartRecord(Start(replicas, env.now));
        UpdateStatus(env.startOk);
        if !env.startOk {
          return;
        }
      }
      match restart.phase {
        case Excluding => RollingRestartExcluding(rep.update, env);
        case Draining => RollingRestartDraining(env);
        case WaitingReady => RollingRestartWaitingReady(rep.update, env);
        case Completed =>
        case Including =>
      }
    }

    /** The part of Reconcile that touches the rollout: read the record, update
        the StatefulSet, then coordinate. */
    method Reconcile(replicas: int, rep: Report, env: Env)
      modifies this
      ensures View() == ReconcilePass(old(View()), replicas, rep, env)
    {
      if saved.None? {
        restart := null;
      } else {
        restart := new RestartRecord(saved.value);
      }
      if env.sync.Rejected? {
        return;
      }
      partition := RolloutPartition(Live(), replicas);
      if env.sync.AppliedUnseen? {
        return;
      }
      ReconcileRollingRestart(replicas, rep, env);
    }
  }
}
