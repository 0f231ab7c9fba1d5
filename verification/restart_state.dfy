/** The rolling restart as the operator sees it: the persisted coordination
    record, what the API server and the proxies hold, and what each phase
    handler does to them.  Everything the operator cannot choose (pod lookups,
    proxy answers, API failures, the clock) is an argument. */
module RestartState {
  import opened Common

  type IP = nat

  datatype Phase = Excluding | Draining | WaitingReady | Including | Completed

  /** The coordination record kept in the cluster's status. */
  datatype Restart = Restart(
    ordinal: int, total: int, phase: Phase, startedAt: int, oldIP: Option<IP>, confirmed: bool)

  datatype Pod = Pod(revision: string, ready: bool, terminating: bool, ip: Option<IP>)

  /** A proxy pod, its process and the backend IPs that process skips.
      Exclusions live in memory: a proxy that is not running holds none. */
  datatype Proxy = Proxy(pid: nat, running: bool, excluded: set<IP>)

  datatype Command = Exclude | Include

  /** Answers of a proxy's admin API.  `TimedOut` was carried out although
      the caller only saw an error. */
  datatype Answer = Accepted | Conflict | NotInPool | Refused | TimedOut

  datatype Lookup = Found(pod: Pod) | NotFound | LookupFailed

  /** The StatefulSet's status. */
  datatype Report = Report(replicas: int, ready: int, updated: int, current: string, update: string)

  /** What survives a pass: the saved record, the StatefulSet partition and
      the proxies' exclusions. */
  datatype Api = Api(saved: Option<Restart>, partition: int, proxies: seq<Proxy>)

  /** One pass's answers from the outside world. */
  datatype Env = Env(
    now: int,
    drainWaitSecs: int,
    sync: Write,             // the StatefulSet update that opens the pass
    startOk: bool,           // saving a fresh record
    pods: int -> Lookup,
    listOk: bool,            // listing the proxy pods
    answers: nat -> Answer,
    release: Write,          // the partition patch
    saveOk: bool)            // the handler's status write

  const PROXY_CALL_TIMEOUT := 120
  const POD_RESTART_ALLOWANCE := 600
  const DEFAULT_DRAIN_WAIT := 10

  function DrainWait(env: Env): int {
    if env.drainWaitSecs <= 0 then DEFAULT_DRAIN_WAIT else env.drainWaitSecs
  }

  function RolloutPartition(saved: Option<Restart>, replicas: int): int {
    match saved
    case None => replicas
    case Some(st) =>
      match st.phase
      case Completed => 0
      case WaitingReady => st.ordinal
      case _ => st.ordinal + 1
  }

  // ---------- proxies ----------

  /** One admin call: the proxy afterwards, and whether the caller saw success. */
  function Send(cmd: Command, p: Proxy, ip: IP, a: Answer): (Proxy, bool) {
    match cmd
    case Exclude => (
      match a
      case Accepted => (p.(excluded := p.excluded + {ip}), true)
      case Conflict => (p.(excluded := p.excluded + {ip}), true)
      case NotInPool => (p, true)
      case Refused => (p, false)
      case TimedOut => (p.(excluded := p.excluded + {ip}), false))
    case Include => (
      match a
      case Accepted => (p.(excluded := p.excluded - {ip}), true)
      case Conflict => (p, false)
      case NotInPool => (p, false)
      case Refused => (p, false)
      case TimedOut => (p.(excluded := p.excluded - {ip}), false))
  }

  /** The call to every running proxy from index `i` on, stopping at the
      first error. */
  function Sweep(cmd: Command, ps: seq<Proxy>, ip: IP, answers: nat -> Answer, i: nat): (r: (seq<Proxy>, bool))
    requires i <= |ps|
    ensures |r.0| == |ps|
    decreases |ps| - i
  {
    if i == |ps| then (ps, true)
    else if !ps[i].running then Sweep(cmd, ps, ip, answers, i + 1)
    else
      var (p, ok) := Send(cmd, ps[i], ip, answers(i));
      if ok then Sweep(cmd, ps[i := p], ip, answers, i + 1) else (ps[i := p], false)
  }

  function SweepAll(cmd: Command, ps: seq<Proxy>, ip: IP, env: Env): (r: (seq<Proxy>, bool))
    ensures |r.0| == |ps|
  {
    if env.listOk then Sweep(cmd, ps, ip, env.answers, 0) else (ps, false)
  }

  // ---------- phase handlers ----------

  function Save(api: Api, record: Option<Restart>, ok: bool): Api {
    if ok then api.(saved := record) else api
  }

  function Lowered(partition: int, ordinal: int): int {
    if partition <= ordinal then partition else ordinal
  }

  function Release(api: Api, st: Restart, env: Env): Api {
    match env.release
    case Rejected => api
    case AppliedUnseen => api.(partition := Lowered(api.partition, st.ordinal))
    case Applied =>
      Save(api.(partition := Lowered(api.partition, st.ordinal)),
           Some(st.(phase := WaitingReady, startedAt := env.now)), env.saveOk)
  }

  function ExcludeStep(api: Api, st: Restart, update: string, env: Env): Api {
    match env.pods(st.ordinal)
    case LookupFailed => api
    case NotFound => Release(api, st, env)
    case Found(pod) =>
      if update != "" && pod.revision == update then Release(api, st, env)
      else if pod.ip.None? then api
      else
        var (ps, ok) := SweepAll(Exclude, api.proxies, pod.ip.value, env);
        var told := api.(proxies := ps);
        if !ok && env.now - st.startedAt < PROXY_CALL_TIMEOUT then told
        else Save(told, Some(st.(oldIP := pod.ip, confirmed := ok || st.confirmed,
                                 phase := Draining, startedAt := env.now)), env.saveOk)
  }

  function DrainStep(api: Api, st: Restart, env: Env): Api {
    if env.now - st.startedAt < DrainWait(env) then api else Release(api, st, env)
  }

  /** The record once the pod at `st.ordinal` is back. */
  function Advanced(st: Restart, now: int): Restart {
    if st.ordinal <= 0 then st.(phase := Completed, startedAt := now)
    else st.(ordinal := st.ordinal - 1, phase := Excluding, startedAt := now, confirmed := false, oldIP := None)
  }

  predicate Replaced(pod: Pod, update: string) {
    && (update != "" ==> pod.revision == update)
    && pod.ready && !pod.terminating && pod.ip.Some?
  }

  function WaitStep(api: Api, st: Restart, update: string, env: Env): Api {
    match env.pods(st.ordinal)
    case LookupFailed => api
    case NotFound => api
    case Found(pod) =>
      if !Replaced(pod, update) then api
      else
        var (ps, ok) := SweepAll(Include, api.proxies, pod.ip.value, env);
        var told := api.(proxies := ps);
        if !ok && env.now - st.startedAt < PROXY_CALL_TIMEOUT + POD_RESTART_ALLOWANCE then told
        else Save(told, Some(Advanced(st, env.now)), env.saveOk)
  }

  // ---------- a pass ----------

  predicate Rolling(rep: Report) {
    rep.update != "" && rep.update != rep.current
  }

  function Start(replicas: int, now: int): Restart {
    Restart(if replicas - 1 >= 0 then replicas - 1 else 0, replicas, Excluding, now, None, false)
  }

  predicate Finished(saved: Option<Restart>, replicas: int, rep: Report) {
    saved.Some? && saved.value.phase == Completed &&
    rep.ready == replicas && rep.ready == rep.replicas && rep.updated == rep.replicas
  }

  predicate NothingToDo(saved: Option<Restart>, rep: Report) {
    !Rolling(rep) && saved.Some? && saved.value.phase == Excluding && !saved.value.confirmed
  }

  function Dispatch(api: Api, st: Restart, rep: Report, env: Env): Api {
    match st.phase
    case Excluding => ExcludeStep(api, st, rep.update, env)
    case Draining => DrainStep(api, st, env)
    case WaitingReady => WaitStep(api, st, rep.update, env)
    case _ => api
  }

  function RestartPass(api: Api, replicas: int, rep: Report, env: Env): Api {
    if !Rolling(rep) && api.saved.None? then api
    else if Finished(api.saved, replicas, rep) || NothingToDo(api.saved, rep) then Save(api, None, env.saveOk)
    else if api.saved.Some? then Dispatch(api, api.saved.value, rep, env)
    else if !env.startOk then api
    else
      var st := Start(replicas, env.now);
      Dispatch(api.(saved := Some(st)), st, rep, env)
  }

  /** A reconcile: first the StatefulSet gets the partition the saved record
      asks for, then the restart moves. */
  function ReconcilePass(api: Api, replicas: int, rep: Report, env: Env): Api {
    var synced := api.(partition := RolloutPartition(api.saved, replicas));
    match env.sync
    case Rejected => api
    case AppliedUnseen => synced
    case Applied => RestartPass(synced, replicas, rep, env)
  }
}
