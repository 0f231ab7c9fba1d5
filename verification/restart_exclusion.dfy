/** Which backends the proxies have been told to skip, over whole runs, with
    lost writes, partial failures and proxies that come and go. */
module RestartExclusion {
  import opened Common
  import opened RestartState
  import opened RestartWorld
  import opened RestartSafety

  // ---------- what a sweep does ----------

  /** The caller saw success and goes on to the next proxy. */
  predicate Succeeds(cmd: Command, a: Answer) {
    a == Accepted || (cmd == Exclude && a in {Conflict, NotInPool})
  }

  /** The proxy did as told, seen or not. */
  predicate TakesEffect(cmd: Command, a: Answer) {
    a in {Accepted, TimedOut} || (cmd == Exclude && a == Conflict)
  }

  /** The sweep that starts at `i` gets as far as proxy `q`. */
  predicate Reached(cmd: Command, ps: seq<Proxy>, answers: nat -> Answer, i: nat, q: nat)
    requires q <= |ps|
  {
    forall m: nat :: i <= m < q && ps[m].running ==> Succeeds(cmd, answers(m))
  }

  function After(cmd: Command, excluded: set<IP>, ip: IP): set<IP> {
    if cmd == Exclude then excluded + {ip} else excluded - {ip}
  }

  /** Exactly what every proxy skips after a sweep, and when it succeeds. */
  lemma {:induction false} SweepExactly(cmd: Command, ps: seq<Proxy>, ip: IP, answers: nat -> Answer, i: nat)
    requires i <= |ps|
    ensures var (r, ok) := Sweep(cmd, ps, ip, answers, i);
      && (ok <==> Reached(cmd, ps, answers, i, |ps|))
      && (forall q: nat :: q < |ps| ==>
            r[q] == if i <= q && ps[q].running && Reached(cmd, ps, answers, i, q) && TakesEffect(cmd, answers(q))
                    then ps[q].(excluded := After(cmd, ps[q].excluded, ip)) else ps[q])
    decreases |ps| - i
  {
    hide Send, Succeeds, TakesEffect, After;
    if i < |ps| {
      SendExactly(cmd, ps[i], ip, answers(i));
      var next := if ps[i].running then ps[i := Send(cmd, ps[i], ip, answers(i)).0] else ps;
      SweepExactly(cmd, next, ip, answers, i + 1);
      forall q: nat | i < q <= |ps|
        ensures Reached(cmd, ps, answers, i, q) <==>
          (ps[i].running ==> Succeeds(cmd, answers(i))) && Reached(cmd, next, answers, i + 1, q)
      {
        ReachedAfterFirst(cmd, ps, next, answers, i, q);
      }
    }
  }

  lemma SendExactly(cmd: Command, p: Proxy, ip: IP, a: Answer)
    ensures Send(cmd, p, ip, a) ==
      (if TakesEffect(cmd, a) then p.(excluded := After(cmd, p.excluded, ip)) else p, Succeeds(cmd, a))
  {
  }

  lemma ReachedAfterFirst(cmd: Command, ps: seq<Proxy>, next: seq<Proxy>, answers: nat -> Answer, i: nat, q: nat)
    requires i < q <= |ps| == |next| && (forall m :: 0 <= m < |ps| ==> next[m].running == ps[m].running)
    ensures Reached(cmd, ps, answers, i, q) <==>
      (ps[i].running ==> Succeeds(cmd, answers(i))) && Reached(cmd, next, answers, i + 1, q)
  {
  }

  /** A successful exclude reached every running proxy: each one that routes to
      the address now skips it. */
  lemma ExcludedEverywhere(ps: seq<Proxy>, ip: IP, env: Env, q: nat)
    requires SweepAll(Exclude, ps, ip, env).1 && q < |ps| && ps[q].running
    ensures env.answers(q) == NotInPool || ip in SweepAll(Exclude, ps, ip, env).0[q].excluded
  {
    SweepExactly(Exclude, ps, ip, env.answers, 0);
    assert Reached(Exclude, ps, env.answers, 0, |ps|);
  }

  // ---------- which calls a pass makes ----------

  /** The command a pass sends round, if any. */
  function Orders(w: World, env: Env): Option<(Command, IP)> {
    var st := Working(w, env.now);
    if w.api.saved.None? && (!Rolling(w.report) || !env.startOk) then None
    else if Finished(w.api.saved, w.replicas, w.report) || NothingToDo(w.api.saved, w.report) then None
    else
      match env.pods(st.ordinal)
      case Found(pod) =>
        if st.phase == Excluding && !(w.report.update != "" && pod.revision == w.report.update) && pod.ip.Some?
        then Some((Exclude, pod.ip.value))
        else if st.phase == WaitingReady && Replaced(pod, w.report.update) then Some((Include, pod.ip.value))
        else None
      case _ => None
  }

  lemma PassSendsOrders(w: World, env: Env)
    ensures RestartPass(w.api, w.replicas, w.report, env).proxies ==
      match Orders(w, env)
      case None => w.api.proxies
      case Some((cmd, ip)) => SweepAll(cmd, w.api.proxies, ip, env).0
  {
  }

  /** In this step the process `pid` carried out `cmd` for `ip`. */
  predicate CarriedOut(cmd: Command, w: World, s: Step, pid: nat, ip: IP) {
    && s.Coordinate? && Orders(w, s.env) == Some((cmd, ip)) && s.env.listOk
    && exists q: nat :: q < |w.api.proxies| && w.api.proxies[q].pid == pid && w.api.proxies[q].running
                        && Reached(cmd, w.api.proxies, s.env.answers, 0, q) && TakesEffect(cmd, s.env.answers(q))
  }

  // ---------- bookkeeping invariant ----------

  predicate Excluded(w: World, ip: IP) {
    exists q :: 0 <= q < |w.api.proxies| && ip in w.api.proxies[q].excluded
  }

  /** The live pod at ordinal `i` is skipped by some proxy. */
  predicate LiveExcluded(w: World, i: nat) {
    Present(w, i) && w.slots[i].value.ip.Some? && Excluded(w, w.slots[i].value.ip.value)
  }

  /** The ordinal the recorded restart is working on. */
  predicate AtOrdinal(w: World, i: nat) {
    w.api.saved.Some? && w.api.saved.value.phase != Completed && i == w.api.saved.value.ordinal
  }

  /** IPs are accounted for, and only running proxies hold exclusions. */
  ghost predicate Ledger(w: World) {
    && |w.slots| == |w.lastIP| == w.n
    && (forall q :: 0 <= q < |w.api.proxies| && !w.api.proxies[q].running ==> w.api.proxies[q].excluded == {})
    && (forall ip: IP :: Excluded(w, ip) ==> ip in w.used)
    && (forall i: nat :: i < w.n && w.lastIP[i].Some? ==> w.lastIP[i].value in w.used)
    && (forall i: nat, j: nat :: i < j < w.n && w.lastIP[i].Some? ==> w.lastIP[i] != w.lastIP[j])
    && (forall i: nat :: Present(w, i) && w.slots[i].value.ip.Some? ==> w.lastIP[i] == w.slots[i].value.ip)
    && (w.hist.residue.Some? ==> w.api.saved.None? && Done(w.report))
  }

  /** Only the ordinal being restarted has its IP excluded anywhere. */
  ghost predicate Contained(w: World)
    requires |w.lastIP| == w.n
  {
    forall i: nat :: i < w.n && w.lastIP[i].Some? && Excluded(w, w.lastIP[i].value) ==>
      AtOrdinal(w, i) || w.hist.residue == Some(i)
  }

  ghost predicate Books(w: World) {
    Inv(w) && Ledger(w) && Contained(w)
  }

  /** A recreated pod gets back its ordinal's previous IP or one never seen. */
  predicate KeepsOrFresh(w: World, s: Step) {
    s.AssignIP? && s.i < |w.lastIP| ==> s.ip !in w.used || w.lastIP[s.i] == Some(s.ip)
  }

  /** The pass moves on from WaitingReady although a proxy refused the include. */
  predicate GivesUpInclude(w: World, s: Step) {
    s.Coordinate? && w.api.saved.Some? && w.api.saved.value.phase == WaitingReady &&
    match s.env.pods(w.api.saved.value.ordinal)
    case Found(pod) =>
      && pod.revision == w.report.update && pod.ready && !pod.terminating && pod.ip.Some?
      && !SweepAll(Include, w.api.proxies, pod.ip.value, s.env).1
      && s.env.now - w.api.saved.value.startedAt >= 720
    case _ => false
  }

  /** What a pass does to exclusions: nothing but excluding the IP of the pod it
      is working on, or including it. */
  lemma PassProxies(w: World, env: Env)
    requires Inv(w) && Honest(w, env) && Synced(w)
    ensures var api := RestartPass(w.api, w.replicas, w.report, env);
      && |api.proxies| == |w.api.proxies|
      && (forall q :: 0 <= q < |api.proxies| ==>
            && api.proxies[q].running == w.api.proxies[q].running && api.proxies[q].pid == w.api.proxies[q].pid
            && api.proxies[q].excluded <= w.api.proxies[q].excluded + NewlyExcluded(w, env)
            && (!w.api.proxies[q].running ==> api.proxies[q].excluded <= w.api.proxies[q].excluded))
  {
    var k := Target(w);
    assert env.pods(k) == LookupFailed || env.pods(k) == Observed(w, k);
    PassSendsOrders(w, env);
    if Orders(w, env).Some? {
      SweepExactly(Orders(w, env).value.0, w.api.proxies, Orders(w, env).value.1, env.answers, 0);
    }
  }

  /** The ordinal a pass works on. */
  function Target(w: World): int {
    if w.api.saved.Some? then w.api.saved.value.ordinal else w.replicas - 1
  }

  /** The only IP a pass can add: that of an outdated pod in the Excluding phase. */
  function NewlyExcluded(w: World, env: Env): set<IP> {
    var k := Target(w);
    if 0 <= k && Present(w, k) && !OnUpdate(w, k) && w.slots[k].value.ip.Some? &&
       Rolling(w.report) && (w.api.saved.None? || w.api.saved.value.phase == Excluding)
    then {w.slots[k].value.ip.value} else {}
  }

  lemma PassLedger(w: World, env: Env)
    requires Inv(w) && Ledger(w) && Honest(w, env) && Synced(w)
    ensures Ledger(Apply(w, Coordinate(env)))
  {
    var w' := Apply(w, Coordinate(env));
    PassProxies(w, env);
    PassEdge(w, env);
    forall ip: IP | Excluded(w', ip)
      ensures ip in w.used
    {
      var q :| 0 <= q < |w'.api.proxies| && ip in w'.api.proxies[q].excluded;
      assert ip in w.api.proxies[q].excluded ==> Excluded(w, ip);
    }
    assert forall i: nat :: Present(w', i) == Present(w, i);
  }

  lemma StepLedger(w: World, s: Step)
    requires Inv(w) && Ledger(w) && Enabled(w, s) && Steady(s) && KeepsOrFresh(w, s)
    ensures Ledger(Apply(w, s))
  {
    var w' := Apply(w, s);
    if s.Coordinate? {
      PassLedger(w, s.env);
    } else {
      assert forall ip: IP :: Excluded(w', ip) ==> Excluded(w, ip);
    }
  }

  /** After an include every running proxy accepted, no proxy skips that pod. */
  lemma IncludedEverywhere(w: World, env: Env)
    requires Inv(w) && Ledger(w) && Honest(w, env) && Synced(w) && !GivesUpInclude(w, Coordinate(env))
    requires w.api.saved.Some? && w.api.saved.value.phase == WaitingReady
    requires var after := RestartPass(w.api, w.replicas, w.report, env).saved; after != w.api.saved
    ensures var k := w.api.saved.value.ordinal;
      && Present(w, k) && w.slots[k].value.ip.Some?
      && !Excluded(Apply(w, Coordinate(env)), w.slots[k].value.ip.value)
  {
    var k := w.api.saved.value.ordinal;
    assert env.pods(k) == Observed(w, k);
    PassSendsOrders(w, env);
    SweepExactly(Include, w.api.proxies, w.slots[k].value.ip.value, env.answers, 0);
    assert Reached(Include, w.api.proxies, env.answers, 0, |w.api.proxies|);
  }

  lemma PassContained(w: World, env: Env)
    requires Books(w) && Honest(w, env) && Synced(w) && !GivesUpInclude(w, Coordinate(env))
    ensures Contained(Apply(w, Coordinate(env)))
  {
    var w' := Apply(w, Coordinate(env));
    PassProxies(w, env);
    PassEdge(w, env);
    forall i: nat | i < w.n && w.lastIP[i].Some? && Excluded(w', w.lastIP[i].value)
      ensures AtOrdinal(w', i) || w'.hist.residue == Some(i)
    {
      var ip := w.lastIP[i].value;
      var q :| 0 <= q < |w'.api.proxies| && ip in w'.api.proxies[q].excluded;
      if ip in w.api.proxies[q].excluded {
        assert Excluded(w, ip);
        assert AtOrdinal(w, i) || w.hist.residue == Some(i);
        if AtOrdinal(w, i) && w.api.saved.value.phase == WaitingReady && w'.api.saved != w.api.saved {
          IncludedEverywhere(w, env);
          assert false;
        }
      } else {
        assert ip in NewlyExcluded(w, env);
        assert i == Target(w);
        NewExclusionIsRecorded(w, env, q);
      }
    }
  }

  /** A pass that excludes an IP leaves a restart of that pod on record. */
  lemma NewExclusionIsRecorded(w: World, env: Env, q: nat)
    requires Inv(w) && Honest(w, env) && Synced(w) && NewlyExcluded(w, env) != {}
    requires var api := RestartPass(w.api, w.replicas, w.report, env);
      q < |api.proxies| == |w.api.proxies| && api.proxies[q] != w.api.proxies[q]
    ensures AtOrdinal(Apply(w, Coordinate(env)), Target(w))
  {
  }

  lemma StepBooks(w: World, s: Step)
    requires Books(w) && Enabled(w, s) && Steady(s) && KeepsOrFresh(w, s) && !GivesUpInclude(w, s)
    ensures Books(Apply(w, s))
  {
    var w' := Apply(w, s);
    StepInv(w, s);
    StepLedger(w, s);
    if s.Coordinate? {
      PassContained(w, s.env);
    } else {
      assert forall ip: IP :: Excluded(w', ip) ==> Excluded(w, ip);
    }
  }

  lemma {:induction false} RunBooks(ws: seq<World>, steps: seq<Step>, j: nat)
    requires IsRun(ws, steps) && Init(ws[0]) && j < |ws|
    requires forall a :: 0 <= a < |steps| ==> KeepsOrFresh(ws[a], steps[a]) && !GivesUpInclude(ws[a], steps[a])
    ensures Books(ws[j])
  {
    if j == 0 {
      InitInv(ws[0]);
    } else {
      RunBooks(ws, steps, j - 1);
      StepBooks(ws[j - 1], steps[j - 1]);
    }
  }

  /** While a restart is recorded, the only live backend a proxy can be skipping
      is the pod at the current ordinal; in Completed there is none. */
  lemma OnlyTheCurrentPodIsExcluded(ws: seq<World>, steps: seq<Step>, j: nat, i: nat)
    requires IsRun(ws, steps) && Init(ws[0]) && j < |ws|
    requires forall a :: 0 <= a < |steps| ==> KeepsOrFresh(ws[a], steps[a]) && !GivesUpInclude(ws[a], steps[a])
    requires ws[j].api.saved.Some? && LiveExcluded(ws[j], i)
    ensures AtOrdinal(ws[j], i)
  {
    RunBooks(ws, steps, j);
  }

  lemma CompletionClears(w: World, s: Step)
    requires Books(w) && Enabled(w, s)
    requires w.api.saved.Some? && w.api.saved.value.phase == Completed && Apply(w, s).api.saved.None?
    ensures Done(Apply(w, s).report) && Apply(w, s).hist.residue.None?
  {
    OnlyPassesMoveTheRecord(w, s);
    PassEdge(w, s.env);
  }

  lemma ClearedStep(w: World, s: Step)
    requires Enabled(w, s) && Steady(s) && w.api.saved.None? && Done(w.report) && w.hist.residue.None?
    ensures var w' := Apply(w, s); w'.api.saved.None? && Done(w'.report) && w'.hist.residue.None?
  {
  }

  lemma {:induction false} ClearedStaysCleared(ws: seq<World>, steps: seq<Step>, r: nat, j: nat)
    requires IsRun(ws, steps) && Init(ws[0]) && r < j < |ws|
    requires forall a :: 0 <= a < |steps| ==> KeepsOrFresh(ws[a], steps[a]) && !GivesUpInclude(ws[a], steps[a])
    requires ws[r].api.saved.Some? && ws[r].api.saved.value.phase == Completed && ws[r + 1].api.saved.None?
    ensures ws[j].api.saved.None? && Done(ws[j].report) && ws[j].hist.residue.None?
    decreases j
  {
    if j == r + 1 {
      RunBooks(ws, steps, r);
      CompletionClears(ws[r], steps[r]);
    } else {
      ClearedStaysCleared(ws, steps, r, j - 1);
      ClearedStep(ws[j - 1], steps[j - 1]);
    }
  }

  /** Once a restart has been cleared from Completed no live backend is skipped. */
  lemma NoneExcludedAfterCompletion(ws: seq<World>, steps: seq<Step>, r: nat, j: nat, i: nat)
    requires IsRun(ws, steps) && Init(ws[0]) && r < j < |ws|
    requires forall a :: 0 <= a < |steps| ==> KeepsOrFresh(ws[a], steps[a]) && !GivesUpInclude(ws[a], steps[a])
    requires ws[r].api.saved.Some? && ws[r].api.saved.value.phase == Completed && ws[r + 1].api.saved.None?
    ensures !LiveExcluded(ws[j], i)
  {
    RunBooks(ws, steps, j);
    ClearedStaysCleared(ws, steps, r, j);
  }

  // ---------- with fresh IPs includes do not matter ----------

  /** A recreated pod never gets an IP seen before. */
  predicate AlwaysFresh(w: World, s: Step) {
    s.AssignIP? ==> s.ip !in w.used
  }

  ghost predicate OutdatedOnly(w: World) {
    && Inv(w) && Ledger(w)
    && forall i: nat :: LiveExcluded(w, i) ==> !OnUpdate(w, i) && AtOrdinal(w, i)
  }

  lemma PassOutdatedOnly(w: World, env: Env)
    requires OutdatedOnly(w) && Honest(w, env) && Synced(w)
    ensures OutdatedOnly(Apply(w, Coordinate(env)))
  {
    var w' := Apply(w, Coordinate(env));
    CoordinateInv(w, env);
    PassLedger(w, env);
    PassProxies(w, env);
    PassEdge(w, env);
    forall i: nat | LiveExcluded(w', i)
      ensures !OnUpdate(w', i) && AtOrdinal(w', i)
    {
      var ip := w.slots[i].value.ip.value;
      var q :| 0 <= q < |w'.api.proxies| && ip in w'.api.proxies[q].excluded;
      if ip in w.api.proxies[q].excluded {
        assert Excluded(w, ip) && LiveExcluded(w, i);
        assert Present(w', i) && !OnUpdate(w', i);
        assert w'.api.saved.Some? ==> !Behind(w', i);
      } else {
        assert ip in NewlyExcluded(w, env);
        assert w.lastIP[i] == w.slots[i].value.ip;
        assert i == Target(w);
        NewExclusionIsRecorded(w, env, q);
      }
    }
  }

  lemma OthersExcludeNobody(w: World, s: Step)
    requires Ledger(w) && Enabled(w, s) && Steady(s) && !s.Coordinate? && AlwaysFresh(w, s)
    ensures forall i: nat :: LiveExcluded(Apply(w, s), i) ==>
      LiveExcluded(w, i) && OnUpdate(Apply(w, s), i) == OnUpdate(w, i) && AtOrdinal(Apply(w, s), i) == AtOrdinal(w, i)
  {
    hide RestartPass, Reportable, RolloutPartition;
    assert forall ip: IP :: Excluded(Apply(w, s), ip) ==> Excluded(w, ip);
    assert s.AssignIP? ==> !Excluded(w, s.ip);
  }

  lemma StepOutdatedOnly(w: World, s: Step)
    requires OutdatedOnly(w) && Enabled(w, s) && Steady(s) && AlwaysFresh(w, s)
    ensures OutdatedOnly(Apply(w, s))
  {
    if s.Coordinate? {
      PassOutdatedOnly(w, s.env);
    } else {
      StepInv(w, s);
      StepLedger(w, s);
      OthersExcludeNobody(w, s);
      hide Apply, Inv, Ledger;
    }
  }

  /** With fresh IPs the same holds whatever the proxies answer, and nothing at
      all is skipped when no restart is recorded. */
  lemma {:induction false} FreshPodsAreNeverExcluded(ws: seq<World>, steps: seq<Step>, j: nat)
    requires IsRun(ws, steps) && Init(ws[0]) && j < |ws|
    requires forall a :: 0 <= a < |steps| ==> AlwaysFresh(ws[a], steps[a])
    ensures OutdatedOnly(ws[j])
    ensures forall i: nat :: LiveExcluded(ws[j], i) ==> !OnUpdate(ws[j], i) && AtOrdinal(ws[j], i)
  {
    if j == 0 {
      InitInv(ws[0]);
    } else {
      FreshPodsAreNeverExcluded(ws, steps, j - 1);
      StepOutdatedOnly(ws[j - 1], steps[j - 1]);
    }
  }
}
