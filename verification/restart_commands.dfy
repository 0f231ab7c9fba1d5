/** What a proxy skips is what its process was last told, over every history,
    and so what a restart that is dropped leaves behind. */
module RestartCommands {
  import opened Common
  import opened RestartState
  import opened RestartWorld
  import opened RestartSafety
  import opened RestartExclusion

  /** Proxy processes are told apart, and their ids are never used again. */
  ghost predicate Registered(w: World) {
    && (forall k :: 0 <= k < |w.api.proxies| ==> w.api.proxies[k].pid in w.pids)
    && (forall k, l :: 0 <= k < l < |w.api.proxies| ==> w.api.proxies[k].pid != w.api.proxies[l].pid)
  }

  lemma PassProcesses(w: World, env: Env)
    ensures var ps := RestartPass(w.api, w.replicas, w.report, env).proxies;
      |ps| == |w.api.proxies| && forall k :: 0 <= k < |ps| ==> ps[k].pid == w.api.proxies[k].pid
  {
    PassSendsOrders(w, env);
    if Orders(w, env).Some? {
      SweepExactly(Orders(w, env).value.0, w.api.proxies, Orders(w, env).value.1, env.answers, 0);
    }
  }

  lemma StepRegistered(w: World, s: Step)
    requires Registered(w) && Enabled(w, s)
    ensures Registered(Apply(w, s)) && w.pids <= Apply(w, s).pids
  {
    if s.Coordinate? {
      PassProcesses(w, s.env);
    } else if s.ProxiesChange? {
      assert forall k :: 0 <= k < |s.proxies| ==> s.proxies[k] in s.proxies;
    }
  }

  lemma {:induction false} RunRegistered(ws: seq<World>, steps: seq<Step>, j: nat)
    requires IsHistory(ws, steps) && Init(ws[0]) && j < |ws|
    ensures Registered(ws[j])
  {
    if j > 0 {
      RunRegistered(ws, steps, j - 1);
      StepRegistered(ws[j - 1], steps[j - 1]);
    }
  }

  lemma {:induction false} PidsGrow(ws: seq<World>, steps: seq<Step>, a: nat, b: nat)
    requires IsHistory(ws, steps) && a <= b < |ws|
    ensures ws[a].pids <= ws[b].pids
    decreases b
  {
    if a < b {
      PidsGrow(ws, steps, a, b - 1);
    }
  }

  // ---------- one pass ----------

  /** A pass changes what process `pid` skips exactly by the command it carried out. */
  lemma PassTells(w: World, env: Env, k: nat, ip: IP)
    requires Registered(w) && Honest(w, env) && Synced(w) && k < |w.api.proxies|
    ensures var ps := Apply(w, Coordinate(env)).api.proxies;
      && |ps| == |w.api.proxies| && ps[k].pid == w.api.proxies[k].pid
      && (ip in ps[k].excluded <==>
            || CarriedOut(Exclude, w, Coordinate(env), ps[k].pid, ip)
            || (ip in w.api.proxies[k].excluded && !CarriedOut(Include, w, Coordinate(env), ps[k].pid, ip)))
  {
    var ps, orders := w.api.proxies, Orders(w, env);
    PassSendsOrders(w, env);
    if orders.Some? && env.listOk {
      var (cmd, told) := orders.value;
      SweepExactly(cmd, ps, told, env.answers, 0);
      assert CarriedOut(cmd, w, Coordinate(env), ps[k].pid, told) <==>
        ps[k].running && Reached(cmd, ps, env.answers, 0, k) && TakesEffect(cmd, env.answers(k)) by {
        forall q: nat | q < |ps| && ps[q].pid == ps[k].pid
          ensures q == k
        {
        }
      }
    }
  }

  /** In every step a proxy is either the process it was, told what the step told
      it, or a new process that has been told nothing. */
  lemma StepTells(w: World, s: Step, k: nat, ip: IP) returns (l: nat)
    requires Registered(w) && Enabled(w, s) && k < |Apply(w, s).api.proxies|
    ensures var p := Apply(w, s).api.proxies[k];
      if l == |w.api.proxies| then s.ProxiesChange? && p.pid !in w.pids && ip !in p.excluded
      else
        && l < |w.api.proxies| && w.api.proxies[l].pid == p.pid
        && (ip in p.excluded <==>
              CarriedOut(Exclude, w, s, p.pid, ip) || (ip in w.api.proxies[l].excluded && !CarriedOut(Include, w, s, p.pid, ip)))
  {
    if s.Coordinate? {
      PassTells(w, s.env, k, ip);
      l := k;
    } else if s.ProxiesChange? && s.proxies[k] !in w.api.proxies {
      l := |w.api.proxies|;
    } else {
      l :| l < |w.api.proxies| && w.api.proxies[l] == Apply(w, s).api.proxies[k];
    }
  }

  // ---------- whole histories ----------

  /** Some step before `j` made `pid` skip `ip`, and none since took that back. */
  ghost predicate LastTold(ws: seq<World>, steps: seq<Step>, j: nat, pid: nat, ip: IP)
    requires j <= |steps| < |ws|
  {
    exists c :: 0 <= c < j && CarriedOut(Exclude, ws[c], steps[c], pid, ip) &&
                forall m :: c < m < j ==> !CarriedOut(Include, ws[m], steps[m], pid, ip)
  }

  lemma LastToldStep(ws: seq<World>, steps: seq<Step>, j: nat, pid: nat, ip: IP)
    requires 0 < j <= |steps| < |ws|
    ensures LastTold(ws, steps, j, pid, ip) <==>
      || CarriedOut(Exclude, ws[j - 1], steps[j - 1], pid, ip)
      || (LastTold(ws, steps, j - 1, pid, ip) && !CarriedOut(Include, ws[j - 1], steps[j - 1], pid, ip))
  {
    hide CarriedOut;
    if LastTold(ws, steps, j - 1, pid, ip) && !CarriedOut(Include, ws[j - 1], steps[j - 1], pid, ip) {
      var c :| 0 <= c < j - 1 && CarriedOut(Exclude, ws[c], steps[c], pid, ip) &&
               forall m :: c < m < j - 1 ==> !CarriedOut(Include, ws[m], steps[m], pid, ip);
      assert forall m :: c < m < j ==> !CarriedOut(Include, ws[m], steps[m], pid, ip);
    }
  }

  lemma NewProcessesWereNotTold(ws: seq<World>, steps: seq<Step>, j: nat, pid: nat, ip: IP)
    requires IsHistory(ws, steps) && Init(ws[0]) && j <= |steps| && pid !in ws[j].pids
    ensures !LastTold(ws, steps, j, pid, ip)
  {
    forall c | 0 <= c < j
      ensures !CarriedOut(Exclude, ws[c], steps[c], pid, ip)
    {
      RunRegistered(ws, steps, c);
      PidsGrow(ws, steps, c, j);
    }
  }

  ghost predicate SkipsAsTold(ws: seq<World>, steps: seq<Step>, j: nat, k: nat, ip: IP)
    requires j <= |steps| < |ws| && k < |ws[j].api.proxies|
  {
    ip in ws[j].api.proxies[k].excluded <==> LastTold(ws, steps, j, ws[j].api.proxies[k].pid, ip)
  }

  lemma SkipsAsToldStep(ws: seq<World>, steps: seq<Step>, j: nat, k: nat, ip: IP) returns (l: nat)
    requires IsHistory(ws, steps) && Init(ws[0]) && 0 < j < |ws| && k < |ws[j].api.proxies|
    ensures l < |ws[j - 1].api.proxies| || SkipsAsTold(ws, steps, j, k, ip)
    ensures l < |ws[j - 1].api.proxies| && SkipsAsTold(ws, steps, j - 1, l, ip) ==> SkipsAsTold(ws, steps, j, k, ip)
  {
    hide LastTold, CarriedOut, Apply, Enabled, Init, Registered;
    var w, s, p := ws[j - 1], steps[j - 1], ws[j].api.proxies[k];
    LastToldStep(ws, steps, j, p.pid, ip);
    RunRegistered(ws, steps, j - 1);
    l := StepTells(w, s, k, ip);
    if l == |w.api.proxies| {
      NewProcessesWereNotTold(ws, steps, j - 1, p.pid, ip);
      OnlyPassesTell(w, s, p.pid, ip);
    }
  }

  /** Over every history, scaling and template changes included: a proxy process
      skips an address exactly when the last command it carried out for it was to
      exclude it. */
  lemma {:induction false} ExclusionsAreWhatWasTold(ws: seq<World>, steps: seq<Step>, j: nat, k: nat, ip: IP)
    requires IsHistory(ws, steps) && Init(ws[0]) && j < |ws| && k < |ws[j].api.proxies|
    ensures ip in ws[j].api.proxies[k].excluded <==> LastTold(ws, steps, j, ws[j].api.proxies[k].pid, ip)
    decreases j
  {
    if j == 0 {
      NothingToldYet(ws, steps, k, ip);
    } else {
      hide LastTold, Apply, Enabled, Init;
      var l := SkipsAsToldStep(ws, steps, j, k, ip);
      if l < |ws[j - 1].api.proxies| {
        ExclusionsAreWhatWasTold(ws, steps, j - 1, l, ip);
      }
    }
  }

  lemma NothingToldYet(ws: seq<World>, steps: seq<Step>, k: nat, ip: IP)
    requires |ws| == |steps| + 1 && Init(ws[0]) && k < |ws[0].api.proxies|
    ensures ip !in ws[0].api.proxies[k].excluded && !LastTold(ws, steps, 0, ws[0].api.proxies[k].pid, ip)
  {
  }

  lemma OnlyPassesTell(w: World, s: Step, pid: nat, ip: IP)
    requires !s.Coordinate?
    ensures !CarriedOut(Exclude, w, s, pid, ip)
  {
  }
}
