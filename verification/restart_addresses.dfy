/** Whether the pod that is replaced is the one whose address was excluded. */
module RestartAddresses {
  import opened Common
  import opened RestartState
  import opened RestartWorld
  import opened RestartSafety
  import opened RestartExclusion
  import opened RestartLostWrites

  /** The live pod at ordinal `i` has address `ip`. */
  predicate HasAddress(w: World, i: nat, ip: IP) {
    Present(w, i) && w.slots[i].value.ip == Some(ip)
  }

  lemma ExcludedAddress(w: World, s: Step, i: nat, t: int)
    requires Enabled(w, s) && ExcludedAt(w, s, i, t)
    ensures HasAddress(w, i, s.env.pods(i).pod.ip.value)
  {
    assert s.env.pods(i) == Observed(w, i);
  }

  lemma {:induction false} AddressStays(ws: seq<World>, steps: seq<Step>, e: nat, r: nat, i: nat, ip: IP)
    requires IsRun(ws, steps) && e <= r < |ws| && HasAddress(ws[e], i, ip)
    requires forall m :: e <= m < r ==> steps[m] != Vanish(i)
    ensures HasAddress(ws[r], i, ip)
    decreases r
  {
    if e < r {
      AddressStays(ws, steps, e, r - 1, i, ip);
      assert ws[r - 1 + 1] == ws[r];
      KeepsAddress(ws[r - 1], steps[r - 1], i, ip);
    }
  }

  lemma KeepsAddress(w: World, s: Step, i: nat, ip: IP)
    requires Enabled(w, s) && HasAddress(w, i, ip) && s != Vanish(i)
    ensures HasAddress(Apply(w, s), i, ip)
  {
  }

  /** The pod that is replaced has the address that was excluded, unless a pod of
      that ordinal was lost in between. */
  lemma ReplacedPodWasExcluded(ws: seq<World>, steps: seq<Step>, r: nat)
    requires IsRun(ws, steps) && Init(ws[0]) && r < |steps| && steps[r].Replace?
    ensures exists e, d ::
              && 0 <= e < d < r
              && DrainedAt(ws[d], steps[d], steps[r].i)
              && ExcludedAt(ws[e], steps[e], steps[r].i, ws[d].api.saved.value.startedAt)
              && ((forall m :: e <= m < r ==> steps[m] != Vanish(steps[r].i)) ==>
                    HasAddress(ws[r], steps[r].i, steps[e].env.pods(steps[r].i).pod.ip.value))
  {
    var i := steps[r].i;
    ReplacedOnlyAfterDrain(ws, steps, r);
    var e, d :| 0 <= e < d < r && DrainedAt(ws[d], steps[d], i) && ExcludedAt(ws[e], steps[e], i, ws[d].api.saved.value.startedAt);
    hide Apply, Enabled, Init;
    if forall m :: e <= m < r ==> steps[m] != Vanish(i) {
      ExcludedAddress(ws[e], steps[e], i, ws[d].api.saved.value.startedAt);
      AddressStays(ws, steps, e, r, i, steps[e].env.pods(i).pod.ip.value);
    }
  }

  // ---------- when addresses are never reused ----------

  lemma NeverAgain(w: World, s: Step, i: nat, ip: IP)
    requires Enabled(w, s) && AlwaysFresh(w, s) && ip in w.used && !HasAddress(w, i, ip)
    ensures ip in Apply(w, s).used && !HasAddress(Apply(w, s), i, ip)
  {
  }

  lemma {:induction false} GoneForGood(ws: seq<World>, steps: seq<Step>, m: nat, r: nat, i: nat, ip: IP)
    requires IsRun(ws, steps) && m < r < |ws| && steps[m] == Vanish(i) && ip in ws[m].used
    requires forall a :: 0 <= a < |steps| ==> AlwaysFresh(ws[a], steps[a])
    ensures ip in ws[r].used && !HasAddress(ws[r], i, ip)
    decreases r
  {
    assert ws[r - 1 + 1] == ws[r];
    if m + 1 < r {
      GoneForGood(ws, steps, m, r - 1, i, ip);
      NeverAgain(ws[r - 1], steps[r - 1], i, ip);
    }
  }

  lemma {:induction false} UsedStays(ws: seq<World>, steps: seq<Step>, a: nat, b: nat, ip: IP)
    requires IsRun(ws, steps) && a <= b < |ws| && ip in ws[a].used
    ensures ip in ws[b].used
    decreases b
  {
    if a < b {
      UsedStays(ws, steps, a, b - 1, ip);
    }
  }

  /** Then a pod excluded at `e` still has that address at `r` exactly when no pod
      of its ordinal was lost in between. */
  lemma SameAddressExactly(ws: seq<World>, steps: seq<Step>, e: nat, r: nat, i: nat, t: int)
    requires IsRun(ws, steps) && Init(ws[0]) && e < r < |ws| && ExcludedAt(ws[e], steps[e], i, t)
    requires forall a :: 0 <= a < |steps| ==> AlwaysFresh(ws[a], steps[a])
    ensures HasAddress(ws[r], i, steps[e].env.pods(i).pod.ip.value) <==> forall m :: e <= m < r ==> steps[m] != Vanish(i)
  {
    var ip := steps[e].env.pods(i).pod.ip.value;
    FreshPodsAreNeverExcluded(ws, steps, e);
    ExcludedAddress(ws[e], steps[e], i, t);
    assert ip in ws[e].used;
    hide Apply, Enabled, Init, AlwaysFresh;
    if m :| e <= m < r && steps[m] == Vanish(i) {
      UsedStays(ws, steps, e, m, ip);
      GoneForGood(ws, steps, m, r, i, ip);
    } else {
      AddressStays(ws, steps, e, r, i, ip);
    }
  }

  // ---------- and when one is lost ----------

  /** One pod, one proxy. */
  function Pair(): World {
    Pool(1).(api := Api(None, 1, [Proxy(0, true, {})]), pids := {0})
  }

  /** The pair once the pod has been excluded. */
  function PairExcluded(): World {
    Pair().(api := Api(Some(Restart(0, 1, Draining, 0, Some(0), true)), 1, [Proxy(0, true, {0})]))
  }

  lemma PairIsExcluded()
    ensures Init(Pair()) && Enabled(Pair(), Sync) && Apply(Pair(), Sync) == Pair()
    ensures Enabled(Pair(), Coordinate(Quiet(Pair()))) && Apply(Pair(), Coordinate(Quiet(Pair()))) == PairExcluded()
  {
    var w := Pair();
    assert Present(w, 0) && !OnUpdate(w, 0);
    SweepExactly(Exclude, w.api.proxies, 0, Quiet(w).answers, 0);
    assert Reached(Exclude, w.api.proxies, Quiet(w).answers, 0, 0) && Reached(Exclude, w.api.proxies, Quiet(w).answers, 0, 1);
    assert SweepAll(Exclude, w.api.proxies, 0, Quiet(w)).0 == [Proxy(0, true, {0})];
    assert Quiet(w).pods(0) == Found(Pod("old", true, false, Some(0)));
  }

  /** A pod evicted while it drains comes back old under another address. */
  lemma EvictedWhileDraining(w: World, ip: IP) returns (ws: seq<World>, steps: seq<Step>)
    requires DrainingAtZero(w)
    ensures IsRun(ws, steps) && ws[0] == w && |steps| == 5
    ensures forall j :: 0 <= j < 5 ==> !steps[j].Coordinate?
    ensures ws[5].api == w.api && WaitIsOver(ws[5], 0) && HasAddress(ws[5], 0, ip) && ws[5].slots[0].value.ready
  {
    RecreatedOld(w);
    var w2 := Apply(Apply(w, Vanish(0)), Recreate(0));
    GetsReady(w2, ip);
    hide Apply, Enabled, WaitIsOver, HasAddress;
    var w3 := Apply(w2, AssignIP(0, ip));
    var w4 := Apply(w3, SetReady(0, true));
    ws := [w, Apply(w, Vanish(0)), w2, w3, w4, Apply(w4, Tick(DEFAULT_DRAIN_WAIT))];
    steps := [Vanish(0), Recreate(0), AssignIP(0, ip), SetReady(0, true), Tick(DEFAULT_DRAIN_WAIT)];
  }

  predicate DrainingAtZero(w: World) {
    && w.api.saved.Some? && w.api.saved.value.phase == Draining && w.api.saved.value.ordinal == 0 && Synced(w)
    && |w.slots| == |w.lastIP| == w.n && 1 <= w.replicas <= w.n && Present(w, 0) && !Done(w.report)
    && w.now >= w.api.saved.value.startedAt
  }

  lemma RecreatedOld(w: World)
    requires DrainingAtZero(w)
    ensures Enabled(w, Vanish(0)) && Enabled(Apply(w, Vanish(0)), Recreate(0))
    ensures var v := Apply(Apply(w, Vanish(0)), Recreate(0));
      DrainingAtZero(v) && v.slots[0] == Some(Pod(w.report.current, false, false, None)) && v.api == w.api && v.used == w.used
      && v.report == w.report
  {
  }

  lemma GetsReady(w: World, ip: IP)
    requires DrainingAtZero(w) && w.slots[0] == Some(Pod(w.report.current, false, false, None))
    ensures Enabled(w, AssignIP(0, ip)) && Enabled(Apply(w, AssignIP(0, ip)), SetReady(0, true))
    ensures var v := Apply(Apply(Apply(w, AssignIP(0, ip)), SetReady(0, true)), Tick(DEFAULT_DRAIN_WAIT));
      v.api == w.api && WaitIsOver(v, 0) && HasAddress(v, 0, ip) && v.slots[0].value.ready
  {
  }

  lemma ReleasedUnseen(w: World)
    requires WaitIsOver(w, 0)
    ensures Enabled(w, Coordinate(Quiet(w))) && Orders(w, Quiet(w)).None?
    ensures var v := Apply(w, Coordinate(Quiet(w)));
      Enabled(v, Replace(0)) && v.slots == w.slots && v.api.proxies == w.api.proxies
  {
    PassSendsOrders(w, Quiet(w));
  }

  /** Every call and write is accepted, and no pass orders `ip` excluded. */
  ghost predicate AcceptsWithout(ws: seq<World>, steps: seq<Step>, ip: IP)
    requires |ws| == |steps| + 1
  {
    forall j :: 0 <= j < |steps| && steps[j].Coordinate? ==>
      Accepts(steps[j].env) && Orders(ws[j], steps[j].env) != Some((Exclude, ip))
  }

  lemma AcceptedRunsJoin(vs: seq<World>, first: seq<Step>, us: seq<World>, second: seq<Step>, ip: IP)
    requires IsRun(vs, first) && IsRun(us, second) && vs[|first|] == us[0]
    requires AcceptsWithout(vs, first, ip) && AcceptsWithout(us, second, ip)
    ensures IsRun(vs + us[1..], first + second) && AcceptsWithout(vs + us[1..], first + second, ip)
  {
    var ws, steps := vs + us[1..], first + second;
    hide Enabled, Apply, Orders, Accepts;
    forall j | 0 <= j < |steps|
      ensures Enabled(ws[j], steps[j]) && ws[j + 1] == Apply(ws[j], steps[j]) && Steady(steps[j])
      ensures steps[j].Coordinate? ==> Accepts(steps[j].env) && Orders(ws[j], steps[j].env) != Some((Exclude, ip))
    {
      if j < |first| {
        assert ws[j] == vs[j] && ws[j + 1] == vs[j + 1] && steps[j] == first[j];
      } else {
        var m := j - |first|;
        assert ws[j] == us[m] && ws[j + 1] == us[m + 1] && steps[j] == second[m];
      }
    }
  }

  lemma PairRun() returns (ws: seq<World>, steps: seq<Step>)
    ensures IsRun(ws, steps) && Init(ws[0]) && |steps| == 2 && ws[2] == PairExcluded() && AcceptsWithout(ws, steps, 99)
  {
    PairIsExcluded();
    OnlyZeroIsTold();
    hide Apply, Enabled, Init, Pair, PairExcluded, Orders;
    ws, steps := [Pair(), Pair(), PairExcluded()], [Sync, Coordinate(Quiet(Pair()))];
  }

  lemma LastSteps(w: World) returns (ws: seq<World>, steps: seq<Step>)
    requires WaitIsOver(w, 0) && HasAddress(w, 0, 99) && w.slots[0].value.ready
    ensures IsRun(ws, steps) && ws[0] == w && |steps| == 2 && steps[1] == Replace(0) && AcceptsWithout(ws, steps, 99)
    ensures HasAddress(ws[1], 0, 99) && ws[1].slots[0].value.ready && ws[1].api.proxies == w.api.proxies
  {
    ReleasedUnseen(w);
    var released := Apply(w, Coordinate(Quiet(w)));
    assert HasAddress(released, 0, 99);
    hide Apply, Enabled, WaitIsOver, Orders, HasAddress;
    ws, steps := [w, released, Apply(released, Replace(0))], [Coordinate(Quiet(w)), Replace(0)];
  }

  /** A run from the start of a rollout that replaces a Ready pod whose address no
      pass ever ordered excluded, with every call and write accepted. */
  lemma ReplacedPodNeverExcluded() returns (ws: seq<World>, steps: seq<Step>)
    ensures IsRun(ws, steps) && Init(ws[0]) && |steps| == 9 && steps[8] == Replace(0) && AcceptsWithout(ws, steps, 99)
    ensures HasAddress(ws[8], 0, 99) && ws[8].slots[0].value.ready && ws[8].api.proxies == [Proxy(0, true, {0})]
  {
    var vs, first := PairRun();
    assert DrainingAtZero(vs[2]) && vs[2].api.proxies == [Proxy(0, true, {0})];
    hide Apply, Enabled, Init, WaitIsOver, Orders, HasAddress, PairExcluded, DrainingAtZero;
    var bs, second := EvictedWhileDraining(vs[2], 99);
    var cs, third := LastSteps(bs[5]);
    AcceptedRunsJoin(vs, first, bs, second, 99);
    AcceptedRunsJoin(vs + bs[1..], first + second, cs, third, 99);
    ws, steps := vs + bs[1..] + cs[1..], first + second + third;
  }

  lemma OnlyZeroIsTold()
    ensures Orders(Pair(), Quiet(Pair())) == Some((Exclude, 0))
  {
    assert Quiet(Pair()).pods(0) == Found(Pod("old", true, false, Some(0)));
  }
}
