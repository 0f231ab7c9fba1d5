/** Dropping departed nodes from the Raft voter set.  The group is a black box
    that answers or not, and whose leader may change before every call. */
module RaftVoters {
  import opened Common

  /** A node's answer to "who leads?". */
  datatype Voice = Silent | Leaderless | Names(leader: nat)

  /** The leader's answer to a remove call.  `DoneUnseen` was carried out
      although the caller saw an error. */
  datatype Reply = Done | DoneUnseen | Failed

  /** The world around one removal: what each node says, who really leads by the
      time the call arrives, and how the leader answers. */
  datatype Round = Round(voices: nat -> Voice, leader: Option<nat>, reply: Reply)

  // ---------- finding the leader ----------

  predicate Usable(hosts: map<nat, string>, voices: nat -> Voice, id: nat) {
    id in hosts && voices(id).Names? && voices(id).leader in hosts
  }

  /** The id whose answer is used: the least one that names a known host. */
  ghost predicate Informant(hosts: map<nat, string>, voices: nat -> Voice, id: nat) {
    Usable(hosts, voices, id) && forall j: nat :: j < id ==> !Usable(hosts, voices, j)
  }

  ghost function LeaderHost(hosts: map<nat, string>, voices: nat -> Voice): Option<string> {
    if id: nat :| Informant(hosts, voices, id) then Some(hosts[voices(id).leader]) else None
  }

  method SortedIds(hosts: map<nat, string>) returns (ids: seq<nat>)
    ensures Ascending(ids)
    ensures forall id: nat :: id in ids <==> id in hosts
  {
    ids := [];
    var rest := hosts.Keys;
    while rest != {}
      invariant rest <= hosts.Keys
      invariant forall id: nat :: id in ids <==> id in hosts.Keys - rest
      invariant forall a, b :: 0 <= a < |ids| && b in rest ==> ids[a] < b
      invariant Ascending(ids)
      decreases |rest|
    {
      var least := Least(rest);
      ids := ids + [least];
      rest := rest - {least};
    }
  }

  method Least(s: set<nat>) returns (m: nat)
    requires s != {}
    ensures m in s && forall x :: x in s ==> m <= x
  {
    m :| m in s;
    var seen := {m};
    while seen != s
      invariant m in seen && seen <= s
      invariant forall x :: x in seen ==> m <= x
      decreases |s - seen|
    {
      var x :| x in s - seen;
      if x < m {
        m := x;
      }
      assert s - seen == (s - (seen + {x})) + {x};
      seen := seen + {x};
    }
  }

  /** raftLeaderHost: the answer does not depend on the order in which the host
      map is walked, and there is one exactly when some node names a known host. */
  method RaftLeaderHost(hosts: map<nat, string>, voices: nat -> Voice) returns (host: Option<string>)
    ensures host == LeaderHost(hosts, voices)
    ensures host.None? <==> forall id: nat :: !Usable(hosts, voices, id)
  {
    var ids := SortedIds(hosts);
    var i := 0;
    while i < |ids|
      invariant 0 <= i <= |ids|
      invariant forall k :: 0 <= k < i ==> !Usable(hosts, voices, ids[k])
    {
      var voice := voices(ids[i]);
      if voice.Names? && voice.leader in hosts {
        forall j: nat | j < ids[i]
          ensures !Usable(hosts, voices, j)
        {
          if j in hosts {
            var k :| 0 <= k < |ids| && ids[k] == j;
            assert k < i;
          }
        }
        assert Informant(hosts, voices, ids[i]);
        return Some(hosts[voice.leader]);
      }
      i := i + 1;
    }
    forall id: nat
      ensures !Usable(hosts, voices, id)
    {
      if id in hosts {
        var k :| 0 <= k < |ids| && ids[k] == id;
      }
    }
    return None;
  }

  // ---------- removing voters ----------

  predicate Reaches(hosts: map<nat, string>, host: string, leader: Option<nat>) {
    leader.Some? && leader.value in hosts && hosts[leader.value] == host
  }

  /** One remove call: only the real leader acts on it. */
  function Removed(voters: set<nat>, hosts: map<nat, string>, host: string, id: nat, r: Round): (set<nat>, bool) {
    if !Reaches(hosts, host, r.leader) then (voters, false)
    else
      match r.reply
      case Done => (voters - {id}, true)
      case DoneUnseen => (voters - {id}, false)
      case Failed => (voters, false)
  }

  ghost function RemoveOne(voters: set<nat>, hosts: map<nat, string>, id: nat, r: Round): (set<nat>, bool) {
    match LeaderHost(hosts, r.voices)
    case None => (voters, false)
    case Some(host) => Removed(voters, hosts, host, id, r)
  }

  /** Removing `departed[i..]` one by one, looking the leader up every time and
      stopping at the first error. */
  ghost function RemoveFrom(voters: set<nat>, hosts: map<nat, string>, departed: seq<nat>, rounds: nat -> Round, i: nat): (set<nat>, bool)
    requires i <= |departed|
    decreases |departed| - i
  {
    if i == |departed| then (voters, true)
    else
      var (v, ok) := RemoveOne(voters, hosts, departed[i], rounds(i));
      if ok then RemoveFrom(v, hosts, departed, rounds, i + 1) else (v, false)
  }

  ghost function RemoveAll(voters: set<nat>, hosts: map<nat, string>, departed: seq<nat>, rounds: nat -> Round): (set<nat>, bool) {
    RemoveFrom(voters, hosts, departed, rounds, 0)
  }

  class RaftGroup {
    var voters: set<nat>

    constructor (v: set<nat>)
      ensures voters == v
    {
      voters := v;
    }

    method RemoveClusterNode(hosts: map<nat, string>, host: string, id: nat, r: Round) returns (ok: bool)
      modifies this
      ensures (voters, ok) == Removed(old(voters), hosts, host, id, r)
    {
      ok := false;
      if Reaches(hosts, host, r.leader) {
        if !r.reply.Failed? {
          voters := voters - {id};
        }
        ok := r.reply.Done?;
      }
    }
  }

  method RemoveDepartedVoters(group: RaftGroup, hosts: map<nat, string>, departed: seq<nat>, rounds: nat -> Round)
    returns (ok: bool)
    modifies group
    ensures (group.voters, ok) == RemoveAll(old(group.voters), hosts, departed, rounds)
  {
    var i := 0;
    while i < |departed|
      invariant 0 <= i <= |departed|
      invariant RemoveFrom(group.voters, hosts, departed, rounds, i) == RemoveAll(old(group.voters), hosts, departed, rounds)
    {
      var host := RaftLeaderHost(hosts, rounds(i).voices);
      if host.None? {
        return false;
      }
      var sent := group.RemoveClusterNode(hosts, host.value, departed[i], rounds(i));
      if !sent {
        return false;
      }
      i := i + 1;
    }
    return true;
  }

  // ---------- what follows ----------

  function SetOf(s: seq<nat>): set<nat> {
    set x | x in s
  }

  lemma {:induction false} RemovalFrom(voters: set<nat>, hosts: map<nat, string>, departed: seq<nat>, rounds: nat -> Round, i: nat)
    requires i <= |departed|
    ensures var (v, ok) := RemoveFrom(voters, hosts, departed, rounds, i);
      && voters - SetOf(departed[i..]) <= v <= voters
      && (ok ==> v == voters - SetOf(departed[i..]))
    decreases |departed| - i
  {
    if i < |departed| {
      var (v, ok) := RemoveOne(voters, hosts, departed[i], rounds(i));
      assert departed[i..] == [departed[i]] + departed[i + 1..];
      assert SetOf(departed[i..]) == {departed[i]} + SetOf(departed[i + 1..]);
      RemovalFrom(v, hosts, departed, rounds, i + 1);
    }
  }

  /** Survivors are never removed, and on success nobody else is left, for any
      leader changes (a leader removing itself included) and any lost answers. */
  lemma RemovalIsExact(voters: set<nat>, hosts: map<nat, string>, departed: seq<nat>, rounds: nat -> Round)
    ensures var (v, ok) := RemoveAll(voters, hosts, departed, rounds);
      && voters - SetOf(departed) <= v <= voters
      && (ok ==> v == voters - SetOf(departed))
  {
    RemovalFrom(voters, hosts, departed, rounds, 0);
    assert departed[0..] == departed;
  }

  /** Some node of `hosts` names a node of `hosts` as the leader; the one with the
      least id to do so is right, and that leader carries the call out. */
  ghost predicate RoundWorks(hosts: map<nat, string>, r: Round) {
    exists id: nat ::
      && id in hosts && r.voices(id).Names? && r.voices(id).leader in hosts
      && (forall j: nat :: j < id && j in hosts && r.voices(j).Names? ==> r.voices(j).leader !in hosts)
      && r.leader.Some? && r.leader.value in hosts && hosts[r.leader.value] == hosts[r.voices(id).leader] && r.reply == Done
  }

  /** The least id that names a known host decides. */
  lemma LeaderHostIs(hosts: map<nat, string>, voices: nat -> Voice, id: nat)
    requires id in hosts && voices(id).Names? && voices(id).leader in hosts
    requires forall j: nat :: j < id && j in hosts && voices(j).Names? ==> voices(j).leader !in hosts
    ensures LeaderHost(hosts, voices) == Some(hosts[voices(id).leader])
  {
    assert Informant(hosts, voices, id);
    forall j: nat | Informant(hosts, voices, j)
      ensures j == id
    {
      assert !(j < id) && !(id < j);
    }
  }

  lemma RemoveOneSucceedsExactly(voters: set<nat>, hosts: map<nat, string>, id: nat, r: Round)
    ensures RemoveOne(voters, hosts, id, r).1 <==> RoundWorks(hosts, r)
  {
    if i: nat :| Informant(hosts, r.voices, i) {
      forall j: nat | j < i && j in hosts && r.voices(j).Names?
        ensures r.voices(j).leader !in hosts
      {
        assert !Usable(hosts, r.voices, j);
      }
      LeaderHostIs(hosts, r.voices, i);
    }
    if RoundWorks(hosts, r) {
      var i: nat :| i in hosts && r.voices(i).Names? && r.voices(i).leader in hosts
        && (forall j: nat :: j < i && j in hosts && r.voices(j).Names? ==> r.voices(j).leader !in hosts)
        && r.leader.Some? && r.leader.value in hosts && hosts[r.leader.value] == hosts[r.voices(i).leader] && r.reply == Done;
      LeaderHostIs(hosts, r.voices, i);
    }
  }

  /** All departed nodes are removed exactly when every round works. */
  lemma {:induction false} RemovalSucceedsExactly(voters: set<nat>, hosts: map<nat, string>, departed: seq<nat>, rounds: nat -> Round, i: nat)
    requires i <= |departed|
    ensures RemoveFrom(voters, hosts, departed, rounds, i).1 <==> forall k: nat :: i <= k < |departed| ==> RoundWorks(hosts, rounds(k))
    decreases |departed| - i
  {
    hide RoundWorks;
    if i < |departed| {
      RemoveOneSucceedsExactly(voters, hosts, departed[i], rounds(i));
      RemovalSucceedsExactly(RemoveOne(voters, hosts, departed[i], rounds(i)).0, hosts, departed, rounds, i + 1);
    }
  }

  /** And nothing is asked after the first round that does not. */
  lemma {:induction false} StopsAtFirstError(voters: set<nat>, hosts: map<nat, string>, departed: seq<nat>, rounds: nat -> Round, i: nat, k: nat)
    requires i <= k < |departed| && !RoundWorks(hosts, rounds(k))
    ensures voters - SetOf(departed[i..k + 1]) <= RemoveFrom(voters, hosts, departed, rounds, i).0
    decreases |departed| - i
  {
    hide RoundWorks;
    RemoveOneSucceedsExactly(voters, hosts, departed[i], rounds(i));
    assert departed[i] in departed[i..k + 1];
    if i < k {
      var v := RemoveOne(voters, hosts, departed[i], rounds(i)).0;
      StopsAtFirstError(v, hosts, departed, rounds, i + 1, k);
      assert departed[i..k + 1] == [departed[i]] + departed[i + 1..k + 1];
    }
  }

  /** Any number of failed attempts followed by a successful one ends where a
      single clean run ends. */
  lemma {:induction false} RetriesConverge(voters: seq<set<nat>>, hosts: map<nat, string>, departed: seq<nat>,
                        attempts: seq<nat -> Round>, clean: nat -> Round)
    requires |voters| == |attempts| + 1 && attempts != []
    requires forall k :: 0 <= k < |attempts| ==> voters[k + 1] == RemoveAll(voters[k], hosts, departed, attempts[k]).0
    requires RemoveAll(voters[|attempts| - 1], hosts, departed, attempts[|attempts| - 1]).1
    requires RemoveAll(voters[0], hosts, departed, clean).1
    ensures voters[|attempts|] == RemoveAll(voters[0], hosts, departed, clean).0
    decreases |attempts|
  {
    var last := |attempts| - 1;
    RemovalIsExact(voters[0], hosts, departed, clean);
    RemovalIsExact(voters[last], hosts, departed, attempts[last]);
    AttemptsKeepSurvivors(voters, hosts, departed, attempts, last);
  }

  lemma {:induction false} AttemptsKeepSurvivors(voters: seq<set<nat>>, hosts: map<nat, string>, departed: seq<nat>,
                              attempts: seq<nat -> Round>, k: nat)
    requires |voters| == |attempts| + 1 && k < |voters|
    requires forall j :: 0 <= j < |attempts| ==> voters[j + 1] == RemoveAll(voters[j], hosts, departed, attempts[j]).0
    ensures voters[0] - SetOf(departed) <= voters[k] <= voters[0]
  {
    if k > 0 {
      AttemptsKeepSurvivors(voters, hosts, departed, attempts, k - 1);
      RemovalIsExact(voters[k - 1], hosts, departed, attempts[k - 1]);
    }
  }

  /** One removal moves the voter set by at most one node. */
  lemma OneStepAtATime(voters: set<nat>, hosts: map<nat, string>, id: nat, r: Round)
    ensures var v := RemoveOne(voters, hosts, id, r).0;
      v <= voters && |voters - v| <= 1
  {
    var v := RemoveOne(voters, hosts, id, r).0;
    assert voters - v <= {id};
    if id in voters - v {
      assert voters - v == {id};
    } else {
      assert voters - v == {};
    }
  }

  predicate Majority(quorum: set<nat>, voters: set<nat>) {
    quorum <= voters && 2 * |quorum| > |voters|
  }

  /** So a majority before a removal and a majority after it share a node: what
      the old voters committed, the new voters know. */
  lemma MajoritiesIntersect(voters: set<nat>, hosts: map<nat, string>, id: nat, r: Round, before: set<nat>, after: set<nat>)
    requires Majority(before, voters)
    requires Majority(after, RemoveOne(voters, hosts, id, r).0)
    ensures before * after != {}
  {
    var v := RemoveOne(voters, hosts, id, r).0;
    OneStepAtATime(voters, hosts, id, r);
    assert |voters| == |v| + |voters - v| by {
      assert voters == v + (voters - v);
    }
    if before * after == {} {
      assert |before + after| == |before| + |after|;
      SubsetIsSmaller(before + after, voters);
    }
  }
}
