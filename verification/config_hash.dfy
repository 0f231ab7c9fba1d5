/** The hash input is the configuration modulo scaling. */
module ConfigHash {
  import opened Common
  import opened Toml
  import opened ConfigSettings
  import opened ConfigFile
  import Compat
  import ConfigKeys

  // ---------- looking a setting up ----------

  function ValueOf(entries: seq<Entry>, key: string): Option<Value> {
    if entries == [] then None
    else
      var last := entries[|entries| - 1];
      if last.key == key then Some(last.value) else ValueOf(entries[..|entries| - 1], key)
  }

  function Lookup(doc: Doc, table: string, key: string): Option<Value> {
    if doc == [] then None
    else
      var last := doc[|doc| - 1];
      if last.name == table then ValueOf(last.entries, key) else Lookup(doc[..|doc| - 1], table, key)
  }

  /** The two settings scaling may change. */
  predicate Toggle(table: string, key: string) {
    table == "cluster" && key in {"enabled", "control_port"}
  }

  ghost predicate AgreeExceptToggles(a: Doc, b: Doc) {
    forall table, key :: !Toggle(table, key) ==> Lookup(a, table, key) == Lookup(b, table, key)
  }

  lemma LookupInLast(doc: Doc, s: Section, table: string, key: string)
    ensures Lookup(doc + [s], table, key) == if s.name == table then ValueOf(s.entries, key) else Lookup(doc, table, key)
  {
    assert (doc + [s])[..|doc + [s]| - 1] == doc;
  }

  // ---------- tables that differ in their toggles only ----------

  /** Slot by slot the same key, and the same value unless it is a toggle. */
  predicate SlotsAgree(a: seq<Slot>, b: seq<Slot>, table: string) {
    |a| == |b| && forall i :: 0 <= i < |a| ==> a[i].key == b[i].key && (a[i] == b[i] || Toggle(table, a[i].key))
  }

  predicate TablesAgree(a: seq<Table>, b: seq<Table>) {
    && |a| == |b|
    && (forall i :: 0 <= i < |a| ==>
          && a[i].name == b[i].name
          && (a[i] == b[i] || (a[i].slots.Some? && b[i].slots.Some? && SlotsAgree(a[i].slots.value, b[i].slots.value, a[i].name))))
  }

  lemma {:induction false} SameValue(a: seq<Slot>, b: seq<Slot>, table: string, key: string)
    requires SlotsAgree(a, b, table) && !Toggle(table, key)
    ensures ValueOf(Present(a), key) == ValueOf(Present(b), key)
  {
    hide Toggle, Present, ValueOf;
    if a != [] {
      var fa, fb, la, lb := a[..|a| - 1], b[..|b| - 1], a[|a| - 1], b[|b| - 1];
      SameValue(fa, fb, table, key);
      LastSlot(fa, la, key);
      LastSlot(fb, lb, key);
      assert a == fa + [la] && b == fb + [lb];
    }
  }

  lemma LastSlot(slots: seq<Slot>, s: Slot, key: string)
    ensures ValueOf(Present(slots + [s]), key) ==
      if s.key == key && s.value.Some? then s.value else ValueOf(Present(slots), key)
  {
    assert (slots + [s])[..|slots + [s]| - 1] == slots;
    var here := if s.value.Some? then [Entry(s.key, s.value.value)] else [];
    assert Present(slots + [s]) == Present(slots) + here;
    if s.value.Some? {
      assert (Present(slots) + here)[..|Present(slots) + here| - 1] == Present(slots);
    } else {
      assert Present(slots) + here == Present(slots);
    }
  }

  lemma LastTable(tables: seq<Table>, t: Table, table: string, key: string)
    ensures Lookup(Sections(tables + [t]), table, key) ==
      if t.name == table && t.slots.Some? then ValueOf(Present(t.slots.value), key) else Lookup(Sections(tables), table, key)
  {
    assert (tables + [t])[..|tables + [t]| - 1] == tables;
    if t.slots.Some? {
      LookupInLast(Sections(tables), Section(t.name, Present(t.slots.value)), table, key);
    } else {
      assert Sections(tables) + [] == Sections(tables);
    }
  }

  lemma {:induction false} SameLookup(a: seq<Table>, b: seq<Table>, table: string, key: string)
    requires TablesAgree(a, b) && !Toggle(table, key)
    ensures Lookup(Sections(a), table, key) == Lookup(Sections(b), table, key)
  {
    hide Toggle, Lookup, Sections, Present, ValueOf;
    if a != [] {
      var fa, fb, la, lb := a[..|a| - 1], b[..|b| - 1], a[|a| - 1], b[|b| - 1];
      SameLookup(fa, fb, table, key);
      LastTable(fa, la, table, key);
      LastTable(fb, lb, table, key);
      assert a == fa + [la] && b == fb + [lb];
      if la != lb && la.name == table {
        SameValue(la.slots.value, lb.slots.value, table, key);
      }
    }
  }

  lemma ClusterSlotsAgree(c: Cluster, e: bool, f: bool)
    ensures SlotsAgree(ClusterSlots(c, e), ClusterSlots(c, f), "cluster")
  {
    hide ControlListenerEnabled;
    var a, b := ClusterSlots(c, e), ClusterSlots(c, f);
    assert a[0].key == "enabled" && a[4].key == "control_port";
    assert a[1..4] == b[1..4] && a[5..] == b[5..];
    assert forall i :: 1 <= i < 4 ==> a[i] == a[1..4][i - 1] == b[i];
    assert forall i :: 5 <= i < |a| ==> a[i] == a[5..][i - 5] == b[i];
  }

  lemma TablesAgreeBothWays(c: Cluster, e: bool, f: bool)
    ensures TablesAgree(Tables(c, e), Tables(c, f))
  {
    hide ServerSlots, StorageSlots, FlushSlots, ChdbSlots, AuthSlots, CardinalitySlots, LoggingSlots, Toggle;
    hide StatementSummarySlots, HintedHandoffSlots, RetentionSlots, ClusterSlots, SlotsAgree;
    hide RateLimitTable, ReplicationTable, QuorumTable, ShardingTable;
    ClusterSlotsAgree(c, e, f);
  }

  lemma TogglesOnly(c: Cluster, e: bool, f: bool)
    ensures AgreeExceptToggles(Settings(c, e), Settings(c, f))
  {
    hide Toggle, Tables, Lookup, Sections;
    TablesAgreeBothWays(c, e, f);
    forall table, key | !Toggle(table, key)
      ensures Lookup(Settings(c, e), table, key) == Lookup(Settings(c, f), table, key)
    {
      SameLookup(Tables(c, e), Tables(c, f), table, key);
    }
  }

  // ---------- reading a slot back ----------

  lemma {:induction false} ValueOfSlot(slots: seq<Slot>, i: nat)
    requires i < |slots|
    requires forall j, k :: 0 <= j < k < |slots| ==> slots[j].key != slots[k].key
    ensures ValueOf(Present(slots), slots[i].key) == slots[i].value
  {
    var front, last := slots[..|slots| - 1], slots[|slots| - 1];
    assert slots == front + [last];
    LastSlot(front, last, slots[i].key);
    if i < |front| {
      ValueOfSlot(front, i);
    } else if last.value.None? {
      AbsentKey(front, last.key);
    }
  }

  lemma {:induction false} AbsentKey(slots: seq<Slot>, key: string)
    requires forall j :: 0 <= j < |slots| ==> slots[j].key != key
    ensures ValueOf(Present(slots), key) == None
  {
    if slots != [] {
      var front, last := slots[..|slots| - 1], slots[|slots| - 1];
      assert slots == front + [last];
      LastSlot(front, last, key);
      AbsentKey(front, key);
    }
  }

  lemma {:induction false} LookupTable(tables: seq<Table>, i: nat, key: string)
    requires i < |tables| && tables[i].slots.Some?
    requires forall j, k :: 0 <= j < k < |tables| ==> tables[j].name != tables[k].name
    ensures Lookup(Sections(tables), tables[i].name, key) == ValueOf(Present(tables[i].slots.value), key)
  {
    var front, last := tables[..|tables| - 1], tables[|tables| - 1];
    assert tables == front + [last];
    LastTable(front, last, tables[i].name, key);
    if i < |front| {
      LookupTable(front, i, key);
    }
  }

  lemma TogglesAre(c: Cluster, e: bool)
    ensures Lookup(Settings(c, e), "cluster", "enabled") == Some(Bool(e))
    ensures Lookup(Settings(c, e), "cluster", "control_port") ==
      if ControlListenerEnabled(c, e) then Some(Int(ServerPort(c) + 1)) else None
  {
    hide Lookup, Sections, ValueOf, Present, BareKey, TableName, ControlListenerEnabled;
    ConfigKeys.TablesAreGood(c, e);
    ConfigKeys.ClusterSlotsAreGood(c, e);
    var slots := ClusterSlots(c, e);
    assert Tables(c, e)[11] == Table("cluster", Some(slots));
    LookupTable(Tables(c, e), 11, "enabled");
    LookupTable(Tables(c, e), 11, "control_port");
    ValueOfSlot(slots, 0);
    ValueOfSlot(slots, 4);
  }

  // ---------- replicas and the two free texts ----------

  function WithReplicas(c: Cluster, replicas: Option<int>): Cluster {
    c.(replicas := replicas)
  }

  /** The session path and the retention interval are free text in the API. */
  function WithTexts(c: Cluster, path: string, interval: string): Cluster {
    c.(chdb := c.chdb.(sessionDataPath := path), retentionInterval := interval)
  }

  /** The same but for the replica count and the two texts. */
  predicate Alike(c: Cluster, d: Cluster) {
    d == WithTexts(WithReplicas(c, d.replicas), d.chdb.sessionDataPath, d.retentionInterval)
  }

  lemma SmallTablesAlike(c: Cluster, d: Cluster)
    requires Alike(c, d)
    ensures ServerSlots(d) == ServerSlots(c) && StorageSlots(d) == StorageSlots(c) && FlushSlots(d) == FlushSlots(c)
    ensures AuthSlots(d) == AuthSlots(c) && CardinalitySlots(d) == CardinalitySlots(c) && LoggingSlots(d) == LoggingSlots(c)
    ensures StatementSummarySlots(d) == StatementSummarySlots(c) && HintedHandoffSlots(d) == HintedHandoffSlots(c)
    ensures RateLimitTable(d) == RateLimitTable(c)
  {
  }

  lemma LargeTablesAlike(c: Cluster, d: Cluster, clusterEnabled: bool)
    requires Alike(c, d)
    ensures ClusterSlots(d, clusterEnabled) == ClusterSlots(c, clusterEnabled)
    ensures ReplicationTable(d) == ReplicationTable(c) && QuorumTable(d) == QuorumTable(c)
    ensures ShardingTable(d) == ShardingTable(c)
  {
    hide Compat.VersionSupports;
  }

  lemma TextTablesAlike(c: Cluster, d: Cluster)
    requires Alike(c, d)
    ensures ChdbSlots(d) == [ChdbSlots(d)[0]] + ChdbSlots(c)[1..]
    ensures RetentionSlots(d) == [RetentionSlots(c)[0]] + [RetentionSlots(d)[1]]
    ensures d.chdb.sessionDataPath == c.chdb.sessionDataPath ==> ChdbSlots(d) == ChdbSlots(c)
    ensures d.retentionInterval == c.retentionInterval ==> RetentionSlots(d) == RetentionSlots(c)
  {
    hide Compat.VersionSupports;
  }

  lemma TablesAlike(c: Cluster, d: Cluster, clusterEnabled: bool)
    requires Alike(c, d)
    ensures var t, u := Tables(c, clusterEnabled), Tables(d, clusterEnabled);
      && |t| == |u| == 15 && (forall i :: 0 <= i < |t| && i != 3 && i != 10 ==> t[i] == u[i])
      && t[3] == Table("chdb", Some(ChdbSlots(c))) && u[3] == Table("chdb", Some(ChdbSlots(d)))
      && t[10] == Table("retention", Some(RetentionSlots(c))) && u[10] == Table("retention", Some(RetentionSlots(d)))
  {
    hide ServerSlots, StorageSlots, FlushSlots, ChdbSlots, AuthSlots, CardinalitySlots, LoggingSlots;
    hide StatementSummarySlots, HintedHandoffSlots, RetentionSlots, ClusterSlots;
    hide RateLimitTable, ReplicationTable, QuorumTable, ShardingTable, Alike;
    SmallTablesAlike(c, d);
    LargeTablesAlike(c, d, clusterEnabled);
  }

  lemma TablesIgnoreReplicas(c: Cluster, replicas: Option<int>, clusterEnabled: bool)
    ensures Tables(WithReplicas(c, replicas), clusterEnabled) == Tables(c, clusterEnabled)
  {
    hide Tables, ChdbSlots, RetentionSlots;
    TablesAlike(c, WithReplicas(c, replicas), clusterEnabled);
    TextTablesAlike(c, WithReplicas(c, replicas));
  }

  // ---------- the theorems ----------

  /** The mounted file says what was hashed, except for [cluster] enabled, which
      says whether there is a cluster, and control_port, which is there exactly
      when the control listener is on. */
  lemma LiveDiffersFromHashInput(c: Cluster)
    ensures AgreeExceptToggles(LiveSettings(c), Settings(c, false))
    ensures Lookup(LiveSettings(c), "cluster", "enabled") == Some(Bool(ClusterMetadataEnabled(c)))
    ensures Lookup(LiveSettings(c), "cluster", "control_port") ==
      if ControlListenerEnabled(c, ClusterMetadataEnabled(c)) then Some(Int(ServerPort(c) + 1)) else None
    ensures Lookup(Settings(c, false), "cluster", "enabled") == Some(Bool(false))
    ensures Lookup(Settings(c, false), "cluster", "control_port") == None
  {
    hide Lookup, Settings, ClusterMetadataEnabled;
    TogglesOnly(c, ClusterMetadataEnabled(c), false);
    TogglesAre(c, ClusterMetadataEnabled(c));
    TogglesAre(c, false);
  }

  /** Scaling leaves the hash alone, and the mounted file too but for the toggles. */
  lemma ScalingKeepsTheHash(c: Cluster, replicas: Option<int>)
    ensures HashInput(WithReplicas(c, replicas)) == HashInput(c)
    ensures AgreeExceptToggles(LiveSettings(WithReplicas(c, replicas)), LiveSettings(c))
  {
    hide Lookup, Toggle, Sections, Print, Tables;
    var d := WithReplicas(c, replicas);
    TablesIgnoreReplicas(c, replicas, false);
    TablesIgnoreReplicas(c, replicas, ClusterMetadataEnabled(d));
    TogglesOnly(c, ClusterMetadataEnabled(d), ClusterMetadataEnabled(c));
  }

  /** Clean specs with one hash have mounted files that agree but for the toggles. */
  lemma EqualHashInputsAgree(c: Cluster, d: Cluster)
    requires CleanSpec(c) && CleanSpec(d) && HashInput(c) == HashInput(d)
    ensures AgreeExceptToggles(LiveSettings(c), LiveSettings(d))
  {
    hide Lookup, Settings, ClusterMetadataEnabled, CleanSpec, HashInput, Toggle;
    EqualHashInputsMeanEqualSettings(c, d);
    TogglesOnly(c, ClusterMetadataEnabled(c), false);
    TogglesOnly(d, ClusterMetadataEnabled(d), false);
  }
}
