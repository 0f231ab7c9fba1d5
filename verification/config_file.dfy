/** What the rendered file and the hash of its static settings promise. */
module ConfigFile {
  import opened Common
  import opened Toml
  import opened ConfigSettings
  import Compat
  import ConfigKeys
  import ConfigWriter

  /** What is hashed into the pod template: the file as if clustering were off. */
  function HashInput(c: Cluster): string {
    Print(Settings(c, false))
  }

  /** What is mounted. */
  function LiveSettings(c: Cluster): Doc {
    Settings(c, ClusterMetadataEnabled(c))
  }

  method RenderLiveConfig(c: Cluster) returns (text: string)
    ensures text == Print(LiveSettings(c))
  {
    text := ConfigWriter.RenderConfig(c, ClusterMetadataEnabled(c));
  }

  // ---------- which specs print cleanly ----------

  /** No text field of the spec holds a quote, a backslash or a control
      character other than a tab. */
  predicate CleanSpec(c: Cluster) {
    && Clean(c.walFormat) && Clean(c.chdb.sessionDataPath)
    && Clean(c.logLevel) && Clean(c.logFormat) && Clean(c.retentionInterval)
    && (c.tuning.replication.Some? ==> CleanReplication(c.tuning.replication.value))
  }

  predicate CleanReplication(r: ReplicationSpec) {
    Clean(r.mode) && (r.minAcks.Some? && r.minAcks.value.Rule? ==> Clean(r.minAcks.value.s))
  }

  predicate CleanSlots(slots: seq<Slot>) {
    forall i :: 0 <= i < |slots| ==> slots[i].value.Some? ==> CleanValue(slots[i].value.value)
  }

  predicate CleanTables(tables: seq<Table>) {
    forall i :: 0 <= i < |tables| ==> tables[i].slots.Some? ==> CleanSlots(tables[i].slots.value)
  }

  lemma OneMoreCleanEntry(name: string, entries: seq<Entry>, e: Entry)
    ensures CleanSection(Section(name, entries + [e])) <==> CleanSection(Section(name, entries)) && CleanValue(e.value)
  {
    assert (entries + [e])[|entries|] == e;
    assert forall i :: 0 <= i < |entries| ==> (entries + [e])[i] == entries[i];
  }

  lemma OneMoreCleanSlot(slots: seq<Slot>, s: Slot)
    ensures CleanSlots(slots + [s]) <==> CleanSlots(slots) && (s.value.Some? ==> CleanValue(s.value.value))
  {
    assert (slots + [s])[|slots|] == s;
    assert forall i :: 0 <= i < |slots| ==> (slots + [s])[i] == slots[i];
  }

  lemma {:induction false} CleanPresent(name: string, slots: seq<Slot>)
    ensures CleanSection(Section(name, Present(slots))) <==> CleanSlots(slots)
  {
    if slots != [] {
      var front, last := slots[..|slots| - 1], slots[|slots| - 1];
      CleanPresent(name, front);
      assert slots == front + [last];
      OneMoreCleanSlot(front, last);
      if last.value.Some? {
        OneMoreCleanEntry(name, Present(front), Entry(last.key, last.value.value));
      } else {
        assert Present(slots) == Present(front);
      }
    }
  }

  lemma OneMoreCleanSection(doc: Doc, s: Section)
    ensures CleanDoc(doc + [s]) <==> CleanDoc(doc) && CleanSection(s)
  {
    assert (doc + [s])[|doc|] == s;
    assert forall i :: 0 <= i < |doc| ==> (doc + [s])[i] == doc[i];
  }

  lemma OneMoreCleanTable(tables: seq<Table>, t: Table)
    ensures CleanTables(tables + [t]) <==> CleanTables(tables) && (t.slots.Some? ==> CleanSlots(t.slots.value))
  {
    assert (tables + [t])[|tables|] == t;
    assert forall i :: 0 <= i < |tables| ==> (tables + [t])[i] == tables[i];
  }

  lemma {:induction false} CleanSections(tables: seq<Table>)
    ensures CleanDoc(Sections(tables)) <==> CleanTables(tables)
  {
    if tables != [] {
      var front, last := tables[..|tables| - 1], tables[|tables| - 1];
      CleanSections(front);
      assert tables == front + [last];
      OneMoreCleanTable(front, last);
      if last.slots.Some? {
        CleanPresent(last.name, last.slots.value);
        OneMoreCleanSection(Sections(front), Section(last.name, Present(last.slots.value)));
      } else {
        assert Sections(tables) == Sections(front);
      }
    }
  }

  // ---------- one table at a time ----------

  lemma CleanDefaults()
    ensures Clean("") && Clean("0.0.0.0") && Clean("bincode") && Clean("info") && Clean("text") && Clean("12h") && Clean("async")
  {
  }

  lemma CleanTlsPaths()
    ensures Clean("/etc/hyperbytedb/tls/tls.crt") && Clean("/etc/hyperbytedb/tls/tls.key")
  {
  }

  lemma CleanDataPaths()
    ensures Clean("/var/lib/hyperbytedb/wal") && Clean("/var/lib/hyperbytedb/meta") && Clean("/var/lib/hyperbytedb/chdb")
  {
  }

  lemma CleanClusterPaths()
    ensures Clean("/var/lib/hyperbytedb/raft") && Clean("/var/lib/hyperbytedb/replication_log")
  {
  }

  lemma CleanServer(c: Cluster)
    ensures CleanSlots(ServerSlots(c))
  {
    CleanDefaults();
    CleanTlsPaths();
  }

  lemma CleanStorage(c: Cluster)
    ensures CleanSlots(StorageSlots(c)) <==> Clean(c.walFormat)
  {
    CleanDefaults();
    CleanDataPaths();
    assert StorageSlots(c)[2].value.value.Str?;
  }

  lemma CleanChdb(c: Cluster)
    ensures CleanSlots(ChdbSlots(c)) <==> Clean(c.chdb.sessionDataPath)
  {
    hide Compat.VersionSupports;
    CleanDefaults();
    CleanDataPaths();
    assert ChdbSlots(c)[0].value.value.Str?;
  }

  lemma CleanLogging(c: Cluster)
    ensures CleanSlots(LoggingSlots(c)) <==> Clean(c.logLevel) && Clean(c.logFormat)
  {
    CleanDefaults();
    assert LoggingSlots(c)[0].value.value.Str? && LoggingSlots(c)[1].value.value.Str?;
  }

  lemma CleanRetention(c: Cluster)
    ensures CleanSlots(RetentionSlots(c)) <==> Clean(c.retentionInterval)
  {
    CleanDefaults();
    assert RetentionSlots(c)[1].value.value.Str?;
  }

  lemma CleanCluster(c: Cluster, clusterEnabled: bool)
    ensures CleanSlots(ClusterSlots(c, clusterEnabled))
  {
    hide ControlListenerEnabled;
    CleanDefaults();
    CleanClusterPaths();
  }

  lemma CleanReplicationTables(r: ReplicationSpec)
    ensures CleanSlots(ReplicationSlots(r)) <==> Clean(r.mode)
    ensures r.minAcks.Some? ==> (CleanSlots(QuorumSlots(r.minAcks.value)) <==> (r.minAcks.value.Rule? ==> Clean(r.minAcks.value.s)))
  {
    CleanDefaults();
    assert ReplicationSlots(r)[0].value.value.Str?;
    if r.minAcks.Some? {
      assert QuorumSlots(r.minAcks.value)[0].value.Some?;
    }
  }

  lemma CleanNumbers(c: Cluster)
    ensures CleanSlots(FlushSlots(c)) && CleanSlots(AuthSlots(c)) && CleanSlots(CardinalitySlots(c))
    ensures CleanSlots(StatementSummarySlots(c)) && CleanSlots(HintedHandoffSlots(c)) && CleanSlots(RateLimitSlots(c))
  {
  }

  lemma CleanSharding(s: ShardingSpec)
    ensures CleanSlots(ShardingSlots(s))
  {
  }

  lemma CleanTablesExactly(c: Cluster, clusterEnabled: bool)
    ensures CleanTables(Tables(c, clusterEnabled)) <==> CleanSpec(c)
  {
    hide ServerSlots, StorageSlots, FlushSlots, ChdbSlots, AuthSlots, CardinalitySlots, LoggingSlots;
    hide StatementSummarySlots, HintedHandoffSlots, RateLimitSlots, RetentionSlots, ClusterSlots;
    hide ReplicationSlots, QuorumSlots, ShardingSlots, Clean, CleanSlots, Compat.VersionSupports;
    CleanServer(c);
    CleanStorage(c);
    CleanChdb(c);
    CleanNumbers(c);
    CleanLogging(c);
    CleanRetention(c);
    CleanCluster(c, clusterEnabled);
    if c.tuning.replication.Some? {
      CleanReplicationTables(c.tuning.replication.value);
    }
    if c.sharding.Some? {
      CleanSharding(c.sharding.value);
    }
    var t := Tables(c, clusterEnabled);
    assert t[1].slots.Some? && t[3].slots.Some? && t[6].slots.Some? && t[10].slots.Some?;
    assert t[12] == ReplicationTable(c) && t[13] == QuorumTable(c);
  }

  // ---------- the round trip ----------

  /** The file is read back as the settings it was made from exactly when no
      text field of the spec needs escaping, which the printer does not do. */
  lemma FileSaysWhatTheSpecSays(c: Cluster, clusterEnabled: bool)
    ensures Parse(Print(Settings(c, clusterEnabled))) == Some(Settings(c, clusterEnabled)) <==> CleanSpec(c)
  {
    hide Print, Parse, Sections, Tables, CleanSpec;
    ConfigKeys.SettingsAreWellFormed(c, clusterEnabled);
    RoundTripExactly(Settings(c, clusterEnabled));
    CleanSections(Tables(c, clusterEnabled));
    CleanTablesExactly(c, clusterEnabled);
  }

  /** So a quote, a backslash or a control character other than a tab in a path
      keeps the file from saying what the spec says. */
  lemma UnescapedPathIsNotReadBack(c: Cluster, clusterEnabled: bool, k: nat)
    requires k < |c.chdb.sessionDataPath|
    requires var ch := c.chdb.sessionDataPath[k];
      ch == '"' || ch == '\\' || (ch as int < 32 && ch as int != 9) || ch as int == 127
    ensures Parse(Print(Settings(c, clusterEnabled))) != Some(Settings(c, clusterEnabled))
  {
    hide Print, Parse, Settings;
    FileSaysWhatTheSpecSays(c, clusterEnabled);
    assert c.chdb.sessionDataPath[k] in c.chdb.sessionDataPath;
  }

  /** Clean specs with one hash input ask for the same static settings. */
  lemma EqualHashInputsMeanEqualSettings(c: Cluster, d: Cluster)
    requires CleanSpec(c) && CleanSpec(d) && HashInput(c) == HashInput(d)
    ensures Settings(c, false) == Settings(d, false)
  {
    hide Print, Parse, Settings, CleanSpec;
    FileSaysWhatTheSpecSays(c, false);
    FileSaysWhatTheSpecSays(d, false);
  }
}
