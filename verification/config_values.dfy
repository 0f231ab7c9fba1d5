/** Key by key, what the mounted file says in terms of the spec's fields. */
module ConfigValues {
  import opened Common
  import opened Toml
  import opened ConfigSettings
  import opened ConfigFile
  import opened ConfigHash
  import Compat
  import ConfigKeys
  import Semver

  /** A key and the value read for it, if any. */
  type Reading = (string, Option<Value>)

  function Number(n: int, default: int): Option<Value> { Some(Int(if n > 0 then n else default)) }

  function IfPositive(n: int): Option<Value> { if n > 0 then Some(Int(n)) else None }

  function Text(s: string, default: string): Option<Value> { Some(Str(if s == "" then default else s)) }

  function Choice(b: Option<bool>, default: bool): Option<Value> { Some(Bool(if b.None? then default else b.value)) }

  function IfChosen(b: Option<bool>): Option<Value> { if b.None? then None else Some(Bool(b.value)) }

  /** The database is 0.9.0-beta or newer. */
  predicate Since090(c: Cluster) {
    Semver.Compare(c.version, Semver.Version(0, 9, 0, [Semver.Alpha("beta")])) >= 0
  }

  /** There is a cluster: more than one replica, or explicit sharding. */
  predicate IsCluster(c: Cluster) {
    (c.replicas.Some? && c.replicas.value > 1) || (c.sharding.Some? && c.sharding.value.enabled)
  }

  // ---------- what each table should say ----------

  function ServerReads(c: Cluster): seq<Reading> {
    [("bind_address", Some(Str("0.0.0.0"))),
     ("port", Number(c.server.port, 8086)),
     ("max_body_size_bytes", IfPositive(c.server.maxBodySizeBytes)),
     ("request_timeout_secs", IfPositive(c.server.requestTimeoutSecs)),
     ("query_timeout_secs", IfPositive(c.server.queryTimeoutSecs)),
     ("max_concurrent_queries", IfPositive(c.server.maxConcurrentQueries)),
     ("tls_enabled", if c.server.tlsEnabled then Some(Bool(true)) else None),
     ("tls_cert_path", if c.server.tlsEnabled then Some(Str("/etc/hyperbytedb/tls/tls.crt")) else None),
     ("tls_key_path", if c.server.tlsEnabled then Some(Str("/etc/hyperbytedb/tls/tls.key")) else None)]
  }

  function StorageReads(c: Cluster): seq<Reading> {
    [("wal_dir", Some(Str("/var/lib/hyperbytedb/wal"))),
     ("meta_dir", Some(Str("/var/lib/hyperbytedb/meta"))),
     ("wal_format", Text(c.walFormat, "bincode"))]
  }

  function FlushReads(c: Cluster): seq<Reading> {
    [("interval_secs", Number(c.flush.intervalSecs, 10)),
     ("max_points_per_batch", Number(c.flush.maxPointsPerBatch, 50000)),
     ("wal_batch_size", IfPositive(c.flush.walBatchSize)),
     ("wal_batch_delay_us", IfPositive(c.flush.walBatchDelayUs)),
     ("arrow_wal_enabled", Choice(c.flush.arrowWalEnabled, true))]
  }

  /** The sizes set are written under their own names, when the database has both
      pools; the single size only when none of them is, or there is one pool. */
  function ChdbReads(c: Cluster): seq<Reading> {
    var p := c.chdb;
    var query, write, single := p.queryPoolSize > 0, p.writePoolSize > 0, p.poolSize > 0;
    [("session_data_path", Text(p.sessionDataPath, "/var/lib/hyperbytedb/chdb")),
     ("query_pool_size", if Since090(c) && query then Some(Int(p.queryPoolSize)) else None),
     ("write_pool_size", if !Since090(c) then None
                         else if write then Some(Int(p.writePoolSize))
                         else if !query && !single then Some(Int(1)) else None),
     ("pool_size", if !Since090(c) then Some(Int(if single then p.poolSize else if query then p.queryPoolSize else 1))
                   else if !query && !write && single then Some(Int(p.poolSize)) else None)]
  }

  function AuthReads(c: Cluster): seq<Reading> {
    [("enabled", Some(Bool(c.authEnabled)))]
  }

  function CardinalityReads(c: Cluster): seq<Reading> {
    [("max_tag_values_per_measurement", Number(c.maxTagValuesPerMeasurement, 100000)),
     ("max_measurements_per_database", Number(c.maxMeasurementsPerDatabase, 10000))]
  }

  function LoggingReads(c: Cluster): seq<Reading> {
    [("level", Text(c.logLevel, "info")), ("format", Text(c.logFormat, "text"))]
  }

  function StatementSummaryReads(c: Cluster): seq<Reading> {
    [("enabled", Choice(c.statementSummaryEnabled, true)), ("max_entries", Number(c.statementSummaryMaxEntries, 1000))]
  }

  function HintedHandoffReads(c: Cluster): seq<Reading> {
    [("enabled", Choice(c.hintedHandoffEnabled, true)),
     ("max_hints_per_peer", Number(c.maxHintsPerPeer, 100000)),
     ("max_hint_age_secs", Number(c.maxHintAgeSecs, 3600))]
  }

  function RateLimitReads(c: Cluster): seq<Reading> {
    [("enabled", IfChosen(c.rateLimitEnabled)), ("max_requests_per_second", IfPositive(c.maxRequestsPerSecond))]
  }

  function RetentionReads(c: Cluster): seq<Reading> {
    [("enabled", Choice(c.retentionEnabled, true)), ("interval", Text(c.retentionInterval, "12h"))]
  }

  /** The control port is there only in a cluster whose database has it and that
      asks for it. */
  function ClusterReads(c: Cluster, enabled: bool): seq<Reading> {
    var t := c.tuning;
    [("enabled", Some(Bool(enabled))),
     ("peers", Some(Str(""))),
     ("replication_log_dir", Some(Str("/var/lib/hyperbytedb/replication_log"))),
     ("raft_dir", Some(Str("/var/lib/hyperbytedb/raft"))),
     ("control_port", if enabled && c.controlListenerAnnotated && Since090(c)
                      then Some(Int(if c.server.port > 0 then c.server.port + 1 else 8087)) else None),
     ("heartbeat_interval_secs", Number(t.heartbeatIntervalSecs, 2)),
     ("heartbeat_miss_threshold", Number(t.heartbeatMissThreshold, 5)),
     ("replication_max_retries", Number(t.replicationMaxRetries, 5)),
     ("replication_queue_depth", Number(t.replicationQueueDepth, 8192)),
     ("replication_max_inflight_batches", Number(t.replicationMaxInflightBatches, 8)),
     ("replication_max_coalesce_body_bytes", Number(t.replicationMaxCoalesceBodyBytes, 8 * 1024 * 1024)),
     ("replicate_receiver_queue_depth", Number(t.replicateReceiverQueueDepth, 1024)),
     ("replication_truncate_stale_peer_multiplier", Number(t.replicationTruncateStalePeerMultiplier, 2)),
     ("raft_heartbeat_interval_ms", IfPositive(t.raftHeartbeatIntervalMs)),
     ("raft_election_timeout_ms", IfPositive(t.raftElectionTimeoutMs)),
     ("raft_snapshot_threshold", IfPositive(t.raftSnapshotThreshold))]
  }

  function ReplicationReads(c: Cluster): seq<Reading> {
    var r := c.tuning.replication;
    [("mode", if r.None? then None else Text(r.value.mode, "async")),
     ("ack_timeout_ms", if r.None? then None else IfPositive(r.value.ackTimeoutMs))]
  }

  function QuorumReads(c: Cluster): seq<Reading> {
    var r := c.tuning.replication;
    [("min_acks", if r.None? || r.value.minAcks.None? then None
                  else if r.value.minAcks.value.Count? then Some(Int(r.value.minAcks.value.n))
                  else Some(Str(r.value.minAcks.value.s)))]
  }

  /** An older database gets no sharding settings at all. */
  function ShardingReads(c: Cluster): seq<Reading> {
    if c.sharding.None? || !Since090(c) then []
    else
      var s := c.sharding.value;
      [("enabled", Some(Bool(s.enabled))),
       ("replication_factor", IfPositive(s.replicationFactor)),
       ("region_split_series", IfPositive(s.regionSplitSeries)),
       ("region_max_series", IfPositive(s.regionMaxSeries)),
       ("region_merge_series", IfPositive(s.regionMergeSeries)),
       ("split_merge_interval_secs", IfPositive(s.splitMergeIntervalSecs)),
       ("schedule_limit", IfPositive(s.scheduleLimit)),
       ("heartbeat_interval_secs", IfPositive(s.heartbeatIntervalSecs)),
       ("bootstrap_timeout_ms", IfPositive(s.bootstrapTimeoutMs)),
       ("primary_failover_after_secs", IfPositive(s.primaryFailoverAfterSecs)),
       ("add_peer_proposals_enabled", IfChosen(s.addPeerProposalsEnabled)),
       ("remove_peer_proposals_enabled", IfChosen(s.removePeerProposalsEnabled)),
       ("scatter_peer_timeout_ms", IfPositive(s.scatterPeerTimeoutMs)),
       ("scatter_max_peer_attempts", IfPositive(s.scatterMaxPeerAttempts)),
       ("load_split_qps_threshold", if s.loadSplitQpsThreshold.None? then None else Some(Int(s.loadSplitQpsThreshold.value))),
       ("max_regions_per_measurement", IfPositive(s.maxRegionsPerMeasurement))]
  }

  /** Table by table, in the order of the file. */
  function Readings(c: Cluster, enabled: bool): seq<(string, seq<Reading>)> {
    [("server", ServerReads(c)), ("storage", StorageReads(c)), ("flush", FlushReads(c)), ("chdb", ChdbReads(c)),
     ("auth", AuthReads(c)), ("cardinality", CardinalityReads(c)), ("logging", LoggingReads(c)),
     ("statement_summary", StatementSummaryReads(c)), ("hinted_handoff", HintedHandoffReads(c)),
     ("rate_limit", RateLimitReads(c)), ("retention", RetentionReads(c)), ("cluster", ClusterReads(c, enabled)),
     ("cluster.replication", ReplicationReads(c)), ("cluster.replication.sync_quorum", QuorumReads(c)),
     ("sharding", ShardingReads(c))]
  }

  /** Looking up any table and key gives what the readings list, and nothing else
      is there. */
  ghost predicate SaysJust(doc: Doc, readings: seq<(string, seq<Reading>)>) {
    && (forall t, i :: 0 <= t < |readings| && 0 <= i < |readings[t].1| ==>
          Lookup(doc, readings[t].0, readings[t].1[i].0) == readings[t].1[i].1)
    && (forall table, key :: Lookup(doc, table, key).Some? ==>
          exists t, i :: 0 <= t < |readings| && 0 <= i < |readings[t].1|
                         && readings[t].0 == table && readings[t].1[i].0 == key)
  }

  // ---------- each table says that ----------

  /** Slot by slot the key and the value read; a table left out reads as nothing. */
  ghost predicate Reads(t: Table, readings: seq<Reading>) {
    if t.slots.None? then forall i :: 0 <= i < |readings| ==> readings[i].1 == None
    else
      && |t.slots.value| == |readings|
      && forall i :: 0 <= i < |readings| ==> t.slots.value[i] == Slot(readings[i].0, readings[i].1)
  }

  lemma ServerRead(c: Cluster)
    ensures Reads(Table("server", Some(ServerSlots(c))), ServerReads(c))
  {
  }

  lemma SmallTablesRead(c: Cluster)
    ensures Reads(Table("storage", Some(StorageSlots(c))), StorageReads(c))
    ensures Reads(Table("flush", Some(FlushSlots(c))), FlushReads(c))
    ensures Reads(Table("auth", Some(AuthSlots(c))), AuthReads(c))
    ensures Reads(Table("cardinality", Some(CardinalitySlots(c))), CardinalityReads(c))
    ensures Reads(Table("logging", Some(LoggingSlots(c))), LoggingReads(c))
  {
  }

  lemma MoreSmallTablesRead(c: Cluster)
    ensures Reads(Table("statement_summary", Some(StatementSummarySlots(c))), StatementSummaryReads(c))
    ensures Reads(Table("hinted_handoff", Some(HintedHandoffSlots(c))), HintedHandoffReads(c))
    ensures Reads(RateLimitTable(c), RateLimitReads(c))
    ensures Reads(Table("retention", Some(RetentionSlots(c))), RetentionReads(c))
  {
  }

  lemma ChdbRead(c: Cluster)
    ensures Reads(Table("chdb", Some(ChdbSlots(c))), ChdbReads(c))
  {
    hide Compat.VersionSupports, Semver.Compare;
    Compat.SupportedExactly(c.version, Compat.SplitChdbPools);
    Compat.SupportedExactly(c.version, Compat.AutoQueryPool);
  }

  lemma ClusterRead(c: Cluster, enabled: bool)
    ensures Reads(Table("cluster", Some(ClusterSlots(c, enabled))), ClusterReads(c, enabled))
  {
    hide Compat.VersionSupports, Semver.Compare;
    Compat.SupportedExactly(c.version, Compat.ControlListener);
  }

  lemma ReplicationRead(c: Cluster)
    ensures Reads(ReplicationTable(c), ReplicationReads(c))
    ensures Reads(QuorumTable(c), QuorumReads(c))
  {
  }

  lemma ShardingRead(c: Cluster)
    ensures Reads(ShardingTable(c), ShardingReads(c))
  {
    hide Compat.VersionSupports, Semver.Compare;
    Compat.SupportedExactly(c.version, Compat.Sharding);
  }

  lemma TablesRead(c: Cluster, enabled: bool)
    ensures |Tables(c, enabled)| == |Readings(c, enabled)|
    ensures forall t :: 0 <= t < |Readings(c, enabled)| ==>
      Tables(c, enabled)[t].name == Readings(c, enabled)[t].0 && Reads(Tables(c, enabled)[t], Readings(c, enabled)[t].1)
  {
    hide ServerSlots, StorageSlots, FlushSlots, ChdbSlots, AuthSlots, CardinalitySlots, LoggingSlots;
    hide StatementSummarySlots, HintedHandoffSlots, RetentionSlots, ClusterSlots;
    hide RateLimitTable, ReplicationTable, QuorumTable, ShardingTable, Reads;
    hide ServerReads, StorageReads, FlushReads, ChdbReads, AuthReads, CardinalityReads, LoggingReads;
    hide StatementSummaryReads, HintedHandoffReads, RateLimitReads, RetentionReads, ClusterReads;
    hide ReplicationReads, QuorumReads, ShardingReads;
    ServerRead(c);
    SmallTablesRead(c);
    MoreSmallTablesRead(c);
    ChdbRead(c);
    ClusterRead(c, enabled);
    ReplicationRead(c);
    ShardingRead(c);
    OptionalTableNames(c);
  }

  lemma OptionalTableNames(c: Cluster)
    ensures RateLimitTable(c).name == "rate_limit" && ReplicationTable(c).name == "cluster.replication"
    ensures QuorumTable(c).name == "cluster.replication.sync_quorum" && ShardingTable(c).name == "sharding"
  {
  }

  // ---------- and so does the document ----------

  lemma {:induction false} AbsentTable(tables: seq<Table>, name: string, key: string)
    requires forall k :: 0 <= k < |tables| ==> tables[k].name == name ==> tables[k].slots.None?
    ensures Lookup(Sections(tables), name, key) == None
  {
    if tables != [] {
      var front, last := tables[..|tables| - 1], tables[|tables| - 1];
      assert tables == front + [last];
      LastTable(front, last, name, key);
      AbsentTable(front, name, key);
    }
  }

  /** Reading one table of a document. */
  lemma ReadTable(tables: seq<Table>, t: nat, readings: seq<Reading>, key: string)
    requires GoodTables(tables) && t < |tables| && Reads(tables[t], readings)
    ensures forall i :: 0 <= i < |readings| ==> Lookup(Sections(tables), tables[t].name, readings[i].0) == readings[i].1
    ensures Lookup(Sections(tables), tables[t].name, key).Some? ==> exists i :: 0 <= i < |readings| && readings[i].0 == key
  {
    hide Lookup, Sections, BareKey, TableName, Present, ValueOf;
    var name := tables[t].name;
    if tables[t].slots.None? {
      AbsentTable(tables, name, key);
      forall i | 0 <= i < |readings|
        ensures Lookup(Sections(tables), name, readings[i].0) == readings[i].1
      {
        AbsentTable(tables, name, readings[i].0);
      }
    } else {
      var slots := tables[t].slots.value;
      forall i | 0 <= i < |readings|
        ensures Lookup(Sections(tables), name, readings[i].0) == readings[i].1
      {
        LookupTable(tables, t, slots[i].key);
        ValueOfSlot(slots, i);
      }
      LookupTable(tables, t, key);
      if forall i :: 0 <= i < |readings| ==> readings[i].0 != key {
        AbsentKey(slots, key);
      }
    }
  }

  /** Whatever the spec: the settings give every key of every table the value its
      own field asks for, and nothing else. */
  lemma SettingsSayEveryField(c: Cluster, enabled: bool)
    ensures SaysJust(Settings(c, enabled), Readings(c, enabled))
  {
    hide Lookup, Sections, Tables, Readings, GoodTables;
    ConfigKeys.TablesAreGood(c, enabled);
    TablesRead(c, enabled);
    var tables, readings := Tables(c, enabled), Readings(c, enabled);
    forall t, i | 0 <= t < |readings| && 0 <= i < |readings[t].1|
      ensures Lookup(Settings(c, enabled), readings[t].0, readings[t].1[i].0) == readings[t].1[i].1
    {
      ReadTable(tables, t, readings[t].1, "");
    }
    forall table, key | Lookup(Settings(c, enabled), table, key).Some?
      ensures exists t, i :: 0 <= t < |readings| && 0 <= i < |readings[t].1| && readings[t].0 == table && readings[t].1[i].0 == key
    {
      if t :| 0 <= t < |tables| && tables[t].name == table {
        ReadTable(tables, t, readings[t].1, key);
        var i :| 0 <= i < |readings[t].1| && readings[t].1[i].0 == key;
        assert readings[t].0 == table;
      } else {
        AbsentTable(tables, table, key);
      }
    }
  }

  lemma LiveIsWhenClustered(c: Cluster)
    ensures LiveSettings(c) == Settings(c, IsCluster(c))
  {
    hide Settings;
  }

  /** The mounted file of a clean spec is read back as exactly that. */
  lemma FileSaysEveryField(c: Cluster)
    requires CleanSpec(c)
    ensures var read := Parse(Print(LiveSettings(c)));
      read.Some? && SaysJust(read.value, Readings(c, IsCluster(c)))
  {
    hide Settings, Print, Parse, CleanSpec, Readings, SaysJust;
    LiveIsWhenClustered(c);
    FileSaysWhatTheSpecSays(c, IsCluster(c));
    SettingsSayEveryField(c, IsCluster(c));
  }

  /** A table of its own appears exactly when its part of the spec is set. */
  lemma OptionalTablesExactly(c: Cluster, enabled: bool)
    ensures HasTable(Settings(c, enabled), "rate_limit") <==> c.rateLimitEnabled.Some? || c.maxRequestsPerSecond != 0
    ensures HasTable(Settings(c, enabled), "cluster.replication") <==> c.tuning.replication.Some?
    ensures HasTable(Settings(c, enabled), "cluster.replication.sync_quorum") <==>
      c.tuning.replication.Some? && c.tuning.replication.value.minAcks.Some?
    ensures HasTable(Settings(c, enabled), "sharding") <==> c.sharding.Some? && Since090(c)
  {
    hide Sections, HasTable, GoodTables, Compat.VersionSupports, Semver.Compare;
    hide ServerSlots, StorageSlots, FlushSlots, ChdbSlots, AuthSlots, CardinalitySlots, LoggingSlots;
    hide StatementSummarySlots, HintedHandoffSlots, RetentionSlots, ClusterSlots, RateLimitSlots;
    hide ReplicationSlots, QuorumSlots, ShardingSlots;
    Compat.SupportedExactly(c.version, Compat.Sharding);
    ConfigKeys.TablesAreGood(c, enabled);
    var tables := Tables(c, enabled);
    assert tables[9] == RateLimitTable(c) && tables[12] == ReplicationTable(c) && tables[13] == QuorumTable(c);
    assert tables[14] == ShardingTable(c);
    TableIsThere(tables, 9);
    TableIsThere(tables, 12);
    TableIsThere(tables, 13);
    TableIsThere(tables, 14);
  }

  lemma {:induction false} TableIsThere(tables: seq<Table>, t: nat)
    requires t < |tables| && GoodTables(tables)
    ensures HasTable(Sections(tables), tables[t].name) <==> tables[t].slots.Some?
  {
    var front, last := tables[..|tables| - 1], tables[|tables| - 1];
    var more := if last.slots.Some? then [Section(last.name, Present(last.slots.value))] else [];
    assert Sections(tables) == Sections(front) + more;
    if t < |front| {
      TableIsThere(front, t);
    } else {
      SectionsAreWellFormed(front);
    }
  }
}
