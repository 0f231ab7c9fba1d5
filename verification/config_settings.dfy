/** The settings a cluster's spec asks for: per table, every key the operator
    may write, with the value in effect or nothing. */
module ConfigSettings {
  import opened Common
  import opened Toml
  import Semver
  import Compat

  datatype FlushSpec = FlushSpec(
    intervalSecs: int, maxPointsPerBatch: int, walBatchSize: int, walBatchDelayUs: int, arrowWalEnabled: Option<bool>)

  datatype ServerSpec = ServerSpec(
    port: int, maxBodySizeBytes: int, requestTimeoutSecs: int, queryTimeoutSecs: int, maxConcurrentQueries: int,
    tlsEnabled: bool)

  datatype ChdbSpec = ChdbSpec(sessionDataPath: string, poolSize: int, queryPoolSize: int, writePoolSize: int)

  datatype MinAcks = Count(n: int) | Rule(s: string)

  datatype ReplicationSpec = ReplicationSpec(mode: string, ackTimeoutMs: int, minAcks: Option<MinAcks>)

  datatype TuningSpec = TuningSpec(
    heartbeatIntervalSecs: int, heartbeatMissThreshold: int, replicationMaxRetries: int, replicationQueueDepth: int,
    replicationMaxInflightBatches: int, replicationMaxCoalesceBodyBytes: int, replicateReceiverQueueDepth: int,
    replicationTruncateStalePeerMultiplier: int,
    raftHeartbeatIntervalMs: int, raftElectionTimeoutMs: int, raftSnapshotThreshold: int,
    replication: Option<ReplicationSpec>)

  datatype ShardingSpec = ShardingSpec(
    enabled: bool, replicationFactor: int, regionSplitSeries: int, regionMaxSeries: int, regionMergeSeries: int,
    splitMergeIntervalSecs: int, scheduleLimit: int, heartbeatIntervalSecs: int, bootstrapTimeoutMs: int,
    primaryFailoverAfterSecs: int, addPeerProposalsEnabled: Option<bool>, removePeerProposalsEnabled: Option<bool>,
    scatterPeerTimeoutMs: int, scatterMaxPeerAttempts: int, loadSplitQpsThreshold: Option<int>,
    maxRegionsPerMeasurement: int)

  datatype Cluster = Cluster(
    replicas: Option<int>,
    server: ServerSpec,
    walFormat: string,
    flush: FlushSpec,
    chdb: ChdbSpec,
    authEnabled: bool,
    maxTagValuesPerMeasurement: int, maxMeasurementsPerDatabase: int,
    logLevel: string, logFormat: string,
    statementSummaryEnabled: Option<bool>, statementSummaryMaxEntries: int,
    hintedHandoffEnabled: Option<bool>, maxHintsPerPeer: int, maxHintAgeSecs: int,
    rateLimitEnabled: Option<bool>, maxRequestsPerSecond: int,
    retentionEnabled: Option<bool>, retentionInterval: string,
    tuning: TuningSpec,
    sharding: Option<ShardingSpec>,
    controlListenerAnnotated: bool,
    version: Semver.Version)

  // ---------- keys with optional values ----------

  datatype Slot = Slot(key: string, value: Option<Value>)

  datatype Table = Table(name: string, slots: Option<seq<Slot>>)

  function Fixed(key: string, v: Value): Slot { Slot(key, Some(v)) }

  function IntOr(key: string, v: int, default: int): Slot { Slot(key, Some(Int(if v > 0 then v else default))) }

  function Positive(key: string, v: int): Slot { Slot(key, if v > 0 then Some(Int(v)) else None) }

  function TextOr(key: string, s: string, default: string): Slot { Slot(key, Some(Str(if s != "" then s else default))) }

  function FlagOr(key: string, b: Option<bool>, default: bool): Slot {
    Slot(key, Some(Bool(if b.Some? then b.value else default)))
  }

  function Flag(key: string, b: Option<bool>): Slot { Slot(key, if b.Some? then Some(Bool(b.value)) else None) }

  function When(key: string, on: bool, v: Value): Slot { Slot(key, if on then Some(v) else None) }

  /** The entries actually written. */
  function Present(slots: seq<Slot>): seq<Entry> {
    if slots == [] then []
    else
      var last := slots[|slots| - 1];
      Present(slots[..|slots| - 1]) + if last.value.Some? then [Entry(last.key, last.value.value)] else []
  }

  function Sections(tables: seq<Table>): Doc {
    if tables == [] then []
    else
      var last := tables[|tables| - 1];
      Sections(tables[..|tables| - 1]) + if last.slots.Some? then [Section(last.name, Present(last.slots.value))] else []
  }

  // ---------- the settings ----------

  function ServerPort(c: Cluster): int {
    if c.server.port > 0 then c.server.port else 8086
  }

  function ControlListenerEnabled(c: Cluster, clusterEnabled: bool): bool {
    clusterEnabled && c.controlListenerAnnotated && Compat.VersionSupports(c.version, Compat.ControlListener)
  }

  function ClusterMetadataEnabled(c: Cluster): bool {
    (if c.replicas.Some? then c.replicas.value else 1) > 1 || (c.sharding.Some? && c.sharding.value.enabled)
  }

  function ServerSlots(c: Cluster): seq<Slot> {
    var s := c.server;
    [Fixed("bind_address", Str("0.0.0.0")),
     IntOr("port", s.port, 8086),
     Positive("max_body_size_bytes", s.maxBodySizeBytes),
     Positive("request_timeout_secs", s.requestTimeoutSecs),
     Positive("query_timeout_secs", s.queryTimeoutSecs),
     Positive("max_concurrent_queries", s.maxConcurrentQueries),
     When("tls_enabled", s.tlsEnabled, Bool(true)),
     When("tls_cert_path", s.tlsEnabled, Str("/etc/hyperbytedb/tls/tls.crt")),
     When("tls_key_path", s.tlsEnabled, Str("/etc/hyperbytedb/tls/tls.key"))]
  }

  function StorageSlots(c: Cluster): seq<Slot> {
    [Fixed("wal_dir", Str("/var/lib/hyperbytedb/wal")),
     Fixed("meta_dir", Str("/var/lib/hyperbytedb/meta")),
     TextOr("wal_format", c.walFormat, "bincode")]
  }

  function FlushSlots(c: Cluster): seq<Slot> {
    var f := c.flush;
    [IntOr("interval_secs", f.intervalSecs, 10),
     IntOr("max_points_per_batch", f.maxPointsPerBatch, 50000),
     Positive("wal_batch_size", f.walBatchSize),
     Positive("wal_batch_delay_us", f.walBatchDelayUs),
     FlagOr("arrow_wal_enabled", f.arrowWalEnabled, true)]
  }

  /** A database without split pools gets one pool for both.  One that has them
      gets the sizes set; when neither is, the old single size, else the query
      pool is left to a database that sizes it itself. */
  function ChdbSlots(c: Cluster): seq<Slot> {
    var p := c.chdb;
    var split := Compat.VersionSupports(c.version, Compat.SplitChdbPools);
    var auto := Compat.VersionSupports(c.version, Compat.AutoQueryPool);
    var neither := p.queryPoolSize <= 0 && p.writePoolSize <= 0;
    [TextOr("session_data_path", p.sessionDataPath, "/var/lib/hyperbytedb/chdb"),
     When("query_pool_size", split && p.queryPoolSize > 0, Int(p.queryPoolSize)),
     Slot("write_pool_size",
          if split && p.writePoolSize > 0 then Some(Int(p.writePoolSize))
          else if split && neither && p.poolSize <= 0 && auto then Some(Int(1)) else None),
     Slot("pool_size",
          if !split then Some(Int(if p.poolSize > 0 then p.poolSize else if p.queryPoolSize > 0 then p.queryPoolSize else 1))
          else if neither && p.poolSize > 0 then Some(Int(p.poolSize))
          else if neither && !auto then Some(Int(1)) else None)]
  }

  function AuthSlots(c: Cluster): seq<Slot> {
    [Fixed("enabled", Bool(c.authEnabled))]
  }

  function CardinalitySlots(c: Cluster): seq<Slot> {
    [IntOr("max_tag_values_per_measurement", c.maxTagValuesPerMeasurement, 100000),
     IntOr("max_measurements_per_database", c.maxMeasurementsPerDatabase, 10000)]
  }

  function LoggingSlots(c: Cluster): seq<Slot> {
    [TextOr("level", c.logLevel, "info"),
     TextOr("format", c.logFormat, "text")]
  }

  function StatementSummarySlots(c: Cluster): seq<Slot> {
    [FlagOr("enabled", c.statementSummaryEnabled, true),
     IntOr("max_entries", c.statementSummaryMaxEntries, 1000)]
  }

  function HintedHandoffSlots(c: Cluster): seq<Slot> {
    [FlagOr("enabled", c.hintedHandoffEnabled, true),
     IntOr("max_hints_per_peer", c.maxHintsPerPeer, 100000),
     IntOr("max_hint_age_secs", c.maxHintAgeSecs, 3600)]
  }

  function RateLimitSlots(c: Cluster): seq<Slot> {
    [Flag("enabled", c.rateLimitEnabled),
     Positive("max_requests_per_second", c.maxRequestsPerSecond)]
  }

  function RetentionSlots(c: Cluster): seq<Slot> {
    [FlagOr("enabled", c.retentionEnabled, true),
     TextOr("interval", c.retentionInterval, "12h")]
  }

  function ClusterSlots(c: Cluster, clusterEnabled: bool): seq<Slot> {
    var t := c.tuning;
    [Fixed("enabled", Bool(clusterEnabled)),
     Fixed("peers", Str("")),
     Fixed("replication_log_dir", Str("/var/lib/hyperbytedb/replication_log")),
     Fixed("raft_dir", Str("/var/lib/hyperbytedb/raft")),
     When("control_port", ControlListenerEnabled(c, clusterEnabled), Int(ServerPort(c) + 1)),
     IntOr("heartbeat_interval_secs", t.heartbeatIntervalSecs, 2),
     IntOr("heartbeat_miss_threshold", t.heartbeatMissThreshold, 5),
     IntOr("replication_max_retries", t.replicationMaxRetries, 5),
     IntOr("replication_queue_depth", t.replicationQueueDepth, 8192),
     IntOr("replication_max_inflight_batches", t.replicationMaxInflightBatches, 8),
     IntOr("replication_max_coalesce_body_bytes", t.replicationMaxCoalesceBodyBytes, 8388608),
     IntOr("replicate_receiver_queue_depth", t.replicateReceiverQueueDepth, 1024),
     IntOr("replication_truncate_stale_peer_multiplier", t.replicationTruncateStalePeerMultiplier, 2),
     Positive("raft_heartbeat_interval_ms", t.raftHeartbeatIntervalMs),
     Positive("raft_election_timeout_ms", t.raftElectionTimeoutMs),
     Positive("raft_snapshot_threshold", t.raftSnapshotThreshold)]
  }

  function ReplicationSlots(r: ReplicationSpec): seq<Slot> {
    [TextOr("mode", r.mode, "async"),
     Positive("ack_timeout_ms", r.ackTimeoutMs)]
  }

  function QuorumSlots(m: MinAcks): seq<Slot> {
    [Fixed("min_acks", match m case Count(n) => Int(n) case Rule(s) => Str(s))]
  }

  function ShardingSlots(s: ShardingSpec): seq<Slot> {
    [Fixed("enabled", Bool(s.enabled)),
     Positive("replication_factor", s.replicationFactor),
     Positive("region_split_series", s.regionSplitSeries),
     Positive("region_max_series", s.regionMaxSeries),
     Positive("region_merge_series", s.regionMergeSeries),
     Positive("split_merge_interval_secs", s.splitMergeIntervalSecs),
     Positive("schedule_limit", s.scheduleLimit),
     Positive("heartbeat_interval_secs", s.heartbeatIntervalSecs),
     Positive("bootstrap_timeout_ms", s.bootstrapTimeoutMs),
     Positive("primary_failover_after_secs", s.primaryFailoverAfterSecs),
     Flag("add_peer_proposals_enabled", s.addPeerProposalsEnabled),
     Flag("remove_peer_proposals_enabled", s.removePeerProposalsEnabled),
     Positive("scatter_peer_timeout_ms", s.scatterPeerTimeoutMs),
     Positive("scatter_max_peer_attempts", s.scatterMaxPeerAttempts),
     Slot("load_split_qps_threshold",
          if s.loadSplitQpsThreshold.Some? then Some(Int(s.loadSplitQpsThreshold.value)) else None),
     Positive("max_regions_per_measurement", s.maxRegionsPerMeasurement)]
  }

  // ---------- the tables ----------

  function Tables(c: Cluster, clusterEnabled: bool): seq<Table> {
    [Table("server", Some(ServerSlots(c))),
     Table("storage", Some(StorageSlots(c))),
     Table("flush", Some(FlushSlots(c))),
     Table("chdb", Some(ChdbSlots(c))),
     Table("auth", Some(AuthSlots(c))),
     Table("cardinality", Some(CardinalitySlots(c))),
     Table("logging", Some(LoggingSlots(c))),
     Table("statement_summary", Some(StatementSummarySlots(c))),
     Table("hinted_handoff", Some(HintedHandoffSlots(c))),
     RateLimitTable(c),
     Table("retention", Some(RetentionSlots(c))),
     Table("cluster", Some(ClusterSlots(c, clusterEnabled))),
     ReplicationTable(c),
     QuorumTable(c),
     ShardingTable(c)]
  }

  function RateLimitTable(c: Cluster): Table {
    Table("rate_limit",
          if c.rateLimitEnabled.None? && c.maxRequestsPerSecond == 0 then None else Some(RateLimitSlots(c)))
  }

  function ReplicationTable(c: Cluster): Table {
    Table("cluster.replication",
          if c.tuning.replication.Some? then Some(ReplicationSlots(c.tuning.replication.value)) else None)
  }

  function QuorumTable(c: Cluster): Table {
    Table("cluster.replication.sync_quorum",
          if c.tuning.replication.Some? && c.tuning.replication.value.minAcks.Some?
          then Some(QuorumSlots(c.tuning.replication.value.minAcks.value)) else None)
  }

  function ShardingTable(c: Cluster): Table {
    Table("sharding",
          if c.sharding.Some? && Compat.VersionSupports(c.version, Compat.Sharding)
          then Some(ShardingSlots(c.sharding.value)) else None)
  }

  /** The settings in effect, as a document. */
  function Settings(c: Cluster, clusterEnabled: bool): Doc {
    Sections(Tables(c, clusterEnabled))
  }

  // ---------- keys and tables are defined once ----------

  ghost predicate GoodSlots(slots: seq<Slot>) {
    && (forall i, j :: 0 <= i < j < |slots| ==> slots[i].key != slots[j].key)
    && (forall i :: 0 <= i < |slots| ==> BareKey(slots[i].key))
  }

  lemma {:induction false} PresentKeys(slots: seq<Slot>)
    requires GoodSlots(slots)
    ensures DistinctKeys(Present(slots))
    ensures forall i :: 0 <= i < |Present(slots)| ==> BareKey(Present(slots)[i].key)
    ensures forall i :: 0 <= i < |Present(slots)| ==>
      exists k :: 0 <= k < |slots| && slots[k].key == Present(slots)[i].key && slots[k].value == Some(Present(slots)[i].value)
  {
    if slots != [] {
      var front := slots[..|slots| - 1];
      PresentKeys(front);
      forall i | 0 <= i < |Present(slots)|
        ensures exists k :: 0 <= k < |slots| && slots[k].key == Present(slots)[i].key && slots[k].value == Some(Present(slots)[i].value)
      {
        if i < |Present(front)| {
          var k :| 0 <= k < |front| && front[k].key == Present(front)[i].key && front[k].value == Some(Present(front)[i].value);
          assert slots[k] == front[k];
        } else {
          assert slots[|slots| - 1].value.Some?;
        }
      }
    }
  }

  ghost predicate GoodTables(tables: seq<Table>) {
    && (forall i, j :: 0 <= i < j < |tables| ==> tables[i].name != tables[j].name)
    && (forall i :: 0 <= i < |tables| ==>
          TableName(tables[i].name) && (tables[i].slots.Some? ==> GoodSlots(tables[i].slots.value)))
  }

  lemma {:induction false} SectionsAreWellFormed(tables: seq<Table>)
    requires GoodTables(tables)
    ensures WellFormed(Sections(tables))
    ensures forall i :: 0 <= i < |Sections(tables)| ==>
      exists k :: 0 <= k < |tables| && tables[k].name == Sections(tables)[i].name
  {
    if tables != [] {
      var front, last := tables[..|tables| - 1], tables[|tables| - 1];
      SectionsAreWellFormed(front);
      if last.slots.Some? {
        PresentKeys(last.slots.value);
      }
      forall i | 0 <= i < |Sections(tables)|
        ensures exists k :: 0 <= k < |tables| && tables[k].name == Sections(tables)[i].name
      {
        if i < |Sections(front)| {
          var k :| 0 <= k < |front| && front[k].name == Sections(front)[i].name;
          assert tables[k] == front[k];
        } else {
          assert tables[|tables| - 1].name == Sections(tables)[i].name;
        }
      }
    }
  }
}
