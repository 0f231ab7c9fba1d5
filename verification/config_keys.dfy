/** No key is written twice into a table, no table twice into the file, and
    every name is a bare one. */
module ConfigKeys {
  import opened Common
  import opened Toml
  import opened ConfigSettings
  import Compat

  ghost predicate Distinct(keys: seq<string>) {
    forall i, j :: 0 <= i < j < |keys| ==> keys[i] != keys[j]
  }

  ghost predicate Bare(keys: seq<string>) {
    forall i :: 0 <= i < |keys| ==> BareKey(keys[i])
  }

  lemma GoodKeysMakeGoodSlots(slots: seq<Slot>, keys: seq<string>)
    requires Distinct(keys) && Bare(keys) && |slots| == |keys|
    requires forall i :: 0 <= i < |slots| ==> slots[i].key == keys[i]
    ensures GoodSlots(slots)
  {
    forall i | 0 <= i < |slots|
      ensures BareKey(slots[i].key)
    {
      assert BareKey(keys[i]);
    }
  }

  lemma ShortKeysAreBare()
    ensures BareKey("wal_dir") && BareKey("meta_dir") && BareKey("wal_format") && BareKey("level")
    ensures BareKey("format") && BareKey("enabled") && BareKey("max_entries") && BareKey("max_requests_per_second")
    ensures BareKey("interval") && BareKey("mode") && BareKey("ack_timeout_ms")
  {
  }

  lemma ServerKeysAreBareA()
    ensures BareKey("bind_address") && BareKey("port") && BareKey("max_body_size_bytes")
    ensures BareKey("request_timeout_secs") && BareKey("query_timeout_secs")
  {
  }

  lemma ServerKeysAreBareB()
    ensures BareKey("max_concurrent_queries") && BareKey("tls_enabled") && BareKey("tls_cert_path")
    ensures BareKey("tls_key_path")
  {
  }

  const SERVER_KEYS := [
    "bind_address", "port", "max_body_size_bytes", "request_timeout_secs", "query_timeout_secs",
    "max_concurrent_queries", "tls_enabled", "tls_cert_path", "tls_key_path"]

  lemma ServerKeysAreBare()
    ensures Bare(SERVER_KEYS)
  {
    ServerKeysAreBareA();
    ServerKeysAreBareB();
  }

  lemma ServerKeysAreDistinct()
    ensures Distinct(SERVER_KEYS)
  {
  }

  lemma ServerSlotsAreGood(c: Cluster)
    ensures GoodSlots(ServerSlots(c))
  {
    ServerKeysAreBare();
    ServerKeysAreDistinct();
    GoodKeysMakeGoodSlots(ServerSlots(c), SERVER_KEYS);
  }

  lemma StorageSlotsAreGood(c: Cluster)
    ensures GoodSlots(StorageSlots(c))
  {
    ShortKeysAreBare();
  }

  lemma FlushKeysAreBareA()
    ensures BareKey("interval_secs") && BareKey("max_points_per_batch") && BareKey("wal_batch_size")
    ensures BareKey("wal_batch_delay_us")
  {
  }

  lemma FlushKeysAreBareB()
    ensures BareKey("arrow_wal_enabled")
  {
  }

  lemma FlushSlotsAreGood(c: Cluster)
    ensures GoodSlots(FlushSlots(c))
  {
    FlushKeysAreBareA();
    FlushKeysAreBareB();
  }

  lemma ChdbKeysAreBare()
    ensures BareKey("session_data_path") && BareKey("query_pool_size") && BareKey("write_pool_size")
    ensures BareKey("pool_size")
  {
  }

  lemma ChdbSlotsAreGood(c: Cluster)
    ensures GoodSlots(ChdbSlots(c))
  {
    ChdbKeysAreBare();
  }

  lemma AuthSlotsAreGood(c: Cluster)
    ensures GoodSlots(AuthSlots(c))
  {
  }

  lemma CardinalityKeysAreBare()
    ensures BareKey("max_tag_values_per_measurement") && BareKey("max_measurements_per_database")
  {
  }

  lemma CardinalitySlotsAreGood(c: Cluster)
    ensures GoodSlots(CardinalitySlots(c))
  {
    CardinalityKeysAreBare();
  }

  lemma LoggingSlotsAreGood(c: Cluster)
    ensures GoodSlots(LoggingSlots(c))
  {
    ShortKeysAreBare();
  }

  lemma StatementSummarySlotsAreGood(c: Cluster)
    ensures GoodSlots(StatementSummarySlots(c))
  {
    ShortKeysAreBare();
  }

  lemma HintedHandoffKeysAreBare()
    ensures BareKey("enabled") && BareKey("max_hints_per_peer") && BareKey("max_hint_age_secs")
  {
  }

  lemma HintedHandoffSlotsAreGood(c: Cluster)
    ensures GoodSlots(HintedHandoffSlots(c))
  {
    HintedHandoffKeysAreBare();
  }

  lemma RateLimitSlotsAreGood(c: Cluster)
    ensures GoodSlots(RateLimitSlots(c))
  {
    ShortKeysAreBare();
  }

  lemma RetentionSlotsAreGood(c: Cluster)
    ensures GoodSlots(RetentionSlots(c))
  {
    ShortKeysAreBare();
  }

  lemma ClusterKeysAreBareA()
    ensures BareKey("enabled") && BareKey("peers") && BareKey("replication_log_dir") && BareKey("raft_dir")
    ensures BareKey("control_port") && BareKey("heartbeat_interval_secs")
  {
  }

  lemma ClusterKeysAreBareB()
    ensures BareKey("heartbeat_miss_threshold") && BareKey("replication_max_retries")
    ensures BareKey("replication_queue_depth")
  {
  }

  lemma ClusterKeysAreBareC()
    ensures BareKey("replication_max_inflight_batches") && BareKey("replication_max_coalesce_body_bytes")
  {
  }

  lemma ClusterKeysAreBareD()
    ensures BareKey("replicate_receiver_queue_depth") && BareKey("replication_truncate_stale_peer_multiplier")
  {
  }

  lemma ClusterKeysAreBareE()
    ensures BareKey("raft_heartbeat_interval_ms") && BareKey("raft_election_timeout_ms")
    ensures BareKey("raft_snapshot_threshold")
  {
  }

  const CLUSTER_KEYS := [
    "enabled", "peers", "replication_log_dir", "raft_dir", "control_port", "heartbeat_interval_secs",
    "heartbeat_miss_threshold", "replication_max_retries", "replication_queue_depth",
    "replication_max_inflight_batches", "replication_max_coalesce_body_bytes",
    "replicate_receiver_queue_depth", "replication_truncate_stale_peer_multiplier",
    "raft_heartbeat_interval_ms", "raft_election_timeout_ms", "raft_snapshot_threshold"]

  lemma ClusterKeysAreBare()
    ensures Bare(CLUSTER_KEYS)
  {
    ClusterKeysAreBareA();
    ClusterKeysAreBareB();
    ClusterKeysAreBareC();
    ClusterKeysAreBareD();
    ClusterKeysAreBareE();
  }

  lemma ClusterKeysAreDistinct()
    ensures Distinct(CLUSTER_KEYS)
  {
  }

  lemma ClusterSlotsAreGood(c: Cluster, clusterEnabled: bool)
    ensures GoodSlots(ClusterSlots(c, clusterEnabled))
  {
    ClusterKeysAreBare();
    ClusterKeysAreDistinct();
    GoodKeysMakeGoodSlots(ClusterSlots(c, clusterEnabled), CLUSTER_KEYS);
  }

  lemma ReplicationSlotsAreGood(r: ReplicationSpec)
    ensures GoodSlots(ReplicationSlots(r))
  {
    ShortKeysAreBare();
  }

  lemma QuorumSlotsAreGood(m: MinAcks)
    ensures GoodSlots(QuorumSlots(m))
  {
  }

  lemma ShardingKeysAreBareA()
    ensures BareKey("enabled") && BareKey("replication_factor") && BareKey("region_split_series")
    ensures BareKey("region_max_series")
  {
  }

  lemma ShardingKeysAreBareB()
    ensures BareKey("region_merge_series") && BareKey("split_merge_interval_secs") && BareKey("schedule_limit")
  {
  }

  lemma ShardingKeysAreBareC()
    ensures BareKey("heartbeat_interval_secs") && BareKey("bootstrap_timeout_ms")
    ensures BareKey("primary_failover_after_secs")
  {
  }

  lemma ShardingKeysAreBareD()
    ensures BareKey("add_peer_proposals_enabled") && BareKey("remove_peer_proposals_enabled")
  {
  }

  lemma ShardingKeysAreBareE()
    ensures BareKey("scatter_peer_timeout_ms") && BareKey("scatter_max_peer_attempts")
    ensures BareKey("load_split_qps_threshold")
  {
  }

  lemma ShardingKeysAreBareF()
    ensures BareKey("max_regions_per_measurement")
  {
  }

  const SHARDING_KEYS := [
    "enabled", "replication_factor", "region_split_series", "region_max_series", "region_merge_series",
    "split_merge_interval_secs", "schedule_limit", "heartbeat_interval_secs", "bootstrap_timeout_ms",
    "primary_failover_after_secs", "add_peer_proposals_enabled", "remove_peer_proposals_enabled",
    "scatter_peer_timeout_ms", "scatter_max_peer_attempts", "load_split_qps_threshold",
    "max_regions_per_measurement"]

  lemma ShardingKeysAreBare()
    ensures Bare(SHARDING_KEYS)
  {
    ShardingKeysAreBareA();
    ShardingKeysAreBareB();
    ShardingKeysAreBareC();
    ShardingKeysAreBareD();
    ShardingKeysAreBareE();
    ShardingKeysAreBareF();
  }

  lemma ShardingKeysAreDistinct()
    ensures Distinct(SHARDING_KEYS)
  {
  }

  lemma ShardingSlotsAreGood(s: ShardingSpec)
    ensures GoodSlots(ShardingSlots(s))
  {
    ShardingKeysAreBare();
    ShardingKeysAreDistinct();
    GoodKeysMakeGoodSlots(ShardingSlots(s), SHARDING_KEYS);
  }

  // ---------- tables ----------

  const TABLE_NAMES := [
    "server", "storage", "flush", "chdb", "auth", "cardinality", "logging", "statement_summary",
    "hinted_handoff", "rate_limit", "retention", "cluster", "cluster.replication",
    "cluster.replication.sync_quorum", "sharding"]

  lemma TableNamesA()
    ensures TableName("server")
    ensures TableName("storage")
    ensures TableName("flush")
    ensures TableName("chdb")
    ensures TableName("auth")
    ensures TableName("cardinality")
    ensures TableName("logging")
  {
  }

  lemma TableNamesB()
    ensures TableName("statement_summary")
    ensures TableName("hinted_handoff")
    ensures TableName("rate_limit")
    ensures TableName("retention")
    ensures TableName("cluster")
  {
  }

  lemma TableNamesC()
    ensures TableName("cluster.replication")
    ensures TableName("cluster.replication.sync_quorum")
    ensures TableName("sharding")
  {
  }

  lemma TableNamesAreDistinct()
    ensures Distinct(TABLE_NAMES)
  {
  }

  lemma TableNamesAreNames()
    ensures forall i :: 0 <= i < |TABLE_NAMES| ==> TableName(TABLE_NAMES[i])
  {
    TableNamesA();
    TableNamesB();
    TableNamesC();
  }

  lemma TableSlotsAreGood(c: Cluster, clusterEnabled: bool, i: nat)
    requires i < |Tables(c, clusterEnabled)| && Tables(c, clusterEnabled)[i].slots.Some?
    ensures GoodSlots(Tables(c, clusterEnabled)[i].slots.value)
  {
    hide ServerSlots, StorageSlots, FlushSlots, ChdbSlots, AuthSlots, CardinalitySlots, LoggingSlots;
    hide StatementSummarySlots, HintedHandoffSlots, RateLimitSlots, RetentionSlots, ClusterSlots;
    hide ReplicationSlots, QuorumSlots, ShardingSlots, GoodSlots, Compat.VersionSupports;
    match i {
      case 0 => ServerSlotsAreGood(c);
      case 1 => StorageSlotsAreGood(c);
      case 2 => FlushSlotsAreGood(c);
      case 3 => ChdbSlotsAreGood(c);
      case 4 => AuthSlotsAreGood(c);
      case 5 => CardinalitySlotsAreGood(c);
      case 6 => LoggingSlotsAreGood(c);
      case 7 => StatementSummarySlotsAreGood(c);
      case 8 => HintedHandoffSlotsAreGood(c);
      case 9 => RateLimitSlotsAreGood(c);
      case 10 => RetentionSlotsAreGood(c);
      case 11 => ClusterSlotsAreGood(c, clusterEnabled);
      case 12 => ReplicationSlotsAreGood(c.tuning.replication.value);
      case 13 => QuorumSlotsAreGood(c.tuning.replication.value.minAcks.value);
      case 14 => ShardingSlotsAreGood(c.sharding.value);
      case _ => assert false;
    }
  }

  lemma TableIsNamed(c: Cluster, clusterEnabled: bool, i: nat)
    requires i < |TABLE_NAMES|
    ensures |Tables(c, clusterEnabled)| == |TABLE_NAMES| && Tables(c, clusterEnabled)[i].name == TABLE_NAMES[i]
  {
    hide ServerSlots, StorageSlots, FlushSlots, ChdbSlots, AuthSlots, CardinalitySlots, LoggingSlots;
    hide StatementSummarySlots, HintedHandoffSlots, RateLimitSlots, RetentionSlots, ClusterSlots;
    hide ReplicationSlots, QuorumSlots, ShardingSlots, GoodSlots, Compat.VersionSupports;
  }

  lemma TablesAreGood(c: Cluster, clusterEnabled: bool)
    ensures GoodTables(Tables(c, clusterEnabled))
  {
    hide Tables, TableName, GoodSlots, BareKey;
    var tables := Tables(c, clusterEnabled);
    TableIsNamed(c, clusterEnabled, 0);
    TableNamesAreDistinct();
    TableNamesAreNames();
    forall i | 0 <= i < |tables|
      ensures tables[i].name == TABLE_NAMES[i] && TableName(tables[i].name)
      ensures tables[i].slots.Some? ==> GoodSlots(tables[i].slots.value)
    {
      TableIsNamed(c, clusterEnabled, i);
      assert TableName(TABLE_NAMES[i]);
      if tables[i].slots.Some? {
        TableSlotsAreGood(c, clusterEnabled, i);
      }
    }
  }

  /** No table or key is defined twice, whatever the spec. */
  lemma SettingsAreWellFormed(c: Cluster, clusterEnabled: bool)
    ensures WellFormed(Settings(c, clusterEnabled))
  {
    TablesAreGood(c, clusterEnabled);
    SectionsAreWellFormed(Tables(c, clusterEnabled));
  }
}
