/** Rendering the configuration file: one builder that every section appends to. */
module ConfigWriter {
  import opened Common
  import opened Toml
  import opened ConfigSettings
  import Compat

  // ---------- what one more line does to a printed document ----------

  lemma JoinOneMore(lines: seq<string>, line: string)
    ensures Join(lines + [line]) == Join(lines) + line + "\n"
  {
    assert (lines + [line])[..|lines + [line]| - 1] == lines;
  }

  lemma PrintHeader(doc: Doc, name: string)
    ensures Print(doc + [Section(name, [])]) == Print(doc) + (if doc == [] then "" else "\n") + HeaderLine(name) + "\n"
  {
    var next := doc + [Section(name, [])];
    assert next[..|next| - 1] == doc;
    if doc == [] {
      assert DocLines(next) == DocLines(doc) + [HeaderLine(name)];
      JoinOneMore(DocLines(doc), HeaderLine(name));
    } else {
      assert DocLines(next) == DocLines(doc) + [""] + [HeaderLine(name)];
      JoinOneMore(DocLines(doc), "");
      JoinOneMore(DocLines(doc) + [""], HeaderLine(name));
    }
  }

  lemma PrintEntry(doc: Doc, name: string, entries: seq<Entry>, e: Entry)
    ensures Print(doc + [Section(name, entries + [e])]) == Print(doc + [Section(name, entries)]) + EntryLine(e) + "\n"
  {
    var before, after := doc + [Section(name, entries)], doc + [Section(name, entries + [e])];
    assert before[..|before| - 1] == doc == after[..|after| - 1];
    assert (entries + [e])[..|entries + [e]| - 1] == entries;
    assert Section(name, entries + [e]).(entries := entries) == Section(name, entries);
    assert DocLines(after) == DocLines(before) + [EntryLine(e)];
    JoinOneMore(DocLines(before), EntryLine(e));
  }

  lemma OneMoreTable(tables: seq<Table>, t: Table)
    ensures Sections(tables + [t]) ==
      Sections(tables) + if t.slots.Some? then [Section(t.name, Present(t.slots.value))] else []
  {
    assert (tables + [t])[..|tables + [t]| - 1] == tables;
  }

  lemma OneMoreSlot(slots: seq<Slot>, s: Slot)
    ensures Present(slots + [s]) == Present(slots) + if s.value.Some? then [Entry(s.key, s.value.value)] else []
  {
    assert (slots + [s])[..|slots + [s]| - 1] == slots;
  }

  lemma HeaderText(tables: seq<Table>, name: string)
    ensures Print(Sections(tables + [Table(name, Some([]))])) ==
      Print(Sections(tables)) + (if Sections(tables) == [] then "" else "\n") + HeaderLine(name) + "\n"
  {
    OneMoreTable(tables, Table(name, Some([])));
    PrintHeader(Sections(tables), name);
  }

  lemma EntryText(tables: seq<Table>, name: string, slots: seq<Slot>, key: string, v: Value)
    ensures Print(Sections(tables + [Table(name, Some(slots + [Slot(key, Some(v))]))])) ==
      Print(Sections(tables + [Table(name, Some(slots))])) + EntryLine(Entry(key, v)) + "\n"
  {
    OneMoreTable(tables, Table(name, Some(slots)));
    OneMoreTable(tables, Table(name, Some(slots + [Slot(key, Some(v))])));
    OneMoreSlot(slots, Slot(key, Some(v)));
    PrintEntry(Sections(tables), name, Present(slots), Entry(key, v));
  }

  lemma LeftOutKey(tables: seq<Table>, name: string, slots: seq<Slot>, key: string)
    ensures Sections(tables + [Table(name, Some(slots + [Slot(key, None)]))]) == Sections(tables + [Table(name, Some(slots))])
  {
    OneMoreTable(tables, Table(name, Some(slots)));
    OneMoreTable(tables, Table(name, Some(slots + [Slot(key, None)])));
    OneMoreSlot(slots, Slot(key, None));
    assert Present(slots) + [] == Present(slots);
  }

  lemma LeftOutTable(tables: seq<Table>, name: string)
    ensures Sections(tables + [Table(name, None)]) == Sections(tables)
  {
    OneMoreTable(tables, Table(name, None));
    assert Sections(tables) + [] == Sections(tables);
  }

  // ---------- the builder ----------

  /** The text so far, and for the proof the settings it is the print of: the
      tables finished, and how much of the open table's plan is done. */
  class Builder {
    var text: string
    ghost var before: seq<Table>
    ghost var table: Option<string>
    ghost var plan: seq<Slot>
    ghost var done: nat
    ghost var started: bool

    ghost function Written(): seq<Table>
      reads this
    {
      before + if table.Some? && done <= |plan| then [Table(table.value, Some(plan[..done]))] else []
    }

    ghost predicate Valid()
      reads this
    {
      && done <= |plan|
      && text == Print(Sections(Written()))
      && (started <==> Sections(Written()) != [])
    }

    constructor ()
      ensures Valid() && !started && Written() == []
    {
      text, before, table, plan, done, started := "", [], None, [], 0, false;
    }

    /** A header; an empty line sets it off from what precedes it. */
    method Header(first: bool, name: string, ghost slots: seq<Slot>)
      requires Valid() && first == !started
      modifies this
      ensures Valid() && started
      ensures before == old(Written()) && table == Some(name) && plan == slots && done == 0
    {
      hide Sections, Print, Present;
      HeaderText(Written(), name);
      OneMoreTable(Written(), Table(name, Some([])));
      text := text + (if first then "" else "\n") + ("[" + name + "]") + "\n";
      before, table, plan, done, started := Written(), Some(name), slots, 0, true;
    }

    method Put(key: string, v: Value)
      requires Valid() && table.Some? && done < |plan| && plan[done] == Slot(key, Some(v))
      modifies this`text, this`done
      ensures Valid() && done == old(done) + 1
    {
      hide Sections, Print, Present;
      assert plan[..done + 1] == plan[..done] + [plan[done]];
      EntryText(before, table.value, plan[..done], key, v);
      OneMoreTable(before, Table(table.value, Some(plan[..done])));
      OneMoreTable(before, Table(table.value, Some(plan[..done + 1])));
      text := text + (key + " = " + ValueText(v)) + "\n";
      done := done + 1;
    }

    /** The next key is not written. */
    ghost method Leave()
      requires Valid() && table.Some? && done < |plan| && plan[done].value.None?
      modifies this`done
      ensures Valid() && done == old(done) + 1
    {
      hide Sections, Print, Present;
      assert plan[..done + 1] == plan[..done] + [Slot(plan[done].key, None)];
      LeftOutKey(before, table.value, plan[..done], plan[done].key);
      done := done + 1;
    }

    lemma TextIsThePrint()
      requires Valid()
      ensures text == Print(Sections(Written()))
    {
    }

    /** The open table holds all it is to hold. */
    lemma Completed()
      requires table.Some? && done == |plan|
      ensures Written() == before + [Table(table.value, Some(plan))]
    {
      assert plan[..done] == plan;
    }

    /** A whole table is not written. */
    ghost method LeaveTable(name: string)
      requires Valid()
      modifies this`before, this`table
      ensures Valid() && Written() == old(Written()) + [Table(name, None)]
    {
      hide Sections, Print, Present;
      LeftOutTable(Written(), name);
      before, table := Written() + [Table(name, None)], None;
      assert before + [] == before;
    }
  }

  // ---------- the sections ----------

  method WriteServerSection(b: Builder, c: Cluster)
    requires b.Valid() && !b.started
    modifies b
    ensures b.Valid() && b.started && b.Written() == old(b.Written()) + [Table("server", Some(ServerSlots(c)))]
  {
    hide Builder.Valid, Builder.Written;
    b.Header(true, "server", ServerSlots(c));
    b.Put("bind_address", Str("0.0.0.0"));
    PutIntOr(b, "port", c.server.port, 8086);
    PutPositive(b, "max_body_size_bytes", c.server.maxBodySizeBytes);
    PutPositive(b, "request_timeout_secs", c.server.requestTimeoutSecs);
    PutPositive(b, "query_timeout_secs", c.server.queryTimeoutSecs);
    PutPositive(b, "max_concurrent_queries", c.server.maxConcurrentQueries);
    if c.server.tlsEnabled {
      b.Put("tls_enabled", Bool(true));
      b.Put("tls_cert_path", Str("/etc/hyperbytedb/tls/tls.crt"));
      b.Put("tls_key_path", Str("/etc/hyperbytedb/tls/tls.key"));
    } else {
      b.Leave();
      b.Leave();
      b.Leave();
    }
    b.Completed();
  }

  method WriteStorageSection(b: Builder, c: Cluster)
    requires b.Valid() && b.started
    modifies b
    ensures b.Valid() && b.started && b.Written() == old(b.Written()) + [Table("storage", Some(StorageSlots(c)))]
  {
    hide Builder.Valid, Builder.Written;
    b.Header(false, "storage", StorageSlots(c));
    b.Put("wal_dir", Str("/var/lib/hyperbytedb/wal"));
    b.Put("meta_dir", Str("/var/lib/hyperbytedb/meta"));
    PutTextOr(b, "wal_format", c.walFormat, "bincode");
    b.Completed();
  }

  method WriteFlushSection(b: Builder, c: Cluster)
    requires b.Valid() && b.started
    modifies b
    ensures b.Valid() && b.started && b.Written() == old(b.Written()) + [Table("flush", Some(FlushSlots(c)))]
  {
    hide Builder.Valid, Builder.Written;
    b.Header(false, "flush", FlushSlots(c));
    PutIntOr(b, "interval_secs", c.flush.intervalSecs, 10);
    PutIntOr(b, "max_points_per_batch", c.flush.maxPointsPerBatch, 50000);
    PutPositive(b, "wal_batch_size", c.flush.walBatchSize);
    PutPositive(b, "wal_batch_delay_us", c.flush.walBatchDelayUs);
    PutFlagOr(b, "arrow_wal_enabled", c.flush.arrowWalEnabled, true);
    b.Completed();
  }

  method WriteChdbSection(b: Builder, c: Cluster)
    requires b.Valid() && b.started
    modifies b
    ensures b.Valid() && b.started && b.Written() == old(b.Written()) + [Table("chdb", Some(ChdbSlots(c)))]
  {
    hide Builder.Valid, Builder.Written, Compat.VersionSupports;
    b.Header(false, "chdb", ChdbSlots(c));
    PutTextOr(b, "session_data_path", c.chdb.sessionDataPath, "/var/lib/hyperbytedb/chdb");
    if !Compat.VersionSupports(c.version, Compat.SplitChdbPools) {
      var pool := c.chdb.poolSize;
      if pool <= 0 {
        pool := c.chdb.queryPoolSize;
      }
      if pool <= 0 {
        pool := 1;
      }
      b.Leave();
      b.Leave();
      b.Put("pool_size", Int(pool));
      b.Completed();
      return;
    }
    PutPositive(b, "query_pool_size", c.chdb.queryPoolSize);
    if c.chdb.writePoolSize > 0 {
      b.Put("write_pool_size", Int(c.chdb.writePoolSize));
    }
    if c.chdb.queryPoolSize <= 0 && c.chdb.writePoolSize <= 0 {
      if c.chdb.poolSize > 0 {
        b.Leave();
        b.Put("pool_size", Int(c.chdb.poolSize));
      } else if Compat.VersionSupports(c.version, Compat.AutoQueryPool) {
        b.Put("write_pool_size", Int(1));
        b.Leave();
      } else {
        b.Leave();
        b.Put("pool_size", Int(1));
      }
    } else {
      if c.chdb.writePoolSize <= 0 {
        b.Leave();
      }
      b.Leave();
    }
    b.Completed();
  }

  method WriteAuthSection(b: Builder, c: Cluster)
    requires b.Valid() && b.started
    modifies b
    ensures b.Valid() && b.started && b.Written() == old(b.Written()) + [Table("auth", Some(AuthSlots(c)))]
  {
    hide Builder.Valid, Builder.Written;
    b.Header(false, "auth", AuthSlots(c));
    b.Put("enabled", Bool(c.authEnabled));
    b.Completed();
  }

  method WriteCardinalitySection(b: Builder, c: Cluster)
    requires b.Valid() && b.started
    modifies b
    ensures b.Valid() && b.started && b.Written() == old(b.Written()) + [Table("cardinality", Some(CardinalitySlots(c)))]
  {
    hide Builder.Valid, Builder.Written;
    b.Header(false, "cardinality", CardinalitySlots(c));
    PutIntOr(b, "max_tag_values_per_measurement", c.maxTagValuesPerMeasurement, 100000);
    PutIntOr(b, "max_measurements_per_database", c.maxMeasurementsPerDatabase, 10000);
    b.Completed();
  }

  method WriteLoggingSection(b: Builder, c: Cluster)
    requires b.Valid() && b.started
    modifies b
    ensures b.Valid() && b.started && b.Written() == old(b.Written()) + [Table("logging", Some(LoggingSlots(c)))]
  {
    hide Builder.Valid, Builder.Written;
    b.Header(false, "logging", LoggingSlots(c));
    PutTextOr(b, "level", c.logLevel, "info");
    PutTextOr(b, "format", c.logFormat, "text");
    b.Completed();
  }

  method WriteStatementSummarySection(b: Builder, c: Cluster)
    requires b.Valid() && b.started
    modifies b
    ensures b.Valid() && b.started && b.Written() == old(b.Written()) + [Table("statement_summary", Some(StatementSummarySlots(c)))]
  {
    hide Builder.Valid, Builder.Written;
    b.Header(false, "statement_summary", StatementSummarySlots(c));
    PutFlagOr(b, "enabled", c.statementSummaryEnabled, true);
    PutIntOr(b, "max_entries", c.statementSummaryMaxEntries, 1000);
    b.Completed();
  }

  method WriteHintedHandoffSection(b: Builder, c: Cluster)
    requires b.Valid() && b.started
    modifies b
    ensures b.Valid() && b.started && b.Written() == old(b.Written()) + [Table("hinted_handoff", Some(HintedHandoffSlots(c)))]
  {
    hide Builder.Valid, Builder.Written;
    b.Header(false, "hinted_handoff", HintedHandoffSlots(c));
    PutFlagOr(b, "enabled", c.hintedHandoffEnabled, true);
    PutIntOr(b, "max_hints_per_peer", c.maxHintsPerPeer, 100000);
    PutIntOr(b, "max_hint_age_secs", c.maxHintAgeSecs, 3600);
    b.Completed();
  }

  method WriteRateLimitSection(b: Builder, c: Cluster)
    requires b.Valid() && b.started
    modifies b
    ensures b.Valid() && b.started && b.Written() == old(b.Written()) + [RateLimitTable(c)]
  {
    hide Builder.Valid, Builder.Written;
    if c.rateLimitEnabled.None? && c.maxRequestsPerSecond == 0 {
      b.LeaveTable("rate_limit");
      return;
    }
    b.Header(false, "rate_limit", RateLimitSlots(c));
    PutFlag(b, "enabled", c.rateLimitEnabled);
    PutPositive(b, "max_requests_per_second", c.maxRequestsPerSecond);
    b.Completed();
  }

  method WriteRetentionSection(b: Builder, c: Cluster)
    requires b.Valid() && b.started
    modifies b
    ensures b.Valid() && b.started && b.Written() == old(b.Written()) + [Table("retention", Some(RetentionSlots(c)))]
  {
    hide Builder.Valid, Builder.Written;
    b.Header(false, "retention", RetentionSlots(c));
    PutFlagOr(b, "enabled", c.retentionEnabled, true);
    PutTextOr(b, "interval", c.retentionInterval, "12h");
    b.Completed();
  }

  method WriteClusterSection(b: Builder, c: Cluster, clusterEnabled: bool)
    requires b.Valid() && b.started
    modifies b
    ensures b.Valid() && b.started
    ensures b.Written() == old(b.Written()) +
      [Table("cluster", Some(ClusterSlots(c, clusterEnabled))), ReplicationTable(c), QuorumTable(c)]
  {
    hide Builder.Valid, Builder.Written, ControlListenerEnabled, IntOr, Positive;
    b.Header(false, "cluster", ClusterSlots(c, clusterEnabled));
    b.Put("enabled", Bool(clusterEnabled));
    b.Put("peers", Str(""));
    b.Put("replication_log_dir", Str("/var/lib/hyperbytedb/replication_log"));
    b.Put("raft_dir", Str("/var/lib/hyperbytedb/raft"));
    if ControlListenerEnabled(c, clusterEnabled) {
      b.Put("control_port", Int(ServerPort(c) + 1));
    } else {
      b.Leave();
    }
    WriteClusterTuning(b, c, clusterEnabled);
    b.Completed();
    WriteReplicationSubsections(b, c);
  }

  method WriteClusterTuning(b: Builder, c: Cluster, ghost clusterEnabled: bool)
    requires b.Valid() && b.table.Some? && b.plan == ClusterSlots(c, clusterEnabled) && b.done == 5
    modifies b`text, b`done
    ensures b.Valid() && b.done == 16
  {
    hide Builder.Valid, Builder.Written, ControlListenerEnabled, IntOr, Positive;
    PutIntOr(b, "heartbeat_interval_secs", c.tuning.heartbeatIntervalSecs, 2);
    PutIntOr(b, "heartbeat_miss_threshold", c.tuning.heartbeatMissThreshold, 5);
    PutIntOr(b, "replication_max_retries", c.tuning.replicationMaxRetries, 5);
    PutIntOr(b, "replication_queue_depth", c.tuning.replicationQueueDepth, 8192);
    PutIntOr(b, "replication_max_inflight_batches", c.tuning.replicationMaxInflightBatches, 8);
    PutIntOr(b, "replication_max_coalesce_body_bytes", c.tuning.replicationMaxCoalesceBodyBytes, 8 * 1024 * 1024);
    PutIntOr(b, "replicate_receiver_queue_depth", c.tuning.replicateReceiverQueueDepth, 1024);
    PutIntOr(b, "replication_truncate_stale_peer_multiplier", c.tuning.replicationTruncateStalePeerMultiplier, 2);
    PutPositive(b, "raft_heartbeat_interval_ms", c.tuning.raftHeartbeatIntervalMs);
    PutPositive(b, "raft_election_timeout_ms", c.tuning.raftElectionTimeoutMs);
    PutPositive(b, "raft_snapshot_threshold", c.tuning.raftSnapshotThreshold);
  }

  method WriteReplicationSubsections(b: Builder, c: Cluster)
    requires b.Valid() && b.started
    modifies b
    ensures b.Valid() && b.started && b.Written() == old(b.Written()) + [ReplicationTable(c), QuorumTable(c)]
  {
    hide Builder.Valid, Builder.Written;
    var repl := c.tuning.replication;
    if repl.None? {
      b.LeaveTable("cluster.replication");
      b.LeaveTable("cluster.replication.sync_quorum");
      return;
    }
    b.Header(false, "cluster.replication", ReplicationSlots(repl.value));
    var mode := repl.value.mode;
    if mode == "" {
      mode := "async";
    }
    b.Put("mode", Str(mode));
    PutPositive(b, "ack_timeout_ms", repl.value.ackTimeoutMs);
    b.Completed();
    if repl.value.minAcks.Some? {
      b.Header(false, "cluster.replication.sync_quorum", QuorumSlots(repl.value.minAcks.value));
      match repl.value.minAcks.value {
        case Count(n) => b.Put("min_acks", Int(n));
        case Rule(s) => b.Put("min_acks", Str(s));
      }
      b.Completed();
    } else {
      b.LeaveTable("cluster.replication.sync_quorum");
    }
  }

  method WriteShardingSection(b: Builder, c: Cluster)
    requires b.Valid() && b.started
    modifies b
    ensures b.Valid() && b.started && b.Written() == old(b.Written()) + [ShardingTable(c)]
  {
    hide Builder.Valid, Builder.Written, Compat.VersionSupports, Positive, Flag;
    if c.sharding.None? || !Compat.VersionSupports(c.version, Compat.Sharding) {
      b.LeaveTable("sharding");
      return;
    }
    var s := c.sharding.value;
    b.Header(false, "sharding", ShardingSlots(s));
    b.Put("enabled", Bool(s.enabled));
    PutPositive(b, "replication_factor", s.replicationFactor);
    PutPositive(b, "region_split_series", s.regionSplitSeries);
    PutPositive(b, "region_max_series", s.regionMaxSeries);
    PutPositive(b, "region_merge_series", s.regionMergeSeries);
    PutPositive(b, "split_merge_interval_secs", s.splitMergeIntervalSecs);
    PutPositive(b, "schedule_limit", s.scheduleLimit);
    PutPositive(b, "heartbeat_interval_secs", s.heartbeatIntervalSecs);
    PutPositive(b, "bootstrap_timeout_ms", s.bootstrapTimeoutMs);
    WriteShardingLimits(b, s);
    b.Completed();
  }

  method WriteShardingLimits(b: Builder, s: ShardingSpec)
    requires b.Valid() && b.table.Some? && b.plan == ShardingSlots(s) && b.done == 9
    modifies b`text, b`done
    ensures b.Valid() && b.done == 16
  {
    hide Builder.Valid, Builder.Written, Positive, Flag;
    PutPositive(b, "primary_failover_after_secs", s.primaryFailoverAfterSecs);
    PutFlag(b, "add_peer_proposals_enabled", s.addPeerProposalsEnabled);
    PutFlag(b, "remove_peer_proposals_enabled", s.removePeerProposalsEnabled);
    PutPositive(b, "scatter_peer_timeout_ms", s.scatterPeerTimeoutMs);
    PutPositive(b, "scatter_max_peer_attempts", s.scatterMaxPeerAttempts);
    if s.loadSplitQpsThreshold.Some? {
      b.Put("load_split_qps_threshold", Int(s.loadSplitQpsThreshold.value));
    } else {
      b.Leave();
    }
    PutPositive(b, "max_regions_per_measurement", s.maxRegionsPerMeasurement);
  }

  // ---------- defaults, and keys written only when set ----------

  method PutIntOr(b: Builder, key: string, v: int, default: int)
    requires b.Valid() && b.table.Some? && b.done < |b.plan| && b.plan[b.done] == IntOr(key, v, default)
    modifies b`text, b`done
    ensures b.Valid() && b.done == old(b.done) + 1
  {
    hide Builder.Valid, Builder.Written;
    var effective := default;
    if v > 0 {
      effective := v;
    }
    b.Put(key, Int(effective));
  }

  method PutTextOr(b: Builder, key: string, s: string, default: string)
    requires b.Valid() && b.table.Some? && b.done < |b.plan| && b.plan[b.done] == TextOr(key, s, default)
    modifies b`text, b`done
    ensures b.Valid() && b.done == old(b.done) + 1
  {
    hide Builder.Valid, Builder.Written;
    var effective := default;
    if s != "" {
      effective := s;
    }
    b.Put(key, Str(effective));
  }

  method PutFlagOr(b: Builder, key: string, flag: Option<bool>, default: bool)
    requires b.Valid() && b.table.Some? && b.done < |b.plan| && b.plan[b.done] == FlagOr(key, flag, default)
    modifies b`text, b`done
    ensures b.Valid() && b.done == old(b.done) + 1
  {
    hide Builder.Valid, Builder.Written;
    var effective := default;
    if flag.Some? {
      effective := flag.value;
    }
    b.Put(key, Bool(effective));
  }

  method PutPositive(b: Builder, key: string, v: int)
    requires b.Valid() && b.table.Some? && b.done < |b.plan| && b.plan[b.done] == Positive(key, v)
    modifies b`text, b`done
    ensures b.Valid() && b.done == old(b.done) + 1
  {
    hide Builder.Valid, Builder.Written;
    if v > 0 {
      b.Put(key, Int(v));
    } else {
      b.Leave();
    }
  }

  method PutFlag(b: Builder, key: string, flag: Option<bool>)
    requires b.Valid() && b.table.Some? && b.done < |b.plan| && b.plan[b.done] == Flag(key, flag)
    modifies b`text, b`done
    ensures b.Valid() && b.done == old(b.done) + 1
  {
    hide Builder.Valid, Builder.Written;
    if flag.Some? {
      b.Put(key, Bool(flag.value));
    } else {
      b.Leave();
    }
  }

  // ---------- the file ----------

  lemma FirstTables(c: Cluster, clusterEnabled: bool)
    ensures [Table("server", Some(ServerSlots(c)))] + [Table("storage", Some(StorageSlots(c)))]
      + [Table("flush", Some(FlushSlots(c)))] + [Table("chdb", Some(ChdbSlots(c)))] + [Table("auth", Some(AuthSlots(c)))]
      == Tables(c, clusterEnabled)[..5]
  {
    hide ServerSlots, StorageSlots, FlushSlots, ChdbSlots, AuthSlots, CardinalitySlots;
    hide LoggingSlots, StatementSummarySlots, HintedHandoffSlots, RetentionSlots, ClusterSlots;
    hide RateLimitTable, ReplicationTable, QuorumTable, ShardingTable;
  }

  lemma MiddleTables(c: Cluster, clusterEnabled: bool)
    ensures Tables(c, clusterEnabled)[..5] + [Table("cardinality", Some(CardinalitySlots(c)))]
      + [Table("logging", Some(LoggingSlots(c)))] + [Table("statement_summary", Some(StatementSummarySlots(c)))]
      + [Table("hinted_handoff", Some(HintedHandoffSlots(c)))] + [RateLimitTable(c)]
      + [Table("retention", Some(RetentionSlots(c)))] == Tables(c, clusterEnabled)[..11]
  {
    hide ServerSlots, StorageSlots, FlushSlots, ChdbSlots, AuthSlots, CardinalitySlots;
    hide LoggingSlots, StatementSummarySlots, HintedHandoffSlots, RetentionSlots, ClusterSlots;
    hide RateLimitTable, ReplicationTable, QuorumTable, ShardingTable;
  }

  lemma LastTables(c: Cluster, clusterEnabled: bool)
    ensures Tables(c, clusterEnabled)[..11]
      + [Table("cluster", Some(ClusterSlots(c, clusterEnabled))), ReplicationTable(c), QuorumTable(c)]
      + [ShardingTable(c)] == Tables(c, clusterEnabled)
  {
    hide ServerSlots, StorageSlots, FlushSlots, ChdbSlots, AuthSlots, CardinalitySlots;
    hide LoggingSlots, StatementSummarySlots, HintedHandoffSlots, RetentionSlots, ClusterSlots;
    hide RateLimitTable, ReplicationTable, QuorumTable, ShardingTable;
  }

  /** The rendered file is the settings in effect, printed. */
  method RenderConfig(c: Cluster, clusterEnabled: bool) returns (text: string)
    ensures text == Print(Settings(c, clusterEnabled))
  {
    hide Sections, Print, Builder.Valid, Builder.Written, Tables;
    FirstTables(c, clusterEnabled);
    MiddleTables(c, clusterEnabled);
    LastTables(c, clusterEnabled);
    var b := new Builder();
    WriteServerSection(b, c);
    WriteStorageSection(b, c);
    WriteFlushSection(b, c);
    WriteChdbSection(b, c);
    WriteAuthSection(b, c);
    assert b.Written() == Tables(c, clusterEnabled)[..5];
    WriteCardinalitySection(b, c);
    WriteLoggingSection(b, c);
    WriteStatementSummarySection(b, c);
    WriteHintedHandoffSection(b, c);
    WriteRateLimitSection(b, c);
    WriteRetentionSection(b, c);
    assert b.Written() == Tables(c, clusterEnabled)[..11];
    WriteClusterSection(b, c, clusterEnabled);
    WriteShardingSection(b, c);
    b.TextIsThePrint();
    text := b.text;
  }
}
