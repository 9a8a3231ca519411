// The RDS component's configuration in the controller: the same optional
// settings as the `rds` package, completed with the same defaults, plus
// the engine's port and the three operation timeouts.  Completing the
// configuration never fails.  Durations are whole seconds; the decoded
// configuration is an input.
module RdsControllerConfig {
  import opened Wrappers
  import opened Json
  import P = RdsPackageConfig

  /** `RdsTimeouts`: each timeout may be absent. */
  datatype RdsTimeouts = RdsTimeouts(create: Option<int>, update: Option<int>, delete: Option<int>)

  /** The controller's `RdsConfig`. */
  datatype RdsConfig = RdsConfig(
    databaseEngine: string,
    engineVersion: string,
    instanceClass: string,
    databaseName: string,
    region: string,
    allocatedStorage: int,
    storageType: string,
    storageEncrypted: Option<bool>,
    kmsKeyId: string,
    masterUsername: string,
    masterPassword: string,
    vpcSecurityGroupIds: seq<string>,
    subnetGroupName: string,
    publiclyAccessible: Option<bool>,
    port: Option<int>,
    backupRetentionPeriod: Option<int>,
    preferredBackupWindow: string,
    preferredMaintenanceWindow: string,
    autoMinorVersionUpgrade: Option<bool>,
    multiAz: Option<bool>,
    performanceInsightsEnabled: Option<bool>,
    monitoringInterval: Option<int>,
    deletionProtection: Option<bool>,
    skipFinalSnapshot: Option<bool>,
    finalDbSnapshotIdentifier: string,
    timeouts: Option<RdsTimeouts>)

  /** The controller's `RdsStatus`. */
  datatype RdsStatus = RdsStatus(
    instanceId: string,
    instanceStatus: string,
    databaseName: string,
    createdAt: string,
    lastModifiedTime: string,
    engineVersion: string,
    instanceClass: string,
    allocatedStorage: int,
    endpoint: string,
    port: int,
    backupRetentionPeriod: int,
    multiAz: bool,
    lastError: string,
    lastErrorTime: string)

  const EmptyStatus := RdsStatus("", "", "", "", "", "", "", 0, "", 0, 0, false, "", "")

  const PostgresPort := 5432
  const MysqlPort := 3306

  /** Forty, eighty and sixty minutes. */
  const DefaultCreateTimeout := 2400
  const DefaultUpdateTimeout := 4800
  const DefaultDeleteTimeout := 3600

  /** The port of an engine: MySQL's for "mysql", PostgreSQL's for "postgres" and for any other engine. */
  function EnginePort(engine: string): (port: int)
    ensures port == (if engine == "mysql" then 3306 else 5432)
  {
    match engine
    case "postgres" => PostgresPort
    case "mysql" => MysqlPort
    case _ => PostgresPort
  }

  /** The configuration once every missing setting has its default. */
  function Defaulted(c: RdsConfig): RdsConfig
  {
    var t := c.timeouts.UnwrapOr(RdsTimeouts(None, None, None));
    c.(storageType := if c.storageType == "" then P.DefaultStorageType else c.storageType,
       storageEncrypted := Some(c.storageEncrypted.UnwrapOr(P.DefaultStorageEncrypted)),
       publiclyAccessible := Some(c.publiclyAccessible.UnwrapOr(P.DefaultPubliclyAccessible)),
       port := Some(c.port.UnwrapOr(EnginePort(c.databaseEngine))),
       backupRetentionPeriod := Some(c.backupRetentionPeriod.UnwrapOr(P.DefaultBackupRetentionPeriod)),
       autoMinorVersionUpgrade := Some(c.autoMinorVersionUpgrade.UnwrapOr(P.DefaultAutoMinorVersionUpgrade)),
       multiAz := Some(c.multiAz.UnwrapOr(P.DefaultMultiAz)),
       performanceInsightsEnabled := Some(c.performanceInsightsEnabled.UnwrapOr(P.DefaultPerformanceInsightsEnabled)),
       monitoringInterval := Some(c.monitoringInterval.UnwrapOr(P.DefaultMonitoringInterval)),
       deletionProtection := Some(c.deletionProtection.UnwrapOr(P.DefaultDeletionProtection)),
       skipFinalSnapshot := Some(c.skipFinalSnapshot.UnwrapOr(P.DefaultSkipFinalSnapshot)),
       timeouts := Some(RdsTimeouts(Some(t.create.UnwrapOr(DefaultCreateTimeout)),
                                    Some(t.update.UnwrapOr(DefaultUpdateTimeout)),
                                    Some(t.delete.UnwrapOr(DefaultDeleteTimeout)))))
  }

  /** No pointer field is left nil, the timeouts included. */
  predicate Complete(d: RdsConfig)
  {
    d.storageType != "" && d.storageEncrypted.Some? && d.publiclyAccessible.Some? && d.port.Some? &&
    d.backupRetentionPeriod.Some? && d.autoMinorVersionUpgrade.Some? && d.multiAz.Some? &&
    d.performanceInsightsEnabled.Some? && d.monitoringInterval.Some? && d.deletionProtection.Some? &&
    d.skipFinalSnapshot.Some? && d.timeouts.Some? &&
    d.timeouts.value.create.Some? && d.timeouts.value.update.Some? && d.timeouts.value.delete.Some?
  }

  /** The engine's port and the three timeouts: explicit values kept, missing ones defaulted. */
  predicate PortAndTimeouts(c: RdsConfig, d: RdsConfig)
    requires Complete(d)
  {
    var t := c.timeouts.UnwrapOr(RdsTimeouts(None, None, None));
    var u := d.timeouts.value;
    (c.port.Some? ==> d.port == c.port) &&
    (c.port.None? && c.databaseEngine == "mysql" ==> d.port == Some(3306)) &&
    (c.port.None? && c.databaseEngine != "mysql" ==> d.port == Some(5432)) &&
    (t.create.Some? ==> u.create == t.create) && (t.create.None? ==> u.create == Some(2400)) &&
    (t.update.Some? ==> u.update == t.update) && (t.update.None? ==> u.update == Some(4800)) &&
    (t.delete.Some? ==> u.delete == t.delete) && (t.delete.None? ==> u.delete == Some(3600))
  }

  /** The settings both variants share, compared between a package and a controller configuration. */
  predicate SameSettings(p: P.RdsConfig, c: RdsConfig)
  {
    p.storageType == c.storageType && p.storageEncrypted == c.storageEncrypted &&
    p.publiclyAccessible == c.publiclyAccessible && p.backupRetentionPeriod == c.backupRetentionPeriod &&
    p.autoMinorVersionUpgrade == c.autoMinorVersionUpgrade && p.multiAz == c.multiAz &&
    p.performanceInsightsEnabled == c.performanceInsightsEnabled && p.monitoringInterval == c.monitoringInterval &&
    p.deletionProtection == c.deletionProtection && p.skipFinalSnapshot == c.skipFinalSnapshot
  }

  /**
   * Completing a configuration leaves no pointer nil, keeps every explicit
   * setting, takes the engine's port and the 40/80/60-minute timeouts when
   * they are missing, and touches nothing else.
   */
  lemma DefaultedMeaning(c: RdsConfig)
    ensures Complete(Defaulted(c)) && PortAndTimeouts(c, Defaulted(c))
    ensures var d := Defaulted(c);
      d.(storageType := c.storageType, storageEncrypted := c.storageEncrypted,
         publiclyAccessible := c.publiclyAccessible, port := c.port,
         backupRetentionPeriod := c.backupRetentionPeriod, autoMinorVersionUpgrade := c.autoMinorVersionUpgrade,
         multiAz := c.multiAz, performanceInsightsEnabled := c.performanceInsightsEnabled,
         monitoringInterval := c.monitoringInterval, deletionProtection := c.deletionProtection,
         skipFinalSnapshot := c.skipFinalSnapshot, timeouts := c.timeouts) == c
  {
    var d := Defaulted(c);
    assert d.(storageType := c.storageType, storageEncrypted := c.storageEncrypted,
         publiclyAccessible := c.publiclyAccessible, port := c.port,
         backupRetentionPeriod := c.backupRetentionPeriod, autoMinorVersionUpgrade := c.autoMinorVersionUpgrade,
         multiAz := c.multiAz, performanceInsightsEnabled := c.performanceInsightsEnabled,
         monitoringInterval := c.monitoringInterval, deletionProtection := c.deletionProtection,
         skipFinalSnapshot := c.skipFinalSnapshot, timeouts := c.timeouts) == c;
  }

  /** Completing a completed configuration changes nothing. */
  lemma DefaultedIdempotent(c: RdsConfig)
    ensures Defaulted(Defaulted(c)) == Defaulted(c)
  {
  }

  /**
   * The shared settings get the same defaults in both variants: a package
   * configuration that passes its credential checks and a controller
   * configuration with the same settings agree on them afterwards.
   */
  lemma VariantsAgree(p: P.RdsConfig, c: RdsConfig)
    requires SameSettings(p, c) && P.Applied(p).0.None?
    ensures SameSettings(P.Applied(p).1, Defaulted(c))
  {
  }

  /** A configuration being completed in place. */
  class RdsControllerSpec {
    var config: RdsConfig

    constructor (c: RdsConfig)
      ensures config == c
    {
      config := c;
    }

    /** `applyRdsConfigDefaults`: one group of missing settings after another; it never reports an error. */
    method ApplyDefaults() returns (err: Option<string>)
      modifies this
      ensures err.None? && config == Defaulted(old(config))
    {
      FillStorageAndNetwork();
      FillBackupAndMaintenance();
      FillPerformanceAndDeletion();
      FillTimeouts();
      return None;
    }

    /** The storage and network defaults, the port chosen by engine. */
    method FillStorageAndNetwork()
      modifies this
      ensures config == old(config).(
        storageType := if old(config).storageType == "" then P.DefaultStorageType else old(config).storageType,
        storageEncrypted := Some(old(config).storageEncrypted.UnwrapOr(P.DefaultStorageEncrypted)),
        publiclyAccessible := Some(old(config).publiclyAccessible.UnwrapOr(P.DefaultPubliclyAccessible)),
        port := Some(old(config).port.UnwrapOr(EnginePort(old(config).databaseEngine))))
    {
      if config.storageType == "" {
        config := config.(storageType := P.DefaultStorageType);
      }
      if config.storageEncrypted.None? {
        config := config.(storageEncrypted := Some(P.DefaultStorageEncrypted));
      }
      if config.publiclyAccessible.None? {
        config := config.(publiclyAccessible := Some(P.DefaultPubliclyAccessible));
      }
      if config.port.None? {
        var defaultPort := EnginePort(config.databaseEngine);
        config := config.(port := Some(defaultPort));
      }
    }

    /** The backup and maintenance defaults. */
    method FillBackupAndMaintenance()
      modifies this
      ensures config == old(config).(
        backupRetentionPeriod := Some(old(config).backupRetentionPeriod.UnwrapOr(P.DefaultBackupRetentionPeriod)),
        autoMinorVersionUpgrade := Some(old(config).autoMinorVersionUpgrade.UnwrapOr(P.DefaultAutoMinorVersionUpgrade)))
    {
      if config.backupRetentionPeriod.None? {
        config := config.(backupRetentionPeriod := Some(P.DefaultBackupRetentionPeriod));
      }
      if config.autoMinorVersionUpgrade.None? {
        config := config.(autoMinorVersionUpgrade := Some(P.DefaultAutoMinorVersionUpgrade));
      }
    }

    /** The performance and deletion defaults. */
    method FillPerformanceAndDeletion()
      modifies this
      ensures config == old(config).(
        multiAz := Some(old(config).multiAz.UnwrapOr(P.DefaultMultiAz)),
        performanceInsightsEnabled := Some(old(config).performanceInsightsEnabled.UnwrapOr(P.DefaultPerformanceInsightsEnabled)),
        monitoringInterval := Some(old(config).monitoringInterval.UnwrapOr(P.DefaultMonitoringInterval)),
        deletionProtection := Some(old(config).deletionProtection.UnwrapOr(P.DefaultDeletionProtection)),
        skipFinalSnapshot := Some(old(config).skipFinalSnapshot.UnwrapOr(P.DefaultSkipFinalSnapshot)))
    {
      if config.multiAz.None? {
        config := config.(multiAz := Some(P.DefaultMultiAz));
      }
      if config.performanceInsightsEnabled.None? {
        config := config.(performanceInsightsEnabled := Some(P.DefaultPerformanceInsightsEnabled));
      }
      if config.monitoringInterval.None? {
        config := config.(monitoringInterval := Some(P.DefaultMonitoringInterval));
      }
      if config.deletionProtection.None? {
        config := config.(deletionProtection := Some(P.DefaultDeletionProtection));
      }
      if config.skipFinalSnapshot.None? {
        config := config.(skipFinalSnapshot := Some(P.DefaultSkipFinalSnapshot));
      }
    }

    /** The timeouts: an empty `RdsTimeouts` first when there is none, then each missing timeout. */
    method FillTimeouts()
      modifies this
      ensures var t := old(config).timeouts.UnwrapOr(RdsTimeouts(None, None, None));
        config == old(config).(timeouts := Some(RdsTimeouts(Some(t.create.UnwrapOr(DefaultCreateTimeout)),
                                                             Some(t.update.UnwrapOr(DefaultUpdateTimeout)),
                                                             Some(t.delete.UnwrapOr(DefaultDeleteTimeout)))))
    {
      if config.timeouts.None? {
        config := config.(timeouts := Some(RdsTimeouts(None, None, None)));
      }
      if config.timeouts.value.create.None? {
        config := config.(timeouts := Some(config.timeouts.value.(create := Some(DefaultCreateTimeout))));
      }
      if config.timeouts.value.update.None? {
        config := config.(timeouts := Some(config.timeouts.value.(update := Some(DefaultUpdateTimeout))));
      }
      if config.timeouts.value.delete.None? {
        config := config.(timeouts := Some(config.timeouts.value.(delete := Some(DefaultDeleteTimeout))));
      }
    }
  }

  /**
   * `resolveRdsConfig`, given the outcome of unmarshalling the raw
   * configuration: a decoding error is reported with its prefix, and any
   * decoded configuration is completed.
   */
  method ResolveRdsConfig(decoded: Result<RdsConfig>) returns (r: Result<RdsConfig>)
    ensures decoded.Err? ==> r == Err("failed to parse rds config: " + decoded.error)
    ensures decoded.Ok? ==> r == Ok(Defaulted(decoded.value))
    ensures r.Ok? <==> decoded.Ok?
  {
    if decoded.Err? {
      return Err("failed to parse rds config: " + decoded.error);
    }
    var spec := new RdsControllerSpec(decoded.value);
    // The defaults never fail, so the "failed to apply configuration defaults" branch has no case.
    var _ := spec.ApplyDefaults();
    return Ok(spec.config);
  }

  /** A resolved configuration has every setting present and resolves to itself. */
  lemma ResolvedIsFixedPoint(c: RdsConfig)
    ensures Complete(Defaulted(c))
    ensures Defaulted(Defaulted(c)) == Defaulted(c)
  {
    DefaultedMeaning(c);
    DefaultedIdempotent(c);
  }

  /**
   * `resolveRdsStatus`: no stored status gives the empty status; a stored
   * `null` leaves the status pointer nil; a decoding error is returned
   * without a prefix.
   */
  function ResolveRdsStatus(raw: JsonText): (r: Result<Option<RdsStatus>>)
    ensures raw.text == "" ==> r == Ok(Some(EmptyStatus))
    ensures raw.text != "" && raw.decoded == Some(JNull) ==> r == Ok(None)
    ensures raw.text != "" && raw.decoded.None? ==> r.Err?
    ensures raw.text != "" && raw.decoded != Some(JNull) && DecodeStatus(raw).Err? ==> r == Err(DecodeStatus(raw).error)
  {
    if raw.text == "" then Ok(Some(EmptyStatus))
    else match raw.decoded
      case Some(JNull) => Ok(None)
      case _ =>
        match DecodeStatus(raw)
        case Err(e) => Err(e)
        case Ok(s) => Ok(Some(s))
  }

  function DecodeStatus(raw: JsonText): Result<RdsStatus>
  {
    var m :- DecodeObject(raw);
    var instanceId :- StringField(m, "instanceId");
    var instanceStatus :- StringField(m, "instanceStatus");
    var databaseName :- StringField(m, "databaseName");
    var createdAt :- StringField(m, "createdAt");
    var lastModifiedTime :- StringField(m, "lastModifiedTime");
    var engineVersion :- StringField(m, "engineVersion");
    var instanceClass :- StringField(m, "instanceClass");
    var allocatedStorage :- Int32Field(m, "allocatedStorage");
    var endpoint :- StringField(m, "endpoint");
    var port :- Int32Field(m, "port");
    var backupRetentionPeriod :- Int32Field(m, "backupRetentionPeriod");
    var multiAz :- BoolField(m, "multiAZ");
    var lastError :- StringField(m, "lastError");
    var lastErrorTime :- StringField(m, "lastErrorTime");
    Ok(RdsStatus(instanceId, instanceStatus, databaseName, createdAt, lastModifiedTime, engineVersion,
                 instanceClass, allocatedStorage, endpoint, port, backupRetentionPeriod, multiAz,
                 lastError, lastErrorTime))
  }

  /** A stored status keeps the recorded fields; absent ones stay at their zero values. */
  lemma StatusFieldsRead(raw: JsonText, id: string)
    requires raw.text != "" && raw.decoded == Some(JObj(map["instanceId" := JStr(id), "port" := JNum(5432.0, true)]))
    ensures ResolveRdsStatus(raw) == Ok(Some(EmptyStatus.(instanceId := id, port := 5432)))
  {
  }

  /** A port that is not an integer literal, or does not fit in 32 bits, makes the stored status unreadable. */
  lemma PortLiteralChecked(raw: JsonText, n: real)
    requires raw.text != ""
    requires raw.decoded == Some(JObj(map["port" := JNum(n, false)])) ||
             raw.decoded == Some(JObj(map["port" := JNum(Int32Half as real, true)]))
    ensures ResolveRdsStatus(raw).Err?
  {
  }
}
