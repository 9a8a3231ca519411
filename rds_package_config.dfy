// The RDS component's configuration in the `rds` package.  An instance
// identifier and a master user name are required, the master password is
// always managed by RDS, and each optional setting missing from the
// configuration is filled in place with a fixed default while explicit
// settings are kept.  The whole-number settings hold decoded 32-bit
// values; nothing is computed with them.
module RdsPackageConfig {
  import opened Wrappers

  /** `RdsConfig`: a Go pointer field is an `Option`. */
  datatype RdsConfig = RdsConfig(
    instanceId: string,
    databaseEngine: string,
    engineVersion: string,
    instanceClass: string,
    databaseName: string,
    allocatedStorage: int,
    storageType: string,
    storageEncrypted: Option<bool>,
    kmsKeyId: string,
    masterUsername: string,
    manageMasterUserPassword: Option<bool>,
    masterUserSecretKmsKeyId: string,
    vpcSecurityGroupIds: seq<string>,
    subnetGroupName: string,
    publiclyAccessible: Option<bool>,
    port: Option<int>,
    backupRetentionPeriod: Option<int>,
    preferredBackupWindow: string,
    preferredMaintenanceWindow: string,
    autoMinorVersionUpgrade: Option<bool>,
    multiAz: Option<bool>,
    performanceInsightsEnabled: Option<bool>,
    monitoringInterval: Option<int>,
    deletionProtection: Option<bool>,
    skipFinalSnapshot: Option<bool>,
    finalDbSnapshotIdentifier: string)

  /** `RdsStatus` of the package. */
  datatype RdsStatus = RdsStatus(
    instanceStatus: string,
    instanceArn: string,
    endpoint: string,
    port: int,
    availabilityZone: string,
    masterUserSecretArn: string)

  const EmptyStatus := RdsStatus("", "", "", 0, "", "")

  // The defaults shared by both configuration variants.
  const DefaultStorageType := "gp2"
  const DefaultStorageEncrypted := true
  const DefaultPubliclyAccessible := false
  const DefaultBackupRetentionPeriod := 7
  const DefaultAutoMinorVersionUpgrade := true
  const DefaultMultiAz := false
  const DefaultPerformanceInsightsEnabled := false
  const DefaultMonitoringInterval := 0
  const DefaultDeletionProtection := true
  const DefaultSkipFinalSnapshot := false

  const ErrInstanceId := "InstanceID is required and cannot be empty"
  const ErrMasterUsername := "masterUsername is required and cannot be empty"
  const ErrManagedPassword := "manageMasterUserPassword must be true - explicit password management is not supported. AWS RDS will generate secure passwords automatically"

  /** The configuration once every missing setting has its default and the password is RDS-managed. */
  function Defaulted(c: RdsConfig): RdsConfig
  {
    c.(manageMasterUserPassword := Some(c.manageMasterUserPassword.UnwrapOr(true)),
       storageType := if c.storageType == "" then DefaultStorageType else c.storageType,
       storageEncrypted := Some(c.storageEncrypted.UnwrapOr(DefaultStorageEncrypted)),
       publiclyAccessible := Some(c.publiclyAccessible.UnwrapOr(DefaultPubliclyAccessible)),
       backupRetentionPeriod := Some(c.backupRetentionPeriod.UnwrapOr(DefaultBackupRetentionPeriod)),
       autoMinorVersionUpgrade := Some(c.autoMinorVersionUpgrade.UnwrapOr(DefaultAutoMinorVersionUpgrade)),
       multiAz := Some(c.multiAz.UnwrapOr(DefaultMultiAz)),
       performanceInsightsEnabled := Some(c.performanceInsightsEnabled.UnwrapOr(DefaultPerformanceInsightsEnabled)),
       monitoringInterval := Some(c.monitoringInterval.UnwrapOr(DefaultMonitoringInterval)),
       deletionProtection := Some(c.deletionProtection.UnwrapOr(DefaultDeletionProtection)),
       skipFinalSnapshot := Some(c.skipFinalSnapshot.UnwrapOr(DefaultSkipFinalSnapshot)))
  }

  /** `applyDefaults` as a function: the error it reports, if any, and the configuration it leaves. */
  function Applied(c: RdsConfig): (Option<string>, RdsConfig)
  {
    if c.masterUsername == "" then (Some(ErrMasterUsername), c)
    else if c.manageMasterUserPassword == Some(false) then (Some(ErrManagedPassword), c)
    else (None, Defaulted(c))
  }

  /** `resolveSpec` as a function: the identifier check, then `applyDefaults`. */
  function Resolved(c: RdsConfig): (Option<string>, RdsConfig)
  {
    if c.instanceId == "" then (Some(ErrInstanceId), c) else Applied(c)
  }

  /** Every setting `applyDefaults` fills is present: no pointer field is left nil. */
  predicate Complete(d: RdsConfig)
  {
    d.storageType != "" && d.manageMasterUserPassword.Some? && d.storageEncrypted.Some? &&
    d.publiclyAccessible.Some? && d.backupRetentionPeriod.Some? && d.autoMinorVersionUpgrade.Some? &&
    d.multiAz.Some? && d.performanceInsightsEnabled.Some? && d.monitoringInterval.Some? &&
    d.deletionProtection.Some? && d.skipFinalSnapshot.Some?
  }

  /** `d` keeps every explicit setting of `c` and differs from it only in the defaulted settings. */
  predicate KeepsExplicit(c: RdsConfig, d: RdsConfig)
  {
    (c.storageType != "" ==> d.storageType == c.storageType) &&
    (c.manageMasterUserPassword.Some? ==> d.manageMasterUserPassword == c.manageMasterUserPassword) &&
    (c.storageEncrypted.Some? ==> d.storageEncrypted == c.storageEncrypted) &&
    (c.publiclyAccessible.Some? ==> d.publiclyAccessible == c.publiclyAccessible) &&
    (c.backupRetentionPeriod.Some? ==> d.backupRetentionPeriod == c.backupRetentionPeriod) &&
    (c.autoMinorVersionUpgrade.Some? ==> d.autoMinorVersionUpgrade == c.autoMinorVersionUpgrade) &&
    (c.multiAz.Some? ==> d.multiAz == c.multiAz) &&
    (c.performanceInsightsEnabled.Some? ==> d.performanceInsightsEnabled == c.performanceInsightsEnabled) &&
    (c.monitoringInterval.Some? ==> d.monitoringInterval == c.monitoringInterval) &&
    (c.deletionProtection.Some? ==> d.deletionProtection == c.deletionProtection) &&
    (c.skipFinalSnapshot.Some? ==> d.skipFinalSnapshot == c.skipFinalSnapshot) &&
    d.(storageType := c.storageType, manageMasterUserPassword := c.manageMasterUserPassword,
       storageEncrypted := c.storageEncrypted, publiclyAccessible := c.publiclyAccessible,
       backupRetentionPeriod := c.backupRetentionPeriod, autoMinorVersionUpgrade := c.autoMinorVersionUpgrade,
       multiAz := c.multiAz, performanceInsightsEnabled := c.performanceInsightsEnabled,
       monitoringInterval := c.monitoringInterval, deletionProtection := c.deletionProtection,
       skipFinalSnapshot := c.skipFinalSnapshot) == c
  }

  /** Each setting missing from `c` has its documented default in `d`. */
  predicate FillsDefaults(c: RdsConfig, d: RdsConfig)
  {
    (c.storageType == "" ==> d.storageType == "gp2") &&
    (c.manageMasterUserPassword.None? ==> d.manageMasterUserPassword == Some(true)) &&
    (c.storageEncrypted.None? ==> d.storageEncrypted == Some(true)) &&
    (c.publiclyAccessible.None? ==> d.publiclyAccessible == Some(false)) &&
    (c.backupRetentionPeriod.None? ==> d.backupRetentionPeriod == Some(7)) &&
    (c.autoMinorVersionUpgrade.None? ==> d.autoMinorVersionUpgrade == Some(true)) &&
    (c.multiAz.None? ==> d.multiAz == Some(false)) &&
    (c.performanceInsightsEnabled.None? ==> d.performanceInsightsEnabled == Some(false)) &&
    (c.monitoringInterval.None? ==> d.monitoringInterval == Some(0)) &&
    (c.deletionProtection.None? ==> d.deletionProtection == Some(true)) &&
    (c.skipFinalSnapshot.None? ==> d.skipFinalSnapshot == Some(false))
  }

  /**
   * `applyDefaults` fails exactly when the master user name is empty or
   * password management is explicitly off, and then changes nothing;
   * otherwise every setting is present, explicit ones are kept, missing
   * ones defaulted, and the password is RDS-managed.
   */
  lemma AppliedMeaning(c: RdsConfig)
    ensures var (err, d) := Applied(c);
      (err.None? <==> c.masterUsername != "" && c.manageMasterUserPassword != Some(false)) &&
      (c.masterUsername == "" ==> err == Some(ErrMasterUsername)) &&
      (c.masterUsername != "" && c.manageMasterUserPassword == Some(false) ==> err == Some(ErrManagedPassword)) &&
      (err.Some? ==> d == c)
    ensures Applied(c).0.None? ==>
      Complete(Applied(c).1) && FillsDefaults(c, Applied(c).1) && Applied(c).1.manageMasterUserPassword == Some(true)
    ensures Applied(c).0.None? ==> KeepsExplicit(c, Applied(c).1)
  {
    if Applied(c).0.None? {
      var d := Defaulted(c);
      assert c.manageMasterUserPassword.Some? ==> c.manageMasterUserPassword.value;
      assert d.(storageType := c.storageType, manageMasterUserPassword := c.manageMasterUserPassword,
       storageEncrypted := c.storageEncrypted, publiclyAccessible := c.publiclyAccessible,
       backupRetentionPeriod := c.backupRetentionPeriod, autoMinorVersionUpgrade := c.autoMinorVersionUpgrade,
       multiAz := c.multiAz, performanceInsightsEnabled := c.performanceInsightsEnabled,
       monitoringInterval := c.monitoringInterval, deletionProtection := c.deletionProtection,
       skipFinalSnapshot := c.skipFinalSnapshot) == c;
    }
  }

  /** Applying the defaults to a configuration they already completed changes nothing. */
  lemma ReapplyIsNoOp(c: RdsConfig)
    requires Applied(c).0.None?
    ensures Applied(Applied(c).1) == (None, Applied(c).1)
  {
  }

  /** The identifier is checked before anything else, and a configuration without one is left as it was. */
  lemma InstanceIdCheckedFirst(c: RdsConfig)
    ensures c.instanceId == "" ==> Resolved(c) == (Some(ErrInstanceId), c)
    ensures c.instanceId != "" ==> Resolved(c) == Applied(c)
    ensures Resolved(c).0.None? <==>
      c.instanceId != "" && c.masterUsername != "" && c.manageMasterUserPassword != Some(false)
  {
  }

  /** A configuration being checked and completed in place. */
  class RdsSpec {
    var config: RdsConfig

    constructor (c: RdsConfig)
      ensures config == c
    {
      config := c;
    }

    /** `resolveSpec`: reject an empty identifier, then apply the defaults. */
    method ResolveSpec() returns (err: Option<string>)
      modifies this
      ensures (err, config) == Resolved(old(config))
    {
      if config.instanceId == "" {
        return Some(ErrInstanceId);
      }
      err := ApplyDefaults();
    }

    /** `applyDefaults`: the credential checks, then one group of missing settings after another. */
    method ApplyDefaults() returns (err: Option<string>)
      modifies this
      ensures (err, config) == Applied(old(config))
    {
      if config.masterUsername == "" {
        return Some(ErrMasterUsername);
      }
      if config.manageMasterUserPassword.None? {
        config := config.(manageMasterUserPassword := Some(true));
      }
      if !config.manageMasterUserPassword.value {
        return Some(ErrManagedPassword);
      }
      FillStorageAndNetwork();
      FillBackupAndMaintenance();
      FillPerformance();
      FillDeletion();
      return None;
    }

    /** The storage and network defaults. */
    method FillStorageAndNetwork()
      modifies this
      ensures config == old(config).(
        storageType := if old(config).storageType == "" then DefaultStorageType else old(config).storageType,
        storageEncrypted := Some(old(config).storageEncrypted.UnwrapOr(DefaultStorageEncrypted)),
        publiclyAccessible := Some(old(config).publiclyAccessible.UnwrapOr(DefaultPubliclyAccessible)))
    {
      if config.storageType == "" {
        config := config.(storageType := DefaultStorageType);
      }
      if config.storageEncrypted.None? {
        config := config.(storageEncrypted := Some(DefaultStorageEncrypted));
      }
      if config.publiclyAccessible.None? {
        config := config.(publiclyAccessible := Some(DefaultPubliclyAccessible));
      }
    }

    /** The backup and maintenance defaults. */
    method FillBackupAndMaintenance()
      modifies this
      ensures config == old(config).(
        backupRetentionPeriod := Some(old(config).backupRetentionPeriod.UnwrapOr(DefaultBackupRetentionPeriod)),
        autoMinorVersionUpgrade := Some(old(config).autoMinorVersionUpgrade.UnwrapOr(DefaultAutoMinorVersionUpgrade)))
    {
      if config.backupRetentionPeriod.None? {
        config := config.(backupRetentionPeriod := Some(DefaultBackupRetentionPeriod));
      }
      if config.autoMinorVersionUpgrade.None? {
        config := config.(autoMinorVersionUpgrade := Some(DefaultAutoMinorVersionUpgrade));
      }
    }

    /** The performance defaults. */
    method FillPerformance()
      modifies this
      ensures config == old(config).(
        multiAz := Some(old(config).multiAz.UnwrapOr(DefaultMultiAz)),
        performanceInsightsEnabled := Some(old(config).performanceInsightsEnabled.UnwrapOr(DefaultPerformanceInsightsEnabled)),
        monitoringInterval := Some(old(config).monitoringInterval.UnwrapOr(DefaultMonitoringInterval)))
    {
      if config.multiAz.None? {
        config := config.(multiAz := Some(DefaultMultiAz));
      }
      if config.performanceInsightsEnabled.None? {
        config := config.(performanceInsightsEnabled := Some(DefaultPerformanceInsightsEnabled));
      }
      if config.monitoringInterval.None? {
        config := config.(monitoringInterval := Some(DefaultMonitoringInterval));
      }
    }

    /** The deletion defaults. */
    method FillDeletion()
      modifies this
      ensures config == old(config).(
        deletionProtection := Some(old(config).deletionProtection.UnwrapOr(DefaultDeletionProtection)),
        skipFinalSnapshot := Some(old(config).skipFinalSnapshot.UnwrapOr(DefaultSkipFinalSnapshot)))
    {
      if config.deletionProtection.None? {
        config := config.(deletionProtection := Some(DefaultDeletionProtection));
      }
      if config.skipFinalSnapshot.None? {
        config := config.(skipFinalSnapshot := Some(DefaultSkipFinalSnapshot));
      }
    }
  }
}
