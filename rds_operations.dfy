// The RDS controller's operations: classifying AWS errors, shaping
// operation results, deploying an instance and following its creation,
// and upgrading it by diffing the described instance against the
// configuration.  AWS calls enter as an environment of answers per
// argument, the clock as the time of the pass and the formatting of a
// duration as a function; the calls made are recorded in order.
module RdsOperations {
  import opened Wrappers
  import opened Strings
  import opened RdsConversion
  import opened RdsControllerConfig
  import B = BaseController

  const HandlerName := "rds"
  const ControllerName := "rds-component"

  /** `NewRdsOperationsConfig`: the default handler settings with slower requeues, in seconds. */
  function RdsHandlerConfig(defaults: B.HandlerConfig): (c: B.HandlerConfig)
    ensures c.defaultRequeue == 30 && c.statusCheckRequeue == 15 && c.errorRequeue == 30
    ensures c.handlerName == defaults.handlerName && c.finalizer == defaults.finalizer
  {
    defaults.(defaultRequeue := 30, statusCheckRequeue := 15, errorRequeue := 30)
  }

  // ---------------------------------------------------------------------
  // Error classification

  /** The message fragments of errors worth retrying, matched ignoring letter case. */
  const TransientMarkers: seq<string> :=
    ["RequestTimeout", "ThrottlingException", "ServiceUnavailable", "InternalError", "network", "timeout", "connection"]

  /** Whether `s` holds one of `markers`, ignoring letter case. */
  predicate HoldsAnyMarker(s: string, markers: seq<string>)
  {
    exists i :: 0 <= i < |markers| && ContainsFold(s, markers[i])
  }

  predicate Transient(err: Option<string>)
  {
    err.Some? && HoldsAnyMarker(err.value, TransientMarkers)
  }

  /** The marker loop of `isTransientError`: the markers are tried in order. */
  method FindMarker(errorStr: string, markers: seq<string>) returns (found: bool)
    ensures found <==> HoldsAnyMarker(errorStr, markers)
  {
    var i := 0;
    while i < |markers|
      invariant 0 <= i <= |markers|
      invariant forall k :: 0 <= k < i ==> !ContainsFold(errorStr, markers[k])
    {
      if ContainsFold(errorStr, markers[i]) {
        return true;
      }
      i := i + 1;
    }
    return false;
  }

  /** `isTransientError`: nil is never transient; otherwise any marker makes an error transient. */
  method IsTransientError(err: Option<string>) returns (transient: bool)
    ensures transient <==> Transient(err)
  {
    if err.None? {
      return false;
    }
    transient := FindMarker(err.value, TransientMarkers);
  }

  /** A message holding any marker, in any letter case, is transient. */
  lemma TransientAnyCase(a: string, marker: string, b: string, i: int)
    requires 0 <= i < |TransientMarkers| && ToLower(marker) == ToLower(TransientMarkers[i])
    ensures Transient(Some(a + marker + b))
  {
    ContainsFoldWithin(a, marker, b, TransientMarkers[i]);
  }

  /** A Kelvin sign lowers to 'k', so "NETWOR\u212A unreachable" holds the marker "network" and is transient. */
  lemma KelvinSignTransient()
    ensures Transient(Some("NETWOR\U{212A} unreachable"))
  {
    assert ToLower("NETWOR\U{212A}") == ToLower(TransientMarkers[4]);
    TransientAnyCase("", "NETWOR\U{212A}", " unreachable", 4);
    assert "" + "NETWOR\U{212A}" + " unreachable" == "NETWOR\U{212A} unreachable";
  }

  /** `isInstanceNotFoundError`: the message names the fault or says the instance does not exist. */
  predicate InstanceNotFound(err: Option<string>)
  {
    err.Some? && (Contains(err.value, "DBInstanceNotFound") || Contains(err.value, "does not exist"))
  }

  /** Nil is not a not-found error; any message carrying either phrase is one. */
  lemma NotFoundMessages(a: string, b: string)
    ensures !InstanceNotFound(None)
    ensures InstanceNotFound(Some(a + "DBInstanceNotFound" + b))
    ensures InstanceNotFound(Some(a + "does not exist" + b))
  {
    ContainsWithin(a, "DBInstanceNotFound", b);
    ContainsWithin(a, "does not exist", b);
  }

  // ---------------------------------------------------------------------
  // Operation results

  /** `base.OperationResult`, with the status it carries. */
  datatype OperationResult = OperationResult(updatedStatus: RdsStatus, success: bool, operationError: Option<string>)

  /** An operation's two return values: the result and the error handed to the reconciler. */
  datatype Reply = Reply(result: OperationResult, err: Option<string>)

  /** `successResult`. */
  function SuccessReply(s: RdsStatus): Reply
  {
    Reply(OperationResult(s, true, None), None)
  }

  /** `pendingResult`. */
  function PendingReply(s: RdsStatus): Reply
  {
    Reply(OperationResult(s, false, None), None)
  }

  /**
   * `errorResult`: a transient error goes back to the reconciler to be
   * retried; any other error is recorded as the operation's failure and
   * no error is returned.
   */
  function ErrorReply(s: RdsStatus, message: string, err: string): (r: Reply)
    ensures !r.result.success && r.result.updatedStatus == s
    ensures Transient(Some(err)) ==> r.err == Some(message + ": " + err) && r.result.operationError.None?
    ensures !Transient(Some(err)) ==> r.err.None? && r.result.operationError == Some(message + ": " + err)
  {
    var fullError := message + ": " + err;
    if Transient(Some(err)) then Reply(OperationResult(s, false, None), Some(fullError))
    else Reply(OperationResult(s, false, Some(fullError)), None)
  }

  /** A failure recorded as permanent whatever its message says. */
  function FailureReply(s: RdsStatus, message: string, err: string): (r: Reply)
    ensures !r.result.success && r.result.updatedStatus == s
    ensures r.err.None? && r.result.operationError == Some(message + ": " + err)
  {
    Reply(OperationResult(s, false, Some(message + ": " + err)), None)
  }

  // ---------------------------------------------------------------------
  // The AWS side

  /** The fields of `rds.ModifyDBInstanceInput` the upgrade sets. */
  datatype ModifyDbInstanceInput = ModifyDbInstanceInput(
    dbInstanceIdentifier: string,
    applyImmediately: Option<bool>,
    dbInstanceClass: Option<string>,
    allocatedStorage: Option<int>,
    engineVersion: Option<string>,
    backupRetentionPeriod: Option<int>,
    multiAz: Option<bool>,
    preferredBackupWindow: Option<string>,
    preferredMaintenanceWindow: Option<string>,
    autoMinorVersionUpgrade: Option<bool>)

  /** What `DescribeDBInstances` answers. */
  datatype Describe = DescribeFailed(error: string) | Described(instances: seq<DbInstance>)

  datatype RdsCall =
    | DescribeInstances(id: string)
    | CheckInstanceExists(id: string)
    | CreateInstance(id: string)
    | ModifyInstance(input: ModifyDbInstanceInput)

  /** The instance a call is about. */
  function CallTarget(call: RdsCall): string
  {
    match call
    case DescribeInstances(id) => id
    case CheckInstanceExists(id) => id
    case CreateInstance(id) => id
    case ModifyInstance(input) => input.dbInstanceIdentifier
  }

  /** The answers AWS gives, the time of the pass, and how a duration prints. */
  datatype RdsEnv = RdsEnv(
    describe: string -> Describe,
    instanceExists: string -> Result<bool>,
    createInstance: string -> Result<Option<DbInstance>>,
    modifyInstance: ModifyDbInstanceInput -> Result<Option<DbInstance>>,
    formatDuration: int -> string,
    now: string)

  /** The status an operation leaves, its reply, and the calls it made. */
  datatype OperationStep = OperationStep(status: RdsStatus, reply: Reply, calls: seq<RdsCall>)

  // ---------------------------------------------------------------------
  // Deployment

  /** The instance an operation addresses: the recorded one, or the database name with "-db". */
  function InstanceIdFor(c: RdsConfig, s: RdsStatus): string
  {
    if s.instanceId != "" then s.instanceId else c.databaseName + "-db"
  }

  /** The create timeout: the configured one, or forty minutes. */
  function CreateTimeout(c: RdsConfig): int
  {
    if c.timeouts.Some? && c.timeouts.value.create.Some? then c.timeouts.value.create.value else DefaultCreateTimeout
  }

  /** What `CheckDeployment` records of a described instance: each field only when the response has it. */
  function Observed(s: RdsStatus, inst: DbInstance, id: string, now: string): RdsStatus
  {
    s.(instanceId := id,
       instanceStatus := if inst.dbInstanceStatus.Some? then inst.dbInstanceStatus.value else s.instanceStatus,
       engineVersion := if inst.engine.Some? then StringValue(inst.engineVersion) else s.engineVersion,
       instanceClass := if inst.dbInstanceClass.Some? then inst.dbInstanceClass.value else s.instanceClass,
       allocatedStorage := if inst.allocatedStorage.Some? then inst.allocatedStorage.value else s.allocatedStorage,
       endpoint := if inst.endpoint.Some? && inst.endpoint.value.address.Some? then inst.endpoint.value.address.value else s.endpoint,
       port := if inst.endpoint.Some? && inst.endpoint.value.port.Some? then inst.endpoint.value.port.value else s.port,
       backupRetentionPeriod := if inst.backupRetentionPeriod.Some? then inst.backupRetentionPeriod.value else s.backupRetentionPeriod,
       multiAz := if inst.multiAz.Some? then inst.multiAz.value else s.multiAz,
       lastModifiedTime := now)
  }

  const DeploymentFailedStatuses: seq<string> := ["failed", "incompatible-restore", "incompatible-network"]
  const DeploymentProgressStatuses: seq<string> := ["creating", "backing-up", "modifying"]

  function DeploymentFailedError(st: string): string
  {
    "RDS instance deployment failed with status: " + st
  }

  /** The status switch of `CheckDeployment` as written: a failed status goes through `errorResult`. */
  function DeploymentStatusReplyAsWritten(s: RdsStatus, st: string): Reply
  {
    if st == "available" then SuccessReply(s)
    else if st in DeploymentProgressStatuses then PendingReply(s)
    else if st in DeploymentFailedStatuses then ErrorReply(s, "deployment failed", DeploymentFailedError(st))
    else PendingReply(s)
  }

  /**
   * As written, "incompatible-network" is retried as a transient error
   * instead of failing the deployment: its message holds the marker
   * "network".
   */
  lemma IncompatibleNetworkRetriedAsWritten(s: RdsStatus, st: string)
    requires st == "incompatible-network"
    ensures DeploymentStatusReplyAsWritten(s, st).err.Some?
    ensures DeploymentStatusReplyAsWritten(s, st).result.operationError.None?
    ensures DeploymentStatusReply(s, st).err.None? && DeploymentStatusReply(s, st).result.operationError.Some?
  {
    var prefix := "RDS instance deployment failed with status: incompatible-";
    var marker := "network";
    assert DeploymentFailedError(st) == prefix + marker + "";
    TransientAnyCase(prefix, marker, "", 4);
  }

  /**
   * The status switch of `CheckDeployment`, with every failed status a
   * permanent failure: "available" succeeds, the failed statuses fail,
   * and every other status, known or not, is still pending.
   */
  function DeploymentStatusReply(s: RdsStatus, st: string): (r: Reply)
    ensures r.result.updatedStatus == s
    ensures r.result.success <==> st == "available"
    ensures st == "available" ==> r.err.None? && r.result.operationError.None?
    ensures st in DeploymentFailedStatuses ==>
      r.err.None? && r.result.operationError == Some("deployment failed" + ": " + DeploymentFailedError(st))
    ensures st != "available" && st !in DeploymentFailedStatuses ==> r == PendingReply(s)
  {
    if st == "available" then SuccessReply(s)
    else if st in DeploymentProgressStatuses then PendingReply(s)
    else if st in DeploymentFailedStatuses then FailureReply(s, "deployment failed", DeploymentFailedError(st))
    else PendingReply(s)
  }

  /** The reply of `CheckDeployment` when the lookup yields no instance. */
  function LookupFailureReply(s: RdsStatus, id: string, d: Describe): Reply
    requires d.DescribeFailed? || |d.instances| == 0
  {
    if d.DescribeFailed? then
      if InstanceNotFound(Some(d.error)) then
        ErrorReply(s, "instance not found", "RDS instance " + id + " not found during deployment check")
      else ErrorReply(s, "failed to describe RDS instance", d.error)
    else ErrorReply(s, "no instances found", "no RDS instances returned for identifier " + id)
  }

  /** `CheckDeployment(elapsed)` as a function of the status before the pass. */
  function DeploymentChecked(c: RdsConfig, s: RdsStatus, elapsed: int, env: RdsEnv): OperationStep
  {
    var id := InstanceIdFor(c, s);
    if elapsed > CreateTimeout(c) then
      OperationStep(s, ErrorReply(s, "deployment timeout exceeded",
                                  "RDS instance creation timed out after " + env.formatDuration(elapsed)), [])
    else
      var calls := [DescribeInstances(id)];
      var d := env.describe(id);
      if d.DescribeFailed? || |d.instances| == 0 then OperationStep(s, LookupFailureReply(s, id, d), calls)
      else
        var s' := Observed(s, d.instances[0], id, env.now);
        OperationStep(s', DeploymentStatusReply(s', StringValue(d.instances[0].dbInstanceStatus)), calls)
  }

  /** What `Deploy` records after starting the creation, the response's fields winning where present. */
  function Created(c: RdsConfig, s: RdsStatus, id: string, now: string, inst: Option<DbInstance>): RdsStatus
  {
    var s1 := s.(databaseName := c.databaseName, instanceId := id, createdAt := now, instanceStatus := "creating",
                 engineVersion := c.engineVersion, instanceClass := c.instanceClass, allocatedStorage := c.allocatedStorage);
    match inst
    case None => s1
    case Some(i) =>
      s1.(instanceStatus := if i.dbInstanceStatus.Some? then i.dbInstanceStatus.value else s1.instanceStatus,
          endpoint := if i.endpoint.Some? && i.endpoint.value.address.Some? then i.endpoint.value.address.value else s1.endpoint,
          port := if i.endpoint.Some? && i.endpoint.value.port.Some? then i.endpoint.value.port.value else s1.port)
  }

  /** `Deploy` as a function of the status before the pass. */
  function Deployed(c: RdsConfig, s: RdsStatus, env: RdsEnv): OperationStep
  {
    var id := InstanceIdFor(c, s);
    var calls := [CheckInstanceExists(id)];
    match env.instanceExists(id)
    case Err(e) => OperationStep(s, ErrorReply(s, "failed to check if RDS instance exists", e), calls)
    case Ok(true) =>
      var checked := DeploymentChecked(c, s, 0, env);
      OperationStep(checked.status, checked.reply, calls + checked.calls)
    case Ok(false) =>
      var calls' := calls + [CreateInstance(id)];
      match env.createInstance(id)
      case Err(e) => OperationStep(s, ErrorReply(s, "failed to create RDS instance", e), calls')
      case Ok(inst) =>
        var s' := Created(c, s, id, env.now, inst);
        OperationStep(s', PendingReply(s'), calls')
  }

  // ---------------------------------------------------------------------
  // Upgrade

  const ModifiableStates: seq<string> := ["available", "storage-optimization"]

  /** `isInstanceModifiable`: a membership test over the modifiable states. */
  method IsInstanceModifiable(status: string) returns (modifiable: bool)
    ensures modifiable <==> status == "available" || status == "storage-optimization"
  {
    var states := ModifiableStates;
    var i := 0;
    while i < |states|
      invariant 0 <= i <= |states|
      invariant forall k :: 0 <= k < i ==> states[k] != status
    {
      if status == states[i] {
        return true;
      }
      i := i + 1;
    }
    assert states[0] == "available" && states[1] == "storage-optimization";
    return false;
  }

  /** `ModificationRequest`. */
  datatype ModificationRequest = ModificationRequest(modType: string, description: string, required: bool)

  const InstanceClassChange := "instance_class"
  const StorageChange := "allocated_storage"
  const EngineVersionChange := "engine_version"
  const BackupRetentionChange := "backup_retention"
  const MultiAzChange := "multi_az"

  predicate HasType(mods: seq<ModificationRequest>, t: string)
  {
    exists k :: 0 <= k < |mods| && mods[k].modType == t
  }

  /** The place of each modification type in the fixed order. */
  function Rank(t: string): int
  {
    if t == InstanceClassChange then 0
    else if t == StorageChange then 1
    else if t == EngineVersionChange then 2
    else if t == BackupRetentionChange then 3
    else if t == MultiAzChange then 4
    else 5
  }

  predicate InOrder(mods: seq<ModificationRequest>)
  {
    forall i, j :: 0 <= i < j < |mods| ==> Rank(mods[i].modType) < Rank(mods[j].modType)
  }

  function BoolText(b: bool): string
  {
    if b then "true" else "false"
  }

  function ClassChanges(inst: DbInstance, c: RdsConfig): (r: seq<ModificationRequest>)
    ensures |r| <= 1 && forall k :: 0 <= k < |r| ==> r[k].modType == InstanceClassChange && r[k].required
  {
    if inst.dbInstanceClass.Some? && inst.dbInstanceClass.value != c.instanceClass then
      [ModificationRequest(InstanceClassChange,
                           "Change instance class from " + inst.dbInstanceClass.value + " to " + c.instanceClass, true)]
    else []
  }

  function StorageChanges(inst: DbInstance, c: RdsConfig): (r: seq<ModificationRequest>)
    ensures |r| <= 1 && forall k :: 0 <= k < |r| ==> r[k].modType == StorageChange && r[k].required
  {
    if inst.allocatedStorage.Some? && inst.allocatedStorage.value < c.allocatedStorage then
      [ModificationRequest(StorageChange,
                           "Increase storage from " + IntToString(inst.allocatedStorage.value) + " to " +
                           IntToString(c.allocatedStorage) + " GB", true)]
    else []
  }

  function EngineChanges(inst: DbInstance, c: RdsConfig): (r: seq<ModificationRequest>)
    ensures |r| <= 1 && forall k :: 0 <= k < |r| ==> r[k].modType == EngineVersionChange && r[k].required
  {
    if inst.engineVersion.Some? && inst.engineVersion.value != c.engineVersion then
      [ModificationRequest(EngineVersionChange,
                           "Upgrade engine version from " + inst.engineVersion.value + " to " + c.engineVersion, true)]
    else []
  }

  function BackupChanges(inst: DbInstance, c: RdsConfig): (r: seq<ModificationRequest>)
    ensures |r| <= 1 && forall k :: 0 <= k < |r| ==> r[k].modType == BackupRetentionChange && !r[k].required
  {
    if c.backupRetentionPeriod.Some? && inst.backupRetentionPeriod != c.backupRetentionPeriod then
      [ModificationRequest(BackupRetentionChange,
                           "Change backup retention period to " + IntToString(c.backupRetentionPeriod.value) + " days", false)]
    else []
  }

  function MultiAzChanges(inst: DbInstance, c: RdsConfig): (r: seq<ModificationRequest>)
    ensures |r| <= 1 && forall k :: 0 <= k < |r| ==> r[k].modType == MultiAzChange && !r[k].required
  {
    if c.multiAz.Some? && inst.multiAz != c.multiAz then
      [ModificationRequest(MultiAzChange, "Change Multi-AZ configuration to " + BoolText(c.multiAz.value), false)]
    else []
  }

  /** Every type in `mods` ranks in `[lo, hi)`, and exactly the first three kinds are required. */
  predicate RanksIn(mods: seq<ModificationRequest>, lo: int, hi: int)
  {
    forall k :: 0 <= k < |mods| ==>
      lo <= Rank(mods[k].modType) < hi && (mods[k].required <==> Rank(mods[k].modType) <= 2)
  }

  lemma OrderedAppend(a: seq<ModificationRequest>, b: seq<ModificationRequest>, mid: int, hi: int)
    requires 0 <= mid <= hi
    requires InOrder(a) && InOrder(b) && RanksIn(a, 0, mid) && RanksIn(b, mid, hi)
    ensures InOrder(a + b) && RanksIn(a + b, 0, hi)
  {
    forall k | 0 <= k < |a + b|
      ensures 0 <= Rank((a + b)[k].modType) < hi
      ensures (a + b)[k].required <==> Rank((a + b)[k].modType) <= 2
    {
      if k < |a| {
        assert (a + b)[k] == a[k];
      } else {
        assert (a + b)[k] == b[k - |a|];
      }
    }
    forall i, j | 0 <= i < j < |a + b|
      ensures Rank((a + b)[i].modType) < Rank((a + b)[j].modType)
    {
      if j < |a| {
        assert (a + b)[i] == a[i] && (a + b)[j] == a[j];
      } else if i >= |a| {
        assert (a + b)[i] == b[i - |a|] && (a + b)[j] == b[j - |a|];
      } else {
        assert (a + b)[i] == a[i] && (a + b)[j] == b[j - |a|];
      }
    }
  }

  lemma HasTypeAppend(a: seq<ModificationRequest>, b: seq<ModificationRequest>, t: string)
    ensures HasType(a + b, t) <==> HasType(a, t) || HasType(b, t)
  {
    if HasType(a + b, t) {
      var k :| 0 <= k < |a + b| && (a + b)[k].modType == t;
      if k >= |a| {
        assert b[k - |a|].modType == t;
      }
    }
    if HasType(a, t) {
      var k :| 0 <= k < |a| && a[k].modType == t;
      assert (a + b)[k].modType == t;
    }
    if HasType(b, t) {
      var k :| 0 <= k < |b| && b[k].modType == t;
      assert (a + b)[|a| + k].modType == t;
    }
  }

  lemma HasTypeOfOne(m: seq<ModificationRequest>, t: string, t0: string)
    requires |m| <= 1 && forall k :: 0 <= k < |m| ==> m[k].modType == t0
    ensures HasType(m, t) <==> |m| == 1 && t == t0
  {
    if |m| == 1 && t == t0 {
      assert m[0].modType == t;
    }
  }

  lemma HasTypeOfFive(m1: seq<ModificationRequest>, m2: seq<ModificationRequest>, m3: seq<ModificationRequest>,
                      m4: seq<ModificationRequest>, m5: seq<ModificationRequest>, t: string)
    ensures HasType(m1 + m2 + m3 + m4 + m5, t) <==>
      HasType(m1, t) || HasType(m2, t) || HasType(m3, t) || HasType(m4, t) || HasType(m5, t)
  {
    HasTypeAppend(m1, m2, t);
    HasTypeAppend(m1 + m2, m3, t);
    HasTypeAppend(m1 + m2 + m3, m4, t);
    HasTypeAppend(m1 + m2 + m3 + m4, m5, t);
  }

  /**
   * `calculateRequiredModifications`: the differences between the
   * described instance and the configuration, in a fixed order.
   */
  function RequiredModifications(inst: DbInstance, c: RdsConfig): (mods: seq<ModificationRequest>)
    ensures |mods| <= 5
  {
    ClassChanges(inst, c) + StorageChanges(inst, c) + EngineChanges(inst, c) + BackupChanges(inst, c) + MultiAzChanges(inst, c)
  }

  /**
   * The instance class and the engine version are changed when the
   * instance reports a different one, the storage only when it must grow,
   * and the backup retention and Multi-AZ only when configured and
   * different.
   */
  lemma RequiredModificationsMeaning(inst: DbInstance, c: RdsConfig)
    ensures var mods := RequiredModifications(inst, c);
      (HasType(mods, InstanceClassChange) <==>
         inst.dbInstanceClass.Some? && inst.dbInstanceClass.value != c.instanceClass) &&
      (HasType(mods, StorageChange) <==>
         inst.allocatedStorage.Some? && inst.allocatedStorage.value < c.allocatedStorage) &&
      (HasType(mods, EngineVersionChange) <==>
         inst.engineVersion.Some? && inst.engineVersion.value != c.engineVersion) &&
      (HasType(mods, BackupRetentionChange) <==>
         c.backupRetentionPeriod.Some? && inst.backupRetentionPeriod != c.backupRetentionPeriod) &&
      (HasType(mods, MultiAzChange) <==> c.multiAz.Some? && inst.multiAz != c.multiAz)
  {
    var m1, m2, m3, m4, m5 := ClassChanges(inst, c), StorageChanges(inst, c), EngineChanges(inst, c),
                              BackupChanges(inst, c), MultiAzChanges(inst, c);
    forall t | t in [InstanceClassChange, StorageChange, EngineVersionChange, BackupRetentionChange, MultiAzChange]
      ensures HasType(m1, t) <==> |m1| == 1 && t == InstanceClassChange
      ensures HasType(m2, t) <==> |m2| == 1 && t == StorageChange
      ensures HasType(m3, t) <==> |m3| == 1 && t == EngineVersionChange
      ensures HasType(m4, t) <==> |m4| == 1 && t == BackupRetentionChange
      ensures HasType(m5, t) <==> |m5| == 1 && t == MultiAzChange
    {
      HasTypeOfOne(m1, t, InstanceClassChange);
      HasTypeOfOne(m2, t, StorageChange);
      HasTypeOfOne(m3, t, EngineVersionChange);
      HasTypeOfOne(m4, t, BackupRetentionChange);
      HasTypeOfOne(m5, t, MultiAzChange);
    }
    HasTypeOfFive(m1, m2, m3, m4, m5, InstanceClassChange);
    HasTypeOfFive(m1, m2, m3, m4, m5, StorageChange);
    HasTypeOfFive(m1, m2, m3, m4, m5, EngineVersionChange);
    HasTypeOfFive(m1, m2, m3, m4, m5, BackupRetentionChange);
    HasTypeOfFive(m1, m2, m3, m4, m5, MultiAzChange);
  }

  /** The modifications come in the fixed order, each type at most once, the first three required. */
  lemma RequiredModificationsOrdered(inst: DbInstance, c: RdsConfig)
    ensures InOrder(RequiredModifications(inst, c)) && RanksIn(RequiredModifications(inst, c), 0, 5)
  {
    var m1, m2, m3, m4, m5 := ClassChanges(inst, c), StorageChanges(inst, c), EngineChanges(inst, c),
                              BackupChanges(inst, c), MultiAzChanges(inst, c);
    assert RanksIn(m1, 0, 1) && RanksIn(m2, 1, 2) && RanksIn(m3, 2, 3) && RanksIn(m4, 3, 4) && RanksIn(m5, 4, 5);
    OrderedAppend(m1, m2, 1, 2);
    OrderedAppend(m1 + m2, m3, 2, 3);
    OrderedAppend(m1 + m2 + m3, m4, 3, 4);
    OrderedAppend(m1 + m2 + m3 + m4, m5, 4, 5);
  }

  /** The modify request for a list of modifications: each field set exactly when its type is listed. */
  function ModifyInputFor(c: RdsConfig, id: string, mods: seq<ModificationRequest>): ModifyDbInstanceInput
  {
    ModifyDbInstanceInput(
      id, Some(false),
      if HasType(mods, InstanceClassChange) then Some(c.instanceClass) else None,
      if HasType(mods, StorageChange) then Some(c.allocatedStorage) else None,
      if HasType(mods, EngineVersionChange) then Some(c.engineVersion) else None,
      if HasType(mods, BackupRetentionChange) then c.backupRetentionPeriod else None,
      if HasType(mods, MultiAzChange) then c.multiAz else None,
      OptionalStringPtr(c.preferredBackupWindow),
      OptionalStringPtr(c.preferredMaintenanceWindow),
      Passthrough(c.autoMinorVersionUpgrade))
  }

  lemma HasTypeNext(mods: seq<ModificationRequest>, i: int, t: string)
    requires 0 <= i < |mods|
    ensures HasType(mods[..i + 1], t) <==> HasType(mods[..i], t) || mods[i].modType == t
  {
    assert mods[..i + 1] == mods[..i] + [mods[i]];
    HasTypeAppend(mods[..i], [mods[i]], t);
    if mods[i].modType == t {
      assert [mods[i]][0].modType == t;
    }
  }

  /**
   * `buildModifyDBInstanceInput`: applied at the next maintenance window,
   * each listed modification copied from the configuration, then the
   * windows when non-empty and the minor-upgrade flag when set.
   */
  method BuildModifyDbInstanceInput(c: RdsConfig, id: string, mods: seq<ModificationRequest>)
    returns (input: ModifyDbInstanceInput)
    ensures input == ModifyInputFor(c, id, mods)
  {
    input := ModifyDbInstanceInput(id, Some(false), None, None, None, None, None, None, None, None);
    for i := 0 to |mods|
      invariant input == ModifyInputFor(c, id, mods[..i]).(
        preferredBackupWindow := None, preferredMaintenanceWindow := None, autoMinorVersionUpgrade := None)
    {
      HasTypeNext(mods, i, InstanceClassChange);
      HasTypeNext(mods, i, StorageChange);
      HasTypeNext(mods, i, EngineVersionChange);
      HasTypeNext(mods, i, BackupRetentionChange);
      HasTypeNext(mods, i, MultiAzChange);
      var t := mods[i].modType;
      if t == InstanceClassChange {
        input := input.(dbInstanceClass := Some(c.instanceClass));
      } else if t == StorageChange {
        input := input.(allocatedStorage := Some(c.allocatedStorage));
      } else if t == EngineVersionChange {
        input := input.(engineVersion := Some(c.engineVersion));
      } else if t == BackupRetentionChange {
        if c.backupRetentionPeriod.Some? {
          input := input.(backupRetentionPeriod := Some(c.backupRetentionPeriod.value));
        }
      } else if t == MultiAzChange {
        if c.multiAz.Some? {
          input := input.(multiAz := Some(c.multiAz.value));
        }
      }
    }
    assert mods[..|mods|] == mods;
    if c.preferredBackupWindow != "" {
      input := input.(preferredBackupWindow := Some(c.preferredBackupWindow));
    }
    if c.preferredMaintenanceWindow != "" {
      input := input.(preferredMaintenanceWindow := Some(c.preferredMaintenanceWindow));
    }
    if c.autoMinorVersionUpgrade.Some? {
      input := input.(autoMinorVersionUpgrade := Some(c.autoMinorVersionUpgrade.value));
    }
  }

  /** What `Upgrade` records after starting the modification. */
  function Modified(s: RdsStatus, now: string, inst: Option<DbInstance>): RdsStatus
  {
    var s1 := s.(lastModifiedTime := now, instanceStatus := "modifying");
    match inst
    case None => s1
    case Some(i) =>
      s1.(instanceStatus := if i.dbInstanceStatus.Some? then i.dbInstanceStatus.value else s1.instanceStatus,
          instanceClass := if i.dbInstanceClass.Some? then i.dbInstanceClass.value else s1.instanceClass,
          allocatedStorage := if i.allocatedStorage.Some? then i.allocatedStorage.value else s1.allocatedStorage)
  }

  /** `getCurrentInstanceState`: the first described instance, or an error. */
  function CurrentInstance(env: RdsEnv, id: string): Result<DbInstance>
  {
    match env.describe(id)
    case DescribeFailed(e) => Err(e)
    case Described(instances) =>
      if |instances| == 0 then Err("no RDS instances found with identifier " + id) else Ok(instances[0])
  }

  /** `Upgrade` as a function of the status before the pass. */
  function Upgraded(c: RdsConfig, s: RdsStatus, env: RdsEnv): OperationStep
  {
    var id := InstanceIdFor(c, s);
    var calls := [DescribeInstances(id)];
    match CurrentInstance(env, id)
    case Err(e) =>
      if InstanceNotFound(Some(e)) then
        var d := Deployed(c, s, env);
        OperationStep(d.status, d.reply, calls + d.calls)
      else OperationStep(s, ErrorReply(s, "failed to get current RDS instance state", e), calls)
    case Ok(inst) =>
      var st := StringValue(inst.dbInstanceStatus);
      if st != "available" && st != "storage-optimization" then OperationStep(s, PendingReply(s), calls)
      else
        var mods := RequiredModifications(inst, c);
        if |mods| == 0 then OperationStep(s, SuccessReply(s), calls)
        else
          var input := ModifyInputFor(c, id, mods);
          var calls' := calls + [ModifyInstance(input)];
          match env.modifyInstance(input)
          case Err(e) => OperationStep(s, ErrorReply(s, "failed to modify RDS instance", e), calls')
          case Ok(result) =>
            var s' := Modified(s, env.now, result);
            OperationStep(s', PendingReply(s'), calls')
  }

  // ---------------------------------------------------------------------
  // The operations object

  /** `RdsOperations`: the resolved configuration and the status the operations update. */
  class RdsOperations {
    const config: RdsConfig
    var status: RdsStatus

    constructor (config: RdsConfig, status: RdsStatus)
      ensures this.config == config && this.status == status
    {
      this.config := config;
      this.status := status;
    }

    /** `errorResult` on the current status. */
    method ErrorResult(message: string, err: string) returns (reply: Reply)
      ensures reply == ErrorReply(status, message, err)
    {
      var fullError := message + ": " + err;
      var transient := IsTransientError(Some(err));
      if transient {
        return Reply(OperationResult(status, false, None), Some(fullError));
      }
      return Reply(OperationResult(status, false, Some(fullError)), None);
    }

    /** The failed lookups of `CheckDeployment`. */
    method LookupFailure(id: string, d: Describe) returns (reply: Reply)
      requires d.DescribeFailed? || |d.instances| == 0
      ensures reply == LookupFailureReply(status, id, d)
    {
      if d.DescribeFailed? {
        if InstanceNotFound(Some(d.error)) {
          reply := ErrorResult("instance not found", "RDS instance " + id + " not found during deployment check");
        } else {
          reply := ErrorResult("failed to describe RDS instance", d.error);
        }
      } else {
        reply := ErrorResult("no instances found", "no RDS instances returned for identifier " + id);
      }
    }

    /** The status switch of `CheckDeployment`. */
    method DeploymentStatus(st: string) returns (reply: Reply)
      ensures reply == DeploymentStatusReply(status, st)
    {
      if st == "available" {
        reply := SuccessReply(status);
      } else if st == "creating" || st == "backing-up" || st == "modifying" {
        reply := PendingReply(status);
      } else if st == "failed" || st == "incompatible-restore" || st == "incompatible-network" {
        reply := FailureReply(status, "deployment failed", DeploymentFailedError(st));
      } else {
        reply := PendingReply(status);
      }
    }

    /** The field-by-field update of `CheckDeployment`: identity, state and sizing. */
    method RecordIdentity(id: string, inst: DbInstance)
      modifies this
      ensures status == old(status).(
        instanceId := id,
        instanceStatus := if inst.dbInstanceStatus.Some? then inst.dbInstanceStatus.value else old(status).instanceStatus,
        engineVersion := if inst.engine.Some? then StringValue(inst.engineVersion) else old(status).engineVersion,
        instanceClass := if inst.dbInstanceClass.Some? then inst.dbInstanceClass.value else old(status).instanceClass,
        allocatedStorage := if inst.allocatedStorage.Some? then inst.allocatedStorage.value else old(status).allocatedStorage)
    {
      status := status.(instanceId := id);
      if inst.dbInstanceStatus.Some? {
        status := status.(instanceStatus := inst.dbInstanceStatus.value);
      }
      if inst.engine.Some? {
        status := status.(engineVersion := StringValue(inst.engineVersion));
      }
      if inst.dbInstanceClass.Some? {
        status := status.(instanceClass := inst.dbInstanceClass.value);
      }
      if inst.allocatedStorage.Some? {
        status := status.(allocatedStorage := inst.allocatedStorage.value);
      }
    }

    /** The rest of `CheckDeployment`'s update: endpoint, backups, Multi-AZ and the time. */
    method RecordEndpoint(inst: DbInstance, now: string)
      modifies this
      ensures status == old(status).(
        endpoint := if inst.endpoint.Some? && inst.endpoint.value.address.Some? then inst.endpoint.value.address.value else old(status).endpoint,
        port := if inst.endpoint.Some? && inst.endpoint.value.port.Some? then inst.endpoint.value.port.value else old(status).port,
        backupRetentionPeriod := if inst.backupRetentionPeriod.Some? then inst.backupRetentionPeriod.value else old(status).backupRetentionPeriod,
        multiAz := if inst.multiAz.Some? then inst.multiAz.value else old(status).multiAz,
        lastModifiedTime := now)
    {
      if inst.endpoint.Some? {
        if inst.endpoint.value.address.Some? {
          status := status.(endpoint := inst.endpoint.value.address.value);
        }
        if inst.endpoint.value.port.Some? {
          status := status.(port := inst.endpoint.value.port.value);
        }
      }
      if inst.backupRetentionPeriod.Some? {
        status := status.(backupRetentionPeriod := inst.backupRetentionPeriod.value);
      }
      if inst.multiAz.Some? {
        status := status.(multiAz := inst.multiAz.value);
      }
      status := status.(lastModifiedTime := now);
    }

    /** `CheckDeployment`: the timeout, the lookup, the status update and the status switch. */
    method CheckDeployment(elapsed: int, env: RdsEnv) returns (reply: Reply, calls: seq<RdsCall>)
      modifies this
      ensures OperationStep(status, reply, calls) == DeploymentChecked(config, old(status), elapsed, env)
    {
      var instanceId := status.instanceId;
      if instanceId == "" {
        instanceId := config.databaseName + "-db";
      }
      var createTimeout := DefaultCreateTimeout;
      if config.timeouts.Some? && config.timeouts.value.create.Some? {
        createTimeout := config.timeouts.value.create.value;
      }
      if elapsed > createTimeout {
        reply := ErrorResult("deployment timeout exceeded", "RDS instance creation timed out after " + env.formatDuration(elapsed));
        return reply, [];
      }
      calls := [DescribeInstances(instanceId)];
      var result := env.describe(instanceId);
      if result.DescribeFailed? || |result.instances| == 0 {
        reply := LookupFailure(instanceId, result);
        return;
      }
      var instance := result.instances[0];
      RecordIdentity(instanceId, instance);
      RecordEndpoint(instance, env.now);
      reply := DeploymentStatus(StringValue(instance.dbInstanceStatus));
    }

    /** `Deploy`: create the instance unless it exists, in which case its progress is checked. */
    method Deploy(env: RdsEnv) returns (reply: Reply, calls: seq<RdsCall>)
      modifies this
      ensures OperationStep(status, reply, calls) == Deployed(config, old(status), env)
    {
      var instanceId := config.databaseName + "-db";
      if status.instanceId != "" {
        instanceId := status.instanceId;
      }
      calls := [CheckInstanceExists(instanceId)];
      var existing := env.instanceExists(instanceId);
      if existing.Err? {
        reply := ErrorResult("failed to check if RDS instance exists", existing.error);
        return;
      }
      if existing.value {
        var more;
        reply, more := CheckDeployment(0, env);
        calls := calls + more;
        return;
      }
      calls := calls + [CreateInstance(instanceId)];
      var result := env.createInstance(instanceId);
      if result.Err? {
        reply := ErrorResult("failed to create RDS instance", result.error);
        return;
      }
      status := Created(config, status, instanceId, env.now, result.value);
      reply := PendingReply(status);
    }

    /** `Upgrade`: deploy a missing instance, wait for a busy one, otherwise apply the differences. */
    method Upgrade(env: RdsEnv) returns (reply: Reply, calls: seq<RdsCall>)
      modifies this
      ensures OperationStep(status, reply, calls) == Upgraded(config, old(status), env)
    {
      var instanceId := status.instanceId;
      if instanceId == "" {
        instanceId := config.databaseName + "-db";
      }
      calls := [DescribeInstances(instanceId)];
      var current := CurrentInstance(env, instanceId);
      if current.Err? {
        if InstanceNotFound(Some(current.error)) {
          var more;
          reply, more := Deploy(env);
          calls := calls + more;
          return;
        }
        reply := ErrorResult("failed to get current RDS instance state", current.error);
        return;
      }
      var modifiable := IsInstanceModifiable(StringValue(current.value.dbInstanceStatus));
      if !modifiable {
        return PendingReply(status), calls;
      }
      var modifications := RequiredModifications(current.value, config);
      if |modifications| == 0 {
        return SuccessReply(status), calls;
      }
      var modifyInput := BuildModifyDbInstanceInput(config, instanceId, modifications);
      calls := calls + [ModifyInstance(modifyInput)];
      var result := env.modifyInstance(modifyInput);
      if result.Err? {
        reply := ErrorResult("failed to modify RDS instance", result.error);
        return;
      }
      status := Modified(status, env.now, result.value);
      reply := PendingReply(status);
    }
  }

  // ---------------------------------------------------------------------
  // Properties of the operations

  /** Every call `CheckDeployment` makes is about the instance the status or the configuration names. */
  lemma CheckAddressesOneInstance(c: RdsConfig, s: RdsStatus, elapsed: int, env: RdsEnv)
    ensures forall k :: 0 <= k < |DeploymentChecked(c, s, elapsed, env).calls| ==>
      CallTarget(DeploymentChecked(c, s, elapsed, env).calls[k]) == InstanceIdFor(c, s)
  {
  }

  /** Every call `Deploy` makes, including those of the check it delegates to, is about the same instance. */
  lemma DeployAddressesOneInstance(c: RdsConfig, s: RdsStatus, env: RdsEnv)
    ensures forall k :: 0 <= k < |Deployed(c, s, env).calls| ==> CallTarget(Deployed(c, s, env).calls[k]) == InstanceIdFor(c, s)
  {
    CheckAddressesOneInstance(c, s, 0, env);
  }

  /** Every call `Upgrade` makes, including those of a redeployment, is about the same instance. */
  lemma UpgradeAddressesOneInstance(c: RdsConfig, s: RdsStatus, env: RdsEnv)
    ensures forall k :: 0 <= k < |Upgraded(c, s, env).calls| ==> CallTarget(Upgraded(c, s, env).calls[k]) == InstanceIdFor(c, s)
  {
    var id := InstanceIdFor(c, s);
    match CurrentInstance(env, id)
    case Err(e) =>
      DeployAddressesOneInstance(c, s, env);
    case Ok(inst) =>
      var mods := RequiredModifications(inst, c);
      assert ModifyInputFor(c, id, mods).dbInstanceIdentifier == id;
  }

  /**
   * Only an elapsed time strictly beyond the create timeout fails the
   * check, and then without asking AWS; at the timeout itself the instance
   * is still looked up.
   */
  lemma TimeoutIsStrict(c: RdsConfig, s: RdsStatus, env: RdsEnv)
    ensures DeploymentChecked(c, s, CreateTimeout(c) + 1, env).calls == []
    ensures DeploymentChecked(c, s, CreateTimeout(c) + 1, env).status == s
    ensures !DeploymentChecked(c, s, CreateTimeout(c) + 1, env).reply.result.success
    ensures DeploymentChecked(c, s, CreateTimeout(c), env).calls == [DescribeInstances(InstanceIdFor(c, s))]
  {
  }

  /** Without a configured one, the create timeout is forty minutes. */
  lemma DefaultCreateTimeoutIsFortyMinutes(c: RdsConfig)
    requires c.timeouts.None? || c.timeouts.value.create.None?
    ensures CreateTimeout(c) == 40 * 60
  {
  }

  /** The status switch of a successful lookup: success, a permanent failure, or still pending. */
  lemma DescribedStatusDecides(c: RdsConfig, s: RdsStatus, elapsed: int, env: RdsEnv, inst: DbInstance)
    requires elapsed <= CreateTimeout(c)
    requires env.describe(InstanceIdFor(c, s)) == Described([inst])
    ensures var r := DeploymentChecked(c, s, elapsed, env);
      var st := StringValue(inst.dbInstanceStatus);
      r.status == Observed(s, inst, InstanceIdFor(c, s), env.now) &&
      (r.reply.result.success <==> st == "available") &&
      (st in DeploymentFailedStatuses ==> r.reply.err.None? && r.reply.result.operationError.Some?) &&
      (st != "available" && st !in DeploymentFailedStatuses ==> r.reply == PendingReply(r.status))
  {
  }

  /** An existing instance is not created again: `Deploy` checks it as `CheckDeployment` with no time elapsed. */
  lemma DeployExistingDelegates(c: RdsConfig, s: RdsStatus, env: RdsEnv)
    requires env.instanceExists(InstanceIdFor(c, s)) == Ok(true)
    ensures Deployed(c, s, env).status == DeploymentChecked(c, s, 0, env).status
    ensures Deployed(c, s, env).reply == DeploymentChecked(c, s, 0, env).reply
    ensures Deployed(c, s, env).calls == [CheckInstanceExists(InstanceIdFor(c, s))] + DeploymentChecked(c, s, 0, env).calls
    ensures forall k :: 0 <= k < |Deployed(c, s, env).calls| ==> !Deployed(c, s, env).calls[k].CreateInstance?
  {
  }

  /** A started creation is pending and records the instance with the configured sizing. */
  lemma CreationRecorded(c: RdsConfig, s: RdsStatus, env: RdsEnv)
    requires env.instanceExists(InstanceIdFor(c, s)) == Ok(false)
    requires env.createInstance(InstanceIdFor(c, s)).Ok?
    ensures var r := Deployed(c, s, env);
      r.reply == PendingReply(r.status) &&
      r.status.instanceId == InstanceIdFor(c, s) && r.status.databaseName == c.databaseName &&
      r.status.createdAt == env.now && r.status.engineVersion == c.engineVersion &&
      r.status.instanceClass == c.instanceClass && r.status.allocatedStorage == c.allocatedStorage &&
      (env.createInstance(InstanceIdFor(c, s)).value.None? ==> r.status.instanceStatus == "creating")
  {
  }

  /** A busy instance is waited for without modifying it. */
  lemma BusyInstanceWaits(c: RdsConfig, s: RdsStatus, env: RdsEnv, inst: DbInstance)
    requires env.describe(InstanceIdFor(c, s)) == Described([inst])
    requires StringValue(inst.dbInstanceStatus) !in ModifiableStates
    ensures Upgraded(c, s, env) == OperationStep(s, PendingReply(s), [DescribeInstances(InstanceIdFor(c, s))])
  {
  }

  /** A modifiable instance that already matches the configuration is an immediate success. */
  lemma NothingToModify(c: RdsConfig, s: RdsStatus, env: RdsEnv, inst: DbInstance)
    requires env.describe(InstanceIdFor(c, s)) == Described([inst])
    requires StringValue(inst.dbInstanceStatus) in ModifiableStates
    requires RequiredModifications(inst, c) == []
    ensures Upgraded(c, s, env) == OperationStep(s, SuccessReply(s), [DescribeInstances(InstanceIdFor(c, s))])
  {
  }

  /** An instance reporting exactly the configured settings needs no modification. */
  lemma NoDriftNoModifications(inst: DbInstance, c: RdsConfig)
    requires inst.dbInstanceClass == Some(c.instanceClass) && inst.allocatedStorage == Some(c.allocatedStorage)
    requires inst.engineVersion == Some(c.engineVersion)
    requires inst.backupRetentionPeriod == c.backupRetentionPeriod && inst.multiAz == c.multiAz
    ensures RequiredModifications(inst, c) == []
  {
  }

  /** Storage is never shrunk: a larger or equal instance gets no storage change. */
  lemma StorageOnlyGrows(inst: DbInstance, c: RdsConfig)
    requires inst.allocatedStorage.Some? && inst.allocatedStorage.value >= c.allocatedStorage
    ensures ModifyInputFor(c, "", RequiredModifications(inst, c)).allocatedStorage.None?
  {
    RequiredModificationsMeaning(inst, c);
  }

  /**
   * The modify request asks for exactly the differences found, is applied
   * at the next maintenance window, and carries the windows only when
   * configured.
   */
  lemma ModifyRequestsTheDifferences(inst: DbInstance, c: RdsConfig, id: string)
    ensures var input := ModifyInputFor(c, id, RequiredModifications(inst, c));
      input.dbInstanceIdentifier == id && input.applyImmediately == Some(false) &&
      (input.dbInstanceClass.Some? <==> inst.dbInstanceClass.Some? && inst.dbInstanceClass.value != c.instanceClass) &&
      (input.allocatedStorage.Some? <==> inst.allocatedStorage.Some? && inst.allocatedStorage.value < c.allocatedStorage) &&
      (input.engineVersion.Some? <==> inst.engineVersion.Some? && inst.engineVersion.value != c.engineVersion) &&
      (input.backupRetentionPeriod.Some? <==> c.backupRetentionPeriod.Some? && inst.backupRetentionPeriod != c.backupRetentionPeriod) &&
      (input.multiAz.Some? <==> c.multiAz.Some? && inst.multiAz != c.multiAz) &&
      (input.preferredBackupWindow.Some? <==> c.preferredBackupWindow != "") &&
      (input.preferredMaintenanceWindow.Some? <==> c.preferredMaintenanceWindow != "")
  {
    RequiredModificationsMeaning(inst, c);
  }

  /** An instance that has disappeared is deployed afresh by `Upgrade`. */
  lemma MissingInstanceRedeployed(c: RdsConfig, s: RdsStatus, env: RdsEnv)
    requires CurrentInstance(env, InstanceIdFor(c, s)).Err?
    requires InstanceNotFound(Some(CurrentInstance(env, InstanceIdFor(c, s)).error))
    ensures Upgraded(c, s, env).status == Deployed(c, s, env).status
    ensures Upgraded(c, s, env).reply == Deployed(c, s, env).reply
    ensures Upgraded(c, s, env).calls == [DescribeInstances(InstanceIdFor(c, s))] + Deployed(c, s, env).calls
  {
  }
}
