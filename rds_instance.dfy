// The RDS package's AWS layer: telling AWS faults apart, looking an
// instance up, recording what AWS reports about it, and building the
// create and delete requests.  Each AWS call enters as its answer (or a
// function from the request to its answer).
module RdsInstance {
  import opened Wrappers
  import opened Strings
  import opened RdsConversion
  import opened RdsPackageConfig

  // ---------------------------------------------------------------------
  // AWS faults

  /** The AWS fault types the package tells apart. */
  datatype FaultKind = DbInstanceNotFoundFault | InvalidDbInstanceStateFault | OtherFault

  /** An error from the AWS SDK: its fault type and its message. */
  datatype AwsError = AwsError(kind: FaultKind, message: string)

  /** `isInstanceNotFoundError`: the error is a `DBInstanceNotFoundFault`; nil never is. */
  predicate IsInstanceNotFoundError(err: Option<AwsError>)
  {
    err.Some? && err.value.kind == DbInstanceNotFoundFault
  }

  const AlreadyBeingDeleted := "already being deleted"

  /**
   * `isInstanceAlreadyBeingDeletedError`: an `InvalidDBInstanceState`
   * fault whose lower-cased message says the instance is already being
   * deleted.
   */
  predicate IsInstanceAlreadyBeingDeletedError(err: Option<AwsError>)
  {
    err.Some? && err.value.kind == InvalidDbInstanceStateFault && Contains(ToLower(err.value.message), AlreadyBeingDeleted)
  }

  /**
   * The phrase is recognised in any letter case, anywhere in the message
   * of an invalid-state fault, and never in any other kind of fault.
   */
  lemma AlreadyBeingDeletedAnyCase(a: string, phrase: string, b: string, kind: FaultKind)
    requires ToLower(phrase) == AlreadyBeingDeleted
    ensures IsInstanceAlreadyBeingDeletedError(Some(AwsError(kind, a + phrase + b))) <==> kind == InvalidDbInstanceStateFault
  {
    ToLowerAppend(a + phrase, b);
    ToLowerAppend(a, phrase);
    ContainsWithin(ToLower(a), AlreadyBeingDeleted, ToLower(b));
  }

  /** A message in three pieces lowers to the phrase when its pieces lower to the phrase's three parts. */
  lemma PiecesLower(p1: string, p2: string, p3: string)
    requires ToLower(p1) == AlreadyBeingDeleted[..8]
    requires ToLower(p2) == AlreadyBeingDeleted[8..13]
    requires ToLower(p3) == AlreadyBeingDeleted[13..]
    ensures ToLower(p1 + p2 + p3) == AlreadyBeingDeleted
  {
    ToLowerAppend(p1, p2);
    ToLowerAppend(p1 + p2, p3);
    assert AlreadyBeingDeleted[..8] + AlreadyBeingDeleted[8..13] == AlreadyBeingDeleted[..13];
    assert AlreadyBeingDeleted[..13] + AlreadyBeingDeleted[13..] == AlreadyBeingDeleted;
  }

  lemma AlreadyLowers() ensures ToLower("ALREADY ") == AlreadyBeingDeleted[..8] {}
  lemma DottedBeingLowers() ensures ToLower("BE\U{0130}NG") == AlreadyBeingDeleted[8..13] {}
  lemma DeletedLowers() ensures ToLower(" DELETED") == AlreadyBeingDeleted[13..] {}

  /** "ALREADY BE\u0130NG DELETED" lowers to the phrase. */
  lemma DottedPhraseLowers()
    ensures ToLower("ALREADY " + "BE\U{0130}NG" + " DELETED") == AlreadyBeingDeleted
  {
    AlreadyLowers();
    DottedBeingLowers();
    DeletedLowers();
    PiecesLower("ALREADY ", "BE\U{0130}NG", " DELETED");
  }

  /** A dotted capital I lowers to 'i', so the phrase is recognised in "ALREADY BE\u0130NG DELETED" as well. */
  lemma DottedCapitalIRecognised(a: string, b: string)
    ensures IsInstanceAlreadyBeingDeletedError(Some(AwsError(InvalidDbInstanceStateFault, a + ("ALREADY " + "BE\U{0130}NG" + " DELETED") + b)))
  {
    DottedPhraseLowers();
    AlreadyBeingDeletedAnyCase(a, "ALREADY " + "BE\U{0130}NG" + " DELETED", b, InvalidDbInstanceStateFault);
  }

  /** No error is both a missing instance and one already being deleted. */
  lemma FaultsExclusive(err: Option<AwsError>)
    ensures !(IsInstanceNotFoundError(err) && IsInstanceAlreadyBeingDeletedError(err))
    ensures !IsInstanceNotFoundError(None) && !IsInstanceAlreadyBeingDeletedError(None)
  {
  }

  // ---------------------------------------------------------------------
  // Looking an instance up

  /** What `DescribeDBInstances` answers. */
  datatype DescribeOutcome = DescribeError(error: AwsError) | DescribeOk(instances: seq<DbInstance>)

  /** What a create or delete call answers: an error, or the instance AWS reports, possibly none. */
  datatype CallOutcome = CallFailed(error: AwsError) | Answered(instance: Option<DbInstance>)

  /**
   * `getInstanceData`: the first instance described; no instance when
   * AWS says it is not found or describes none; any other error wrapped.
   */
  function InstanceData(outcome: DescribeOutcome): (r: Result<Option<DbInstance>>)
    ensures r.Ok? && r.value.None? <==>
      (outcome.DescribeError? && IsInstanceNotFoundError(Some(outcome.error))) ||
      (outcome.DescribeOk? && |outcome.instances| == 0)
    ensures r.Ok? && r.value.Some? <==> outcome.DescribeOk? && |outcome.instances| > 0
    ensures r.Ok? && r.value.Some? ==> r.value.value == outcome.instances[0]
    ensures r.Err? ==>
      outcome.DescribeError? && !IsInstanceNotFoundError(Some(outcome.error)) &&
      r.error == "failed to describe RDS instance: " + outcome.error.message
  {
    match outcome
    case DescribeError(e) =>
      if IsInstanceNotFoundError(Some(e)) then Ok(None) else Err("failed to describe RDS instance: " + e.message)
    case DescribeOk(instances) =>
      if |instances| == 0 then Ok(None) else Ok(Some(instances[0]))
  }

  // ---------------------------------------------------------------------
  // Recording what AWS reports

  function SecretArnOf(inst: DbInstance): Option<string>
  {
    if inst.masterUserSecret.Some? && inst.masterUserSecret.value.secretArn.Some? then
      inst.masterUserSecret.value.secretArn
    else None
  }

  /** The status after `updateStatus` / `updateStatusFromInstance` with a described instance. */
  function StatusFrom(s: RdsStatus, inst: DbInstance): RdsStatus
  {
    s.(instanceStatus := StringValue(inst.dbInstanceStatus),
       instanceArn := StringValue(inst.dbInstanceArn),
       endpoint := EndpointAddress(inst.endpoint),
       port := EndpointPort(inst.endpoint),
       availabilityZone := StringValue(inst.availabilityZone),
       masterUserSecretArn := if SecretArnOf(inst).Some? then SecretArnOf(inst).value else s.masterUserSecretArn)
  }

  /**
   * The reported state, ARN, endpoint, port and zone are copied, a
   * missing one as ""/0; the secret's ARN is taken when reported and
   * otherwise kept.
   */
  lemma StatusFromMeaning(s: RdsStatus, inst: DbInstance)
    ensures var r := StatusFrom(s, inst);
      (r.instanceStatus == if inst.dbInstanceStatus.Some? then inst.dbInstanceStatus.value else "") &&
      (r.instanceArn == if inst.dbInstanceArn.Some? then inst.dbInstanceArn.value else "") &&
      (inst.endpoint.None? ==> r.endpoint == "" && r.port == 0) &&
      (inst.endpoint.Some? && inst.endpoint.value.address.Some? ==> r.endpoint == inst.endpoint.value.address.value) &&
      (inst.endpoint.Some? && inst.endpoint.value.port.Some? ==> r.port == inst.endpoint.value.port.value) &&
      (r.availabilityZone == if inst.availabilityZone.Some? then inst.availabilityZone.value else "") &&
      (inst.masterUserSecret.Some? && inst.masterUserSecret.value.secretArn.Some? ==>
         r.masterUserSecretArn == inst.masterUserSecret.value.secretArn.value) &&
      (inst.masterUserSecret.None? || inst.masterUserSecret.value.secretArn.None? ==>
         r.masterUserSecretArn == s.masterUserSecretArn)
  {
  }

  /** Recording the same instance twice is recording it once. */
  lemma StatusFromIdempotent(s: RdsStatus, inst: DbInstance)
    ensures StatusFrom(StatusFrom(s, inst), inst) == StatusFrom(s, inst)
  {
  }

  /** The previous status matters only through the secret's ARN: everything else is overwritten. */
  lemma StatusFromForgetsTheRest(s1: RdsStatus, s2: RdsStatus, inst: DbInstance)
    requires s1.masterUserSecretArn == s2.masterUserSecretArn || SecretArnOf(inst).Some?
    ensures StatusFrom(s1, inst) == StatusFrom(s2, inst)
  {
  }

  /** The package's operations object, reduced to the status its helpers update. */
  class RdsPackageOperations {
    var status: RdsStatus

    constructor (status: RdsStatus)
      ensures this.status == status
    {
      this.status := status;
    }

    /** `updateStatus`: copy the described instance's fields into the status, one at a time. */
    method UpdateStatus(inst: DbInstance)
      modifies this
      ensures status == StatusFrom(old(status), inst)
    {
      status := status.(instanceStatus := StringValue(inst.dbInstanceStatus));
      status := status.(instanceArn := StringValue(inst.dbInstanceArn));
      status := status.(endpoint := EndpointAddress(inst.endpoint));
      status := status.(port := EndpointPort(inst.endpoint));
      status := status.(availabilityZone := StringValue(inst.availabilityZone));
      if inst.masterUserSecret.Some? && inst.masterUserSecret.value.secretArn.Some? {
        status := status.(masterUserSecretArn := inst.masterUserSecret.value.secretArn.value);
      }
    }

    /** `updateStatusFromInstance`: the same update, and none at all for a nil instance. */
    method UpdateStatusFromInstance(inst: Option<DbInstance>)
      modifies this
      ensures inst.None? ==> status == old(status)
      ensures inst.Some? ==> status == StatusFrom(old(status), inst.value)
    {
      if inst.None? {
        return;
      }
      UpdateStatus(inst.value);
    }
  }

  // ---------------------------------------------------------------------
  // Creating an instance

  /** The fields of `rds.CreateDBInstanceInput` the package sets. */
  datatype CreateDbInstanceInput = CreateDbInstanceInput(
    dbInstanceIdentifier: Option<string>,
    dbInstanceClass: Option<string>,
    engine: Option<string>,
    engineVersion: Option<string>,
    allocatedStorage: Option<int>,
    masterUsername: Option<string>,
    dbName: Option<string>,
    manageMasterUserPassword: Option<bool>,
    storageType: Option<string>,
    storageEncrypted: Option<bool>,
    kmsKeyId: Option<string>,
    vpcSecurityGroupIds: seq<string>,
    dbSubnetGroupName: Option<string>,
    publiclyAccessible: Option<bool>,
    port: Option<int>,
    backupRetentionPeriod: Option<int>,
    preferredBackupWindow: Option<string>,
    preferredMaintenanceWindow: Option<string>,
    autoMinorVersionUpgrade: Option<bool>,
    multiAz: Option<bool>,
    enablePerformanceInsights: Option<bool>,
    monitoringInterval: Option<int>,
    deletionProtection: Option<bool>,
    masterUserSecretKmsKeyId: Option<string>)

  /** The create request `createInstance` sends for a resolved configuration. */
  function CreateInputFor(c: RdsConfig): CreateDbInstanceInput
  {
    CreateDbInstanceInput(
      StringPtr(c.instanceId), StringPtr(c.instanceClass), StringPtr(c.databaseEngine),
      StringPtr(c.engineVersion), Int32Ptr(c.allocatedStorage), StringPtr(c.masterUsername),
      StringPtr(c.databaseName), Passthrough(c.manageMasterUserPassword),
      OptionalStringPtr(c.storageType), Passthrough(c.storageEncrypted), OptionalStringPtr(c.kmsKeyId),
      c.vpcSecurityGroupIds, OptionalStringPtr(c.subnetGroupName), Passthrough(c.publiclyAccessible),
      Passthrough(c.port), Passthrough(c.backupRetentionPeriod), OptionalStringPtr(c.preferredBackupWindow),
      OptionalStringPtr(c.preferredMaintenanceWindow), Passthrough(c.autoMinorVersionUpgrade),
      Passthrough(c.multiAz), Passthrough(c.performanceInsightsEnabled),
      PassthroughPositiveInt32Ptr(c.monitoringInterval), Passthrough(c.deletionProtection),
      if c.masterUserSecretKmsKeyId != "" then StringPtr(c.masterUserSecretKmsKeyId) else None)
  }

  /**
   * The required fields are always sent; the secret's KMS key only when
   * one is configured, since AWS rejects an empty one; optional strings
   * are left out when empty, and a monitoring interval when not positive.
   */
  lemma CreateInputMeaning(c: RdsConfig)
    ensures var input := CreateInputFor(c);
      input.dbInstanceIdentifier == Some(c.instanceId) && input.dbInstanceClass == Some(c.instanceClass) &&
      input.engine == Some(c.databaseEngine) && input.engineVersion == Some(c.engineVersion) &&
      input.allocatedStorage == Some(c.allocatedStorage) && input.masterUsername == Some(c.masterUsername) &&
      input.dbName == Some(c.databaseName) &&
      (input.masterUserSecretKmsKeyId.None? <==> c.masterUserSecretKmsKeyId == "") &&
      (input.masterUserSecretKmsKeyId.Some? ==> input.masterUserSecretKmsKeyId.value == c.masterUserSecretKmsKeyId) &&
      (input.kmsKeyId.None? <==> c.kmsKeyId == "") &&
      (input.storageType.None? <==> c.storageType == "") &&
      (input.monitoringInterval.None? <==> c.monitoringInterval.None? || c.monitoringInterval.value <= 0)
  {
  }

  /**
   * After the defaults a create request always asks for a password kept
   * in Secrets Manager, for encrypted storage and for deletion protection
   * unless configured otherwise.
   */
  lemma CreateAfterDefaults(c: RdsConfig)
    requires Applied(c).0.None?
    ensures var input := CreateInputFor(Applied(c).1);
      input.manageMasterUserPassword == Some(true) &&
      input.storageEncrypted.Some? && input.deletionProtection.Some? && input.multiAz.Some? &&
      (c.storageEncrypted.None? ==> input.storageEncrypted == Some(true)) &&
      (c.deletionProtection.None? ==> input.deletionProtection == Some(true))
  {
    AppliedMeaning(c);
  }

  /** `createInstance`: the instance AWS reports, or the failure wrapped. */
  function CreateInstance(c: RdsConfig, create: CreateDbInstanceInput -> CallOutcome): (r: Result<Option<DbInstance>>)
    ensures create(CreateInputFor(c)).Answered? ==> r == Ok(create(CreateInputFor(c)).instance)
    ensures create(CreateInputFor(c)).CallFailed? ==>
      r == Err("failed to create RDS instance: " + create(CreateInputFor(c)).error.message)
  {
    match create(CreateInputFor(c))
    case CallFailed(e) => Err("failed to create RDS instance: " + e.message)
    case Answered(inst) => Ok(inst)
  }

  // ---------------------------------------------------------------------
  // Deleting an instance

  /** The fields of `rds.DeleteDBInstanceInput` the package sets. */
  datatype DeleteDbInstanceInput = DeleteDbInstanceInput(
    dbInstanceIdentifier: Option<string>,
    skipFinalSnapshot: Option<bool>,
    finalDbSnapshotIdentifier: Option<string>)

  /** The delete request: skip the final snapshot, or name the snapshot to take. */
  function DeleteInputFor(c: RdsConfig): (input: DeleteDbInstanceInput)
    ensures input.dbInstanceIdentifier == Some(c.instanceId) && input.skipFinalSnapshot.Some?
    ensures BoolValue(c.skipFinalSnapshot) ==> input.skipFinalSnapshot == Some(true) && input.finalDbSnapshotIdentifier.None?
    ensures !BoolValue(c.skipFinalSnapshot) ==>
      input.skipFinalSnapshot == Some(false) && input.finalDbSnapshotIdentifier == Some(c.finalDbSnapshotIdentifier)
  {
    var input := DeleteDbInstanceInput(StringPtr(c.instanceId), None, None);
    if BoolValue(c.skipFinalSnapshot) then input.(skipFinalSnapshot := BoolPtr(true))
    else input.(skipFinalSnapshot := BoolPtr(false), finalDbSnapshotIdentifier := StringPtr(c.finalDbSnapshotIdentifier))
  }

  /** Exactly one of "skip the snapshot" and "a snapshot name" is in every delete request. */
  lemma DeleteEitherSkipsOrNamesSnapshot(c: RdsConfig)
    ensures DeleteInputFor(c).skipFinalSnapshot.value <==> DeleteInputFor(c).finalDbSnapshotIdentifier.None?
  {
  }

  /** With the defaults, a deletion takes a final snapshot unless told to skip it. */
  lemma DefaultDeleteTakesSnapshot(c: RdsConfig)
    requires Applied(c).0.None? && c.skipFinalSnapshot.None?
    ensures DeleteInputFor(Applied(c).1).finalDbSnapshotIdentifier == Some(c.finalDbSnapshotIdentifier)
  {
    AppliedMeaning(c);
  }

  /**
   * `deleteInstance`: an instance that is missing or already being
   * deleted counts as deleted, with no instance and no error; any other
   * failure is wrapped.
   */
  function DeleteInstance(c: RdsConfig, delete: DeleteDbInstanceInput -> CallOutcome): (r: Result<Option<DbInstance>>)
    ensures delete(DeleteInputFor(c)).Answered? ==> r == Ok(delete(DeleteInputFor(c)).instance)
    ensures delete(DeleteInputFor(c)).CallFailed? ==>
      var e := delete(DeleteInputFor(c)).error;
      (IsInstanceNotFoundError(Some(e)) || IsInstanceAlreadyBeingDeletedError(Some(e)) ==> r == Ok(None)) &&
      (!IsInstanceNotFoundError(Some(e)) && !IsInstanceAlreadyBeingDeletedError(Some(e)) ==>
         r == Err("delete RDS instance call failed: " + e.message))
  {
    match delete(DeleteInputFor(c))
    case CallFailed(e) =>
      if IsInstanceNotFoundError(Some(e)) then Ok(None)
      else if IsInstanceAlreadyBeingDeletedError(Some(e)) then Ok(None)
      else Err("delete RDS instance call failed: " + e.message)
    case Answered(inst) => Ok(inst)
  }

  /** Deleting is safe to repeat: the answers AWS gives to a repeated deletion are successes. */
  lemma RepeatedDeleteSucceeds(c: RdsConfig, delete: DeleteDbInstanceInput -> CallOutcome, a: string, phrase: string, b: string)
    requires ToLower(phrase) == AlreadyBeingDeleted
    requires delete(DeleteInputFor(c)) == CallFailed(AwsError(InvalidDbInstanceStateFault, a + phrase + b))
    ensures DeleteInstance(c, delete) == Ok(None)
  {
    AlreadyBeingDeletedAnyCase(a, phrase, b, InvalidDbInstanceStateFault);
  }
}
