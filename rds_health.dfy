// The RDS package's health check of a Ready instance: the instance's
// reported state decides between healthy and degraded, with a reason per
// family of states.  The state names are the RDS instance states AWS
// documents.
module RdsHealth {
  import opened Wrappers
  import opened RdsConversion
  import opened RdsPackageConfig
  import opened RdsInstance
  import O = RdsOperations

  /** A health verdict, or the lookup failure the generic error classifier is given. */
  datatype Health =
    | Healthy(message: string)
    | Degraded(reason: string, message: string)
    | LookupFailed(error: string)

  /** States in which the database keeps accepting connections. */
  const OperationalStatuses: seq<string> :=
    ["available", "storage-optimization", "backing-up", "configuring-enhanced-monitoring",
     "configuring-iam-database-auth", "configuring-log-exports", "modifying"]
  const MaintenanceStatuses: seq<string> := ["maintenance", "rebooting"]
  const StoppedStatuses: seq<string> := ["stopped", "stopping", "starting"]
  const FailedStatuses: seq<string> :=
    ["failed", "inaccessible-encryption-credentials", "incompatible-network", "incompatible-option-group",
     "incompatible-parameters", "incompatible-restore", "insufficient-capacity"]

  /** The degraded reason of a state outside the operational ones. */
  function ReasonOf(st: string): string
  {
    if st == "storage-full" then "StorageFull"
    else if st in MaintenanceStatuses then "Maintenance"
    else if st in StoppedStatuses then "Stopped"
    else if st in FailedStatuses then "Failed"
    else "UnknownStatus"
  }

  /** The status switch of `checkHealth` for an instance that was found. */
  function HealthOf(id: string, st: string): (h: Health)
    ensures h.Healthy? <==> st in OperationalStatuses
    ensures !h.LookupFailed?
    ensures h.Healthy? ==> h.message == "Instance " + id + " is operational (status: " + st + ")"
    ensures h.Degraded? ==> h.reason == ReasonOf(st)
    ensures st == "storage-full" ==> h == Degraded("StorageFull", "Instance " + id + " storage capacity exhausted")
    ensures st in MaintenanceStatuses ==>
      h == Degraded("Maintenance", "Instance " + id + " undergoing maintenance (status: " + st + ")")
    ensures st in StoppedStatuses ==> h == Degraded("Stopped", "Instance " + id + " is not running (status: " + st + ")")
    ensures st in FailedStatuses ==> h == Degraded("Failed", "Instance " + id + " in error state: " + st)
    ensures h.Degraded? && h.reason == "UnknownStatus" ==> h.message == "Instance " + id + " in unknown state: " + st
  {
    if st in OperationalStatuses then Healthy("Instance " + id + " is operational (status: " + st + ")")
    else if st == "storage-full" then Degraded("StorageFull", "Instance " + id + " storage capacity exhausted")
    else if st in MaintenanceStatuses then
      Degraded("Maintenance", "Instance " + id + " undergoing maintenance (status: " + st + ")")
    else if st in StoppedStatuses then Degraded("Stopped", "Instance " + id + " is not running (status: " + st + ")")
    else if st in FailedStatuses then Degraded("Failed", "Instance " + id + " in error state: " + st)
    else Degraded("UnknownStatus", "Instance " + id + " in unknown state: " + st)
  }

  /**
   * `checkHealth`: a failed lookup goes to the error classifier, a
   * missing instance is degraded as deleted, and a found one is judged by
   * its state.
   */
  function CheckHealth(spec: RdsConfig, outcome: DescribeOutcome): (h: Health)
    ensures InstanceData(outcome).Err? <==> h.LookupFailed?
    ensures InstanceData(outcome) == Ok(None) ==>
      h == Degraded("InstanceDeleted", "RDS instance " + spec.instanceId + " not found in AWS")
    ensures InstanceData(outcome).Ok? && InstanceData(outcome).value.Some? ==>
      h == HealthOf(spec.instanceId, StringValue(InstanceData(outcome).value.value.dbInstanceStatus))
  {
    match InstanceData(outcome)
    case Err(e) => LookupFailed(e)
    case Ok(None) => Degraded("InstanceDeleted", "RDS instance " + spec.instanceId + " not found in AWS")
    case Ok(Some(inst)) => HealthOf(spec.instanceId, StringValue(inst.dbInstanceStatus))
  }

  /** An instance AWS no longer knows is reported as deleted, not as an API failure. */
  lemma NotFoundIsDeleted(spec: RdsConfig, message: string)
    ensures CheckHealth(spec, DescribeError(AwsError(DbInstanceNotFoundFault, message))).Degraded?
    ensures CheckHealth(spec, DescribeError(AwsError(DbInstanceNotFoundFault, message))).reason == "InstanceDeleted"
    ensures CheckHealth(spec, DescribeOk([])) == CheckHealth(spec, DescribeError(AwsError(DbInstanceNotFoundFault, message)))
  {
  }

  /** An instance whose state AWS leaves out is an unknown state, not a healthy one. */
  lemma MissingStateIsUnknown(id: string)
    ensures HealthOf(id, "") == Degraded("UnknownStatus", "Instance " + id + " in unknown state: ")
  {
    assert "" !in OperationalStatuses && "" !in MaintenanceStatuses && "" !in StoppedStatuses && "" !in FailedStatuses;
  }

  /**
   * The health check and the controller's deployment check agree: the
   * state that completes a deployment is healthy, and the states that
   * fail a deployment are degraded as failed.
   */
  lemma HealthAgreesWithDeployment(id: string, st: string)
    ensures st == "available" ==> HealthOf(id, st).Healthy?
    ensures st in O.DeploymentFailedStatuses ==> HealthOf(id, st).Degraded? && HealthOf(id, st).reason == "Failed"
    ensures st in O.DeploymentProgressStatuses && st != "creating" ==> HealthOf(id, st).Healthy?
  {
  }
}
