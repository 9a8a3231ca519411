// The IAM policy component's operations.  A policy is found by name,
// created when missing, and otherwise updated by publishing a new default
// version when its document changed; IAM keeps at most five versions, so
// the oldest non-default one is deleted first.  Deletion removes every
// non-default version and then the policy.  Every IAM answer is an input,
// and every call the operations make is recorded in order.
module IamPolicy {
  import opened Wrappers
  import opened Json
  import opened OperationResults
  import opened IamPolicyConfig

  /** IAM keeps at most this many versions of a managed policy. */
  const MaxNumberOfPolicyVersions := 5

  /** The fields of a policy IAM reports. */
  datatype Policy = Policy(arn: string, policyId: string, policyName: string, defaultVersionId: string)

  /** A listed policy version; the creation date is a timestamp in any fixed unit. */
  datatype PolicyVersion = PolicyVersion(versionId: string, isDefault: bool, createDate: int)

  /** `CreatePolicyInput`: the description and the tags are set only when non-empty. */
  datatype CreatePolicyInput = CreatePolicyInput(
    policyName: string,
    policyDocument: string,
    path: string,
    description: Option<string>,
    tags: Option<map<string, string>>)

  /** The IAM calls the operations make. */
  datatype PolicyCall =
    | ListPolicies(pathPrefix: string)
    | GetPolicy(arn: string)
    | GetPolicyVersion(arn: string, versionId: string)
    | ListPolicyVersions(arn: string)
    | DeletePolicyVersion(arn: string, versionId: string)
    | CreatePolicyVersion(arn: string, document: string, setAsDefault: bool)
    | CreatePolicy(input: CreatePolicyInput)
    | DeletePolicy(arn: string)

  /** The answer to a read: found, a `NoSuchEntity` error, or any other error. */
  datatype Lookup<T> = Found(value: T) | Absent(error: string) | LookupFailed(error: string)

  /** The answer to a delete: done, a `NoSuchEntity` error, or any other error. */
  datatype Removal = Removed | Gone(error: string) | RemovalFailed(error: string)

  /** What IAM answers to each call, by the call's arguments, and the JSON decoder for documents. */
  datatype IamEnv = IamEnv(
    listPolicies: string -> Result<seq<Policy>>,
    getPolicy: string -> Lookup<Policy>,
    getPolicyVersion: (string, string) -> Result<string>,
    listPolicyVersions: string -> Lookup<seq<PolicyVersion>>,
    deletePolicyVersion: (string, string) -> Removal,
    createPolicyVersion: (string, string) -> Result<string>,
    createPolicy: CreatePolicyInput -> Result<Policy>,
    deletePolicy: string -> Removal,
    parse: string -> Option<Json>)

  // ---------------------------------------------------------------------
  // Looking policies up

  /** The index of the first policy with the given name. */
  function FirstNamed(policies: seq<Policy>, name: string): (r: Option<nat>)
    ensures r.Some? ==> r.value < |policies| && policies[r.value].policyName == name
    ensures r.Some? ==> forall j :: 0 <= j < r.value ==> policies[j].policyName != name
    ensures r.None? <==> forall j :: 0 <= j < |policies| ==> policies[j].policyName != name
  {
    if policies == [] then None
    else if policies[0].policyName == name then Some(0)
    else match FirstNamed(policies[1..], name)
      case None => None
      case Some(i) => Some(i + 1)
  }

  function PolicyNamed(policies: seq<Policy>, name: string): Option<Policy>
  {
    match FirstNamed(policies, name)
    case None => None
    case Some(i) => Some(policies[i])
  }

  /** The name search of `getPolicyByName`: the first listed policy with an equal name. */
  method FindPolicyByName(policies: seq<Policy>, name: string) returns (r: Option<Policy>)
    ensures r == PolicyNamed(policies, name)
  {
    var i := 0;
    while i < |policies|
      invariant 0 <= i <= |policies|
      invariant forall j :: 0 <= j < i ==> policies[j].policyName != name
    {
      if policies[i].policyName == name {
        return Some(policies[i]);
      }
      i := i + 1;
    }
    return None;
  }

  /** `getPolicyByName`: the local policies under the path, searched by name. */
  function PolicyByName(name: string, path: string, env: IamEnv): (r: Result<Option<Policy>>)
    ensures r.Ok? <==> env.listPolicies(path).Ok?
    ensures r.Ok? && r.value.Some? ==> r.value.value.policyName == name && r.value.value in env.listPolicies(path).value
    ensures r.Ok? && r.value.None? ==> forall p :: p in env.listPolicies(path).value ==> p.policyName != name
  {
    match env.listPolicies(path)
    case Err(e) => Err("failed to list policies: " + e)
    case Ok(policies) => Ok(PolicyNamed(policies, name))
  }

  method GetPolicyByName(name: string, path: string, env: IamEnv) returns (r: Result<Option<Policy>>)
    ensures r == PolicyByName(name, path, env)
  {
    var listed := env.listPolicies(path);
    if listed.Err? {
      return Err("failed to list policies: " + listed.error);
    }
    var found := FindPolicyByName(listed.value, name);
    return Ok(found);
  }

  /** `getPolicyByArn`: a policy that does not exist is no policy, not an error. */
  function PolicyByArn(arn: string, env: IamEnv): (r: Result<Option<Policy>>)
    ensures r == Ok(None) <==> env.getPolicy(arn).Absent?
    ensures r.Err? <==> env.getPolicy(arn).LookupFailed?
  {
    match env.getPolicy(arn)
    case Found(p) => Ok(Some(p))
    case Absent(_) => Ok(None)
    case LookupFailed(e) => Err("failed to get policy: " + e)
  }

  // ---------------------------------------------------------------------
  // Pruning the oldest version

  /**
   * Version `i` is the one to prune: not the default, created no later than
   * any other non-default version, and strictly later than none before it
   * (the first of equally old versions wins).
   */
  predicate IsOldest(vs: seq<PolicyVersion>, i: nat)
  {
    i < |vs| && !vs[i].isDefault &&
    (forall j :: 0 <= j < |vs| && !vs[j].isDefault ==> vs[i].createDate <= vs[j].createDate) &&
    (forall j :: 0 <= j < i && !vs[j].isDefault ==> vs[i].createDate < vs[j].createDate)
  }

  /** The candidate after scanning `vs` from the front, replacing it only by a strictly older version. */
  function OldestIn(vs: seq<PolicyVersion>): (r: Option<nat>)
    ensures r.Some? ==> IsOldest(vs, r.value)
    ensures r.None? <==> forall j :: 0 <= j < |vs| ==> vs[j].isDefault
    decreases |vs|
  {
    if |vs| == 0 then None
    else
      var p := OldestIn(vs[..|vs| - 1]);
      var v := vs[|vs| - 1];
      if v.isDefault then p
      else if p.None? || v.createDate < vs[p.value].createDate then Some(|vs| - 1)
      else p
  }

  /** The search loop of `deleteOldestPolicyVersion`. */
  method OldestVersion(vs: seq<PolicyVersion>) returns (oldest: Option<nat>)
    ensures oldest == OldestIn(vs)
  {
    oldest := None;
    var i := 0;
    while i < |vs|
      invariant 0 <= i <= |vs|
      invariant oldest == OldestIn(vs[..i])
    {
      assert vs[..i + 1][..i] == vs[..i];
      var v := vs[i];
      if !v.isDefault && (oldest.None? || v.createDate < vs[oldest.value].createDate) {
        oldest := Some(i);
      }
      i := i + 1;
    }
    assert vs[..i] == vs;
  }

  /** The outcome of pruning: an error, and the calls made. */
  datatype Pruned = Pruned(err: Option<string>, calls: seq<PolicyCall>)

  /** `deleteOldestPolicyVersion`: at five versions or more, delete the oldest non-default one. */
  function Prune(arn: string, env: IamEnv): (p: Pruned)
  {
    match env.listPolicyVersions(arn)
    case Found(vs) =>
      if |vs| < MaxNumberOfPolicyVersions then Pruned(None, [ListPolicyVersions(arn)])
      else
        (match OldestIn(vs)
         case None => Pruned(None, [ListPolicyVersions(arn)])
         case Some(i) =>
           var id := vs[i].versionId;
           var calls := [ListPolicyVersions(arn), DeletePolicyVersion(arn, id)];
           match env.deletePolicyVersion(arn, id)
           case Removed => Pruned(None, calls)
           case Gone(e) => Pruned(Some("failed to delete old policy version " + id + ": " + e), calls)
           case RemovalFailed(e) => Pruned(Some("failed to delete old policy version " + id + ": " + e), calls))
    case Absent(e) => Pruned(Some("failed to list policy versions: " + e), [ListPolicyVersions(arn)])
    case LookupFailed(e) => Pruned(Some("failed to list policy versions: " + e), [ListPolicyVersions(arn)])
  }

  method PruneOldestVersion(arn: string, env: IamEnv) returns (p: Pruned)
    ensures p == Prune(arn, env)
  {
    var listed := env.listPolicyVersions(arn);
    if !listed.Found? {
      return Pruned(Some("failed to list policy versions: " + listed.error), [ListPolicyVersions(arn)]);
    }
    var vs := listed.value;
    if |vs| < MaxNumberOfPolicyVersions {
      return Pruned(None, [ListPolicyVersions(arn)]);
    }
    var oldest := OldestVersion(vs);
    if oldest.None? {
      return Pruned(None, [ListPolicyVersions(arn)]);
    }
    var id := vs[oldest.value].versionId;
    var calls := [ListPolicyVersions(arn), DeletePolicyVersion(arn, id)];
    var removal := env.deletePolicyVersion(arn, id);
    if !removal.Removed? {
      return Pruned(Some("failed to delete old policy version " + id + ": " + removal.error), calls);
    }
    return Pruned(None, calls);
  }

  /**
   * Pruning deletes at most one version, and exactly when there are five or
   * more and one is not the default; the deleted one is the oldest
   * non-default version, so the default version is never deleted.
   */
  lemma PruneDeletesOldest(arn: string, env: IamEnv, id: string)
    ensures var p := Prune(arn, env);
      DeletePolicyVersion(arn, id) in p.calls <==>
        env.listPolicyVersions(arn).Found? && |env.listPolicyVersions(arn).value| >= MaxNumberOfPolicyVersions &&
        OldestIn(env.listPolicyVersions(arn).value).Some? &&
        id == env.listPolicyVersions(arn).value[OldestIn(env.listPolicyVersions(arn).value).value].versionId
    ensures forall c :: c in Prune(arn, env).calls ==> c == ListPolicyVersions(arn) || c.DeletePolicyVersion?
    ensures |Prune(arn, env).calls| <= 2
  {
  }

  /** Below the limit nothing is deleted and pruning succeeds. */
  lemma PruneBelowLimit(arn: string, env: IamEnv)
    requires env.listPolicyVersions(arn).Found? && |env.listPolicyVersions(arn).value| < MaxNumberOfPolicyVersions
    ensures Prune(arn, env) == Pruned(None, [ListPolicyVersions(arn)])
  {
  }

  /**
   * With at most five versions of which one is not the default, a pruning
   * that succeeds leaves room for a new version: fewer than five remain.
   */
  lemma PruneMakesRoom(arn: string, env: IamEnv)
    requires env.listPolicyVersions(arn).Found?
    requires var vs := env.listPolicyVersions(arn).value;
      |vs| <= MaxNumberOfPolicyVersions && exists j :: 0 <= j < |vs| && !vs[j].isDefault
    requires Prune(arn, env).err.None?
    ensures var vs := env.listPolicyVersions(arn).value;
      |vs| - (|Prune(arn, env).calls| - 1) < MaxNumberOfPolicyVersions
  {
  }

  // ---------------------------------------------------------------------
  // Publishing a new version

  /** The current default version and its document. */
  datatype CurrentVersion = CurrentVersion(document: string, versionId: string)

  /** `getCurrentPolicyDocument`: the policy's default version, then that version's document. */
  function CurrentDocument(arn: string, env: IamEnv): (r: Result<CurrentVersion>)
    ensures r.Ok? ==> env.getPolicy(arn).Found? && r.value.versionId == env.getPolicy(arn).value.defaultVersionId
  {
    match PolicyByArn(arn, env)
    case Err(e) => Err(e)
    case Ok(None) => Err("policy not found")
    case Ok(Some(p)) =>
      match env.getPolicyVersion(arn, p.defaultVersionId)
      case Err(e) => Err("failed to get policy version: " + e)
      case Ok(document) => Ok(CurrentVersion(document, p.defaultVersionId))
  }

  function CurrentDocumentCalls(arn: string, env: IamEnv): seq<PolicyCall>
  {
    match env.getPolicy(arn)
    case Found(p) => [GetPolicy(arn), GetPolicyVersion(arn, p.defaultVersionId)]
    case _ => [GetPolicy(arn)]
  }

  /** The outcome of `createPolicyVersion`: the version now in effect, and the calls made. */
  datatype Versioned = Versioned(versionId: Result<string>, calls: seq<PolicyCall>)

  /** Whether the desired document differs from the current one; an undecodable document always differs. */
  function Changed(current: CurrentVersion, desired: JsonText, env: IamEnv): bool
  {
    !JsonEquals(JsonText(current.document, env.parse(current.document)), desired)
  }

  /** `createPolicyVersion`: keep an equal document, otherwise prune and publish the new one as the default. */
  function NewVersion(arn: string, desired: JsonText, env: IamEnv): (v: Versioned)
  {
    var c0 := CurrentDocumentCalls(arn, env);
    match CurrentDocument(arn, env)
    case Err(e) => Versioned(Err("failed to get current policy document: " + e), c0)
    case Ok(current) =>
      if !Changed(current, desired, env) then Versioned(Ok(current.versionId), c0)
      else
        var p := Prune(arn, env);
        if p.err.Some? then Versioned(Err("failed to cleanup old versions: " + p.err.value), c0 + p.calls)
        else
          var c2 := c0 + p.calls + [CreatePolicyVersion(arn, desired.text, true)];
          match env.createPolicyVersion(arn, desired.text)
          case Err(e) => Versioned(Err("failed to create policy version: " + e), c2)
          case Ok(id) => Versioned(Ok(id), c2)
  }

  method CreateNewVersion(arn: string, desired: JsonText, env: IamEnv) returns (v: Versioned)
    ensures v == NewVersion(arn, desired, env)
  {
    var c0 := CurrentDocumentCalls(arn, env);
    var current := CurrentDocument(arn, env);
    if current.Err? {
      return Versioned(Err("failed to get current policy document: " + current.error), c0);
    }
    if !Changed(current.value, desired, env) {
      return Versioned(Ok(current.value.versionId), c0);
    }
    var p := PruneOldestVersion(arn, env);
    if p.err.Some? {
      return Versioned(Err("failed to cleanup old versions: " + p.err.value), c0 + p.calls);
    }
    var calls := c0 + p.calls + [CreatePolicyVersion(arn, desired.text, true)];
    var created := env.createPolicyVersion(arn, desired.text);
    if created.Err? {
      return Versioned(Err("failed to create policy version: " + created.error), calls);
    }
    return Versioned(Ok(created.value), calls);
  }

  /**
   * An unchanged document keeps the current default version: no version is
   * deleted or created, and the version in effect is the policy's default.
   */
  lemma UnchangedDocumentKept(arn: string, desired: JsonText, env: IamEnv)
    requires CurrentDocument(arn, env).Ok? && !Changed(CurrentDocument(arn, env).value, desired, env)
    ensures NewVersion(arn, desired, env) ==
      Versioned(Ok(env.getPolicy(arn).value.defaultVersionId),
                [GetPolicy(arn), GetPolicyVersion(arn, env.getPolicy(arn).value.defaultVersionId)])
  {
  }

  /** A desired document that decodes to the current one is unchanged, however it is spelled. */
  lemma RespellingIsUnchanged(arn: string, text: string, env: IamEnv)
    requires CurrentDocument(arn, env).Ok?
    requires env.parse(CurrentDocument(arn, env).value.document).Some?
    ensures !Changed(CurrentDocument(arn, env).value, JsonText(text, env.parse(CurrentDocument(arn, env).value.document)), env)
  {
  }

  /**
   * A version is created only for a changed document, as the last call,
   * after any pruning, with the desired document as the new default; a
   * successful creation's id is the version in effect.
   */
  lemma ChangedDocumentPublished(arn: string, desired: JsonText, env: IamEnv, document: string, asDefault: bool)
    ensures var v := NewVersion(arn, desired, env);
      CreatePolicyVersion(arn, document, asDefault) in v.calls ==>
        CurrentDocument(arn, env).Ok? && Changed(CurrentDocument(arn, env).value, desired, env) &&
        Prune(arn, env).err.None? && document == desired.text && asDefault &&
        v.calls == CurrentDocumentCalls(arn, env) + Prune(arn, env).calls + [CreatePolicyVersion(arn, desired.text, true)] &&
        (v.versionId.Ok? ==> v.versionId == env.createPolicyVersion(arn, desired.text))
    ensures var v := NewVersion(arn, desired, env);
      v.versionId.Ok? && CurrentDocument(arn, env).Ok? && Changed(CurrentDocument(arn, env).value, desired, env) ==>
        CreatePolicyVersion(arn, desired.text, true) in v.calls
  {
    var v := NewVersion(arn, desired, env);
    if CreatePolicyVersion(arn, document, asDefault) in v.calls {
      var c0 := CurrentDocumentCalls(arn, env);
      assert CreatePolicyVersion(arn, document, asDefault) !in c0;
      if CurrentDocument(arn, env).Ok? && Changed(CurrentDocument(arn, env).value, desired, env) {
        var p := Prune(arn, env);
        PruneDeletesOldest(arn, env, "");
        assert CreatePolicyVersion(arn, document, asDefault) !in p.calls;
        if p.err.None? {
          var c2 := c0 + p.calls + [CreatePolicyVersion(arn, desired.text, true)];
          assert v.calls == c2;
          assert CreatePolicyVersion(arn, document, asDefault) in c0 + p.calls || CreatePolicyVersion(arn, document, asDefault) == CreatePolicyVersion(arn, desired.text, true);
        }
      }
    }
  }

  // ---------------------------------------------------------------------
  // Deleting every version

  /** `deletePolicy`: a policy that is already gone counts as deleted. */
  function DeletePolicyError(arn: string, env: IamEnv): (err: Option<string>)
    ensures err.None? <==> !env.deletePolicy(arn).RemovalFailed?
  {
    match env.deletePolicy(arn)
    case Removed => None
    case Gone(_) => None
    case RemovalFailed(e) => Some("failed to delete policy: " + e)
  }

  /** The outcome of deleting versions: an error, how many were deleted, and the calls made. */
  datatype VersionDeletion = VersionDeletion(err: Option<string>, deletedCount: nat, calls: seq<PolicyCall>)

  /**
   * The loop of `deletePolicyAllVersions` over `vs`: skip default versions,
   * tolerate a version that is already gone, stop at any other error.
   */
  function DeleteEach(arn: string, vs: seq<PolicyVersion>, env: IamEnv): (d: VersionDeletion)
    ensures d.deletedCount <= |d.calls|
    ensures forall c :: c in d.calls ==>
      exists j :: 0 <= j < |vs| && !vs[j].isDefault && c == DeletePolicyVersion(arn, vs[j].versionId)
    ensures d.err.None? <==>
      forall j :: 0 <= j < |vs| && !vs[j].isDefault ==> !env.deletePolicyVersion(arn, vs[j].versionId).RemovalFailed?
    decreases |vs|
  {
    if |vs| == 0 then VersionDeletion(None, 0, [])
    else
      var p := DeleteEach(arn, vs[..|vs| - 1], env);
      var v := vs[|vs| - 1];
      if p.err.Some? || v.isDefault then p
      else
        var calls := p.calls + [DeletePolicyVersion(arn, v.versionId)];
        match env.deletePolicyVersion(arn, v.versionId)
        case Removed => VersionDeletion(None, p.deletedCount + 1, calls)
        case Gone(_) => VersionDeletion(None, p.deletedCount, calls)
        case RemovalFailed(e) => VersionDeletion(Some("failed to delete policy version " + v.versionId + ": " + e), p.deletedCount, calls)
  }

  /** `deletePolicyAllVersions`: listing a policy that is already gone is success. */
  function DeleteAllVersions(arn: string, env: IamEnv): (d: VersionDeletion)
  {
    match env.listPolicyVersions(arn)
    case Found(vs) =>
      var e := DeleteEach(arn, vs, env);
      e.(calls := [ListPolicyVersions(arn)] + e.calls)
    case Absent(_) => VersionDeletion(None, 0, [ListPolicyVersions(arn)])
    case LookupFailed(e) => VersionDeletion(Some("failed to list policy versions: " + e), 0, [ListPolicyVersions(arn)])
  }

  /** Once an error stops the loop, later versions change nothing. */
  lemma {:induction false} ErrorStops(arn: string, vs: seq<PolicyVersion>, k: nat, env: IamEnv)
    requires k <= |vs| && DeleteEach(arn, vs[..k], env).err.Some?
    ensures DeleteEach(arn, vs, env) == DeleteEach(arn, vs[..k], env)
    decreases |vs| - k
  {
    if k == |vs| {
      assert vs[..k] == vs;
    } else {
      var init := vs[..|vs| - 1];
      assert init[..k] == vs[..k];
      ErrorStops(arn, init, k, env);
    }
  }

  method DeletePolicyAllVersions(arn: string, env: IamEnv) returns (d: VersionDeletion)
    ensures d == DeleteAllVersions(arn, env)
  {
    var listed := env.listPolicyVersions(arn);
    if listed.Absent? {
      return VersionDeletion(None, 0, [ListPolicyVersions(arn)]);
    }
    if listed.LookupFailed? {
      return VersionDeletion(Some("failed to list policy versions: " + listed.error), 0, [ListPolicyVersions(arn)]);
    }
    var vs := listed.value;
    var deletedCount := 0;
    var calls: seq<PolicyCall> := [];
    var i := 0;
    while i < |vs|
      invariant 0 <= i <= |vs|
      invariant DeleteEach(arn, vs[..i], env) == VersionDeletion(None, deletedCount, calls)
    {
      assert vs[..i + 1][..i] == vs[..i];
      var v := vs[i];
      if v.isDefault {
        i := i + 1;
        continue;
      }
      calls := calls + [DeletePolicyVersion(arn, v.versionId)];
      var removal := env.deletePolicyVersion(arn, v.versionId);
      if removal.RemovalFailed? {
        ErrorStops(arn, vs, i + 1, env);
        return VersionDeletion(Some("failed to delete policy version " + v.versionId + ": " + removal.error),
                               deletedCount, [ListPolicyVersions(arn)] + calls);
      }
      if removal.Removed? {
        deletedCount := deletedCount + 1;
      }
      i := i + 1;
    }
    assert vs[..i] == vs;
    return VersionDeletion(None, deletedCount, [ListPolicyVersions(arn)] + calls);
  }

  /** The non-default versions, in order. */
  function NonDefault(vs: seq<PolicyVersion>): (r: seq<PolicyVersion>)
    ensures forall v :: v in r <==> v in vs && !v.isDefault
    decreases |vs|
  {
    if |vs| == 0 then []
    else NonDefault(vs[..|vs| - 1]) + (if vs[|vs| - 1].isDefault then [] else [vs[|vs| - 1]])
  }

  function DeleteCalls(arn: string, vs: seq<PolicyVersion>): (c: seq<PolicyCall>)
    ensures |c| == |vs| && forall i :: 0 <= i < |vs| ==> c[i] == DeletePolicyVersion(arn, vs[i].versionId)
  {
    seq(|vs|, i requires 0 <= i < |vs| => DeletePolicyVersion(arn, vs[i].versionId))
  }

  /** Without an error, every non-default version had its deletion attempted, in list order. */
  lemma {:induction false} EveryNonDefaultAttempted(arn: string, vs: seq<PolicyVersion>, env: IamEnv)
    requires DeleteEach(arn, vs, env).err.None?
    ensures DeleteEach(arn, vs, env).calls == DeleteCalls(arn, NonDefault(vs))
    decreases |vs|
  {
    if |vs| > 0 {
      var init := vs[..|vs| - 1];
      EveryNonDefaultAttempted(arn, init, env);
      var v := vs[|vs| - 1];
      if !v.isDefault {
        assert DeleteCalls(arn, NonDefault(vs)) == DeleteCalls(arn, NonDefault(init)) + [DeletePolicyVersion(arn, v.versionId)];
      }
    }
  }

  /** An error comes from the last deletion attempted, which failed other than by `NoSuchEntity`. */
  lemma {:induction false} StopsAtFailure(arn: string, vs: seq<PolicyVersion>, env: IamEnv)
    requires DeleteEach(arn, vs, env).err.Some?
    ensures var d := DeleteEach(arn, vs, env);
      |d.calls| > 0 && d.calls[|d.calls| - 1].DeletePolicyVersion? &&
      env.deletePolicyVersion(arn, d.calls[|d.calls| - 1].versionId).RemovalFailed? &&
      d.err.value == "failed to delete policy version " + d.calls[|d.calls| - 1].versionId + ": " +
                     env.deletePolicyVersion(arn, d.calls[|d.calls| - 1].versionId).error
    decreases |vs|
  {
    var p := DeleteEach(arn, vs[..|vs| - 1], env);
    if p.err.Some? {
      StopsAtFailure(arn, vs[..|vs| - 1], env);
    }
  }

  // ---------------------------------------------------------------------
  // The operations

  /** The request `createPolicy` sends. */
  function PolicyInput(config: PolicyConfig): (input: CreatePolicyInput)
    ensures input.description.Some? <==> config.description != ""
    ensures input.tags.Some? <==> |config.tags| > 0
    ensures input.description.Some? ==> input.description.value == config.description
    ensures input.tags.Some? ==> input.tags.value == config.tags
    ensures input.policyName == config.policyName && input.policyDocument == config.policyDocument.text
    ensures input.path == config.path
  {
    CreatePolicyInput(config.policyName, config.policyDocument.text, config.path,
                      if config.description != "" then Some(config.description) else None,
                      if |config.tags| > 0 then Some(config.tags) else None)
  }

  /** The status after recording a policy's identity. */
  function WithPolicy(s: IamPolicyStatus, p: Policy): IamPolicyStatus
  {
    s.(policyArn := p.arn, policyId := p.policyId, policyName := p.policyName)
  }

  /** `Deploy`: the new status, the action result, and the calls made. */
  function Deployed(config: PolicyConfig, s: IamPolicyStatus, env: IamEnv): (IamPolicyStatus, ActionResult, seq<PolicyCall>)
  {
    var c0 := [ListPolicies(config.path)];
    match PolicyByName(config.policyName, config.path, env)
    case Err(e) => (s, ActionError("failed to check if policy exists: " + e), c0)
    case Ok(None) =>
      var input := PolicyInput(config);
      (match env.createPolicy(input)
       case Err(e) => (s, ActionError("failed to create policy: " + e), c0 + [CreatePolicy(input)])
       case Ok(p) => (WithPolicy(s, p).(currentVersionId := p.defaultVersionId), ActionSuccess(""), c0 + [CreatePolicy(input)]))
    case Ok(Some(p)) =>
      var s1 := WithPolicy(s, p);
      var v := NewVersion(p.arn, config.policyDocument, env);
      match v.versionId
      case Err(e) => (s1, ActionError(e), c0 + v.calls)
      case Ok(id) => (s1.(currentVersionId := id), ActionSuccess(""), c0 + v.calls)
  }

  /** `CheckDeployment`: the new status, the check result, and the calls made. */
  function DeploymentChecked(s: IamPolicyStatus, env: IamEnv): (IamPolicyStatus, CheckResult, seq<PolicyCall>)
  {
    if s.policyArn == "" then (s, CheckInProgress(""), [])
    else
      match PolicyByArn(s.policyArn, env)
      case Err(e) => (s, CheckFailed("failed to check policy status: " + e), [GetPolicy(s.policyArn)])
      case Ok(None) => (s, CheckError("policy not found at ARN " + s.policyArn), [GetPolicy(s.policyArn)])
      case Ok(Some(p)) => (WithPolicy(s, p), CheckComplete(""), [GetPolicy(s.policyArn)])
  }

  /** `Delete`: the action result and the calls made; the status is not changed. */
  function DeletionStarted(s: IamPolicyStatus, env: IamEnv): (ActionResult, seq<PolicyCall>)
  {
    var arn := s.policyArn;
    if arn == "" then (ActionSuccess(""), [])
    else
      match PolicyByArn(arn, env)
      case Err(e) => (ActionError("failed to check policy existence: " + e), [GetPolicy(arn)])
      case Ok(None) => (ActionSuccess(""), [GetPolicy(arn)])
      case Ok(Some(_)) =>
        var d := DeleteAllVersions(arn, env);
        if d.err.Some? then (ActionError("failed to delete policy versions: " + d.err.value), [GetPolicy(arn)] + d.calls)
        else
          var calls := [GetPolicy(arn)] + d.calls + [DeletePolicy(arn)];
          match DeletePolicyError(arn, env)
          case Some(e) => (ActionError("failed to delete policy: " + e), calls)
          case None => (ActionSuccess("Deleting policy " + s.policyName), calls)
  }

  /** `CheckDeletion`: the check result and the calls made. */
  function DeletionChecked(s: IamPolicyStatus, env: IamEnv): (CheckResult, seq<PolicyCall>)
  {
    var arn := s.policyArn;
    if arn == "" then (CheckComplete(""), [])
    else
      match PolicyByArn(arn, env)
      case Err(e) => (CheckFailed("failed to check policy deletion status: " + e), [GetPolicy(arn)])
      case Ok(Some(_)) => (CheckInProgress("Waiting for policy " + s.policyName + " deletion"), [GetPolicy(arn)])
      case Ok(None) => (CheckComplete("Policy " + s.policyName + " deleted"), [GetPolicy(arn)])
  }

  /**
   * `Deploy` creates a policy exactly when none has the configured name; an
   * existing policy's identity is recorded in the status before it is
   * versioned, and no policy is created then.
   */
  lemma DeployCreatesOnlyWhenMissing(config: PolicyConfig, s: IamPolicyStatus, env: IamEnv)
    requires PolicyByName(config.policyName, config.path, env).Ok?
    ensures var (s1, _, calls) := Deployed(config, s, env);
      (CreatePolicy(PolicyInput(config)) in calls <==> PolicyByName(config.policyName, config.path, env).value.None?) &&
      (PolicyByName(config.policyName, config.path, env).value.Some? ==>
        var p := PolicyByName(config.policyName, config.path, env).value.value;
        s1.policyArn == p.arn && s1.policyId == p.policyId && s1.policyName == p.policyName &&
        calls == [ListPolicies(config.path)] + NewVersion(p.arn, config.policyDocument, env).calls)
  {
    var found := PolicyByName(config.policyName, config.path, env).value;
    if found.Some? {
      var v := NewVersion(found.value.arn, config.policyDocument, env);
      NoCreatePolicyInVersioning(found.value.arn, config.policyDocument, env, PolicyInput(config));
    }
  }

  /** Versioning a policy never creates one. */
  lemma NoCreatePolicyInVersioning(arn: string, desired: JsonText, env: IamEnv, input: CreatePolicyInput)
    ensures CreatePolicy(input) !in NewVersion(arn, desired, env).calls
    ensures CreatePolicy(input) !in [ListPolicies(input.path)] + NewVersion(arn, desired, env).calls
  {
    PruneDeletesOldest(arn, env, "");
  }

  /** A successful deployment records the version in effect: the new policy's default or the published one. */
  lemma DeployRecordsVersion(config: PolicyConfig, s: IamPolicyStatus, env: IamEnv)
    requires Deployed(config, s, env).1.ActionSuccess?
    ensures var s1 := Deployed(config, s, env).0;
      PolicyByName(config.policyName, config.path, env).Ok? &&
      (PolicyByName(config.policyName, config.path, env).value.None? ==>
         env.createPolicy(PolicyInput(config)).Ok? && s1.currentVersionId == env.createPolicy(PolicyInput(config)).value.defaultVersionId) &&
      (PolicyByName(config.policyName, config.path, env).value.Some? ==>
         s1.currentVersionId == NewVersion(PolicyByName(config.policyName, config.path, env).value.value.arn, config.policyDocument, env).versionId.value)
  {
  }

  /** Without a policy ARN the deployment has not started: in progress, with no IAM call. */
  lemma CheckDeploymentWithoutArn(s: IamPolicyStatus, env: IamEnv)
    requires s.policyArn == ""
    ensures DeploymentChecked(s, env) == (s, CheckInProgress(""), [])
  {
  }

  /** Without a policy ARN there is nothing to delete, and no IAM call is made. */
  lemma DeleteWithoutArn(s: IamPolicyStatus, env: IamEnv)
    requires s.policyArn == ""
    ensures DeletionStarted(s, env) == (ActionSuccess(""), [])
  {
  }

  /** A policy that is already gone counts as deleted, after only the lookup. */
  lemma DeleteAlreadyGone(s: IamPolicyStatus, env: IamEnv)
    requires s.policyArn != "" && env.getPolicy(s.policyArn).Absent?
    ensures DeletionStarted(s, env) == (ActionSuccess(""), [GetPolicy(s.policyArn)])
  {
  }

  /**
   * The policy is deleted only as the last call, after the deletion of
   * every non-default listed version was attempted; a default version is
   * never deleted.
   */
  lemma VersionsBeforePolicy(s: IamPolicyStatus, env: IamEnv)
    requires s.policyArn != ""
    ensures var (_, calls) := DeletionStarted(s, env);
      DeletePolicy(s.policyArn) in calls ==>
        calls[|calls| - 1] == DeletePolicy(s.policyArn) && DeletePolicy(s.policyArn) !in calls[..|calls| - 1] &&
        (env.listPolicyVersions(s.policyArn).Found? ==>
           forall v :: v in env.listPolicyVersions(s.policyArn).value && !v.isDefault ==>
             DeletePolicyVersion(s.policyArn, v.versionId) in calls[..|calls| - 1])
    ensures var (_, calls) := DeletionStarted(s, env);
      forall id :: DeletePolicyVersion(s.policyArn, id) in calls ==>
        env.listPolicyVersions(s.policyArn).Found? &&
        exists v :: v in env.listPolicyVersions(s.policyArn).value && !v.isDefault && v.versionId == id
  {
    var arn := s.policyArn;
    if env.getPolicy(arn).Found? {
      var d := DeleteAllVersions(arn, env);
      AllVersionsCalls(arn, env);
      if d.err.None? {
        var prefix := [GetPolicy(arn)] + d.calls;
        assert (prefix + [DeletePolicy(arn)])[..|prefix|] == prefix;
      }
    }
  }

  /**
   * Deleting all versions never deletes the policy, attempts only listed
   * non-default versions, and without an error has attempted all of them.
   */
  lemma AllVersionsCalls(arn: string, env: IamEnv)
    ensures var d := DeleteAllVersions(arn, env);
      DeletePolicy(arn) !in d.calls &&
      (forall id :: DeletePolicyVersion(arn, id) in d.calls ==>
        env.listPolicyVersions(arn).Found? &&
        exists v :: v in env.listPolicyVersions(arn).value && !v.isDefault && v.versionId == id) &&
      (d.err.None? && env.listPolicyVersions(arn).Found? ==>
        forall v :: v in env.listPolicyVersions(arn).value && !v.isDefault ==> DeletePolicyVersion(arn, v.versionId) in d.calls)
  {
    match env.listPolicyVersions(arn)
    case Found(vs) =>
      var e := DeleteEach(arn, vs, env);
      if e.err.None? {
        EveryNonDefaultAttempted(arn, vs, env);
        forall v | v in vs && !v.isDefault
          ensures DeletePolicyVersion(arn, v.versionId) in e.calls
        {
          var nd := NonDefault(vs);
          var k :| 0 <= k < |nd| && nd[k] == v;
          assert e.calls[k] == DeletePolicyVersion(arn, v.versionId);
        }
      }
      forall id | DeletePolicyVersion(arn, id) in e.calls
        ensures exists v :: v in vs && !v.isDefault && v.versionId == id
      {
        var j :| 0 <= j < |vs| && !vs[j].isDefault && DeletePolicyVersion(arn, id) == DeletePolicyVersion(arn, vs[j].versionId);
        assert vs[j] in vs;
      }
    case Absent(_) =>
    case LookupFailed(_) =>
  }

  /**
   * `CheckDeletion` is in progress exactly while a policy is found at the
   * recorded ARN, and complete exactly when there is no ARN or no policy.
   */
  lemma DeletionCheckMeaning(s: IamPolicyStatus, env: IamEnv)
    ensures DeletionChecked(s, env).0.CheckInProgress? <==> s.policyArn != "" && env.getPolicy(s.policyArn).Found?
    ensures DeletionChecked(s, env).0.CheckComplete? <==> s.policyArn == "" || env.getPolicy(s.policyArn).Absent?
  {
  }

  /** The provider's operations object, holding the status it updates. */
  class IamPolicyOperations {
    const config: PolicyConfig
    var status: IamPolicyStatus

    constructor (config: PolicyConfig, status: IamPolicyStatus)
      ensures this.config == config && this.status == status
    {
      this.config := config;
      this.status := status;
    }

    /** `Deploy`: create the policy when no policy has its name, otherwise publish a new version. */
    method Deploy(env: IamEnv) returns (result: ActionResult, calls: seq<PolicyCall>)
      modifies this
      ensures (status, result, calls) == Deployed(config, old(status), env)
    {
      var existing := GetPolicyByName(config.policyName, config.path, env);
      calls := [ListPolicies(config.path)];
      if existing.Err? {
        return ActionError("failed to check if policy exists: " + existing.error), calls;
      }
      if existing.value.None? {
        var input := PolicyInput(config);
        calls := calls + [CreatePolicy(input)];
        var created := env.createPolicy(input);
        if created.Err? {
          return ActionError("failed to create policy: " + created.error), calls;
        }
        var p := created.value;
        status := status.(policyArn := p.arn, policyId := p.policyId, policyName := p.policyName);
        status := status.(currentVersionId := p.defaultVersionId);
        return ActionSuccess(""), calls;
      }
      var p := existing.value.value;
      status := status.(policyArn := p.arn, policyId := p.policyId, policyName := p.policyName);
      var v := CreateNewVersion(status.policyArn, config.policyDocument, env);
      calls := calls + v.calls;
      if v.versionId.Err? {
        return ActionError(v.versionId.error), calls;
      }
      status := status.(currentVersionId := v.versionId.value);
      return ActionSuccess(""), calls;
    }

    /** `CheckDeployment`: refresh the policy identity in the status once a policy ARN is known. */
    method CheckDeployment(env: IamEnv) returns (result: CheckResult, calls: seq<PolicyCall>)
      modifies this
      ensures (status, result, calls) == DeploymentChecked(old(status), env)
    {
      if status.policyArn == "" {
        return CheckInProgress(""), [];
      }
      calls := [GetPolicy(status.policyArn)];
      var policy := PolicyByArn(status.policyArn, env);
      if policy.Err? {
        return CheckFailed("failed to check policy status: " + policy.error), calls;
      }
      if policy.value.None? {
        return CheckError("policy not found at ARN " + status.policyArn), calls;
      }
      status := WithPolicy(status, policy.value.value);
      return CheckComplete(""), calls;
    }

    /** `Delete`: every non-default version first, then the policy itself. */
    method Delete(env: IamEnv) returns (result: ActionResult, calls: seq<PolicyCall>)
      ensures (result, calls) == DeletionStarted(status, env)
    {
      var arn := status.policyArn;
      if arn == "" {
        return ActionSuccess(""), [];
      }
      calls := [GetPolicy(arn)];
      var policy := PolicyByArn(arn, env);
      if policy.Err? {
        return ActionError("failed to check policy existence: " + policy.error), calls;
      }
      if policy.value.None? {
        return ActionSuccess(""), calls;
      }
      var d := DeletePolicyAllVersions(arn, env);
      calls := calls + d.calls;
      if d.err.Some? {
        return ActionError("failed to delete policy versions: " + d.err.value), calls;
      }
      calls := calls + [DeletePolicy(arn)];
      var err := DeletePolicyError(arn, env);
      if err.Some? {
        return ActionError("failed to delete policy: " + err.value), calls;
      }
      return ActionSuccess("Deleting policy " + status.policyName), calls;
    }

    /** `CheckDeletion`: complete once no policy is found at the recorded ARN. */
    method CheckDeletion(env: IamEnv) returns (result: CheckResult, calls: seq<PolicyCall>)
      ensures (result, calls) == DeletionChecked(status, env)
    {
      var arn := status.policyArn;
      if arn == "" {
        return CheckComplete(""), [];
      }
      calls := [GetPolicy(arn)];
      var policy := PolicyByArn(arn, env);
      if policy.Err? {
        return CheckFailed("failed to check policy deletion status: " + policy.error), calls;
      }
      if policy.value.Some? {
        return CheckInProgress("Waiting for policy " + status.policyName + " deletion"), calls;
      }
      return CheckComplete("Policy " + status.policyName + " deleted"), calls;
    }
  }
}
