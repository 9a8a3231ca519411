// The manifest provider's operations.  The cluster is an environment of
// answers: the REST mapper's scope for a kind, the answer to a
// server-side apply and to a Get (with the kstatus verdict computed from
// the object).  A Delete's answer is only logged, so `Delete` returns the
// calls it makes instead.  Each operation walks its list in the source's
// order and is proved against a function of the configuration, the
// recorded references and the cluster.
module ManifestOps {
  import opened Wrappers
  import opened Strings
  import opened Manifest

  datatype Scope = Namespaced | ClusterScoped

  /** The kstatus status values. */
  datatype StatusKind =
    | CurrentStatus
    | InProgressStatus
    | UnknownStatus
    | FailedStatus
    | TerminatingStatus
    | NotFoundStatus
    | OtherStatus(name: string)

  /** `status.Compute`'s result. */
  datatype Computed = Computed(status: StatusKind, message: string)

  /** A Get: the object was found (with kstatus computed from it), or the call failed. */
  datatype GetOutcome = Found(computed: Result<Computed>) | GetFailed(notFound: bool, error: string)

  datatype Cluster = Cluster(
    restMapping: GroupVersionKind -> Result<Scope>,
    apply: Object -> Option<string>,
    get: ResourceReference -> GetOutcome)

  /**
   * How an error leaves an operation: as a permanent failure
   * (`ActionFailure`, `CheckFailure`), through the Kubernetes retry
   * classifier (`…ResultForError`), or handed to the provider's error
   * result (`errorResult`).
   */
  datatype Failure = Permanent(error: string) | Classified(error: string) | Reported(error: string)

  /** What `Deploy`, `CheckDeployment`, `Delete` and `CheckDeletion` return. */
  datatype Outcome = Succeeded | Pending | Failed(error: string)

  /** What `Apply` returns. */
  datatype ApplyOutcome = ApplySucceeded(details: string) | ApplyFailed(failure: Failure)

  /** What `CheckApplied` returns. */
  datatype AppliedCheck = AppliedComplete(details: string) | AppliedInProgress(details: string) | AppliedFailed(failure: Failure)

  // ---------------------------------------------------------------------
  // Recording applied manifests

  /** One manifest's fate: applied and recorded, or the failure that stops the loop. */
  datatype Step = Recorded(ref: ResourceReference) | Stopped(failure: Failure)

  /** The references recorded so far and the failure that stopped the loop, if any. */
  datatype Run = Run(applied: seq<ResourceReference>, failure: Option<Failure>)

  /** Applying `manifests[i..]` in order after `applied`, stopping at the first failure. */
  function RecordFrom(applied: seq<ResourceReference>, manifests: seq<Object>, i: nat,
                      step: (Object, nat) -> Step): Run
    requires i <= |manifests|
    decreases |manifests| - i
  {
    if i == |manifests| then Run(applied, None)
    else
      match step(manifests[i], i)
      case Stopped(f) => Run(applied, Some(f))
      case Recorded(ref) => RecordFrom(applied + [ref], manifests, i + 1, step)
  }

  /**
   * The recorded references extend the starting list by the references of
   * a run of consecutive manifests that each applied, in order; the run
   * ends at the end of the list exactly when there was no failure, and
   * otherwise at the manifest that failed.
   */
  lemma {:induction false} RecordFromMeaning(applied: seq<ResourceReference>, manifests: seq<Object>, i: nat,
                                             step: (Object, nat) -> Step)
    requires i <= |manifests|
    ensures var r := RecordFrom(applied, manifests, i, step);
      && |applied| <= |r.applied| <= |applied| + |manifests| - i
      && r.applied[..|applied|] == applied
      && (forall k :: |applied| <= k < |r.applied| ==>
            step(manifests[i + k - |applied|], i + k - |applied|) == Recorded(r.applied[k]))
      && (r.failure.None? <==> |r.applied| == |applied| + |manifests| - i)
      && (r.failure.Some? ==>
            step(manifests[i + |r.applied| - |applied|], i + |r.applied| - |applied|) == Stopped(r.failure.value))
    decreases |manifests| - i
  {
    if i < |manifests| {
      match step(manifests[i], i)
      case Stopped(f) =>
      case Recorded(ref) =>
        RecordFromMeaning(applied + [ref], manifests, i + 1, step);
        var r := RecordFrom(applied, manifests, i, step);
        assert r == RecordFrom(applied + [ref], manifests, i + 1, step);
        assert r.applied[..|applied| + 1] == applied + [ref];
        assert r.applied[..|applied|] == (applied + [ref])[..|applied|];
    }
  }

  /** Applying the whole list from an empty record. */
  function RecordAll(manifests: seq<Object>, step: (Object, nat) -> Step): (r: Run)
    ensures |r.applied| <= |manifests|
    ensures forall k :: 0 <= k < |r.applied| ==> step(manifests[k], k) == Recorded(r.applied[k])
    ensures r.failure.None? <==> |r.applied| == |manifests|
    ensures r.failure.Some? ==> step(manifests[|r.applied|], |r.applied|) == Stopped(r.failure.value)
  {
    RecordFromMeaning([], manifests, 0, step);
    RecordFrom([], manifests, 0, step)
  }

  /**
   * One manifest in `Apply`: resolve its kind to a client (a permanent
   * failure), then apply it as it is (a failure that goes to the retry
   * classifier).
   */
  function ApplyStep(m: Object, cluster: Cluster): (s: Step)
    ensures s.Recorded? ==> s.ref == RefOf(m) && cluster.apply(m).None?
    ensures cluster.restMapping(GvkOf(m)).Err? ==> s.Stopped? && s.failure.Permanent?
    ensures cluster.restMapping(GvkOf(m)) == Ok(Namespaced) && NamespaceOf(m) == "" ==> s.Stopped? && s.failure.Permanent?
  {
    var gvk := GvkOf(m);
    match cluster.restMapping(gvk)
    case Err(e) => Stopped(Permanent("failed to get REST mapping for " + GvkString(gvk) + ": " + e))
    case Ok(scope) =>
      if scope == Namespaced && NamespaceOf(m) == "" then
        Stopped(Permanent("namespaced resource " + GvkString(gvk) + " missing namespace"))
      else
        match cluster.apply(m)
        case Some(e) =>
          Stopped(Classified("failed to apply manifest " + GvkString(gvk) + " " + NamespaceOf(m) + "/" + NameOf(m) + ": " + e))
        case None => Recorded(RefOf(m))
  }

  function ApplyStepper(cluster: Cluster): (Object, nat) -> Step
  {
    (m: Object, i: nat) => ApplyStep(m, cluster)
  }

  /**
   * One manifest in `Deploy`: it must name its apiVersion, kind and name
   * (the error gives its index); it is applied with the tracking label;
   * a namespaced kind needs a namespace.
   */
  function DeployStep(m: Object, i: nat, cluster: Cluster): (s: Step)
    ensures ApiVersionOf(m) == "" || KindOf(m) == "" || NameOf(m) == "" ==>
      s == Stopped(Reported("manifest at index " + IntToString(i) + " missing required fields (apiVersion, kind, or name)"))
    ensures s.Recorded? ==> s.ref == RefOf(m) && ValidK8sManifest(m) && cluster.apply(WithTrackingLabel(m)).None?
    ensures cluster.restMapping(GvkOf(m)) == Ok(Namespaced) && NamespaceOf(m) == "" ==> s.Stopped?
  {
    if ApiVersionOf(m) == "" || KindOf(m) == "" || NameOf(m) == "" then
      Stopped(Reported("manifest at index " + IntToString(i) + " missing required fields (apiVersion, kind, or name)"))
    else
      var obj := WithTrackingLabel(m);
      TrackingLabelMeaning(m);
      ValidManifestIdentity(m);
      assert GvkOf(obj) == GvkOf(m);
      var gvk := GvkOf(obj);
      match cluster.restMapping(gvk)
      case Err(e) => Stopped(Reported("failed to get REST mapping for " + GvkString(gvk) + ": " + e))
      case Ok(scope) =>
        if scope == Namespaced && NamespaceOf(obj) == "" then
          Stopped(Reported("namespaced resource " + GvkString(gvk) + " missing namespace"))
        else
          match cluster.apply(obj)
          case Some(e) =>
            Stopped(Reported("failed to apply manifest " + GvkString(gvk) + " " + NamespaceOf(obj) + "/" + NameOf(obj) + ": " + e))
          case None => Recorded(RefOf(obj))
  }

  function DeployStepper(cluster: Cluster): (Object, nat) -> Step
  {
    (m: Object, i: nat) => DeployStep(m, i, cluster)
  }

  // ---------------------------------------------------------------------
  // Readiness of recorded resources

  /** The first index whose element satisfies `p`. */
  function FirstWhere<T>(xs: seq<T>, p: T -> bool): (k: nat)
    requires exists k :: 0 <= k < |xs| && p(xs[k])
    ensures k < |xs| && p(xs[k]) && forall j :: 0 <= j < k ==> !p(xs[j])
  {
    if p(xs[0]) then 0
    else
      assert exists k :: 0 <= k < |xs[1..]| && p(xs[1..][k]) by {
        var k :| 0 <= k < |xs| && p(xs[k]);
        assert xs[1..][k - 1] == xs[k];
      }
      1 + FirstWhere(xs[1..], p)
  }

  /** One resource's readiness as `CheckDeployment` sees it. */
  datatype Readiness = Ready | NotReady | Broken(error: string)

  function DeploymentReadiness(ref: ResourceReference, cluster: Cluster): (v: Readiness)
    ensures ParseGroupVersion(ref.apiVersion).Err? ==> v.Broken?
    ensures v == Ready <==>
      Reachable(ref, cluster) && cluster.get(ref).Found? && cluster.get(ref).computed.Ok? &&
      cluster.get(ref).computed.value.status == CurrentStatus
  {
    match ParseGroupVersion(ref.apiVersion)
    case Err(e) => Broken("invalid apiVersion " + ref.apiVersion + ": " + e)
    case Ok(gv) =>
      var gvk := GroupVersionKind(gv.group, gv.version, ref.kind);
      match cluster.restMapping(gvk)
      case Err(e) => Broken("failed to get REST mapping for " + GvkString(gvk) + ": " + e)
      case Ok(scope) =>
        if scope == Namespaced && ref.namespace == "" then
          Broken("namespaced resource " + GvkString(gvk) + " missing namespace in reference")
        else
          var name := GvkString(gvk) + " " + ref.namespace + "/" + ref.name;
          match cluster.get(ref)
          case GetFailed(_, e) => Broken("resource " + name + " disappeared: " + e)
          case Found(Err(_)) => NotReady
          case Found(Ok(c)) =>
            match c.status
            case CurrentStatus => Ready
            case FailedStatus => Broken("resource " + name + " failed: " + c.message)
            case TerminatingStatus => Broken("resource " + name + " is terminating")
            case NotFoundStatus => Broken("resource " + name + " not found")
            case _ => NotReady
  }

  function IsBroken(v: Readiness): bool { v.Broken? }

  /**
   * `CheckDeployment` over the resources' readiness: the first broken
   * resource fails the check; otherwise it succeeds when every resource is
   * ready and is pending when one is not.
   */
  function DeploymentChecked(vs: seq<Readiness>): (o: Outcome)
    ensures o == Succeeded <==> forall k :: 0 <= k < |vs| ==> vs[k] == Ready
    ensures o == Pending <==> (forall k :: 0 <= k < |vs| ==> !vs[k].Broken?) && exists k :: 0 <= k < |vs| && vs[k] == NotReady
    ensures o.Failed? <==> exists k :: 0 <= k < |vs| && vs[k].Broken?
    ensures o.Failed? ==> exists k :: 0 <= k < |vs| && vs[k] == Broken(o.error) && forall j :: 0 <= j < k ==> !vs[j].Broken?
  {
    if exists k :: 0 <= k < |vs| && IsBroken(vs[k]) then Failed(vs[FirstWhere(vs, IsBroken)].error)
    else if forall k :: 0 <= k < |vs| ==> vs[k] == Ready then Succeeded
    else Pending
  }

  function Readinesses(refs: seq<ResourceReference>, cluster: Cluster): (vs: seq<Readiness>)
    ensures |vs| == |refs| && forall k :: 0 <= k < |refs| ==> vs[k] == DeploymentReadiness(refs[k], cluster)
  {
    seq(|refs|, k requires 0 <= k < |refs| => DeploymentReadiness(refs[k], cluster))
  }

  /** One resource as `CheckApplied` sees it. */
  datatype Counting = Counted | Uncounted | Halted(failure: Failure)

  function AppliedCounting(ref: ResourceReference, cluster: Cluster): (v: Counting)
    ensures ParseGroupVersion(ref.apiVersion).Err? ==> v.Halted? && v.failure.Permanent?
    ensures v.Halted? && v.failure.Classified? ==> cluster.get(ref).GetFailed?
    ensures cluster.get(ref).Found? && cluster.get(ref).computed.Err? ==> !v.Counted?
  {
    match ParseGroupVersion(ref.apiVersion)
    case Err(e) => Halted(Permanent("failed to parse apiVersion " + ref.apiVersion + ": " + e))
    case Ok(gv) =>
      var gvk := GroupVersionKind(gv.group, gv.version, ref.kind);
      match cluster.restMapping(gvk)
      case Err(e) => Halted(Permanent("failed to get REST mapping for " + GvkString(gvk) + ": " + e))
      case Ok(scope) =>
        if scope == Namespaced && ref.namespace == "" then
          Halted(Permanent("namespaced resource " + ref.kind + " missing namespace"))
        else
          match cluster.get(ref)
          case GetFailed(_, e) =>
            Halted(Classified("failed to get resource " + ref.kind + " " + ref.namespace + "/" + ref.name + ": " + e))
          case Found(Err(_)) => Uncounted
          case Found(Ok(c)) =>
            match c.status
            case CurrentStatus => Counted
            case FailedStatus => Halted(Permanent(ResourceError(ref, "failed: " + c.message)))
            case TerminatingStatus => Halted(Permanent(ResourceError(ref, "is terminating")))
            case NotFoundStatus => Halted(Permanent(ResourceError(ref, "not found")))
            case _ => Uncounted
  }

  function Countings(refs: seq<ResourceReference>, cluster: Cluster): (vs: seq<Counting>)
    ensures |vs| == |refs| && forall k :: 0 <= k < |refs| ==> vs[k] == AppliedCounting(refs[k], cluster)
  {
    seq(|refs|, k requires 0 <= k < |refs| => AppliedCounting(refs[k], cluster))
  }

  /** The number of counted resources among the first `i`. */
  function CountedAmong(vs: seq<Counting>, i: nat): (n: nat)
    requires i <= |vs|
    ensures n <= i
    decreases i
  {
    if i == 0 then 0 else CountedAmong(vs, i - 1) + (if vs[i - 1] == Counted then 1 else 0)
  }

  /** All of the first `i` resources are counted exactly when the count reaches `i`. */
  lemma {:induction false} CountedAmongAll(vs: seq<Counting>, i: nat)
    requires i <= |vs|
    ensures CountedAmong(vs, i) == i <==> forall k :: 0 <= k < i ==> vs[k] == Counted
    decreases i
  {
    if i > 0 {
      CountedAmongAll(vs, i - 1);
    }
  }

  /** The number of ready resources: at most the number of resources, and all of them exactly when each is counted. */
  function ReadyCount(vs: seq<Counting>): (n: nat)
    ensures n <= |vs|
    ensures n == |vs| <==> forall k :: 0 <= k < |vs| ==> vs[k] == Counted
  {
    CountedAmongAll(vs, |vs|);
    CountedAmong(vs, |vs|)
  }

  function IsHalted(v: Counting): bool { v.Halted? }

  /**
   * `CheckApplied` over the resources: nothing recorded is complete; the
   * first halted resource stops the check; otherwise the check is complete
   * exactly when every resource counted as ready.
   */
  function AppliedChecked(vs: seq<Counting>): (c: AppliedCheck)
    ensures |vs| == 0 ==> c == AppliedComplete("")
    ensures c.AppliedFailed? <==> exists k :: 0 <= k < |vs| && vs[k].Halted?
    ensures c.AppliedFailed? ==> exists k :: 0 <= k < |vs| && vs[k] == Halted(c.failure) && forall j :: 0 <= j < k ==> !vs[j].Halted?
    ensures c.AppliedComplete? <==> forall k :: 0 <= k < |vs| ==> vs[k] == Counted
    ensures c.AppliedInProgress? ==>
      c.details == NatToString(ReadyCount(vs)) + " of " + NatToString(|vs|) + " resources ready" && ReadyCount(vs) < |vs|
  {
    if |vs| == 0 then AppliedComplete("")
    else if exists k :: 0 <= k < |vs| && IsHalted(vs[k]) then AppliedFailed(vs[FirstWhere(vs, IsHalted)].failure)
    else if ReadyCount(vs) == |vs| then AppliedComplete("All " + NatToString(|vs|) + " resources ready")
    else AppliedInProgress(NatToString(ReadyCount(vs)) + " of " + NatToString(|vs|) + " resources ready")
  }

  lemma FirstHaltedStops(vs: seq<Counting>, i: nat)
    requires i < |vs| && vs[i].Halted? && forall k :: 0 <= k < i ==> !vs[k].Halted?
    ensures AppliedChecked(vs) == AppliedFailed(vs[i].failure)
  {
    assert FirstWhere(vs, IsHalted) == i;
  }

  lemma NoneHaltedCounts(vs: seq<Counting>)
    requires |vs| > 0 && forall k :: 0 <= k < |vs| ==> !vs[k].Halted?
    ensures ReadyCount(vs) == |vs| ==> AppliedChecked(vs) == AppliedComplete("All " + NatToString(|vs|) + " resources ready")
    ensures ReadyCount(vs) != |vs| ==>
      AppliedChecked(vs) == AppliedInProgress(NatToString(ReadyCount(vs)) + " of " + NatToString(|vs|) + " resources ready")
  {
    assert !exists k :: 0 <= k < |vs| && IsHalted(vs[k]);
  }

  // ---------------------------------------------------------------------
  // Deletion

  /** Whether the cleanup loops reach the cluster for a reference: its apiVersion parses, its kind maps, and a namespaced kind has a namespace. */
  predicate Reachable(ref: ResourceReference, cluster: Cluster)
  {
    && ParseGroupVersion(ref.apiVersion).Ok?
    && var gv := ParseGroupVersion(ref.apiVersion).value;
       var mapping := cluster.restMapping(GroupVersionKind(gv.group, gv.version, ref.kind));
       mapping.Ok? && !(mapping.value == Namespaced && ref.namespace == "")
  }

  /** The Delete calls for `refs`, last reference first, skipping those the loop cannot reach. */
  function DeletedInReverse(refs: seq<ResourceReference>, cluster: Cluster): seq<ResourceReference>
    decreases |refs|
  {
    if |refs| == 0 then []
    else DeletedInReverse(refs[1..], cluster) + (if Reachable(refs[0], cluster) then [refs[0]] else [])
  }

  /** Exactly the reachable references are deleted, each once per occurrence, and never more than were recorded. */
  lemma {:induction false} DeletedInReverseMeaning(refs: seq<ResourceReference>, cluster: Cluster)
    ensures |DeletedInReverse(refs, cluster)| <= |refs|
    ensures forall r :: r in DeletedInReverse(refs, cluster) <==> r in refs && Reachable(r, cluster)
    decreases |refs|
  {
    if |refs| > 0 {
      DeletedInReverseMeaning(refs[1..], cluster);
      assert forall r :: r in refs <==> r == refs[0] || r in refs[1..];
    }
  }

  /** Deleting a concatenation deletes the later part first: the order is the reverse of the recorded order. */
  lemma {:induction false} DeletedInReverseAppend(a: seq<ResourceReference>, b: seq<ResourceReference>, cluster: Cluster)
    ensures DeletedInReverse(a + b, cluster) == DeletedInReverse(b, cluster) + DeletedInReverse(a, cluster)
    decreases |a|
  {
    if |a| == 0 {
      assert a + b == b;
    } else {
      assert (a + b)[0] == a[0];
      assert (a + b)[1..] == a[1..] + b;
      DeletedInReverseAppend(a[1..], b, cluster);
    }
  }

  /** Whether `CheckDeletion` finds a recorded resource still present; a failed Get of any kind does not count. */
  predicate StillExists(ref: ResourceReference, cluster: Cluster)
  {
    Reachable(ref, cluster) && cluster.get(ref).Found?
  }

  // ---------------------------------------------------------------------
  // The operations

  /**
   * The loop of `CheckApplied`: the first resource that halts the check
   * and its place, or, when none halts, the number of ready resources.
   */
  method CountReady(refs: seq<ResourceReference>, cluster: Cluster) returns (halted: Option<Failure>, at: nat, readyCount: nat)
    ensures var vs := Countings(refs, cluster);
      halted.Some? ==> at < |vs| && vs[at] == Halted(halted.value) && forall k :: 0 <= k < at ==> !vs[k].Halted?
    ensures var vs := Countings(refs, cluster);
      halted.None? ==> (forall k :: 0 <= k < |vs| ==> !vs[k].Halted?) && readyCount == ReadyCount(vs)
  {
    ghost var vs := Countings(refs, cluster);
    readyCount := 0;
    var i := 0;
    while i < |refs|
      invariant 0 <= i <= |refs|
      invariant forall k :: 0 <= k < i ==> !vs[k].Halted?
      invariant readyCount == CountedAmong(vs, i)
    {
      var v := AppliedCounting(refs[i], cluster);
      if v.Halted? {
        return Some(v.failure), i, readyCount;
      }
      if v == Counted {
        readyCount := readyCount + 1;
      }
      i := i + 1;
    }
    return None, 0, readyCount;
  }

  /** The manifest operations: the resolved configuration and the status the applying operations rebuild. */
  class ManifestOperations {
    const config: ManifestConfig
    var status: ManifestStatus

    constructor (config: ManifestConfig, status: ManifestStatus)
      ensures this.config == config && this.status == status
    {
      this.config := config;
      this.status := status;
    }

    /** `Apply`: apply the manifests in order, recording each reference after its apply succeeds. */
    method Apply(cluster: Cluster) returns (result: ApplyOutcome)
      modifies this
      ensures status.appliedResources == RecordAll(config.manifests, ApplyStepper(cluster)).applied
      ensures RecordAll(config.manifests, ApplyStepper(cluster)).failure.Some? ==>
        result == ApplyFailed(RecordAll(config.manifests, ApplyStepper(cluster)).failure.value)
      ensures RecordAll(config.manifests, ApplyStepper(cluster)).failure.None? ==>
        result == ApplySucceeded("Applied " + NatToString(|config.manifests|) + " resources")
    {
      var manifests := config.manifests;
      var step := ApplyStepper(cluster);
      status := status.(appliedResources := []);
      var i := 0;
      while i < |manifests|
        invariant 0 <= i <= |manifests| && |status.appliedResources| == i
        invariant RecordFrom(status.appliedResources, manifests, i, step) == RecordFrom([], manifests, 0, step)
      {
        match ApplyStep(manifests[i], cluster)
        case Stopped(f) =>
          return ApplyFailed(f);
        case Recorded(ref) =>
          status := status.(appliedResources := status.appliedResources + [ref]);
        i := i + 1;
      }
      return ApplySucceeded("Applied " + NatToString(|status.appliedResources|) + " resources");
    }

    /** `CheckApplied`: count the ready resources, stopping at the first that cannot become ready. */
    method CheckApplied(cluster: Cluster) returns (result: AppliedCheck)
      ensures result == AppliedChecked(Countings(status.appliedResources, cluster))
    {
      var refs := status.appliedResources;
      ghost var vs := Countings(refs, cluster);
      if |refs| == 0 {
        return AppliedComplete("");
      }
      var halted, at, readyCount := CountReady(refs, cluster);
      if halted.Some? {
        FirstHaltedStops(vs, at);
        return AppliedFailed(halted.value);
      }
      NoneHaltedCounts(vs);
      if readyCount == |refs| {
        return AppliedComplete("All " + NatToString(|refs|) + " resources ready");
      }
      return AppliedInProgress(NatToString(readyCount) + " of " + NatToString(|refs|) + " resources ready");
    }

    /** `Deploy`: check, label and apply the manifests in order, recording each reference; full success is pending. */
    method Deploy(cluster: Cluster) returns (result: Outcome)
      modifies this
      ensures status.appliedResources == RecordAll(config.manifests, DeployStepper(cluster)).applied
      ensures RecordAll(config.manifests, DeployStepper(cluster)).failure.Some? ==>
        result == Failed(RecordAll(config.manifests, DeployStepper(cluster)).failure.value.error)
      ensures RecordAll(config.manifests, DeployStepper(cluster)).failure.None? ==> result == Pending
    {
      var manifests := config.manifests;
      var step := DeployStepper(cluster);
      status := status.(appliedResources := []);
      var i := 0;
      while i < |manifests|
        invariant 0 <= i <= |manifests|
        invariant RecordFrom(status.appliedResources, manifests, i, step) == RecordFrom([], manifests, 0, step)
      {
        match DeployStep(manifests[i], i, cluster)
        case Stopped(f) =>
          return Failed(f.error);
        case Recorded(ref) =>
          status := status.(appliedResources := status.appliedResources + [ref]);
        i := i + 1;
      }
      return Pending;
    }

    /** `CheckDeployment`: every recorded resource must be ready; the first broken one fails the check. */
    method CheckDeployment(cluster: Cluster) returns (result: Outcome)
      ensures result == DeploymentChecked(Readinesses(status.appliedResources, cluster))
    {
      var refs := status.appliedResources;
      ghost var vs := Readinesses(refs, cluster);
      if |refs| == 0 {
        return Succeeded;
      }
      var allReady := true;
      var i := 0;
      while i < |refs|
        invariant 0 <= i <= |refs|
        invariant forall k :: 0 <= k < i ==> !vs[k].Broken?
        invariant allReady <==> forall k :: 0 <= k < i ==> vs[k] == Ready
      {
        var v := DeploymentReadiness(refs[i], cluster);
        if v.Broken? {
          assert FirstWhere(vs, IsBroken) == i;
          return Failed(v.error);
        }
        if v == NotReady {
          allReady := false;
        }
        i := i + 1;
      }
      if allReady {
        return Succeeded;
      }
      return Pending;
    }

    /** `Delete`: delete the recorded resources from last to first, skipping any that fail; it always succeeds. */
    method Delete(cluster: Cluster) returns (result: Outcome, deleted: seq<ResourceReference>)
      ensures result == Succeeded
      ensures deleted == DeletedInReverse(status.appliedResources, cluster)
    {
      var refs := status.appliedResources;
      deleted := [];
      if |refs| == 0 {
        return Succeeded, deleted;
      }
      var i := |refs|;
      while i > 0
        invariant 0 <= i <= |refs|
        invariant deleted == DeletedInReverse(refs[i..], cluster)
      {
        i := i - 1;
        var ref := refs[i];
        assert refs[i..][1..] == refs[i + 1..];
        var parsed := ParseGroupVersion(ref.apiVersion);
        if parsed.Err? {
          continue;
        }
        var mapping := cluster.restMapping(GroupVersionKind(parsed.value.group, parsed.value.version, ref.kind));
        if mapping.Err? {
          continue;
        }
        if mapping.value == Namespaced && ref.namespace == "" {
          continue;
        }
        // Whatever the Delete answers, NotFound or another failure, is only logged.
        deleted := deleted + [ref];
      }
      assert refs[0..] == refs;
      return Succeeded, deleted;
    }

    /** `CheckDeletion`: pending exactly when some reachable recorded resource is still found. */
    method CheckDeletion(cluster: Cluster) returns (result: Outcome)
      ensures result == Pending <==> exists k :: 0 <= k < |status.appliedResources| && StillExists(status.appliedResources[k], cluster)
      ensures result == Succeeded || result == Pending
    {
      var refs := status.appliedResources;
      if |refs| == 0 {
        return Succeeded;
      }
      var anyExist := false;
      var i := 0;
      while i < |refs|
        invariant 0 <= i <= |refs|
        invariant anyExist <==> exists k :: 0 <= k < i && StillExists(refs[k], cluster)
      {
        var ref := refs[i];
        var parsed := ParseGroupVersion(ref.apiVersion);
        if parsed.Ok? {
          var mapping := cluster.restMapping(GroupVersionKind(parsed.value.group, parsed.value.version, ref.kind));
          if mapping.Ok? && !(mapping.value == Namespaced && ref.namespace == "") {
            if cluster.get(ref).Found? {
              anyExist := true;
            }
          }
        }
        i := i + 1;
      }
      if anyExist {
        return Pending;
      }
      return Succeeded;
    }
  }

  // ---------------------------------------------------------------------
  // Properties

  /**
   * `Apply` and `Deploy` start from an empty record and keep exactly the
   * references of the manifests applied before the first failure, in
   * manifest order.
   */
  lemma RecordedBeforeFailure(manifests: seq<Object>, cluster: Cluster)
    ensures var r := RecordAll(manifests, DeployStepper(cluster));
      forall k :: 0 <= k < |r.applied| ==> r.applied[k] == RefOf(manifests[k])
    ensures var r := RecordAll(manifests, ApplyStepper(cluster));
      forall k :: 0 <= k < |r.applied| ==> r.applied[k] == RefOf(manifests[k])
  {
    var d := RecordAll(manifests, DeployStepper(cluster));
    forall k | 0 <= k < |d.applied| ensures d.applied[k] == RefOf(manifests[k]) {
      assert DeployStepper(cluster)(manifests[k], k) == Recorded(d.applied[k]);
    }
    var a := RecordAll(manifests, ApplyStepper(cluster));
    forall k | 0 <= k < |a.applied| ensures a.applied[k] == RefOf(manifests[k]) {
      assert ApplyStepper(cluster)(manifests[k], k) == Recorded(a.applied[k]);
    }
  }

  /** A manifest without an identity stops `Deploy` at its own index, after the earlier manifests were recorded. */
  lemma DeployReportsIndex(manifests: seq<Object>, cluster: Cluster, i: nat)
    requires i < |manifests| && !ValidK8sManifest(manifests[i])
    requires forall k :: 0 <= k < i ==> DeployStep(manifests[k], k, cluster).Recorded?
    ensures RecordAll(manifests, DeployStepper(cluster)).failure ==
      Some(Reported("manifest at index " + IntToString(i) + " missing required fields (apiVersion, kind, or name)"))
    ensures |RecordAll(manifests, DeployStepper(cluster)).applied| == i
  {
    ValidManifestIdentity(manifests[i]);
  }

  /** A recorded list with one resource that is still progressing leaves the deployment pending. */
  lemma ProgressingIsPending(vs: seq<Readiness>, k: nat)
    requires k < |vs| && vs[k] == NotReady && forall j :: 0 <= j < |vs| ==> vs[j] == Ready || vs[j] == NotReady
    ensures DeploymentChecked(vs) == Pending
  {
  }

  /** A failed, terminating or vanished resource fails `CheckDeployment` whatever the other resources are. */
  lemma BrokenResourceFails(refs: seq<ResourceReference>, cluster: Cluster, k: nat)
    requires k < |refs| && DeploymentReadiness(refs[k], cluster).Broken?
    ensures DeploymentChecked(Readinesses(refs, cluster)).Failed?
  {
    assert Readinesses(refs, cluster)[k].Broken?;
  }

  /** A kstatus compute error keeps the resource out of the count but never fails the check. */
  lemma ComputeErrorSkipped(ref: ResourceReference, cluster: Cluster)
    requires Reachable(ref, cluster) && cluster.get(ref).Found? && cluster.get(ref).computed.Err?
    ensures AppliedCounting(ref, cluster) == Uncounted
    ensures DeploymentReadiness(ref, cluster) == NotReady
  {
  }

  /** A resource whose Get fails for a reason other than NotFound is not counted as still existing. */
  lemma FailedGetIsGone(ref: ResourceReference, cluster: Cluster)
    requires cluster.get(ref).GetFailed?
    ensures !StillExists(ref, cluster)
  {
  }
}
