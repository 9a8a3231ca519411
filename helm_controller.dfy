// The Helm component controller: its configuration checks, the release name,
// the claiming protocol over the finalizer list (claim only a component that
// no handler has claimed) and the deletion protocol (wait for the
// composition's coordination finalizer, then release our own).
module HelmController {
  import opened Wrappers
  import opened Strings
  import opened Json
  import opened Components

  const HandlerName := "helm"
  const HandlerFinalizer := "helm.deployment-orchestrator.io/lifecycle"
  const CoordinationFinalizer := "composition.deployment-orchestrator.io/coordination"
  const LifecycleSuffix := ".deployment-orchestrator.io/lifecycle"
  const CompositionPrefix := "composition."

  /** Seconds to wait while the coordination finalizer is present. */
  const CoordinationRequeue := 5

  // ---------------------------------------------------------------------
  // Configuration

  datatype HelmConfig = HelmConfig(
    repositoryUrl: string,
    repositoryName: string,
    chartName: string,
    chartVersion: string,
    values: map<string, string>,
    namespace: string)

  /** Unmarshalling `Spec.Config` into `HelmConfig`. */
  function DecodeHelmConfig(raw: JsonText): (r: Result<HelmConfig>)
    ensures r.Ok? ==> DecodeObject(raw).Ok?
  {
    var m :- DecodeObject(raw);
    var repository :- ObjectField(m, "repository");
    var url :- StringField(repository, "url");
    var name :- StringField(repository, "name");
    var chart :- ObjectField(m, "chart");
    var chartName :- StringField(chart, "name");
    var version :- StringField(chart, "version");
    var values :- StringMapField(m, "values");
    var namespace :- StringField(m, "namespace");
    Ok(HelmConfig(url, name, chartName, version, values, namespace))
  }

  const ErrNoConfig := "config is required for helm components"

  /** `parseHelmConfig`: present, decodable, and the four required fields non-empty, checked in order. */
  function ParseHelmConfig(config: Option<JsonText>): (r: Result<HelmConfig>)
    ensures r.Ok? ==> r.value.repositoryUrl != "" && r.value.repositoryName != "" &&
                      r.value.chartName != "" && r.value.chartVersion != ""
  {
    match config
    case None => Err(ErrNoConfig)
    case Some(raw) =>
      match DecodeHelmConfig(raw)
      case Err(e) => Err("failed to parse helm config: " + e)
      case Ok(c) =>
        if c.repositoryUrl == "" then Err("repository.url is required")
        else if c.repositoryName == "" then Err("repository.name is required")
        else if c.chartName == "" then Err("chart.name is required")
        else if c.chartVersion == "" then Err("chart.version is required")
        else Ok(c)
  }

  /** The first missing required field is the one reported; a complete configuration is returned as decoded. */
  lemma ParseHelmConfigOrder(raw: JsonText)
    requires DecodeHelmConfig(raw).Ok?
    ensures var c := DecodeHelmConfig(raw).value;
      var r := ParseHelmConfig(Some(raw));
      (c.repositoryUrl == "" ==> r == Err("repository.url is required")) &&
      (c.repositoryUrl != "" && c.repositoryName == "" ==> r == Err("repository.name is required")) &&
      (c.repositoryUrl != "" && c.repositoryName != "" && c.chartName == "" ==> r == Err("chart.name is required")) &&
      (c.repositoryUrl != "" && c.repositoryName != "" && c.chartName != "" && c.chartVersion == "" ==>
         r == Err("chart.version is required")) &&
      (r.Ok? <==> c.repositoryUrl != "" && c.repositoryName != "" && c.chartName != "" && c.chartVersion != "") &&
      (r.Ok? ==> r.value == c)
  {
  }

  /** A missing configuration and an undecodable one are distinguished by their messages. */
  lemma ParseHelmConfigErrors(config: Option<JsonText>)
    ensures config.None? ==> ParseHelmConfig(config) == Err(ErrNoConfig)
    ensures config.Some? && !Valid(config.value) ==>
              ParseHelmConfig(config).Err? && HasPrefix(ParseHelmConfig(config).error, "failed to parse helm config: ")
  {
    if config.Some? && !Valid(config.value) {
      var e := DecodeHelmConfig(config.value).error;
      assert ParseHelmConfig(config).error == "failed to parse helm config: " + e;
    }
  }

  /** `generateReleaseName`: the component's namespace and name joined by a dash. */
  function GenerateReleaseName(namespace: string, name: string): (r: string)
    ensures |r| == |namespace| + 1 + |name|
    ensures HasPrefix(r, namespace + "-") && HasSuffix(r, name)
  {
    namespace + "-" + name
  }

  /** With dash-free namespaces, the release name determines the namespace and the name. */
  lemma ReleaseNameInjective(ns1: string, n1: string, ns2: string, n2: string)
    requires '-' !in ns1 && '-' !in ns2
    requires GenerateReleaseName(ns1, n1) == GenerateReleaseName(ns2, n2)
    ensures ns1 == ns2 && n1 == n2
  {
    var r := GenerateReleaseName(ns1, n1);
    FirstDash(ns1, n1);
    FirstDash(ns2, n2);
    assert |ns1| == |ns2|;
    assert ns1 == r[..|ns1|] == ns2;
    assert n1 == r[|ns1| + 1..] == n2;
  }

  /** In a release name of a dash-free namespace, the first dash ends the namespace. */
  lemma FirstDash(ns: string, n: string)
    requires '-' !in ns
    ensures var r := GenerateReleaseName(ns, n);
      r[|ns|] == '-' && forall k :: 0 <= k < |ns| ==> r[k] != '-'
  {
    var r := GenerateReleaseName(ns, n);
    forall k | 0 <= k < |ns| ensures r[k] != '-' {
      assert r[k] == ns[k];
    }
  }

  /** The example from the configuration tests. */
  lemma ReleaseNameExample()
    ensures GenerateReleaseName("production", "my-app") == "production-my-app"
  {
  }

  /** The namespace the chart goes to: the configured one, else the component's own. */
  function TargetNamespace(config: HelmConfig, componentNamespace: string): (ns: string)
    ensures config.namespace != "" ==> ns == config.namespace
    ensures config.namespace == "" ==> ns == componentNamespace
  {
    if config.namespace != "" then config.namespace else componentNamespace
  }

  // ---------------------------------------------------------------------
  // Finalizers

  /** A lifecycle finalizer of some handler; the composition's finalizers are not. */
  predicate IsHandlerFinalizer(f: string)
  {
    HasSuffix(f, LifecycleSuffix) && !HasPrefix(f, CompositionPrefix)
  }

  predicate HasHandlerFinalizer(fs: seq<string>)
  {
    exists i :: 0 <= i < |fs| && IsHandlerFinalizer(fs[i])
  }

  /** `hasAnyHandlerFinalizer`: scan the list, stopping at the first handler finalizer. */
  method HasAnyHandlerFinalizer(fs: seq<string>) returns (found: bool)
    ensures found <==> HasHandlerFinalizer(fs)
  {
    var i := 0;
    while i < |fs|
      invariant 0 <= i <= |fs|
      invariant forall k :: 0 <= k < i ==> !IsHandlerFinalizer(fs[k])
    {
      if HasSuffix(fs[i], LifecycleSuffix) && !HasPrefix(fs[i], CompositionPrefix) {
        return true;
      }
      i := i + 1;
    }
    return false;
  }

  /** Our own finalizer is a handler finalizer; the coordination finalizer is not. */
  lemma FinalizerKinds(ours: string, coordination: string)
    requires ours == HandlerFinalizer && coordination == CoordinationFinalizer
    ensures IsHandlerFinalizer(ours)
    ensures !IsHandlerFinalizer(coordination)
  {
    assert ours[|ours| - |LifecycleSuffix|..] == LifecycleSuffix;
    assert ours[0] != CompositionPrefix[0];
    assert coordination[|coordination| - 1] != LifecycleSuffix[|LifecycleSuffix| - 1];
  }

  /** `isClaimedByUs`. */
  predicate IsClaimedByUs(s: ComponentState)
  {
    HandlerFinalizer in s.finalizers
  }

  // ---------------------------------------------------------------------
  // Claiming and deletion, as functions of the component before the call

  /** Outcomes of the writes a claim makes, and the clock reading it stamps. */
  datatype ClaimEnv = ClaimEnv(update: Outcome, statusUpdate: Outcome, now: int)

  /** `claimComponent`. */
  function Claim(s: ComponentState, env: ClaimEnv): Step
  {
    var claiming := s.(finalizers := AddFinalizer(s.finalizers, HandlerFinalizer));
    if env.update.Fail? then
      Step(claiming, ReconcileResult(0, Some("failed to claim component: " + env.update.error)), [Update(claiming)])
    else
      var claimed := claiming.(phase := Claimed, claimedBy := HandlerName, claimedAt := Some(env.now),
                               message := "Claimed by helm handler");
      var err := if env.statusUpdate.Fail? then Some("failed to update claimed status: " + env.statusUpdate.error) else None;
      Step(claimed, ReconcileResult(0, err), [Update(claiming), StatusUpdate(claimed)])
  }

  /** `claimingProtocol`: ours already, someone else's, or free to claim. */
  function ClaimingProtocol(s: ComponentState, env: ClaimEnv): Step
  {
    if IsClaimedByUs(s) then Step(s, ReconcileResult(0, None), [])
    else if HasHandlerFinalizer(s.finalizers) then Step(s, ReconcileResult(0, None), [])
    else Claim(s, env)
  }

  /** `handleDeletion`: `update` is the outcome of writing the finalizer removal. */
  function Deletion(s: ComponentState, update: Outcome): Step
  {
    if CoordinationFinalizer in s.finalizers then
      Step(s, ReconcileResult(CoordinationRequeue, None), [])
    else if IsClaimedByUs(s) then
      var terminating := s.(phase := Terminating, message := "Cleaning up resources via helm handler");
      var released := terminating.(finalizers := RemoveFinalizer(s.finalizers, HandlerFinalizer));
      var err := if update.Fail? then Some("failed to remove finalizer: " + update.error) else None;
      Step(released, ReconcileResult(0, err), [StatusUpdate(terminating), Update(released)])
    else
      Step(s, ReconcileResult(0, None), [])
  }

  /** What a successful reconciliation settles on: the release and where it goes. */
  datatype Plan = Plan(releaseName: string, targetNamespace: string, config: HelmConfig)

  /** Outcomes of the writes one reconciliation may make. */
  datatype HelmEnv = HelmEnv(claim: ClaimEnv, deletionUpdate: Outcome)

  /** `Reconcile` after fetching the component. */
  function ReconcileStep(handler: string, deleting: bool, config: Option<JsonText>, namespace: string, name: string,
                         s: ComponentState, env: HelmEnv): (Step, Option<Plan>)
  {
    if handler != HandlerName then (Step(s, ReconcileResult(0, None), []), None)
    else if deleting then (Deletion(s, env.deletionUpdate), None)
    else
      var claim := ClaimingProtocol(s, env.claim);
      if claim.result.err.Some? then (claim, None)
      else if !IsClaimedByUs(claim.state) then (claim, None)
      else match ParseHelmConfig(config)
        case Err(e) =>
          var failed := claim.state.(phase := Failed, message := "Configuration error: " + e);
          (Step(failed, ReconcileResult(0, Some(e)), claim.calls + [StatusUpdate(failed)]), None)
        case Ok(c) =>
          (claim, Some(Plan(GenerateReleaseName(namespace, name), TargetNamespace(c, namespace), c)))
  }

  // ---------------------------------------------------------------------
  // The controller, updating the component in place

  method ClaimComponent(c: Component, env: ClaimEnv) returns (err: Option<string>, calls: seq<Call>)
    modifies c
    ensures Step(c.State(), ReconcileResult(0, err), calls) == Claim(old(c.State()), env)
  {
    c.finalizers := AddFinalizer(c.finalizers, HandlerFinalizer);
    calls := [Update(c.State())];
    if env.update.Fail? {
      return Some("failed to claim component: " + env.update.error), calls;
    }
    c.phase := Claimed;
    c.claimedBy := HandlerName;
    c.claimedAt := Some(env.now);
    c.message := "Claimed by helm handler";
    calls := calls + [StatusUpdate(c.State())];
    if env.statusUpdate.Fail? {
      return Some("failed to update claimed status: " + env.statusUpdate.error), calls;
    }
    return None, calls;
  }

  method RunClaimingProtocol(c: Component, env: ClaimEnv) returns (res: ReconcileResult, calls: seq<Call>)
    modifies c
    ensures Step(c.State(), res, calls) == ClaimingProtocol(old(c.State()), env)
  {
    if HandlerFinalizer in c.finalizers {
      return ReconcileResult(0, None), [];
    }
    var other := HasAnyHandlerFinalizer(c.finalizers);
    if other {
      return ReconcileResult(0, None), [];
    }
    var err;
    err, calls := ClaimComponent(c, env);
    return ReconcileResult(0, err), calls;
  }

  method HandleDeletion(c: Component, update: Outcome) returns (res: ReconcileResult, calls: seq<Call>)
    modifies c
    ensures Step(c.State(), res, calls) == Deletion(old(c.State()), update)
  {
    if CoordinationFinalizer in c.finalizers {
      return ReconcileResult(CoordinationRequeue, None), [];
    }
    calls := [];
    if HandlerFinalizer in c.finalizers {
      c.phase := Terminating;
      c.message := "Cleaning up resources via helm handler";
      calls := calls + [StatusUpdate(c.State())];
      c.finalizers := RemoveFinalizer(c.finalizers, HandlerFinalizer);
      calls := calls + [Update(c.State())];
      if update.Fail? {
        return ReconcileResult(0, Some("failed to remove finalizer: " + update.error)), calls;
      }
    }
    return ReconcileResult(0, None), calls;
  }

  method Reconcile(c: Component, env: HelmEnv) returns (res: ReconcileResult, calls: seq<Call>, plan: Option<Plan>)
    modifies c
    ensures (Step(c.State(), res, calls), plan) ==
              ReconcileStep(c.handler, c.deleting, c.config, c.namespace, c.name, old(c.State()), env)
  {
    if c.handler != HandlerName {
      return ReconcileResult(0, None), [], None;
    }
    if c.deleting {
      res, calls := HandleDeletion(c, env.deletionUpdate);
      return res, calls, None;
    }
    res, calls := RunClaimingProtocol(c, env.claim);
    if res.err.Some? {
      return res, calls, None;
    }
    if HandlerFinalizer !in c.finalizers {
      return res, calls, None;
    }
    var config := ParseHelmConfig(c.config);
    if config.Err? {
      c.phase := Failed;
      c.message := "Configuration error: " + config.error;
      calls := calls + [StatusUpdate(c.State())];
      return ReconcileResult(0, Some(config.error)), calls, None;
    }
    var releaseName := GenerateReleaseName(c.namespace, c.name);
    var targetNamespace := c.namespace;
    if config.value.namespace != "" {
      targetNamespace := config.value.namespace;
    }
    return res, calls, Some(Plan(releaseName, targetNamespace, config.value));
  }

  // ---------------------------------------------------------------------
  // Properties of the protocols

  /** A component that is ours is left alone by the claiming protocol, although our finalizer is a handler finalizer. */
  lemma ClaimedByUsFirst(s: ComponentState, env: ClaimEnv)
    requires IsClaimedByUs(s)
    ensures HasHandlerFinalizer(s.finalizers)
    ensures ClaimingProtocol(s, env) == Step(s, ReconcileResult(0, None), [])
  {
    var i :| 0 <= i < |s.finalizers| && s.finalizers[i] == HandlerFinalizer;
    FinalizerKinds(HandlerFinalizer, CoordinationFinalizer);
  }

  /** Another handler's lifecycle finalizer blocks the claim and nothing is written. */
  lemma OtherHandlerBlocks(s: ComponentState, env: ClaimEnv, i: nat)
    requires !IsClaimedByUs(s) && i < |s.finalizers| && IsHandlerFinalizer(s.finalizers[i])
    ensures ClaimingProtocol(s, env) == Step(s, ReconcileResult(0, None), [])
  {
  }

  /** The RDS handler's finalizer, as in the claiming tests. */
  lemma RdsFinalizerBlocks(f: string)
    requires f == "rds.deployment-orchestrator.io/lifecycle"
    ensures IsHandlerFinalizer(f)
  {
    assert f[|f| - |LifecycleSuffix|..] == LifecycleSuffix;
    assert f[0] != CompositionPrefix[0];
  }

  /** A free component is claimed by appending exactly our finalizer and recording the claim. */
  lemma FreeComponentClaimed(s: ComponentState, env: ClaimEnv)
    requires !IsClaimedByUs(s) && !HasHandlerFinalizer(s.finalizers)
    ensures var step := ClaimingProtocol(s, env);
      step.state.finalizers == s.finalizers + [HandlerFinalizer] &&
      IsClaimedByUs(step.state) &&
      (env.update.Pass? ==>
         step.state.phase == Claimed && step.state.claimedBy == "helm" && step.state.claimedAt.Some? &&
         step.state.message == "Claimed by helm handler" &&
         (step.result.err.None? <==> env.statusUpdate.Pass?)) &&
      (env.update.Fail? ==> step.state.phase == s.phase && step.calls == [Update(step.state)])
  {
  }

  /** The claim only ever adds our finalizer: every other one stays, and none appears. */
  lemma ClaimOnlyAddsOurs(s: ComponentState, env: ClaimEnv)
    ensures var fs := ClaimingProtocol(s, env).state.finalizers;
      forall f :: f != HandlerFinalizer ==> (f in fs <==> f in s.finalizers)
  {
  }

  /** While the coordination finalizer is present, deletion waits five seconds and changes nothing. */
  lemma DeletionWaitsForCoordination(s: ComponentState, update: Outcome)
    requires CoordinationFinalizer in s.finalizers
    ensures Deletion(s, update) == Step(s, ReconcileResult(5, None), [])
  {
  }

  /** A component that is not ours is not touched by deletion. */
  lemma DeletionIgnoresOthers(s: ComponentState, update: Outcome)
    requires CoordinationFinalizer !in s.finalizers && !IsClaimedByUs(s)
    ensures Deletion(s, update) == Step(s, ReconcileResult(0, None), [])
  {
  }

  /** Deleting our component marks it Terminating and removes only our finalizer. */
  lemma DeletionReleasesOnlyOurs(s: ComponentState, update: Outcome)
    requires CoordinationFinalizer !in s.finalizers && IsClaimedByUs(s)
    ensures var step := Deletion(s, update);
      step.state.phase == Terminating && step.state.message == "Cleaning up resources via helm handler" &&
      HandlerFinalizer !in step.state.finalizers &&
      (forall f :: f != HandlerFinalizer ==> (f in step.state.finalizers <==> f in s.finalizers)) &&
      (update.Pass? <==> step.result.err.None?)
  {
  }

  /** Components of other handlers are ignored outright. */
  lemma OtherHandlersIgnored(handler: string, deleting: bool, config: Option<JsonText>, namespace: string,
                             name: string, s: ComponentState, env: HelmEnv)
    requires handler != "helm"
    ensures ReconcileStep(handler, deleting, config, namespace, name, s, env) ==
              (Step(s, ReconcileResult(0, None), []), None)
  {
  }

  /** A claimed component with a bad configuration fails with the configuration error. */
  lemma ConfigurationErrorFails(config: Option<JsonText>, namespace: string, name: string, s: ComponentState, env: HelmEnv)
    requires IsClaimedByUs(s) && ParseHelmConfig(config).Err?
    ensures var (step, plan) := ReconcileStep(HandlerName, false, config, namespace, name, s, env);
      plan.None? && step.state.phase == Failed &&
      step.state.message == "Configuration error: " + ParseHelmConfig(config).error &&
      step.result.err == Some(ParseHelmConfig(config).error)
  {
    ClaimedByUsFirst(s, env.claim);
  }

  /** A successful reconciliation of our component plans the release name and the target namespace. */
  lemma PlanOfClaimedComponent(config: Option<JsonText>, namespace: string, name: string, s: ComponentState, env: HelmEnv)
    requires IsClaimedByUs(s) && ParseHelmConfig(config).Ok?
    ensures var (step, plan) := ReconcileStep(HandlerName, false, config, namespace, name, s, env);
      var c := ParseHelmConfig(config).value;
      step == Step(s, ReconcileResult(0, None), []) &&
      plan == Some(Plan(namespace + "-" + name, if c.namespace != "" then c.namespace else namespace, c))
  {
    ClaimedByUsFirst(s, env.claim);
  }
}
