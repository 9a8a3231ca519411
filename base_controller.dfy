// The generic component reconciler: the creation and deletion state
// machines shared by every provider.  The handler-specific operations
// (deploy, upgrade, delete and their progress checks), the claim validator
// and the Kubernetes writes enter as outcomes; the reconciler's own logic is
// which call it makes next, what it writes into the component and what it
// returns.
module BaseController {
  import opened Wrappers
  import opened Components

  /** `ComponentHandlerConfig`, with the handler's lifecycle finalizer; durations in seconds. */
  datatype HandlerConfig = HandlerConfig(
    handlerName: string,
    finalizer: string,
    defaultRequeue: nat,
    statusCheckRequeue: nat,
    errorRequeue: nat)

  /** What `CheckDeployment` / `CheckDeletion` report: done, an I/O error, a permanent failure. */
  datatype CheckOutcome = CheckOutcome(done: bool, ioErr: Option<string>, failure: Option<string>)

  /** Outcomes of the calls one creation pass may make, in order. */
  datatype CreationEnv = CreationEnv(
    canClaim: Outcome,            // `CanClaim`
    update: Outcome,              // writing the new finalizer
    statusUpdate: Outcome,        // the first status write of the pass
    operation: Outcome,           // `Deploy` or `Upgrade`
    check: CheckOutcome,          // `CheckDeployment`
    finalStatusUpdate: Outcome,   // the status write after a failed operation
    now: int)                     // the clock reading the claim stamps

  /** Outcomes of the calls one deletion pass may make, in order. */
  datatype DeletionEnv = DeletionEnv(
    canDelete: Outcome,           // `CanDelete`
    statusUpdate: Outcome,        // the status write of the pass
    delete: Outcome,              // `Delete`
    check: CheckOutcome,          // `CheckDeletion`
    update: Outcome)              // writing the finalizer removal

  /** Setting `Deploying`, then running `op` (deploy or upgrade). */
  function StartOperation(cfg: HandlerConfig, s: ComponentState, env: CreationEnv, op: Call): Step
  {
    var deploying := s.(phase := Deploying);
    if env.statusUpdate.Fail? then
      Step(deploying, ReconcileResult(cfg.errorRequeue, Some(env.statusUpdate.error)), [StatusUpdate(deploying)])
    else if env.operation.Fail? then
      var failed := deploying.(phase := Failed, message := env.operation.error);
      Step(failed, ReconcileResult(0, ErrorOf(env.finalStatusUpdate)),
           [StatusUpdate(deploying), op, StatusUpdate(failed)])
    else
      Step(deploying, ReconcileResult(cfg.statusCheckRequeue, None), [StatusUpdate(deploying), op])
  }

  /** `handleCreation` as a function of the component before the pass. */
  function Creation(cfg: HandlerConfig, s: ComponentState, dirty: bool, env: CreationEnv): Step
  {
    if env.canClaim.Fail? then
      Step(s, ReconcileResult(0, Some("Component not for us: " + env.canClaim.error)), [])
    else if cfg.finalizer !in s.finalizers then
      var claiming := s.(finalizers := AddFinalizer(s.finalizers, cfg.finalizer));
      if env.update.Fail? then
        Step(claiming, ReconcileResult(0, Some("failed to claim component: " + env.update.error)), [Update(claiming)])
      else
        var claimed := claiming.(phase := Claimed, claimedBy := cfg.handlerName, claimedAt := Some(env.now));
        Step(claimed, ReconcileResult(0, ErrorOf(env.statusUpdate)), [Update(claiming), StatusUpdate(claimed)])
    else if s.phase == Claimed then
      StartOperation(cfg, s, env, DeployCall)
    else if s.phase == Deploying then
      if env.check.ioErr.Some? then
        Step(s, ReconcileResult(cfg.errorRequeue, env.check.ioErr), [CheckDeploymentCall])
      else if env.check.failure.Some? then
        var failed := s.(phase := Failed, message := env.check.failure.value);
        Step(failed, ReconcileResult(0, ErrorOf(env.statusUpdate)), [CheckDeploymentCall, StatusUpdate(failed)])
      else if env.check.done then
        var ready := s.(phase := Ready);
        Step(ready, ReconcileResult(0, ErrorOf(env.statusUpdate)), [CheckDeploymentCall, StatusUpdate(ready)])
      else
        Step(s, ReconcileResult(cfg.statusCheckRequeue, None), [CheckDeploymentCall])
    else if s.phase == Ready || s.phase == Failed then
      if !dirty then Step(s, ReconcileResult(0, None), [])
      else StartOperation(cfg, s, env, UpgradeCall)
    else
      Step(s, ReconcileResult(0, Some("Component in unexpected phase: " + PhaseName(s.phase))), [])
  }

  /** `handleDeletion` as a function of the component before the pass. */
  function Deletion(cfg: HandlerConfig, s: ComponentState, env: DeletionEnv): Step
  {
    if env.canDelete.Fail? then
      Step(s, ReconcileResult(cfg.defaultRequeue, Some("cannot proceed with deletion: " + env.canDelete.error)), [])
    else if s.phase != Terminating then
      var terminating := s.(phase := Terminating, message := "Initiating cleanup");
      if env.statusUpdate.Fail? then
        Step(terminating, ReconcileResult(cfg.errorRequeue, None), [StatusUpdate(terminating)])
      else if env.delete.Fail? then
        var failed := terminating.(message := "Cleanup initiation failed: " + env.delete.error);
        Step(failed, ReconcileResult(cfg.statusCheckRequeue, None),
             [StatusUpdate(terminating), DeleteCall, StatusUpdate(failed)])
      else
        Step(terminating, ReconcileResult(cfg.statusCheckRequeue, None), [StatusUpdate(terminating), DeleteCall])
    else if env.check.ioErr.Some? then
      Step(s, ReconcileResult(cfg.errorRequeue, env.check.ioErr), [CheckDeletionCall])
    else if env.check.failure.Some? then
      var failed := s.(message := env.check.failure.value);
      Step(failed, ReconcileResult(0, ErrorOf(env.statusUpdate)), [CheckDeletionCall, StatusUpdate(failed)])
    else if !env.check.done then
      Step(s, ReconcileResult(cfg.statusCheckRequeue, None), [CheckDeletionCall])
    else
      var released := s.(finalizers := RemoveFinalizer(s.finalizers, cfg.finalizer));
      if env.update.Fail? then
        Step(released, ReconcileResult(0, Some("failed to remove finalizer: " + env.update.error)),
             [CheckDeletionCall, Update(released)])
      else
        Step(released, ReconcileResult(0, None), [CheckDeletionCall, Update(released)])
  }

  // ---------------------------------------------------------------------
  // The reconciler, updating the component in place

  /** `handleCreation`: claim, start deploying, watch the deployment, upgrade when dirty. */
  method HandleCreation(cfg: HandlerConfig, c: Component, env: CreationEnv) returns (res: ReconcileResult, calls: seq<Call>)
    modifies c
    ensures Step(c.State(), res, calls) == Creation(cfg, old(c.State()), c.dirty, env)
  {
    calls := [];
    if env.canClaim.Fail? {
      return ReconcileResult(0, Some("Component not for us: " + env.canClaim.error)), calls;
    }
    if cfg.finalizer !in c.finalizers {
      c.finalizers := AddFinalizer(c.finalizers, cfg.finalizer);
      calls := calls + [Update(c.State())];
      if env.update.Fail? {
        return ReconcileResult(0, Some("failed to claim component: " + env.update.error)), calls;
      }
      c.phase, c.claimedBy, c.claimedAt := Claimed, cfg.handlerName, Some(env.now);
      calls := calls + [StatusUpdate(c.State())];
      return ReconcileResult(0, ErrorOf(env.statusUpdate)), calls;
    }
    if c.phase == Claimed {
      res, calls := RunOperation(cfg, c, env, DeployCall);
      return;
    }
    if c.phase == Deploying {
      calls := calls + [CheckDeploymentCall];
      if env.check.ioErr.Some? {
        return ReconcileResult(cfg.errorRequeue, env.check.ioErr), calls;
      }
      if env.check.failure.Some? {
        c.phase, c.message := Failed, env.check.failure.value;
        calls := calls + [StatusUpdate(c.State())];
        return ReconcileResult(0, ErrorOf(env.statusUpdate)), calls;
      }
      if env.check.done {
        c.phase := Ready;
        calls := calls + [StatusUpdate(c.State())];
        return ReconcileResult(0, ErrorOf(env.statusUpdate)), calls;
      }
      return ReconcileResult(cfg.statusCheckRequeue, None), calls;
    }
    if c.phase == Ready || c.phase == Failed {
      if !c.dirty {
        return ReconcileResult(0, None), calls;
      }
      res, calls := RunOperation(cfg, c, env, UpgradeCall);
      return;
    }
    return ReconcileResult(0, Some("Component in unexpected phase: " + PhaseName(c.phase))), calls;
  }

  /** The deploying status is written before the operation runs, so a failed write changes nothing outside. */
  method RunOperation(cfg: HandlerConfig, c: Component, env: CreationEnv, op: Call) returns (res: ReconcileResult, calls: seq<Call>)
    modifies c
    ensures Step(c.State(), res, calls) == StartOperation(cfg, old(c.State()), env, op)
  {
    c.phase := Deploying;
    calls := [StatusUpdate(c.State())];
    if env.statusUpdate.Fail? {
      return ReconcileResult(cfg.errorRequeue, Some(env.statusUpdate.error)), calls;
    }
    calls := calls + [op];
    if env.operation.Fail? {
      c.phase, c.message := Failed, env.operation.error;
      calls := calls + [StatusUpdate(c.State())];
      return ReconcileResult(0, ErrorOf(env.finalStatusUpdate)), calls;
    }
    return ReconcileResult(cfg.statusCheckRequeue, None), calls;
  }

  /** `handleDeletion`: start the cleanup once, then watch it and release the finalizer when done. */
  method HandleDeletion(cfg: HandlerConfig, c: Component, env: DeletionEnv) returns (res: ReconcileResult, calls: seq<Call>)
    modifies c
    ensures Step(c.State(), res, calls) == Deletion(cfg, old(c.State()), env)
  {
    calls := [];
    if env.canDelete.Fail? {
      return ReconcileResult(cfg.defaultRequeue, Some("cannot proceed with deletion: " + env.canDelete.error)), calls;
    }
    if c.phase != Terminating {
      c.phase, c.message := Terminating, "Initiating cleanup";
      calls := calls + [StatusUpdate(c.State())];
      if env.statusUpdate.Fail? {
        return ReconcileResult(cfg.errorRequeue, None), calls;
      }
      calls := calls + [DeleteCall];
      if env.delete.Fail? {
        c.message := "Cleanup initiation failed: " + env.delete.error;
        calls := calls + [StatusUpdate(c.State())];
      }
      return ReconcileResult(cfg.statusCheckRequeue, None), calls;
    }
    calls := calls + [CheckDeletionCall];
    if env.check.ioErr.Some? {
      return ReconcileResult(cfg.errorRequeue, env.check.ioErr), calls;
    }
    if env.check.failure.Some? {
      c.message := env.check.failure.value;
      calls := calls + [StatusUpdate(c.State())];
      return ReconcileResult(0, ErrorOf(env.statusUpdate)), calls;
    }
    if !env.check.done {
      return ReconcileResult(cfg.statusCheckRequeue, None), calls;
    }
    c.finalizers := RemoveFinalizer(c.finalizers, cfg.finalizer);
    calls := calls + [Update(c.State())];
    if env.update.Fail? {
      return ReconcileResult(0, Some("failed to remove finalizer: " + env.update.error)), calls;
    }
    return ReconcileResult(0, None), calls;
  }

  /** `Reconcile`: a component marked for deletion takes the deletion path, any other the creation path. */
  method Reconcile(cfg: HandlerConfig, c: Component, creation: CreationEnv, deletion: DeletionEnv)
    returns (res: ReconcileResult, calls: seq<Call>)
    modifies c
    ensures c.deleting ==> Step(c.State(), res, calls) == Deletion(cfg, old(c.State()), deletion)
    ensures !c.deleting ==> Step(c.State(), res, calls) == Creation(cfg, old(c.State()), c.dirty, creation)
  {
    if c.deleting {
      res, calls := HandleDeletion(cfg, c, deletion);
    } else {
      res, calls := HandleCreation(cfg, c, creation);
    }
  }

  // ---------------------------------------------------------------------
  // Properties of the creation protocol

  /** A rejected claim returns an error and touches nothing. */
  lemma CanClaimFailureChangesNothing(cfg: HandlerConfig, s: ComponentState, dirty: bool, env: CreationEnv)
    requires env.canClaim.Fail?
    ensures var step := Creation(cfg, s, dirty, env);
      step.state == s && step.calls == [] &&
      step.result == ReconcileResult(0, Some("Component not for us: " + env.canClaim.error))
  {
  }

  /** Claiming adds only the finalizer and the claim (phase, claimant and time), and never deploys in the same pass. */
  lemma ClaimDoesNotDeploy(cfg: HandlerConfig, s: ComponentState, dirty: bool, env: CreationEnv)
    requires env.canClaim.Pass? && cfg.finalizer !in s.finalizers
    ensures var step := Creation(cfg, s, dirty, env);
      DeployCall !in step.calls && UpgradeCall !in step.calls &&
      step.state.finalizers == s.finalizers + [cfg.finalizer] &&
      step.result.requeueAfter == 0 &&
      (env.update.Pass? ==> step.state == s.(finalizers := s.finalizers + [cfg.finalizer], phase := Claimed,
                                              claimedBy := cfg.handlerName, claimedAt := Some(env.now)))
  {
  }

  /** Every deploy or upgrade call comes right after a status write that set Deploying. */
  ghost predicate OperationsFollowDeploying(calls: seq<Call>)
  {
    forall i :: 0 <= i < |calls| && (calls[i] == DeployCall || calls[i] == UpgradeCall) ==>
      i > 0 && calls[i - 1].StatusUpdate? && calls[i - 1].written.phase == Deploying
  }

  lemma DeployingBeforeOperation(cfg: HandlerConfig, s: ComponentState, dirty: bool, env: CreationEnv)
    ensures OperationsFollowDeploying(Creation(cfg, s, dirty, env).calls)
  {
  }

  /** From Claimed: a failed deploy leaves the component Failed with the error; success requeues for a check. */
  lemma DeployOutcome(cfg: HandlerConfig, s: ComponentState, dirty: bool, env: CreationEnv)
    requires env.canClaim.Pass? && cfg.finalizer in s.finalizers && s.phase == Claimed
    requires env.statusUpdate.Pass?
    ensures var step := Creation(cfg, s, dirty, env);
      DeployCall in step.calls &&
      (env.operation.Fail? ==> step.state.phase == Failed && step.state.message == env.operation.error &&
                               step.result.requeueAfter == 0) &&
      (env.operation.Pass? ==> step.state.phase == Deploying &&
                               step.result == ReconcileResult(cfg.statusCheckRequeue, None))
  {
  }

  /** A failed Deploying write requeues after the error delay and never deploys. */
  lemma DeployingWriteFailure(cfg: HandlerConfig, s: ComponentState, dirty: bool, env: CreationEnv)
    requires env.canClaim.Pass? && cfg.finalizer in s.finalizers && s.phase == Claimed
    requires env.statusUpdate.Fail?
    ensures var step := Creation(cfg, s, dirty, env);
      DeployCall !in step.calls && step.result == ReconcileResult(cfg.errorRequeue, Some(env.statusUpdate.error))
  {
  }

  /** The check result of a deploying component is read in a fixed order: I/O error, failure, ready, in progress. */
  lemma DeploymentCheckOrder(cfg: HandlerConfig, s: ComponentState, dirty: bool, env: CreationEnv)
    requires env.canClaim.Pass? && cfg.finalizer in s.finalizers && s.phase == Deploying
    ensures var step := Creation(cfg, s, dirty, env);
      (env.check.ioErr.Some? ==>
         step.state == s && step.result == ReconcileResult(cfg.errorRequeue, env.check.ioErr)) &&
      (env.check.ioErr.None? && env.check.failure.Some? ==>
         step.state.phase == Failed && step.state.message == env.check.failure.value) &&
      (env.check.ioErr.None? && env.check.failure.None? && env.check.done ==>
         step.state == s.(phase := Ready)) &&
      (env.check.ioErr.None? && env.check.failure.None? && !env.check.done ==>
         step.state == s && step.result == ReconcileResult(cfg.statusCheckRequeue, None))
  {
  }

  /** A settled component is left alone unless its specification changed; then it is upgraded. */
  lemma SettledComponent(cfg: HandlerConfig, s: ComponentState, dirty: bool, env: CreationEnv)
    requires env.canClaim.Pass? && cfg.finalizer in s.finalizers && (s.phase == Ready || s.phase == Failed)
    ensures var step := Creation(cfg, s, dirty, env);
      (!dirty ==> step == Step(s, ReconcileResult(0, None), [])) &&
      (dirty ==> step == StartOperation(cfg, s, env, UpgradeCall))
  {
  }

  /** A claimed-by-us component in any other phase is an error and is not changed. */
  lemma UnexpectedPhase(cfg: HandlerConfig, s: ComponentState, dirty: bool, env: CreationEnv)
    requires env.canClaim.Pass? && cfg.finalizer in s.finalizers
    requires s.phase == Pending || s.phase == Terminating
    ensures Creation(cfg, s, dirty, env) ==
      Step(s, ReconcileResult(0, Some("Component in unexpected phase: " + PhaseName(s.phase))), [])
  {
  }

  /** The phase moves that one creation pass can make. */
  predicate CreationMove(before: Phase, after: Phase)
  {
    after == before ||
    after == Claimed ||
    (before == Claimed && (after == Deploying || after == Failed)) ||
    (before == Deploying && (after == Ready || after == Failed)) ||
    ((before == Ready || before == Failed) && (after == Deploying || after == Failed))
  }

  /** Creation only moves phases forward, never releases a finalizer and never starts termination. */
  lemma CreationMoves(cfg: HandlerConfig, s: ComponentState, dirty: bool, env: CreationEnv)
    ensures var step := Creation(cfg, s, dirty, env);
      CreationMove(s.phase, step.state.phase) &&
      (forall f :: f in s.finalizers ==> f in step.state.finalizers) &&
      (step.state.phase == Terminating ==> s.phase == Terminating) &&
      (step.state.phase == Claimed && s.phase != Claimed ==> cfg.finalizer !in s.finalizers)
  {
  }

  // ---------------------------------------------------------------------
  // Properties of the deletion protocol

  /** Without the go-ahead the pass requeues after the default delay and changes nothing. */
  lemma CanDeleteFailureWaits(cfg: HandlerConfig, s: ComponentState, env: DeletionEnv)
    requires env.canDelete.Fail?
    ensures Deletion(cfg, s, env) ==
      Step(s, ReconcileResult(cfg.defaultRequeue, Some("cannot proceed with deletion: " + env.canDelete.error)), [])
  {
  }

  /** Every delete call comes right after the write that set Terminating. */
  lemma TerminatingBeforeDelete(cfg: HandlerConfig, s: ComponentState, env: DeletionEnv)
    ensures var calls := Deletion(cfg, s, env).calls;
      forall i :: 0 <= i < |calls| && calls[i] == DeleteCall ==>
        i > 0 && calls[i - 1].StatusUpdate? && calls[i - 1].written.phase == Terminating
  {
  }

  /** Starting the cleanup keeps the finalizer and requeues for a check, even when `Delete` fails. */
  lemma CleanupStartKeepsFinalizer(cfg: HandlerConfig, s: ComponentState, env: DeletionEnv)
    requires env.canDelete.Pass? && s.phase != Terminating
    ensures var step := Deletion(cfg, s, env);
      step.state.finalizers == s.finalizers && step.state.phase == Terminating && step.result.err.None? &&
      (env.statusUpdate.Pass? ==> DeleteCall in step.calls && step.result.requeueAfter == cfg.statusCheckRequeue) &&
      (env.statusUpdate.Pass? && env.delete.Fail? ==>
         step.state.message == "Cleanup initiation failed: " + env.delete.error)
  {
  }

  /**
   * The handler's finalizer is released only by a pass that found the
   * cleanup complete; the other finalizers are never touched.
   */
  lemma FinalizerReleasedOnlyWhenDeleted(cfg: HandlerConfig, s: ComponentState, env: DeletionEnv)
    ensures var step := Deletion(cfg, s, env);
      (cfg.finalizer in s.finalizers && cfg.finalizer !in step.state.finalizers ==>
         env.canDelete.Pass? && s.phase == Terminating && env.check.ioErr.None? &&
         env.check.failure.None? && env.check.done) &&
      (forall f :: f != cfg.finalizer ==> (f in step.state.finalizers <==> f in s.finalizers)) &&
      (env.canDelete.Pass? ==> step.state.phase == Terminating)
  {
  }

  /** A permanent cleanup failure is recorded in the message and keeps the finalizer. */
  lemma PermanentDeletionFailure(cfg: HandlerConfig, s: ComponentState, env: DeletionEnv)
    requires env.canDelete.Pass? && s.phase == Terminating && env.check.ioErr.None? && env.check.failure.Some?
    ensures var step := Deletion(cfg, s, env);
      step.state == s.(message := env.check.failure.value) && step.result.requeueAfter == 0
  {
  }

  /** A completed cleanup releases exactly the handler's finalizer. */
  lemma CompletedCleanup(cfg: HandlerConfig, s: ComponentState, env: DeletionEnv)
    requires env.canDelete.Pass? && s.phase == Terminating && env.check.ioErr.None? &&
             env.check.failure.None? && env.check.done
    ensures var step := Deletion(cfg, s, env);
      step.state.finalizers == RemoveFinalizer(s.finalizers, cfg.finalizer) &&
      (env.update.Pass? ==> step.result == ReconcileResult(0, None)) &&
      (env.update.Fail? ==> step.result.err == Some("failed to remove finalizer: " + env.update.error))
  {
  }
}
