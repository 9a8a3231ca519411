// The Component resource as the controllers see it during one
// reconciliation: its identity, its finalizer list and its status, plus the
// controller-runtime helpers the controllers use on the finalizer list and
// the result a reconciliation returns.
module Components {
  import opened Wrappers
  import opened Json

  /** `Status.Phase`. */
  datatype Phase = Pending | Claimed | Deploying | Ready | Failed | Terminating

  /** The spelling of a phase in a message. */
  function PhaseName(p: Phase): string
  {
    match p
    case Pending => "Pending"
    case Claimed => "Claimed"
    case Deploying => "Deploying"
    case Ready => "Ready"
    case Failed => "Failed"
    case Terminating => "Terminating"
  }

  /** The mutable part of a component: finalizers and status. */
  datatype ComponentState = ComponentState(
    finalizers: seq<string>,
    phase: Phase,
    message: string,
    claimedBy: string,
    claimedAt: Option<int>)

  /** A call a reconciliation makes, in the order it makes them. */
  datatype Call =
    | Update(written: ComponentState)          // `r.Update`: writes metadata, including finalizers
    | StatusUpdate(written: ComponentState)    // `r.Status().Update`: writes the status
    | DeployCall
    | UpgradeCall
    | DeleteCall
    | CheckDeploymentCall
    | CheckDeletionCall

  /** `ctrl.Result` with the returned error; `requeueAfter` in seconds, 0 for none. */
  datatype ReconcileResult = ReconcileResult(requeueAfter: nat, err: Option<string>)

  /** The component after a pass, what the pass returned, and the calls it made. */
  datatype Step = Step(state: ComponentState, result: ReconcileResult, calls: seq<Call>)

  /** The error a status write returns, as an optional message. */
  function ErrorOf(o: Outcome): (e: Option<string>)
    ensures e.None? <==> o.Pass?
  {
    match o
    case Pass => None
    case Fail(m) => Some(m)
  }

  // ---------------------------------------------------------------------
  // controllerutil finalizer helpers

  /** `controllerutil.AddFinalizer`: appended unless already present. */
  function AddFinalizer(fs: seq<string>, f: string): (r: seq<string>)
    ensures f in r
    ensures forall x :: x in r <==> x in fs || x == f
    ensures f in fs ==> r == fs
    ensures f !in fs ==> r == fs + [f]
  {
    if f in fs then fs else fs + [f]
  }

  /** `controllerutil.RemoveFinalizer`: every occurrence of `f` removed, the others kept in order. */
  function RemoveFinalizer(fs: seq<string>, f: string): (r: seq<string>)
    ensures f !in r
    ensures forall x :: x in r <==> x in fs && x != f
    ensures |r| <= |fs|
    ensures f !in fs ==> r == fs
  {
    if fs == [] then []
    else if fs[0] == f then RemoveFinalizer(fs[1..], f)
    else [fs[0]] + RemoveFinalizer(fs[1..], f)
  }

  /** Removing keeps the relative order of the other finalizers. */
  lemma {:induction false} RemoveKeepsOrder(fs: seq<string>, f: string, i: nat, j: nat)
    requires i < j < |fs| && fs[i] != f && fs[j] != f
    ensures exists a, b :: 0 <= a < b < |RemoveFinalizer(fs, f)| &&
              RemoveFinalizer(fs, f)[a] == fs[i] && RemoveFinalizer(fs, f)[b] == fs[j]
  {
    var rest := RemoveFinalizer(fs[1..], f);
    if i == 0 {
      assert fs[j] == fs[1..][j - 1];
      assert fs[j] in rest;
      var b :| 0 <= b < |rest| && rest[b] == fs[j];
      assert RemoveFinalizer(fs, f) == [fs[0]] + rest;
      assert RemoveFinalizer(fs, f)[0] == fs[i] && RemoveFinalizer(fs, f)[b + 1] == fs[j];
    } else {
      RemoveKeepsOrder(fs[1..], f, i - 1, j - 1);
      var a, b :| 0 <= a < b < |rest| && rest[a] == fs[1..][i - 1] && rest[b] == fs[1..][j - 1];
      if fs[0] == f {
        assert RemoveFinalizer(fs, f) == rest;
        assert RemoveFinalizer(fs, f)[a] == fs[i] && RemoveFinalizer(fs, f)[b] == fs[j];
      } else {
        assert RemoveFinalizer(fs, f) == [fs[0]] + rest;
        assert RemoveFinalizer(fs, f)[a + 1] == fs[i] && RemoveFinalizer(fs, f)[b + 1] == fs[j];
      }
    }
  }

  /** Adding then removing the same finalizer leaves exactly the others. */
  lemma AddThenRemove(fs: seq<string>, f: string)
    requires f !in fs
    ensures RemoveFinalizer(AddFinalizer(fs, f), f) == fs
  {
    RemoveAppended(fs, f);
  }

  lemma {:induction false} RemoveAppended(fs: seq<string>, f: string)
    requires f !in fs
    ensures RemoveFinalizer(fs + [f], f) == fs
  {
    if fs != [] {
      assert (fs + [f])[1..] == fs[1..] + [f];
      RemoveAppended(fs[1..], f);
    } else {
      assert ([f])[1..] == [];
    }
  }

  /**
   * A component during one reconciliation.  The metadata, the specification
   * and the deletion mark are fixed for the reconciliation; finalizers and
   * status are updated in place.
   */
  class Component {
    const name: string
    const namespace: string
    const handler: string        // `Spec.Handler`
    const config: Option<JsonText>   // `Spec.Config`
    const deleting: bool         // `DeletionTimestamp != nil`
    const dirty: bool            // the specification changed since the last deployment
    var finalizers: seq<string>
    var phase: Phase
    var message: string
    var claimedBy: string
    var claimedAt: Option<int>

    /** A component with the given finalizers and an empty status. */
    constructor (name: string, namespace: string, handler: string, config: Option<JsonText>,
                 deleting: bool, dirty: bool, finalizers: seq<string>)
      ensures this.name == name && this.namespace == namespace && this.handler == handler
      ensures this.config == config && this.deleting == deleting && this.dirty == dirty
      ensures State() == ComponentState(finalizers, Pending, "", "", None)
    {
      this.name := name;
      this.namespace := namespace;
      this.handler := handler;
      this.config := config;
      this.deleting := deleting;
      this.dirty := dirty;
      this.finalizers := finalizers;
      phase := Pending;
      message := "";
      claimedBy := "";
      claimedAt := None;
    }

    /** The finalizers and status as one value. */
    function State(): ComponentState
      reads this
    {
      ComponentState(finalizers, phase, message, claimedBy, claimedAt)
    }
  }
}
