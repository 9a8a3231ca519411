// The IAM role provider's deployment logic: reconciling the managed
// policies attached to a role (detach what is no longer wanted, then
// attach what is missing, reporting the real attachment state even after a
// partial failure), tag conversion, the trust-policy update and the status
// a deployment records.  AWS calls are modelled by their outcomes.
module IamRole {
  import opened Wrappers
  import opened Strings
  import opened Json
  import opened OperationResults

  function SetOf(s: seq<string>): set<string>
  {
    set x | x in s
  }

  /** `PolicyReconciliationResult`. */
  datatype PolicyReconciliationResult = PolicyReconciliationResult(
    attachedPolicies: seq<string>,
    attachedCount: int,
    detachedCount: int)

  /** An IAM call made by the reconciliation, in order. */
  datatype IamCall = Detach(arn: string) | Attach(arn: string)

  /** The answers of IAM: the listed attachments, and the outcome of detaching or attaching each ARN. */
  datatype AttachEnv = AttachEnv(
    list: Result<seq<string>>,
    detach: string -> Outcome,
    attach: string -> Outcome)

  /** What `reconcilePolicyAttachments` returns, with the calls it made. */
  datatype Reconciliation = Reconciliation(result: Option<PolicyReconciliationResult>, err: Option<string>, calls: seq<IamCall>)

  function DetachCalls(arns: seq<string>): (c: seq<IamCall>)
    ensures |c| == |arns| && forall i :: 0 <= i < |arns| ==> c[i] == Detach(arns[i])
  {
    seq(|arns|, i requires 0 <= i < |arns| => Detach(arns[i]))
  }

  function AttachCalls(arns: seq<string>): (c: seq<IamCall>)
    ensures |c| == |arns| && forall i :: 0 <= i < |arns| ==> c[i] == Attach(arns[i])
  {
    seq(|arns|, i requires 0 <= i < |arns| => Attach(arns[i]))
  }

  /** The position of the first ARN whose call fails. */
  function FirstFailure(arns: seq<string>, op: string -> Outcome): (r: Option<nat>)
    ensures r.Some? ==> r.value < |arns| && op(arns[r.value]).Fail?
    ensures r.Some? ==> forall j :: 0 <= j < r.value ==> op(arns[j]).Pass?
    ensures r.None? <==> forall j :: 0 <= j < |arns| ==> op(arns[j]).Pass?
  {
    if arns == [] then None
    else if op(arns[0]).Fail? then Some(0)
    else match FirstFailure(arns[1..], op)
      case None => None
      case Some(i) => Some(i + 1)
  }

  /** The sorted policies to attach: desired but not attached. */
  ghost function ToAttach(desired: seq<string>, current: seq<string>): seq<string>
  {
    SortedOf(SetOf(desired) - SetOf(current))
  }

  /** The sorted policies to detach: attached but not desired. */
  ghost function ToDetach(desired: seq<string>, current: seq<string>): seq<string>
  {
    SortedOf(SetOf(current) - SetOf(desired))
  }

  /** `reconcilePolicyAttachments`, outcome by outcome. */
  ghost function Reconcile(desired: seq<string>, env: AttachEnv): Reconciliation
  {
    match env.list
    case Err(e) => Reconciliation(None, Some(e), [])
    case Ok(current) =>
      ReconcileWith(SetOf(current), |current|, ToAttach(desired, current), ToDetach(desired, current), env)
  }

  /** The reconciliation once the current attachments (as a set, and the listed count) and both differences are known. */
  ghost function ReconcileWith(cur: set<string>, listed: int, toAttach: seq<string>, toDetach: seq<string>, env: AttachEnv): Reconciliation
  {
    if |toAttach| == 0 && |toDetach| == 0 then
      Reconciliation(Some(PolicyReconciliationResult(SortedOf(cur), 0, 0)), None, [])
    else match FirstFailure(toDetach, env.detach)
      case Some(i) => DetachFailed(cur, listed, toDetach, i, env)
      case None => AttachPhase(cur - SetOf(toDetach), toAttach, toDetach, env)
  }

  /** A detach failing at position `i`: the policies before it are gone, and the count follows its formula. */
  ghost function DetachFailed(cur: set<string>, listed: int, toDetach: seq<string>, i: nat, env: AttachEnv): Reconciliation
    requires i < |toDetach| && env.detach(toDetach[i]).Fail?
  {
    var remaining := cur - SetOf(toDetach[..i]);
    Reconciliation(
      Some(PolicyReconciliationResult(SortedOf(remaining), 0, |toDetach| - |remaining| + listed)),
      Some("failed to detach policy " + toDetach[i] + ": " + env.detach(toDetach[i]).error),
      DetachCalls(toDetach[..i + 1]))
  }

  /** Attaching, once every detach succeeded and left `afterDetach` attached. */
  ghost function AttachPhase(afterDetach: set<string>, toAttach: seq<string>, toDetach: seq<string>, env: AttachEnv): Reconciliation
  {
    match FirstFailure(toAttach, env.attach)
    case Some(j) =>
      Reconciliation(
        Some(PolicyReconciliationResult(SortedOf(afterDetach + SetOf(toAttach[..j])), j, |toDetach|)),
        Some("failed to attach policy " + toAttach[j] + ": " + env.attach(toAttach[j]).error),
        DetachCalls(toDetach) + AttachCalls(toAttach[..j + 1]))
    case None =>
      Reconciliation(
        Some(PolicyReconciliationResult(SortedOf(afterDetach + SetOf(toAttach)), |toAttach|, |toDetach|)),
        None,
        DetachCalls(toDetach) + AttachCalls(toAttach))
  }

  /** The first failure is the one a loop stops at: every earlier call passed and this one failed. */
  lemma {:induction false} FirstFailureAt(arns: seq<string>, op: string -> Outcome, i: nat)
    requires i < |arns| && op(arns[i]).Fail?
    requires forall j :: 0 <= j < i ==> op(arns[j]).Pass?
    ensures FirstFailure(arns, op) == Some(i)
  {
    if i > 0 {
      assert op(arns[0]).Pass?;
      assert arns[1..][i - 1] == arns[i];
      FirstFailureAt(arns[1..], op, i - 1);
    }
  }

  /**
   * `reconcilePolicyAttachments`: list the attachments, compute both
   * differences, detach in sorted order, then attach in sorted order,
   * tracking the attachments actually in place.
   */
  method ReconcilePolicyAttachments(desired: seq<string>, env: AttachEnv) returns (r: Reconciliation)
    ensures r == Reconcile(desired, env)
  {
    if env.list.Err? {
      return Reconciliation(None, Some(env.list.error), []);
    }
    var current := env.list.value;
    var cur := SetOf(current);
    var des := SetOf(desired);
    var toAttach := SortedKeys(des - cur);
    var toDetach := SortedKeys(cur - des);
    if |toAttach| == 0 && |toDetach| == 0 {
      var sorted := SortedKeys(cur);
      return Reconciliation(Some(PolicyReconciliationResult(sorted, 0, 0)), None, []);
    }
    r := ApplyDifferences(cur, |current|, toAttach, toDetach, env);
  }

  /** Detaching then attaching, once there is something to change. */
  method ApplyDifferences(cur: set<string>, listed: int, toAttach: seq<string>, toDetach: seq<string>, env: AttachEnv)
    returns (r: Reconciliation)
    requires |toAttach| > 0 || |toDetach| > 0
    ensures r == ReconcileWith(cur, listed, toAttach, toDetach, env)
  {
    var attached, detachCalls, failedDetach := DetachInOrder(toDetach, cur, env);
    if failedDetach.Some? {
      var i := failedDetach.value;
      var sorted := SortedKeys(attached);
      DetachFailedIs(cur, listed, toDetach, i, env, attached);
      return Reconciliation(
        Some(PolicyReconciliationResult(sorted, 0, |toDetach| - |attached| + listed)),
        Some("failed to detach policy " + toDetach[i] + ": " + env.detach(toDetach[i]).error),
        detachCalls);
    }
    var attachedNow, attachCalls, failedAttach := AttachInOrder(toAttach, attached, env);
    var sorted := SortedKeys(attachedNow);
    if failedAttach.Some? {
      var j := failedAttach.value;
      return Reconciliation(
        Some(PolicyReconciliationResult(sorted, j, |toDetach|)),
        Some("failed to attach policy " + toAttach[j] + ": " + env.attach(toAttach[j]).error),
        detachCalls + attachCalls);
    }
    return Reconciliation(Some(PolicyReconciliationResult(sorted, |toAttach|, |toDetach|)), None, detachCalls + attachCalls);
  }

  /** The detach loop: stops at the first failing call, which it still records. */
  method DetachInOrder(toDetach: seq<string>, cur: set<string>, env: AttachEnv)
    returns (attached: set<string>, calls: seq<IamCall>, failed: Option<nat>)
    ensures failed == FirstFailure(toDetach, env.detach)
    ensures failed.Some? ==> attached == cur - SetOf(toDetach[..failed.value]) && calls == DetachCalls(toDetach[..failed.value + 1])
    ensures failed.None? ==> attached == cur - SetOf(toDetach) && calls == DetachCalls(toDetach)
  {
    attached := cur;
    calls := [];
    var i := 0;
    while i < |toDetach|
      invariant 0 <= i <= |toDetach|
      invariant forall j :: 0 <= j < i ==> env.detach(toDetach[j]).Pass?
      invariant attached == cur - SetOf(toDetach[..i])
      invariant calls == DetachCalls(toDetach[..i])
    {
      var arn := toDetach[i];
      Snoc(toDetach, i);
      calls := calls + [Detach(arn)];
      if env.detach(arn).Fail? {
        FirstFailureAt(toDetach, env.detach, i);
        return attached, calls, Some(i);
      }
      RemoveOne(cur, SetOf(toDetach[..i]), arn);
      attached := attached - {arn};
      i := i + 1;
    }
    assert toDetach[..i] == toDetach;
    failed := None;
  }

  /** The attach loop: stops at the first failing call, which it still records. */
  method AttachInOrder(toAttach: seq<string>, base: set<string>, env: AttachEnv)
    returns (attached: set<string>, calls: seq<IamCall>, failed: Option<nat>)
    ensures failed == FirstFailure(toAttach, env.attach)
    ensures failed.Some? ==> attached == base + SetOf(toAttach[..failed.value]) && calls == AttachCalls(toAttach[..failed.value + 1])
    ensures failed.None? ==> attached == base + SetOf(toAttach) && calls == AttachCalls(toAttach)
  {
    attached := base;
    calls := [];
    EmptyPrefix(base, toAttach);
    var k := 0;
    while k < |toAttach|
      invariant 0 <= k <= |toAttach|
      invariant forall j :: 0 <= j < k ==> env.attach(toAttach[j]).Pass?
      invariant attached == base + SetOf(toAttach[..k])
      invariant calls == AttachCalls(toAttach[..k])
    {
      var arn := toAttach[k];
      Snoc(toAttach, k);
      calls := calls + [Attach(arn)];
      if env.attach(arn).Fail? {
        FirstFailureAt(toAttach, env.attach, k);
        return attached, calls, Some(k);
      }
      AddOne(base, SetOf(toAttach[..k]), arn);
      attached := attached + {arn};
      k := k + 1;
    }
    assert toAttach[..k] == toAttach;
    failed := None;
  }

  /** One more element of a prefix: its set and its calls grow by that element. */
  lemma Snoc(s: seq<string>, i: nat)
    requires i < |s|
    ensures SetOf(s[..i + 1]) == SetOf(s[..i]) + {s[i]}
    ensures DetachCalls(s[..i + 1]) == DetachCalls(s[..i]) + [Detach(s[i])]
    ensures AttachCalls(s[..i + 1]) == AttachCalls(s[..i]) + [Attach(s[i])]
  {
    assert s[..i + 1] == s[..i] + [s[i]];
  }

  lemma EmptyPrefix(base: set<string>, s: seq<string>)
    ensures base + SetOf(s[..0]) == base
    ensures AttachCalls(s[..0]) == []
  {
    assert s[..0] == [];
  }

  lemma DetachFailedIs(cur: set<string>, listed: int, toDetach: seq<string>, i: nat, env: AttachEnv, attached: set<string>)
    requires i < |toDetach| && env.detach(toDetach[i]).Fail?
    requires attached == cur - SetOf(toDetach[..i])
    ensures DetachFailed(cur, listed, toDetach, i, env) == Reconciliation(
      Some(PolicyReconciliationResult(SortedOf(attached), 0, |toDetach| - |attached| + listed)),
      Some("failed to detach policy " + toDetach[i] + ": " + env.detach(toDetach[i]).error),
      DetachCalls(toDetach[..i + 1]))
  {
  }

  lemma AddOne(base: set<string>, added: set<string>, x: string)
    ensures base + added + {x} == base + (added + {x})
  {
  }

  lemma RemoveOne(cur: set<string>, gone: set<string>, x: string)
    ensures cur - gone - {x} == cur - (gone + {x})
  {
  }

  // ---------------------------------------------------------------------
  // Properties of the reconciliation

  /** The attachment set after a sequence of calls, each applied only if IAM accepted it. */
  function Effect(s: set<string>, calls: seq<IamCall>, env: AttachEnv): set<string>
    decreases calls
  {
    if calls == [] then s
    else
      var next := match calls[0]
        case Detach(a) => if env.detach(a).Pass? then s - {a} else s
        case Attach(a) => if env.attach(a).Pass? then s + {a} else s;
      Effect(next, calls[1..], env)
  }

  lemma {:induction false} EffectAppend(s: set<string>, a: seq<IamCall>, b: seq<IamCall>, env: AttachEnv)
    ensures Effect(s, a + b, env) == Effect(Effect(s, a, env), b, env)
    decreases a
  {
    if a != [] {
      assert (a + b)[0] == a[0];
      assert (a + b)[1..] == a[1..] + b;
      var next := match a[0]
        case Detach(x) => if env.detach(x).Pass? then s - {x} else s
        case Attach(x) => if env.attach(x).Pass? then s + {x} else s;
      EffectAppend(next, a[1..], b, env);
    } else {
      assert a + b == b;
    }
  }

  /** Detaching a list of ARNs whose calls succeed removes exactly them; a failing last call changes nothing more. */
  lemma {:induction false} EffectOfDetaches(s: set<string>, arns: seq<string>, env: AttachEnv)
    requires forall j :: 0 <= j < |arns| ==> env.detach(arns[j]).Pass?
    ensures Effect(s, DetachCalls(arns), env) == s - SetOf(arns)
  {
    if arns != [] {
      assert DetachCalls(arns)[1..] == DetachCalls(arns[1..]);
      EffectOfDetaches(s - {arns[0]}, arns[1..], env);
      assert SetOf(arns) == {arns[0]} + SetOf(arns[1..]);
    }
  }

  lemma {:induction false} EffectOfAttaches(s: set<string>, arns: seq<string>, env: AttachEnv)
    requires forall j :: 0 <= j < |arns| ==> env.attach(arns[j]).Pass?
    ensures Effect(s, AttachCalls(arns), env) == s + SetOf(arns)
    decreases arns
  {
    if arns != [] {
      assert AttachCalls(arns)[1..] == AttachCalls(arns[1..]);
      EffectOfAttaches(s + {arns[0]}, arns[1..], env);
      assert SetOf(arns) == {arns[0]} + SetOf(arns[1..]);
    }
  }

  lemma FailedCallNoEffect(s: set<string>, c: IamCall, env: AttachEnv)
    requires c.Detach? ==> env.detach(c.arn).Fail?
    requires c.Attach? ==> env.attach(c.arn).Fail?
    ensures Effect(s, [c], env) == s
  {
    assert [c][1..] == [];
  }

  /** A detach that fails at `i` reports what the detaches before it left attached. */
  lemma DetachFailedReportsActual(cur: set<string>, listed: int, toDetach: seq<string>, i: nat, env: AttachEnv)
    requires i < |toDetach| && env.detach(toDetach[i]).Fail?
    requires forall j :: 0 <= j < i ==> env.detach(toDetach[j]).Pass?
    ensures var r := DetachFailed(cur, listed, toDetach, i, env);
      r.result.value.attachedPolicies == SortedOf(Effect(cur, r.calls, env))
  {
    assert toDetach[..i + 1] == toDetach[..i] + [toDetach[i]];
    assert DetachCalls(toDetach[..i + 1]) == DetachCalls(toDetach[..i]) + [Detach(toDetach[i])];
    EffectAppend(cur, DetachCalls(toDetach[..i]), [Detach(toDetach[i])], env);
    EffectOfDetaches(cur, toDetach[..i], env);
    FailedCallNoEffect(cur - SetOf(toDetach[..i]), Detach(toDetach[i]), env);
  }

  /** Once every detach passed, the attach phase reports what the calls made left attached. */
  lemma AttachPhaseReportsActual(cur: set<string>, toAttach: seq<string>, toDetach: seq<string>, env: AttachEnv)
    requires forall j :: 0 <= j < |toDetach| ==> env.detach(toDetach[j]).Pass?
    ensures var r := AttachPhase(cur - SetOf(toDetach), toAttach, toDetach, env);
      r.result.value.attachedPolicies == SortedOf(Effect(cur, r.calls, env))
  {
    var afterDetach := cur - SetOf(toDetach);
    EffectOfDetaches(cur, toDetach, env);
    if FirstFailure(toAttach, env.attach).Some? {
      var j := FirstFailure(toAttach, env.attach).value;
      assert toAttach[..j + 1] == toAttach[..j] + [toAttach[j]];
      assert AttachCalls(toAttach[..j + 1]) == AttachCalls(toAttach[..j]) + [Attach(toAttach[j])];
      EffectAppend(cur, DetachCalls(toDetach), AttachCalls(toAttach[..j + 1]), env);
      EffectAppend(afterDetach, AttachCalls(toAttach[..j]), [Attach(toAttach[j])], env);
      EffectOfAttaches(afterDetach, toAttach[..j], env);
      FailedCallNoEffect(afterDetach + SetOf(toAttach[..j]), Attach(toAttach[j]), env);
    } else {
      EffectAppend(cur, DetachCalls(toDetach), AttachCalls(toAttach), env);
      EffectOfAttaches(afterDetach, toAttach, env);
    }
  }

  /**
   * The reported attachments are, sorted, exactly the attachments the calls
   * made leave in place, whether the reconciliation succeeded or stopped at
   * a failed call.
   */
  lemma ReportsActualState(desired: seq<string>, env: AttachEnv)
    requires env.list.Ok?
    ensures var r := Reconcile(desired, env);
      r.result.Some? && r.result.value.attachedPolicies == SortedOf(Effect(SetOf(env.list.value), r.calls, env))
  {
    var current := env.list.value;
    var cur := SetOf(current);
    var toAttach := ToAttach(desired, current);
    var toDetach := ToDetach(desired, current);
    if |toAttach| == 0 && |toDetach| == 0 {
    } else if FirstFailure(toDetach, env.detach).Some? {
      DetachFailedReportsActual(cur, |current|, toDetach, FirstFailure(toDetach, env.detach).value, env);
    } else {
      AttachPhaseReportsActual(cur, toAttach, toDetach, env);
    }
  }

  /** Full success leaves exactly the desired policies attached, with both counts the sizes of the differences. */
  lemma FullSuccessIsDesired(desired: seq<string>, env: AttachEnv)
    requires env.list.Ok? && Reconcile(desired, env).err.None?
    ensures var r := Reconcile(desired, env).result.value;
      r.attachedPolicies == SortedOf(SetOf(desired)) &&
      r.attachedCount == |SetOf(desired) - SetOf(env.list.value)| &&
      r.detachedCount == |SetOf(env.list.value) - SetOf(desired)|
  {
    var current := env.list.value;
    var cur := SetOf(current);
    var des := SetOf(desired);
    var toAttach := ToAttach(desired, current);
    var toDetach := ToDetach(desired, current);
    var r := ReconcileWith(cur, |current|, toAttach, toDetach, env);
    assert r == Reconcile(desired, env);
    assert SetOf(toAttach) == des - cur && SetOf(toDetach) == cur - des;
    if |toAttach| == 0 && |toDetach| == 0 {
      assert cur == des;
    } else {
      assert FirstFailure(toDetach, env.detach).None?;
      assert FirstFailure(toAttach, env.attach).None?;
      Rebuild(cur, des);
      assert cur - SetOf(toDetach) + SetOf(toAttach) == des;
    }
  }

  lemma Rebuild(cur: set<string>, des: set<string>)
    ensures cur - (cur - des) + (des - cur) == des
  {
  }

  /** Equal sets make no calls and report the current attachments with both counts 0. */
  lemma NoChangesNoCalls(desired: seq<string>, env: AttachEnv)
    requires env.list.Ok? && SetOf(desired) == SetOf(env.list.value)
    ensures Reconcile(desired, env) == Reconciliation(Some(PolicyReconciliationResult(SortedOf(SetOf(desired)), 0, 0)), None, [])
  {
  }

  /** Detaches come before attaches, each naming a policy from its own set. */
  predicate OrderedCalls(calls: seq<IamCall>, detachable: set<string>, attachable: set<string>)
  {
    (forall i, j :: 0 <= i < j < |calls| && calls[i].Attach? ==> calls[j].Attach?) &&
    (forall k :: 0 <= k < |calls| ==>
      (calls[k].Detach? ==> calls[k].arn in detachable) && (calls[k].Attach? ==> calls[k].arn in attachable))
  }

  /** A run of detaches followed by a run of attaches, each drawn from its own set. */
  lemma CallsWithin(d: seq<string>, a: seq<string>, detachable: set<string>, attachable: set<string>)
    requires forall k :: 0 <= k < |d| ==> d[k] in detachable
    requires forall k :: 0 <= k < |a| ==> a[k] in attachable
    ensures OrderedCalls(DetachCalls(d) + AttachCalls(a), detachable, attachable)
  {
    var calls := DetachCalls(d) + AttachCalls(a);
    forall k | 0 <= k < |calls|
      ensures k < |d| ==> calls[k] == Detach(d[k])
      ensures k >= |d| ==> calls[k] == Attach(a[k - |d|])
    {
    }
  }

  /**
   * Every detach comes before every attach, only policies attached and not
   * desired are detached, and only policies desired and not attached are
   * attached.
   */
  lemma CallsInOrder(desired: seq<string>, env: AttachEnv)
    requires env.list.Ok?
    ensures OrderedCalls(Reconcile(desired, env).calls,
      SetOf(env.list.value) - SetOf(desired), SetOf(desired) - SetOf(env.list.value))
  {
    var current := env.list.value;
    var cur := SetOf(current);
    var des := SetOf(desired);
    var toAttach := ToAttach(desired, current);
    var toDetach := ToDetach(desired, current);
    assert forall k :: 0 <= k < |toDetach| ==> toDetach[k] in cur - des;
    assert forall k :: 0 <= k < |toAttach| ==> toAttach[k] in des - cur;
    CallsInOrderWith(cur, |current|, toAttach, toDetach, env, cur - des, des - cur);
  }

  lemma CallsInOrderWith(cur: set<string>, listed: int, toAttach: seq<string>, toDetach: seq<string>, env: AttachEnv,
                         detachable: set<string>, attachable: set<string>)
    requires forall k :: 0 <= k < |toDetach| ==> toDetach[k] in detachable
    requires forall k :: 0 <= k < |toAttach| ==> toAttach[k] in attachable
    ensures OrderedCalls(ReconcileWith(cur, listed, toAttach, toDetach, env).calls, detachable, attachable)
  {
    var r := ReconcileWith(cur, listed, toAttach, toDetach, env);
    if |toAttach| == 0 && |toDetach| == 0 {
    } else if FirstFailure(toDetach, env.detach).Some? {
      var i := FirstFailure(toDetach, env.detach).value;
      CallsWithin(toDetach[..i + 1], [], detachable, attachable);
      assert r.calls == DetachCalls(toDetach[..i + 1]) + AttachCalls([]);
    } else if FirstFailure(toAttach, env.attach).Some? {
      var j := FirstFailure(toAttach, env.attach).value;
      CallsWithin(toDetach, toAttach[..j + 1], detachable, attachable);
    } else {
      CallsWithin(toDetach, toAttach, detachable, attachable);
    }
  }

  /** The reported attachments are always sorted and free of duplicates. */
  lemma ReportedSorted(desired: seq<string>, env: AttachEnv)
    requires Reconcile(desired, env).result.Some?
    ensures StrictlySorted(Reconcile(desired, env).result.value.attachedPolicies)
  {
  }

  /** A failed listing returns no result and makes no call. */
  lemma ListFailure(desired: seq<string>, env: AttachEnv)
    requires env.list.Err?
    ensures Reconcile(desired, env) == Reconciliation(None, Some(env.list.error), [])
  {
  }

  /**
   * The detach-failure count is not the number of policies detached: when
   * the very first detach of two fails, nothing was detached, yet the count
   * is 2.
   */
  lemma DetachedCountWhenNothingDetached(desired: seq<string>, env: AttachEnv, a: string, b: string)
    requires a != b && desired == [] && env.list == Ok([a, b])
    requires env.detach(a).Fail? && env.detach(b).Fail?
    ensures Reconcile(desired, env).result.value.detachedCount == 2
    ensures Reconcile(desired, env).calls == [Detach(ToDetach(desired, [a, b])[0])]
  {
    var toDetach := ToDetach(desired, [a, b]);
    assert SetOf([a, b]) == {a, b};
    assert |toDetach| == 2;
    assert toDetach[0] in {a, b};
    assert toDetach[..0] == [];
    assert SetOf(toDetach[..0]) == {};
    assert DetachCalls(toDetach[..1]) == [Detach(toDetach[0])];
  }

  // ---------------------------------------------------------------------
  // Tags, trust policy and role deletion

  datatype Tag = Tag(key: string, value: string)

  /** `toIAMTags`: nil for no tags, otherwise one tag per entry, in map iteration order. */
  method ToIamTags(tags: map<string, string>) returns (r: Option<seq<Tag>>)
    ensures r.None? <==> |tags| == 0
    ensures r.Some? ==> |r.value| == |tags|
    ensures r.Some? ==> forall t :: t in r.value <==> t.key in tags && tags[t.key] == t.value
    ensures r.Some? ==> forall i, j :: 0 <= i < j < |r.value| ==> r.value[i].key != r.value[j].key
  {
    if |tags| == 0 {
      return None;
    }
    var result: seq<Tag> := [];
    var remaining := tags.Keys;
    while remaining != {}
      invariant remaining <= tags.Keys
      invariant |result| + |remaining| == |tags|
      invariant forall t :: t in result <==> t.key in tags && t.key !in remaining && tags[t.key] == t.value
      invariant forall i, j :: 0 <= i < j < |result| ==> result[i].key != result[j].key
      decreases remaining
    {
      var k :| k in remaining;
      assert forall t :: t in result ==> t.key != k;
      result := result + [Tag(k, tags[k])];
      remaining := remaining - {k};
    }
    return Some(result);
  }

  /** `updateTrustPolicy`: whether the update call is made, and the error returned. */
  datatype TrustUpdate = TrustUpdate(called: bool, err: Option<string>)

  function UpdateTrustPolicy(current: JsonText, desired: JsonText, update: Outcome): (t: TrustUpdate)
    ensures t.called <==> !JsonEquals(current, desired)
    ensures t.err.Some? ==> t.called && update.Fail?
  {
    if JsonEquals(current, desired) then TrustUpdate(false, None)
    else if update.Fail? then TrustUpdate(true, Some("failed to update assume role policy: " + update.error))
    else TrustUpdate(true, None)
  }

  /** Documents that differ only in spelling never cause an update; invalid ones always do. */
  lemma TrustPolicySkip(current: JsonText, text: string, update: Outcome)
    requires Valid(current)
    ensures !UpdateTrustPolicy(current, JsonText(text, current.decoded), update).called
    ensures !Valid(JsonText(text, None)) ==> UpdateTrustPolicy(current, JsonText(text, None), update).called
  {
    JsonEqualsIgnoresSpelling(current, text);
  }

  /** The outcome of an IAM delete call. */
  datatype DeleteOutcome = Deleted | NotFound | DeleteFailed(error: string)

  /** `deleteRole`: a role that is already gone counts as deleted. */
  function DeleteRole(o: DeleteOutcome): (err: Option<string>)
    ensures err.None? <==> !o.DeleteFailed?
  {
    match o
    case Deleted => None
    case NotFound => None
    case DeleteFailed(e) => Some("failed to delete role: " + e)
  }

  // ---------------------------------------------------------------------
  // Deploy and CheckDeployment

  /** The fields of a role IAM reports. */
  datatype Role = Role(arn: string, roleId: string, roleName: string, assumeRolePolicy: JsonText)

  /** The answers of IAM during one `Deploy`. */
  datatype DeployEnv = DeployEnv(
    getRole: Result<Option<Role>>,
    createRole: Result<Role>,
    updateTrust: Outcome,
    attachments: AttachEnv)

  /** The details of a successful update of an existing role. */
  function UpdatedDetails(roleName: string, r: PolicyReconciliationResult): string
  {
    if r.attachedCount > 0 || r.detachedCount > 0 then
      "Updated role " + roleName + ": attached " + IntToString(r.attachedCount) + ", detached " + IntToString(r.detachedCount) +
      ", total " + IntToString(|r.attachedPolicies|) + " policies"
    else "Role " + roleName + " unchanged with " + IntToString(|r.attachedPolicies|) + " policies"
  }

  /** The message says "unchanged" exactly when nothing was attached or detached. */
  lemma UnchangedIffNoCounts(roleName: string, r: PolicyReconciliationResult)
    requires r.attachedCount >= 0 && r.detachedCount >= 0
    ensures (UpdatedDetails(roleName, r) == "Role " + roleName + " unchanged with " + IntToString(|r.attachedPolicies|) + " policies")
            <==> r.attachedCount == 0 && r.detachedCount == 0
  {
    if r.attachedCount > 0 || r.detachedCount > 0 {
      var d := UpdatedDetails(roleName, r);
      assert d[0] == 'U';
    }
  }

  /** `IamRoleStatus`. */
  datatype IamRoleStatus = IamRoleStatus(roleArn: string, roleId: string, roleName: string, attachedPolicies: seq<string>)

  /** The role's desired configuration as `Deploy` uses it. */
  datatype RoleSettings = RoleSettings(roleName: string, assumeRolePolicy: JsonText, managedPolicyArns: seq<string>)

  /** The status after recording a role's identity. */
  function WithRole(s: IamRoleStatus, role: Role): IamRoleStatus
  {
    s.(roleArn := role.arn, roleId := role.roleId, roleName := role.roleName)
  }

  /** The status after a reconciliation: its attachments, when it returned a result. */
  function WithAttachments(s: IamRoleStatus, r: Reconciliation): IamRoleStatus
  {
    if r.result.Some? then s.(attachedPolicies := r.result.value.attachedPolicies) else s
  }

  /** `Deploy`, as the new status and the action result. */
  ghost function Deployed(config: RoleSettings, s: IamRoleStatus, env: DeployEnv): (IamRoleStatus, ActionResult)
  {
    match env.getRole
    case Err(e) => (s, ActionError("failed to check if role exists: " + e))
    case Ok(None) =>
      (match env.createRole
       case Err(e) => (s, ActionError("failed to create role: " + e))
       case Ok(role) =>
         var r := Reconcile(config.managedPolicyArns, env.attachments);
         var s1 := WithAttachments(WithRole(s, role), r);
         if r.err.Some? then (s1, ActionError("failed to attach policies: " + r.err.value))
         else (s1, ActionSuccess("Created role " + s1.roleName + " with " + IntToString(|r.result.value.attachedPolicies|) + " policies")))
    case Ok(Some(role)) =>
      var s0 := WithRole(s, role);
      var trust := UpdateTrustPolicy(role.assumeRolePolicy, config.assumeRolePolicy, env.updateTrust);
      if trust.err.Some? then (s0, ActionError("failed to update trust policy: " + trust.err.value))
      else
        var r := Reconcile(config.managedPolicyArns, env.attachments);
        var s1 := WithAttachments(s0, r);
        if r.err.Some? then (s1, ActionError("failed to reconcile policy attachments: " + r.err.value))
        else (s1, ActionSuccess(UpdatedDetails(s1.roleName, r.result.value)))
  }

  /** Even a failed reconciliation records the attachments actually in place. */
  lemma PartialFailureRecorded(config: RoleSettings, s: IamRoleStatus, env: DeployEnv)
    requires env.getRole.Ok? && env.attachments.list.Ok?
    requires env.getRole.value.None? ==> env.createRole.Ok?
    requires env.getRole.value.Some? ==>
               UpdateTrustPolicy(env.getRole.value.value.assumeRolePolicy, config.assumeRolePolicy, env.updateTrust).err.None?
    ensures Deployed(config, s, env).0.attachedPolicies ==
            SortedOf(Effect(SetOf(env.attachments.list.value), Reconcile(config.managedPolicyArns, env.attachments).calls, env.attachments))
  {
    ReportsActualState(config.managedPolicyArns, env.attachments);
  }

  /** `CheckDeployment`: the new status and the check result. */
  function Checked(config: RoleSettings, s: IamRoleStatus, getRole: Result<Option<Role>>): (IamRoleStatus, CheckResult)
  {
    if s.roleArn == "" then (s, CheckInProgress(""))
    else match getRole
      case Err(e) => (s, CheckFailed("failed to check role status: " + e))
      case Ok(None) => (s, CheckError("role not found: " + config.roleName))
      case Ok(Some(role)) =>
        var s1 := WithRole(s, role);
        (s1, CheckComplete("Role " + s1.roleName + " ready with " + IntToString(|s1.attachedPolicies|) + " policies"))
  }

  /** Without a role ARN the deployment has not started: in progress, with no IAM call needed. */
  lemma CheckWithoutArn(config: RoleSettings, s: IamRoleStatus, a: Result<Option<Role>>, b: Result<Option<Role>>)
    requires s.roleArn == ""
    ensures Checked(config, s, a) == Checked(config, s, b) == (s, CheckInProgress(""))
  {
  }

  /** The provider's operations object, holding the status it updates. */
  class IamRoleOperations {
    const config: RoleSettings
    var status: IamRoleStatus

    constructor (config: RoleSettings, status: IamRoleStatus)
      ensures this.config == config && this.status == status
    {
      this.config := config;
      this.status := status;
    }

    /** `Deploy`: create or update the role, then reconcile its managed policies. */
    method Deploy(env: DeployEnv) returns (result: ActionResult)
      modifies this
      ensures (status, result) == Deployed(config, old(status), env)
    {
      if env.getRole.Err? {
        return ActionError("failed to check if role exists: " + env.getRole.error);
      }
      if env.getRole.value.None? {
        if env.createRole.Err? {
          return ActionError("failed to create role: " + env.createRole.error);
        }
        var role := env.createRole.value;
        status := WithRole(status, role);
        var r := ReconcilePolicyAttachments(config.managedPolicyArns, env.attachments);
        if r.result.Some? {
          status := status.(attachedPolicies := r.result.value.attachedPolicies);
        }
        if r.err.Some? {
          return ActionError("failed to attach policies: " + r.err.value);
        }
        return ActionSuccess("Created role " + status.roleName + " with " + IntToString(|r.result.value.attachedPolicies|) + " policies");
      }
      var existing := env.getRole.value.value;
      status := WithRole(status, existing);
      var trust := UpdateTrustPolicy(existing.assumeRolePolicy, config.assumeRolePolicy, env.updateTrust);
      if trust.err.Some? {
        return ActionError("failed to update trust policy: " + trust.err.value);
      }
      var r := ReconcilePolicyAttachments(config.managedPolicyArns, env.attachments);
      if r.result.Some? {
        status := status.(attachedPolicies := r.result.value.attachedPolicies);
      }
      if r.err.Some? {
        return ActionError("failed to reconcile policy attachments: " + r.err.value);
      }
      return ActionSuccess(UpdatedDetails(status.roleName, r.result.value));
    }

    /** `CheckDeployment`: refresh the role identity in the status once a role ARN is known. */
    method CheckDeployment(getRole: Result<Option<Role>>) returns (result: CheckResult)
      modifies this
      ensures (status, result) == Checked(config, old(status), getRole)
    {
      if status.roleArn == "" {
        return CheckInProgress("");
      }
      if getRole.Err? {
        return CheckFailed("failed to check role status: " + getRole.error);
      }
      if getRole.value.None? {
        return CheckError("role not found: " + config.roleName);
      }
      status := WithRole(status, getRole.value.value);
      return CheckComplete("Role " + status.roleName + " ready with " + IntToString(|status.attachedPolicies|) + " policies");
    }
  }
}
