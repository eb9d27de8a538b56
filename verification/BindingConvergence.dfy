/** How many error-free passes each binding reconciler needs, from any start, until the stored
    binding has the desired RoleRef and subjects; from then on it writes nothing. */
module BindingConvergence {
  import opened Platform
  import opened Rbac

  datatype Reconciler =
    | SourceNamespace
    | Helper(cluster: bool, instance: string)
    | ApplicationSetCluster(instance: string)
    | NotificationsCluster

  /** One pass of a reconciler that is enabled, allowed and has a role to bind. */
  function Once(env: Env, r: Reconciler, s: Slot<Binding>, desired: Binding): (result: Slot<Binding>)
  {
    match r
    case SourceNamespace => SourceNamespaceBinding(env, s.n, s.writes, s.obj, desired)
    case Helper(cluster, instance) => HelperBinding(env, s.n, s.writes, s.obj, desired, true, cluster, instance)
    case ApplicationSetCluster(instance) =>
      ApplicationSetClusterBinding(env, s.n, s.writes, s.obj, desired, true, instance)
    case NotificationsCluster => NotificationsClusterBinding(env, s.n, s.writes, s.obj, desired, true, true)
  }

  function Passes(env: Env, r: Reconciler, s: Slot<Binding>, desired: Binding, k: nat): (result: Slot<Binding>)
    decreases k
  {
    if k == 0 then s else Passes(env, r, Once(env, r, s, desired), desired, k - 1)
  }

  predicate Reached(b: Option<Binding>, desired: Binding)
  {
    b.Some? && b.value.roleRef == desired.roleRef && b.value.subjects == desired.subjects
  }

  /** The number of passes that are needed from a given start. */
  function Needed(r: Reconciler, b: Option<Binding>, desired: Binding): (k: nat)
    ensures k <= match r
      case NotificationsCluster => 1
      case ApplicationSetCluster(_) => 3
      case _ => 2
  {
    if Reached(b, desired) then 0
    else if b.None? || r.NotificationsCluster? then 1
    else if b.value.roleRef == desired.roleRef then 1
    else if r.ApplicationSetCluster? && b.value.subjects != desired.subjects then 3
    else 2
  }

  lemma OnceCountsDown(env: Env, r: Reconciler, s: Slot<Binding>, desired: Binding)
    requires ErrorFree(env, s.n, Once(env, r, s, desired).n)
    ensures var s' := Once(env, r, s, desired);
      && s.n <= s'.n
      && Needed(r, s'.obj, desired) == (if Needed(r, s.obj, desired) == 0 then 0 else Needed(r, s.obj, desired) - 1)
      && (Reached(s.obj, desired) ==> s'.obj == s.obj && s'.writes == s.writes && s'.ok)
      && (!Reached(s.obj, desired) ==> s.writes < s'.writes)
  {
  }

  lemma {:induction false} PassesAdvance(env: Env, r: Reconciler, s: Slot<Binding>, desired: Binding, k: nat)
    ensures s.n <= Passes(env, r, s, desired, k).n
    decreases k
  {
    if k != 0 { PassesAdvance(env, r, Once(env, r, s, desired), desired, k - 1); }
  }

  /** From any start, with error-free calls, the desired binding is there after `k` passes exactly when
      `k` is at least `Needed`. */
  lemma {:induction false} ConvergesExactly(env: Env, r: Reconciler, s: Slot<Binding>, desired: Binding, k: nat)
    requires ErrorFree(env, s.n, Passes(env, r, s, desired, k).n)
    ensures Reached(Passes(env, r, s, desired, k).obj, desired) <==> Needed(r, s.obj, desired) <= k
    decreases k
  {
    if k != 0 {
      var s' := Once(env, r, s, desired);
      PassesAdvance(env, r, s', desired, k - 1);
      OnceCountsDown(env, r, s, desired);
      ConvergesExactly(env, r, s', desired, k - 1);
    }
  }

  /** Two passes suffice for the Image Updater helper and the source-namespace bindings, three for the
      ApplicationSet cluster binding, one for the notifications cluster binding. */
  lemma ConvergesWithin(env: Env, r: Reconciler, s: Slot<Binding>, desired: Binding)
    requires var k := match r case NotificationsCluster => 1 case ApplicationSetCluster(_) => 3 case _ => 2;
      ErrorFree(env, s.n, Passes(env, r, s, desired, k).n)
    ensures var k := match r case NotificationsCluster => 1 case ApplicationSetCluster(_) => 3 case _ => 2;
      Reached(Passes(env, r, s, desired, k).obj, desired)
  {
    var k := match r case NotificationsCluster => 1 case ApplicationSetCluster(_) => 3 case _ => 2;
    ConvergesExactly(env, r, s, desired, k);
  }

  /** Once reached, any number of passes writes nothing, whatever the calls return. */
  lemma {:induction false} ReachedIsQuiet(env: Env, r: Reconciler, s: Slot<Binding>, desired: Binding, k: nat)
    requires Reached(s.obj, desired)
    ensures var s' := Passes(env, r, s, desired, k); s'.obj == s.obj && s'.writes == s.writes
    decreases k
  {
    if k != 0 { ReachedIsQuiet(env, r, Once(env, r, s, desired), desired, k - 1); }
  }

  // ---------- Labels ----------

  /** What a pass leaves, whatever the calls return, is nothing, the desired object with its labels, or the old
      object with its labels. With error-free calls it creates a missing binding as desired, and reports an error
      only for the ApplicationSet cluster binding that it deletes because of its RoleRef. */
  lemma OnceLabels(env: Env, r: Reconciler, s: Slot<Binding>, desired: Binding)
    ensures var s' := Once(env, r, s, desired);
      s'.obj.Some? ==> s'.obj == Some(desired) || (s.obj.Some? && s'.obj.value.labels == s.obj.value.labels)
    ensures var s' := Once(env, r, s, desired);
      s.obj.None? && ErrorFree(env, s.n, s'.n) ==> s'.obj == Some(desired)
    ensures var s' := Once(env, r, s, desired);
      ErrorFree(env, s.n, s'.n) ==>
        (s'.ok <==> !(&& r.ApplicationSetCluster? && s.obj.Some? && s.obj.value.subjects == desired.subjects
                      && s.obj.value.roleRef != desired.roleRef))
  {
    assert ErrorFree(env, s.n, Once(env, r, s, desired).n) ==> env.outcome(s.n).Done?;
  }

  // ---------- When the binding is not to be there ----------

  /** A pass of a reconciler that is disabled or not allowed. */
  function OnceWithout(env: Env, r: Reconciler, s: Slot<Binding>, desired: Binding): (result: Slot<Binding>)
    requires !r.SourceNamespace?
  {
    match r
    case Helper(cluster, instance) => HelperBinding(env, s.n, s.writes, s.obj, desired, false, cluster, instance)
    case ApplicationSetCluster(instance) =>
      ApplicationSetClusterBinding(env, s.n, s.writes, s.obj, desired, false, instance)
    case NotificationsCluster => NotificationsClusterBinding(env, s.n, s.writes, s.obj, desired, false, true)
  }

  /** With error-free calls one pass of a reconciler that is disabled or not allowed deletes the binding, except
      that the cluster-wide ones of the Image Updater and of ApplicationSet spare a binding whose managed-by
      label names another instance. A spared or missing binding costs no write. */
  lemma NotAllowedGoesExactly(env: Env, r: Reconciler, s: Slot<Binding>, desired: Binding)
    requires !r.SourceNamespace? && ErrorFree(env, s.n, OnceWithout(env, r, s, desired).n)
    ensures var s' := OnceWithout(env, r, s, desired);
      var instance := match r
        case Helper(true, i) => Some(i)
        case ApplicationSetCluster(i) => Some(i)
        case _ => None;
      var spared := && s.obj.Some? && instance.Some?
                    && "app.kubernetes.io/managed-by" in s.obj.value.labels
                    && s.obj.value.labels["app.kubernetes.io/managed-by"] != instance.value;
      && s'.ok
      && s'.obj == (if spared then s.obj else None)
      && (s'.writes == s.writes <==> s.obj.None? || spared)
  {
    assert env.outcome(s.n).Done?;
    assert s.n + 1 < OnceWithout(env, r, s, desired).n ==> env.outcome(s.n + 1).Done?;
  }

  /** A reconciler that cannot read its object changes nothing and reports an error. */
  lemma FailedReadChangesNothing(env: Env, r: Reconciler, s: Slot<Binding>, desired: Binding)
    requires !env.outcome(s.n).Done?
    ensures Once(env, r, s, desired) == Slot(s.obj, s.n + 1, s.writes, false)
    ensures !r.SourceNamespace? ==> OnceWithout(env, r, s, desired) == Slot(s.obj, s.n + 1, s.writes, false)
  {
  }

  /** The same for the roles, which take one pass. */
  lemma RolesInOnePass(
      env: Env, s: Slot<Role>, desired: Role, enabled: bool, cluster: bool, instance: string)
    ensures var a := SourceNamespaceRole(env, s.n, s.writes, s.obj, desired);
      if !env.outcome(s.n).Done? then a == Slot(s.obj, s.n + 1, s.writes, false)
      else a.ok ==>
        a.obj.Some? && a.obj.value.rules == desired.rules
        && a.obj.value.labels == (if s.obj.Some? then s.obj.value.labels else desired.labels)
    ensures var a := HelperRole(env, s.n, s.writes, s.obj, desired, enabled, cluster, instance);
      var spared := && cluster && s.obj.Some? && "app.kubernetes.io/managed-by" in s.obj.value.labels
                    && s.obj.value.labels["app.kubernetes.io/managed-by"] != instance;
      if !env.outcome(s.n).Done? then a == Slot(s.obj, s.n + 1, s.writes, false)
      else a.ok ==>
        if !enabled then a.obj == (if spared then s.obj else None)
        else a.obj.Some? && a.obj.value.rules == desired.rules
             && a.obj.value.labels == (if s.obj.Some? then s.obj.value.labels else desired.labels)
  {
  }

  /** Without a cluster role to bind, the notifications reconciler creates no binding. */
  lemma NothingToBind(env: Env, n: nat, writes: nat, desired: Binding, allowed: bool)
    ensures var s' := NotificationsClusterBinding(env, n, writes, None, desired, allowed, false);
      s'.obj == None && s'.writes == writes
  {
  }
}
