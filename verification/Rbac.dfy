/** Roles, bindings, and the five ways in which the operator reconciles one of them. Each reconciler
    is a function of what is stored under the object's name. */
module Rbac {
  import opened Platform

  /** Namespace and name of an object. */
  type Ref = (string, string)

  datatype Rule = Rule(groups: seq<string>, resources: seq<string>, verbs: seq<string>)

  datatype Role = Role(labels: map<string, string>, rules: seq<Rule>)

  datatype RoleRef = RoleRef(kind: string, name: string)

  datatype Subject = Subject(kind: string, name: string, namespace: string)

  datatype Binding = Binding(labels: map<string, string>, roleRef: RoleRef, subjects: seq<Subject>)

  function Lookup<K, V>(m: map<K, V>, k: K): (r: Option<V>) { if k in m then Some(m[k]) else None }

  function Store<K, V>(m: map<K, V>, k: K, v: Option<V>): (r: map<K, V>)
  {
    match v case Some(x) => m[k := x] case None => m - {k}
  }

  /** What is stored under one name, and how the calls went. */
  datatype Slot<T> = Slot(obj: Option<T>, n: nat, writes: nat, ok: bool)

  /** Store, replace or delete one object. */
  function WriteSlot<T>(env: Env, n: nat, writes: nat, before: Option<T>, after: Option<T>): (r: Slot<T>)
  {
    var o := env.outcome(n);
    Slot(if o.Rejected? then before else after, n + 1, writes + 1, o.Done?)
  }

  /** Objects created by an instance carry its name under this label; an object without the label
      counts as owned. */
  const MANAGED_BY := "app.kubernetes.io/managed-by"

  const KEY_NAME := "app.kubernetes.io/name"
  const KEY_PART_OF := "app.kubernetes.io/part-of"

  /** The labels of every object that the operator makes for an instance. */
  function DefaultLabels(instance: string): (labels: map<string, string>)
  {
    map[KEY_NAME := instance, KEY_PART_OF := "argocd", MANAGED_BY := instance]
  }

  predicate OwnedBy(labels: map<string, string>, instance: string)
  {
    MANAGED_BY !in labels || labels[MANAGED_BY] == instance
  }

  // ---------- Roles ----------

  /** reconcileSourceNamespaceRole */
  function SourceNamespaceRole(env: Env, n: nat, writes: nat, existing: Option<Role>, desired: Role): (r: Slot<Role>)
  {
    if !env.outcome(n).Done? then Slot(existing, n + 1, writes, false)
    else if existing.None? then WriteSlot(env, n + 1, writes, existing, Some(desired))
    else if existing.value.rules != desired.rules then
      WriteSlot(env, n + 1, writes, existing, Some(existing.value.(rules := desired.rules)))
    else Slot(existing, n + 1, writes, true)
  }

  /** reconcileRoleHelper of the Image Updater; `cluster` marks a ClusterRole. */
  function HelperRole(env: Env, n: nat, writes: nat, existing: Option<Role>, desired: Role,
                      enabled: bool, cluster: bool, instance: string): (r: Slot<Role>)
  {
    if !env.outcome(n).Done? then Slot(existing, n + 1, writes, false)
    else if existing.None? then
      if enabled then WriteSlot(env, n + 1, writes, existing, Some(desired)) else Slot(existing, n + 1, writes, true)
    else if !enabled then
      if cluster && !OwnedBy(existing.value.labels, instance) then Slot(existing, n + 1, writes, true)
      else WriteSlot(env, n + 1, writes, existing, None)
    else if existing.value.rules != desired.rules then
      WriteSlot(env, n + 1, writes, existing, Some(existing.value.(rules := desired.rules)))
    else Slot(existing, n + 1, writes, true)
  }

  // ---------- Bindings ----------

  /** The part shared by the reconcilers that delete a binding whose RoleRef changed, for the next
      pass to create anew. */
  function AlignOrDelete(env: Env, n: nat, writes: nat, existing: Binding, desired: Binding): (r: Slot<Binding>)
  {
    if existing.roleRef != desired.roleRef then WriteSlot(env, n, writes, Some(existing), None)
    else if existing.subjects != desired.subjects then
      WriteSlot(env, n, writes, Some(existing), Some(existing.(subjects := desired.subjects)))
    else Slot(Some(existing), n, writes, true)
  }

  /** reconcileSourceNamespaceRoleBinding */
  function SourceNamespaceBinding(
      env: Env, n: nat, writes: nat, existing: Option<Binding>, desired: Binding): (r: Slot<Binding>)
  {
    if !env.outcome(n).Done? then Slot(existing, n + 1, writes, false)
    else if existing.None? then WriteSlot(env, n + 1, writes, existing, Some(desired))
    else AlignOrDelete(env, n + 1, writes, existing.value, desired)
  }

  /** reconcileRoleBindingHelper of the Image Updater; `cluster` marks a ClusterRoleBinding. */
  function HelperBinding(env: Env, n: nat, writes: nat, existing: Option<Binding>, desired: Binding,
                         enabled: bool, cluster: bool, instance: string): (r: Slot<Binding>)
  {
    if !env.outcome(n).Done? then Slot(existing, n + 1, writes, false)
    else if existing.None? then
      if enabled then WriteSlot(env, n + 1, writes, existing, Some(desired)) else Slot(existing, n + 1, writes, true)
    else if !enabled then
      if cluster && !OwnedBy(existing.value.labels, instance) then Slot(existing, n + 1, writes, true)
      else WriteSlot(env, n + 1, writes, existing, None)
    else AlignOrDelete(env, n + 1, writes, existing.value, desired)
  }

  /** reconcileApplicationSetClusterRoleBinding: subjects first; a changed RoleRef deletes the binding,
      whatever comes of the delete, and reports an error. */
  function ApplicationSetClusterBinding(env: Env, n: nat, writes: nat, existing: Option<Binding>, desired: Binding,
                                        allowed: bool, instance: string): (r: Slot<Binding>)
  {
    if !env.outcome(n).Done? then Slot(existing, n + 1, writes, false)
    else if existing.None? then
      if allowed then WriteSlot(env, n + 1, writes, existing, Some(desired)) else Slot(existing, n + 1, writes, true)
    else if !allowed then
      if !OwnedBy(existing.value.labels, instance) then Slot(existing, n + 1, writes, true)
      else WriteSlot(env, n + 1, writes, existing, None)
    else if existing.value.subjects != desired.subjects then
      WriteSlot(env, n + 1, writes, existing, Some(existing.value.(subjects := desired.subjects)))
    else if existing.value.roleRef != desired.roleRef then
      WriteSlot(env, n + 1, writes, existing, None).(ok := false)
    else Slot(existing, n + 1, writes, true)
  }

  /** reconcileNotificationsClusterRoleBinding: a changed RoleRef deletes and creates in one pass.
      `hasRole` says that there is a cluster role to bind. */
  function NotificationsClusterBinding(env: Env, n: nat, writes: nat, existing: Option<Binding>, desired: Binding,
                                       allowed: bool, hasRole: bool): (r: Slot<Binding>)
  {
    if !env.outcome(n).Done? then Slot(existing, n + 1, writes, false)
    else if existing.None? then
      if allowed && hasRole then WriteSlot(env, n + 1, writes, existing, Some(desired))
      else Slot(existing, n + 1, writes, true)
    else if !allowed then WriteSlot(env, n + 1, writes, existing, None)
    else if existing.value.roleRef != desired.roleRef then
      var gone := WriteSlot(env, n + 1, writes, existing, None);
      if !gone.ok then gone else WriteSlot(env, gone.n, gone.writes, gone.obj, Some(desired))
    else if existing.value.subjects != desired.subjects then
      WriteSlot(env, n + 1, writes, existing, Some(existing.value.(subjects := desired.subjects)))
    else Slot(existing, n + 1, writes, true)
  }
}
