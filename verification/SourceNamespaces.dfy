/** Source-namespace ownership by labels, for the ApplicationSet and the notifications feature.

    Many Argo CD instances share one set of namespaces and, per feature, one in-memory set of
    managed namespaces. A pass of an instance restores stripped tracking labels, lists what is
    labelled for it, creates roles and bindings in the desired namespaces, and prunes the rest. */
module SourceNamespaces {
  import opened Platform
  import opened Rbac

  type Labels = map<string, string>

  const MANAGED_BY_LABEL := "argocd.argoproj.io/managed-by"
  const CLUSTER_LABEL := "argocd.argoproj.io/managed-by-cluster-argocd"
  const APPLICATIONSET_LABEL := "argocd.argoproj.io/applicationset-managed-by-cluster-argocd"
  const NOTIFICATIONS_LABEL := "argocd.argoproj.io/notifications-managed-by-cluster-argocd"

  datatype Feature = ApplicationSet | Notifications

  /** An ArgoCD resource: `clusterScoped` says that its namespace is a cluster-config namespace,
      `deleting` that it carries a deletion timestamp. `applicationSet` holds the patterns of
      .spec.applicationSet.sourceNamespaces when that section is present. */
  datatype Instance = Instance(
    name: string,
    namespace: string,
    clusterScoped: bool,
    deleting: bool,
    sourceNamespaces: seq<string>,
    applicationSet: Option<seq<string>>,
    notificationsEnabled: bool,
    notifications: seq<string>)

  datatype Cluster = Cluster(
    namespaces: map<string, Labels>,
    roles: map<Ref, Role>,
    bindings: map<Ref, Binding>,
    configurations: set<string>)

  /** The cluster, the two shared sets of managed namespaces and the call counters. */
  datatype World = World(c: Cluster, managed: map<Feature, set<string>>, n: nat, writes: nat)

  datatype Step = Step(w: World, ok: bool)

  function Tick(w: World): (r: World) { w.(n := w.n + 1) }

  predicate Answered(env: Env, w: World) { env.outcome(w.n).Done? }

  function Managed(w: World, f: Feature): (r: set<string>)
  {
    if f in w.managed then w.managed[f] else {}
  }

  function SetManaged(w: World, f: Feature, s: set<string>): (r: World) { w.(managed := w.managed[f := s]) }

  function LabelKey(f: Feature): (r: string)
  {
    match f case ApplicationSet => APPLICATIONSET_LABEL case Notifications => NOTIFICATIONS_LABEL
  }

  /** Name of the feature's role and binding in a source namespace. */
  function ResourceName(f: Feature, cr: Instance): (r: string)
  {
    cr.name + "-" + cr.namespace +
      match f case ApplicationSet => "-applicationset" case Notifications => "-notifications"
  }

  function AppRoleName(cr: Instance, target: string): (r: string) { cr.name + "_" + target }

  function Write(env: Env, w: World, c: Cluster): (r: Step)
  {
    var o := env.outcome(w.n);
    Step(w.(n := w.n + 1, writes := w.writes + 1, c := if o.Rejected? then w.c else c), o.Done?)
  }

  function PutLabels(c: Cluster, x: string, labels: Labels): (r: Cluster)
  {
    c.(namespaces := c.namespaces[x := labels])
  }

  // ---------- What is desired ----------

  /** getSourceNamespaces, as a test: is the existing namespace `x` one for applications? */
  predicate AppNamespace(env: Env, c: Cluster, cr: Instance, x: string)
  {
    x in c.namespaces && env.matches(cr.sourceNamespaces, x)
  }

  /** Does the feature's own list or pattern name the namespace? */
  predicate Named(env: Env, f: Feature, cr: Instance, x: string)
  {
    match f
    case ApplicationSet => cr.applicationSet.Some? && env.matches(cr.applicationSet.value, x)
    case Notifications => cr.notificationsEnabled && x in cr.notifications
  }

  /** The one desired set of a feature. */
  predicate Desired(env: Env, f: Feature, c: Cluster, cr: Instance, x: string)
  {
    cr.clusterScoped && !cr.deleting && Named(env, f, cr, x) && AppNamespace(env, c, cr, x)
  }

  // ---------- Restoring stripped labels ----------

  const SCOPED_RESOURCES := {"*", "applications", "applications/status", "applicationsets", "applicationsets/status"}

  /** hasApplicationScopedRules */
  predicate HasApplicationScopedRules(rules: seq<Rule>)
  {
    exists i | 0 <= i < |rules| ::
      && "argoproj.io" in rules[i].groups
      && exists j | 0 <= j < |rules[i].resources| ::
           rules[i].resources[j] in SCOPED_RESOURCES
  }

  /** Listed by the operator's own labels: made by this instance. */
  predicate MadeBy(role: Role, cr: Instance)
  {
    && KEY_PART_OF in role.labels && role.labels[KEY_PART_OF] == "argocd"
    && MANAGED_BY in role.labels && role.labels[MANAGED_BY] == cr.name
  }

  predicate IsOrphanedRole(ref: Ref, role: Role, cr: Instance)
  {
    (ref.1 == ResourceName(ApplicationSet, cr) || ref.1 == AppRoleName(cr, ref.0))
        && HasApplicationScopedRules(role.rules)
  }

  function RequiredLabels(ref: Ref, cr: Instance): (r: Labels)
  {
    var a := if ref.1 == ResourceName(ApplicationSet, cr) then map[APPLICATIONSET_LABEL := cr.namespace] else map[];
    if ref.1 == AppRoleName(cr, ref.0) then a[CLUSTER_LABEL := cr.namespace] else a
  }

  /** addMissingLabels: labels that are there keep their values. */
  function AddMissing(labels: Labels, required: Labels): (r: Labels) { required + labels }

  function RestoreOne(env: Env, w: World, cr: Instance, ref: Ref, role: Role): (r: Step)
  {
    if ref.0 == cr.namespace || !IsOrphanedRole(ref, role, cr) then Step(w, true)
    else if !Answered(env, w) then Step(Tick(w), false)
    else if ref.0 !in w.c.namespaces then Step(Tick(w), true)
    else
      var labels := w.c.namespaces[ref.0];
      var labels' := AddMissing(labels, RequiredLabels(ref, cr));
      if labels' == labels then Step(Tick(w), true) else Write(env, Tick(w), PutLabels(w.c, ref.0, labels'))
  }

  /** The loop goes on after an error and reports it at the end. */
  function RestoreLoop(env: Env, w: World, cr: Instance, refs: seq<Ref>, listed: map<Ref, Role>): (r: Step)
    decreases |refs|
  {
    if refs == [] then Step(w, true)
    else if refs[0] !in listed then RestoreLoop(env, w, cr, refs[1..], listed)
    else
      var s := RestoreOne(env, w, cr, refs[0], listed[refs[0]]);
      var t := RestoreLoop(env, s.w, cr, refs[1..], listed);
      t.(ok := s.ok && t.ok)
  }

  /** restoreTrackingLabelsForOrphanedNamespaces */
  function Restore(env: Env, w: World, cr: Instance): (r: Step)
  {
    if !Answered(env, w) then Step(Tick(w), false)
    else
      var listed := map ref | ref in w.c.roles && MadeBy(w.c.roles[ref], cr) :: w.c.roles[ref];
      RestoreLoop(env, Tick(w), cr, env.listingPairs(w.n, listed.Keys), listed)
  }

  // ---------- Listing ----------

  predicate LabelledFor(c: Cluster, f: Feature, cr: Instance, x: string)
  {
    x in c.namespaces && LabelKey(f) in c.namespaces[x] && c.namespaces[x][LabelKey(f)] == cr.namespace
  }

  /** setManagedApplicationSetSourceNamespaces, setManagedNotificationsSourceNamespaces */
  function ListManaged(env: Env, w: World, f: Feature, cr: Instance): (r: Step)
  {
    if !Answered(env, w) then Step(Tick(w), false)
    else
      var found := set x | x in w.c.namespaces && LabelledFor(w.c, f, cr, x);
      Step(SetManaged(Tick(w), f, Managed(w, f) + found), true)
  }

  // ---------- Cleaning up one namespace ----------

  /** Get an object and delete it if it is there. */
  function DropRole(env: Env, w: World, ref: Ref): (r: Step)
  {
    if !Answered(env, w) then Step(Tick(w), false)
    else if ref !in w.c.roles then Step(Tick(w), true)
    else Write(env, Tick(w), w.c.(roles := w.c.roles - {ref}))
  }

  function DropBinding(env: Env, w: World, ref: Ref): (r: Step)
  {
    if !Answered(env, w) then Step(Tick(w), false)
    else if ref !in w.c.bindings then Step(Tick(w), true)
    else Write(env, Tick(w), w.c.(bindings := w.c.bindings - {ref}))
  }

  /** The NotificationsConfiguration of a source namespace belongs to the notifications feature only. */
  function DropConfiguration(env: Env, w: World, f: Feature, x: string): (r: Step)
  {
    if f.ApplicationSet? then Step(w, true)
    else if !Answered(env, w) then Step(Tick(w), false)
    else if x !in w.c.configurations then Step(Tick(w), true)
    else Write(env, Tick(w), w.c.(configurations := w.c.configurations - {x}))
  }

  /** The label goes last, from the copy of the namespace read at the start. */
  function DropLabel(env: Env, w: World, f: Feature, x: string, labels: Labels): (r: Step)
  {
    Write(env, w, PutLabels(w.c, x, labels - {LabelKey(f)}))
  }

  /** cleanupUnmanagedApplicationSetSourceNamespaceResources and its notifications twin. */
  function Cleanup(env: Env, w: World, f: Feature, cr: Instance, x: string): (r: Step)
  {
    if !Answered(env, w) then Step(Tick(w), false)
    else if x !in w.c.namespaces then Step(Tick(w), true)
    else
      var ref := (x, ResourceName(f, cr));
      var a := DropRole(env, Tick(w), ref);
      if !a.ok then a else
        var b := DropBinding(env, a.w, ref);
        if !b.ok then b else
          var d := DropConfiguration(env, b.w, f, x);
          if !d.ok then d else DropLabel(env, d.w, f, x, w.c.namespaces[x])
  }

  // ---------- Creating in one namespace ----------

  function DesiredRole(cr: Instance, rules: seq<Rule>): (r: Role)
  {
    Role(DefaultLabels(cr.name), rules)
  }

  function DesiredBinding(f: Feature, cr: Instance): (r: Binding)
  {
    var suffix := match f
      case ApplicationSet => "-applicationset-controller"
      case Notifications => "-notifications-controller";
    Binding(DefaultLabels(cr.name), RoleRef("Role", ResourceName(f, cr)),
            [Subject("ServiceAccount", cr.name + suffix, cr.namespace)])
  }

  function EnsureRole(env: Env, w: World, ref: Ref, desired: Role): (r: Step)
  {
    var s := SourceNamespaceRole(env, w.n, w.writes, Lookup(w.c.roles, ref), desired);
    Step(w.(c := w.c.(roles := Store(w.c.roles, ref, s.obj)), n := s.n, writes := s.writes), s.ok)
  }

  function EnsureBinding(env: Env, w: World, ref: Ref, desired: Binding): (r: Step)
  {
    var s := SourceNamespaceBinding(env, w.n, w.writes, Lookup(w.c.bindings, ref), desired);
    Step(w.(c := w.c.(bindings := Store(w.c.bindings, ref, s.obj)), n := s.n, writes := s.writes), s.ok)
  }

  /** reconcileSourceNamespaceNotificationsConfigurationCR */
  function EnsureConfiguration(env: Env, w: World, f: Feature, x: string): (r: Step)
  {
    if f.ApplicationSet? then Step(w, true)
    else if !Answered(env, w) then Step(Tick(w), false)
    else if x in w.c.configurations then Step(Tick(w), true)
    else Write(env, Tick(w), w.c.(configurations := w.c.configurations + {x}))
  }

  /** Add the feature's label unless there is one. A failed update is only logged; a failed read ends
      the whole loop. */
  function EnsureLabel(env: Env, w: World, f: Feature, cr: Instance, x: string): (r: Step)
    requires x in w.c.namespaces
  {
    var labels := w.c.namespaces[x];
    if LabelKey(f) in labels then Step(w, true)
    else if !Answered(env, w) then Step(Tick(w), false)
    else Write(env, Tick(w), PutLabels(w.c, x, labels[LabelKey(f) := cr.namespace])).(ok := true)
  }

  /** How one turn of the create loop ended: with the loop to go on, after an error or not, or with the
      loop to be left. */
  datatype Turn = Turn(w: World, ok: bool, abort: bool)

  function EnsureResources(env: Env, rules: seq<Rule>, w: World, f: Feature, cr: Instance, x: string): (r: Turn)
  {
    var ref := (x, ResourceName(f, cr));
    var a := EnsureRole(env, w, ref, DesiredRole(cr, rules));
    var b := EnsureBinding(env, a.w, ref, DesiredBinding(f, cr));
    var d := EnsureConfiguration(env, b.w, f, x);
    Turn(SetManaged(d.w, f, Managed(d.w, f) + {x}), a.ok && b.ok && d.ok, false)
  }

  predicate ManagedByOther(labels: Labels)
  {
    MANAGED_BY_LABEL in labels && labels[MANAGED_BY_LABEL] != ""
  }

  /** A desired namespace with a managed-by label is left to its manager; when it carries the feature's
      label of another instance, the resources of this instance and that label are removed. */
  function YieldNamespace(env: Env, w: World, f: Feature, cr: Instance, x: string): (r: Turn)
    requires x in w.c.namespaces
  {
    var labels := w.c.namespaces[x];
    if LabelKey(f) in labels && labels[LabelKey(f)] != cr.namespace then
      Turn(Cleanup(env, SetManaged(w, f, Managed(w, f) - {x}), f, cr, x).w, true, false)
    else Turn(w, true, false)
  }

  function CreateIn(env: Env, rules: seq<Rule>, w: World, f: Feature, cr: Instance, x: string): (r: Turn)
  {
    if !Answered(env, w) || x !in w.c.namespaces then Turn(Tick(w), false, false)
    else
      var w1 := Tick(w);
      if ManagedByOther(w1.c.namespaces[x]) then YieldNamespace(env, w1, f, cr, x)
      else
        var s := EnsureLabel(env, w1, f, cr, x);
        if !s.ok then Turn(s.w, false, true) else EnsureResources(env, rules, s.w, f, cr, x)
  }

  /** The loop over the namespaces that the create step goes through. */
  function CreateLoop(env: Env, rules: seq<Rule>, w: World, f: Feature, cr: Instance, xs: seq<string>): (r: Step)
    decreases |xs|
  {
    if xs == [] then Step(w, true)
    else
      var t := CreateIn(env, rules, w, f, cr, xs[0]);
      if t.abort then Step(t.w, false)
      else
        var rest := CreateLoop(env, rules, t.w, f, cr, xs[1..]);
        rest.(ok := t.ok && rest.ok)
  }

  /** Keep what is in the application namespaces. */
  function AppsOnly(env: Env, c: Cluster, cr: Instance, xs: seq<string>): (r: seq<string>)
    ensures forall x :: x in r <==> x in xs && AppNamespace(env, c, cr, x)
  {
    if xs == [] then []
    else (if AppNamespace(env, c, cr, xs[0]) then [xs[0]] else []) + AppsOnly(env, c, cr, xs[1..])
  }

  /** getApplicationSetSourceNamespaces: the listed namespaces that match, sorted. */
  function Expanded(env: Env, cr: Instance, listing: seq<string>): (r: seq<string>)
  {
    if cr.applicationSet.None? then [] else Sorted(Matching(env, cr.applicationSet.value, listing))
  }

  function Matching(env: Env, patterns: seq<string>, xs: seq<string>): (r: seq<string>)
    ensures forall x :: x in r <==> x in xs && env.matches(patterns, x)
  {
    if xs == [] then []
    else (if env.matches(patterns, xs[0]) then [xs[0]] else []) + Matching(env, patterns, xs[1..])
  }

  /** Byte order of strings. */
  predicate Less(a: string, b: string)
  {
    b != "" && (a == "" || a[0] < b[0] || (a[0] == b[0] && Less(a[1..], b[1..])))
  }

  function Insert(x: string, xs: seq<string>): (r: seq<string>)
    ensures multiset(r) == multiset(xs) + multiset{x}
  {
    if xs == [] || !Less(xs[0], x) then [x] + xs
    else
      assert xs == [xs[0]] + xs[1..];
      [xs[0]] + Insert(x, xs[1..])
  }

  /** sort.Strings */
  function Sorted(xs: seq<string>): (r: seq<string>)
    ensures multiset(r) == multiset(xs)
  {
    if xs == [] then []
    else
      assert xs == [xs[0]] + xs[1..];
      Insert(xs[0], Sorted(xs[1..]))
  }

  /** reconcileApplicationSetSourceNamespacesResources: two list calls, then the loop. */
  function CreateApplicationSet(env: Env, rules: seq<Rule>, w: World, cr: Instance): (r: Step)
  {
    if cr.applicationSet.None? || !cr.clusterScoped then Step(w, true)
    else if !env.outcome(w.n).Done? then Step(Tick(w), false)
    else if !env.outcome(w.n + 1).Done? then Step(Tick(Tick(w)), false)
    else
      var xs := Expanded(env, cr, env.listing(w.n, w.c.namespaces.Keys));
      CreateLoop(env, rules, Tick(Tick(w)), ApplicationSet, cr, AppsOnly(env, w.c, cr, xs))
  }

  /** reconcileNotificationsSourceNamespacesResources lists anew for every namespace of the spec. */
  function CreateNotifications(env: Env, rules: seq<Rule>, w: World, cr: Instance, xs: seq<string>): (r: Step)
    decreases |xs|
  {
    if xs == [] then Step(w, true)
    else if !Answered(env, w) then CreateNotifications(env, rules, Tick(w), cr, xs[1..]).(ok := false)
    else if !AppNamespace(env, w.c, cr, xs[0]) then CreateNotifications(env, rules, Tick(w), cr, xs[1..])
    else
      var t := CreateIn(env, rules, Tick(w), Notifications, cr, xs[0]);
      if t.abort then Step(t.w, false)
      else
        var rest := CreateNotifications(env, rules, t.w, cr, xs[1..]);
        rest.(ok := t.ok && rest.ok)
  }

  function Create(env: Env, rules: seq<Rule>, w: World, f: Feature, cr: Instance): (r: Step)
  {
    match f
    case ApplicationSet => CreateApplicationSet(env, rules, w, cr)
    case Notifications =>
      if !cr.clusterScoped || !cr.notificationsEnabled then Step(w, true)
      else CreateNotifications(env, rules, w, cr, cr.notifications)
  }

  // ---------- Pruning ----------

  /** The namespace of the instance that owns a namespace, going by its labels. */
  function Owner(f: Feature, labels: Labels): (r: Option<string>)
  {
    if LabelKey(f) in labels then Some(labels[LabelKey(f)])
    else if f.Notifications? && APPLICATIONSET_LABEL in labels then Some(labels[APPLICATIONSET_LABEL])
    else if MANAGED_BY_LABEL in labels then Some(labels[MANAGED_BY_LABEL])
    else None
  }

  predicate Owns(f: Feature, cr: Instance, labels: Labels)
  {
    Owner(f, labels) == Some(cr.namespace) && cr.namespace != ""
  }

  /** Does the prune test list the application namespaces? */
  predicate AsksForApps(f: Feature, cr: Instance)
  {
    match f
    case ApplicationSet => cr.clusterScoped && cr.applicationSet.Some? && !cr.deleting
    case Notifications => cr.notificationsEnabled && !cr.deleting
  }

  /** The prune test: by pattern or list, not by the expanded set. */
  predicate StillManaged(env: Env, f: Feature, c: Cluster, cr: Instance, x: string)
  {
    AsksForApps(f, cr) && Named(env, f, cr, x) && AppNamespace(env, c, cr, x) && cr.clusterScoped
  }

  /** A cleanup that fails is only logged, and the namespace stays in the set. */
  function PruneCleanup(env: Env, w: World, f: Feature, cr: Instance, x: string): (r: World)
  {
    var s := Cleanup(env, w, f, cr, x);
    if s.ok then SetManaged(s.w, f, Managed(s.w, f) - {x}) else s.w
  }

  function PruneOne(env: Env, w: World, f: Feature, cr: Instance, x: string): (r: Step)
  {
    if !Answered(env, w) then Step(Tick(w), false)
    else if x !in w.c.namespaces || !Owns(f, cr, w.c.namespaces[x]) then Step(Tick(w), true)
    else if AsksForApps(f, cr) && !env.outcome(w.n + 1).Done? then Step(Tick(Tick(w)), false)
    else
      var w1 := if AsksForApps(f, cr) then Tick(Tick(w)) else Tick(w);
      if StillManaged(env, f, w.c, cr, x) then Step(w1, true) else Step(PruneCleanup(env, w1, f, cr, x), true)
  }

  function PruneLoop(env: Env, w: World, f: Feature, cr: Instance, xs: seq<string>): (r: Step)
    decreases |xs|
  {
    if xs == [] then Step(w, true)
    else
      var s := PruneOne(env, w, f, cr, xs[0]);
      if !s.ok then s else PruneLoop(env, s.w, f, cr, xs[1..])
  }

  /** removeUnmanagedApplicationSetSourceNamespaceResources and its notifications twin, going over the
      managed set in any order. */
  function Prune(env: Env, w: World, f: Feature, cr: Instance): (r: Step)
  {
    PruneLoop(env, w, f, cr, env.listing(w.n, Managed(w, f)))
  }

  // ---------- Passes ----------

  function CreateAndPrune(env: Env, rules: seq<Rule>, w: World, f: Feature, cr: Instance): (r: Step)
  {
    var s := Create(env, rules, w, f, cr);
    if !s.ok then s else Prune(env, s.w, f, cr)
  }

  /** The source-namespace share of a reconciliation: restore labels, list for both features, then
      create and prune for ApplicationSet and for notifications. The first stage that fails ends it. */
  function Pass(env: Env, rules: Feature -> seq<Rule>, w: World, cr: Instance): (r: Step)
  {
    var a := Restore(env, w, cr);
    if !a.ok then a else
      var b := ListManaged(env, a.w, ApplicationSet, cr);
      if !b.ok then b else
        var d := ListManaged(env, b.w, Notifications, cr);
        if !d.ok then d else
          var e := CreateAndPrune(env, rules(ApplicationSet), d.w, ApplicationSet, cr);
          if !e.ok then e else CreateAndPrune(env, rules(Notifications), e.w, Notifications, cr)
  }
}
