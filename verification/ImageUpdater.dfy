/** The RBAC of the Image Updater: which roles and bindings one reconciliation creates, updates and
    deletes, call by call, for each watch mode and when the Image Updater is disabled. */
module ImageUpdater {
  import opened Platform
  import opened Rbac
  import opened Text

  const COMPONENT := "argocd-image-updater-controller"
  const WATCH := "IMAGE_UPDATER_WATCH_NAMESPACES"

  /** Marks every role and binding of a watched namespace. */
  const TAG := "argocd.argoproj.io/image-updater-managed-namespace"

  /** What is fixed when the operator is built: the two rule tables and the name hash. */
  datatype Build = Build(base: seq<Rule>, manager: seq<Rule>, hash: string -> Suffix)

  datatype Id = Id(name: string, namespace: string)

  /** One ArgoCD resource: `variables` are the Image Updater's environment variables. */
  datatype Settings = Settings(id: Id, clusterScoped: bool, enabled: bool, variables: seq<(string, string)>)

  /** Roles and bindings by namespace and name, cluster-wide ones under the empty namespace; service
      accounts; the call counters. */
  datatype World = World(
    roles: map<Ref, Role>,
    bindings: map<Ref, Binding>,
    accounts: set<Ref>,
    n: nat,
    writes: nat)

  datatype Step = Step(w: World, ok: bool)

  function Tick(w: World): (r: World) { w.(n := w.n + 1) }

  predicate Answered(env: Env, w: World) { env.outcome(w.n).Done? }

  // ---------- Watch modes ----------

  datatype Mode = Combined | ClusterWide | Listed(namespaces: seq<string>)

  /** The first variable of that name counts. */
  function WatchNamespaces(variables: seq<(string, string)>): (r: string)
  {
    if variables == [] then ""
    else if variables[0].0 == WATCH then TrimSpace(variables[0].1)
    else WatchNamespaces(variables[1..])
  }

  function ModeOf(variables: seq<(string, string)>): (r: Mode)
  {
    var v := WatchNamespaces(variables);
    if v == "*" then ClusterWide else if v == "" then Combined else Listed(Items(SplitComma(v)))
  }

  /** The namespaces whose roles and bindings are kept. */
  function Watched(s: Settings): (r: set<string>)
  {
    if s.enabled && ModeOf(s.variables).Listed? then set x | x in ModeOf(s.variables).namespaces else {}
  }

  predicate WantsCluster(s: Settings) { s.enabled && ModeOf(s.variables).ClusterWide? }

  /** The rules of the role in the instance's own namespace. */
  function BaseRules(k: Build, s: Settings): (r: Option<seq<Rule>>)
  {
    if !s.enabled then None
    else if ModeOf(s.variables).Combined? then Some(k.base + k.manager)
    else Some(k.base)
  }

  // ---------- Names ----------

  function ComponentName(k: Build, id: Id): (r: string) { NameWithSuffix(k.hash, id.name, COMPONENT) }

  function BaseRef(k: Build, id: Id): (r: Ref) { (id.namespace, ComponentName(k, id)) }

  function ClusterRef(id: Id): (r: Ref) { ("", id.name + "-" + id.namespace + "-" + COMPONENT) }

  function RoleIn(id: Id, ns: string): (r: Ref) { (ns, id.name + "_" + ns) }

  function BindingIn(k: Build, id: Id, ns: string): (r: Ref)
  {
    (ns, TruncateWithHash(k.hash, id.name + "_" + ns, MAX_NAME))
  }

  /** The premise on names: the instance's own namespace may be watched too without a clash. */
  predicate Distinct(k: Build, id: Id)
  {
    && id.namespace != ""
    && RoleIn(id, id.namespace) != BaseRef(k, id)
    && BindingIn(k, id, id.namespace) != BaseRef(k, id)
  }

  // ---------- Desired objects ----------

  /** A role and the binding that grants it to the Image Updater's service account. */
  datatype Grant = Grant(roleAt: Ref, role: Role, bindingAt: Ref, binding: Binding)

  function Account(k: Build, id: Id, namespace: string): (r: seq<Subject>)
  {
    [Subject("ServiceAccount", ComponentName(k, id), namespace)]
  }

  function BaseGrant(k: Build, id: Id, rules: seq<Rule>): (r: Grant)
  {
    Grant(BaseRef(k, id), Role(DefaultLabels(id.name), rules),
          BaseRef(k, id),
          Binding(DefaultLabels(id.name)[KEY_NAME := COMPONENT], RoleRef("Role", BaseRef(k, id).1), Account(k, id, "")))
  }

  function ClusterGrant(k: Build, id: Id): (r: Grant)
  {
    Grant(ClusterRef(id), Role(DefaultLabels(id.name), k.manager),
          ClusterRef(id),
          Binding(DefaultLabels(id.name)[KEY_NAME := COMPONENT], RoleRef("ClusterRole", ClusterRef(id).1),
                  Account(k, id, id.namespace)))
  }

  function NamespaceGrant(k: Build, id: Id, ns: string): (r: Grant)
  {
    Grant(RoleIn(id, ns), Role(DefaultLabels(id.name)[TAG := "true"], k.manager),
          BindingIn(k, id, ns),
          Binding(DefaultLabels(id.name)[TAG := "true"], RoleRef("Role", RoleIn(id, ns).1),
                  Account(k, id, id.namespace)))
  }

  /** The label selector of pruning. */
  predicate Tagged(labels: map<string, string>, id: Id)
  {
    KEY_NAME in labels && labels[KEY_NAME] == id.name && TAG in labels && labels[TAG] == "true"
  }

  // ---------- Single steps ----------

  function PutAccount(env: Env, w: World, at: Ref, enabled: bool): (r: Step)
  {
    var o := env.outcome(w.n + 1);
    if !Answered(env, w) then Step(Tick(w), false)
    else if (at in w.accounts) == enabled then Step(Tick(w), true)
    else
      var after := if enabled then w.accounts + {at} else w.accounts - {at};
      Step(w.(n := w.n + 2, writes := w.writes + 1, accounts := if o.Rejected? then w.accounts else after), o.Done?)
  }

  /** The service account of the component. */
  function EnsureAccount(env: Env, k: Build, w: World, s: Settings): (r: Step)
  {
    PutAccount(env, w, BaseRef(k, s.id), s.enabled)
  }

  function PutRole(env: Env, w: World, id: Id, at: Ref, desired: Role, enabled: bool): (r: Step)
  {
    var s := HelperRole(env, w.n, w.writes, Lookup(w.roles, at), desired, enabled, at.0 == "", id.name);
    Step(w.(roles := Store(w.roles, at, s.obj), n := s.n, writes := s.writes), s.ok)
  }

  function PutBinding(env: Env, w: World, id: Id, at: Ref, desired: Binding, enabled: bool): (r: Step)
  {
    var s := HelperBinding(env, w.n, w.writes, Lookup(w.bindings, at), desired, enabled, at.0 == "", id.name);
    Step(w.(bindings := Store(w.bindings, at, s.obj), n := s.n, writes := s.writes), s.ok)
  }

  /** Role first, then binding. */
  function Apply(env: Env, w: World, id: Id, g: Grant): (r: Step)
  {
    var a := PutRole(env, w, id, g.roleAt, g.role, true);
    if !a.ok then a else PutBinding(env, a.w, id, g.bindingAt, g.binding, true)
  }

  function ApplyAll(env: Env, k: Build, w: World, id: Id, xs: seq<string>): (r: Step)
    decreases |xs|
  {
    if xs == [] then Step(w, true)
    else
      var a := Apply(env, w, id, NamespaceGrant(k, id, xs[0]));
      if !a.ok then a else ApplyAll(env, k, a.w, id, xs[1..])
  }

  /** deleteImageUpdaterClusterRBAC: the cluster role, then its binding, each only if it is there and
      owned by this instance. */
  function DropCluster(env: Env, k: Build, w: World, id: Id): (r: Step)
  {
    var g := ClusterGrant(k, id);
    var a := PutRole(env, w, id, g.roleAt, g.role, false);
    if !a.ok then a else PutBinding(env, a.w, id, g.bindingAt, g.binding, false)
  }

  // ---------- Pruning ----------

  function TaggedRoles(w: World, id: Id): (r: set<Ref>)
  {
    set r | r in w.roles && r.0 != "" && Tagged(w.roles[r].labels, id)
  }

  function TaggedBindings(w: World, id: Id): (r: set<Ref>)
  {
    set r | r in w.bindings && r.0 != "" && Tagged(w.bindings[r].labels, id)
  }

  function DeleteRole(env: Env, w: World, at: Ref): (r: Step)
  {
    var o := env.outcome(w.n);
    Step(w.(n := w.n + 1, writes := w.writes + 1, roles := if o.Rejected? then w.roles else w.roles - {at}), o.Done?)
  }

  function DeleteBinding(env: Env, w: World, at: Ref): (r: Step)
  {
    var o := env.outcome(w.n);
    Step(w.(n := w.n + 1, writes := w.writes + 1,
            bindings := if o.Rejected? then w.bindings else w.bindings - {at}), o.Done?)
  }

  function PruneRoles(env: Env, w: World, refs: seq<Ref>, keep: set<string>): (r: Step)
    decreases |refs|
  {
    if refs == [] then Step(w, true)
    else if refs[0].0 in keep then PruneRoles(env, w, refs[1..], keep)
    else
      var s := DeleteRole(env, w, refs[0]);
      if !s.ok then s else PruneRoles(env, s.w, refs[1..], keep)
  }

  function PruneBindings(env: Env, w: World, refs: seq<Ref>, keep: set<string>): (r: Step)
    decreases |refs|
  {
    if refs == [] then Step(w, true)
    else if refs[0].0 in keep then PruneBindings(env, w, refs[1..], keep)
    else
      var s := DeleteBinding(env, w, refs[0]);
      if !s.ok then s else PruneBindings(env, s.w, refs[1..], keep)
  }

  /** pruneImageUpdaterNamespaceRBAC */
  function Prune(env: Env, w: World, id: Id, keep: set<string>): (r: Step)
  {
    if !Answered(env, w) then Step(Tick(w), false)
    else
      var a := PruneRoles(env, Tick(w), env.listingPairs(w.n, TaggedRoles(w, id)), keep);
      if !a.ok then a
      else if !Answered(env, a.w) then Step(Tick(a.w), false)
      else PruneBindings(env, Tick(a.w), env.listingPairs(a.w.n, TaggedBindings(a.w, id)), keep)
  }

  // ---------- Whole passes ----------

  /** Reconciling an object that is not RBAC: here it may only succeed or fail. */
  function Other(env: Env, w: World): (r: Step) { Step(Tick(w), Answered(env, w)) }

  /** The part of a pass that depends on the watch mode. */
  function ApplyMode(env: Env, k: Build, w: World, s: Settings): (r: Step)
  {
    match ModeOf(s.variables)
    case Combined => Apply(env, w, s.id, BaseGrant(k, s.id, k.base + k.manager))
    case ClusterWide =>
      if !s.clusterScoped then Step(w, false)
      else
        var a := Apply(env, w, s.id, BaseGrant(k, s.id, k.base));
        if !a.ok then a else Apply(env, a.w, s.id, ClusterGrant(k, s.id))
    case Listed(xs) =>
      var a := Apply(env, w, s.id, BaseGrant(k, s.id, k.base));
      if !a.ok then a else ApplyAll(env, k, a.w, s.id, xs)
  }

  /** After pruning come the secret, the config maps and, when enabled, the deployment. */
  function PruneAndFinish(env: Env, w: World, id: Id, keep: set<string>): (r: Step)
  {
    var a := Prune(env, w, id, keep);
    if !a.ok then a else Other(env, a.w)
  }

  /** reconcileImageUpdaterControllerEnabled */
  function EnabledPass(env: Env, k: Build, w: World, s: Settings): (r: Step)
  {
    var a := EnsureAccount(env, k, w, s);
    if !a.ok then a else
      var b := if ModeOf(s.variables).ClusterWide? then a else DropCluster(env, k, a.w, s.id);
      if !b.ok then b else
        var c := ApplyMode(env, k, b.w, s);
        if !c.ok then c else PruneAndFinish(env, c.w, s.id, Watched(s))
  }

  /** The bindings in the instance's namespace and for the cluster. */
  function DropBindings(env: Env, k: Build, w: World, id: Id): (r: Step)
  {
    var base, cluster := BaseGrant(k, id, k.base), ClusterGrant(k, id);
    var a := PutBinding(env, w, id, base.bindingAt, base.binding, false);
    if !a.ok then a else PutBinding(env, a.w, id, cluster.bindingAt, cluster.binding, false)
  }

  function DropRoles(env: Env, k: Build, w: World, id: Id): (r: Step)
  {
    var base, cluster := BaseGrant(k, id, k.base), ClusterGrant(k, id);
    var a := PutRole(env, w, id, base.roleAt, base.role, false);
    if !a.ok then a else PutRole(env, a.w, id, cluster.roleAt, cluster.role, false)
  }

  /** Bindings, service account, roles. */
  function DropAccess(env: Env, k: Build, w: World, s: Settings): (r: Step)
  {
    var a := DropBindings(env, k, w, s.id);
    if !a.ok then a else
      var b := EnsureAccount(env, k, a.w, s);
      if !b.ok then b else DropRoles(env, k, b.w, s.id)
  }

  function FinishDisabled(env: Env, a: Step, id: Id): (r: Step)
  {
    if !a.ok then a else PruneAndFinish(env, a.w, id, {})
  }

  /** After the network policy and the deployment: the bindings, the service account, the roles. */
  function AfterOther(env: Env, k: Build, a: Step, s: Settings): (r: Step)
  {
    if !a.ok then a else FinishDisabled(env, DropAccess(env, k, a.w, s), s.id)
  }

  /** Four lookups whose failure does not matter. */
  function AfterLookups(w: World): (r: World) { w.(n := w.n + 4) }

  /** reconcileImageUpdaterControllerDisabled, after four lookups whose failure does not matter. */
  function DisabledPass(env: Env, k: Build, w: World, s: Settings): (r: Step)
  {
    AfterOther(env, k, Other(env, AfterLookups(w)), s)
  }

  /** reconcileImageUpdaterController */
  function Pass(env: Env, k: Build, w: World, s: Settings): (r: Step)
  {
    if s.enabled then EnabledPass(env, k, w, s) else DisabledPass(env, k, w, s)
  }

  // ---------- What a pass is for ----------

  predicate HasRole(w: World, at: Ref, rules: seq<Rule>)
  {
    at in w.roles && w.roles[at].rules == rules
  }

  predicate HasBinding(w: World, at: Ref, desired: Binding)
  {
    at in w.bindings && w.bindings[at].roleRef == desired.roleRef && w.bindings[at].subjects == desired.subjects
  }

  predicate Granted(w: World, g: Grant) { HasRole(w, g.roleAt, g.role.rules) && HasBinding(w, g.bindingAt, g.binding) }

  predicate OwnsRole(w: World, id: Id, at: Ref) { at in w.roles && OwnedBy(w.roles[at].labels, id.name) }

  predicate OwnsBinding(w: World, id: Id, at: Ref) { at in w.bindings && OwnedBy(w.bindings[at].labels, id.name) }

  /** The store holds the RBAC of the settings and no other of this instance. */
  predicate Exactly(k: Build, s: Settings, w: World)
  {
    && (match BaseRules(k, s)
        case Some(rules) => Granted(w, BaseGrant(k, s.id, rules))
        case None => BaseRef(k, s.id) !in w.roles && BaseRef(k, s.id) !in w.bindings)
    && (if WantsCluster(s) then Granted(w, ClusterGrant(k, s.id))
        else !OwnsRole(w, s.id, ClusterRef(s.id)) && !OwnsBinding(w, s.id, ClusterRef(s.id)))
    && (forall ns | ns in Watched(s) :: Granted(w, NamespaceGrant(k, s.id, ns)))
    && TaggedRoles(w, s.id) == (set ns | ns in Watched(s) :: RoleIn(s.id, ns))
    && TaggedBindings(w, s.id) == (set ns | ns in Watched(s) :: BindingIn(k, s.id, ns))
    && (BaseRef(k, s.id) in w.accounts <==> s.enabled)
  }

  /** What the operator's own objects look like at all times: the tag is on exactly the objects with the
      per-namespace names, and each binding under one of the instance's names refers to its role. */
  predicate RoleFits(id: Id, at: Ref, r: Role)
  {
    at.0 != "" ==> (Tagged(r.labels, id) <==> at == RoleIn(id, at.0))
  }

  predicate BindingFits(k: Build, id: Id, at: Ref, b: Binding)
  {
    && (at.0 != "" ==> (Tagged(b.labels, id) <==> at == BindingIn(k, id, at.0)))
    && (at == BaseRef(k, id) ==> b.roleRef == RoleRef("Role", BaseRef(k, id).1))
    && (at == ClusterRef(id) ==> b.roleRef == RoleRef("ClusterRole", ClusterRef(id).1))
    && (at.0 != "" && at == BindingIn(k, id, at.0) ==> b.roleRef == RoleRef("Role", RoleIn(id, at.0).1))
  }

  ghost predicate Consistent(k: Build, id: Id, w: World)
  {
    && (forall at | at in w.roles :: RoleFits(id, at, w.roles[at]))
    && (forall at | at in w.bindings :: BindingFits(k, id, at, w.bindings[at]))
  }
}
