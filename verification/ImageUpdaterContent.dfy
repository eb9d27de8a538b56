/** What the roles and bindings of the Image Updater say, field by field, after every history. */
module ImageUpdaterContent {
  import opened Platform
  import opened Rbac
  import opened Text
  import opened ImageUpdater
  import opened ImageUpdaterSteps
  import opened ImageUpdaterPasses

  // ---------- The watch variable ----------

  predicate IsFirst(variables: seq<(string, string)>, i: nat)
    requires i < |variables|
  {
    && variables[i].0 == "IMAGE_UPDATER_WATCH_NAMESPACES"
    && forall j | 0 <= j < i :: variables[j].0 != "IMAGE_UPDATER_WATCH_NAMESPACES"
  }

  /** The first variable of the name counts, trimmed. */
  lemma {:induction false} FirstVariableCounts(variables: seq<(string, string)>, i: nat)
    requires i < |variables| && IsFirst(variables, i)
    ensures WatchNamespaces(variables) == TrimSpace(variables[i].1)
    decreases |variables|
  {
    if i > 0 {
      assert variables[0].0 != "IMAGE_UPDATER_WATCH_NAMESPACES";
      assert forall j | 0 <= j < i - 1 :: variables[1..][j] == variables[j + 1];
      FirstVariableCounts(variables[1..], i - 1);
    }
  }

  /** Without such a variable the value is empty. */
  lemma {:induction false} NoVariable(variables: seq<(string, string)>)
    requires forall i | 0 <= i < |variables| :: variables[i].0 != "IMAGE_UPDATER_WATCH_NAMESPACES"
    ensures WatchNamespaces(variables) == ""
    decreases |variables|
  {
    if variables != [] { NoVariable(variables[1..]); }
  }

  /** The watched namespaces are the trimmed, non-empty entries of the comma-separated value, unless it is "*". */
  lemma WatchedIs(s: Settings, x: string)
    ensures x in Watched(s) <==>
      && s.enabled && WatchNamespaces(s.variables) != "" && WatchNamespaces(s.variables) != "*"
      && x != "" && var parts := SplitComma(WatchNamespaces(s.variables));
                    exists i | 0 <= i < |parts| :: TrimSpace(parts[i]) == x
  {
    var parts := SplitComma(WatchNamespaces(s.variables));
    assert x in Items(parts) <==> IsItem(parts, x);
  }

  // ---------- Labels ----------

  /** Every object has the labels it had, or those of an object that the operator made for the instance. */
  predicate Made(labels: map<string, string>, id: Id)
  {
    && "app.kubernetes.io/managed-by" in labels && labels["app.kubernetes.io/managed-by"] == id.name
    && "app.kubernetes.io/part-of" in labels && labels["app.kubernetes.io/part-of"] == "argocd"
    && "app.kubernetes.io/name" in labels
  }

  ghost predicate LabelsKept(id: Id, w: World, w': World)
  {
    && (forall at | at in w'.roles ::
          (at in w.roles && w'.roles[at].labels == w.roles[at].labels) || Made(w'.roles[at].labels, id))
    && (forall at | at in w'.bindings ::
          (at in w.bindings && w'.bindings[at].labels == w.bindings[at].labels) || Made(w'.bindings[at].labels, id))
  }

  lemma LabelsThen(id: Id, w0: World, w1: World, w2: World)
    requires LabelsKept(id, w0, w1) && LabelsKept(id, w1, w2)
    ensures LabelsKept(id, w0, w2)
  {
  }

  lemma PutRoleLabels(env: Env, w: World, id: Id, at: Ref, desired: Role, enabled: bool)
    requires Made(desired.labels, id)
    ensures LabelsKept(id, w, PutRole(env, w, id, at, desired, enabled).w)
  {
  }

  lemma PutBindingLabels(env: Env, w: World, id: Id, at: Ref, desired: Binding, enabled: bool)
    requires Made(desired.labels, id)
    ensures LabelsKept(id, w, PutBinding(env, w, id, at, desired, enabled).w)
  {
  }

  lemma GrantsAreMade(k: Build, id: Id, rules: seq<Rule>, ns: string)
    ensures Made(BaseGrant(k, id, rules).role.labels, id) && Made(BaseGrant(k, id, rules).binding.labels, id)
    ensures Made(ClusterGrant(k, id).role.labels, id) && Made(ClusterGrant(k, id).binding.labels, id)
    ensures Made(NamespaceGrant(k, id, ns).role.labels, id) && Made(NamespaceGrant(k, id, ns).binding.labels, id)
  {
  }

  lemma ApplyLabels(env: Env, w: World, id: Id, g: Grant)
    requires Made(g.role.labels, id) && Made(g.binding.labels, id)
    ensures LabelsKept(id, w, Apply(env, w, id, g).w)
  {
    var a := PutRole(env, w, id, g.roleAt, g.role, true);
    PutRoleLabels(env, w, id, g.roleAt, g.role, true);
    if a.ok {
      PutBindingLabels(env, a.w, id, g.bindingAt, g.binding, true);
      LabelsThen(id, w, a.w, PutBinding(env, a.w, id, g.bindingAt, g.binding, true).w);
    }
  }

  lemma {:induction false} ApplyAllLabels(env: Env, k: Build, w: World, id: Id, xs: seq<string>)
    ensures LabelsKept(id, w, ApplyAll(env, k, w, id, xs).w)
    decreases |xs|
  {
    if xs != [] {
      var g := NamespaceGrant(k, id, xs[0]);
      GrantsAreMade(k, id, [], xs[0]);
      ApplyLabels(env, w, id, g);
      var a := Apply(env, w, id, g);
      ApplyAllLabels(env, k, a.w, id, xs[1..]);
      LabelsThen(id, w, a.w, ApplyAll(env, k, a.w, id, xs[1..]).w);
    }
  }

  lemma ApplyModeLabels(env: Env, k: Build, w: World, s: Settings)
    ensures LabelsKept(s.id, w, ApplyMode(env, k, w, s).w)
  {
    GrantsAreMade(k, s.id, k.base, "");
    GrantsAreMade(k, s.id, k.base + k.manager, "");
    ApplyLabels(env, w, s.id, BaseGrant(k, s.id, k.base + k.manager));
    var g := BaseGrant(k, s.id, k.base);
    ApplyLabels(env, w, s.id, g);
    var a := Apply(env, w, s.id, g);
    match ModeOf(s.variables)
    case Combined =>
    case ClusterWide =>
      ApplyLabels(env, a.w, s.id, ClusterGrant(k, s.id));
      LabelsThen(s.id, w, a.w, Apply(env, a.w, s.id, ClusterGrant(k, s.id)).w);
    case Listed(xs) =>
      ApplyAllLabels(env, k, a.w, s.id, xs);
      LabelsThen(s.id, w, a.w, ApplyAll(env, k, a.w, s.id, xs).w);
  }

  lemma DropClusterLabels(env: Env, k: Build, w: World, id: Id)
    ensures LabelsKept(id, w, DropCluster(env, k, w, id).w)
  {
    var g := ClusterGrant(k, id);
    GrantsAreMade(k, id, [], "");
    PutRoleLabels(env, w, id, g.roleAt, g.role, false);
    var a := PutRole(env, w, id, g.roleAt, g.role, false);
    PutBindingLabels(env, a.w, id, g.bindingAt, g.binding, false);
    LabelsThen(id, w, a.w, PutBinding(env, a.w, id, g.bindingAt, g.binding, false).w);
  }

  lemma DropBindingsLabels(env: Env, k: Build, w: World, id: Id)
    ensures LabelsKept(id, w, DropBindings(env, k, w, id).w)
  {
    var base, cluster := BaseGrant(k, id, k.base), ClusterGrant(k, id);
    GrantsAreMade(k, id, k.base, "");
    PutBindingLabels(env, w, id, base.bindingAt, base.binding, false);
    var a := PutBinding(env, w, id, base.bindingAt, base.binding, false);
    PutBindingLabels(env, a.w, id, cluster.bindingAt, cluster.binding, false);
    LabelsThen(id, w, a.w, PutBinding(env, a.w, id, cluster.bindingAt, cluster.binding, false).w);
  }

  lemma DropRolesLabels(env: Env, k: Build, w: World, id: Id)
    ensures LabelsKept(id, w, DropRoles(env, k, w, id).w)
  {
    var base, cluster := BaseGrant(k, id, k.base), ClusterGrant(k, id);
    GrantsAreMade(k, id, k.base, "");
    PutRoleLabels(env, w, id, base.roleAt, base.role, false);
    var a := PutRole(env, w, id, base.roleAt, base.role, false);
    PutRoleLabels(env, a.w, id, cluster.roleAt, cluster.role, false);
    LabelsThen(id, w, a.w, PutRole(env, a.w, id, cluster.roleAt, cluster.role, false).w);
  }

  lemma AccountLabels(env: Env, k: Build, w: World, s: Settings)
    ensures LabelsKept(s.id, w, EnsureAccount(env, k, w, s).w)
  {
  }

  lemma PruneLabels(env: Env, w: World, id: Id, keep: set<string>)
    requires ListsOnce(env)
    ensures LabelsKept(id, w, PruneAndFinish(env, w, id, keep).w)
  {
    PruneIsExact(env, w, id, keep);
  }

  lemma EnabledLabels(env: Env, k: Build, w: World, s: Settings)
    requires ListsOnce(env)
    ensures LabelsKept(s.id, w, EnabledPass(env, k, w, s).w)
  {
    var a := EnsureAccount(env, k, w, s);
    AccountLabels(env, k, w, s);
    if a.ok {
      DropClusterLabels(env, k, a.w, s.id);
      var b := if ModeOf(s.variables).ClusterWide? then a else DropCluster(env, k, a.w, s.id);
      LabelsThen(s.id, w, a.w, b.w);
      if b.ok {
        ApplyModeLabels(env, k, b.w, s);
        var c := ApplyMode(env, k, b.w, s);
        LabelsThen(s.id, w, b.w, c.w);
        if c.ok {
          PruneLabels(env, c.w, s.id, Watched(s));
          LabelsThen(s.id, w, c.w, PruneAndFinish(env, c.w, s.id, Watched(s)).w);
        }
      }
    }
  }

  lemma AfterOtherLabels(env: Env, k: Build, a: Step, s: Settings)
    requires ListsOnce(env)
    ensures LabelsKept(s.id, a.w, AfterOther(env, k, a, s).w)
  {
    if a.ok {
      DropBindingsLabels(env, k, a.w, s.id);
      var b := DropBindings(env, k, a.w, s.id);
      if b.ok {
        AccountLabels(env, k, b.w, s);
        var c := EnsureAccount(env, k, b.w, s);
        LabelsThen(s.id, a.w, b.w, c.w);
        if c.ok {
          DropRolesLabels(env, k, c.w, s.id);
          var d := DropRoles(env, k, c.w, s.id);
          LabelsThen(s.id, a.w, c.w, d.w);
          if d.ok {
            PruneLabels(env, d.w, s.id, {});
            LabelsThen(s.id, a.w, d.w, PruneAndFinish(env, d.w, s.id, {}).w);
          }
        }
      }
    }
  }

  lemma PassLabels(env: Env, k: Build, w: World, s: Settings)
    requires ListsOnce(env)
    ensures LabelsKept(s.id, w, Pass(env, k, w, s).w)
  {
    if s.enabled {
      EnabledLabels(env, k, w, s);
    } else {
      var a := Other(env, AfterLookups(w));
      AfterOtherLabels(env, k, a, s);
      LabelsThen(s.id, w, a.w, AfterOther(env, k, a, s).w);
    }
  }

  /** Over every history, with any answers, every object that the passes create carries the labels of this
      instance, and every other one keeps its labels. */
  lemma {:induction false} RunLabels(env: Env, k: Build, w: World, id: Id, history: seq<Settings>)
    requires ListsOnce(env) && forall s | s in history :: s.id == id
    ensures LabelsKept(id, w, Run(env, k, w, history).w)
    decreases |history|
  {
    if history != [] {
      var rest, s := history[..|history| - 1], history[|history| - 1];
      assert s in history && forall x | x in rest :: x in history;
      RunLabels(env, k, w, id, rest);
      var b := Run(env, k, w, rest);
      PassLabels(env, k, b.w, s);
      LabelsThen(id, w, b.w, Pass(env, k, b.w, s).w);
    }
  }

  // ---------- Contents ----------

  /** The one subject is a service account of that namespace, and `account` names it. */
  predicate Names(subjects: seq<Subject>, name: string, namespace: string)
  {
    && |subjects| == 1 && subjects[0].kind == "ServiceAccount"
    && subjects[0].name == name && subjects[0].namespace == namespace
  }

  /** Every history whose last pass succeeds. The service account of the component is there exactly when the
      Image Updater is enabled. Each watched namespace holds the manager role and a binding that grants it to
      that account, by name and namespace. With "*" so do the cluster role and the cluster binding. In the
      instance's own namespace is a role with the base rules, and the manager rules too when nothing is
      watched, and a binding that grants it to the account of that name in the same namespace. */
  lemma ContentsAreRight(env: Env, k: Build, w: World, id: Id, history: seq<Settings>)
    requires ListsOnce(env) && Distinct(k, id) && Consistent(k, id, w)
    requires history != [] && forall s | s in history :: s.id == id
    requires Run(env, k, w, history).ok
    ensures var s, w' := history[|history| - 1], Run(env, k, w, history).w;
      var account := NameWithSuffix(k.hash, id.name, "argocd-image-updater-controller");
      (id.namespace, account) in w'.accounts <==> s.enabled
    ensures var s, w' := history[|history| - 1], Run(env, k, w, history).w;
      var account := NameWithSuffix(k.hash, id.name, "argocd-image-updater-controller");
      forall ns | ns in Watched(s) ::
        var role := (ns, id.name + "_" + ns);
        var binding := (ns, TruncateWithHash(k.hash, id.name + "_" + ns, 63));
        && role in w'.roles && w'.roles[role].rules == k.manager
        && binding in w'.bindings && w'.bindings[binding].roleRef == RoleRef("Role", id.name + "_" + ns)
        && Names(w'.bindings[binding].subjects, account, id.namespace)
    ensures var s, w' := history[|history| - 1], Run(env, k, w, history).w;
      var account := NameWithSuffix(k.hash, id.name, "argocd-image-updater-controller");
      var name := id.name + "-" + id.namespace + "-argocd-image-updater-controller";
      s.enabled && WatchNamespaces(s.variables) == "*" ==>
        && ("", name) in w'.roles && w'.roles[("", name)].rules == k.manager
        && ("", name) in w'.bindings && w'.bindings[("", name)].roleRef == RoleRef("ClusterRole", name)
        && Names(w'.bindings[("", name)].subjects, account, id.namespace)
    ensures var s, w' := history[|history| - 1], Run(env, k, w, history).w;
      var account := NameWithSuffix(k.hash, id.name, "argocd-image-updater-controller");
      var at := (id.namespace, account);
      if s.enabled then
        && at in w'.roles
        && w'.roles[at].rules == (if WatchNamespaces(s.variables) == "" then k.base + k.manager else k.base)
        && at in w'.bindings && w'.bindings[at].roleRef == RoleRef("Role", account)
        && Names(w'.bindings[at].subjects, account, "")
      else at !in w'.roles && at !in w'.bindings
  {
    EveryRunIsExact(env, k, w, id, history);
    var s, w' := history[|history| - 1], Run(env, k, w, history).w;
    assert s in history;
    ExactContents(k, s, w');
  }

  lemma ExactContents(k: Build, s: Settings, w: World)
    requires Exactly(k, s, w)
    ensures var account := NameWithSuffix(k.hash, s.id.name, "argocd-image-updater-controller");
      (s.id.namespace, account) in w.accounts <==> s.enabled
    ensures var account := NameWithSuffix(k.hash, s.id.name, "argocd-image-updater-controller");
      forall ns | ns in Watched(s) ::
        var role := (ns, s.id.name + "_" + ns);
        var binding := (ns, TruncateWithHash(k.hash, s.id.name + "_" + ns, 63));
        && role in w.roles && w.roles[role].rules == k.manager
        && binding in w.bindings && w.bindings[binding].roleRef == RoleRef("Role", s.id.name + "_" + ns)
        && Names(w.bindings[binding].subjects, account, s.id.namespace)
    ensures var account := NameWithSuffix(k.hash, s.id.name, "argocd-image-updater-controller");
      var name := s.id.name + "-" + s.id.namespace + "-argocd-image-updater-controller";
      s.enabled && WatchNamespaces(s.variables) == "*" ==>
        && ("", name) in w.roles && w.roles[("", name)].rules == k.manager
        && ("", name) in w.bindings && w.bindings[("", name)].roleRef == RoleRef("ClusterRole", name)
        && Names(w.bindings[("", name)].subjects, account, s.id.namespace)
    ensures var account := NameWithSuffix(k.hash, s.id.name, "argocd-image-updater-controller");
      var at := (s.id.namespace, account);
      if s.enabled then
        && at in w.roles
        && w.roles[at].rules == (if WatchNamespaces(s.variables) == "" then k.base + k.manager else k.base)
        && at in w.bindings && w.bindings[at].roleRef == RoleRef("Role", account)
        && Names(w.bindings[at].subjects, account, "")
      else at !in w.roles && at !in w.bindings
  {
    ClusterName(s.id);
    forall ns | ns in Watched(s) ensures Granted(w, NamespaceGrant(k, s.id, ns)) {
    }
  }

  lemma OwnedGo(id: Id, w: World, w': World, at: Ref)
    requires LabelsKept(id, w, w')
    requires (at in w.roles ==> OwnsRole(w, id, at)) && (at in w.bindings ==> OwnsBinding(w, id, at))
    ensures at in w'.roles ==> OwnsRole(w', id, at)
    ensures at in w'.bindings ==> OwnsBinding(w', id, at)
  {
  }

  lemma ClusterName(id: Id)
    ensures ClusterRef(id) == ("", id.name + "-" + id.namespace + "-argocd-image-updater-controller")
  {
    assert id.name + "-" + id.namespace + "-" + COMPONENT == id.name + "-" + id.namespace + ("-" + COMPONENT);
    assert "-" + COMPONENT == "-argocd-image-updater-controller";
  }

  /** From a start whose cluster objects of that name, if any, belong to this instance: over every history
      whose last pass succeeds and does not ask for cluster scope, there are none left. */
  lemma ClusterObjectsGo(env: Env, k: Build, w: World, id: Id, history: seq<Settings>)
    requires ListsOnce(env) && Distinct(k, id) && Consistent(k, id, w)
    requires history != [] && forall s | s in history :: s.id == id
    requires Run(env, k, w, history).ok
    requires var s := history[|history| - 1]; !(s.enabled && WatchNamespaces(s.variables) == "*")
    requires var at := ("", id.name + "-" + id.namespace + "-argocd-image-updater-controller");
      && (at in w.roles ==> OwnsRole(w, id, at)) && (at in w.bindings ==> OwnsBinding(w, id, at))
    ensures var at := ("", id.name + "-" + id.namespace + "-argocd-image-updater-controller");
      at !in Run(env, k, w, history).w.roles && at !in Run(env, k, w, history).w.bindings
  {
    var s, w' := history[|history| - 1], Run(env, k, w, history).w;
    assert s in history;
    EveryRunIsExact(env, k, w, id, history);
    RunLabels(env, k, w, id, history);
    ClusterName(id);
    OwnedGo(id, w, w', ClusterRef(id));
    ExactlyWithoutCluster(k, s, w');
  }

  lemma ExactlyWithoutCluster(k: Build, s: Settings, w: World)
    requires Exactly(k, s, w) && !(s.enabled && WatchNamespaces(s.variables) == "*")
    ensures !OwnsRole(w, s.id, ClusterRef(s.id)) && !OwnsBinding(w, s.id, ClusterRef(s.id))
  {
  }
}
