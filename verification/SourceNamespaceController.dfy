/** The source-namespace code in its own form: one object whose methods change namespaces, roles, bindings
    and the shared sets call by call, in loops. Each method is proved to do exactly what the state
    transformer of `SourceNamespaces` says. */
module SourceNamespaceController {
  import opened Platform
  import opened Rbac
  import opened SourceNamespaces
  import opened SourceNamespaceCommand

  class Reconciler {
    const env: Env
    var namespaces: map<string, Labels>
    var roles: map<Ref, Role>
    var bindings: map<Ref, Binding>
    var configurations: set<string>
    var managed: map<Feature, set<string>>
    var n: nat
    var writes: nat

    constructor (env: Env)
      ensures this.env == env
      ensures Now() == World(Cluster(map[], map[], map[], {}), map[], 0, 0)
    {
      this.env := env;
      namespaces, roles, bindings, configurations, managed, n, writes := map[], map[], map[], {}, map[], 0, 0;
    }

    ghost function Now(): (r: World)
      reads this
    {
      World(Cluster(namespaces, roles, bindings, configurations), managed, n, writes)
    }

    method Read() returns (ok: bool)
      modifies this`n
      ensures Now() == Tick(old(Now())) && ok == Answered(env, old(Now()))
    {
      ok := env.outcome(n).Done?;
      n := n + 1;
    }

    /** Spend one write call; `took` says whether the API server carried it out. */
    method Spend() returns (took: bool, ok: bool)
      modifies this`n, this`writes
      ensures Now() == old(Now()).(n := old(n) + 1, writes := old(writes) + 1)
      ensures took == !env.outcome(old(n)).Rejected? && ok == env.outcome(old(n)).Done?
    {
      var o := env.outcome(n);
      n, writes := n + 1, writes + 1;
      took, ok := !o.Rejected?, o.Done?;
    }

    method UpdateNamespace(x: string, labels: Labels) returns (ok: bool)
      modifies this`namespaces, this`n, this`writes
      ensures Step(Now(), ok) == Write(env, old(Now()), PutLabels(old(Now()).c, x, labels))
    {
      var took;
      took, ok := Spend();
      if took { namespaces := namespaces[x := labels]; }
    }

    method AddToManaged(f: Feature, x: string)
      modifies this`managed
      ensures Now() == SetManaged(old(Now()), f, Managed(old(Now()), f) + {x})
    {
      managed := managed[f := (if f in managed then managed[f] else {}) + {x}];
    }

    method RemoveFromManaged(f: Feature, x: string)
      modifies this`managed
      ensures Now() == SetManaged(old(Now()), f, Managed(old(Now()), f) - {x})
    {
      managed := managed[f := (if f in managed then managed[f] else {}) - {x}];
    }

    // ---------- Restoring ----------

    /** hasApplicationScopedRules */
    method CheckRules(rules: seq<Rule>) returns (found: bool)
      ensures found == HasApplicationScopedRules(rules)
    {
      for i := 0 to |rules|
        invariant forall k | 0 <= k < i :: !HasApplicationScopedRules([rules[k]])
      {
        var rule := rules[i];
        if "argoproj.io" in rule.groups {
          for j := 0 to |rule.resources|
            invariant forall k | 0 <= k < j ::
              rule.resources[k] !in SCOPED_RESOURCES
          {
            if rule.resources[j] in SCOPED_RESOURCES {
              return true;
            }
          }
        }
      }
      assert forall k | 0 <= k < |rules| :: [rules[k]][0] == rules[k];
      found := false;
    }

    method RestoreFor(cr: Instance, ref: Ref, role: Role) returns (ok: bool)
      modifies this`namespaces, this`n, this`writes
      ensures Step(Now(), ok) == RestoreOne(env, old(Now()), cr, ref, role)
    {
      if ref.0 == cr.namespace { return true; }
      var scoped := CheckRules(role.rules);
      if !scoped || (ref.1 != ResourceName(ApplicationSet, cr) && ref.1 != AppRoleName(cr, ref.0)) { return true; }
      ok := Read();
      if !ok { return; }
      if ref.0 !in namespaces { return; }
      var required := RequiredLabels(ref, cr);
      var labels := AddMissingLabels(namespaces[ref.0], required);
      if labels != namespaces[ref.0] { ok := UpdateNamespace(ref.0, labels); }
    }

    /** addMissingLabels, going over the required labels in any order. */
    method AddMissingLabels(before: Labels, required: Labels) returns (labels: Labels)
      ensures labels == AddMissing(before, required)
    {
      labels := before;
      var keys := required.Keys;
      while keys != {}
        invariant keys <= required.Keys
        invariant labels == (map k | k in required && k !in keys :: required[k]) + before
        decreases keys
      {
        var k :| k in keys;
        keys := keys - {k};
        if k !in labels { labels := labels[k := required[k]]; }
      }
      assert labels == required + before;
    }

    /** restoreTrackingLabelsForOrphanedNamespaces */
    method RestoreTrackingLabels(cr: Instance) returns (ok: bool)
      modifies this`namespaces, this`n, this`writes
      ensures Step(Now(), ok) == Restore(env, old(Now()), cr)
    {
      var listed := map ref | ref in roles && MadeBy(roles[ref], cr) :: roles[ref];
      var refs := env.listingPairs(n, listed.Keys);
      ok := Read();
      if !ok { return; }
      ghost var start := Now();
      var i := 0;
      while i < |refs|
        invariant 0 <= i <= |refs|
        invariant var rest := RestoreLoop(env, Now(), cr, refs[i..], listed);
          RestoreLoop(env, start, cr, refs, listed) == rest.(ok := ok && rest.ok)
      {
        assert refs[i..][0] == refs[i] && refs[i..][1..] == refs[i + 1..];
        if refs[i] in listed {
          var restored := RestoreFor(cr, refs[i], listed[refs[i]]);
          ok := ok && restored;
        }
        i := i + 1;
      }
    }

    // ---------- Listing ----------

    /** setManagedApplicationSetSourceNamespaces, setManagedNotificationsSourceNamespaces */
    method SetManagedNamespaces(f: Feature, cr: Instance) returns (ok: bool)
      modifies this`managed, this`n
      ensures Step(Now(), ok) == ListManaged(env, old(Now()), f, cr)
    {
      ok := Read();
      if !ok { return; }
      var key := LabelKey(f);
      var found := set x | x in namespaces && key in namespaces[x] && namespaces[x][key] == cr.namespace;
      assert found == set x | x in old(Now()).c.namespaces && LabelledFor(old(Now()).c, f, cr, x);
      if f !in managed { managed := managed[f := {}]; }
      assert managed[f] == Managed(old(Now()), f);
      AddAllToManaged(f, found);
      assert managed == old(managed)[f := Managed(old(Now()), f) + found];
    }

    method AddAllToManaged(f: Feature, all: set<string>)
      requires f in managed
      modifies this`managed
      ensures managed == old(managed)[f := old(managed)[f] + all]
    {
      ghost var base := managed;
      var found := all;
      while found != {}
        invariant found <= all
        invariant f in managed && managed[f] == base[f] + (all - found)
        invariant managed == base[f := managed[f]]
        decreases found
      {
        var x :| x in found;
        found := found - {x};
        managed := managed[f := managed[f] + {x}];
      }
      assert managed[f] == base[f] + all;
    }

    /** getSourceNamespaces after its list call: the listed namespaces that match. */
    method MatchingNamespaces(patterns: seq<string>, listing: seq<string>) returns (xs: seq<string>)
      ensures xs == Matching(env, patterns, listing)
    {
      xs := [];
      var i := |listing|;
      while i > 0
        invariant 0 <= i <= |listing|
        invariant xs == Matching(env, patterns, listing[i..])
      {
        i := i - 1;
        assert listing[i..][0] == listing[i] && listing[i..][1..] == listing[i + 1..];
        if env.matches(patterns, listing[i]) { xs := [listing[i]] + xs; }
      }
    }

    // ---------- Cleaning up ----------

    method DeleteRole(ref: Ref) returns (ok: bool)
      modifies this`roles, this`n, this`writes
      ensures Step(Now(), ok) == DropRole(env, old(Now()), ref)
    {
      ok := Read();
      if !ok { return; }
      if ref in roles {
        var took;
        took, ok := Spend();
        if took { roles := roles - {ref}; }
      }
    }

    method DeleteBinding(ref: Ref) returns (ok: bool)
      modifies this`bindings, this`n, this`writes
      ensures Step(Now(), ok) == DropBinding(env, old(Now()), ref)
    {
      ok := Read();
      if !ok { return; }
      if ref in bindings {
        var took;
        took, ok := Spend();
        if took { bindings := bindings - {ref}; }
      }
    }

    method DeleteConfiguration(f: Feature, x: string) returns (ok: bool)
      modifies this`configurations, this`n, this`writes
      ensures Step(Now(), ok) == DropConfiguration(env, old(Now()), f, x)
    {
      if f.ApplicationSet? { return true; }
      ok := Read();
      if !ok { return; }
      if x in configurations {
        var took;
        took, ok := Spend();
        if took { configurations := configurations - {x}; }
      }
    }

    /** cleanupUnmanagedApplicationSetSourceNamespaceResources, cleanupUnmanagedNotificationsSourceNamespaceResources */
    method CleanupUnmanaged(f: Feature, cr: Instance, x: string) returns (ok: bool)
      modifies this`namespaces, this`roles, this`bindings, this`configurations, this`n, this`writes
      ensures Step(Now(), ok) == Cleanup(env, old(Now()), f, cr, x)
    {
      ok := Read();
      if !ok { return; }
      if x !in namespaces { return; }
      var labels := namespaces[x];
      var ref := (x, ResourceName(f, cr));
      ok := DeleteRole(ref);
      if !ok { return; }
      ok := DeleteBinding(ref);
      if !ok { return; }
      ok := DeleteConfiguration(f, x);
      if !ok { return; }
      ok := UpdateNamespace(x, labels - {LabelKey(f)});
    }

    // ---------- Creating ----------

    /** reconcileSourceNamespaceRole */
    method ReconcileRole(ref: Ref, desired: Role) returns (ok: bool)
      modifies this`roles, this`n, this`writes
      ensures Step(Now(), ok) == EnsureRole(env, old(Now()), ref, desired)
    {
      ok := Read();
      if !ok { return; }
      var took := false;
      if ref !in roles {
        took, ok := Spend();
        if took { roles := roles[ref := desired]; }
      } else if roles[ref].rules != desired.rules {
        took, ok := Spend();
        if took { roles := roles[ref := roles[ref].(rules := desired.rules)]; }
      }
      assert roles == Store(old(roles), ref, Lookup(roles, ref));
    }

    /** reconcileSourceNamespaceRoleBinding */
    method ReconcileBinding(ref: Ref, desired: Binding) returns (ok: bool)
      modifies this`bindings, this`n, this`writes
      ensures Step(Now(), ok) == EnsureBinding(env, old(Now()), ref, desired)
    {
      ok := Read();
      if !ok { return; }
      var took := false;
      if ref !in bindings {
        took, ok := Spend();
        if took { bindings := bindings[ref := desired]; }
      } else if bindings[ref].roleRef != desired.roleRef {
        took, ok := Spend();
        if took { bindings := bindings - {ref}; }
      } else if bindings[ref].subjects != desired.subjects {
        took, ok := Spend();
        if took { bindings := bindings[ref := bindings[ref].(subjects := desired.subjects)]; }
      }
      assert bindings == Store(old(bindings), ref, Lookup(bindings, ref));
    }

    method ReconcileConfiguration(f: Feature, x: string) returns (ok: bool)
      modifies this`configurations, this`n, this`writes
      ensures Step(Now(), ok) == EnsureConfiguration(env, old(Now()), f, x)
    {
      if f.ApplicationSet? { return true; }
      ok := Read();
      if !ok { return; }
      if x !in configurations {
        var took;
        took, ok := Spend();
        if took { configurations := configurations + {x}; }
      }
    }

    method CreateResources(rules: seq<Rule>, f: Feature, cr: Instance, x: string) returns (ok: bool)
      modifies this
      ensures Turn(Now(), ok, false) == EnsureResources(env, rules, old(Now()), f, cr, x)
    {
      var ref := (x, ResourceName(f, cr));
      var a := ReconcileRole(ref, DesiredRole(cr, rules));
      var b := ReconcileBinding(ref, DesiredBinding(f, cr));
      var d := ReconcileConfiguration(f, x);
      AddToManaged(f, x);
      ok := a && b && d;
    }

    /** The part of one turn for a namespace that no one else manages. */
    method TakeNamespace(rules: seq<Rule>, f: Feature, cr: Instance, x: string) returns (ok: bool, abort: bool)
      requires x in namespaces
      modifies this
      ensures var s := EnsureLabel(env, old(Now()), f, cr, x);
        Turn(Now(), ok, abort) == if !s.ok then Turn(s.w, false, true) else EnsureResources(env, rules, s.w, f, cr, x)
    {
      if LabelKey(f) !in namespaces[x] {
        var latest := Read();
        if !latest { return false, true; }
        var added := UpdateNamespace(x, namespaces[x][LabelKey(f) := cr.namespace]);
      }
      assert Now() == EnsureLabel(env, old(Now()), f, cr, x).w;
      ok := CreateResources(rules, f, cr, x);
      abort := false;
    }

    /** One turn of the create loop. */
    method CreateInNamespace(rules: seq<Rule>, f: Feature, cr: Instance, x: string) returns (ok: bool, abort: bool)
      modifies this
      ensures Turn(Now(), ok, abort) == CreateIn(env, rules, old(Now()), f, cr, x)
    {
      abort := false;
      ok := Read();
      if !ok || x !in namespaces { return false, false; }
      var labels := namespaces[x];
      if MANAGED_BY_LABEL in labels && labels[MANAGED_BY_LABEL] != "" {
        if LabelKey(f) in labels && labels[LabelKey(f)] != cr.namespace {
          RemoveFromManaged(f, x);
          var cleaned := CleanupUnmanaged(f, cr, x);
        }
        return;
      }
      ok, abort := TakeNamespace(rules, f, cr, x);
    }

    method CreateInAll(rules: seq<Rule>, f: Feature, cr: Instance, xs: seq<string>) returns (ok: bool)
      modifies this
      ensures Step(Now(), ok) == CreateLoop(env, rules, old(Now()), f, cr, xs)
    {
      ok := true;
      ghost var start := Now();
      var i := 0;
      while i < |xs|
        invariant 0 <= i <= |xs|
        invariant var rest := CreateLoop(env, rules, Now(), f, cr, xs[i..]);
          CreateLoop(env, rules, start, f, cr, xs) == rest.(ok := ok && rest.ok)
      {
        assert xs[i..][0] == xs[i] && xs[i..][1..] == xs[i + 1..];
        var done, abort := CreateInNamespace(rules, f, cr, xs[i]);
        if abort { return false; }
        ok := ok && done;
        i := i + 1;
      }
    }

    /** reconcileApplicationSetSourceNamespacesResources */
    method ReconcileApplicationSetNamespaces(rules: seq<Rule>, cr: Instance) returns (ok: bool)
      requires ListsOnce(env)
      modifies this
      ensures Step(Now(), ok) == CreateApplicationSet(env, rules, old(Now()), cr)
    {
      if cr.applicationSet.None? || !cr.clusterScoped { return true; }
      var listing := env.listing(n, namespaces.Keys);
      ok := Read();
      if !ok { return; }
      var expanded := MatchingNamespaces(cr.applicationSet.value, listing);
      expanded := Sorted(expanded);
      var appListing := env.listing(n, namespaces.Keys);
      ok := Read();
      if !ok { return; }
      var apps := MatchingNamespaces(cr.sourceNamespaces, appListing);
      var xs := Intersect(cr, expanded, apps);
      ok := CreateInAll(rules, ApplicationSet, cr, xs);
    }

    /** Keep what is also in the application namespaces, in order. */
    method Intersect(cr: Instance, all: seq<string>, apps: seq<string>) returns (xs: seq<string>)
      requires forall y :: y in apps <==> AppNamespace(env, Now().c, cr, y)
      ensures xs == AppsOnly(env, Now().c, cr, all)
    {
      xs := [];
      var i := |all|;
      while i > 0
        invariant 0 <= i <= |all|
        invariant xs == AppsOnly(env, Now().c, cr, all[i..])
      {
        i := i - 1;
        assert all[i..][0] == all[i] && all[i..][1..] == all[i + 1..];
        if all[i] in apps { xs := [all[i]] + xs; }
      }
    }

    /** The namespace list of getArgoApplicationSetCommand, when both list calls succeed. */
    method ApplicationSetNamespacesArgument(cr: Instance) returns (xs: seq<string>)
      requires ListsOnce(env)
      ensures xs == CommandNamespaces(env, Now().c, cr, env.listing(n, namespaces.Keys))
    {
      var expanded := [];
      if cr.applicationSet.Some? {
        expanded := MatchingNamespaces(cr.applicationSet.value, env.listing(n, namespaces.Keys));
        expanded := Sorted(expanded);
      }
      var apps := MatchingNamespaces(cr.sourceNamespaces, env.listing(n + 1, namespaces.Keys));
      xs := Intersect(cr, expanded, apps);
    }

    /** The loop of reconcileNotificationsSourceNamespacesResources. */
    method ReconcileNotificationsNamespaces(rules: seq<Rule>, cr: Instance, xs: seq<string>) returns (ok: bool)
      requires ListsOnce(env)
      modifies this
      ensures Step(Now(), ok) == CreateNotifications(env, rules, old(Now()), cr, xs)
    {
      ok := true;
      ghost var start := Now();
      var i := 0;
      while i < |xs|
        invariant 0 <= i <= |xs|
        invariant var rest := CreateNotifications(env, rules, Now(), cr, xs[i..]);
          CreateNotifications(env, rules, start, cr, xs) == rest.(ok := ok && rest.ok)
      {
        assert xs[i..][0] == xs[i] && xs[i..][1..] == xs[i + 1..];
        var listing := env.listing(n, namespaces.Keys);
        var listed := Read();
        if !listed {
          ok := false;
        } else {
          var apps := MatchingNamespaces(cr.sourceNamespaces, listing);
          if xs[i] in apps {
            var done, abort := CreateInNamespace(rules, Notifications, cr, xs[i]);
            if abort { return false; }
            ok := ok && done;
          }
        }
        i := i + 1;
      }
    }

    // ---------- Pruning ----------

    /** The namespace of the instance that owns a namespace: "" when no label names one. */
    method ResolveOwner(f: Feature, labels: Labels) returns (owner: string)
      ensures owner == (if Owner(f, labels).Some? then Owner(f, labels).value else "")
    {
      if LabelKey(f) in labels { return labels[LabelKey(f)]; }
      if f.Notifications? && APPLICATIONSET_LABEL in labels { return labels[APPLICATIONSET_LABEL]; }
      if MANAGED_BY_LABEL in labels { return labels[MANAGED_BY_LABEL]; }
      owner := "";
    }

    /** One turn of the prune loop. */
    method PruneNamespace(f: Feature, cr: Instance, x: string) returns (ok: bool)
      requires ListsOnce(env)
      modifies this
      ensures Step(Now(), ok) == PruneOne(env, old(Now()), f, cr, x)
    {
      ok := Read();
      if !ok { return; }
      if x !in namespaces { return; }
      var owner := ResolveOwner(f, namespaces[x]);
      if owner != cr.namespace || owner == "" { return; }
      var keep;
      keep, ok := CheckStillManaged(f, cr, x);
      if ok && !keep { CleanupAndForget(f, cr, x); }
    }

    /** Is the namespace still one of the instance's? */
    method CheckStillManaged(f: Feature, cr: Instance, x: string) returns (keep: bool, ok: bool)
      requires ListsOnce(env)
      modifies this`n
      ensures Now() == if AsksForApps(f, cr) then Tick(old(Now())) else old(Now())
      ensures ok == (AsksForApps(f, cr) ==> Answered(env, old(Now())))
      ensures ok ==> keep == StillManaged(env, f, Now().c, cr, x)
    {
      keep, ok := false, true;
      if AsksForApps(f, cr) {
        var listing := env.listing(n, namespaces.Keys);
        ok := Read();
        if !ok { return; }
        var apps := MatchingNamespaces(cr.sourceNamespaces, listing);
        keep := Named(env, f, cr, x) && x in apps;
      }
      if !cr.clusterScoped { keep := false; }
    }

    method CleanupAndForget(f: Feature, cr: Instance, x: string)
      modifies this
      ensures Now() == PruneCleanup(env, old(Now()), f, cr, x)
    {
      var cleaned := CleanupUnmanaged(f, cr, x);
      if cleaned { RemoveFromManaged(f, x); }
    }

    lemma PruneLoopStep(w: World, f: Feature, cr: Instance, xs: seq<string>, i: nat)
      requires i < |xs|
      ensures var s := PruneOne(env, w, f, cr, xs[i]);
        PruneLoop(env, w, f, cr, xs[i..]) == if !s.ok then s else PruneLoop(env, s.w, f, cr, xs[i + 1..])
    {
      assert xs[i..][0] == xs[i] && xs[i..][1..] == xs[i + 1..];
    }

    /** removeUnmanagedApplicationSetSourceNamespaceResources, removeUnmanagedNotificationsSourceNamespaceResources */
    method RemoveUnmanaged(f: Feature, cr: Instance) returns (ok: bool)
      requires ListsOnce(env)
      modifies this
      ensures Step(Now(), ok) == Prune(env, old(Now()), f, cr)
    {
      var xs := env.listing(n, if f in managed then managed[f] else {});
      ghost var start := Now();
      ok := true;
      var i := 0;
      while i < |xs|
        invariant 0 <= i <= |xs|
        invariant PruneLoop(env, start, f, cr, xs) == PruneLoop(env, Now(), f, cr, xs[i..])
        invariant ok
      {
        PruneLoopStep(Now(), f, cr, xs, i);
        ok := PruneNamespace(f, cr, xs[i]);
        if !ok { return; }
        i := i + 1;
      }
    }

    // ---------- The whole pass ----------

    method CreateAndRemove(rules: seq<Rule>, f: Feature, cr: Instance) returns (ok: bool)
      requires ListsOnce(env)
      modifies this
      ensures Step(Now(), ok) == CreateAndPrune(env, rules, old(Now()), f, cr)
    {
      if f.ApplicationSet? {
        ok := ReconcileApplicationSetNamespaces(rules, cr);
      } else if cr.clusterScoped && cr.notificationsEnabled {
        ok := ReconcileNotificationsNamespaces(rules, cr, cr.notifications);
      } else {
        ok := true;
      }
      assert Step(Now(), ok) == Create(env, rules, old(Now()), f, cr);
      if ok { ok := RemoveUnmanaged(f, cr); }
    }

    method ReconcileSourceNamespaces(rules: Feature -> seq<Rule>, cr: Instance) returns (ok: bool)
      requires ListsOnce(env)
      modifies this
      ensures Step(Now(), ok) == Pass(env, rules, old(Now()), cr)
    {
      ok := RestoreTrackingLabels(cr);
      if !ok { return; }
      ok := SetManagedNamespaces(ApplicationSet, cr);
      if !ok { return; }
      ok := SetManagedNamespaces(Notifications, cr);
      if !ok { return; }
      ok := CreateAndRemove(rules(ApplicationSet), ApplicationSet, cr);
      if !ok { return; }
      ok := CreateAndRemove(rules(Notifications), Notifications, cr);
    }
  }
}
