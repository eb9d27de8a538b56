/** The Image Updater code in its own form: one object whose methods create, update and delete stored
    roles and bindings call by call. Each method is proved to do exactly what the state transformer of
    `ImageUpdater` says. */
module ImageUpdaterController {
  import opened Platform
  import opened Rbac
  import opened Text
  import opened ImageUpdater

  class Reconciler {
    const env: Env
    const build: Build
    var roles: map<Ref, Role>
    var bindings: map<Ref, Binding>
    var accounts: set<Ref>
    var n: nat
    var writes: nat

    constructor (env: Env, build: Build)
      ensures this.env == env && this.build == build
      ensures Now() == World(map[], map[], {}, 0, 0)
    {
      this.env, this.build := env, build;
      roles, bindings, accounts, n, writes := map[], map[], {}, 0, 0;
    }

    ghost function Now(): (r: World)
      reads this
    {
      World(roles, bindings, accounts, n, writes)
    }

    method Read() returns (ok: bool)
      modifies this`n
      ensures Now() == Tick(old(Now())) && ok == Answered(env, old(Now()))
    {
      ok := env.outcome(n).Done?;
      n := n + 1;
    }

    method Spend() returns (took: bool, ok: bool)
      modifies this`n, this`writes
      ensures Now() == old(Now()).(n := old(n) + 1, writes := old(writes) + 1)
      ensures took == !env.outcome(old(n)).Rejected? && ok == env.outcome(old(n)).Done?
    {
      var o := env.outcome(n);
      n, writes := n + 1, writes + 1;
      took, ok := !o.Rejected?, o.Done?;
    }

    /** The loop over the environment variables: the first of the name counts, trimmed. */
    method FindWatchNamespaces(variables: seq<(string, string)>) returns (v: string)
      ensures v == WatchNamespaces(variables)
    {
      v := "";
      var i := 0;
      while i < |variables|
        invariant 0 <= i <= |variables|
        invariant v == "" && WatchNamespaces(variables) == WatchNamespaces(variables[i..])
      {
        if variables[i].0 == WATCH { return TrimSpace(variables[i].1); }
        i := i + 1;
      }
    }

    method WriteAccount(at: Ref, enabled: bool) returns (ok: bool)
      modifies this`accounts, this`n, this`writes
      ensures Step(Now(), ok) == PutAccount(env, old(Now()), at, enabled)
    {
      ok := Read();
      if !ok { return; }
      if at !in accounts && enabled {
        var took;
        took, ok := Spend();
        if took { accounts := accounts + {at}; }
      } else if at in accounts && !enabled {
        var took;
        took, ok := Spend();
        if took { accounts := accounts - {at}; }
      }
    }

    /** reconcileImageUpdaterServiceAccount */
    method ReconcileAccount(s: Settings) returns (ok: bool)
      modifies this`accounts, this`n, this`writes
      ensures Step(Now(), ok) == EnsureAccount(env, build, old(Now()), s)
    {
      ok := WriteAccount(BaseRef(build, s.id), s.enabled);
    }

    /** reconcileRoleHelper */
    method ReconcileRole(id: Id, at: Ref, desired: Role, enabled: bool) returns (ok: bool)
      modifies this`roles, this`n, this`writes
      ensures Step(Now(), ok) == PutRole(env, old(Now()), id, at, desired, enabled)
    {
      ok := Read();
      var took := false;
      if ok && at !in roles {
        if enabled {
          took, ok := Spend();
          if took { roles := roles[at := desired]; }
        }
      } else if ok && !enabled {
        if at.0 != "" || OwnedBy(roles[at].labels, id.name) {
          took, ok := Spend();
          if took { roles := roles - {at}; }
        }
      } else if ok && roles[at].rules != desired.rules {
        took, ok := Spend();
        if took { roles := roles[at := roles[at].(rules := desired.rules)]; }
      }
      assert roles == Store(old(roles), at, Lookup(roles, at));
    }

    /** reconcileRoleBindingHelper */
    method ReconcileBinding(id: Id, at: Ref, desired: Binding, enabled: bool) returns (ok: bool)
      modifies this`bindings, this`n, this`writes
      ensures Step(Now(), ok) == PutBinding(env, old(Now()), id, at, desired, enabled)
    {
      ok := Read();
      var took := false;
      if ok && at !in bindings {
        if enabled {
          took, ok := Spend();
          if took { bindings := bindings[at := desired]; }
        }
      } else if ok && !enabled {
        if at.0 != "" || OwnedBy(bindings[at].labels, id.name) {
          took, ok := Spend();
          if took { bindings := bindings - {at}; }
        }
      } else if ok && bindings[at].roleRef != desired.roleRef {
        took, ok := Spend();
        if took { bindings := bindings - {at}; }
      } else if ok && bindings[at].subjects != desired.subjects {
        took, ok := Spend();
        if took { bindings := bindings[at := bindings[at].(subjects := desired.subjects)]; }
      }
      assert bindings == Store(old(bindings), at, Lookup(bindings, at));
    }

    method ReconcileGrant(id: Id, g: Grant) returns (ok: bool)
      modifies this`roles, this`bindings, this`n, this`writes
      ensures Step(Now(), ok) == Apply(env, old(Now()), id, g)
    {
      ok := ReconcileRole(id, g.roleAt, g.role, true);
      if ok { ok := ReconcileBinding(id, g.bindingAt, g.binding, true); }
    }

    method DeleteClusterRole(id: Id) returns (ok: bool)
      modifies this`roles, this`n, this`writes
      ensures Step(Now(), ok) == PutRole(env, old(Now()), id, ClusterRef(id), ClusterGrant(build, id).role, false)
    {
      var at := ClusterRef(id);
      ok := Read();
      if ok && at in roles && OwnedBy(roles[at].labels, id.name) {
        var took;
        took, ok := Spend();
        if took { roles := roles - {at}; }
      }
      assert roles == Store(old(roles), at, Lookup(roles, at));
    }

    method DeleteClusterBinding(id: Id) returns (ok: bool)
      modifies this`bindings, this`n, this`writes
      ensures Step(Now(), ok) == PutBinding(env, old(Now()), id, ClusterRef(id), ClusterGrant(build, id).binding, false)
    {
      var at := ClusterRef(id);
      ok := Read();
      if ok && at in bindings && OwnedBy(bindings[at].labels, id.name) {
        var took;
        took, ok := Spend();
        if took { bindings := bindings - {at}; }
      }
      assert bindings == Store(old(bindings), at, Lookup(bindings, at));
    }

    /** deleteImageUpdaterClusterRBAC */
    method DeleteClusterRbac(id: Id) returns (ok: bool)
      modifies this`roles, this`bindings, this`n, this`writes
      ensures Step(Now(), ok) == DropCluster(env, build, old(Now()), id)
    {
      ok := DeleteClusterRole(id);
      if ok { ok := DeleteClusterBinding(id); }
    }

    lemma ApplyNext(w: World, id: Id, parts: seq<string>, i: nat)
      requires i < |parts|
      ensures var ns := TrimSpace(parts[i]);
        ApplyAll(env, build, w, id, Items(parts[i..])) ==
        if ns == "" then ApplyAll(env, build, w, id, Items(parts[i + 1..]))
        else
          var a := Apply(env, w, id, NamespaceGrant(build, id, ns));
          if !a.ok then a else ApplyAll(env, build, a.w, id, Items(parts[i + 1..]))
    {
      assert parts[i..][0] == parts[i] && parts[i..][1..] == parts[i + 1..];
      var ns := TrimSpace(parts[i]);
      if ns == "" {
        assert Items(parts[i..]) == Items(parts[i + 1..]);
      } else {
        assert Items(parts[i..]) == [ns] + Items(parts[i + 1..]);
        assert Items(parts[i..])[1..] == Items(parts[i + 1..]);
      }
    }

    /** The loop over the split watch list; entries that are blank are skipped. */
    method ReconcileListed(id: Id, parts: seq<string>) returns (ok: bool)
      modifies this`roles, this`bindings, this`n, this`writes
      ensures Step(Now(), ok) == ApplyAll(env, build, old(Now()), id, Items(parts))
    {
      ok := true;
      ghost var start := Now();
      var i := 0;
      while i < |parts|
        invariant 0 <= i <= |parts| && ok
        invariant ApplyAll(env, build, start, id, Items(parts)) == ApplyAll(env, build, Now(), id, Items(parts[i..]))
      {
        ApplyNext(Now(), id, parts, i);
        var ns := TrimSpace(parts[i]);
        if ns != "" {
          ok := ReconcileGrant(id, NamespaceGrant(build, id, ns));
          if !ok { return; }
        }
        i := i + 1;
      }
    }

    /** The desired namespaces, filled in one by one. */
    method CollectDesired(watch: string) returns (desired: set<string>)
      ensures desired == if watch != "" && watch != "*" then set x | x in Items(SplitComma(watch)) else {}
    {
      desired := {};
      if watch != "" && watch != "*" {
        var parts := SplitComma(watch);
        var i := 0;
        while i < |parts|
          invariant 0 <= i <= |parts|
          invariant (set x | x in Items(parts)) == desired + (set x | x in Items(parts[i..]))
        {
          assert parts[i..][0] == parts[i] && parts[i..][1..] == parts[i + 1..];
          var ns := TrimSpace(parts[i]);
          assert Items(parts[i..]) == (if ns == "" then [] else [ns]) + Items(parts[i + 1..]);
          if ns != "" { desired := desired + {ns}; }
          i := i + 1;
        }
      }
    }

    method PruneListedRoles(refs: seq<Ref>, keep: set<string>) returns (ok: bool)
      modifies this`roles, this`n, this`writes
      ensures Step(Now(), ok) == PruneRoles(env, old(Now()), refs, keep)
    {
      ok := true;
      ghost var start := Now();
      var i := 0;
      while i < |refs|
        invariant 0 <= i <= |refs| && ok
        invariant PruneRoles(env, start, refs, keep) == PruneRoles(env, Now(), refs[i..], keep)
      {
        assert refs[i..][0] == refs[i] && refs[i..][1..] == refs[i + 1..];
        if refs[i].0 !in keep {
          var took;
          took, ok := Spend();
          if took { roles := roles - {refs[i]}; }
          if !ok { return; }
        }
        i := i + 1;
      }
    }

    method PruneListedBindings(refs: seq<Ref>, keep: set<string>) returns (ok: bool)
      modifies this`bindings, this`n, this`writes
      ensures Step(Now(), ok) == PruneBindings(env, old(Now()), refs, keep)
    {
      ok := true;
      ghost var start := Now();
      var i := 0;
      while i < |refs|
        invariant 0 <= i <= |refs| && ok
        invariant PruneBindings(env, start, refs, keep) == PruneBindings(env, Now(), refs[i..], keep)
      {
        assert refs[i..][0] == refs[i] && refs[i..][1..] == refs[i + 1..];
        if refs[i].0 !in keep {
          var took;
          took, ok := Spend();
          if took { bindings := bindings - {refs[i]}; }
          if !ok { return; }
        }
        i := i + 1;
      }
    }

    /** pruneImageUpdaterNamespaceRBAC */
    method PruneNamespaces(id: Id, keep: set<string>) returns (ok: bool)
      modifies this`roles, this`bindings, this`n, this`writes
      ensures Step(Now(), ok) == Prune(env, old(Now()), id, keep)
    {
      var tagged := set r | r in roles && r.0 != "" && Tagged(roles[r].labels, id);
      assert tagged == TaggedRoles(Now(), id);
      var refs := env.listingPairs(n, tagged);
      ok := Read();
      if !ok { return; }
      ok := PruneListedRoles(refs, keep);
      if !ok { return; }
      tagged := set r | r in bindings && r.0 != "" && Tagged(bindings[r].labels, id);
      assert tagged == TaggedBindings(Now(), id);
      refs := env.listingPairs(n, tagged);
      ok := Read();
      if !ok { return; }
      ok := PruneListedBindings(refs, keep);
    }

    /** The switch over the watch scope. */
    method ReconcileMode(s: Settings, watch: string) returns (ok: bool)
      requires watch == WatchNamespaces(s.variables)
      modifies this`roles, this`bindings, this`n, this`writes
      ensures Step(Now(), ok) == ApplyMode(env, build, old(Now()), s)
    {
      if watch == "*" {
        if !s.clusterScoped { return false; }
        ok := ReconcileGrant(s.id, BaseGrant(build, s.id, build.base));
        if ok { ok := ReconcileGrant(s.id, ClusterGrant(build, s.id)); }
      } else if watch == "" {
        ok := ReconcileGrant(s.id, BaseGrant(build, s.id, build.base + build.manager));
      } else {
        ok := ReconcileGrant(s.id, BaseGrant(build, s.id, build.base));
        if ok { ok := ReconcileListed(s.id, SplitComma(watch)); }
      }
    }

    /** reconcileImageUpdaterControllerEnabled */
    method ReconcileEnabled(s: Settings) returns (ok: bool)
      requires s.enabled
      modifies this
      ensures Step(Now(), ok) == EnabledPass(env, build, old(Now()), s)
    {
      ok := ReconcileAccount(s);
      if !ok { return; }
      ghost var a := Step(Now(), ok);
      var watch := FindWatchNamespaces(s.variables);
      if watch != "*" {
        ok := DeleteClusterRbac(s.id);
        if !ok { return; }
      }
      ghost var b := Step(Now(), ok);
      assert b == if ModeOf(s.variables).ClusterWide? then a else DropCluster(env, build, a.w, s.id);
      ok := ReconcileMode(s, watch);
      if !ok { return; }
      var desired := CollectDesired(watch);
      assert desired == Watched(s);
      ok := PruneAndRest(s.id, desired);
    }

    /** reconcileImageUpdaterControllerDisabled */
    method ReconcileDisabled(s: Settings) returns (ok: bool)
      requires !s.enabled
      modifies this
      ensures Step(Now(), ok) == DisabledPass(env, build, old(Now()), s)
    {
      n := n + 4;
      ok := Read();
      ghost var a := Step(Now(), ok);
      assert a == Other(env, AfterLookups(old(Now())));
      if ok { ok := FinishWithoutAccess(s); }
      assert Step(Now(), ok) == AfterOther(env, build, a, s);
    }

    method FinishWithoutAccess(s: Settings) returns (ok: bool)
      requires !s.enabled
      modifies this
      ensures Step(Now(), ok) == AfterOther(env, build, Step(old(Now()), true), s)
    {
      ok := DeleteAccess(s);
      ghost var b := Step(Now(), ok);
      if ok { ok := PruneAndRest(s.id, {}); }
      assert Step(Now(), ok) == FinishDisabled(env, b, s.id);
    }

    /** Pruning, and then the objects that are not RBAC. */
    method PruneAndRest(id: Id, keep: set<string>) returns (ok: bool)
      modifies this`roles, this`bindings, this`n, this`writes
      ensures Step(Now(), ok) == PruneAndFinish(env, old(Now()), id, keep)
    {
      ok := PruneNamespaces(id, keep);
      if ok { ok := Read(); }
    }

    method DeleteAccess(s: Settings) returns (ok: bool)
      requires !s.enabled
      modifies this
      ensures Step(Now(), ok) == DropAccess(env, build, old(Now()), s)
    {
      var base, cluster := BaseGrant(build, s.id, build.base), ClusterGrant(build, s.id);
      ok := DeleteBindings(s.id, base, cluster);
      if !ok { return; }
      ok := ReconcileAccount(s);
      if !ok { return; }
      ok := DeleteRoles(s.id, base, cluster);
    }

    method DeleteBindings(id: Id, base: Grant, cluster: Grant) returns (ok: bool)
      requires base == BaseGrant(build, id, build.base) && cluster == ClusterGrant(build, id)
      modifies this`bindings, this`n, this`writes
      ensures Step(Now(), ok) == DropBindings(env, build, old(Now()), id)
    {
      ok := ReconcileBinding(id, base.bindingAt, base.binding, false);
      if ok { ok := ReconcileBinding(id, cluster.bindingAt, cluster.binding, false); }
    }

    method DeleteRoles(id: Id, base: Grant, cluster: Grant) returns (ok: bool)
      requires base == BaseGrant(build, id, build.base) && cluster == ClusterGrant(build, id)
      modifies this`roles, this`n, this`writes
      ensures Step(Now(), ok) == DropRoles(env, build, old(Now()), id)
    {
      ok := ReconcileRole(id, base.roleAt, base.role, false);
      if ok { ok := ReconcileRole(id, cluster.roleAt, cluster.role, false); }
    }

    /** reconcileImageUpdaterController */
    method Reconcile(s: Settings) returns (ok: bool)
      modifies this
      ensures Step(Now(), ok) == Pass(env, build, old(Now()), s)
    {
      if s.enabled { ok := ReconcileEnabled(s); } else { ok := ReconcileDisabled(s); }
    }
  }
}
