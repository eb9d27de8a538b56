/** What each step of an Image Updater pass does to the store, whatever the API server answers. */
module ImageUpdaterSteps {
  import opened Platform
  import opened Rbac
  import opened ImageUpdater

  /** Only the named roles and bindings differ. */
  ghost predicate Kept(w: World, w': World, rs: set<Ref>, bs: set<Ref>)
  {
    && w.n <= w'.n
    && (forall at | at !in rs :: Lookup(w'.roles, at) == Lookup(w.roles, at))
    && (forall at | at !in bs :: Lookup(w'.bindings, at) == Lookup(w.bindings, at))
  }

  lemma KeptRole(w: World, w': World, rs: set<Ref>, bs: set<Ref>, at: Ref)
    requires Kept(w, w', rs, bs) && at !in rs
    ensures at in w.roles <==> at in w'.roles
    ensures at in w.roles ==> w.roles[at] == w'.roles[at]
  {
    assert Lookup(w'.roles, at) == Lookup(w.roles, at);
  }

  lemma KeptBinding(w: World, w': World, rs: set<Ref>, bs: set<Ref>, at: Ref)
    requires Kept(w, w', rs, bs) && at !in bs
    ensures at in w.bindings <==> at in w'.bindings
    ensures at in w.bindings ==> w.bindings[at] == w'.bindings[at]
  {
    assert Lookup(w'.bindings, at) == Lookup(w.bindings, at);
  }

  lemma KeptGrant(w: World, w': World, rs: set<Ref>, bs: set<Ref>, g: Grant)
    requires Kept(w, w', rs, bs) && g.roleAt !in rs && g.bindingAt !in bs
    ensures Granted(w, g) <==> Granted(w', g)
  {
    KeptRole(w, w', rs, bs, g.roleAt);
    KeptBinding(w, w', rs, bs, g.bindingAt);
  }

  lemma KeptThen(w0: World, w1: World, w2: World, rs: set<Ref>, bs: set<Ref>, rs': set<Ref>, bs': set<Ref>)
    requires Kept(w0, w1, rs, bs) && Kept(w1, w2, rs', bs')
    ensures Kept(w0, w2, rs + rs', bs + bs')
  {
  }

  // ---------- One role, one binding ----------

  lemma PutRoleEffect(env: Env, k: Build, w: World, id: Id, at: Ref, desired: Role, enabled: bool)
    requires Consistent(k, id, w) && RoleFits(id, at, desired)
    ensures var s := PutRole(env, w, id, at, desired, enabled);
      && Kept(w, s.w, {at}, {}) && s.w.accounts == w.accounts && Consistent(k, id, s.w)
      && (s.ok && enabled ==> HasRole(s.w, at, desired.rules))
      && (s.ok && !enabled ==> at !in s.w.roles || (at.0 == "" && !OwnsRole(s.w, id, at)))
  {
  }

  lemma PutBindingEffect(env: Env, k: Build, w: World, id: Id, at: Ref, desired: Binding, enabled: bool)
    requires Consistent(k, id, w) && BindingFits(k, id, at, desired)
    requires at in w.bindings ==> w.bindings[at].roleRef == desired.roleRef
    ensures var s := PutBinding(env, w, id, at, desired, enabled);
      && Kept(w, s.w, {}, {at}) && s.w.accounts == w.accounts && Consistent(k, id, s.w)
      && (s.ok && enabled ==> HasBinding(s.w, at, desired))
      && (s.ok && !enabled ==> at !in s.w.bindings || (at.0 == "" && !OwnsBinding(s.w, id, at)))
  {
  }

  /** A grant of one of the three shapes. */
  predicate Ours(k: Build, id: Id, g: Grant)
  {
    || (exists rules | rules in [k.base, k.base + k.manager] :: g == BaseGrant(k, id, rules))
    || g == ClusterGrant(k, id)
    || (g.roleAt.0 != "" && g == NamespaceGrant(k, id, g.roleAt.0))
  }

  lemma GrantFits(k: Build, id: Id, g: Grant)
    requires Distinct(k, id) && Ours(k, id, g)
    ensures RoleFits(id, g.roleAt, g.role) && BindingFits(k, id, g.bindingAt, g.binding)
  {
    assert TAG !in DefaultLabels(id.name) && TAG !in DefaultLabels(id.name)[KEY_NAME := COMPONENT];
  }

  lemma FittingRoleRef(k: Build, id: Id, g: Grant, b: Binding)
    requires Ours(k, id, g) && BindingFits(k, id, g.bindingAt, b)
    ensures b.roleRef == g.binding.roleRef
  {
  }

  lemma ApplyEffect(env: Env, k: Build, w: World, id: Id, g: Grant)
    requires Distinct(k, id) && Ours(k, id, g) && Consistent(k, id, w)
    ensures var s := Apply(env, w, id, g);
      && Kept(w, s.w, {g.roleAt}, {g.bindingAt}) && s.w.accounts == w.accounts && Consistent(k, id, s.w)
      && (s.ok ==> Granted(s.w, g))
  {
    GrantFits(k, id, g);
    PutRoleEffect(env, k, w, id, g.roleAt, g.role, true);
    var a := PutRole(env, w, id, g.roleAt, g.role, true);
    if g.bindingAt in w.bindings { FittingRoleRef(k, id, g, w.bindings[g.bindingAt]); }
    KeptBinding(w, a.w, {g.roleAt}, {}, g.bindingAt);
    if a.ok {
      PutBindingEffect(env, k, a.w, id, g.bindingAt, g.binding, true);
      var b := PutBinding(env, a.w, id, g.bindingAt, g.binding, true);
      KeptThen(w, a.w, b.w, {g.roleAt}, {}, {}, {g.bindingAt});
      KeptRole(a.w, b.w, {}, {g.bindingAt}, g.roleAt);
    }
  }

  function RolesIn(id: Id, xs: seq<string>): (r: set<Ref>) { set x | x in xs :: RoleIn(id, x) }

  function BindingsIn(k: Build, id: Id, xs: seq<string>): (r: set<Ref>) { set x | x in xs :: BindingIn(k, id, x) }

  lemma {:induction false} ApplyAllEffect(env: Env, k: Build, w: World, id: Id, xs: seq<string>)
    requires Distinct(k, id) && Consistent(k, id, w)
    requires forall x | x in xs :: x != ""
    ensures var s := ApplyAll(env, k, w, id, xs);
      && Kept(w, s.w, RolesIn(id, xs), BindingsIn(k, id, xs)) && s.w.accounts == w.accounts && Consistent(k, id, s.w)
      && (s.ok ==> forall x | x in xs :: Granted(s.w, NamespaceGrant(k, id, x)))
    decreases |xs|
  {
    if xs != [] {
      var g := NamespaceGrant(k, id, xs[0]);
      assert xs[0] in xs;
      ApplyEffect(env, k, w, id, g);
      var a := Apply(env, w, id, g);
      assert forall x | x in xs[1..] :: x in xs;
      assert {g.roleAt} + RolesIn(id, xs[1..]) == RolesIn(id, xs);
      assert {g.bindingAt} + BindingsIn(k, id, xs[1..]) == BindingsIn(k, id, xs);
      if a.ok {
        ApplyAllEffect(env, k, a.w, id, xs[1..]);
        var s := ApplyAll(env, k, a.w, id, xs[1..]);
        KeptThen(w, a.w, s.w, {g.roleAt}, {g.bindingAt}, RolesIn(id, xs[1..]), BindingsIn(k, id, xs[1..]));
        if xs[0] !in xs[1..] {
          KeptGrant(a.w, s.w, RolesIn(id, xs[1..]), BindingsIn(k, id, xs[1..]), g);
        }
      }
    }
  }

  lemma DropClusterEffect(env: Env, k: Build, w: World, id: Id)
    requires Distinct(k, id) && Consistent(k, id, w)
    ensures var s := DropCluster(env, k, w, id);
      && Kept(w, s.w, {ClusterRef(id)}, {ClusterRef(id)}) && s.w.accounts == w.accounts && Consistent(k, id, s.w)
      && (s.ok ==> !OwnsRole(s.w, id, ClusterRef(id)) && !OwnsBinding(s.w, id, ClusterRef(id)))
  {
    var g := ClusterGrant(k, id);
    GrantFits(k, id, g);
    PutRoleEffect(env, k, w, id, g.roleAt, g.role, false);
    var a := PutRole(env, w, id, g.roleAt, g.role, false);
    if a.ok {
      PutBindingEffect(env, k, a.w, id, g.bindingAt, g.binding, false);
      var b := PutBinding(env, a.w, id, g.bindingAt, g.binding, false);
      KeptThen(w, a.w, b.w, {g.roleAt}, {}, {}, {g.bindingAt});
      KeptRole(a.w, b.w, {}, {g.bindingAt}, g.roleAt);
    }
  }

  // ---------- Pruning ----------

  lemma {:induction false} PruneRolesEffect(env: Env, w: World, refs: seq<Ref>, keep: set<string>)
    ensures var s := PruneRoles(env, w, refs, keep);
      && w.n <= s.w.n && s.w.bindings == w.bindings && s.w.accounts == w.accounts
      && (forall at | at !in refs || at.0 in keep :: Lookup(s.w.roles, at) == Lookup(w.roles, at))
      && (forall at | at in s.w.roles :: at in w.roles && s.w.roles[at] == w.roles[at])
      && (s.ok ==> forall at | at in refs && at.0 !in keep :: at !in s.w.roles)
    decreases |refs|
  {
    if refs != [] {
      assert forall at | at in refs :: at == refs[0] || at in refs[1..];
      var d := DeleteRole(env, w, refs[0]);
      PruneRolesEffect(env, if refs[0].0 in keep then w else d.w, refs[1..], keep);
    }
  }

  lemma {:induction false} PruneBindingsEffect(env: Env, w: World, refs: seq<Ref>, keep: set<string>)
    ensures var s := PruneBindings(env, w, refs, keep);
      && w.n <= s.w.n && s.w.roles == w.roles && s.w.accounts == w.accounts
      && (forall at | at !in refs || at.0 in keep :: Lookup(s.w.bindings, at) == Lookup(w.bindings, at))
      && (forall at | at in s.w.bindings :: at in w.bindings && s.w.bindings[at] == w.bindings[at])
      && (s.ok ==> forall at | at in refs && at.0 !in keep :: at !in s.w.bindings)
    decreases |refs|
  {
    if refs != [] {
      assert forall at | at in refs :: at == refs[0] || at in refs[1..];
      var d := DeleteBinding(env, w, refs[0]);
      PruneBindingsEffect(env, if refs[0].0 in keep then w else d.w, refs[1..], keep);
    }
  }

  predicate Stale(labels: map<string, string>, at: Ref, id: Id, keep: set<string>)
  {
    at.0 != "" && Tagged(labels, id) && at.0 !in keep
  }

  /** Pruning deletes nothing that is not stale, and, when it succeeds, all that is. */
  lemma PruneIsExact(env: Env, w: World, id: Id, keep: set<string>)
    requires ListsOnce(env)
    ensures var s := Prune(env, w, id, keep);
      && w.n <= s.w.n && s.w.accounts == w.accounts
      && (forall at | at in s.w.roles :: at in w.roles && s.w.roles[at] == w.roles[at])
      && (forall at | at in s.w.bindings :: at in w.bindings && s.w.bindings[at] == w.bindings[at])
      && (forall at | at in w.roles && !Stale(w.roles[at].labels, at, id, keep) :: at in s.w.roles)
      && (forall at | at in w.bindings && !Stale(w.bindings[at].labels, at, id, keep) :: at in s.w.bindings)
      && (s.ok ==>
            && (forall at | at in s.w.roles :: !Stale(s.w.roles[at].labels, at, id, keep))
            && (forall at | at in s.w.bindings :: !Stale(s.w.bindings[at].labels, at, id, keep)))
  {
    if Answered(env, w) {
      var rs := env.listingPairs(w.n, TaggedRoles(w, id));
      assert forall at :: at in rs <==> at in TaggedRoles(w, id);
      PruneRolesEffect(env, Tick(w), rs, keep);
      var a := PruneRoles(env, Tick(w), rs, keep);
      assert forall at | at in w.roles && !Stale(w.roles[at].labels, at, id, keep) ::
        Lookup(a.w.roles, at) == Lookup(w.roles, at);
      if a.ok && Answered(env, a.w) {
        var bs := env.listingPairs(a.w.n, TaggedBindings(a.w, id));
        assert forall at :: at in bs <==> at in TaggedBindings(a.w, id);
        PruneBindingsEffect(env, Tick(a.w), bs, keep);
        var b := PruneBindings(env, Tick(a.w), bs, keep);
        assert forall at | at in w.bindings && !Stale(w.bindings[at].labels, at, id, keep) ::
          Lookup(b.w.bindings, at) == Lookup(w.bindings, at);
      }
    }
  }
}
