/** When the premises on names hold, and why they are needed. */
module ImageUpdaterPremises {
  import opened Platform
  import opened Rbac
  import opened Text
  import opened ImageUpdater
  import opened ImageUpdaterSteps
  import opened ImageUpdaterPasses

  // ---------- Names ----------

  /** The untruncated names that can come out the same: of the binding in the instance's own namespace and
      of the component. */
  function LongBinding(id: Id): (r: string) { id.name + "_" + id.namespace }

  function LongComponent(k: Build, id: Id): (r: string)
  {
    TruncateWithHash(k.hash, id.name, MAX_CR_NAME) + "-" + COMPONENT
  }

  /** For an instance name without '_', as Kubernetes requires, the names clash exactly when the binding's
      is cut, the cut leaves what the component's begins with, and the two hashes are the same. */
  lemma NamesAreDistinct(k: Build, id: Id)
    requires '_' !in id.name
    ensures Distinct(k, id) <==>
      && id.namespace != ""
      && !(&& |LongBinding(id)| > MAX_NAME && |LongComponent(k, id)| > MAX_NAME
           && LongBinding(id)[..55] == LongComponent(k, id)[..55]
           && k.hash(LongBinding(id)) == k.hash(LongComponent(k, id)))
  {
    var long, full := LongBinding(id), LongComponent(k, id);
    assert long[|id.name|] == '_';
    assert '_' !in COMPONENT;
    assert '_' !in full && '_' !in ComponentName(k, id);
    assert RoleIn(id, id.namespace) != BaseRef(k, id) by { assert '_' in long; }
    var short, name := TruncateWithHash(k.hash, long, MAX_NAME), ComponentName(k, id);
    if |long| > MAX_NAME {
      assert short == short[..55] + short[55..] && short[..55] == long[..55] && short[55..] == k.hash(long);
      if |full| > MAX_NAME {
        assert name == name[..55] + name[55..] && name[..55] == full[..55] && name[55..] == k.hash(full);
      } else {
        ShortComponent(k, id);
      }
    } else {
      assert '_' in short;
    }
  }

  /** A component name that is not cut belongs to a short instance name. */
  lemma ShortComponent(k: Build, id: Id)
    requires '_' !in id.name && |LongComponent(k, id)| <= MAX_NAME && |LongBinding(id)| > MAX_NAME
    ensures TruncateWithHash(k.hash, LongBinding(id), MAX_NAME) != ComponentName(k, id)
  {
    var long := LongBinding(id);
    var short := TruncateWithHash(k.hash, long, MAX_NAME);
    assert |COMPONENT| == 31;
    assert |id.name| < 55;
    assert short[..55] == long[..55] && long[|id.name|] == '_';
    assert short[..55][|id.name|] == short[|id.name|] && long[..55][|id.name|] == long[|id.name|];
    assert '_' in short;
    assert '_' !in COMPONENT;
    assert '_' !in ComponentName(k, id);
  }

  /** In particular they do not clash for instance names of fewer than 55 characters. */
  lemma ShortNamesAreDistinct(k: Build, id: Id)
    requires id.namespace != "" && '_' !in id.name && |id.name| < 55
    ensures Distinct(k, id)
  {
    NamesAreDistinct(k, id);
    var long, full := LongBinding(id), LongComponent(k, id);
    assert long[|id.name|] == '_';
    assert '_' !in COMPONENT && '_' !in full;
    if |long| > MAX_NAME && |full| > MAX_NAME {
      assert long[..55][|id.name|] == '_';
      assert full[..55][|id.name|] == full[|id.name|];
    }
  }

  /** A store without the instance's objects is a fine start. */
  lemma FreshStartIsConsistent(k: Build, id: Id, w: World)
    requires forall at | at in w.roles :: !OwnRoleName(k, id, at) && !Tagged(w.roles[at].labels, id)
    requires forall at | at in w.bindings :: !OwnBindingName(k, id, at) && !Tagged(w.bindings[at].labels, id)
    ensures Consistent(k, id, w)
  {
  }

  // ---------- Roles that no pass touches ----------

  lemma ApplyOtherRole(env: Env, w: World, id: Id, g: Grant, at: Ref)
    requires at != g.roleAt
    ensures Lookup(Apply(env, w, id, g).w.roles, at) == Lookup(w.roles, at)
  {
  }

  lemma {:induction false} ApplyAllOtherRole(env: Env, k: Build, w: World, id: Id, xs: seq<string>, at: Ref)
    requires forall x | x in xs :: at != RoleIn(id, x)
    ensures Lookup(ApplyAll(env, k, w, id, xs).w.roles, at) == Lookup(w.roles, at)
    decreases |xs|
  {
    if xs != [] {
      var g := NamespaceGrant(k, id, xs[0]);
      assert xs[0] in xs;
      ApplyOtherRole(env, w, id, g, at);
      assert forall x | x in xs[1..] :: x in xs;
      ApplyAllOtherRole(env, k, Apply(env, w, id, g).w, id, xs[1..], at);
    }
  }

  lemma ApplyModeOtherRole(env: Env, k: Build, w: World, s: Settings, at: Ref)
    requires at != BaseRef(k, s.id) && at != ClusterRef(s.id) && s.enabled
    requires forall x | x in Watched(s) :: at != RoleIn(s.id, x)
    ensures Lookup(ApplyMode(env, k, w, s).w.roles, at) == Lookup(w.roles, at)
  {
    ApplyOtherRole(env, w, s.id, BaseGrant(k, s.id, k.base + k.manager), at);
    var g := BaseGrant(k, s.id, k.base);
    ApplyOtherRole(env, w, s.id, g, at);
    var a := Apply(env, w, s.id, g);
    match ModeOf(s.variables)
    case Combined =>
    case ClusterWide => ApplyOtherRole(env, a.w, s.id, ClusterGrant(k, s.id), at);
    case Listed(xs) =>
      assert forall x | x in xs :: x in Watched(s);
      ApplyAllOtherRole(env, k, a.w, s.id, xs, at);
  }

  lemma PruneSparesUntagged(env: Env, w: World, id: Id, keep: set<string>, at: Ref)
    requires ListsOnce(env) && at in w.roles && !Tagged(w.roles[at].labels, id)
    ensures Lookup(PruneAndFinish(env, w, id, keep).w.roles, at) == Lookup(w.roles, at)
  {
    PruneIsExact(env, w, id, keep);
  }

  lemma PutRoleOther(env: Env, w: World, id: Id, at: Ref, put: Ref, desired: Role, enabled: bool)
    requires at != put
    ensures Lookup(PutRole(env, w, id, put, desired, enabled).w.roles, at) == Lookup(w.roles, at)
  {
  }

  lemma DropBindingsRoles(env: Env, k: Build, w: World, id: Id)
    ensures DropBindings(env, k, w, id).w.roles == w.roles
  {
  }

  lemma DropRolesOther(env: Env, k: Build, w: World, id: Id, at: Ref)
    requires at != BaseRef(k, id) && at != ClusterRef(id)
    ensures Lookup(DropRoles(env, k, w, id).w.roles, at) == Lookup(w.roles, at)
  {
    var base, cluster := BaseGrant(k, id, k.base), ClusterGrant(k, id);
    PutRoleOther(env, w, id, at, base.roleAt, base.role, false);
    var a := PutRole(env, w, id, base.roleAt, base.role, false);
    PutRoleOther(env, a.w, id, at, cluster.roleAt, cluster.role, false);
  }

  lemma DropAccessOther(env: Env, k: Build, w: World, s: Settings, at: Ref)
    requires at != BaseRef(k, s.id) && at != ClusterRef(s.id)
    ensures Lookup(DropAccess(env, k, w, s).w.roles, at) == Lookup(w.roles, at)
  {
    DropBindingsRoles(env, k, w, s.id);
    var a := DropBindings(env, k, w, s.id);
    var b := EnsureAccount(env, k, a.w, s);
    assert b.w.roles == a.w.roles;
    DropRolesOther(env, k, b.w, s.id, at);
  }

  lemma DropClusterOther(env: Env, k: Build, w: World, id: Id, at: Ref)
    requires at != ClusterRef(id)
    ensures Lookup(DropCluster(env, k, w, id).w.roles, at) == Lookup(w.roles, at)
  {
    PutRoleOther(env, w, id, at, ClusterRef(id), ClusterGrant(k, id).role, false);
  }

  lemma EnabledPassIs(env: Env, k: Build, w: World, s: Settings)
    ensures var a := EnsureAccount(env, k, w, s);
      var b := if ModeOf(s.variables).ClusterWide? then a else DropCluster(env, k, a.w, s.id);
      var c := ApplyMode(env, k, b.w, s);
      EnabledPass(env, k, w, s) ==
        if !a.ok then a else if !b.ok then b else if !c.ok then c else PruneAndFinish(env, c.w, s.id, Watched(s))
  {
  }

  lemma EnabledSparesUntagged(env: Env, k: Build, w: World, s: Settings, at: Ref)
    requires ListsOnce(env) && at in w.roles && !Tagged(w.roles[at].labels, s.id) && s.enabled
    requires at != BaseRef(k, s.id) && at != ClusterRef(s.id)
    requires forall x | x in Watched(s) :: at != RoleIn(s.id, x)
    ensures Lookup(EnabledPass(env, k, w, s).w.roles, at) == Lookup(w.roles, at)
  {
    EnabledPassIs(env, k, w, s);
    var a := EnsureAccount(env, k, w, s);
    assert a.w.roles == w.roles;
    DropClusterOther(env, k, a.w, s.id, at);
    var b := if ModeOf(s.variables).ClusterWide? then a else DropCluster(env, k, a.w, s.id);
    ApplyModeOtherRole(env, k, b.w, s, at);
    var c := ApplyMode(env, k, b.w, s);
    assert Lookup(c.w.roles, at) == Lookup(w.roles, at);
    PruneSparesUntagged(env, c.w, s.id, Watched(s), at);
  }

  lemma AfterOtherSparesUntagged(env: Env, k: Build, a: Step, s: Settings, at: Ref)
    requires ListsOnce(env) && at in a.w.roles && !Tagged(a.w.roles[at].labels, s.id)
    requires at != BaseRef(k, s.id) && at != ClusterRef(s.id)
    ensures Lookup(AfterOther(env, k, a, s).w.roles, at) == Lookup(a.w.roles, at)
  {
    DropAccessOther(env, k, a.w, s, at);
    var b := DropAccess(env, k, a.w, s);
    PruneSparesUntagged(env, b.w, s.id, {}, at);
  }

  /** A role that neither the fixed names nor the label give away. */
  ghost predicate Hidden(env: Env, k: Build, w: World, id: Id, at: Ref)
  {
    && ListsOnce(env) && at in w.roles && !Tagged(w.roles[at].labels, id)
    && at != BaseRef(k, id) && at != ClusterRef(id)
  }

  lemma SparesUntaggedFrom(env: Env, k: Build, w: World, a: Step, s: Settings, at: Ref)
    ensures Hidden(env, k, w, s.id, at) && a.w.roles == w.roles ==>
      Lookup(AfterOther(env, k, a, s).w.roles, at) == Lookup(w.roles, at)
  {
    if Hidden(env, k, w, s.id, at) && a.w.roles == w.roles { AfterOtherSparesUntagged(env, k, a, s, at); }
  }

  lemma DisabledSparesUntagged(env: Env, k: Build, w: World, s: Settings, at: Ref)
    requires Hidden(env, k, w, s.id, at)
    ensures Lookup(DisabledPass(env, k, w, s).w.roles, at) == Lookup(w.roles, at)
  {
    SparesUntaggedFrom(env, k, w, Other(env, AfterLookups(w)), s, at);
  }

  lemma PassSparesUntagged(env: Env, k: Build, w: World, s: Settings, at: Ref)
    requires ListsOnce(env) && at in w.roles && !Tagged(w.roles[at].labels, s.id)
    requires at != BaseRef(k, s.id) && at != ClusterRef(s.id)
    requires forall x | x in Watched(s) :: at != RoleIn(s.id, x)
    ensures Lookup(Pass(env, k, w, s).w.roles, at) == Lookup(w.roles, at)
  {
    if s.enabled { EnabledSparesUntagged(env, k, w, s, at); } else { DisabledSparesUntagged(env, k, w, s, at); }
  }

  /** The premise that no one else uses the per-namespace role name is needed: a role of that name without the
      tag is never pruned. Over every history that does not watch its namespace, with any answers, it stays
      exactly as it is. */
  lemma {:induction false} UntaggedRoleIsNeverPruned(
    env: Env, k: Build, w: World, id: Id, history: seq<Settings>, ns: string)
    requires ListsOnce(env) && Distinct(k, id) && ns != ""
    requires RoleIn(id, ns) in w.roles && !Tagged(w.roles[RoleIn(id, ns)].labels, id)
    requires forall s | s in history :: s.id == id && ns !in Watched(s)
    ensures Lookup(Run(env, k, w, history).w.roles, RoleIn(id, ns)) == Some(w.roles[RoleIn(id, ns)])
    decreases |history|
  {
    if history != [] {
      var rest, s := history[..|history| - 1], history[|history| - 1];
      assert s in history && forall x | x in rest :: x in history;
      UntaggedRoleIsNeverPruned(env, k, w, id, rest, ns);
      PassSparesUntagged(env, k, Run(env, k, w, rest).w, s, RoleIn(id, ns));
    }
  }
}
