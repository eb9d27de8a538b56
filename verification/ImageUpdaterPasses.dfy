/** Whole Image Updater passes: a pass that reports success leaves exactly the RBAC of its mode, over
    every history of edits and failures, and the next pass writes nothing. */
module ImageUpdaterPasses {
  import opened Platform
  import opened Rbac
  import opened ImageUpdater
  import opened ImageUpdaterSteps

  /** What pruning leaves, told with tags and names. */
  lemma PruneEffect(env: Env, k: Build, w: World, id: Id, keep: set<string>)
    requires ListsOnce(env) && Distinct(k, id) && Consistent(k, id, w)
    ensures var s := Prune(env, w, id, keep);
      && w.n <= s.w.n && s.w.accounts == w.accounts && Consistent(k, id, s.w)
      && (forall at: Ref | at.0 == "" || at.0 in keep || at != RoleIn(id, at.0) ::
            Lookup(s.w.roles, at) == Lookup(w.roles, at))
      && (forall at: Ref | at.0 == "" || at.0 in keep || at != BindingIn(k, id, at.0) ::
            Lookup(s.w.bindings, at) == Lookup(w.bindings, at))
      && (s.ok ==> forall at | at in TaggedRoles(s.w, id) :: at == RoleIn(id, at.0) && at.0 in keep)
      && (s.ok ==> forall at | at in TaggedBindings(s.w, id) :: at == BindingIn(k, id, at.0) && at.0 in keep)
  {
    PruneIsExact(env, w, id, keep);
  }

  /** The names under which the instance keeps objects. */
  predicate OwnRoleName(k: Build, id: Id, at: Ref)
  {
    at == BaseRef(k, id) || at == ClusterRef(id) || (at.0 != "" && at == RoleIn(id, at.0))
  }

  predicate OwnBindingName(k: Build, id: Id, at: Ref)
  {
    at == BaseRef(k, id) || at == ClusterRef(id) || (at.0 != "" && at == BindingIn(k, id, at.0))
  }

  /** Everything under other names is untouched. */
  ghost predicate OthersKept(k: Build, id: Id, w: World, w': World)
  {
    && (forall at | !OwnRoleName(k, id, at) :: Lookup(w'.roles, at) == Lookup(w.roles, at))
    && (forall at | !OwnBindingName(k, id, at) :: Lookup(w'.bindings, at) == Lookup(w.bindings, at))
  }

  lemma KeptIsOthersKept(k: Build, id: Id, w: World, w': World, rs: set<Ref>, bs: set<Ref>)
    requires Kept(w, w', rs, bs)
    requires forall at | at in rs :: OwnRoleName(k, id, at)
    requires forall at | at in bs :: OwnBindingName(k, id, at)
    ensures OthersKept(k, id, w, w')
  {
  }

  // ---------- Enabled ----------

  lemma WatchedNonempty(s: Settings)
    ensures "" !in Watched(s)
    ensures ModeOf(s.variables).Listed? ==> forall x | x in ModeOf(s.variables).namespaces :: x != ""
  {
  }

  /** The objects outside the watched namespaces, as the settings want them. */
  predicate CoreExact(k: Build, s: Settings, w: World)
  {
    && (match BaseRules(k, s)
        case Some(rules) => Granted(w, BaseGrant(k, s.id, rules))
        case None => BaseRef(k, s.id) !in w.roles && BaseRef(k, s.id) !in w.bindings)
    && (if WantsCluster(s) then Granted(w, ClusterGrant(k, s.id))
        else !OwnsRole(w, s.id, ClusterRef(s.id)) && !OwnsBinding(w, s.id, ClusterRef(s.id)))
    && (BaseRef(k, s.id) in w.accounts <==> s.enabled)
  }

  predicate Stage(k: Build, s: Settings, w: World)
  {
    CoreExact(k, s, w) && forall ns | ns in Watched(s) :: Granted(w, NamespaceGrant(k, s.id, ns))
  }

  lemma ApplyModeCombined(env: Env, k: Build, w: World, s: Settings)
    requires Distinct(k, s.id) && Consistent(k, s.id, w) && s.enabled && ModeOf(s.variables).Combined?
    requires BaseRef(k, s.id) in w.accounts
    requires !OwnsRole(w, s.id, ClusterRef(s.id)) && !OwnsBinding(w, s.id, ClusterRef(s.id))
    ensures var t := ApplyMode(env, k, w, s);
      w.n <= t.w.n && Consistent(k, s.id, t.w) && OthersKept(k, s.id, w, t.w) && (t.ok ==> Stage(k, s, t.w))
  {
    var g := BaseGrant(k, s.id, k.base + k.manager);
    ApplyEffect(env, k, w, s.id, g);
    var t := Apply(env, w, s.id, g);
    KeptIsOthersKept(k, s.id, w, t.w, {g.roleAt}, {g.bindingAt});
    KeptRole(w, t.w, {g.roleAt}, {g.bindingAt}, ClusterRef(s.id));
    KeptBinding(w, t.w, {g.roleAt}, {g.bindingAt}, ClusterRef(s.id));
  }

  lemma ApplyModeCluster(env: Env, k: Build, w: World, s: Settings)
    requires Distinct(k, s.id) && Consistent(k, s.id, w) && s.enabled && ModeOf(s.variables).ClusterWide?
    requires BaseRef(k, s.id) in w.accounts
    ensures var t := ApplyMode(env, k, w, s);
      w.n <= t.w.n && Consistent(k, s.id, t.w) && OthersKept(k, s.id, w, t.w) && (t.ok ==> Stage(k, s, t.w))
  {
    if s.clusterScoped {
      var g := BaseGrant(k, s.id, k.base);
      ApplyEffect(env, k, w, s.id, g);
      var a := Apply(env, w, s.id, g);
      KeptIsOthersKept(k, s.id, w, a.w, {g.roleAt}, {g.bindingAt});
      if a.ok {
        var h := ClusterGrant(k, s.id);
        ApplyEffect(env, k, a.w, s.id, h);
        var t := Apply(env, a.w, s.id, h);
        KeptIsOthersKept(k, s.id, a.w, t.w, {h.roleAt}, {h.bindingAt});
        KeptGrant(a.w, t.w, {h.roleAt}, {h.bindingAt}, g);
      }
    }
  }

  lemma ApplyModeListed(env: Env, k: Build, w: World, s: Settings)
    requires Distinct(k, s.id) && Consistent(k, s.id, w) && s.enabled && ModeOf(s.variables).Listed?
    requires BaseRef(k, s.id) in w.accounts
    requires !OwnsRole(w, s.id, ClusterRef(s.id)) && !OwnsBinding(w, s.id, ClusterRef(s.id))
    ensures var t := ApplyMode(env, k, w, s);
      w.n <= t.w.n && Consistent(k, s.id, t.w) && OthersKept(k, s.id, w, t.w) && (t.ok ==> Stage(k, s, t.w))
  {
    var xs := ModeOf(s.variables).namespaces;
    WatchedNonempty(s);
    var g := BaseGrant(k, s.id, k.base);
    ApplyEffect(env, k, w, s.id, g);
    var a := Apply(env, w, s.id, g);
    KeptIsOthersKept(k, s.id, w, a.w, {g.roleAt}, {g.bindingAt});
    KeptRole(w, a.w, {g.roleAt}, {g.bindingAt}, ClusterRef(s.id));
    KeptBinding(w, a.w, {g.roleAt}, {g.bindingAt}, ClusterRef(s.id));
    if a.ok {
      var rs, bs := RolesIn(s.id, xs), BindingsIn(k, s.id, xs);
      ApplyAllEffect(env, k, a.w, s.id, xs);
      var t := ApplyAll(env, k, a.w, s.id, xs);
      KeptIsOthersKept(k, s.id, a.w, t.w, rs, bs);
      KeptGrant(a.w, t.w, rs, bs, g);
      KeptRole(a.w, t.w, rs, bs, ClusterRef(s.id));
      KeptBinding(a.w, t.w, rs, bs, ClusterRef(s.id));
    }
  }

  lemma PruneKeepsCore(env: Env, k: Build, w: World, s: Settings)
    requires ListsOnce(env) && Distinct(k, s.id) && Consistent(k, s.id, w) && CoreExact(k, s, w)
    ensures CoreExact(k, s, Prune(env, w, s.id, Watched(s)).w)
  {
    var t := Prune(env, w, s.id, Watched(s));
    PruneEffect(env, k, w, s.id, Watched(s));
    assert Lookup(t.w.roles, BaseRef(k, s.id)) == Lookup(w.roles, BaseRef(k, s.id));
    assert Lookup(t.w.bindings, BaseRef(k, s.id)) == Lookup(w.bindings, BaseRef(k, s.id));
    assert Lookup(t.w.roles, ClusterRef(s.id)) == Lookup(w.roles, ClusterRef(s.id));
    assert Lookup(t.w.bindings, ClusterRef(s.id)) == Lookup(w.bindings, ClusterRef(s.id));
  }

  lemma PruneKeepsWatched(env: Env, k: Build, w: World, id: Id, keep: set<string>, ns: string)
    requires ListsOnce(env) && Distinct(k, id) && Consistent(k, id, w)
    requires ns in keep && ns != "" && Granted(w, NamespaceGrant(k, id, ns))
    ensures var t := Prune(env, w, id, keep);
      && Granted(t.w, NamespaceGrant(k, id, ns))
      && RoleIn(id, ns) in TaggedRoles(t.w, id) && BindingIn(k, id, ns) in TaggedBindings(t.w, id)
  {
    var t := Prune(env, w, id, keep);
    PruneEffect(env, k, w, id, keep);
    assert Lookup(t.w.roles, RoleIn(id, ns)) == Lookup(w.roles, RoleIn(id, ns));
    assert Lookup(t.w.bindings, BindingIn(k, id, ns)) == Lookup(w.bindings, BindingIn(k, id, ns));
    assert RoleFits(id, RoleIn(id, ns), t.w.roles[RoleIn(id, ns)]);
    assert BindingFits(k, id, BindingIn(k, id, ns), t.w.bindings[BindingIn(k, id, ns)]);
  }

  lemma TaggedExactly(k: Build, id: Id, w: World, keep: set<string>)
    requires forall ns | ns in keep ::
      RoleIn(id, ns) in TaggedRoles(w, id) && BindingIn(k, id, ns) in TaggedBindings(w, id)
    requires forall at | at in TaggedRoles(w, id) :: at == RoleIn(id, at.0) && at.0 in keep
    requires forall at | at in TaggedBindings(w, id) :: at == BindingIn(k, id, at.0) && at.0 in keep
    ensures TaggedRoles(w, id) == (set ns | ns in keep :: RoleIn(id, ns))
    ensures TaggedBindings(w, id) == (set ns | ns in keep :: BindingIn(k, id, ns))
  {
  }

  /** From the stage before pruning to the end. */
  lemma PruneReachesExactly(env: Env, k: Build, w: World, s: Settings)
    requires ListsOnce(env) && Distinct(k, s.id) && Consistent(k, s.id, w) && Stage(k, s, w)
    ensures var t := Prune(env, w, s.id, Watched(s)); t.ok ==> Exactly(k, s, t.w)
  {
    var keep := Watched(s);
    var t := Prune(env, w, s.id, keep);
    PruneEffect(env, k, w, s.id, keep);
    WatchedNonempty(s);
    PruneKeepsCore(env, k, w, s);
    forall ns | ns in keep
      ensures Granted(t.w, NamespaceGrant(k, s.id, ns)) && RoleIn(s.id, ns) in TaggedRoles(t.w, s.id)
        && BindingIn(k, s.id, ns) in TaggedBindings(t.w, s.id)
    {
      PruneKeepsWatched(env, k, w, s.id, keep, ns);
    }
    if t.ok { TaggedExactly(k, s.id, t.w, keep); }
  }

  /** Time moves on, the invariant holds, and other names are untouched. */
  ghost predicate Fine(k: Build, id: Id, w: World, w': World)
  {
    w.n <= w'.n && Consistent(k, id, w') && OthersKept(k, id, w, w')
  }

  lemma FineThen(k: Build, id: Id, w0: World, w1: World, w2: World)
    requires Fine(k, id, w0, w1) && Fine(k, id, w1, w2)
    ensures Fine(k, id, w0, w2)
  {
  }

  lemma EnsureAccountEffect(env: Env, k: Build, w: World, s: Settings)
    requires Consistent(k, s.id, w)
    ensures var t := EnsureAccount(env, k, w, s);
      && Fine(k, s.id, w, t.w) && t.w.roles == w.roles && t.w.bindings == w.bindings
      && (t.ok ==> (BaseRef(k, s.id) in t.w.accounts <==> s.enabled))
  {
  }

  /** Time passing changes nothing. */
  lemma LaterIsSame(k: Build, s: Settings, w: World, w': World)
    requires w'.roles == w.roles && w'.bindings == w.bindings && w'.accounts == w.accounts
    ensures Exactly(k, s, w) ==> Exactly(k, s, w')
    ensures Consistent(k, s.id, w) && w.n <= w'.n ==> Fine(k, s.id, w, w')
  {
    assert TaggedRoles(w, s.id) == TaggedRoles(w', s.id);
    assert TaggedBindings(w, s.id) == TaggedBindings(w', s.id);
  }

  lemma PruneIsFine(env: Env, k: Build, w: World, id: Id, keep: set<string>)
    requires ListsOnce(env) && Distinct(k, id) && Consistent(k, id, w)
    ensures Fine(k, id, w, Prune(env, w, id, keep).w)
  {
    PruneEffect(env, k, w, id, keep);
  }

  lemma PruneAndFinishEffect(env: Env, k: Build, w: World, s: Settings)
    requires ListsOnce(env) && Distinct(k, s.id) && Consistent(k, s.id, w) && Stage(k, s, w)
    ensures var t := PruneAndFinish(env, w, s.id, Watched(s)); Fine(k, s.id, w, t.w) && (t.ok ==> Exactly(k, s, t.w))
  {
    PruneIsFine(env, k, w, s.id, Watched(s));
    PruneReachesExactly(env, k, w, s);
    var a := Prune(env, w, s.id, Watched(s));
    var t := Other(env, a.w);
    LaterIsSame(k, s, a.w, t.w);
    FineThen(k, s.id, w, a.w, t.w);
  }

  lemma PrepareEffect(env: Env, k: Build, w: World, s: Settings)
    requires Distinct(k, s.id) && Consistent(k, s.id, w) && s.enabled
    requires BaseRef(k, s.id) in w.accounts
    ensures var b := if ModeOf(s.variables).ClusterWide? then Step(w, true) else DropCluster(env, k, w, s.id);
      && Fine(k, s.id, w, b.w)
      && (b.ok ==> var c := ApplyMode(env, k, b.w, s); Fine(k, s.id, b.w, c.w) && (c.ok ==> Stage(k, s, c.w)))
  {
    var mode := ModeOf(s.variables);
    if mode.ClusterWide? {
      ApplyModeCluster(env, k, w, s);
    } else {
      DropClusterEffect(env, k, w, s.id);
      var b := DropCluster(env, k, w, s.id);
      KeptIsOthersKept(k, s.id, w, b.w, {ClusterRef(s.id)}, {ClusterRef(s.id)});
      if b.ok && mode.Combined? { ApplyModeCombined(env, k, b.w, s); }
      if b.ok && mode.Listed? { ApplyModeListed(env, k, b.w, s); }
    }
  }

  lemma EnabledPassEffect(env: Env, k: Build, w: World, s: Settings)
    requires ListsOnce(env) && Distinct(k, s.id) && Consistent(k, s.id, w) && s.enabled
    ensures var t := EnabledPass(env, k, w, s); Fine(k, s.id, w, t.w) && (t.ok ==> Exactly(k, s, t.w))
  {
    EnsureAccountEffect(env, k, w, s);
    var a := EnsureAccount(env, k, w, s);
    if a.ok {
      PrepareEffect(env, k, a.w, s);
      var b := if ModeOf(s.variables).ClusterWide? then a else DropCluster(env, k, a.w, s.id);
      FineThen(k, s.id, w, a.w, b.w);
      if b.ok {
        var c := ApplyMode(env, k, b.w, s);
        FineThen(k, s.id, w, b.w, c.w);
        if c.ok {
          PruneAndFinishEffect(env, k, c.w, s);
          FineThen(k, s.id, w, c.w, PruneAndFinish(env, c.w, s.id, Watched(s)).w);
        }
      }
    }
  }

  // ---------- Disabled ----------

  lemma DropBindingsEffect(env: Env, k: Build, w: World, id: Id)
    requires Distinct(k, id) && Consistent(k, id, w)
    ensures var t := DropBindings(env, k, w, id);
      && Fine(k, id, w, t.w)
      && (t.ok ==> BaseRef(k, id) !in t.w.bindings && !OwnsBinding(t.w, id, ClusterRef(id)))
  {
    var base, cluster := BaseGrant(k, id, k.base), ClusterGrant(k, id);
    GrantFits(k, id, base);
    GrantFits(k, id, cluster);
    PutBindingEffect(env, k, w, id, base.bindingAt, base.binding, false);
    var a := PutBinding(env, w, id, base.bindingAt, base.binding, false);
    KeptIsOthersKept(k, id, w, a.w, {}, {base.bindingAt});
    PutBindingEffect(env, k, a.w, id, cluster.bindingAt, cluster.binding, false);
    var b := PutBinding(env, a.w, id, cluster.bindingAt, cluster.binding, false);
    KeptIsOthersKept(k, id, a.w, b.w, {}, {cluster.bindingAt});
    KeptBinding(a.w, b.w, {}, {cluster.bindingAt}, base.bindingAt);
    FineThen(k, id, w, a.w, b.w);
  }

  lemma DropRolesEffect(env: Env, k: Build, w: World, id: Id)
    requires Distinct(k, id) && Consistent(k, id, w)
    ensures var t := DropRoles(env, k, w, id);
      && Fine(k, id, w, t.w) && t.w.bindings == w.bindings && t.w.accounts == w.accounts
      && (t.ok ==> BaseRef(k, id) !in t.w.roles && !OwnsRole(t.w, id, ClusterRef(id)))
  {
    var base, cluster := BaseGrant(k, id, k.base), ClusterGrant(k, id);
    GrantFits(k, id, base);
    GrantFits(k, id, cluster);
    PutRoleEffect(env, k, w, id, base.roleAt, base.role, false);
    var a := PutRole(env, w, id, base.roleAt, base.role, false);
    KeptIsOthersKept(k, id, w, a.w, {base.roleAt}, {});
    PutRoleEffect(env, k, a.w, id, cluster.roleAt, cluster.role, false);
    var b := PutRole(env, a.w, id, cluster.roleAt, cluster.role, false);
    KeptIsOthersKept(k, id, a.w, b.w, {cluster.roleAt}, {});
    KeptRole(a.w, b.w, {cluster.roleAt}, {}, base.roleAt);
    FineThen(k, id, w, a.w, b.w);
  }

  lemma DropAccessEffect(env: Env, k: Build, w: World, s: Settings)
    requires Distinct(k, s.id) && Consistent(k, s.id, w) && !s.enabled
    ensures var t := DropAccess(env, k, w, s); Fine(k, s.id, w, t.w) && (t.ok ==> Stage(k, s, t.w))
  {
    DropBindingsEffect(env, k, w, s.id);
    var a := DropBindings(env, k, w, s.id);
    if a.ok {
      EnsureAccountEffect(env, k, a.w, s);
      var b := EnsureAccount(env, k, a.w, s);
      FineThen(k, s.id, w, a.w, b.w);
      if b.ok {
        DropRolesEffect(env, k, b.w, s.id);
        FineThen(k, s.id, w, b.w, DropRoles(env, k, b.w, s.id).w);
      }
    }
  }

  lemma AfterOtherEffect(env: Env, k: Build, a: Step, s: Settings)
    requires ListsOnce(env) && Distinct(k, s.id) && Consistent(k, s.id, a.w) && !s.enabled && a.ok
    ensures var t := AfterOther(env, k, a, s); Fine(k, s.id, a.w, t.w) && (t.ok ==> Exactly(k, s, t.w))
  {
    DropAccessEffect(env, k, a.w, s);
    var b := DropAccess(env, k, a.w, s);
    if b.ok {
      PruneAndFinishEffect(env, k, b.w, s);
      FineThen(k, s.id, a.w, b.w, PruneAndFinish(env, b.w, s.id, {}).w);
    }
  }

  lemma DisabledPassEffect(env: Env, k: Build, w: World, s: Settings)
    requires ListsOnce(env) && Distinct(k, s.id) && Consistent(k, s.id, w) && !s.enabled
    ensures var t := DisabledPass(env, k, w, s); Fine(k, s.id, w, t.w) && (t.ok ==> Exactly(k, s, t.w))
  {
    var a := Other(env, AfterLookups(w));
    assert Fine(k, s.id, w, a.w);
    if a.ok {
      AfterOtherEffect(env, k, a, s);
      FineThen(k, s.id, w, a.w, AfterOther(env, k, a, s).w);
    }
  }

  // ---------- Theorems ----------

  /** A pass touches only the instance's own names, keeps the invariant whatever the API server answers,
      and when it reports success the store holds exactly the RBAC of the settings. */
  lemma SuccessfulPassIsExact(env: Env, k: Build, w: World, s: Settings)
    requires ListsOnce(env) && Distinct(k, s.id) && Consistent(k, s.id, w)
    ensures var t := Pass(env, k, w, s);
      && w.n <= t.w.n
      && Consistent(k, s.id, t.w)
      && OthersKept(k, s.id, w, t.w)
      && (t.ok ==> Exactly(k, s, t.w))
  {
    if s.enabled { EnabledPassEffect(env, k, w, s); } else { DisabledPassEffect(env, k, w, s); }
  }

  /** A history: passes under ever-changing settings. */
  function Run(env: Env, k: Build, w: World, history: seq<Settings>): (t: Step)
    decreases |history|
  {
    if history == [] then Step(w, true)
    else
      var before := Run(env, k, w, history[..|history| - 1]);
      Pass(env, k, before.w, history[|history| - 1])
  }

  lemma {:induction false} RunKeeps(env: Env, k: Build, w: World, id: Id, history: seq<Settings>)
    requires ListsOnce(env) && Distinct(k, id) && Consistent(k, id, w)
    requires forall s | s in history :: s.id == id
    ensures var t := Run(env, k, w, history); Consistent(k, id, t.w) && OthersKept(k, id, w, t.w)
    decreases |history|
  {
    if history != [] {
      var rest := history[..|history| - 1];
      assert forall s | s in rest :: s in history;
      RunKeeps(env, k, w, id, rest);
      assert history[|history| - 1] in history;
      SuccessfulPassIsExact(env, k, Run(env, k, w, rest).w, history[|history| - 1]);
    }
  }

  /** Over every history of enabling, disabling and watch-list edits, with failures at any call: a last
      pass that succeeds leaves exactly that pass's RBAC. */
  lemma EveryRunIsExact(env: Env, k: Build, w: World, id: Id, history: seq<Settings>)
    requires ListsOnce(env) && Distinct(k, id) && Consistent(k, id, w)
    requires history != [] && forall s | s in history :: s.id == id
    requires Run(env, k, w, history).ok
    ensures Exactly(k, history[|history| - 1], Run(env, k, w, history).w)
    ensures OthersKept(k, id, w, Run(env, k, w, history).w)
  {
    var rest := history[..|history| - 1];
    assert forall s | s in rest :: s in history;
    RunKeeps(env, k, w, id, rest);
    RunKeeps(env, k, w, id, history);
    assert history[|history| - 1] in history;
    SuccessfulPassIsExact(env, k, Run(env, k, w, rest).w, history[|history| - 1]);
  }
}
