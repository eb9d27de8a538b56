/** When an Image Updater pass succeeds, and when it writes nothing. */
module ImageUpdaterQuiet {
  import opened Platform
  import opened Rbac
  import opened ImageUpdater

  // ---------- Nothing left to do ----------

  /** Only the call counter moved. */
  predicate Same(w: World, w': World)
  {
    w'.roles == w.roles && w'.bindings == w.bindings && w'.accounts == w.accounts && w'.writes == w.writes
  }

  lemma ApplyQuiet(env: Env, w: World, id: Id, g: Grant)
    requires Granted(w, g)
    ensures Same(w, Apply(env, w, id, g).w)
  {
    assert w.roles[g.roleAt := w.roles[g.roleAt]] == w.roles;
    assert w.bindings[g.bindingAt := w.bindings[g.bindingAt]] == w.bindings;
  }

  lemma {:induction false} ApplyAllQuiet(env: Env, k: Build, w: World, id: Id, xs: seq<string>)
    requires forall x | x in xs :: Granted(w, NamespaceGrant(k, id, x))
    ensures Same(w, ApplyAll(env, k, w, id, xs).w)
    decreases |xs|
  {
    if xs != [] {
      var g := NamespaceGrant(k, id, xs[0]);
      assert xs[0] in xs;
      ApplyQuiet(env, w, id, g);
      assert forall x | x in xs[1..] :: x in xs;
      ApplyAllQuiet(env, k, Apply(env, w, id, g).w, id, xs[1..]);
    }
  }

  lemma DropRoleQuiet(env: Env, w: World, id: Id, at: Ref, desired: Role)
    requires at !in w.roles || (at.0 == "" && !OwnsRole(w, id, at))
    ensures Same(w, PutRole(env, w, id, at, desired, false).w)
  {
    if at in w.roles { assert w.roles[at := w.roles[at]] == w.roles; } else { assert w.roles - {at} == w.roles; }
  }

  lemma DropBindingQuiet(env: Env, w: World, id: Id, at: Ref, desired: Binding)
    requires at !in w.bindings || (at.0 == "" && !OwnsBinding(w, id, at))
    ensures Same(w, PutBinding(env, w, id, at, desired, false).w)
  {
    if at in w.bindings {
      assert w.bindings[at := w.bindings[at]] == w.bindings;
    } else {
      assert w.bindings - {at} == w.bindings;
    }
  }

  lemma {:induction false} PruneRolesQuiet(env: Env, w: World, refs: seq<Ref>, keep: set<string>)
    requires forall at | at in refs :: at.0 in keep
    ensures PruneRoles(env, w, refs, keep) == Step(w, true)
    decreases |refs|
  {
    if refs != [] {
      assert refs[0] in refs && forall at | at in refs[1..] :: at in refs;
      PruneRolesQuiet(env, w, refs[1..], keep);
    }
  }

  lemma {:induction false} PruneBindingsQuiet(env: Env, w: World, refs: seq<Ref>, keep: set<string>)
    requires forall at | at in refs :: at.0 in keep
    ensures PruneBindings(env, w, refs, keep) == Step(w, true)
    decreases |refs|
  {
    if refs != [] {
      assert refs[0] in refs && forall at | at in refs[1..] :: at in refs;
      PruneBindingsQuiet(env, w, refs[1..], keep);
    }
  }

  lemma NothingStaleIsQuiet(env: Env, w: World, id: Id, keep: set<string>)
    requires ListsOnce(env)
    requires forall at | at in TaggedRoles(w, id) :: at.0 in keep
    requires forall at | at in TaggedBindings(w, id) :: at.0 in keep
    ensures Same(w, Prune(env, w, id, keep).w)
  {
    var rs := env.listingPairs(w.n, TaggedRoles(w, id));
    assert forall at | at in rs :: at in TaggedRoles(w, id);
    PruneRolesQuiet(env, Tick(w), rs, keep);
    var w1 := Tick(w);
    assert TaggedBindings(w1, id) == TaggedBindings(w, id);
    var bs := env.listingPairs(w1.n, TaggedBindings(w1, id));
    assert forall at | at in bs :: at in TaggedBindings(w1, id);
    PruneBindingsQuiet(env, Tick(w1), bs, keep);
  }

  lemma PruneQuiet(env: Env, k: Build, w: World, s: Settings)
    requires ListsOnce(env) && Exactly(k, s, w)
    ensures Same(w, PruneAndFinish(env, w, s.id, Watched(s)).w)
  {
    assert forall at | at in TaggedRoles(w, s.id) :: at.0 in Watched(s);
    assert forall at | at in TaggedBindings(w, s.id) :: at.0 in Watched(s);
    NothingStaleIsQuiet(env, w, s.id, Watched(s));
  }

  lemma SameExactly(k: Build, s: Settings, w: World, w': World)
    requires Same(w, w') && Exactly(k, s, w)
    ensures Exactly(k, s, w')
  {
    assert TaggedRoles(w', s.id) == TaggedRoles(w, s.id);
    assert TaggedBindings(w', s.id) == TaggedBindings(w, s.id);
  }

  lemma ApplyModeQuiet(env: Env, k: Build, w: World, s: Settings)
    requires Exactly(k, s, w) && s.enabled
    ensures Same(w, ApplyMode(env, k, w, s).w)
  {
    var g := BaseGrant(k, s.id, BaseRules(k, s).value);
    ApplyQuiet(env, w, s.id, g);
    var a := Apply(env, w, s.id, g);
    match ModeOf(s.variables)
    case Combined =>
    case ClusterWide => ApplyQuiet(env, a.w, s.id, ClusterGrant(k, s.id));
    case Listed(xs) =>
      forall x | x in xs ensures Granted(a.w, NamespaceGrant(k, s.id, x)) {
        assert x in Watched(s);
        assert Granted(w, NamespaceGrant(k, s.id, x));
      }
      ApplyAllQuiet(env, k, a.w, s.id, xs);
  }

  lemma DropClusterQuiet(env: Env, k: Build, w: World, s: Settings)
    requires Exactly(k, s, w) && !WantsCluster(s)
    ensures Same(w, DropCluster(env, k, w, s.id).w)
  {
    var g := ClusterGrant(k, s.id);
    DropRoleQuiet(env, w, s.id, g.roleAt, g.role);
    DropBindingQuiet(env, PutRole(env, w, s.id, g.roleAt, g.role, false).w, s.id, g.bindingAt, g.binding);
  }

  lemma EnabledPassQuiet(env: Env, k: Build, w: World, s: Settings)
    requires ListsOnce(env) && Exactly(k, s, w) && s.enabled
    ensures Same(w, EnabledPass(env, k, w, s).w)
  {
    var a := EnsureAccount(env, k, w, s);
    assert Same(w, a.w);
    SameExactly(k, s, w, a.w);
    if !ModeOf(s.variables).ClusterWide? { DropClusterQuiet(env, k, a.w, s); }
    var b := if ModeOf(s.variables).ClusterWide? then a else DropCluster(env, k, a.w, s.id);
    SameExactly(k, s, w, b.w);
    ApplyModeQuiet(env, k, b.w, s);
    var c := ApplyMode(env, k, b.w, s);
    SameExactly(k, s, w, c.w);
    PruneQuiet(env, k, c.w, s);
  }

  lemma DropBindingsQuiet(env: Env, k: Build, w: World, id: Id)
    requires BaseRef(k, id) !in w.bindings && !OwnsBinding(w, id, ClusterRef(id))
    ensures Same(w, DropBindings(env, k, w, id).w)
  {
    var base, cluster := BaseGrant(k, id, k.base), ClusterGrant(k, id);
    DropBindingQuiet(env, w, id, base.bindingAt, base.binding);
    var a := PutBinding(env, w, id, base.bindingAt, base.binding, false);
    DropBindingQuiet(env, a.w, id, cluster.bindingAt, cluster.binding);
  }

  lemma DropRolesQuiet(env: Env, k: Build, w: World, id: Id)
    requires BaseRef(k, id) !in w.roles && !OwnsRole(w, id, ClusterRef(id))
    ensures Same(w, DropRoles(env, k, w, id).w)
  {
    var base, cluster := BaseGrant(k, id, k.base), ClusterGrant(k, id);
    DropRoleQuiet(env, w, id, base.roleAt, base.role);
    DropRoleQuiet(env, PutRole(env, w, id, base.roleAt, base.role, false).w, id, cluster.roleAt, cluster.role);
  }

  lemma AccountQuiet(env: Env, k: Build, w: World, s: Settings)
    requires BaseRef(k, s.id) in w.accounts <==> s.enabled
    ensures Same(w, EnsureAccount(env, k, w, s).w)
  {
  }

  /** Nothing of the instance is there. */
  predicate Bare(k: Build, id: Id, w: World)
  {
    && BaseRef(k, id) !in w.roles && BaseRef(k, id) !in w.bindings && BaseRef(k, id) !in w.accounts
    && !OwnsRole(w, id, ClusterRef(id)) && !OwnsBinding(w, id, ClusterRef(id))
    && TaggedRoles(w, id) == {} && TaggedBindings(w, id) == {}
  }

  lemma BareSame(k: Build, id: Id, w: World, w': World)
    requires Bare(k, id, w) && Same(w, w')
    ensures Bare(k, id, w')
  {
    assert TaggedRoles(w', id) == TaggedRoles(w, id) && TaggedBindings(w', id) == TaggedBindings(w, id);
  }

  lemma DropAccessQuiet(env: Env, k: Build, w: World, s: Settings)
    requires Bare(k, s.id, w) && !s.enabled
    ensures Same(w, DropAccess(env, k, w, s).w)
  {
    DropBindingsQuiet(env, k, w, s.id);
    var a := DropBindings(env, k, w, s.id);
    AccountQuiet(env, k, a.w, s);
    var b := EnsureAccount(env, k, a.w, s);
    DropRolesQuiet(env, k, b.w, s.id);
  }

  lemma SameThen(w: World, w1: World, w2: World)
    requires Same(w, w1) && Same(w1, w2)
    ensures Same(w, w2)
  {
  }

  lemma AfterOtherQuiet(env: Env, k: Build, a: Step, s: Settings)
    requires ListsOnce(env) && Bare(k, s.id, a.w) && !s.enabled
    ensures Same(a.w, AfterOther(env, k, a, s).w)
  {
    DropAccessQuiet(env, k, a.w, s);
    var b := DropAccess(env, k, a.w, s);
    BareSame(k, s.id, a.w, b.w);
    BareFinishQuiet(env, k, b.w, s.id);
  }

  lemma OtherSame(env: Env, w: World)
    ensures Same(w, Other(env, AfterLookups(w)).w)
  {
  }

  lemma QuietFrom(env: Env, k: Build, w: World, a: Step, s: Settings)
    ensures ListsOnce(env) && Bare(k, s.id, w) && !s.enabled && Same(w, a.w) ==>
      Same(w, AfterOther(env, k, a, s).w)
  {
    if ListsOnce(env) && Bare(k, s.id, w) && !s.enabled && Same(w, a.w) {
      BareSame(k, s.id, w, a.w);
      AfterOtherQuiet(env, k, a, s);
      SameThen(w, a.w, AfterOther(env, k, a, s).w);
    }
  }

  lemma DisabledPassQuiet(env: Env, k: Build, w: World, s: Settings)
    requires ListsOnce(env) && Bare(k, s.id, w) && !s.enabled
    ensures Same(w, DisabledPass(env, k, w, s).w)
  {
    OtherSame(env, w);
    QuietFrom(env, k, w, Other(env, AfterLookups(w)), s);
  }

  lemma BareFinishQuiet(env: Env, k: Build, w: World, id: Id)
    requires ListsOnce(env) && Bare(k, id, w)
    ensures Same(w, PruneAndFinish(env, w, id, {}).w)
  {
    NothingStaleIsQuiet(env, w, id, {});
  }

  /** Once the RBAC of the settings is in place, a pass with these settings writes no RBAC object,
      whatever the API server answers. */
  lemma ExactPassIsQuiet(env: Env, k: Build, w: World, s: Settings)
    requires ListsOnce(env) && Exactly(k, s, w)
    ensures Same(w, Pass(env, k, w, s).w)
  {
    if s.enabled { EnabledPassQuiet(env, k, w, s); } else { DisabledPassQuiet(env, k, w, s); }
  }

  // ---------- When a pass succeeds ----------

  /** A step fails only after a call that failed. */
  ghost predicate Clean(env: Env, w: World, s: Step)
  {
    w.n <= s.w.n && (ErrorFree(env, w.n, s.w.n) ==> s.ok)
  }

  lemma CleanThen(env: Env, w: World, s: Step, t: Step)
    requires Clean(env, w, s) && (if s.ok then Clean(env, s.w, t) else t == s)
    ensures Clean(env, w, t)
  {
    assert ErrorFree(env, w.n, t.w.n) && s.w.n <= t.w.n ==> ErrorFree(env, w.n, s.w.n) && ErrorFree(env, s.w.n, t.w.n);
  }

  lemma ApplyClean(env: Env, w: World, id: Id, g: Grant)
    ensures Clean(env, w, Apply(env, w, id, g))
  {
    var a := PutRole(env, w, id, g.roleAt, g.role, true);
    CleanThen(env, w, a, Apply(env, w, id, g));
  }

  lemma {:induction false} ApplyAllClean(env: Env, k: Build, w: World, id: Id, xs: seq<string>)
    ensures Clean(env, w, ApplyAll(env, k, w, id, xs))
    decreases |xs|
  {
    if xs != [] {
      var g := NamespaceGrant(k, id, xs[0]);
      ApplyClean(env, w, id, g);
      var a := Apply(env, w, id, g);
      ApplyAllClean(env, k, a.w, id, xs[1..]);
      CleanThen(env, w, a, ApplyAll(env, k, w, id, xs));
    }
  }

  lemma {:induction false} PruneRolesClean(env: Env, w: World, refs: seq<Ref>, keep: set<string>)
    ensures Clean(env, w, PruneRoles(env, w, refs, keep))
    decreases |refs|
  {
    if refs != [] {
      var d := DeleteRole(env, w, refs[0]);
      PruneRolesClean(env, if refs[0].0 in keep then w else d.w, refs[1..], keep);
      if refs[0].0 !in keep { CleanThen(env, w, d, PruneRoles(env, w, refs, keep)); }
    }
  }

  lemma {:induction false} PruneBindingsClean(env: Env, w: World, refs: seq<Ref>, keep: set<string>)
    ensures Clean(env, w, PruneBindings(env, w, refs, keep))
    decreases |refs|
  {
    if refs != [] {
      var d := DeleteBinding(env, w, refs[0]);
      PruneBindingsClean(env, if refs[0].0 in keep then w else d.w, refs[1..], keep);
      if refs[0].0 !in keep { CleanThen(env, w, d, PruneBindings(env, w, refs, keep)); }
    }
  }

  lemma PruneClean(env: Env, w: World, id: Id, keep: set<string>)
    ensures Clean(env, w, PruneAndFinish(env, w, id, keep))
  {
    var a := PruneRoles(env, Tick(w), env.listingPairs(w.n, TaggedRoles(w, id)), keep);
    PruneRolesClean(env, Tick(w), env.listingPairs(w.n, TaggedRoles(w, id)), keep);
    CleanThen(env, w, Other(env, w), if Answered(env, w) then a else Other(env, w));
    PruneBindingsClean(env, Tick(a.w), env.listingPairs(a.w.n, TaggedBindings(a.w, id)), keep);
    var b := PruneBindings(env, Tick(a.w), env.listingPairs(a.w.n, TaggedBindings(a.w, id)), keep);
    var b' := if Answered(env, a.w) then b else Other(env, a.w);
    CleanThen(env, a.w, Other(env, a.w), b');
    var t := Prune(env, w, id, keep);
    if Answered(env, w) { CleanThen(env, w, a, if a.ok then b' else a); }
    assert Clean(env, w, t);
    CleanThen(env, w, t, PruneAndFinish(env, w, id, keep));
  }

  predicate Refused(s: Settings) { WantsCluster(s) && !s.clusterScoped }

  lemma ApplyModeClean(env: Env, k: Build, w: World, s: Settings)
    ensures !(ModeOf(s.variables).ClusterWide? && !s.clusterScoped) ==> Clean(env, w, ApplyMode(env, k, w, s))
  {
    ApplyClean(env, w, s.id, BaseGrant(k, s.id, k.base + k.manager));
    var g := BaseGrant(k, s.id, k.base);
    ApplyClean(env, w, s.id, g);
    var a := Apply(env, w, s.id, g);
    match ModeOf(s.variables)
    case Combined =>
    case ClusterWide =>
      ApplyClean(env, a.w, s.id, ClusterGrant(k, s.id));
      if s.clusterScoped { CleanThen(env, w, a, ApplyMode(env, k, w, s)); }
    case Listed(xs) =>
      ApplyAllClean(env, k, a.w, s.id, xs);
      CleanThen(env, w, a, ApplyMode(env, k, w, s));
  }

  lemma EnabledPassClean(env: Env, k: Build, w: World, s: Settings)
    requires s.enabled && !Refused(s)
    ensures Clean(env, w, EnabledPass(env, k, w, s))
  {
    var a := EnsureAccount(env, k, w, s);
    assert Clean(env, w, a);
    var p := PutRole(env, a.w, s.id, ClusterRef(s.id), ClusterGrant(k, s.id).role, false);
    CleanThen(env, a.w, p, DropCluster(env, k, a.w, s.id));
    var wide := ModeOf(s.variables).ClusterWide?;
    var b := if wide || !a.ok then a else DropCluster(env, k, a.w, s.id);
    if !wide { CleanThen(env, w, a, b); }
    ApplyModeClean(env, k, b.w, s);
    var c := if b.ok then ApplyMode(env, k, b.w, s) else b;
    CleanThen(env, w, b, c);
    PruneClean(env, c.w, s.id, Watched(s));
    CleanThen(env, w, c, if c.ok then PruneAndFinish(env, c.w, s.id, Watched(s)) else c);
  }

  lemma DropBindingsClean(env: Env, k: Build, w: World, id: Id)
    ensures Clean(env, w, DropBindings(env, k, w, id))
  {
    var base := BaseGrant(k, id, k.base);
    CleanThen(env, w, PutBinding(env, w, id, base.bindingAt, base.binding, false), DropBindings(env, k, w, id));
  }

  lemma DropRolesClean(env: Env, k: Build, w: World, id: Id)
    ensures Clean(env, w, DropRoles(env, k, w, id))
  {
    var base := BaseGrant(k, id, k.base);
    CleanThen(env, w, PutRole(env, w, id, base.roleAt, base.role, false), DropRoles(env, k, w, id));
  }

  lemma AccountClean(env: Env, k: Build, w: World, s: Settings)
    ensures Clean(env, w, EnsureAccount(env, k, w, s))
  {
  }

  lemma DropAccessClean(env: Env, k: Build, w: World, s: Settings)
    ensures Clean(env, w, DropAccess(env, k, w, s))
  {
    DropBindingsClean(env, k, w, s.id);
    var a := DropBindings(env, k, w, s.id);
    if a.ok {
      AccountClean(env, k, a.w, s);
      var b := EnsureAccount(env, k, a.w, s);
      CleanThen(env, w, a, b);
      if b.ok {
        DropRolesClean(env, k, b.w, s.id);
        CleanThen(env, w, b, DropRoles(env, k, b.w, s.id));
      }
    }
  }

  lemma AfterOtherClean(env: Env, k: Build, a: Step, s: Settings)
    requires a.ok
    ensures Clean(env, a.w, AfterOther(env, k, a, s))
  {
    DropAccessClean(env, k, a.w, s);
    var b := DropAccess(env, k, a.w, s);
    if b.ok {
      PruneClean(env, b.w, s.id, {});
      CleanThen(env, a.w, b, PruneAndFinish(env, b.w, s.id, {}));
    }
  }

  lemma OtherClean(env: Env, w: World)
    ensures Clean(env, w, Other(env, AfterLookups(w)))
  {
  }

  lemma CleanFrom(env: Env, k: Build, w: World, a: Step, s: Settings)
    ensures Clean(env, w, a) ==> Clean(env, w, AfterOther(env, k, a, s))
  {
    if Clean(env, w, a) {
      if a.ok { AfterOtherClean(env, k, a, s); }
      CleanThen(env, w, a, AfterOther(env, k, a, s));
    }
  }

  lemma DisabledPassClean(env: Env, k: Build, w: World, s: Settings)
    ensures Clean(env, w, DisabledPass(env, k, w, s))
  {
    OtherClean(env, w);
    CleanFrom(env, k, w, Other(env, AfterLookups(w)), s);
  }

  /** A pass all of whose calls succeed is itself a success, except that watching "*" from a namespace
      that is not cluster-scoped is refused, always. */
  lemma ErrorFreePassSucceeds(env: Env, k: Build, w: World, s: Settings)
    requires ErrorFree(env, w.n, Pass(env, k, w, s).w.n)
    ensures Pass(env, k, w, s).ok <==> !Refused(s)
  {
    if !s.enabled {
      DisabledPassClean(env, k, w, s);
    } else if !Refused(s) {
      EnabledPassClean(env, k, w, s);
    }
  }
}
