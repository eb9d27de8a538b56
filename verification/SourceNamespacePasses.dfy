/** Theorems about one pass of one instance over all namespaces. */
module SourceNamespacePasses {
  import opened Platform
  import opened Rbac
  import opened SourceNamespaces
  import opened SourceNamespaceSteps
  import opened SourceNamespaceLoops

  /** The label of a namespace never goes from one owner to another: it stays, or it goes, and then it leaves
      nothing of the feature behind that was made for `cr`. */
  ghost predicate NoHandover(cr: Instance, w: World, w': World)
  {
    forall g, y | LabelOf(w, g, y).Some? ::
      LabelOf(w', g, y) == LabelOf(w, g, y) || (LabelOf(w', g, y) == None && Emptied(g, cr, w', y))
  }

  lemma StaysEmptied(f: Feature, cr: Instance, w: World, w': World, y: string)
    requires Emptied(f, cr, w, y) && FeatureSame(f, w, w')
    ensures Emptied(f, cr, w', y)
  {
    var at := (y, ResourceName(f, cr));
    assert Lookup(w'.c.roles, at) == Lookup(w.c.roles, at) && Lookup(w'.c.bindings, at) == Lookup(w.c.bindings, at);
  }

  lemma RestoreKeepsLabels(cr: Instance, w: World, w': World)
    requires RestoreFrame(cr, w, w')
    ensures forall g, y | LabelOf(w, g, y).Some? :: LabelOf(w', g, y) == LabelOf(w, g, y)
    ensures forall y :: LabelOf(w', Notifications, y) == LabelOf(w, Notifications, y)
    ensures forall y :: LabelOf(w', ApplicationSet, y) in {LabelOf(w, ApplicationSet, y), Some(cr.namespace)}
    ensures forall y | y in w.c.namespaces :: ManagedByOther(w'.c.namespaces[y]) == ManagedByOther(w.c.namespaces[y])
  {
    forall y | y in w.c.namespaces
      ensures Lookup(w'.c.namespaces[y], MANAGED_BY_LABEL) == Lookup(w.c.namespaces[y], MANAGED_BY_LABEL)
      ensures LabelOf(w', Notifications, y) == LabelOf(w, Notifications, y)
    {
      assert MANAGED_BY_LABEL !in {APPLICATIONSET_LABEL, CLUSTER_LABEL};
      assert NOTIFICATIONS_LABEL !in {APPLICATIONSET_LABEL, CLUSTER_LABEL};
    }
    forall y | y in w.c.namespaces ensures ManagedByOther(w'.c.namespaces[y]) == ManagedByOther(w.c.namespaces[y]) {
      assert Lookup(w'.c.namespaces[y], MANAGED_BY_LABEL) == Lookup(w.c.namespaces[y], MANAGED_BY_LABEL);
    }
  }

  lemma OtherLabelsSame(f: Feature, cr: Instance, w: World, w': World)
    requires LoopFrame(f, cr, w, w')
    ensures forall g, y | g != f :: LabelOf(w', g, y) == LabelOf(w, g, y)
  {
    forall g, y | g != f ensures LabelOf(w', g, y) == LabelOf(w, g, y) {
      assert LabelKey(g) != LabelKey(f);
    }
  }

  /** Creating and then pruning for one feature: no label changes hands. */
  lemma CreateAndPruneKeeps(env: Env, rules: seq<Rule>, w: World, f: Feature, cr: Instance)
    requires ListsOnce(env)
    ensures var s := CreateAndPrune(env, rules, w, f, cr); NoHandover(cr, w, s.w) && LoopFrame(f, cr, w, s.w)
  {
    var a := Create(env, rules, w, f, cr);
    CreateKeeps(env, rules, w, f, cr);
    OtherLabelsSame(f, cr, w, a.w);
    CreateNoHandover(env, rules, w, f, cr);
    if a.ok {
      var s := Prune(env, a.w, f, cr);
      PruneKeeps(env, a.w, f, cr);
      OtherLabelsSame(f, cr, a.w, s.w);
      LoopFrameTrans(f, cr, w, a.w, s.w);
      forall g, y | LabelOf(w, g, y).Some?
        ensures LabelOf(s.w, g, y) == LabelOf(w, g, y) || (LabelOf(s.w, g, y) == None && Emptied(g, cr, s.w, y))
      {
        assert LabelOf(a.w, g, y) == LabelOf(w, g, y) || (LabelOf(a.w, g, y) == None && Emptied(g, cr, a.w, y));
        assert g == f ==> LabelGoesLast(f, cr, a.w, s.w, y);
      }
    }
  }

  lemma CreateNoHandover(env: Env, rules: seq<Rule>, w: World, f: Feature, cr: Instance)
    requires ListsOnce(env)
    ensures NoHandover(cr, w, Create(env, rules, w, f, cr).w)
    ensures forall g, y | g != f :: LabelOf(Create(env, rules, w, f, cr).w, g, y) == LabelOf(w, g, y)
  {
    var a := Create(env, rules, w, f, cr);
    CreateKeeps(env, rules, w, f, cr);
    OtherLabelsSame(f, cr, w, a.w);
    forall g, y | LabelOf(w, g, y).Some?
      ensures LabelOf(a.w, g, y) == LabelOf(w, g, y) || (LabelOf(a.w, g, y) == None && Emptied(g, cr, a.w, y))
    {
      assert g == f ==> CreateRelation(f, cr, w, a.w, y);
    }
  }

  /** No handover: whatever calls fail, a pass of an instance changes no tracking label from one owner
      to another, and takes one away only after role, binding and configuration of the instance. */
  lemma PassNoHandover(env: Env, rules: Feature -> seq<Rule>, w: World, cr: Instance)
    requires ListsOnce(env)
    ensures NoHandover(cr, w, Pass(env, rules, w, cr).w)
  {
    var a := Restore(env, w, cr);
    RestoreKeeps(env, w, cr);
    RestoreKeepsLabels(cr, w, a.w);
    var b := ListManaged(env, a.w, ApplicationSet, cr);
    var d := ListManaged(env, b.w, Notifications, cr);
    if a.ok && b.ok && d.ok {
      var e := CreateAndPrune(env, rules(ApplicationSet), d.w, ApplicationSet, cr);
      CreateAndPruneKeeps(env, rules(ApplicationSet), d.w, ApplicationSet, cr);
      var g := CreateAndPrune(env, rules(Notifications), e.w, Notifications, cr);
      CreateAndPruneKeeps(env, rules(Notifications), e.w, Notifications, cr);
      TwoFeatures(cr, w, d.w, e.w, g.w);
    }
  }

  lemma TwoFeatures(cr: Instance, w: World, d: World, e: World, g: World)
    requires forall f, y | LabelOf(w, f, y).Some? :: LabelOf(d, f, y) == LabelOf(w, f, y)
    requires NoHandover(cr, d, e) && LoopFrame(ApplicationSet, cr, d, e)
    requires NoHandover(cr, e, g) && LoopFrame(Notifications, cr, e, g)
    ensures NoHandover(cr, w, e) && NoHandover(cr, w, g)
  {
    OtherLabelsSame(ApplicationSet, cr, d, e);
    OtherLabelsSame(Notifications, cr, e, g);
    OtherFeatureSame(Notifications, ApplicationSet, cr, d, e);
    OtherFeatureSame(ApplicationSet, Notifications, cr, e, g);
    forall f, y | LabelOf(w, f, y).Some?
      ensures LabelOf(g, f, y) == LabelOf(w, f, y) || (LabelOf(g, f, y) == None && Emptied(f, cr, g, y))
    {
      assert LabelOf(e, f, y) == LabelOf(w, f, y) || (LabelOf(e, f, y) == None && Emptied(f, cr, e, y));
      if f == ApplicationSet && LabelOf(e, f, y) == None { StaysEmptied(f, cr, e, g, y); }
    }
  }

  /** The prune step, whatever calls fail, leaves alone every namespace that the instance does not own,
      and every one that is desired. */
  lemma PruneSparesOthers(env: Env, w: World, f: Feature, cr: Instance, y: string)
    requires ListsOnce(env)
    requires (y in w.c.namespaces && Owner(f, w.c.namespaces[y]) != Some(cr.namespace)) || Desired(env, f, w.c, cr, y)
    ensures SameNs(f, cr, w, Prune(env, w, f, cr).w, y)
  {
    PruneKeeps(env, w, f, cr);
    assert !Prunable(env, f, w, cr, y);
  }

  /** The create step works in no namespace but the desired ones. */
  lemma CreateSparesUndesired(env: Env, rules: seq<Rule>, w: World, f: Feature, cr: Instance, y: string)
    requires ListsOnce(env) && !cr.deleting && !Desired(env, f, w.c, cr, y)
    ensures SameNs(f, cr, w, Create(env, rules, w, f, cr).w, y)
  {
    CreateKeeps(env, rules, w, f, cr);
  }

  // ---------- One feature leaves the other alone ----------

  lemma ResourceNamesDiffer(f: Feature, g: Feature, cr: Instance, cr': Instance)
    requires f != g
    ensures ResourceName(f, cr) != ResourceName(g, cr')
  {
    var a, b := ResourceName(ApplicationSet, if f.ApplicationSet? then cr else cr'),
                ResourceName(Notifications, if f.ApplicationSet? then cr' else cr);
    assert a[|a| - 1] == 't' && b[|b| - 1] == 's';
  }

  /** Seen from feature `f`, nothing has changed: its labels, its roles and bindings in any namespace for
      any instance, its shared set, its configurations, and who else manages a namespace. */
  ghost predicate FeatureSame(f: Feature, w: World, w': World)
  {
    && w'.c.namespaces.Keys == w.c.namespaces.Keys
    && (forall y :: LabelOf(w', f, y) == LabelOf(w, f, y))
    && (forall y | y in w.c.namespaces :: ManagedByOther(w'.c.namespaces[y]) == ManagedByOther(w.c.namespaces[y]))
    && (forall cr, y :: Lookup(w'.c.roles, (y, ResourceName(f, cr))) == Lookup(w.c.roles, (y, ResourceName(f, cr))))
    && (forall cr, y ::
          Lookup(w'.c.bindings, (y, ResourceName(f, cr))) == Lookup(w.c.bindings, (y, ResourceName(f, cr))))
    && (f.Notifications? ==> w'.c.configurations == w.c.configurations)
    && Managed(w', f) == Managed(w, f)
  }

  lemma OtherFeatureSame(f: Feature, g: Feature, cr: Instance, w: World, w': World)
    requires LoopFrame(g, cr, w, w') && f != g
    ensures FeatureSame(f, w, w')
  {
    OtherLabelsSame(g, cr, w, w');
    forall y | y in w.c.namespaces ensures ManagedByOther(w'.c.namespaces[y]) == ManagedByOther(w.c.namespaces[y]) {
      ManagerStays(g, cr, w, w', y);
    }
    forall cr', y
      ensures Lookup(w'.c.roles, (y, ResourceName(f, cr'))) == Lookup(w.c.roles, (y, ResourceName(f, cr')))
      ensures Lookup(w'.c.bindings, (y, ResourceName(f, cr'))) == Lookup(w.c.bindings, (y, ResourceName(f, cr')))
    {
      ResourceNamesDiffer(f, g, cr', cr);
    }
  }

  /** Non-interference: whatever calls fail, creating and pruning for one feature leaves the labels, the
      roles and bindings, and the shared set of the other as they were; creating and pruning for
      ApplicationSet also leaves every NotificationsConfiguration. */
  lemma FeaturesDoNotInterfere(env: Env, rules: seq<Rule>, w: World, f: Feature, g: Feature, cr: Instance)
    requires ListsOnce(env) && f != g
    ensures FeatureSame(f, w, CreateAndPrune(env, rules, w, g, cr).w)
  {
    CreateAndPruneKeeps(env, rules, w, g, cr);
    OtherFeatureSame(f, g, cr, w, CreateAndPrune(env, rules, w, g, cr).w);
  }

  // ---------- Error-free passes ----------

  /** The stages of an error-free pass as feature `f` sees them: `r` after restoring, `l` before and `m`
      after creating, `p` after pruning. */
  ghost predicate Stages(
      env: Env, rules: seq<Rule>, w: World, r: World, l: World, m: World, p: World, w': World, f: Feature, cr: Instance)
  {
    && RestoreFrame(cr, w, r)
    && (forall y | Asks(w.c, cr, APPLICATIONSET_LABEL, y) :: LabelOf(r, ApplicationSet, y).Some?)
    && FeatureSame(f, SetManaged(r, f, Managed(l, f)), l)
    && (forall y | LabelledFor(r.c, f, cr, y) || y in Managed(r, f) :: y in Managed(l, f))
    && LoopFrame(f, cr, l, m)
    && (forall y | !Eligible(env, f, l.c, cr, y) :: SameNs(f, cr, l, m, y))
    && (forall y | Eligible(env, f, l.c, cr, y) :: Created(f, cr, rules, l, m, y))
    && LoopFrame(f, cr, m, p)
    && (forall y :: LabelOf(p, f, y) in {None, LabelOf(m, f, y)})
    && (forall y | y !in Managed(m, f) || !Prunable(env, f, m, cr, y) :: SameNs(f, cr, m, p, y))
    && (forall y | y in Managed(m, f) && Prunable(env, f, m, cr, y) :: Cleared(f, cr, p, y))
    && FeatureSame(f, p, w')
  }

  lemma ErrorFreeStages(env: Env, rules: Feature -> seq<Rule>, w: World, f: Feature, cr: Instance)
    returns (r: World, l: World, m: World, p: World)
    requires ListsOnce(env) && ErrorFree(env, w.n, Pass(env, rules, w, cr).w.n)
    ensures var s := Pass(env, rules, w, cr);
      s.ok && r == Restore(env, w, cr).w && Stages(env, rules(f), w, r, l, m, p, s.w, f, cr)
  {
    r := Restore(env, w, cr).w;
    var b := ListManaged(env, r, ApplicationSet, cr).w;
    var d := ListManaged(env, b, Notifications, cr).w;
    var e := CreateAndPrune(env, rules(ApplicationSet), d, ApplicationSet, cr).w;
    var g := CreateAndPrune(env, rules(Notifications), e, Notifications, cr).w;
    PassReachesTheEnd(env, rules, w, cr, r, b, d, e, g);
    RestoreKeeps(env, w, cr);
    assert ErrorFree(env, w.n, r.n) && ErrorFree(env, d.n, e.n) && ErrorFree(env, e.n, g.n);
    l := if f == ApplicationSet then d else e;
    p := if f == ApplicationSet then e else g;
    m := FeatureStages(env, rules(f), l, p, f, cr);
    SurroundingsSame(env, rules, r, d, e, g, f, cr);
  }

  /** What happens before and after the feature's own stages does not concern it. */
  lemma SurroundingsSame(
      env: Env, rules: Feature -> seq<Rule>, r: World, d: World, e: World, g: World, f: Feature, cr: Instance)
    requires ListsOnce(env) && d.c == r.c
    requires e == CreateAndPrune(env, rules(ApplicationSet), d, ApplicationSet, cr).w
    requires g == CreateAndPrune(env, rules(Notifications), e, Notifications, cr).w
    ensures var l := if f == ApplicationSet then d else e;
      && FeatureSame(f, SetManaged(r, f, Managed(l, f)), l) && Managed(l, f) == Managed(d, f)
    ensures FeatureSame(f, if f == ApplicationSet then e else g, g)
  {
    match f
    case ApplicationSet =>
      FeaturesDoNotInterfere(env, rules(Notifications), e, f, Notifications, cr);
    case Notifications =>
      FeaturesDoNotInterfere(env, rules(ApplicationSet), d, f, ApplicationSet, cr);
      FeatureSameFrom(f, r, d, e);
  }

  lemma FeatureSameFrom(f: Feature, r: World, d: World, l: World)
    requires d.c == r.c && FeatureSame(f, d, l)
    ensures FeatureSame(f, SetManaged(r, f, Managed(l, f)), l)
  {
    var r' := SetManaged(r, f, Managed(l, f));
    assert r'.c == d.c;
    forall y ensures LabelOf(l, f, y) == LabelOf(r', f, y) { assert LabelOf(l, f, y) == LabelOf(d, f, y); }
  }

  /** Creating and pruning for one feature. */
  lemma FeatureStages(env: Env, rules: seq<Rule>, l: World, p: World, f: Feature, cr: Instance) returns (m: World)
    requires ListsOnce(env) && p == CreateAndPrune(env, rules, l, f, cr).w && ErrorFree(env, l.n, p.n)
    ensures LoopFrame(f, cr, l, m) && LoopFrame(f, cr, m, p)
    ensures forall y | !Eligible(env, f, l.c, cr, y) :: SameNs(f, cr, l, m, y)
    ensures forall y | Eligible(env, f, l.c, cr, y) :: Created(f, cr, rules, l, m, y)
    ensures forall y :: LabelOf(p, f, y) in {None, LabelOf(m, f, y)}
    ensures forall y | y !in Managed(m, f) || !Prunable(env, f, m, cr, y) :: SameNs(f, cr, m, p, y)
    ensures forall y | y in Managed(m, f) && Prunable(env, f, m, cr, y) :: Cleared(f, cr, p, y)
  {
    ErrorFreeCreateAndPrune(env, rules, l, f, cr);
    m := Create(env, rules, l, f, cr).w;
    CreateKeeps(env, rules, l, f, cr);
    PruneKeeps(env, m, f, cr);
  }

  /** With error-free calls no stage fails. */
  lemma PassReachesTheEnd(
      env: Env, rules: Feature -> seq<Rule>, w: World, cr: Instance, r: World, b: World, d: World, e: World, g: World)
    requires ListsOnce(env) && ErrorFree(env, w.n, Pass(env, rules, w, cr).w.n)
    requires r == Restore(env, w, cr).w && b == ListManaged(env, r, ApplicationSet, cr).w
    requires d == ListManaged(env, b, Notifications, cr).w
    requires e == CreateAndPrune(env, rules(ApplicationSet), d, ApplicationSet, cr).w
    requires g == CreateAndPrune(env, rules(Notifications), e, Notifications, cr).w
    ensures Pass(env, rules, w, cr) == Step(g, true)
    ensures ErrorFree(env, w.n, g.n) && w.n <= r.n <= b.n <= d.n <= e.n <= g.n
    ensures CreateAndPrune(env, rules(ApplicationSet), d, ApplicationSet, cr).ok
    ensures CreateAndPrune(env, rules(Notifications), e, Notifications, cr).ok
    ensures forall y | LabelledFor(r.c, ApplicationSet, cr, y) || y in Managed(r, ApplicationSet) ::
        y in Managed(d, ApplicationSet)
    ensures forall y | LabelledFor(r.c, Notifications, cr, y) || y in Managed(r, Notifications) ::
        y in Managed(d, Notifications)
    ensures d.c == r.c
  {
    RestoreKeeps(env, w, cr);
    CreateAndPruneKeeps(env, rules(ApplicationSet), d, ApplicationSet, cr);
    CreateAndPruneKeeps(env, rules(Notifications), e, Notifications, cr);
    if ErrorFree(env, d.n, e.n) { ErrorFreeCreateAndPrune(env, rules(ApplicationSet), d, ApplicationSet, cr); }
    if ErrorFree(env, e.n, g.n) { ErrorFreeCreateAndPrune(env, rules(Notifications), e, Notifications, cr); }
  }

  lemma ErrorFreeCreateAndPrune(env: Env, rules: seq<Rule>, w: World, f: Feature, cr: Instance)
    requires ListsOnce(env) && ErrorFree(env, w.n, CreateAndPrune(env, rules, w, f, cr).w.n)
    ensures CreateAndPrune(env, rules, w, f, cr).ok
    ensures var m := Create(env, rules, w, f, cr);
      m.ok && w.n <= m.w.n && CreateAndPrune(env, rules, w, f, cr) == Prune(env, m.w, f, cr)
  {
    CreateKeeps(env, rules, w, f, cr);
    PruneKeeps(env, Create(env, rules, w, f, cr).w, f, cr);
  }

  /** Desired does not depend on labels, so every stage of a pass sees the same desired set, and the prune
      test, which goes by pattern, agrees with it. */
  lemma DesiredIsStable(env: Env, f: Feature, c: Cluster, c': Cluster, cr: Instance, y: string)
    requires c'.namespaces.Keys == c.namespaces.Keys
    ensures Desired(env, f, c', cr, y) == Desired(env, f, c, cr, y)
    ensures StillManaged(env, f, c', cr, y) == Desired(env, f, c, cr, y)
    ensures !cr.deleting ==> Eligible(env, f, c', cr, y) == Desired(env, f, c, cr, y)
  {
  }

  lemma UndesiredIsNotOwned(
      env: Env, rules: seq<Rule>, w: World, r: World, l: World, m: World, p: World, w': World, f: Feature, cr: Instance,
      y: string)
    requires Stages(env, rules, w, r, l, m, p, w', f, cr)
    requires !cr.deleting && cr.namespace != "" && y in w.c.namespaces && !Desired(env, f, w.c, cr, y)
    ensures LabelOf(w', f, y) != Some(cr.namespace)
  {
    DesiredIsStable(env, f, w.c, l.c, cr, y);
    DesiredIsStable(env, f, w.c, m.c, cr, y);
    assert SameNs(f, cr, l, m, y);
    assert LabelOf(l, f, y) == LabelOf(r, f, y);
    if LabelOf(m, f, y) == Some(cr.namespace) {
      assert LabelledFor(r.c, f, cr, y);
      assert y in Managed(m, f) && Prunable(env, f, m, cr, y);
      assert Cleared(f, cr, p, y);
    }
  }

  lemma DesiredStages(
      env: Env, rules: seq<Rule>, w: World, r: World, l: World, m: World, p: World, w': World, f: Feature, cr: Instance,
      y: string)
    requires Stages(env, rules, w, r, l, m, p, w', f, cr)
    requires !cr.deleting && y in w.c.namespaces && Desired(env, f, w.c, cr, y)
    ensures y in l.c.namespaces && ManagedByOther(l.c.namespaces[y]) == ManagedByOther(w.c.namespaces[y])
    ensures Created(f, cr, rules, l, m, y) && SameNs(f, cr, m, p, y)
  {
    RestoreKeepsLabels(cr, w, r);
    DesiredIsStable(env, f, w.c, l.c, cr, y);
    DesiredIsStable(env, f, w.c, m.c, cr, y);
    assert Eligible(env, f, l.c, cr, y) && !Prunable(env, f, m, cr, y);
  }

  lemma CreatedLabel(f: Feature, cr: Instance, rules: seq<Rule>, l: World, m: World, y: string)
    requires Created(f, cr, rules, l, m, y)
    ensures LabelOf(m, f, y) == Some(cr.namespace) <==>
      LabelOf(l, f, y) == Some(cr.namespace) || (LabelOf(l, f, y) == None && !ManagedByOther(l.c.namespaces[y]))
  {
  }

  lemma LabelsAround(
      env: Env, rules: seq<Rule>, w: World, r: World, l: World, m: World, p: World, w': World, f: Feature, cr: Instance,
      y: string)
    requires Stages(env, rules, w, r, l, m, p, w', f, cr)
    ensures LabelOf(w', f, y) == LabelOf(p, f, y) && LabelOf(l, f, y) == LabelOf(r, f, y)
  {
    assert LabelOf(l, f, y) == LabelOf(SetManaged(r, f, Managed(l, f)), f, y);
  }

  lemma DesiredOwnership(
      env: Env, rules: seq<Rule>, w: World, r: World, l: World, m: World, p: World, w': World, f: Feature, cr: Instance,
      y: string)
    requires Stages(env, rules, w, r, l, m, p, w', f, cr)
    requires !cr.deleting && y in w.c.namespaces && Desired(env, f, w.c, cr, y)
    ensures LabelOf(w', f, y) == Some(cr.namespace) <==>
              LabelOf(r, f, y) == Some(cr.namespace) || (LabelOf(r, f, y) == None && !ManagedByOther(w.c.namespaces[y]))
  {
    DesiredStages(env, rules, w, r, l, m, p, w', f, cr, y);
    CreatedLabel(f, cr, rules, l, m, y);
    LabelsAround(env, rules, w, r, l, m, p, w', f, cr, y);
  }

  /** Exact ownership: after an error-free pass the namespaces labelled for the instance are exactly the
      desired ones that it already owned once labels were restored, and the desired ones that were then
      unlabelled and had no non-empty managed-by label. */
  lemma OwnershipIsExact(env: Env, rules: Feature -> seq<Rule>, w: World, f: Feature, cr: Instance, y: string)
    requires ListsOnce(env) && ErrorFree(env, w.n, Pass(env, rules, w, cr).w.n)
    requires !cr.deleting && cr.namespace != ""
    requires y in w.c.namespaces
    ensures var r := Restore(env, w, cr).w; var w' := Pass(env, rules, w, cr).w;
      LabelOf(w', f, y) == Some(cr.namespace) <==>
        && Desired(env, f, w.c, cr, y)
        && (LabelOf(r, f, y) == Some(cr.namespace) || (LabelOf(r, f, y) == None && !ManagedByOther(w.c.namespaces[y])))
  {
    var r, l, m, p := ErrorFreeStages(env, rules, w, f, cr);
    var w' := Pass(env, rules, w, cr).w;
    if Desired(env, f, w.c, cr, y) {
      DesiredOwnership(env, rules(f), w, r, l, m, p, w', f, cr, y);
    } else {
      UndesiredIsNotOwned(env, rules(f), w, r, l, m, p, w', f, cr, y);
    }
  }

  /** No stray role: after an error-free pass, every role that the operator made for this instance outside
      its own namespace sits in a desired namespace or in one labelled for another instance, even if
      tracking labels had been stripped before the pass. */
  lemma NoStrayRole(env: Env, rules: Feature -> seq<Rule>, w: World, cr: Instance, x: Ref)
    requires ListsOnce(env) && ErrorFree(env, w.n, Pass(env, rules, w, cr).w.n)
    requires !cr.deleting && cr.namespace != ""
    requires var c := Pass(env, rules, w, cr).w.c;
      && x in c.roles && x.1 == ResourceName(ApplicationSet, cr) && x.0 in c.namespaces && x.0 != cr.namespace
      && OwnRole(c.roles[x], cr) && Scoped(c.roles[x].rules)
    ensures var w' := Pass(env, rules, w, cr).w;
      || Desired(env, ApplicationSet, w.c, cr, x.0)
      || (LabelOf(w', ApplicationSet, x.0).Some? && LabelOf(w', ApplicationSet, x.0) != Some(cr.namespace))
  {
    var r, l, m, p := ErrorFreeStages(env, rules, w, ApplicationSet, cr);
    if !Desired(env, ApplicationSet, w.c, cr, x.0) {
      StrayRole(env, rules(ApplicationSet), w, r, l, m, p, Pass(env, rules, w, cr).w, cr, x);
    }
  }

  /** Where a pass neither creates nor prunes, roles and labels are as they were after restoring. */
  lemma UnworkedNamespace(
      env: Env, rules: seq<Rule>, w: World, r: World, l: World, m: World, p: World, w': World, f: Feature, cr: Instance,
      y: string)
    requires Stages(env, rules, w, r, l, m, p, w', f, cr)
    requires !Eligible(env, f, l.c, cr, y) && !(y in Managed(m, f) && Prunable(env, f, m, cr, y))
    ensures Lookup(w'.c.roles, (y, ResourceName(f, cr))) == Lookup(w.c.roles, (y, ResourceName(f, cr)))
    ensures LabelOf(w', f, y) == LabelOf(m, f, y) == LabelOf(r, f, y)
    ensures y in Managed(m, f) <==> y in Managed(l, f)
  {
    assert SameNs(f, cr, l, m, y) && SameNs(f, cr, m, p, y);
    assert LabelOf(l, f, y) == LabelOf(SetManaged(r, f, Managed(l, f)), f, y);
    assert Lookup(w'.c.roles, (y, ResourceName(f, cr))) == Lookup(p.c.roles, (y, ResourceName(f, cr)));
    assert Lookup(l.c.roles, (y, ResourceName(f, cr))) == Lookup(r.c.roles, (y, ResourceName(f, cr)));
  }

  lemma StrayRole(
      env: Env, rules: seq<Rule>, w: World, r: World, l: World, m: World, p: World, w': World, cr: Instance, x: Ref)
    requires Stages(env, rules, w, r, l, m, p, w', ApplicationSet, cr)
    requires !cr.deleting && cr.namespace != "" && !Desired(env, ApplicationSet, w.c, cr, x.0)
    requires x in w'.c.roles && x.1 == ResourceName(ApplicationSet, cr) && x.0 in w.c.namespaces && x.0 != cr.namespace
    requires OwnRole(w'.c.roles[x], cr) && Scoped(w'.c.roles[x].rules)
    ensures LabelOf(w', ApplicationSet, x.0).Some? && LabelOf(w', ApplicationSet, x.0) != Some(cr.namespace)
  {
    var f, y := ApplicationSet, x.0;
    assert x == (y, ResourceName(f, cr));
    DesiredIsStable(env, f, w.c, l.c, cr, y);
    DesiredIsStable(env, f, w.c, m.c, cr, y);
    assert Lookup(w'.c.roles, x) == Lookup(p.c.roles, (y, ResourceName(f, cr)));
    assert y in Managed(m, f) && Prunable(env, f, m, cr, y) ==> Cleared(f, cr, p, y);
    UnworkedNamespace(env, rules, w, r, l, m, p, w', f, cr, y);
    assert Asks(w.c, cr, APPLICATIONSET_LABEL, y);
    assert LabelOf(r, f, y) == Some(cr.namespace) ==> LabelledFor(r.c, f, cr, y) && Prunable(env, f, m, cr, y);
  }
}
