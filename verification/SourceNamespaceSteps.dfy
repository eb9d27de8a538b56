/** What one step of a source-namespace pass can change, and what it achieves when its calls succeed. */
module SourceNamespaceSteps {
  import opened Platform
  import opened Rbac
  import opened SourceNamespaces

  function LabelOf(w: World, f: Feature, x: string): (r: Option<string>)
  {
    if x in w.c.namespaces then Lookup(w.c.namespaces[x], LabelKey(f)) else None
  }

  // ---------- Frames ----------

  /** A step of feature `f` for `cr` working on namespace `x` changes nothing but the feature's label,
      role, binding and configuration there, and the place of `x` in the feature's managed set. */
  ghost predicate Frame(f: Feature, cr: Instance, w: World, w': World, x: string)
  {
    && w.n <= w'.n && w.writes <= w'.writes
    && w'.c.namespaces.Keys == w.c.namespaces.Keys
    && (forall y | y in w.c.namespaces && y != x :: w'.c.namespaces[y] == w.c.namespaces[y])
    && (x in w.c.namespaces ==> forall k | k != LabelKey(f) ::
          Lookup(w'.c.namespaces[x], k) == Lookup(w.c.namespaces[x], k))
    && (forall r | r != (x, ResourceName(f, cr)) :: Lookup(w'.c.roles, r) == Lookup(w.c.roles, r))
    && (forall r | r != (x, ResourceName(f, cr)) :: Lookup(w'.c.bindings, r) == Lookup(w.c.bindings, r))
    && (f.ApplicationSet? ==> w'.c.configurations == w.c.configurations)
    && (forall y | y != x :: y in w'.c.configurations <==> y in w.c.configurations)
    && (forall g | g != f :: Managed(w', g) == Managed(w, g))
    && (forall y | y != x :: y in Managed(w', f) <==> y in Managed(w, f))
  }

  lemma FrameTrans(f: Feature, cr: Instance, a: World, b: World, c: World, x: string)
    requires Frame(f, cr, a, b, x) && Frame(f, cr, b, c, x)
    ensures Frame(f, cr, a, c, x)
  {
  }

  lemma TickFrame(f: Feature, cr: Instance, w: World, x: string)
    ensures Frame(f, cr, w, Tick(w), x)
  {
  }

  /** Only objects of the feature changed, in any namespaces: the frame of a whole loop. */
  ghost predicate LoopFrame(f: Feature, cr: Instance, w: World, w': World)
  {
    && w.n <= w'.n && w.writes <= w'.writes
    && w'.c.namespaces.Keys == w.c.namespaces.Keys
    && (forall y, k | y in w.c.namespaces && k != LabelKey(f) ::
          Lookup(w'.c.namespaces[y], k) == Lookup(w.c.namespaces[y], k))
    && (forall r: Ref | r.1 != ResourceName(f, cr) :: Lookup(w'.c.roles, r) == Lookup(w.c.roles, r))
    && (forall r: Ref | r.1 != ResourceName(f, cr) :: Lookup(w'.c.bindings, r) == Lookup(w.c.bindings, r))
    && (f.ApplicationSet? ==> w'.c.configurations == w.c.configurations)
    && (forall g | g != f :: Managed(w', g) == Managed(w, g))
  }

  lemma FrameIsLoopFrame(f: Feature, cr: Instance, w: World, w': World, x: string)
    requires Frame(f, cr, w, w', x)
    ensures LoopFrame(f, cr, w, w')
  {
  }

  lemma LoopFrameTrans(f: Feature, cr: Instance, a: World, b: World, c: World)
    requires LoopFrame(f, cr, a, b) && LoopFrame(f, cr, b, c)
    ensures LoopFrame(f, cr, a, c)
  {
  }

  /** A namespace, with everything of the feature in it, is as it was. */
  ghost predicate SameNs(f: Feature, cr: Instance, w: World, w': World, y: string)
  {
    && Lookup(w'.c.namespaces, y) == Lookup(w.c.namespaces, y)
    && Lookup(w'.c.roles, (y, ResourceName(f, cr))) == Lookup(w.c.roles, (y, ResourceName(f, cr)))
    && Lookup(w'.c.bindings, (y, ResourceName(f, cr))) == Lookup(w.c.bindings, (y, ResourceName(f, cr)))
    && (y in w'.c.configurations <==> y in w.c.configurations)
    && (y in Managed(w', f) <==> y in Managed(w, f))
  }

  lemma ElsewhereSame(f: Feature, cr: Instance, w: World, w': World, x: string, y: string)
    requires Frame(f, cr, w, w', x) && y != x
    ensures SameNs(f, cr, w, w', y)
  {
  }

  /** Changing the place of `x` in the managed set. */
  lemma ManagedFrame(w: World, f: Feature, cr: Instance, x: string, s: set<string>)
    requires s == Managed(w, f) + {x} || s == Managed(w, f) - {x}
    ensures Frame(f, cr, w, SetManaged(w, f, s), x) && Managed(SetManaged(w, f, s), f) == s
  {
  }

  // ---------- Cleaning up ----------

  lemma DropRoleFrame(env: Env, w: World, f: Feature, cr: Instance, x: string)
    ensures var s := DropRole(env, w, (x, ResourceName(f, cr)));
      && Frame(f, cr, w, s.w, x) && s.w.c.namespaces == w.c.namespaces && s.w.managed == w.managed
      && (s.ok ==> (x, ResourceName(f, cr)) !in s.w.c.roles)
      && (ErrorFree(env, w.n, s.w.n) ==> s.ok)
  {
  }

  lemma DropBindingFrame(env: Env, w: World, f: Feature, cr: Instance, x: string)
    ensures var s := DropBinding(env, w, (x, ResourceName(f, cr)));
      && Frame(f, cr, w, s.w, x) && s.w.c.namespaces == w.c.namespaces && s.w.managed == w.managed
      && s.w.c.roles == w.c.roles && (s.ok ==> (x, ResourceName(f, cr)) !in s.w.c.bindings)
      && (ErrorFree(env, w.n, s.w.n) ==> s.ok)
  {
  }

  lemma DropConfigurationFrame(env: Env, w: World, f: Feature, cr: Instance, x: string)
    ensures var s := DropConfiguration(env, w, f, x);
      && Frame(f, cr, w, s.w, x) && s.w.c.namespaces == w.c.namespaces && s.w.managed == w.managed
      && s.w.c.roles == w.c.roles && s.w.c.bindings == w.c.bindings
      && (s.ok && f.Notifications? ==> x !in s.w.c.configurations)
      && (ErrorFree(env, w.n, s.w.n) ==> s.ok)
  {
  }

  lemma DropLabelFrame(env: Env, w: World, f: Feature, cr: Instance, x: string)
    requires x in w.c.namespaces
    ensures var s := DropLabel(env, w, f, x, w.c.namespaces[x]);
      && Frame(f, cr, w, s.w, x) && s.w.managed == w.managed && s.w.c.roles == w.c.roles
      && s.w.c.bindings == w.c.bindings && s.w.c.configurations == w.c.configurations
      && LabelOf(s.w, f, x) in {None, LabelOf(w, f, x)}
      && (s.ok ==> LabelOf(s.w, f, x) == None)
      && (ErrorFree(env, w.n, s.w.n) ==> s.ok)
  {
  }

  /** Nothing of the feature is left in a namespace. */
  ghost predicate Emptied(f: Feature, cr: Instance, w: World, x: string)
  {
    && LabelOf(w, f, x) == None
    && (x, ResourceName(f, cr)) !in w.c.roles && (x, ResourceName(f, cr)) !in w.c.bindings
    && (f.Notifications? ==> x !in w.c.configurations)
  }

  /** Nor has it a place in the shared set. */
  ghost predicate Cleared(f: Feature, cr: Instance, w: World, x: string)
  {
    Emptied(f, cr, w, x) && x !in Managed(w, f)
  }

  /** A label that went left nothing of the feature behind, and nothing comes back. */
  ghost predicate LabelGoesLast(f: Feature, cr: Instance, w: World, w': World, x: string)
  {
    && (LabelOf(w, f, x).Some? && LabelOf(w', f, x).None? ==> Emptied(f, cr, w', x))
    && (Emptied(f, cr, w, x) ==> Emptied(f, cr, w', x))
  }

  lemma DropsKeepEmptied(env: Env, w: World, f: Feature, cr: Instance, x: string)
    ensures var ref := (x, ResourceName(f, cr));
      && LabelGoesLast(f, cr, w, DropRole(env, w, ref).w, x)
      && LabelGoesLast(f, cr, w, DropBinding(env, w, ref).w, x)
      && LabelGoesLast(f, cr, w, DropConfiguration(env, w, f, x).w, x)
  {
  }

  /** Whatever calls fail, cleanup takes the label away only when all else has gone. */
  lemma CleanupLabelLast(env: Env, w: World, f: Feature, cr: Instance, x: string)
    ensures LabelGoesLast(f, cr, w, Cleanup(env, w, f, cr, x).w, x)
  {
    if Answered(env, w) && x in w.c.namespaces {
      var t, ref := Tick(w), (x, ResourceName(f, cr));
      var a := DropRole(env, t, ref);
      DropRoleFrame(env, t, f, cr, x);
      DropsKeepEmptied(env, t, f, cr, x);
      if a.ok {
        var b := DropBinding(env, a.w, ref);
        DropBindingFrame(env, a.w, f, cr, x);
        DropsKeepEmptied(env, a.w, f, cr, x);
        if b.ok {
          var d := DropConfiguration(env, b.w, f, x);
          DropConfigurationFrame(env, b.w, f, cr, x);
          DropsKeepEmptied(env, b.w, f, cr, x);
          if d.ok { DropLabelFrame(env, d.w, f, cr, x); }
        }
      }
    }
  }

  /** Cleanup adds no label and, when its calls succeed, leaves nothing of the feature. */
  lemma CleanupFrame(env: Env, w: World, f: Feature, cr: Instance, x: string)
    ensures var s := Cleanup(env, w, f, cr, x);
      && Frame(f, cr, w, s.w, x) && s.w.managed == w.managed
      && LabelOf(s.w, f, x) in {None, LabelOf(w, f, x)}
      && (s.ok && x in w.c.namespaces ==> Emptied(f, cr, s.w, x))
      && (ErrorFree(env, w.n, s.w.n) ==> s.ok)
  {
    TickFrame(f, cr, w, x);
    if Answered(env, w) && x in w.c.namespaces {
      var t := Tick(w);
      var a := DropRole(env, t, (x, ResourceName(f, cr)));
      DropRoleFrame(env, t, f, cr, x);
      FrameTrans(f, cr, w, t, a.w, x);
      if a.ok {
        var b := DropBinding(env, a.w, (x, ResourceName(f, cr)));
        DropBindingFrame(env, a.w, f, cr, x);
        FrameTrans(f, cr, w, a.w, b.w, x);
        if b.ok {
          var d := DropConfiguration(env, b.w, f, x);
          DropConfigurationFrame(env, b.w, f, cr, x);
          FrameTrans(f, cr, w, b.w, d.w, x);
          if d.ok {
            DropLabelFrame(env, d.w, f, cr, x);
            FrameTrans(f, cr, w, d.w, DropLabel(env, d.w, f, x, w.c.namespaces[x]).w, x);
          }
        }
      }
    }
  }

  // ---------- Creating ----------

  lemma EnsureLabelLabels(env: Env, w: World, f: Feature, cr: Instance, x: string)
    requires x in w.c.namespaces
    ensures var s := EnsureLabel(env, w, f, cr, x);
      && (LabelOf(w, f, x).Some? ==> LabelOf(s.w, f, x) == LabelOf(w, f, x))
      && LabelOf(s.w, f, x) in {LabelOf(w, f, x), Some(cr.namespace)}
      && (ErrorFree(env, w.n, s.w.n) ==> s.ok && LabelOf(s.w, f, x).Some?)
  {
  }

  /** Writing the labels of a namespace where only the feature's has changed. */
  lemma WriteLabelsFrame(env: Env, w: World, f: Feature, cr: Instance, x: string, labels: Labels)
    requires x in w.c.namespaces
    requires forall k | k != LabelKey(f) :: Lookup(labels, k) == Lookup(w.c.namespaces[x], k)
    ensures var s := Write(env, w, PutLabels(w.c, x, labels));
      && Frame(f, cr, w, s.w, x) && s.w.managed == w.managed && s.w.c.roles == w.c.roles
      && s.w.c.bindings == w.c.bindings && s.w.c.configurations == w.c.configurations
  {
  }

  lemma EnsureLabelFrame(env: Env, w: World, f: Feature, cr: Instance, x: string)
    requires x in w.c.namespaces
    ensures var s := EnsureLabel(env, w, f, cr, x);
      && Frame(f, cr, w, s.w, x) && s.w.managed == w.managed && s.w.c.roles == w.c.roles
      && s.w.c.bindings == w.c.bindings && s.w.c.configurations == w.c.configurations
  {
    var labels := w.c.namespaces[x];
    TickFrame(f, cr, w, x);
    if LabelKey(f) !in labels && Answered(env, w) {
      WriteLabelsFrame(env, Tick(w), f, cr, x, labels[LabelKey(f) := cr.namespace]);
      FrameTrans(f, cr, w, Tick(w), EnsureLabel(env, w, f, cr, x).w, x);
    }
  }

  lemma EnsureRoleFrame(env: Env, w: World, f: Feature, cr: Instance, x: string, desired: Role)
    ensures var s := EnsureRole(env, w, (x, ResourceName(f, cr)), desired);
      && Frame(f, cr, w, s.w, x) && s.w.c.namespaces == w.c.namespaces && s.w.managed == w.managed
      && (ErrorFree(env, w.n, s.w.n) ==> s.ok)
  {
  }

  lemma EnsureBindingFrame(env: Env, w: World, f: Feature, cr: Instance, x: string, desired: Binding)
    ensures var s := EnsureBinding(env, w, (x, ResourceName(f, cr)), desired);
      && Frame(f, cr, w, s.w, x) && s.w.c.namespaces == w.c.namespaces && s.w.managed == w.managed
      && (ErrorFree(env, w.n, s.w.n) ==> s.ok)
  {
  }

  lemma EnsureConfigurationFrame(env: Env, w: World, f: Feature, cr: Instance, x: string)
    ensures var s := EnsureConfiguration(env, w, f, x);
      && Frame(f, cr, w, s.w, x) && s.w.c.namespaces == w.c.namespaces && s.w.managed == w.managed
      && (ErrorFree(env, w.n, s.w.n) ==> s.ok)
  {
  }

  /** Labels that the operator puts on what it creates. */
  predicate FreshLabels(labels: map<string, string>, cr: Instance)
  {
    labels == map["app.kubernetes.io/name" := cr.name, "app.kubernetes.io/part-of" := "argocd",
                  "app.kubernetes.io/managed-by" := cr.name]
  }

  /** The role of the feature holds exactly the given rules; a role that was there keeps its labels. */
  ghost predicate RoleStands(f: Feature, cr: Instance, rules: seq<Rule>, w: World, w': World, x: string)
  {
    var at := (x, ResourceName(f, cr));
    && at in w'.c.roles && w'.c.roles[at].rules == rules
    && (if at in w.c.roles then w'.c.roles[at].labels == w.c.roles[at].labels
        else FreshLabels(w'.c.roles[at].labels, cr))
  }

  /** No binding of the feature's name refers to anything but the feature's role. */
  ghost predicate Bindable(f: Feature, cr: Instance, w: World, x: string)
  {
    var at := (x, ResourceName(f, cr));
    at in w.c.bindings ==>
      w.c.bindings[at].roleRef.kind == "Role" && w.c.bindings[at].roleRef.name == ResourceName(f, cr)
  }

  /** The binding of the feature grants its role to the service account of the feature's controller. */
  ghost predicate BindingStands(f: Feature, cr: Instance, w: World, x: string)
  {
    var at := (x, ResourceName(f, cr));
    && at in w.c.bindings && w.c.bindings[at].roleRef.kind == "Role"
    && w.c.bindings[at].roleRef.name == ResourceName(f, cr)
    && |w.c.bindings[at].subjects| == 1 && w.c.bindings[at].subjects[0].kind == "ServiceAccount"
    && w.c.bindings[at].subjects[0].namespace == cr.namespace
    && w.c.bindings[at].subjects[0].name ==
         cr.name + (if f.ApplicationSet? then "-applicationset-controller" else "-notifications-controller")
  }

  /** What a namespace holds of the feature once it was created there, from an earlier state of it: a binding
      with another RoleRef has gone, to be created anew the next time. */
  ghost predicate Furnished(f: Feature, cr: Instance, rules: seq<Rule>, w: World, w': World, x: string)
  {
    var at := (x, ResourceName(f, cr));
    && RoleStands(f, cr, rules, w, w', x)
    && (BindingStands(f, cr, w', x) || (!Bindable(f, cr, w, x) && at !in w'.c.bindings))
    && (at in w'.c.bindings ==>
          if at in w.c.bindings && Bindable(f, cr, w, x) then w'.c.bindings[at].labels == w.c.bindings[at].labels
          else FreshLabels(w'.c.bindings[at].labels, cr))
    && (f.Notifications? ==> x in w'.c.configurations)
  }

  lemma EnsureRoleStands(env: Env, rules: seq<Rule>, w: World, f: Feature, cr: Instance, x: string)
    ensures var s := EnsureRole(env, w, (x, ResourceName(f, cr)), DesiredRole(cr, rules));
      && s.w.c.bindings == w.c.bindings && s.w.c.configurations == w.c.configurations
      && (s.ok ==> RoleStands(f, cr, rules, w, s.w, x))
  {
  }

  lemma EnsureBindingStands(env: Env, w: World, f: Feature, cr: Instance, x: string)
    ensures var s := EnsureBinding(env, w, (x, ResourceName(f, cr)), DesiredBinding(f, cr));
      var at := (x, ResourceName(f, cr));
      && s.w.c.roles == w.c.roles && s.w.c.configurations == w.c.configurations
      && (s.ok ==> if Bindable(f, cr, w, x) then BindingStands(f, cr, s.w, x) else at !in s.w.c.bindings)
      && (s.ok && at in s.w.c.bindings ==>
            if at in w.c.bindings then s.w.c.bindings[at].labels == w.c.bindings[at].labels
            else FreshLabels(s.w.c.bindings[at].labels, cr))
  {
  }

  lemma EnsureConfigurationStands(env: Env, w: World, f: Feature, x: string)
    ensures var s := EnsureConfiguration(env, w, f, x);
      && s.w.c.roles == w.c.roles && s.w.c.bindings == w.c.bindings
      && (s.ok && f.Notifications? ==> x in s.w.c.configurations)
  {
  }

  lemma EnsureResourcesFurnishes(env: Env, rules: seq<Rule>, w: World, f: Feature, cr: Instance, x: string)
    ensures var t := EnsureResources(env, rules, w, f, cr, x); t.ok ==> Furnished(f, cr, rules, w, t.w, x)
  {
    var ref := (x, ResourceName(f, cr));
    var a := EnsureRole(env, w, ref, DesiredRole(cr, rules));
    EnsureRoleStands(env, rules, w, f, cr, x);
    var b := EnsureBinding(env, a.w, ref, DesiredBinding(f, cr));
    EnsureBindingStands(env, a.w, f, cr, x);
    EnsureConfigurationStands(env, b.w, f, x);
  }

  lemma EnsureResourcesFrame(env: Env, rules: seq<Rule>, w: World, f: Feature, cr: Instance, x: string)
    ensures var t := EnsureResources(env, rules, w, f, cr, x);
      && Frame(f, cr, w, t.w, x) && t.w.c.namespaces == w.c.namespaces && !t.abort
      && x in Managed(t.w, f)
      && (ErrorFree(env, w.n, t.w.n) ==> t.ok)
  {
    var ref := (x, ResourceName(f, cr));
    var a := EnsureRole(env, w, ref, DesiredRole(cr, rules));
    EnsureRoleFrame(env, w, f, cr, x, DesiredRole(cr, rules));
    var b := EnsureBinding(env, a.w, ref, DesiredBinding(f, cr));
    EnsureBindingFrame(env, a.w, f, cr, x, DesiredBinding(f, cr));
    FrameTrans(f, cr, w, a.w, b.w, x);
    var d := EnsureConfiguration(env, b.w, f, x);
    EnsureConfigurationFrame(env, b.w, f, cr, x);
    FrameTrans(f, cr, w, b.w, d.w, x);
    ManagedFrame(d.w, f, cr, x, Managed(d.w, f) + {x});
    FrameTrans(f, cr, w, d.w, SetManaged(d.w, f, Managed(d.w, f) + {x}), x);
  }

  /** The managed-by label of a namespace, which no pass touches, decides whether creating may only add the
      feature's label or only remove it. It removes it last, and does nothing where there is none. */
  ghost predicate CreateRelation(f: Feature, cr: Instance, w: World, w': World, x: string)
  {
    x in w.c.namespaces && x in w'.c.namespaces ==>
      if ManagedByOther(w.c.namespaces[x]) then
        && LabelOf(w', f, x) in {None, LabelOf(w, f, x)}
        && (LabelOf(w, f, x).Some? && LabelOf(w', f, x).None? ==> Emptied(f, cr, w', x))
        && (LabelOf(w, f, x).None? ==> SameNs(f, cr, w, w', x))
      else LabelOf(w, f, x).Some? ==> LabelOf(w', f, x) == LabelOf(w, f, x)
  }

  /** What creating in `x` leaves there when its calls succeed. */
  ghost predicate Created(f: Feature, cr: Instance, rules: seq<Rule>, w: World, w': World, x: string)
  {
    && x in w.c.namespaces && x in w'.c.namespaces
    && if !ManagedByOther(w.c.namespaces[x]) then
         && LabelOf(w', f, x) == (if LabelOf(w, f, x).Some? then LabelOf(w, f, x) else Some(cr.namespace))
         && x in Managed(w', f)
         && Furnished(f, cr, rules, w, w', x)
       else if LabelOf(w, f, x).Some? && LabelOf(w, f, x) != Some(cr.namespace) then Cleared(f, cr, w', x)
       else SameNs(f, cr, w, w', x)
  }

  lemma YieldFrame(env: Env, rules: seq<Rule>, w: World, f: Feature, cr: Instance, x: string)
    requires x in w.c.namespaces && ManagedByOther(w.c.namespaces[x])
    ensures var t := YieldNamespace(env, w, f, cr, x);
      && Frame(f, cr, w, t.w, x) && CreateRelation(f, cr, w, t.w, x) && t.ok && !t.abort
      && (ErrorFree(env, w.n, t.w.n) ==> Created(f, cr, rules, w, t.w, x))
  {
    if LabelOf(w, f, x).Some? && LabelOf(w, f, x) != Some(cr.namespace) {
      var w2 := SetManaged(w, f, Managed(w, f) - {x});
      ManagedFrame(w, f, cr, x, Managed(w, f) - {x});
      CleanupFrame(env, w2, f, cr, x);
      CleanupLabelLast(env, w2, f, cr, x);
      FrameTrans(f, cr, w, w2, Cleanup(env, w2, f, cr, x).w, x);
    }
  }

  lemma FurnishedFrom(f: Feature, cr: Instance, rules: seq<Rule>, v: World, w: World, w': World, x: string)
    requires v.c.roles == w.c.roles && v.c.bindings == w.c.bindings
    ensures Furnished(f, cr, rules, v, w', x) <==> Furnished(f, cr, rules, w, w', x)
  {
    assert Bindable(f, cr, v, x) == Bindable(f, cr, w, x);
    assert RoleStands(f, cr, rules, v, w', x) == RoleStands(f, cr, rules, w, w', x);
  }

  lemma TakenIsCreated(f: Feature, cr: Instance, rules: seq<Rule>, w: World, s: World, w': World, x: string)
    requires x in w.c.namespaces && !ManagedByOther(w.c.namespaces[x])
    requires s.c.roles == w.c.roles && s.c.bindings == w.c.bindings && LabelOf(s, f, x).Some?
    requires LabelOf(s, f, x) in {LabelOf(w, f, x), Some(cr.namespace)}
    requires LabelOf(w, f, x).Some? ==> LabelOf(s, f, x) == LabelOf(w, f, x)
    requires LabelOf(w', f, x) == LabelOf(s, f, x) && x in w'.c.namespaces && x in Managed(w', f)
    requires Furnished(f, cr, rules, s, w', x)
    ensures Created(f, cr, rules, w, w', x)
  {
    FurnishedFrom(f, cr, rules, s, w, w', x);
  }

  /** Creating in a namespace without another manager, when it reports success. */
  ghost predicate Taken(f: Feature, cr: Instance, rules: seq<Rule>, w: World, w': World, x: string)
  {
    x in w.c.namespaces && !ManagedByOther(w.c.namespaces[x]) ==>
      Furnished(f, cr, rules, w, w', x) && x in Managed(w', f)
  }

  lemma TakenWhenReported(env: Env, rules: seq<Rule>, w: World, f: Feature, cr: Instance, x: string)
    requires CreateIn(env, rules, w, f, cr, x).ok
    ensures Taken(f, cr, rules, w, CreateIn(env, rules, w, f, cr, x).w, x)
  {
    var w1 := Tick(w);
    if x in w.c.namespaces && !ManagedByOther(w.c.namespaces[x]) {
      var s := EnsureLabel(env, w1, f, cr, x);
      EnsureLabelFrame(env, w1, f, cr, x);
      EnsureResourcesFurnishes(env, rules, s.w, f, cr, x);
      EnsureResourcesFrame(env, rules, s.w, f, cr, x);
      FurnishedFrom(f, cr, rules, s.w, w, CreateIn(env, rules, w, f, cr, x).w, x);
    }
  }

  lemma TakeFrame(env: Env, rules: seq<Rule>, w: World, f: Feature, cr: Instance, x: string)
    requires x in w.c.namespaces && !ManagedByOther(w.c.namespaces[x])
    ensures var s := EnsureLabel(env, w, f, cr, x);
      var t := if !s.ok then Turn(s.w, false, true) else EnsureResources(env, rules, s.w, f, cr, x);
      && Frame(f, cr, w, t.w, x) && CreateRelation(f, cr, w, t.w, x)
      && (ErrorFree(env, w.n, t.w.n) ==> t.ok && !t.abort && Created(f, cr, rules, w, t.w, x))
  {
    var s := EnsureLabel(env, w, f, cr, x);
    EnsureLabelFrame(env, w, f, cr, x);
    EnsureLabelLabels(env, w, f, cr, x);
    var t := EnsureResources(env, rules, s.w, f, cr, x);
    EnsureResourcesFrame(env, rules, s.w, f, cr, x);
    FrameTrans(f, cr, w, s.w, t.w, x);
    assert LabelOf(t.w, f, x) == LabelOf(s.w, f, x);
    if ErrorFree(env, w.n, t.w.n) && s.ok {
      EnsureResourcesFurnishes(env, rules, s.w, f, cr, x);
      TakenIsCreated(f, cr, rules, w, s.w, t.w, x);
    }
  }

  /** A read before the work. */
  lemma CreatedAfterRead(f: Feature, cr: Instance, rules: seq<Rule>, w: World, w': World, x: string)
    ensures CreateRelation(f, cr, Tick(w), w', x) <==> CreateRelation(f, cr, w, w', x)
    ensures Created(f, cr, rules, Tick(w), w', x) <==> Created(f, cr, rules, w, w', x)
  {
    FurnishedFrom(f, cr, rules, Tick(w), w, w', x);
    assert SameNs(f, cr, Tick(w), w', x) <==> SameNs(f, cr, w, w', x);
  }

  lemma CreateInPlace(env: Env, rules: seq<Rule>, w: World, f: Feature, cr: Instance, x: string)
    requires Answered(env, w) && x in w.c.namespaces
    ensures var t := CreateIn(env, rules, w, f, cr, x);
      && Frame(f, cr, Tick(w), t.w, x) && CreateRelation(f, cr, Tick(w), t.w, x)
      && (ErrorFree(env, w.n, t.w.n) ==> t.ok && !t.abort && Created(f, cr, rules, Tick(w), t.w, x))
  {
    var w1 := Tick(w);
    if ManagedByOther(w1.c.namespaces[x]) {
      YieldFrame(env, rules, w1, f, cr, x);
    } else {
      TakeFrame(env, rules, w1, f, cr, x);
    }
  }

  lemma CreateInFrame(env: Env, rules: seq<Rule>, w: World, f: Feature, cr: Instance, x: string)
    ensures var t := CreateIn(env, rules, w, f, cr, x);
      && Frame(f, cr, w, t.w, x) && CreateRelation(f, cr, w, t.w, x)
      && (ErrorFree(env, w.n, t.w.n) && x in w.c.namespaces ==> t.ok && !t.abort && Created(f, cr, rules, w, t.w, x))
      && (x !in w.c.namespaces ==> t.w == Tick(w) && !t.abort)
  {
    TickFrame(f, cr, w, x);
    if Answered(env, w) && x in w.c.namespaces {
      var t := CreateIn(env, rules, w, f, cr, x);
      CreateInPlace(env, rules, w, f, cr, x);
      CreatedAfterRead(f, cr, rules, w, t.w, x);
      FrameTrans(f, cr, w, Tick(w), t.w, x);
    }
  }

  // ---------- Pruning ----------

  lemma PruneCleanupFrame(env: Env, w: World, f: Feature, cr: Instance, x: string)
    ensures var w' := PruneCleanup(env, w, f, cr, x);
      && Frame(f, cr, w, w', x)
      && LabelOf(w', f, x) in {None, LabelOf(w, f, x)} && LabelGoesLast(f, cr, w, w', x)
      && (ErrorFree(env, w.n, w'.n) && x in w.c.namespaces ==> Cleared(f, cr, w', x))
  {
    var s := Cleanup(env, w, f, cr, x);
    CleanupFrame(env, w, f, cr, x);
    CleanupLabelLast(env, w, f, cr, x);
    ManagedFrame(s.w, f, cr, x, Managed(s.w, f) - {x});
    FrameTrans(f, cr, w, s.w, SetManaged(s.w, f, Managed(s.w, f) - {x}), x);
  }

  /** A namespace that pruning passes over. */
  lemma PruneOneSkips(env: Env, w: World, f: Feature, cr: Instance, x: string)
    requires !(x in w.c.namespaces && Owns(f, cr, w.c.namespaces[x]) && !StillManaged(env, f, w.c, cr, x))
    ensures var s := PruneOne(env, w, f, cr, x);
      && s.w.c == w.c && s.w.managed == w.managed && w.n < s.w.n && s.w.writes == w.writes
      && (ErrorFree(env, w.n, s.w.n) ==> s.ok)
  {
  }

  lemma ReadsFrame(f: Feature, cr: Instance, w: World, w': World, x: string)
    requires w'.c == w.c && w'.managed == w.managed && w.n <= w'.n && w.writes <= w'.writes
    ensures Frame(f, cr, w, w', x) && LabelOf(w', f, x) == LabelOf(w, f, x) && LabelGoesLast(f, cr, w, w', x)
  {
  }

  /** A namespace that pruning cleans up, unless a read fails first. */
  lemma PruneOneCleans(env: Env, w: World, f: Feature, cr: Instance, x: string)
    requires x in w.c.namespaces && Owns(f, cr, w.c.namespaces[x]) && !StillManaged(env, f, w.c, cr, x)
    ensures var s := PruneOne(env, w, f, cr, x);
      var w1 := if AsksForApps(f, cr) then Tick(Tick(w)) else Tick(w);
      || (&& s.w.c == w.c && s.w.managed == w.managed && w.n < s.w.n && s.w.writes == w.writes && !s.ok
          && !ErrorFree(env, w.n, s.w.n))
      || s == Step(PruneCleanup(env, w1, f, cr, x), true)
  {
    assert ErrorFree(env, w.n, w.n + 1) ==> env.outcome(w.n).Done?;
    assert ErrorFree(env, w.n, w.n + 2) ==> env.outcome(w.n + 1).Done?;
  }

  lemma PruneOneFrame(env: Env, w: World, f: Feature, cr: Instance, x: string)
    ensures var s := PruneOne(env, w, f, cr, x);
      && Frame(f, cr, w, s.w, x)
      && LabelOf(s.w, f, x) in {None, LabelOf(w, f, x)} && LabelGoesLast(f, cr, w, s.w, x)
      && (!(x in w.c.namespaces && Owns(f, cr, w.c.namespaces[x]) && !StillManaged(env, f, w.c, cr, x)) ==>
            s.w.c == w.c && s.w.managed == w.managed)
      && (ErrorFree(env, w.n, s.w.n) ==> s.ok)
      && (ErrorFree(env, w.n, s.w.n) && x in w.c.namespaces && Owns(f, cr, w.c.namespaces[x]) &&
          !StillManaged(env, f, w.c, cr, x) ==>
            Cleared(f, cr, s.w, x))
  {
    var s := PruneOne(env, w, f, cr, x);
    if x in w.c.namespaces && Owns(f, cr, w.c.namespaces[x]) && !StillManaged(env, f, w.c, cr, x) {
      PruneOneCleans(env, w, f, cr, x);
      var w1 := if AsksForApps(f, cr) then Tick(Tick(w)) else Tick(w);
      if s == Step(PruneCleanup(env, w1, f, cr, x), true) {
        ReadsFrame(f, cr, w, w1, x);
        PruneCleanupFrame(env, w1, f, cr, x);
        FrameTrans(f, cr, w, w1, s.w, x);
        assert ErrorFree(env, w.n, s.w.n) ==> ErrorFree(env, w1.n, s.w.n);
      } else {
        ReadsFrame(f, cr, w, s.w, x);
      }
    } else {
      PruneOneSkips(env, w, f, cr, x);
      ReadsFrame(f, cr, w, s.w, x);
    }
  }
}
