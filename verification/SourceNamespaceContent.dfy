/** What a source namespace holds after error-free passes, field by field. */
module SourceNamespaceContent {
  import opened Platform
  import opened Rbac
  import opened SourceNamespaces
  import opened SourceNamespaceSteps
  import opened SourceNamespaceLoops
  import opened SourceNamespacePasses

  /** The feature's objects in a namespace are as they were. */
  ghost predicate SameObjects(f: Feature, cr: Instance, w: World, w': World, y: string)
  {
    && Lookup(w'.c.roles, (y, ResourceName(f, cr))) == Lookup(w.c.roles, (y, ResourceName(f, cr)))
    && Lookup(w'.c.bindings, (y, ResourceName(f, cr))) == Lookup(w.c.bindings, (y, ResourceName(f, cr)))
    && (f.Notifications? ==> (y in w'.c.configurations <==> y in w.c.configurations))
  }

  lemma ObjectsAround(
      env: Env, rules: seq<Rule>, w: World, r: World, l: World, m: World, p: World, w': World, f: Feature, cr: Instance,
      y: string)
    requires Stages(env, rules, w, r, l, m, p, w', f, cr)
    ensures SameObjects(f, cr, w, l, y) && SameObjects(f, cr, p, w', y) && Managed(w', f) == Managed(p, f)
  {
    assert Lookup(l.c.roles, (y, ResourceName(f, cr))) == Lookup(r.c.roles, (y, ResourceName(f, cr)));
    assert Lookup(l.c.bindings, (y, ResourceName(f, cr))) == Lookup(r.c.bindings, (y, ResourceName(f, cr)));
  }

  lemma FurnishedAround(
      f: Feature, cr: Instance, rules: seq<Rule>, w: World, l: World, m: World, p: World, w': World, y: string)
    requires SameObjects(f, cr, w, l, y) && Furnished(f, cr, rules, l, m, y)
    requires SameNs(f, cr, m, p, y) && SameObjects(f, cr, p, w', y)
    ensures Furnished(f, cr, rules, w, w', y)
  {
    var at := (y, ResourceName(f, cr));
    assert Lookup(w'.c.roles, at) == Lookup(m.c.roles, at) && Lookup(w'.c.bindings, at) == Lookup(m.c.bindings, at);
    assert Lookup(l.c.roles, at) == Lookup(w.c.roles, at) && Lookup(l.c.bindings, at) == Lookup(w.c.bindings, at);
  }

  /** After an error-free pass a desired namespace without a non-empty managed-by label is furnished. */
  lemma DesiredIsFurnished(env: Env, rules: Feature -> seq<Rule>, w: World, f: Feature, cr: Instance, y: string)
    requires ListsOnce(env) && ErrorFree(env, w.n, Pass(env, rules, w, cr).w.n)
    requires !cr.deleting && Desired(env, f, w.c, cr, y) && !ManagedByOther(w.c.namespaces[y])
    ensures var w' := Pass(env, rules, w, cr).w;
      Furnished(f, cr, rules(f), w, w', y) && LabelOf(w', f, y).Some? && y in Managed(w', f)
  {
    var r, l, m, p := ErrorFreeStages(env, rules, w, f, cr);
    var w' := Pass(env, rules, w, cr).w;
    DesiredStages(env, rules(f), w, r, l, m, p, w', f, cr, y);
    ObjectsAround(env, rules(f), w, r, l, m, p, w', f, cr, y);
    LabelsAround(env, rules(f), w, r, l, m, p, w', f, cr, y);
    FurnishedAround(f, cr, rules(f), w, l, m, p, w', y);
  }

  /** A pass keeps who else manages a namespace. */
  lemma PassKeepsManagers(env: Env, rules: Feature -> seq<Rule>, w: World, cr: Instance)
    requires ListsOnce(env) && ErrorFree(env, w.n, Pass(env, rules, w, cr).w.n)
    ensures var w' := Pass(env, rules, w, cr).w;
      && w.n <= w'.n && w'.c.namespaces.Keys == w.c.namespaces.Keys
      && forall y | y in w.c.namespaces :: ManagedByOther(w'.c.namespaces[y]) == ManagedByOther(w.c.namespaces[y])
  {
    var f := ApplicationSet;
    var w' := Pass(env, rules, w, cr).w;
    var r, l, m, p := ErrorFreeStages(env, rules, w, f, cr);
    PassAdvances(env, rules, w, cr);
    forall y | y in w.c.namespaces
      ensures y in w'.c.namespaces && ManagedByOther(w'.c.namespaces[y]) == ManagedByOther(w.c.namespaces[y])
    {
      StagesKeepManager(env, rules(f), w, r, l, m, p, w', f, cr, y);
    }
  }

  lemma StagesKeepManager(
      env: Env, rules: seq<Rule>, w: World, r: World, l: World, m: World, p: World, w': World, f: Feature, cr: Instance,
      y: string)
    requires Stages(env, rules, w, r, l, m, p, w', f, cr) && y in w.c.namespaces
    ensures y in w'.c.namespaces && ManagedByOther(w'.c.namespaces[y]) == ManagedByOther(w.c.namespaces[y])
  {
    RestoreKeepsLabels(cr, w, r);
    LoopFrameTrans(f, cr, l, m, p);
    ManagerStays(f, cr, l, p, y);
    assert ManagedByOther(l.c.namespaces[y]) == ManagedByOther(r.c.namespaces[y]);
  }

  lemma PassAdvances(env: Env, rules: Feature -> seq<Rule>, w: World, cr: Instance)
    requires ListsOnce(env)
    ensures w.n <= Pass(env, rules, w, cr).w.n
  {
    var r := Restore(env, w, cr).w;
    var b := ListManaged(env, r, ApplicationSet, cr).w;
    var d := ListManaged(env, b, Notifications, cr).w;
    var e := CreateAndPrune(env, rules(ApplicationSet), d, ApplicationSet, cr).w;
    RestoreKeeps(env, w, cr);
    CreateAndPruneKeeps(env, rules(ApplicationSet), d, ApplicationSet, cr);
    CreateAndPruneKeeps(env, rules(Notifications), e, Notifications, cr);
  }

  // ---------- Any number of passes ----------

  function Passes(env: Env, rules: Feature -> seq<Rule>, w: World, cr: Instance, k: nat): (r: World)
    decreases k
  {
    if k == 0 then w else Pass(env, rules, Passes(env, rules, w, cr, k - 1), cr).w
  }

  lemma {:induction false} PassesKeepManagers(
      env: Env, rules: Feature -> seq<Rule>, w: World, cr: Instance, k: nat)
    requires ListsOnce(env) && ErrorFree(env, w.n, Passes(env, rules, w, cr, k).n)
    ensures var w' := Passes(env, rules, w, cr, k);
      && w.n <= w'.n && w'.c.namespaces.Keys == w.c.namespaces.Keys
      && forall y | y in w.c.namespaces :: ManagedByOther(w'.c.namespaces[y]) == ManagedByOther(w.c.namespaces[y])
    decreases k
  {
    if k != 0 {
      var v := Passes(env, rules, w, cr, k - 1);
      PassAdvances(env, rules, v, cr);
      PassesKeepManagers(env, rules, w, cr, k - 1);
      PassKeepsManagers(env, rules, v, cr);
    }
  }

  lemma {:induction false} PassesFurnish(
      env: Env, rules: Feature -> seq<Rule>, w: World, f: Feature, cr: Instance, y: string, k: nat)
    requires ListsOnce(env) && ErrorFree(env, w.n, Passes(env, rules, w, cr, k).n) && k != 0
    requires !cr.deleting && Desired(env, f, w.c, cr, y) && !ManagedByOther(w.c.namespaces[y])
    ensures var w' := Passes(env, rules, w, cr, k);
      && Furnished(f, cr, rules(f), w, w', y) && LabelOf(w', f, y).Some? && y in Managed(w', f)
      && Bindable(f, cr, w', y) && (k >= 2 ==> BindingStands(f, cr, w', y))
    decreases k
  {
    var v := Passes(env, rules, w, cr, k - 1);
    var w' := Passes(env, rules, w, cr, k);
    PassAdvances(env, rules, v, cr);
    PassesKeepManagers(env, rules, w, cr, k - 1);
    DesiredIsStable(env, f, w.c, v.c, cr, y);
    DesiredIsFurnished(env, rules, v, f, cr, y);
    if k != 1 {
      PassesFurnish(env, rules, w, f, cr, y, k - 1);
      FurnishedTrans(f, cr, rules(f), w, v, w', y);
    }
  }

  /** After any number of error-free passes a desired namespace without a non-empty managed-by label carries the
      feature's label and holds the feature's role with exactly the given rules. From a start without a binding,
      or with one for the right role, and from any start after two passes, it holds the binding that grants that
      role to the service account of the feature's controller in the instance's namespace. For notifications it
      holds the configuration too. What a pass creates carries the instance's labels, and the role and the binding
      that were there keep theirs. */
  lemma DesiredHoldsResources(
      env: Env, rules: Feature -> seq<Rule>, w: World, f: Feature, cr: Instance, y: string, k: nat)
    requires ListsOnce(env) && ErrorFree(env, w.n, Passes(env, rules, w, cr, k).n) && k != 0
    requires !cr.deleting && Desired(env, f, w.c, cr, y)
    requires "argocd.argoproj.io/managed-by" in w.c.namespaces[y] ==>
        w.c.namespaces[y]["argocd.argoproj.io/managed-by"] == ""
    ensures var c := Passes(env, rules, w, cr, k).c;
      && y in c.namespaces
      && (match f
          case ApplicationSet => "argocd.argoproj.io/applicationset-managed-by-cluster-argocd"
          case Notifications => "argocd.argoproj.io/notifications-managed-by-cluster-argocd") in c.namespaces[y]
      && (f.Notifications? ==> y in c.configurations)
    ensures var c := Passes(env, rules, w, cr, k).c;
      var at := (y, cr.name + "-" + cr.namespace + (if f.ApplicationSet? then "-applicationset" else "-notifications"));
      && at in c.roles && c.roles[at].rules == rules(f)
      && (if at in w.c.roles then c.roles[at].labels == w.c.roles[at].labels else FreshLabels(c.roles[at].labels, cr))
    ensures var c := Passes(env, rules, w, cr, k).c;
      var name := cr.name + "-" + cr.namespace + (if f.ApplicationSet? then "-applicationset" else "-notifications");
      var controller := if f.ApplicationSet? then "-applicationset-controller" else "-notifications-controller";
      var at := (y, name);
      var right := at in w.c.bindings && w.c.bindings[at].roleRef == RoleRef("Role", name);
      at !in w.c.bindings || right || k >= 2 ==>
        && at in c.bindings
        && c.bindings[at].roleRef == RoleRef("Role", name)
        && c.bindings[at].subjects == [Subject("ServiceAccount", cr.name + controller, cr.namespace)]
        && (if right then c.bindings[at].labels == w.c.bindings[at].labels else FreshLabels(c.bindings[at].labels, cr))
  {
    PassesFurnish(env, rules, w, f, cr, y, k);
  }

  // ---------- Passes that report success ----------

  lemma TakenStays(f: Feature, cr: Instance, rules: seq<Rule>, l: World, m: World, p: World, w': World, y: string)
    requires Furnished(f, cr, rules, l, m, y) && SameNs(f, cr, m, p, y) && FeatureSame(f, p, w')
    requires y in Managed(m, f)
    ensures Furnished(f, cr, rules, l, w', y) && y in Managed(w', f)
  {
    var at := (y, ResourceName(f, cr));
    assert Lookup(w'.c.roles, at) == Lookup(m.c.roles, at) && Lookup(w'.c.bindings, at) == Lookup(m.c.bindings, at);
  }

  lemma StageFurnishes(env: Env, rules: seq<Rule>, l: World, f: Feature, cr: Instance, y: string)
    requires ListsOnce(env) && CreateAndPrune(env, rules, l, f, cr).ok
    requires !cr.deleting && Desired(env, f, l.c, cr, y) && !ManagedByOther(l.c.namespaces[y])
    ensures var m, p := Create(env, rules, l, f, cr).w, CreateAndPrune(env, rules, l, f, cr).w;
      Furnished(f, cr, rules, l, m, y) && y in Managed(m, f) && SameNs(f, cr, m, p, y)
  {
    var m := Create(env, rules, l, f, cr).w;
    CreateKeeps(env, rules, l, f, cr);
    DesiredIsStable(env, f, l.c, m.c, cr, y);
    assert Eligible(env, f, l.c, cr, y) && Taken(f, cr, rules, l, m, y);
    PruneSparesOthers(env, m, f, cr, y);
  }

  /** The stages before the feature's own leave its namespace as it was, but for labels. */
  lemma BeforeStage(env: Env, rules: seq<Rule>, w: World, d: World, f: Feature, cr: Instance, y: string)
    requires ListsOnce(env) && d.c == Restore(env, w, cr).w.c && y in w.c.namespaces
    ensures var l := if f.ApplicationSet? then d else CreateAndPrune(env, rules, d, ApplicationSet, cr).w;
      && y in l.c.namespaces && l.c.namespaces.Keys == w.c.namespaces.Keys
      && ManagedByOther(l.c.namespaces[y]) == ManagedByOther(w.c.namespaces[y])
      && Lookup(l.c.roles, (y, ResourceName(f, cr))) == Lookup(w.c.roles, (y, ResourceName(f, cr)))
      && Lookup(l.c.bindings, (y, ResourceName(f, cr))) == Lookup(w.c.bindings, (y, ResourceName(f, cr)))
  {
    RestoreKeeps(env, w, cr);
    RestoreKeepsLabels(cr, w, Restore(env, w, cr).w);
    if f.Notifications? { FeaturesDoNotInterfere(env, rules, d, f, ApplicationSet, cr); }
  }

  lemma FurnishedBefore(f: Feature, cr: Instance, rules: seq<Rule>, w: World, l: World, w': World, y: string)
    requires Lookup(l.c.roles, (y, ResourceName(f, cr))) == Lookup(w.c.roles, (y, ResourceName(f, cr)))
    requires Lookup(l.c.bindings, (y, ResourceName(f, cr))) == Lookup(w.c.bindings, (y, ResourceName(f, cr)))
    requires Furnished(f, cr, rules, l, w', y)
    ensures Furnished(f, cr, rules, w, w', y)
  {
    var at := (y, ResourceName(f, cr));
    assert at in l.c.bindings <==> at in w.c.bindings;
    assert at in l.c.roles <==> at in w.c.roles;
  }

  /** A pass that reports success, whatever became of the calls whose failure is only logged, has furnished every
      desired namespace without a non-empty managed-by label; only its label may be missing. */
  lemma SuccessfulPassFurnishes(env: Env, rules: Feature -> seq<Rule>, w: World, f: Feature, cr: Instance, y: string)
    requires ListsOnce(env) && Pass(env, rules, w, cr).ok
    requires !cr.deleting && Desired(env, f, w.c, cr, y) && !ManagedByOther(w.c.namespaces[y])
    ensures var w' := Pass(env, rules, w, cr).w; Furnished(f, cr, rules(f), w, w', y) && y in Managed(w', f)
  {
    var r := Restore(env, w, cr).w;
    var d := ListManaged(env, ListManaged(env, r, ApplicationSet, cr).w, Notifications, cr).w;
    var e := CreateAndPrune(env, rules(ApplicationSet), d, ApplicationSet, cr).w;
    var w' := CreateAndPrune(env, rules(Notifications), e, Notifications, cr).w;
    assert d.c == r.c && Pass(env, rules, w, cr) == CreateAndPrune(env, rules(Notifications), e, Notifications, cr);
    var l := if f.ApplicationSet? then d else e;
    BeforeStage(env, rules(ApplicationSet), w, d, f, cr, y);
    DesiredIsStable(env, f, w.c, l.c, cr, y);
    StageFurnishes(env, rules(f), l, f, cr, y);
    var m := Create(env, rules(f), l, f, cr).w;
    if f.ApplicationSet? { FeaturesDoNotInterfere(env, rules(Notifications), e, f, Notifications, cr); }
    TakenStays(f, cr, rules(f), l, m, if f.ApplicationSet? then e else w', w', y);
    FurnishedBefore(f, cr, rules(f), w, l, w', y);
  }

  /** The calls of one reconciler that reads an object and may write it: from call `n` on, with the index after
      them, and whether they went well. */
  datatype Calls = Calls(next: nat, fine: bool)

  function ReadThenWrite(env: Env, n: nat, writes: bool): (r: Calls)
  {
    if !env.outcome(n).Done? then Calls(n + 1, false)
    else if writes then Calls(n + 2, env.outcome(n + 1).Done?) else Calls(n + 1, true)
  }

  predicate RoleDiffers(w: World, at: Ref, rules: seq<Rule>)
  {
    at !in w.c.roles || w.c.roles[at].rules != rules
  }

  predicate BindingDiffers(w: World, at: Ref, f: Feature, cr: Instance)
  {
    var controller := if f.ApplicationSet? then "-applicationset-controller" else "-notifications-controller";
    || at !in w.c.bindings || w.c.bindings[at].roleRef != RoleRef("Role", at.1)
    || w.c.bindings[at].subjects != [Subject("ServiceAccount", cr.name + controller, cr.namespace)]
  }

  /** Role, binding and configuration are reconciled one after the other, each whatever became of those before it;
      each is read and, if it is missing or differs, written; and any failure is reported. */
  lemma ResourcesAreAllTried(env: Env, rules: seq<Rule>, w: World, f: Feature, cr: Instance, x: string)
    ensures var t, at := EnsureResources(env, rules, w, f, cr, x), (x, ResourceName(f, cr));
      var a := ReadThenWrite(env, w.n, RoleDiffers(w, at, rules));
      var b := ReadThenWrite(env, a.next, BindingDiffers(w, at, f, cr));
      var d := if f.ApplicationSet? then Calls(b.next, true)
               else ReadThenWrite(env, b.next, x !in w.c.configurations);
      && !t.abort && t.w.n == d.next && (t.ok <==> a.fine && b.fine && d.fine)
      && (a.fine ==> RoleStands(f, cr, rules, w, t.w, x))
      && (b.fine && Bindable(f, cr, w, x) ==> BindingStands(f, cr, t.w, x))
      && (d.fine && f.Notifications? ==> x in t.w.c.configurations)
  {
    var ref := (x, ResourceName(f, cr));
    var a := EnsureRole(env, w, ref, DesiredRole(cr, rules));
    RoleCalls(env, rules, w, f, cr, x);
    var b := EnsureBinding(env, a.w, ref, DesiredBinding(f, cr));
    BindingCalls(env, a.w, f, cr, x);
    ConfigurationCalls(env, b.w, f, x);
  }

  lemma RoleCalls(env: Env, rules: seq<Rule>, w: World, f: Feature, cr: Instance, x: string)
    ensures var at := (x, ResourceName(f, cr));
      var s := EnsureRole(env, w, at, DesiredRole(cr, rules));
      var a := ReadThenWrite(env, w.n, RoleDiffers(w, at, rules));
      && s.w.n == a.next && (s.ok <==> a.fine) && (a.fine ==> RoleStands(f, cr, rules, w, s.w, x))
      && s.w.c.bindings == w.c.bindings && s.w.c.configurations == w.c.configurations
  {
  }

  lemma BindingCalls(env: Env, w: World, f: Feature, cr: Instance, x: string)
    ensures var at := (x, ResourceName(f, cr));
      var s := EnsureBinding(env, w, at, DesiredBinding(f, cr));
      var b := ReadThenWrite(env, w.n, BindingDiffers(w, at, f, cr));
      && s.w.n == b.next && (s.ok <==> b.fine)
      && (b.fine && Bindable(f, cr, w, x) ==> BindingStands(f, cr, s.w, x))
      && s.w.c.roles == w.c.roles && s.w.c.configurations == w.c.configurations
  {
    EnsureBindingStands(env, w, f, cr, x);
  }

  lemma ConfigurationCalls(env: Env, w: World, f: Feature, x: string)
    ensures var s := EnsureConfiguration(env, w, f, x);
      var d := if f.ApplicationSet? then Calls(w.n, true) else ReadThenWrite(env, w.n, x !in w.c.configurations);
      && s.w.n == d.next && (s.ok <==> d.fine) && (d.fine && f.Notifications? ==> x in s.w.c.configurations)
      && s.w.c.roles == w.c.roles && s.w.c.bindings == w.c.bindings
  {
  }

  /** Creating in a namespace without another manager ends the whole loop exactly when the label is missing and
      the second read of the namespace fails; a label that cannot be written is only logged. */
  lemma LabelFailureIsOnlyLogged(env: Env, rules: seq<Rule>, w: World, f: Feature, cr: Instance, x: string)
    requires env.outcome(w.n).Done? && x in w.c.namespaces && !ManagedByOther(w.c.namespaces[x])
    ensures CreateIn(env, rules, w, f, cr, x).abort <==> LabelOf(w, f, x).None? && !env.outcome(w.n + 1).Done?
    ensures LabelOf(w, f, x).None? && env.outcome(w.n + 1).Done? ==>
      LabelOf(CreateIn(env, rules, w, f, cr, x).w, f, x) ==
        if env.outcome(w.n + 2).Rejected? then None else Some(cr.namespace)
  {
    var s := EnsureLabel(env, Tick(w), f, cr, x);
    EnsureResourcesFrame(env, rules, s.w, f, cr, x);
  }

  /** A pass that reports success has listed the roles and, for both features, the namespaces. */
  lemma SuccessfulPassHasListed(env: Env, rules: Feature -> seq<Rule>, w: World, cr: Instance)
    requires Pass(env, rules, w, cr).ok
    ensures var n := Restore(env, w, cr).w.n;
      env.outcome(w.n).Done? && env.outcome(n).Done? && env.outcome(n + 1).Done?
  {
  }

  /** The reads of one turn of the prune loop: the namespace and, for one that the instance owns, the application
      namespaces where the settings call for them. */
  predicate ReadsAnswered(env: Env, w: World, f: Feature, cr: Instance, x: string)
  {
    && env.outcome(w.n).Done?
    && (x in w.c.namespaces && Owns(f, cr, w.c.namespaces[x]) && AsksForApps(f, cr) ==> env.outcome(w.n + 1).Done?)
  }

  /** Pruning fails exactly at a failed read: it reports success when the reads of every turn are answered, each
      turn starting where those before it end. */
  lemma {:induction false} PruneFailsExactly(env: Env, w: World, f: Feature, cr: Instance, xs: seq<string>)
    ensures PruneLoop(env, w, f, cr, xs).ok <==>
      forall i | 0 <= i < |xs| :: ReadsAnswered(env, PruneLoop(env, w, f, cr, xs[..i]).w, f, cr, xs[i])
    decreases |xs|
  {
    if xs != [] {
      var a, rest := PruneOne(env, w, f, cr, xs[0]), xs[1..];
      assert PruneLoop(env, w, f, cr, xs[..0]).w == w;
      assert a.ok <==> ReadsAnswered(env, w, f, cr, xs[0]);
      if a.ok {
        PruneFailsExactly(env, a.w, f, cr, rest);
        forall i | 0 < i < |xs|
          ensures PruneLoop(env, w, f, cr, xs[..i]).w == PruneLoop(env, a.w, f, cr, rest[..i - 1]).w
        {
          assert xs[..i][1..] == rest[..i - 1];
        }
        assert forall i | 0 <= i < |rest| :: rest[i] == xs[i + 1] && rest[..i] == xs[1..i + 1];
      } else {
        assert !ReadsAnswered(env, PruneLoop(env, w, f, cr, xs[..0]).w, f, cr, xs[0]);
      }
    }
  }

  // ---------- What goes ----------

  /** After an error-free pass a desired namespace with a non-empty managed-by label holds nothing of the
      feature if it was labelled for another instance once labels were restored; otherwise its role, binding
      and configuration are as they were. */
  lemma ManagedElsewhereIsYielded(env: Env, rules: Feature -> seq<Rule>, w: World, f: Feature, cr: Instance, y: string)
    requires ListsOnce(env) && ErrorFree(env, w.n, Pass(env, rules, w, cr).w.n)
    requires !cr.deleting && Desired(env, f, w.c, cr, y) && ManagedByOther(w.c.namespaces[y])
    ensures var w', restored := Pass(env, rules, w, cr).w, LabelOf(Restore(env, w, cr).w, f, y);
      if restored in {None, Some(cr.namespace)} then LabelOf(w', f, y) == restored && SameObjects(f, cr, w, w', y)
      else Cleared(f, cr, w', y)
  {
    var r, l, m, p := ErrorFreeStages(env, rules, w, f, cr);
    var w' := Pass(env, rules, w, cr).w;
    DesiredStages(env, rules(f), w, r, l, m, p, w', f, cr, y);
    ObjectsAround(env, rules(f), w, r, l, m, p, w', f, cr, y);
    LabelsAround(env, rules(f), w, r, l, m, p, w', f, cr, y);
    if LabelOf(r, f, y) in {None, Some(cr.namespace)} {
      SameObjectsAround(f, cr, w, l, m, p, w', y);
    } else {
      ClearedAround(f, cr, m, p, w', y);
    }
  }

  lemma SameObjectsAround(
      f: Feature, cr: Instance, w: World, l: World, m: World, p: World, w': World, y: string)
    requires SameObjects(f, cr, w, l, y) && SameNs(f, cr, l, m, y) && SameNs(f, cr, m, p, y)
    requires SameObjects(f, cr, p, w', y)
    ensures SameObjects(f, cr, w, w', y) && LabelOf(p, f, y) == LabelOf(l, f, y)
  {
  }

  lemma ClearedAround(f: Feature, cr: Instance, m: World, p: World, w': World, y: string)
    requires Cleared(f, cr, m, y) && SameNs(f, cr, m, p, y)
    requires SameObjects(f, cr, p, w', y) && LabelOf(w', f, y) == LabelOf(p, f, y) && Managed(w', f) == Managed(p, f)
    ensures Cleared(f, cr, w', y)
  {
    var at := (y, ResourceName(f, cr));
    assert Lookup(w'.c.roles, at) == Lookup(m.c.roles, at) && Lookup(w'.c.bindings, at) == Lookup(m.c.bindings, at);
  }

  /** After an error-free pass an undesired namespace that was labelled for the instance once labels were
      restored holds nothing of the feature, and is out of the shared set. */
  lemma UndesiredIsCleared(env: Env, rules: Feature -> seq<Rule>, w: World, f: Feature, cr: Instance, y: string)
    requires ListsOnce(env) && ErrorFree(env, w.n, Pass(env, rules, w, cr).w.n)
    requires !cr.deleting && cr.namespace != "" && y in w.c.namespaces && !Desired(env, f, w.c, cr, y)
    requires LabelOf(Restore(env, w, cr).w, f, y) == Some(cr.namespace)
    ensures Cleared(f, cr, Pass(env, rules, w, cr).w, y)
  {
    var r, l, m, p := ErrorFreeStages(env, rules, w, f, cr);
    var w' := Pass(env, rules, w, cr).w;
    ObjectsAround(env, rules(f), w, r, l, m, p, w', f, cr, y);
    LabelsAround(env, rules(f), w, r, l, m, p, w', f, cr, y);
    UndesiredIsPruned(env, rules(f), w, r, l, m, p, w', f, cr, y);
    ClearedAround(f, cr, p, p, w', y);
  }

  lemma UndesiredIsPruned(
      env: Env, rules: seq<Rule>, w: World, r: World, l: World, m: World, p: World, w': World, f: Feature, cr: Instance,
      y: string)
    requires Stages(env, rules, w, r, l, m, p, w', f, cr)
    requires !cr.deleting && cr.namespace != "" && y in w.c.namespaces && !Desired(env, f, w.c, cr, y)
    requires LabelOf(r, f, y) == Some(cr.namespace)
    ensures Cleared(f, cr, p, y)
  {
    LabelsAround(env, rules, w, r, l, m, p, w', f, cr, y);
    DesiredIsStable(env, f, w.c, l.c, cr, y);
    DesiredIsStable(env, f, w.c, m.c, cr, y);
    assert SameNs(f, cr, l, m, y);
    assert LabelledFor(r.c, f, cr, y);
    assert y in Managed(m, f) && Prunable(env, f, m, cr, y);
  }

  /** An error-free prune step clears a namespace of the shared set that is not desired (role, binding,
      configuration and label), or leaves it alone: it clears exactly those whose feature label names the
      instance; without that label, those where the ApplicationSet label does, for notifications; and
      without either, those whose managed-by label does. */
  lemma PruneGoesByOwner(env: Env, w: World, f: Feature, cr: Instance, y: string)
    requires ListsOnce(env) && ErrorFree(env, w.n, Prune(env, w, f, cr).w.n)
    requires cr.namespace != "" && y in Managed(w, f) && y in w.c.namespaces && !Desired(env, f, w.c, cr, y)
    ensures var w', labels := Prune(env, w, f, cr).w, w.c.namespaces[y];
      var own, other := LabelOf(w, f, y), LabelOf(w, ApplicationSet, y);
      var manager := Lookup(labels, "argocd.argoproj.io/managed-by");
      if || own == Some(cr.namespace)
         || (own == None && f.Notifications? && other == Some(cr.namespace))
         || (own == None && other == None && manager == Some(cr.namespace))
      then
        var suffix := if f.ApplicationSet? then "-applicationset" else "-notifications";
        var at := (y, cr.name + "-" + cr.namespace + suffix);
        && at !in w'.c.roles && at !in w'.c.bindings && LabelOf(w', f, y) == None && y !in Managed(w', f)
        && (f.Notifications? ==> y !in w'.c.configurations)
      else SameNs(f, cr, w, w', y)
  {
    PruneKeeps(env, w, f, cr);
    DesiredIsStable(env, f, w.c, w.c, cr, y);
    assert Prunable(env, f, w, cr, y) <==> Owns(f, cr, w.c.namespaces[y]);
  }
}
