/** Runs over many instances: passes, deletions, label edits by hand, namespaces coming and going, and
    operator restarts. */
module SourceNamespaceRuns {
  import opened Platform
  import opened Rbac
  import opened SourceNamespaces
  import opened SourceNamespaceSteps
  import opened SourceNamespaceLoops
  import opened SourceNamespacePasses

  /** `DeletePass` is the deletion branch of a reconciliation, which prunes without listing first. */
  datatype Event =
    | InstancePass(cr: Instance)
    | DeletePass(cr: Instance)
    | StripLabels(ns: string)
    | SetManagedBy(ns: string, value: Option<string>)
    | AddNamespace(ns: string)
    | RemoveNamespace(ns: string)
    | Restart

  /** `seen` is history: the instances, by namespace, that have had a pass since the operator started. */
  datatype System = System(w: World, seen: set<string>)

  function Deleting(cr: Instance): (r: Instance) { cr.(deleting := true) }

  function StripTracking(labels: Labels): (r: Labels)
  {
    labels - {APPLICATIONSET_LABEL, NOTIFICATIONS_LABEL, CLUSTER_LABEL}
  }

  function SetNamespaces(w: World, m: map<string, Labels>): (r: World) { w.(c := w.c.(namespaces := m)) }

  function RunDelete(env: Env, w: World, cr: Instance): (r: Step)
  {
    var a := Prune(env, w, ApplicationSet, Deleting(cr));
    if !a.ok then a else Prune(env, a.w, Notifications, Deleting(cr))
  }

  function Apply(env: Env, rules: Feature -> seq<Rule>, sys: System, e: Event): (r: System)
  {
    var w := sys.w;
    match e
    case InstancePass(cr) => System(Pass(env, rules, w, cr.(deleting := false)).w, sys.seen + {cr.namespace})
    case DeletePass(cr) => sys.(w := RunDelete(env, w, cr).w)
    case StripLabels(x) =>
      if x !in w.c.namespaces then sys
      else sys.(w := SetNamespaces(w, w.c.namespaces[x := StripTracking(w.c.namespaces[x])]))
    case SetManagedBy(x, v) =>
      if x in w.c.namespaces
      then sys.(w := SetNamespaces(w, w.c.namespaces[x := Store(w.c.namespaces[x], MANAGED_BY_LABEL, v)])) else sys
    case AddNamespace(x) =>
      if x in w.c.namespaces then sys else sys.(w := SetNamespaces(w, w.c.namespaces[x := map[]]))
    case RemoveNamespace(x) =>
      sys.(w := w.(c := Cluster(w.c.namespaces - {x}, map r | r in w.c.roles && r.0 != x :: w.c.roles[r],
                                map r | r in w.c.bindings && r.0 != x :: w.c.bindings[r], w.c.configurations - {x})))
    case Restart => System(w.(managed := map[]), {})
  }

  function Run(env: Env, rules: Feature -> seq<Rule>, sys: System, events: seq<Event>): (r: System)
    decreases |events|
  {
    if events == [] then sys else Run(env, rules, Apply(env, rules, sys, events[0]), events[1..])
  }

  /** The shared sets cover every namespace labelled for an instance that has had a pass. */
  ghost predicate Covered(sys: System)
  {
    forall f, y | LabelOf(sys.w, f, y).Some? && LabelOf(sys.w, f, y).value in sys.seen :: y in Managed(sys.w, f)
  }

  // ---------- Coverage ----------

  /** For one namespace and feature: a label that survives keeps its place in the shared set, and a label
      that is new is one for `owner` and has a place. */
  ghost predicate Follows(f: Feature, w: World, w': World, owner: string, y: string)
  {
    && (LabelOf(w', f, y).Some? && LabelOf(w', f, y) == LabelOf(w, f, y) && y in Managed(w, f) ==> y in Managed(w', f))
    && (LabelOf(w', f, y) == Some(owner) ==> y in Managed(w', f))
    && LabelOf(w', f, y) in {None, LabelOf(w, f, y), Some(owner)}
  }

  /** What the stages from listing to pruning say about one namespace. */
  ghost predicate StagesAt(
      env: Env, rules: seq<Rule>, l: World, m: World, p: World, w': World, f: Feature, cr: Instance, y: string)
  {
    && (LabelOf(l, f, y) == Some(cr.namespace) ==> y in Managed(l, f))
    && (Created(f, cr, rules, l, m, y) || SameNs(f, cr, l, m, y))
    && (Cleared(f, cr, p, y) || SameNs(f, cr, m, p, y))
    && LabelOf(w', f, y) == LabelOf(p, f, y) && Managed(w', f) == Managed(p, f)
  }

  lemma StagesBeginAt(
      env: Env, rules: seq<Rule>, w: World, r: World, l: World, m: World, p: World, w': World, f: Feature, cr: Instance,
      y: string)
    requires Stages(env, rules, w, r, l, m, p, w', f, cr)
    ensures LabelOf(l, f, y) == Some(cr.namespace) ==> y in Managed(l, f)
  {
    assert LabelOf(l, f, y) == LabelOf(r, f, y);
    assert LabelOf(l, f, y) == Some(cr.namespace) ==> LabelledFor(r.c, f, cr, y);
  }

  lemma StagesEndAt(
      env: Env, rules: seq<Rule>, w: World, r: World, l: World, m: World, p: World, w': World, f: Feature, cr: Instance,
      y: string)
    requires Stages(env, rules, w, r, l, m, p, w', f, cr)
    ensures Created(f, cr, rules, l, m, y) || SameNs(f, cr, l, m, y)
    ensures Cleared(f, cr, p, y) || SameNs(f, cr, m, p, y)
    ensures LabelOf(w', f, y) == LabelOf(p, f, y) && Managed(w', f) == Managed(p, f)
  {
    assert Eligible(env, f, l.c, cr, y) || SameNs(f, cr, l, m, y);
    assert (y in Managed(m, f) && Prunable(env, f, m, cr, y)) || SameNs(f, cr, m, p, y);
  }

  lemma FollowsAt(
      env: Env, rules: seq<Rule>, l: World, m: World, p: World, w': World, f: Feature, cr: Instance, y: string)
    requires StagesAt(env, rules, l, m, p, w', f, cr, y)
    ensures Follows(f, l, w', cr.namespace, y)
  {
  }

  /** From listing to pruning, for one feature. */
  lemma StagesFollow(
      env: Env, rules: seq<Rule>, w: World, r: World, l: World, m: World, p: World, w': World, f: Feature, cr: Instance,
      y: string)
    requires Stages(env, rules, w, r, l, m, p, w', f, cr) && y in w.c.namespaces
    ensures Follows(f, l, w', cr.namespace, y)
  {
    StagesBeginAt(env, rules, w, r, l, m, p, w', f, cr, y);
    StagesEndAt(env, rules, w, r, l, m, p, w', f, cr, y);
    FollowsAt(env, rules, l, m, p, w', f, cr, y);
  }

  /** Restoring and listing come before. */
  lemma FollowsFrom(f: Feature, cr: Instance, w: World, l: World, w': World, y: string)
    requires Follows(f, l, w', cr.namespace, y)
    requires LabelOf(w, f, y).Some? ==> LabelOf(l, f, y) == LabelOf(w, f, y)
    requires LabelOf(l, f, y) in {LabelOf(w, f, y), Some(cr.namespace)}
    requires y in Managed(w, f) ==> y in Managed(l, f)
    ensures Follows(f, w, w', cr.namespace, y)
  {
  }

  lemma StagesBegin(
      env: Env, rules: seq<Rule>, w: World, r: World, l: World, m: World, p: World, w': World, f: Feature, cr: Instance,
      y: string)
    requires Stages(env, rules, w, r, l, m, p, w', f, cr)
    ensures LabelOf(w, f, y).Some? ==> LabelOf(l, f, y) == LabelOf(w, f, y)
    ensures LabelOf(l, f, y) in {LabelOf(w, f, y), Some(cr.namespace)}
    ensures y in Managed(w, f) ==> y in Managed(l, f)
  {
    RestoreKeepsLabels(cr, w, r);
    assert LabelOf(l, f, y) == LabelOf(r, f, y);
    assert y in Managed(w, f) ==> y in Managed(r, f);
  }

  lemma PassFollows(env: Env, rules: Feature -> seq<Rule>, w: World, f: Feature, cr: Instance, y: string)
    requires ListsOnce(env) && ErrorFree(env, w.n, Pass(env, rules, w, cr).w.n)
    ensures Follows(f, w, Pass(env, rules, w, cr).w, cr.namespace, y)
  {
    var r, l, m, p := ErrorFreeStages(env, rules, w, f, cr);
    var w' := Pass(env, rules, w, cr).w;
    if y in w.c.namespaces {
      StagesFollow(env, rules(f), w, r, l, m, p, w', f, cr, y);
      StagesBegin(env, rules(f), w, r, l, m, p, w', f, cr, y);
      FollowsFrom(f, cr, w, l, w', y);
    } else {
      StagesNowhere(env, rules(f), w, r, l, m, p, w', f, cr, y);
    }
  }

  lemma StagesNowhere(
      env: Env, rules: seq<Rule>, w: World, r: World, l: World, m: World, p: World, w': World, f: Feature, cr: Instance,
      y: string)
    requires Stages(env, rules, w, r, l, m, p, w', f, cr) && y !in w.c.namespaces
    ensures LabelOf(w', f, y) == None
  {
    assert LabelOf(w', f, y) == LabelOf(p, f, y);
    assert LabelOf(p, f, y) == None;
  }

  /** A deletion pass takes no label from an instance other than the one deleted, and takes a namespace
      out of the shared set only together with its label. */
  lemma PruneFollows(env: Env, w: World, f: Feature, cr: Instance, g: Feature, y: string)
    requires ListsOnce(env) && ErrorFree(env, w.n, Prune(env, w, f, cr).w.n)
    ensures var w' := Prune(env, w, f, cr).w;
      && LabelOf(w', g, y) in {None, LabelOf(w, g, y)}
      && (LabelOf(w', g, y).Some? && y in Managed(w, g) ==> y in Managed(w', g))
  {
    var w' := Prune(env, w, f, cr).w;
    PruneKeeps(env, w, f, cr);
    OtherLabelsSame(f, cr, w, w');
    if g == f {
      if y in Managed(w, f) && Prunable(env, f, w, cr, y) {
        assert Cleared(f, cr, w', y);
      } else {
        assert SameNs(f, cr, w, w', y);
      }
    }
  }

  lemma DeleteFollows(env: Env, w: World, cr: Instance, g: Feature, y: string)
    requires ListsOnce(env) && ErrorFree(env, w.n, RunDelete(env, w, cr).w.n)
    ensures var w' := RunDelete(env, w, cr).w;
      && LabelOf(w', g, y) in {None, LabelOf(w, g, y)}
      && (LabelOf(w', g, y).Some? && y in Managed(w, g) ==> y in Managed(w', g))
  {
    DeleteReachesTheEnd(env, w, cr);
    var a := Prune(env, w, ApplicationSet, Deleting(cr));
    PruneFollows(env, w, ApplicationSet, Deleting(cr), g, y);
    PruneFollows(env, a.w, Notifications, Deleting(cr), g, y);
  }

  lemma DeleteReachesTheEnd(env: Env, w: World, cr: Instance)
    requires ListsOnce(env) && ErrorFree(env, w.n, RunDelete(env, w, cr).w.n)
    ensures var a := Prune(env, w, ApplicationSet, Deleting(cr));
      && a.ok && ErrorFree(env, w.n, a.w.n)
      && RunDelete(env, w, cr) == Prune(env, a.w, Notifications, Deleting(cr))
      && ErrorFree(env, a.w.n, Prune(env, a.w, Notifications, Deleting(cr)).w.n)
  {
    var a := Prune(env, w, ApplicationSet, Deleting(cr));
    PruneKeeps(env, w, ApplicationSet, Deleting(cr));
    PruneKeeps(env, a.w, Notifications, Deleting(cr));
  }

  /** The calls that an event makes all succeed. */
  ghost predicate ErrorFreeEvent(env: Env, rules: Feature -> seq<Rule>, sys: System, e: Event)
  {
    ErrorFree(env, sys.w.n, Apply(env, rules, sys, e).w.n)
  }

  /** Edits by hand, namespaces coming and going, and restarts bring no label. */
  lemma EditFollows(env: Env, rules: Feature -> seq<Rule>, sys: System, e: Event, f: Feature, y: string)
    requires !e.InstancePass? && !e.DeletePass? && !e.Restart?
    ensures var w' := Apply(env, rules, sys, e).w;
      && LabelOf(w', f, y) in {None, LabelOf(sys.w, f, y)}
      && Managed(w', f) == Managed(sys.w, f)
  {
    assert LabelKey(f) != MANAGED_BY_LABEL;
  }

  lemma ApplyKeepsCovered(env: Env, rules: Feature -> seq<Rule>, sys: System, e: Event)
    requires ListsOnce(env) && Covered(sys) && ErrorFreeEvent(env, rules, sys, e)
    ensures Covered(Apply(env, rules, sys, e))
  {
    var sys' := Apply(env, rules, sys, e);
    forall f, y | LabelOf(sys'.w, f, y).Some? && LabelOf(sys'.w, f, y).value in sys'.seen
      ensures y in Managed(sys'.w, f) {
      if e.InstancePass? {
        PassFollows(env, rules, sys.w, f, e.cr.(deleting := false), y);
      } else if e.DeletePass? {
        DeleteFollows(env, sys.w, e.cr, f, y);
      } else if !e.Restart? {
        EditFollows(env, rules, sys, e, f, y);
      }
    }
  }

  ghost predicate ErrorFreeRun(env: Env, rules: Feature -> seq<Rule>, sys: System, events: seq<Event>)
    decreases |events|
  {
    events == [] ||
    (ErrorFreeEvent(env, rules, sys, events[0])
     && ErrorFreeRun(env, rules, Apply(env, rules, sys, events[0]), events[1..]))
  }

  /** Coverage: in every error-free run over any number of instances, the shared sets cover every namespace
      labelled for an instance that has had a pass since the operator started. */
  lemma {:induction false} RunsAreCovered(env: Env, rules: Feature -> seq<Rule>, sys: System, events: seq<Event>)
    requires ListsOnce(env) && Covered(sys) && ErrorFreeRun(env, rules, sys, events)
    ensures Covered(Run(env, rules, sys, events))
    decreases |events|
  {
    if events != [] {
      ApplyKeepsCovered(env, rules, sys, events[0]);
      RunsAreCovered(env, rules, Apply(env, rules, sys, events[0]), events[1..]);
    }
  }

  // ---------- Deletion ----------

  /** Pruning for a deleted instance clears a namespace labelled for it, role, binding and configuration
      included, exactly when the shared set holds that namespace. */
  lemma DeletionClearsExactly(env: Env, w: World, f: Feature, cr: Instance, y: string)
    requires ListsOnce(env) && cr.namespace != ""
    requires ErrorFree(env, w.n, Prune(env, w, f, Deleting(cr)).w.n)
    requires LabelOf(w, f, y) == Some(cr.namespace)
    ensures LabelOf(Prune(env, w, f, Deleting(cr)).w, f, y) == None <==> y in Managed(w, f)
    ensures y in Managed(w, f) ==> Emptied(f, cr, Prune(env, w, f, Deleting(cr)).w, y)
  {
    PruneKeeps(env, w, f, Deleting(cr));
    assert Prunable(env, f, w, Deleting(cr), y);
    if y !in Managed(w, f) { assert SameNs(f, Deleting(cr), w, Prune(env, w, f, Deleting(cr)).w, y); }
  }

  /** After an error-free run, deleting an instance that has had a pass leaves no namespace labelled for it,
      for either feature, and nothing of the feature in a namespace that was. */
  lemma DeletionClearsAll(
      env: Env, rules: Feature -> seq<Rule>, sys: System, events: seq<Event>, cr: Instance, g: Feature, y: string)
    requires ListsOnce(env) && Covered(sys) && cr.namespace != ""
    requires ErrorFreeRun(env, rules, sys, events)
    requires cr.namespace in Run(env, rules, sys, events).seen
    requires ErrorFree(env, Run(env, rules, sys, events).w.n, RunDelete(env, Run(env, rules, sys, events).w, cr).w.n)
    ensures LabelOf(RunDelete(env, Run(env, rules, sys, events).w, cr).w, g, y) != Some(cr.namespace)
    ensures var w := Run(env, rules, sys, events).w;
      LabelOf(w, g, y) == Some(cr.namespace) ==> Emptied(g, cr, RunDelete(env, w, cr).w, y)
  {
    RunsAreCovered(env, rules, sys, events);
    var w := Run(env, rules, sys, events).w;
    DeleteReachesTheEnd(env, w, cr);
    var a := Prune(env, w, ApplicationSet, Deleting(cr)).w;
    PruneFollows(env, w, ApplicationSet, Deleting(cr), g, y);
    PruneFollows(env, a, Notifications, Deleting(cr), g, y);
    if LabelOf(w, g, y) == Some(cr.namespace) {
      PruneKeeps(env, w, ApplicationSet, Deleting(cr));
      PruneKeeps(env, a, Notifications, Deleting(cr));
      if g == ApplicationSet {
        DeletionClearsExactly(env, w, g, cr, y);
        OtherFeatureSame(g, Notifications, Deleting(cr), a, RunDelete(env, w, cr).w);
        StaysEmptied(g, cr, a, RunDelete(env, w, cr).w, y);
      } else {
        OtherLabelsSame(ApplicationSet, Deleting(cr), w, a);
        DeletionClearsExactly(env, a, g, cr, y);
      }
    }
  }

  /** After a restart the shared sets are empty, so deleting an instance before it has had a pass leaves
      all its labels behind. */
  lemma DeletionAfterRestartForgets(
      env: Env, rules: Feature -> seq<Rule>, sys: System, cr: Instance, f: Feature, y: string)
    requires ListsOnce(env)
    requires LabelOf(sys.w, f, y) == Some(cr.namespace)
    ensures LabelOf(Run(env, rules, sys, [Restart, DeletePass(cr)]).w, f, y) == Some(cr.namespace)
  {
    var w := Apply(env, rules, sys, Restart).w;
    assert [Restart, DeletePass(cr)][1..] == [DeletePass(cr)];
    assert Run(env, rules, System(w, {}), [DeletePass(cr)]).w == RunDelete(env, w, cr).w;
    var a := Prune(env, w, ApplicationSet, Deleting(cr));
    PruneNothing(env, w, ApplicationSet, Deleting(cr));
    PruneNothing(env, a.w, Notifications, Deleting(cr));
  }

  lemma PruneNothing(env: Env, w: World, f: Feature, cr: Instance)
    requires ListsOnce(env) && Managed(w, f) == {}
    ensures Prune(env, w, f, cr) == Step(w, true)
  {
    var xs := env.listing(w.n, Managed(w, f));
    if xs != [] { assert xs[0] in xs; }
  }
}
