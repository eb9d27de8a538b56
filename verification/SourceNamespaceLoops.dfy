/** The four stages of a source-namespace pass, each as a whole. */
module SourceNamespaceLoops {
  import opened Platform
  import opened Rbac
  import opened SourceNamespaces
  import opened SourceNamespaceSteps

  // ---------- Restoring ----------

  /** Some rule is about applications or application sets of Argo CD. */
  predicate Scoped(rules: seq<Rule>)
  {
    exists rule, x ::
      && rule in rules && "argoproj.io" in rule.groups && x in rule.resources
      && x in {"*", "applications", "applications/status", "applicationsets", "applicationsets/status"}
  }

  lemma ScopedIsFound(rules: seq<Rule>)
    ensures HasApplicationScopedRules(rules) <==> Scoped(rules)
  {
    if Scoped(rules) {
      var rule, x :| rule in rules && "argoproj.io" in rule.groups && x in rule.resources && x in SCOPED_RESOURCES;
      var i :| 0 <= i < |rules| && rules[i] == rule;
      var j :| 0 <= j < |rule.resources| && rule.resources[j] == x;
      assert rules[i].resources[j] in SCOPED_RESOURCES;
    }
    if HasApplicationScopedRules(rules) {
      var i :| 0 <= i < |rules| && "argoproj.io" in rules[i].groups
               && exists j | 0 <= j < |rules[i].resources| :: rules[i].resources[j] in SCOPED_RESOURCES;
      var j :| 0 <= j < |rules[i].resources| && rules[i].resources[j] in SCOPED_RESOURCES;
      assert rules[i] in rules && rules[i].resources[j] in rules[i].resources;
    }
  }

  /** The operator made the role for the instance, going by its labels. */
  predicate OwnRole(role: Role, cr: Instance)
  {
    && "app.kubernetes.io/part-of" in role.labels && role.labels["app.kubernetes.io/part-of"] == "argocd"
    && "app.kubernetes.io/managed-by" in role.labels && role.labels["app.kubernetes.io/managed-by"] == cr.name
  }

  /** Does a role that the operator made for the instance call for a tracking label on its namespace? */
  predicate Asks(c: Cluster, cr: Instance, key: string, y: string)
  {
    var name := if key == CLUSTER_LABEL then cr.name + "_" + y else cr.name + "-" + cr.namespace + "-applicationset";
    && key in {APPLICATIONSET_LABEL, CLUSTER_LABEL}
    && y != cr.namespace && y in c.namespaces && (y, name) in c.roles
    && OwnRole(c.roles[(y, name)], cr) && Scoped(c.roles[(y, name)].rules)
  }

  /** Restoring only adds tracking labels that a role calls for, and they name the restoring instance. */
  ghost predicate RestoreFrame(cr: Instance, w: World, w': World)
  {
    && w.n <= w'.n && w.writes <= w'.writes && w'.managed == w.managed
    && w'.c.roles == w.c.roles && w'.c.bindings == w.c.bindings && w'.c.configurations == w.c.configurations
    && w'.c.namespaces.Keys == w.c.namespaces.Keys
    && (forall y, k | y in w.c.namespaces && k in w.c.namespaces[y] ::
          k in w'.c.namespaces[y] && w'.c.namespaces[y][k] == w.c.namespaces[y][k])
    && (forall y, k | y in w.c.namespaces && k in w'.c.namespaces[y] && k !in w.c.namespaces[y] ::
          Asks(w.c, cr, k, y) && w'.c.namespaces[y][k] == cr.namespace)
  }

  lemma RestoreFrameTrans(cr: Instance, a: World, b: World, c: World)
    requires RestoreFrame(cr, a, b) && RestoreFrame(cr, b, c)
    ensures RestoreFrame(cr, a, c)
  {
    forall y, k | y in a.c.namespaces && k in c.c.namespaces[y] && k !in a.c.namespaces[y]
      ensures Asks(a.c, cr, k, y) && c.c.namespaces[y][k] == cr.namespace
    {
      if k in b.c.namespaces[y] { assert c.c.namespaces[y][k] == b.c.namespaces[y][k]; }
      assert Asks(b.c, cr, k, y) == Asks(a.c, cr, k, y);
    }
  }

  /** A role as it is stored and listed. */
  predicate Listed(w: World, cr: Instance, ref: Ref, role: Role)
  {
    ref in w.c.roles && w.c.roles[ref] == role && MadeBy(role, cr)
  }

  lemma RequiredAreAskedFor(w: World, cr: Instance, ref: Ref, role: Role, k: string)
    requires Listed(w, cr, ref, role) && ref.0 != cr.namespace && ref.0 in w.c.namespaces
    ensures k in RequiredLabels(ref, cr) && IsOrphanedRole(ref, role, cr) ==>
              Asks(w.c, cr, k, ref.0) && RequiredLabels(ref, cr)[k] == cr.namespace
  {
    ScopedIsFound(role.rules);
    assert ResourceName(ApplicationSet, cr) == cr.name + "-" + cr.namespace + "-applicationset";
  }

  lemma WriteMissingFrame(env: Env, w: World, cr: Instance, y: string, required: Labels)
    requires y in w.c.namespaces
    requires forall k | k in required :: Asks(w.c, cr, k, y) && required[k] == cr.namespace
    ensures RestoreFrame(cr, w, Write(env, Tick(w), PutLabels(w.c, y, AddMissing(w.c.namespaces[y], required))).w)
  {
  }

  lemma RestoreOneFrame(env: Env, w: World, cr: Instance, ref: Ref, role: Role)
    requires Listed(w, cr, ref, role)
    ensures var s := RestoreOne(env, w, cr, ref, role);
      RestoreFrame(cr, w, s.w) && (ErrorFree(env, w.n, s.w.n) ==> s.ok)
  {
    if ref.0 != cr.namespace && ref.0 in w.c.namespaces && IsOrphanedRole(ref, role, cr) {
      forall k | k in RequiredLabels(ref, cr)
        ensures Asks(w.c, cr, k, ref.0) && RequiredLabels(ref, cr)[k] == cr.namespace
      {
        RequiredAreAskedFor(w, cr, ref, role, k);
      }
      WriteMissingFrame(env, w, cr, ref.0, RequiredLabels(ref, cr));
    }
  }

  /** The name under which a role calls for a label. */
  function Asker(cr: Instance, key: string, y: string): (ref: Ref)
  {
    (y, if key == CLUSTER_LABEL then AppRoleName(cr, y) else ResourceName(ApplicationSet, cr))
  }

  lemma RestoreOneLabels(env: Env, w: World, cr: Instance, key: string, y: string)
    requires Asks(w.c, cr, key, y)
    ensures var s := RestoreOne(env, w, cr, Asker(cr, key, y), w.c.roles[Asker(cr, key, y)]);
      s.ok && y in s.w.c.namespaces ==> key in s.w.c.namespaces[y]
  {
    ScopedIsFound(w.c.roles[Asker(cr, key, y)].rules);
  }

  lemma {:induction false} RestoreLoopFrame(env: Env, w: World, cr: Instance, refs: seq<Ref>, listed: map<Ref, Role>)
    requires forall r | r in listed :: Listed(w, cr, r, listed[r])
    ensures var s := RestoreLoop(env, w, cr, refs, listed);
      RestoreFrame(cr, w, s.w) && (ErrorFree(env, w.n, s.w.n) ==> s.ok)
    decreases |refs|
  {
    if refs != [] {
      if refs[0] !in listed {
        RestoreLoopFrame(env, w, cr, refs[1..], listed);
      } else {
        var a := RestoreOne(env, w, cr, refs[0], listed[refs[0]]);
        RestoreOneFrame(env, w, cr, refs[0], listed[refs[0]]);
        RestoreLoopFrame(env, a.w, cr, refs[1..], listed);
        RestoreFrameTrans(cr, w, a.w, RestoreLoop(env, a.w, cr, refs[1..], listed).w);
      }
    }
  }

  lemma {:induction false} RestoreLoopLabels(
      env: Env, w: World, cr: Instance, refs: seq<Ref>, listed: map<Ref, Role>, key: string, y: string)
    requires forall r | r in listed :: Listed(w, cr, r, listed[r])
    requires Asks(w.c, cr, key, y) && Asker(cr, key, y) in refs && Asker(cr, key, y) in listed
    requires RestoreLoop(env, w, cr, refs, listed).ok
    ensures var s := RestoreLoop(env, w, cr, refs, listed);
      y in s.w.c.namespaces && key in s.w.c.namespaces[y]
    decreases |refs|
  {
    if refs[0] !in listed {
      RestoreLoopLabels(env, w, cr, refs[1..], listed, key, y);
    } else {
      var a := RestoreOne(env, w, cr, refs[0], listed[refs[0]]);
      RestoreOneFrame(env, w, cr, refs[0], listed[refs[0]]);
      RestoreLoopFrame(env, a.w, cr, refs[1..], listed);
      if refs[0] == Asker(cr, key, y) {
        RestoreOneLabels(env, w, cr, key, y);
      } else {
        RestoreLoopLabels(env, a.w, cr, refs[1..], listed, key, y);
      }
    }
  }

  /** Restoring adds a label only where a role that the operator made for the instance calls for it, and
      everywhere where one does if it reports success, as it does with error-free calls. */
  lemma RestoreKeeps(env: Env, w: World, cr: Instance)
    requires ListsOnce(env)
    ensures var s := Restore(env, w, cr);
      && RestoreFrame(cr, w, s.w)
      && (ErrorFree(env, w.n, s.w.n) ==> s.ok)
      && (s.ok ==> forall k, y | Asks(w.c, cr, k, y) :: k in s.w.c.namespaces[y])
  {
    if Answered(env, w) {
      var listed := map ref | ref in w.c.roles && MadeBy(w.c.roles[ref], cr) :: w.c.roles[ref];
      var refs := env.listingPairs(w.n, listed.Keys);
      var s := Restore(env, w, cr);
      RestoreLoopFrame(env, Tick(w), cr, refs, listed);
      RestoreFrameTrans(cr, w, Tick(w), s.w);
      forall k, y | s.ok && Asks(w.c, cr, k, y) ensures k in s.w.c.namespaces[y] {
        assert Asker(cr, k, y) in listed && Asker(cr, k, y) in refs;
        RestoreLoopLabels(env, Tick(w), cr, refs, listed, k, y);
      }
    }
  }

  // ---------- Creating ----------

  /** The namespaces in which the create step works. */
  predicate Eligible(env: Env, f: Feature, c: Cluster, cr: Instance, x: string)
  {
    cr.clusterScoped && Named(env, f, cr, x) && AppNamespace(env, c, cr, x)
  }

  lemma SameNsIsCreateRelation(f: Feature, cr: Instance, w: World, w': World, y: string)
    requires SameNs(f, cr, w, w', y)
    ensures CreateRelation(f, cr, w, w', y)
  {
  }

  /** Where one feature works, the managed-by label stays. */
  lemma ManagerStays(f: Feature, cr: Instance, w: World, w': World, y: string)
    requires LoopFrame(f, cr, w, w') && y in w.c.namespaces
    ensures ManagedByOther(w'.c.namespaces[y]) == ManagedByOther(w.c.namespaces[y])
  {
    assert Lookup(w'.c.namespaces[y], MANAGED_BY_LABEL) == Lookup(w.c.namespaces[y], MANAGED_BY_LABEL);
  }

  lemma CreateRelationTrans(f: Feature, cr: Instance, a: World, b: World, c: World, y: string)
    requires LoopFrame(f, cr, a, b) && CreateRelation(f, cr, a, b, y) && CreateRelation(f, cr, b, c, y)
    requires y in a.c.namespaces
    ensures CreateRelation(f, cr, a, c, y)
  {
    ManagerStays(f, cr, a, b, y);
  }

  /** Creating twice is creating, and what is furnished stays so while nothing changes. */
  lemma FurnishedTrans(f: Feature, cr: Instance, rules: seq<Rule>, a: World, b: World, c: World, y: string)
    requires Furnished(f, cr, rules, a, b, y)
    requires Furnished(f, cr, rules, b, c, y) || SameNs(f, cr, b, c, y)
    ensures Furnished(f, cr, rules, a, c, y)
  {
  }

  lemma FurnishedLater(f: Feature, cr: Instance, rules: seq<Rule>, a: World, b: World, c: World, y: string)
    requires SameNs(f, cr, a, b, y) && Furnished(f, cr, rules, b, c, y)
    ensures Furnished(f, cr, rules, a, c, y)
  {
  }

  lemma CreatedTrans(f: Feature, cr: Instance, rules: seq<Rule>, a: World, b: World, c: World, y: string)
    requires LoopFrame(f, cr, a, b) && y in a.c.namespaces
    requires (Created(f, cr, rules, a, b, y) && (Created(f, cr, rules, b, c, y) || SameNs(f, cr, b, c, y)))
          || (SameNs(f, cr, a, b, y) && Created(f, cr, rules, b, c, y))
    ensures Created(f, cr, rules, a, c, y)
  {
    ManagerStays(f, cr, a, b, y);
    if !ManagedByOther(a.c.namespaces[y]) {
      if SameNs(f, cr, a, b, y) && Created(f, cr, rules, b, c, y) {
        FurnishedLater(f, cr, rules, a, b, c, y);
      } else {
        FurnishedTrans(f, cr, rules, a, b, c, y);
      }
    }
  }

  /** The summary of a stretch of the create step that works in the namespaces `xs`. */
  ghost predicate CreateSummary(
      env: Env, f: Feature, cr: Instance, rules: seq<Rule>, w: World, s: Step, xs: seq<string>)
  {
    && LoopFrame(f, cr, w, s.w)
    && (forall y | y in w.c.namespaces :: CreateRelation(f, cr, w, s.w, y))
    && (forall y | y !in xs :: SameNs(f, cr, w, s.w, y))
    && (ErrorFree(env, w.n, s.w.n) ==> forall y | y in xs && y in w.c.namespaces :: Created(f, cr, rules, w, s.w, y))
    && (ErrorFree(env, w.n, s.w.n) && (forall y | y in xs :: y in w.c.namespaces) ==> s.ok)
    && (s.ok ==> forall y | y in xs :: Taken(f, cr, rules, w, s.w, y))
  }

  lemma TakenTrans(f: Feature, cr: Instance, rules: seq<Rule>, a: World, b: World, c: World, y: string)
    requires LoopFrame(f, cr, a, b)
    requires (Taken(f, cr, rules, a, b, y) && (Taken(f, cr, rules, b, c, y) || SameNs(f, cr, b, c, y)))
          || (SameNs(f, cr, a, b, y) && Taken(f, cr, rules, b, c, y))
    ensures Taken(f, cr, rules, a, c, y)
  {
    if y in a.c.namespaces && !ManagedByOther(a.c.namespaces[y]) {
      ManagerStays(f, cr, a, b, y);
      if SameNs(f, cr, a, b, y) && Taken(f, cr, rules, b, c, y) {
        FurnishedLater(f, cr, rules, a, b, c, y);
      } else {
        FurnishedTrans(f, cr, rules, a, b, c, y);
      }
    }
  }

  lemma CreateTurn(env: Env, rules: seq<Rule>, w: World, f: Feature, cr: Instance, x: string)
    ensures var t := CreateIn(env, rules, w, f, cr, x);
      CreateSummary(env, f, cr, rules, w, Step(t.w, t.ok && !t.abort), [x])
  {
    var t := CreateIn(env, rules, w, f, cr, x);
    CreateInFrame(env, rules, w, f, cr, x);
    if t.ok { TakenWhenReported(env, rules, w, f, cr, x); }
    FrameIsLoopFrame(f, cr, w, t.w, x);
    forall y | y != x ensures SameNs(f, cr, w, t.w, y) && CreateRelation(f, cr, w, t.w, y) {
      ElsewhereSame(f, cr, w, t.w, x, y);
      SameNsIsCreateRelation(f, cr, w, t.w, y);
    }
  }

  lemma CreateSummaryTrans(
      env: Env, f: Feature, cr: Instance, rules: seq<Rule>, w: World, a: Step, b: Step, x: string, xs: seq<string>)
    requires CreateSummary(env, f, cr, rules, w, a, [x]) && CreateSummary(env, f, cr, rules, a.w, b, xs)
    ensures CreateSummary(env, f, cr, rules, w, b.(ok := a.ok && b.ok), [x] + xs)
  {
    LoopFrameTrans(f, cr, w, a.w, b.w);
    forall y | y in w.c.namespaces ensures CreateRelation(f, cr, w, b.w, y) {
      CreateRelationTrans(f, cr, w, a.w, b.w, y);
    }
    forall y | ErrorFree(env, w.n, b.w.n) && y in [x] + xs && y in w.c.namespaces
      ensures Created(f, cr, rules, w, b.w, y)
    {
      CreatedTrans(f, cr, rules, w, a.w, b.w, y);
    }
    forall y | a.ok && b.ok && y in [x] + xs ensures Taken(f, cr, rules, w, b.w, y) {
      TakenTrans(f, cr, rules, w, a.w, b.w, y);
    }
    forall y | y !in [x] + xs ensures SameNs(f, cr, w, b.w, y) {
      assert y !in [x] && y !in xs;
    }
  }

  /** A loop that was left early did part of the work. */
  lemma CreateAborted(
      env: Env, f: Feature, cr: Instance, rules: seq<Rule>, w: World, a: Step, x: string, xs: seq<string>)
    requires CreateSummary(env, f, cr, rules, w, a, [x]) && !a.ok
    requires x in w.c.namespaces
    ensures CreateSummary(env, f, cr, rules, w, a, [x] + xs)
  {
    forall y | y !in [x] + xs ensures SameNs(f, cr, w, a.w, y) {
      assert y !in [x];
    }
    assert ErrorFree(env, w.n, a.w.n) ==> (forall y | y in [x] :: y in w.c.namespaces);
  }

  lemma {:induction false} CreateLoopSummary(
      env: Env, rules: seq<Rule>, w: World, f: Feature, cr: Instance, xs: seq<string>)
    ensures CreateSummary(env, f, cr, rules, w, CreateLoop(env, rules, w, f, cr, xs), xs)
    decreases |xs|
  {
    if xs != [] {
      var t := CreateIn(env, rules, w, f, cr, xs[0]);
      CreateTurn(env, rules, w, f, cr, xs[0]);
      assert xs == [xs[0]] + xs[1..];
      if t.abort {
        CreateInFrame(env, rules, w, f, cr, xs[0]);
        CreateAborted(env, f, cr, rules, w, Step(t.w, false), xs[0], xs[1..]);
      } else {
        var rest := CreateLoop(env, rules, t.w, f, cr, xs[1..]);
        CreateLoopSummary(env, rules, t.w, f, cr, xs[1..]);
        CreateSummaryTrans(env, f, cr, rules, w, Step(t.w, t.ok), rest, xs[0], xs[1..]);
      }
    }
  }

  /** A read before the work. */
  lemma CreateSummaryTick(env: Env, f: Feature, cr: Instance, rules: seq<Rule>, w: World, s: Step, xs: seq<string>)
    requires CreateSummary(env, f, cr, rules, Tick(w), s, xs)
    ensures CreateSummary(env, f, cr, rules, w, s, xs)
  {
    assert LoopFrame(f, cr, w, s.w);
    forall y | y in w.c.namespaces ensures CreateRelation(f, cr, w, s.w, y) {
      CreatedAfterRead(f, cr, rules, w, s.w, y);
    }
    forall y | y !in xs ensures SameNs(f, cr, w, s.w, y) {
      assert SameNs(f, cr, Tick(w), s.w, y);
    }
    forall y | ErrorFree(env, w.n, s.w.n) && y in xs && y in w.c.namespaces ensures Created(f, cr, rules, w, s.w, y) {
      CreatedAfterRead(f, cr, rules, w, s.w, y);
    }
    forall y | s.ok && y in xs ensures Taken(f, cr, rules, w, s.w, y) {
      assert Taken(f, cr, rules, Tick(w), s.w, y);
      FurnishedFrom(f, cr, rules, Tick(w), w, s.w, y);
    }
  }

  /** After a failed call nothing is promised about the namespaces that were to be worked on. */
  lemma CreateSummaryFailed(env: Env, f: Feature, cr: Instance, rules: seq<Rule>, w: World, s: Step,
                            xs: seq<string>, ys: seq<string>)
    requires CreateSummary(env, f, cr, rules, w, s, xs) && !ErrorFree(env, w.n, s.w.n)
    requires forall y | y in xs :: y in ys
    ensures CreateSummary(env, f, cr, rules, w, s.(ok := false), ys)
  {
    forall y | y !in ys ensures SameNs(f, cr, w, s.w, y) {
      assert y !in xs;
    }
  }

  lemma {:induction false} AppsOnlyStable(env: Env, c: Cluster, c': Cluster, cr: Instance, xs: seq<string>)
    requires c'.namespaces.Keys == c.namespaces.Keys
    ensures AppsOnly(env, c', cr, xs) == AppsOnly(env, c, cr, xs)
    decreases |xs|
  {
    if xs != [] {
      assert AppNamespace(env, c', cr, xs[0]) == AppNamespace(env, c, cr, xs[0]);
      AppsOnlyStable(env, c, c', cr, xs[1..]);
    }
  }

  lemma {:induction false} CreateNotificationsSummary(
      env: Env, rules: seq<Rule>, w: World, cr: Instance, xs: seq<string>)
    ensures var s := CreateNotifications(env, rules, w, cr, xs);
      CreateSummary(env, Notifications, cr, rules, w, s, AppsOnly(env, w.c, cr, xs))
    decreases |xs|
  {
    if xs != [] {
      var f, rest, todo := Notifications, xs[1..], AppsOnly(env, w.c, cr, xs[1..]);
      var w1 := Tick(w);
      if !Answered(env, w) {
        CreateNotificationsSummary(env, rules, w1, cr, rest);
        var s := CreateNotifications(env, rules, w1, cr, rest);
        CreateSummaryTick(env, f, cr, rules, w, s, todo);
        CreateSummaryFailed(env, f, cr, rules, w, s, todo, AppsOnly(env, w.c, cr, xs));
      } else if !AppNamespace(env, w.c, cr, xs[0]) {
        CreateNotificationsSummary(env, rules, w1, cr, rest);
        CreateSummaryTick(env, f, cr, rules, w, CreateNotifications(env, rules, w1, cr, rest), todo);
      } else {
        var t := CreateIn(env, rules, w1, f, cr, xs[0]);
        CreateTurn(env, rules, w1, f, cr, xs[0]);
        if t.abort {
          CreateAborted(env, f, cr, rules, w1, Step(t.w, false), xs[0], todo);
        } else {
          var s := CreateNotifications(env, rules, t.w, cr, rest);
          CreateNotificationsSummary(env, rules, t.w, cr, rest);
          AppsOnlyStable(env, w1.c, t.w.c, cr, rest);
          CreateSummaryTrans(env, f, cr, rules, w1, Step(t.w, t.ok), s, xs[0], todo);
        }
        CreateSummaryTick(env, f, cr, rules, w, CreateNotifications(env, rules, w, cr, xs), [xs[0]] + todo);
      }
    }
  }

  ghost predicate CreateResult(env: Env, f: Feature, cr: Instance, rules: seq<Rule>, w: World, s: Step)
  {
    && LoopFrame(f, cr, w, s.w)
    && (forall y | y in w.c.namespaces :: CreateRelation(f, cr, w, s.w, y))
    && (forall y | !Eligible(env, f, w.c, cr, y) :: SameNs(f, cr, w, s.w, y))
    && (ErrorFree(env, w.n, s.w.n) ==> s.ok)
    && (ErrorFree(env, w.n, s.w.n) ==> forall y | Eligible(env, f, w.c, cr, y) :: Created(f, cr, rules, w, s.w, y))
    && (s.ok ==> forall y | Eligible(env, f, w.c, cr, y) :: Taken(f, cr, rules, w, s.w, y))
  }

  lemma SummaryIsResult(env: Env, f: Feature, cr: Instance, rules: seq<Rule>, w: World, s: Step, xs: seq<string>)
    requires CreateSummary(env, f, cr, rules, w, s, xs)
    requires forall y :: y in xs <==> Eligible(env, f, w.c, cr, y)
    ensures CreateResult(env, f, cr, rules, w, s)
  {
  }

  lemma CreateApplicationSetKeeps(env: Env, rules: seq<Rule>, w: World, cr: Instance)
    requires ListsOnce(env)
    ensures CreateResult(env, ApplicationSet, cr, rules, w, CreateApplicationSet(env, rules, w, cr))
  {
    var f, s := ApplicationSet, CreateApplicationSet(env, rules, w, cr);
    if cr.applicationSet.Some? && cr.clusterScoped && env.outcome(w.n).Done? && env.outcome(w.n + 1).Done? {
      var listing := env.listing(w.n, w.c.namespaces.Keys);
      var all := Expanded(env, cr, listing);
      var xs := AppsOnly(env, w.c, cr, all);
      CreateLoopSummary(env, rules, Tick(Tick(w)), f, cr, xs);
      CreateSummaryTick(env, f, cr, rules, Tick(w), s, xs);
      CreateSummaryTick(env, f, cr, rules, w, s, xs);
      ExpandedIsMatching(env, cr, listing);
      forall y ensures y in xs <==> Eligible(env, f, w.c, cr, y) {
        assert y in all <==> y in listing && env.matches(cr.applicationSet.value, y);
      }
      SummaryIsResult(env, f, cr, rules, w, s, xs);
    } else {
      CreateNothing(f, cr, w, s);
    }
  }

  /** The create step of either feature works in the eligible namespaces and in no other. */
  lemma CreateKeeps(env: Env, rules: seq<Rule>, w: World, f: Feature, cr: Instance)
    requires ListsOnce(env)
    ensures CreateResult(env, f, cr, rules, w, Create(env, rules, w, f, cr))
  {
    match f
    case ApplicationSet => CreateApplicationSetKeeps(env, rules, w, cr);
    case Notifications =>
      if cr.clusterScoped && cr.notificationsEnabled {
        CreateNotificationsSummary(env, rules, w, cr, cr.notifications);
        SummaryIsResult(env, f, cr, rules, w, Create(env, rules, w, f, cr), AppsOnly(env, w.c, cr, cr.notifications));
      } else {
        CreateNothing(f, cr, w, Create(env, rules, w, f, cr));
      }
  }

  lemma CreateNothing(f: Feature, cr: Instance, w: World, s: Step)
    requires s.w == w.(n := s.w.n) && w.n <= s.w.n
    ensures LoopFrame(f, cr, w, s.w)
    ensures forall y | y in w.c.namespaces :: CreateRelation(f, cr, w, s.w, y)
    ensures forall y :: SameNs(f, cr, w, s.w, y)
  {
  }

  /** Sorting loses nothing: the expanded list holds exactly the listed namespaces that match. */
  lemma ExpandedIsMatching(env: Env, cr: Instance, listing: seq<string>)
    requires cr.applicationSet.Some?
    ensures forall y :: y in Expanded(env, cr, listing)
                        <==> y in listing && env.matches(cr.applicationSet.value, y)
  {
    var xs := Matching(env, cr.applicationSet.value, listing);
    assert multiset(Sorted(xs)) == multiset(xs);
    forall y ensures y in Sorted(xs) <==> y in xs {
      assert y in Sorted(xs) <==> y in multiset(Sorted(xs));
      assert y in xs <==> y in multiset(xs);
    }
  }

  // ---------- Pruning ----------

  /** Pruning does something to `y` only when the instance owns it and it is not still managed. */
  predicate Prunable(env: Env, f: Feature, w: World, cr: Instance, y: string)
  {
    y in w.c.namespaces && Owns(f, cr, w.c.namespaces[y]) && !StillManaged(env, f, w.c, cr, y)
  }

  lemma PruneOneElsewhere(env: Env, w: World, f: Feature, cr: Instance, x: string)
    ensures var a := PruneOne(env, w, f, cr, x);
      && LoopFrame(f, cr, w, a.w)
      && (forall y | y != x || !Prunable(env, f, w, cr, y) :: SameNs(f, cr, w, a.w, y))
      && (forall y | y != x :: Prunable(env, f, a.w, cr, y) == Prunable(env, f, w, cr, y))
      && LabelOf(a.w, f, x) in {None, LabelOf(w, f, x)} && LabelGoesLast(f, cr, w, a.w, x)
      && (!Prunable(env, f, w, cr, x) ==> !Prunable(env, f, a.w, cr, x))
  {
    var a := PruneOne(env, w, f, cr, x);
    PruneOneFrame(env, w, f, cr, x);
    FrameIsLoopFrame(f, cr, w, a.w, x);
    forall y | y != x ensures SameNs(f, cr, w, a.w, y) && Prunable(env, f, a.w, cr, y) == Prunable(env, f, w, cr, y) {
      ElsewhereSame(f, cr, w, a.w, x, y);
    }
  }

  /** What a prune loop leaves alone, whatever the answers. */
  lemma {:induction false} PruneLoopFrame(env: Env, w: World, f: Feature, cr: Instance, xs: seq<string>)
    ensures var s := PruneLoop(env, w, f, cr, xs);
      && LoopFrame(f, cr, w, s.w)
      && (forall y :: LabelOf(s.w, f, y) in {None, LabelOf(w, f, y)} && LabelGoesLast(f, cr, w, s.w, y))
      && (forall y | y !in xs || !Prunable(env, f, w, cr, y) :: SameNs(f, cr, w, s.w, y))
    decreases |xs|
  {
    if xs != [] {
      var x := xs[0];
      var a := PruneOne(env, w, f, cr, x);
      PruneOneElsewhere(env, w, f, cr, x);
      if a.ok {
        var s := PruneLoop(env, a.w, f, cr, xs[1..]);
        PruneLoopFrame(env, a.w, f, cr, xs[1..]);
        LoopFrameTrans(f, cr, w, a.w, s.w);
        forall y | y !in xs || !Prunable(env, f, w, cr, y) ensures SameNs(f, cr, w, s.w, y) {
          assert SameNs(f, cr, w, a.w, y) && (y !in xs[1..] || !Prunable(env, f, a.w, cr, y));
        }
        PruneLoopLabels(f, cr, w, a.w, s.w, x);
      } else {
        PruneLoopLabels(f, cr, w, a.w, a.w, x);
      }
    }
  }

  lemma {:induction false} PruneLoopKeeps(env: Env, w: World, f: Feature, cr: Instance, xs: seq<string>)
    ensures var s := PruneLoop(env, w, f, cr, xs);
      && w.n <= s.w.n
      && (ErrorFree(env, w.n, s.w.n) ==> s.ok)
      && (ErrorFree(env, w.n, s.w.n) ==> forall y | y in xs && Prunable(env, f, w, cr, y) :: Cleared(f, cr, s.w, y))
      && (ErrorFree(env, w.n, s.w.n) ==> forall y | Cleared(f, cr, w, y) :: Cleared(f, cr, s.w, y))
    decreases |xs|
  {
    if xs != [] {
      var x := xs[0];
      var a := PruneOne(env, w, f, cr, x);
      PruneOneFrame(env, w, f, cr, x);
      PruneOneElsewhere(env, w, f, cr, x);
      if a.ok {
        var s := PruneLoop(env, a.w, f, cr, xs[1..]);
        PruneLoopKeeps(env, a.w, f, cr, xs[1..]);
        PruneLoopCleared(env, w, f, cr, x, a, s);
      }
    }
  }

  lemma PruneLoopLabels(f: Feature, cr: Instance, w: World, a: World, s: World, x: string)
    requires forall y | y != x :: SameNs(f, cr, w, a, y)
    requires LabelOf(a, f, x) in {None, LabelOf(w, f, x)} && LabelGoesLast(f, cr, w, a, x)
    requires forall y :: LabelOf(s, f, y) in {None, LabelOf(a, f, y)} && LabelGoesLast(f, cr, a, s, y)
    ensures forall y :: LabelOf(s, f, y) in {None, LabelOf(w, f, y)} && LabelGoesLast(f, cr, w, s, y)
  {
    forall y ensures LabelOf(s, f, y) in {None, LabelOf(w, f, y)} && LabelGoesLast(f, cr, w, s, y) {
      assert LabelGoesLast(f, cr, a, s, y);
      if y != x { assert SameNs(f, cr, w, a, y); }
    }
  }

  lemma PruneLoopCleared(env: Env, w: World, f: Feature, cr: Instance, x: string, a: Step, s: Step)
    requires a == PruneOne(env, w, f, cr, x) && a.ok && a.w.n <= s.w.n
    requires forall y | y != x :: SameNs(f, cr, w, a.w, y)
    requires ErrorFree(env, a.w.n, s.w.n) ==> forall y | Cleared(f, cr, a.w, y) :: Cleared(f, cr, s.w, y)
    ensures ErrorFree(env, w.n, s.w.n) && Prunable(env, f, w, cr, x) ==> Cleared(f, cr, s.w, x)
    ensures ErrorFree(env, w.n, s.w.n) ==> forall y | Cleared(f, cr, w, y) :: Cleared(f, cr, s.w, y)
  {
    PruneOneFrame(env, w, f, cr, x);
    forall y | ErrorFree(env, w.n, s.w.n) && Cleared(f, cr, w, y) ensures Cleared(f, cr, s.w, y) {
      if y != x { assert SameNs(f, cr, w, a.w, y); }
      assert Cleared(f, cr, a.w, y);
    }
  }

  /** The prune step changes only namespaces whose resolved owner is the pruning instance, only takes
      labels away, each after all else of the feature, and with error-free calls clears every managed
      namespace that is not to be kept. */
  lemma PruneKeeps(env: Env, w: World, f: Feature, cr: Instance)
    requires ListsOnce(env)
    ensures var s := Prune(env, w, f, cr);
      && LoopFrame(f, cr, w, s.w)
      && (forall y :: LabelOf(s.w, f, y) in {None, LabelOf(w, f, y)} && LabelGoesLast(f, cr, w, s.w, y))
      && (forall y | y !in Managed(w, f) || !Prunable(env, f, w, cr, y) :: SameNs(f, cr, w, s.w, y))
      && (ErrorFree(env, w.n, s.w.n) ==> s.ok)
      && (ErrorFree(env, w.n, s.w.n) ==>
            forall y | y in Managed(w, f) && Prunable(env, f, w, cr, y) :: Cleared(f, cr, s.w, y))
  {
    PruneLoopFrame(env, w, f, cr, env.listing(w.n, Managed(w, f)));
    PruneLoopKeeps(env, w, f, cr, env.listing(w.n, Managed(w, f)));
  }
}
