/** Theorems about every run of the local-users protocol, from an empty system, with any API
    failures, any passage of time and any order of events. */
module LocalUserHistory {
  import opened Platform
  import opened LocalUserNames
  import opened LocalUsers
  import opened LocalUserInvariants
  import opened LocalUserPass
  import opened LocalUserQuiet
  import opened LocalUserRuns

  // ---------- Every event keeps the invariant ----------

  /** A pass over another namespace is invisible here, but for the passing of time. */
  lemma ElsewhereKeepsWorld(env: Env, ns: string, ms: string, w: World, w': World, exempt: set<string>)
    requires WorldInv(env, ms, w, exempt) && TimersOK(w'.timers)
    requires '/' !in ns && '/' !in ms && ns != ms
    requires w'.store == w.store && w'.ledger == w.ledger && w.n <= w'.n
    requires TimersGrow(w.timers, w'.timers) && SameElsewhere(ns, w.timers.byKey, w'.timers.byKey)
    ensures WorldInv(env, ms, w', exempt)
  {
    forall v ensures UserCore(env, ms, w', exempt, v) && UserDue(env, ms, w', v) {
      TimerKeyPrefix(ns, ms, v);
      assert UserCore(env, ms, w, exempt, v) && UserDue(env, ms, w, v);
    }
  }

  /** Losing timers, changing the CR and setting the signing key disturb no user. */
  lemma LessKeepsWorld(env: Env, ns: string, w: World, w': World, exempt: set<string>, exempt': set<string>)
    requires WorldInv(env, ns, w, exempt) && TimersOK(w'.timers) && exempt <= exempt'
    requires w'.ledger == w.ledger && w'.n == w.n
    requires w'.store.secrets == w.store.secrets
    requires forall v :: HasEntry(w'.store, v) ==> HasEntry(w.store, v) && TheEntry(w'.store, v) == TheEntry(w.store, v)
    requires w'.timers.cells == w.timers.cells
    requires forall k | k in w'.timers.byKey :: k in w.timers.byKey && w'.timers.byKey[k] == w.timers.byKey[k]
    ensures WorldInv(env, ns, w', exempt')
  {
    forall v ensures UserCore(env, ns, w', exempt', v) && UserDue(env, ns, w', v) {
      assert UserCore(env, ns, w, exempt, v) && UserDue(env, ns, w, v);
    }
  }

  lemma ReconcileKeepsSystem(env: Env, sys: System, ns: string)
    requires Sane(env) && SystemInv(env, sys) && '/' !in ns
    ensures SystemInv(env, RunReconcile(env, sys, ns))
    ensures TimersGrow(sys.timers, RunReconcile(env, sys, ns).timers)
  {
    var w := WorldOf(sys, ns);
    assert NamespaceInv(env, sys, ns);
    PassKeepsWorld(env, ns, w, At(sys, ns).exempt);
    var w' := Pass(env, ns, w).w;
    var sys' := RunReconcile(env, sys, ns);
    assert WorldOf(sys', ns) == w';
    forall ms | '/' !in ms ensures NamespaceInv(env, sys', ms) {
      assert NamespaceInv(env, sys, ms);
      if ms != ns {
        assert At(sys', ms) == At(sys, ms);
        ElsewhereKeepsWorld(env, ns, ms, WorldOf(sys, ms), WorldOf(sys', ms), At(sys, ms).exempt);
      }
    }
  }

  lemma ExemptByIsExact(cr: CR, v: string)
    ensures v in ExemptBy(cr) <==> ExtraApiKey(cr.extraConfig, v)
  {
    var k := AccountKey(v);
    assert k[..|"accounts."|] == "accounts." && k[|"accounts."|..] == v;
    if v in ExemptBy(cr) {
      var k' :| k' in cr.extraConfig && HasPrefix(k', "accounts.") && Contains(cr.extraConfig[k'], "apiKey")
                && k'[|"accounts."|..] == v;
      assert k' == k'[..|"accounts."|] + k'[|"accounts."|..];
    }
  }

  lemma EditKeepsSystem(env: Env, sys: System, e: Event)
    requires SystemInv(env, sys) && NamesNamespace(e) && (e.EditCR? || e.SetSigningKey?)
    ensures SystemInv(env, Apply(env, sys, e))
  {
    var sys' := Apply(env, sys, e);
    forall ms | '/' !in ms ensures NamespaceInv(env, sys', ms) {
      assert NamespaceInv(env, sys, ms);
      if ms == e.ns {
        LessKeepsWorld(env, ms, WorldOf(sys, ms), WorldOf(sys', ms), At(sys, ms).exempt, At(sys', ms).exempt);
        if e.EditCR? && e.cr.Some? {
          forall v ensures ExtraApiKey(e.cr.value.extraConfig, v) ==> v in At(sys', ms).exempt {
            ExemptByIsExact(e.cr.value, v);
          }
        }
      } else {
        assert WorldOf(sys', ms) == WorldOf(sys, ms);
      }
    }
  }

  lemma StopNamespaceKeeps(t: Timers, ns: string)
    requires TimersOK(t)
    ensures var t' := StopNamespace(t, ns);
      && TimersOK(t') && TimersGrow(t, t') && t'.cells == t.cells
      && (forall k | k in t'.byKey :: k in t.byKey && t'.byKey[k] == t.byKey[k])
  {
    var t' := StopNamespace(t, ns);
    forall i: nat | i < |t.cells|
      ensures i !in t'.stopped <==> (KeyOf(t.cells[i]) in t'.byKey && t'.byKey[KeyOf(t.cells[i])] == i)
    {
      var k := KeyOf(t.cells[i]);
      if k in t.byKey && t.byKey[k] == i && k !in t'.byKey {
        assert i in t'.stopped;
      }
    }
  }

  lemma KillAllKeeps(t: Timers)
    requires TimersOK(t)
    ensures TimersOK(Timers(t.cells, t.stopped + t.byKey.Values, map[]))
    ensures forall i: nat | i < |t.cells| :: i in t.stopped + t.byKey.Values
  {
    forall i: nat | i < |t.cells| ensures i in t.stopped + t.byKey.Values {
      if i !in t.stopped {
        assert KeyOf(t.cells[i]) in t.byKey && t.byKey[KeyOf(t.cells[i])] == i;
      }
    }
  }

  lemma TimerEventKeepsSystem(env: Env, sys: System, e: Event)
    requires SystemInv(env, sys) && NamesNamespace(e) && (e.CleanupTimers? || e.Restart?)
    ensures SystemInv(env, Apply(env, sys, e)) && TimersGrow(sys.timers, Apply(env, sys, e).timers)
  {
    var sys' := Apply(env, sys, e);
    if e.CleanupTimers? { StopNamespaceKeeps(sys.timers, e.ns); } else { KillAllKeeps(sys.timers); }
    forall ms | '/' !in ms ensures NamespaceInv(env, sys', ms) {
      assert NamespaceInv(env, sys, ms);
      LessKeepsWorld(env, ms, WorldOf(sys, ms), WorldOf(sys', ms), At(sys, ms).exempt, At(sys, ms).exempt);
    }
  }

  lemma ApplyKeepsSystem(env: Env, sys: System, e: Event)
    requires Sane(env) && SystemInv(env, sys) && NamesNamespace(e)
    ensures SystemInv(env, Apply(env, sys, e)) && TimersGrow(sys.timers, Apply(env, sys, e).timers)
  {
    match e
    case EditCR(_, _) => EditKeepsSystem(env, sys, e);
    case SetSigningKey(_, _) => EditKeepsSystem(env, sys, e);
    case Reconcile(ns) => ReconcileKeepsSystem(env, sys, ns);
    case Callback(i) =>
      SpawnKeepsSystem(env, sys, Apply(env, sys, e).fired, Apply(env, sys, e).spawned);
    case Goroutine(j) =>
      if j < |sys.spawned| {
        var rest := sys.spawned[..j] + sys.spawned[j + 1..];
        SpawnKeepsSystem(env, sys, sys.fired, rest);
        ReconcileKeepsSystem(env, sys.(spawned := rest), sys.spawned[j]);
      }
    case CleanupTimers(_) => TimerEventKeepsSystem(env, sys, e);
    case Restart => TimerEventKeepsSystem(env, sys, e);
  }

  lemma SpawnKeepsSystem(env: Env, sys: System, fired: set<nat>, spawned: seq<string>)
    requires SystemInv(env, sys) && forall j: nat | j < |spawned| :: '/' !in spawned[j]
    ensures SystemInv(env, sys.(fired := fired, spawned := spawned))
  {
    forall ms | '/' !in ms ensures NamespaceInv(env, sys.(fired := fired, spawned := spawned), ms) {
      assert NamespaceInv(env, sys, ms);
    }
  }

  lemma StartIsGood(env: Env)
    ensures SystemInv(env, START)
  {
    forall ns | '/' !in ns ensures NamespaceInv(env, START, ns) {
      assert WorldOf(START, ns) == World(EMPTY.store, START.timers, map[], 0, 0);
    }
  }

  ghost predicate GoodEvents(events: seq<Event>)
  {
    forall i | 0 <= i < |events| :: NamesNamespace(events[i])
  }

  lemma {:induction false} RunKeepsSystem(env: Env, sys: System, events: seq<Event>)
    requires Sane(env) && SystemInv(env, sys) && GoodEvents(events)
    ensures SystemInv(env, Run(env, sys, events)) && TimersGrow(sys.timers, Run(env, sys, events).timers)
    decreases |events|
  {
    if events != [] {
      assert NamesNamespace(events[0]);
      ApplyKeepsSystem(env, sys, events[0]);
      RunKeepsSystem(env, Apply(env, sys, events[0]), events[1..]);
    }
  }

  // ---------- History: who was ever given apiKey by extraConfig ----------

  /** Some CR of this namespace gave `v` the apiKey capability through extraConfig. */
  ghost predicate EverExempt(events: seq<Event>, ns: string, v: string)
  {
    exists i | 0 <= i < |events| :: Gives(events[i], ns, v)
  }

  predicate Gives(e: Event, ns: string, v: string)
  {
    e.EditCR? && e.ns == ns && e.cr.Some? && ExtraApiKey(e.cr.value.extraConfig, v)
  }

  lemma ApplyExempt(env: Env, sys: System, e: Event, ns: string, v: string)
    ensures v in At(Apply(env, sys, e), ns).exempt ==> v in At(sys, ns).exempt || Gives(e, ns, v)
  {
    if e.EditCR? && e.cr.Some? { ExemptByIsExact(e.cr.value, v); }
  }

  lemma {:induction false} ExemptIsHistory(env: Env, sys: System, events: seq<Event>, ns: string, v: string)
    requires v in At(Run(env, sys, events), ns).exempt
    ensures v in At(sys, ns).exempt || EverExempt(events, ns, v)
    decreases |events|
  {
    if events != [] {
      var rest := events[1..];
      ExemptIsHistory(env, Apply(env, sys, events[0]), rest, ns, v);
      if EverExempt(rest, ns, v) {
        var i :| 0 <= i < |rest| && Gives(rest[i], ns, v);
        assert Gives(events[i + 1], ns, v);
      } else {
        ApplyExempt(env, sys, events[0], ns, v);
      }
    }
  }

  // ---------- Theorems ----------

  /** No orphan: in every run, a token entry of a user whom extraConfig never gave apiKey has its
      user secret beside it, so cleanup, which goes by the secrets, always finds it. */
  lemma NoOrphanEntry(env: Env, events: seq<Event>, ns: string, v: string)
    requires Sane(env) && GoodEvents(events) && '/' !in ns
    requires !EverExempt(events, ns, v)
    ensures var s := At(Run(env, START, events), ns).store; HasEntry(s, v) ==> HasSecret(s, v)
  {
    StartIsGood(env);
    RunKeepsSystem(env, START, events);
    var sys := Run(env, START, events);
    assert NamespaceInv(env, sys, ns) && UserCore(env, ns, WorldOf(sys, ns), At(sys, ns).exempt, v);
    if v in At(sys, ns).exempt { ExemptIsHistory(env, START, events, ns, v); }
  }

  /** Convergence: after every run, one error-free pass settles every declared user, leaves an
      undeclared user nothing, and replaces every token that had run out. */
  lemma EveryRunConverges(env: Env, events: seq<Event>, ns: string, cr: CR)
    requires Sane(env) && GoodEvents(events) && '/' !in ns
    requires var sys := Run(env, START, events);
      At(sys, ns).store.cr == Some(cr) && DistinctNames(cr.users) && Pass(env, ns, WorldOf(sys, ns)).ok
    ensures var w := WorldOf(Run(env, START, events), ns); var w' := Pass(env, ns, w).w;
      && (forall i | 0 <= i < |cr.users| && cr.users[i].name !in LegacyUsers(cr.extraConfig) ::
            && Settled(env, ns, w', ExtraApiKey(cr.extraConfig, cr.users[i].name), cr.users[i])
            && (Overdue(env, w, cr.users[i]) ==> Renewed(env, ns, w, w', cr.users[i])))
      && (forall v | !Declared(cr, v) && !EverExempt(events, ns, v) ::
            !HasSecret(w'.store, v) && TimerKey(ns, v) !in w'.timers.byKey && !HasEntry(w'.store, v))
  {
    StartIsGood(env);
    RunKeepsSystem(env, START, events);
    var sys := Run(env, START, events);
    var w := WorldOf(sys, ns);
    assert NamespaceInv(env, sys, ns);
    PassConverges(env, ns, w, At(sys, ns).exempt, cr);
    var w' := Pass(env, ns, w).w;
    forall v | !Declared(cr, v) && !EverExempt(events, ns, v)
      ensures !HasSecret(w'.store, v) && TimerKey(ns, v) !in w'.timers.byKey && !HasEntry(w'.store, v)
    {
      if v in At(sys, ns).exempt { ExemptIsHistory(env, START, events, ns, v); }
    }
  }

  /** Stability: after every run, the pass that follows an error-free one performs no write and
      leaves the timers alone, unless an auto-renewed token runs out before it ends. */
  lemma EveryRunSettles(env: Env, events: seq<Event>, ns: string, cr: CR)
    requires Sane(env) && GoodEvents(events) && '/' !in ns
    requires var sys := Run(env, START, events);
      At(sys, ns).store.cr == Some(cr) && DistinctNames(cr.users) && Pass(env, ns, WorldOf(sys, ns)).ok
    requires var first := WorldOf(Run(env, START, events + [Reconcile(ns)]), ns);
      forall i | 0 <= i < |cr.users| :: FreshAt(env, first, cr.users[i], Pass(env, ns, first).w.n)
    ensures OnlyReads(WorldOf(Run(env, START, events + [Reconcile(ns)]), ns),
                      WorldOf(Run(env, START, events + [Reconcile(ns), Reconcile(ns)]), ns))
  {
    StartIsGood(env);
    RunKeepsSystem(env, START, events);
    var sys := Run(env, START, events);
    assert NamespaceInv(env, sys, ns);
    RunSplit(env, START, events, [Reconcile(ns)]);
    RunSplit(env, START, events, [Reconcile(ns), Reconcile(ns)]);
    var next := RunReconcile(env, sys, ns);
    assert Run(env, sys, [Reconcile(ns)]) == next;
    assert [Reconcile(ns), Reconcile(ns)][1..] == [Reconcile(ns)];
    assert Run(env, next, [Reconcile(ns)]) == RunReconcile(env, next, ns);
    assert Run(env, sys, [Reconcile(ns), Reconcile(ns)]) == RunReconcile(env, next, ns);
    assert WorldOf(next, ns) == Pass(env, ns, WorldOf(sys, ns)).w;
    SecondPassIsQuiet(env, ns, WorldOf(sys, ns), At(sys, ns).exempt, cr);
  }

  lemma {:induction false} RunSplit(env: Env, sys: System, a: seq<Event>, b: seq<Event>)
    ensures Run(env, sys, a + b) == Run(env, Run(env, sys, a), b)
    decreases |a|
  {
    if a == [] {
      assert a + b == b;
    } else {
      RunSplit(env, Apply(env, sys, a[0]), a[1..], b);
      assert (a + b)[1..] == a[1..] + b;
    }
  }

  /** Agreement: in every run, the issued token and argocd-secret name the same token, with the same
      times, exactly when the latest issue was not torn; and a timer that is running after a
      completed issue is due no earlier than the stored expiry. */
  lemma TokensAgreeUnlessTorn(env: Env, events: seq<Event>, ns: string, v: string)
    requires Sane(env) && GoodEvents(events) && '/' !in ns
    ensures var w := WorldOf(Run(env, START, events), ns);
      && (HasSecret(w.store, v) && HasEntry(w.store, v) ==>
            v in w.ledger && (Agrees(TheSecret(w.store, v), TheEntry(w.store, v)) <==> !w.ledger[v].Torn?))
      && (HasSecret(w.store, v) ==> GoodSecret(env, TheSecret(w.store, v), v, w.n))
      && UserDue(env, ns, w, v)
  {
    StartIsGood(env);
    RunKeepsSystem(env, START, events);
    var sys := Run(env, START, events);
    assert NamespaceInv(env, sys, ns) && UserCore(env, ns, WorldOf(sys, ns), At(sys, ns).exempt, v);
  }

  /** Did the secret, or the entry, get a token drawn at or after call `n`? */
  predicate NewSecret(s: Store, user: string, n: nat) { HasSecret(s, user) && n <= TheSecret(s, user).token.id }

  predicate NewEntry(s: Store, user: string, n: nat) { HasEntry(s, user) && n <= TheEntry(s, user).id }

  /** Timers: after every run, the un-stopped timers are exactly the values of the timer map, so a
      callback that passes its `stopped` check is its key's current timer. */
  lemma LiveTimersAreTheMap(env: Env, events: seq<Event>, i: nat)
    requires Sane(env) && GoodEvents(events)
    requires i < |Run(env, START, events).timers.cells|
    ensures var t := Run(env, START, events).timers;
      i !in t.stopped <==> KeyOf(t.cells[i]) in t.byKey && t.byKey[KeyOf(t.cells[i])] == i
  {
    StartIsGood(env);
    RunKeepsSystem(env, START, events);
  }

  /** Namespace cleanup stops exactly the timers of that namespace and removes exactly their keys. */
  lemma CleanupStopsExactly(env: Env, events: seq<Event>, ns: string, i: nat)
    requires Sane(env) && GoodEvents(events) && '/' !in ns
    requires i < |Run(env, START, events).timers.cells|
    ensures var t := Run(env, START, events).timers; var t' := StopNamespace(t, ns);
      && (i in t'.stopped <==> i in t.stopped || t.cells[i].namespace == ns)
      && (KeyOf(t.cells[i]) in t'.byKey <==> KeyOf(t.cells[i]) in t.byKey && t.cells[i].namespace != ns)
  {
    StartIsGood(env);
    RunKeepsSystem(env, START, events);
    var t := Run(env, START, events).timers;
    var key := KeyOf(t.cells[i]);
    TimerKeyPrefix(ns, t.cells[i].namespace, t.cells[i].user);
    if i in StopNamespace(t, ns).stopped && i !in t.stopped {
      var k :| k in t.byKey && HasPrefix(k, ns + "/") && t.byKey[k] == i;
      assert k == key;
    }
  }

  /** A timer stopped by namespace cleanup never brings about a pass again: whatever happens later,
      its callback changes nothing. */
  lemma StoppedTimerIsDead(env: Env, events: seq<Event>, ns: string, later: seq<Event>, i: nat)
    requires Sane(env) && GoodEvents(events) && GoodEvents(later) && '/' !in ns
    requires i < |Run(env, START, events).timers.cells|
    requires Run(env, START, events).timers.cells[i].namespace == ns
    ensures var sys := Run(env, START, events + [CleanupTimers(ns)] + later);
      Apply(env, sys, Callback(i)) == sys
  {
    StartIsGood(env);
    var sys := Run(env, START, events);
    RunKeepsSystem(env, START, events);
    CleanupStopsExactly(env, events, ns, i);
    RunSplit(env, START, events, [CleanupTimers(ns)]);
    RunSplit(env, START, events + [CleanupTimers(ns)], later);
    var mid := Apply(env, sys, CleanupTimers(ns));
    assert Run(env, sys, [CleanupTimers(ns)]) == mid;
    ApplyKeepsSystem(env, sys, CleanupTimers(ns));
    RunKeepsSystem(env, mid, later);
  }

  /** An un-stopped timer that fires leads, once its goroutine runs, to a pass over its own namespace. */
  lemma FiredTimerReconciles(env: Env, sys: System, i: nat)
    requires CanFire(env, sys, i)
    ensures Run(env, sys, [Callback(i), Goroutine(|sys.spawned|)]) ==
      RunReconcile(env, sys.(fired := sys.fired + {i}), sys.timers.cells[i].namespace)
  {
    var a := Apply(env, sys, Callback(i));
    assert a.spawned[..|sys.spawned|] + a.spawned[|sys.spawned| + 1..] == sys.spawned;
    assert a.(spawned := sys.spawned) == sys.(fired := sys.fired + {i});
    assert [Callback(i), Goroutine(|sys.spawned|)][1..] == [Goroutine(|sys.spawned|)];
    assert Run(env, a, [Goroutine(|sys.spawned|)]) == Apply(env, a, Goroutine(|sys.spawned|));
  }
}
