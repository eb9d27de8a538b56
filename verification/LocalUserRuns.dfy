/** Runs of the operator over many namespaces that share one timer map: CR edits, reconcile passes,
    timer callbacks, the goroutines they spawn, namespace cleanup and operator restarts, in any
    order and with any API failures. Each event happens while the local-users lock is held. */
module LocalUserRuns {
  import opened Platform
  import opened LocalUsers
  import opened LocalUserInvariants
  import opened LocalUserPass

  /** One namespace: its objects, and as history the issues of its users and the users that its CRs
      have given apiKey through extraConfig. */
  datatype Namespace = Namespace(store: Store, ledger: map<string, Issue>, exempt: set<string>)

  const EMPTY := Namespace(Store(None, map[], None), map[], {})

  /** `fired` holds the timers that have called back, `spawned` the namespaces of those whose goroutines
      have yet to run. */
  datatype System = System(
    namespaces: map<string, Namespace>, timers: Timers, fired: set<nat>, spawned: seq<string>, n: nat, writes: nat)

  const START := System(map[], Timers([], {}, map[]), {}, [], 0, 0)

  datatype Event =
    | EditCR(ns: string, cr: Option<CR>)
    | SetSigningKey(ns: string, key: int)
    | Reconcile(ns: string)
    | Callback(timer: nat)
    | Goroutine(index: nat)
    | CleanupTimers(ns: string)
    | Restart

  function At(sys: System, ns: string): (r: Namespace)
  {
    if ns in sys.namespaces then sys.namespaces[ns] else EMPTY
  }

  function WorldOf(sys: System, ns: string): (r: World)
  {
    World(At(sys, ns).store, sys.timers, At(sys, ns).ledger, sys.n, sys.writes)
  }

  /** The system after a pass over `ns` ended in world `w`. */
  function Absorb(sys: System, ns: string, w: World): (r: System)
  {
    sys.(namespaces := sys.namespaces[ns := At(sys, ns).(store := w.store, ledger := w.ledger)],
         timers := w.timers, n := w.n, writes := w.writes)
  }

  function RunReconcile(env: Env, sys: System, ns: string): (r: System)
  {
    Absorb(sys, ns, Pass(env, ns, WorldOf(sys, ns)).w)
  }

  /** cleanupNamespaceTokenTimers: stop and remove every timer whose key begins with "ns/". */
  function StopNamespace(t: Timers, ns: string): (r: Timers)
  {
    StopKeys(t, set k | k in t.byKey && HasPrefix(k, ns + "/"))
  }

  /** Stop and remove the timers of these keys. */
  function StopKeys(t: Timers, keys: set<string>): (r: Timers)
  {
    t.(stopped := t.stopped + (set k | k in keys && k in t.byKey :: t.byKey[k]), byKey := t.byKey - keys)
  }

  /** Stopping one more timer. */
  lemma StopOneMore(t: Timers, keys: set<string>, key: string)
    requires key in t.byKey && key !in keys
    ensures StopTimer(StopKeys(t, keys), key) == StopKeys(t, keys + {key})
  {
  }

  /** The history of apiKey declarations after the CR became `cr`. */
  function ExemptBy(cr: CR): (r: set<string>)
  {
    set k | k in cr.extraConfig && HasPrefix(k, "accounts.") && Contains(cr.extraConfig[k], "apiKey") ::
        k[|"accounts."|..]
  }

  predicate CanFire(env: Env, sys: System, i: nat)
  {
    && i < |sys.timers.cells| && i !in sys.timers.stopped && i !in sys.fired
    && env.clock(sys.n) >= sys.timers.cells[i].deadline
  }

  function Apply(env: Env, sys: System, e: Event): (r: System)
  {
    match e
    case EditCR(ns, cr) =>
      var cur := At(sys, ns);
      var exempt := if cr.Some? then cur.exempt + ExemptBy(cr.value) else cur.exempt;
      sys.(namespaces := sys.namespaces[ns := cur.(store := cur.store.(cr := cr), exempt := exempt)])
    case SetSigningKey(ns, key) =>
      var cur := At(sys, ns);
      var a := if cur.store.argocd.Some? then cur.store.argocd.value else ArgoSecret(None, map[]);
      sys.(namespaces := sys.namespaces[ns := cur.(store := cur.store.(argocd := Some(a.(signingKey := Some(key)))))])
    case Reconcile(ns) => RunReconcile(env, sys, ns)
    case Callback(i) =>
      // A timer calls back once, no earlier than its deadline. The callback checks its own `stopped` flag
      // and otherwise spawns a pass; the timer stays in the map.
      if CanFire(env, sys, i) then
        sys.(fired := sys.fired + {i}, spawned := sys.spawned + [sys.timers.cells[i].namespace])
      else sys
    case Goroutine(j) =>
      if j < |sys.spawned|
      then RunReconcile(env, sys.(spawned := sys.spawned[..j] + sys.spawned[j + 1..]), sys.spawned[j])
      else sys
    case CleanupTimers(ns) => sys.(timers := StopNamespace(sys.timers, ns))
    case Restart =>
      // A new process: the timers of the old one never call back again.
      sys.(timers := Timers(sys.timers.cells, sys.timers.stopped + sys.timers.byKey.Values, map[]), spawned := [])
  }

  function Run(env: Env, sys: System, events: seq<Event>): (r: System)
    decreases |events|
  {
    if events == [] then sys else Run(env, Apply(env, sys, events[0]), events[1..])
  }

  // ---------- The invariant ----------

  ghost predicate NamespaceInv(env: Env, sys: System, ns: string)
  {
    && WorldInv(env, ns, WorldOf(sys, ns), At(sys, ns).exempt)
    && (At(sys, ns).store.cr.Some? ==> Covers(At(sys, ns).exempt, At(sys, ns).store.cr.value))
  }

  ghost predicate SystemInv(env: Env, sys: System)
  {
    && TimersOK(sys.timers)
    && (forall ns | '/' !in ns :: NamespaceInv(env, sys, ns))
    && (forall i: nat | i < |sys.timers.cells| :: '/' !in sys.timers.cells[i].namespace)
    && (forall j: nat | j < |sys.spawned| :: '/' !in sys.spawned[j])
  }

  /** Kubernetes namespace names hold no '/'. */
  predicate NamesNamespace(e: Event)
  {
    match e
    case EditCR(ns, _) => '/' !in ns
    case SetSigningKey(ns, _) => '/' !in ns
    case Reconcile(ns) => '/' !in ns
    case CleanupTimers(ns) => '/' !in ns
    case _ => true
  }
}
