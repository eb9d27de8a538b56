/** What every step of the token protocol keeps, whatever API calls fail. */
module LocalUserInvariants {
  import opened Platform
  import opened LocalUserNames
  import opened LocalUsers

  // ---------- Timers ----------

  function KeyOf(c: Cell): (r: string) { TimerKey(c.namespace, c.user) }

  /** The un-stopped timers are exactly the values of the timer map, one per key. */
  ghost predicate TimersOK(t: Timers)
  {
    && (forall k | k in t.byKey :: t.byKey[k] < |t.cells| && KeyOf(t.cells[t.byKey[k]]) == k)
    && (forall i: nat | i < |t.cells| ::
          i !in t.stopped <==> (KeyOf(t.cells[i]) in t.byKey && t.byKey[KeyOf(t.cells[i])] == i))
    && (forall i | i in t.stopped :: i < |t.cells|)
  }

  /** Timers are never forgotten and never un-stopped. */
  ghost predicate TimersGrow(t: Timers, t': Timers)
  {
    t.cells <= t'.cells && t.stopped <= t'.stopped
  }

  /** Every timer made on the way from `t` to `t'` is one of namespace `ns`. */
  ghost predicate NewCellsIn(ns: string, t: Timers, t': Timers)
  {
    forall i: nat | |t.cells| <= i < |t'.cells| :: t'.cells[i].namespace == ns
  }

  ghost predicate SameExcept<K(!new), V>(m: map<K, V>, m': map<K, V>, k: K)
  {
    forall x | x != k :: (x in m' <==> x in m) && (x in m ==> m'[x] == m[x])
  }

  lemma StopTimerKeeps(t: Timers, key: string)
    requires TimersOK(t)
    ensures var t' := StopTimer(t, key);
      && TimersOK(t') && TimersGrow(t, t') && key !in t'.byKey
      && t'.cells == t.cells && SameExcept(t.byKey, t'.byKey, key)
  {
  }

  lemma StartTimerKeeps(t: Timers, ns: string, user: string, deadline: int)
    requires TimersOK(t)
    ensures var t' := StartTimer(t, ns, user, deadline); var key := TimerKey(ns, user);
      && TimersOK(t') && TimersGrow(t, t') && SameExcept(t.byKey, t'.byKey, key)
      && key in t'.byKey && t'.byKey[key] == |t.cells|
      && t'.cells == t.cells + [Cell(ns, user, deadline)]
  {
    StopTimerKeeps(t, TimerKey(ns, user));
  }

  // ---------- One user ----------

  /** A plan made by the operator: the lifetime text "0h" stands for no expiry and nothing else, and every
      other text for the time it says. */
  predicate GoodPlan(env: Env, p: Plan)
  {
    && p.duration >= 0 && (p.duration == 0 <==> p.lifetime == "0h")
    && (p.duration > 0 ==> env.parseDuration(p.lifetime) == Some(p.duration))
  }

  lemma MakePlanIsGood(env: Env, u: UserSpec)
    requires Sane(env)
    ensures MakePlan(env, u).Some? ==> GoodPlan(env, MakePlan(env, u).value)
  {
  }

  /** The secret of a user: the expiry is the stored lifetime after the moment that the token says it was
      issued at, which is the clock right after its id was drawn, and the token claims the same. */
  predicate GoodSecret(env: Env, s: UserSecret, user: string, n: nat)
  {
    && s.user == user
    && s.expAt.Some? && s.expAt.value >= 0
    && (s.expAt.value == 0 <==> s.lifetime == "0h")
    && s.token.id < n
    && s.token.issuer == "argocd" && s.token.subject == user + ":apiKey"
    && s.token.notBefore == s.token.issuedAt == UnixSeconds(env.clock(s.token.id + 1))
    && (s.lifetime != "0h" ==>
          && env.parseDuration(s.lifetime).Some?
          && s.expAt.value == UnixSeconds(env.clock(s.token.id + 1) + env.parseDuration(s.lifetime).value))
    && s.token.expires == (if s.expAt.value == 0 then None else s.expAt)
  }

  /** The issued token, the user secret and argocd-secret tell the same story. */
  predicate Agrees(s: UserSecret, e: Entry)
  {
    s.token.id == e.id && s.token.issuedAt == e.issuedAt && s.expAt == Some(e.expiresAt)
  }

  /** The secret, the entry and the timer of one user. `exempt` holds the users to whom extraConfig
      has at some time given apiKey: their entries are kept when their secrets go. */
  ghost predicate UserCore(env: Env, ns: string, w: World, exempt: set<string>, v: string)
  {
    && (HasSecret(w.store, v) ==> GoodSecret(env, TheSecret(w.store, v), v, w.n) && v in w.ledger)
    && (HasEntry(w.store, v) ==> TheEntry(w.store, v).id < w.n)
    && (HasEntry(w.store, v) && v !in exempt ==> HasSecret(w.store, v))
    && (TimerKey(ns, v) in w.timers.byKey ==> HasSecret(w.store, v))
    && (HasSecret(w.store, v) && HasEntry(w.store, v) ==>
          && (w.ledger[v].Torn? ==> TheSecret(w.store, v).token.id != TheEntry(w.store, v).id)
          && (!w.ledger[v].Torn? ==> Agrees(TheSecret(w.store, v), TheEntry(w.store, v))))
  }

  /** Calls `r` and `r + 1` read the clock to start a timer from the stored expiry: it is late by what passed
      between them. */
  predicate Rearmed(env: Env, expAt: int, deadline: int, r: nat)
  {
    deadline == expAt * SECOND + (env.clock(r + 1) - env.clock(r))
  }

  /** A timer is due when the stored token runs out, but for the time the operator took. Either it was started
      with the token: then it is late by what passed between call id + 1, which read the time of issue, and
      call id + 7, which started the timer, to the second. Or it was started from the stored expiry since. */
  ghost predicate DueOnTime(env: Env, id: nat, expAt: int, n: nat, deadline: int)
  {
    || expAt * SECOND <= deadline - (env.clock(id + 7) - env.clock(id + 1)) < (expAt + 1) * SECOND
    || exists r: nat :: id < r && r + 1 < n && Rearmed(env, expAt, deadline, r)
  }

  /** After a completed issue, the timer is due on time. */
  ghost predicate UserDue(env: Env, ns: string, w: World, v: string)
  {
    && HasSecret(w.store, v) && TheSecret(w.store, v).expAt.Some? && TheSecret(w.store, v).expAt.value != 0
    && v in w.ledger && w.ledger[v].Completed?
    && TimerKey(ns, v) in w.timers.byKey && w.timers.byKey[TimerKey(ns, v)] < |w.timers.cells|
    ==>
      var s, cell := TheSecret(w.store, v), w.timers.cells[w.timers.byKey[TimerKey(ns, v)]];
      DueOnTime(env, s.token.id, s.expAt.value, w.n, cell.deadline)
  }

  /** A secret is stored under the name of the user it holds. */
  ghost predicate NamesOK(s: Store)
  {
    forall x | x in s.secrets :: x == SecretName(s.secrets[x].user)
  }

  ghost predicate WorldInv(env: Env, ns: string, w: World, exempt: set<string>)
  {
    && TimersOK(w.timers)
    && NamesOK(w.store)
    && (forall v :: UserCore(env, ns, w, exempt, v) && UserDue(env, ns, w, v))
  }

  /** Everything `WorldInv` says about one user. */
  ghost predicate UserInv(env: Env, ns: string, w: World, exempt: set<string>, v: string)
  {
    TimersOK(w.timers) && NamesOK(w.store) && UserCore(env, ns, w, exempt, v) && UserDue(env, ns, w, v)
  }

  // ---------- Frames ----------

  ghost predicate ArgoFrame(a: Option<ArgoSecret>, a': Option<ArgoSecret>, key: string)
  {
    a.Some? == a'.Some? && (a.Some? ==>
      a.value.signingKey == a'.value.signingKey && SameExcept(a.value.accounts, a'.value.accounts, key))
  }

  /** Going from `w` to `w'` changed nothing that belongs to another user. */
  ghost predicate OnlyUser(ns: string, w: World, w': World, user: string)
  {
    && w.n <= w'.n && w.writes <= w'.writes
    && w'.store.cr == w.store.cr
    && SameExcept(w.store.secrets, w'.store.secrets, SecretName(user))
    && ArgoFrame(w.store.argocd, w'.store.argocd, TokenKey(user))
    && SameExcept(w.ledger, w'.ledger, user)
    && SameExcept(w.timers.byKey, w'.timers.byKey, TimerKey(ns, user))
    && TimersGrow(w.timers, w'.timers) && NewCellsIn(ns, w.timers, w'.timers)
  }

  /** Another user's secret, entry, timer and ledger line are untouched. */
  ghost predicate SameUser(ns: string, w: World, w': World, v: string)
  {
    && HasSecret(w'.store, v) == HasSecret(w.store, v)
    && (HasSecret(w.store, v) ==> TheSecret(w'.store, v) == TheSecret(w.store, v))
    && HasEntry(w'.store, v) == HasEntry(w.store, v)
    && (HasEntry(w.store, v) ==> TheEntry(w'.store, v) == TheEntry(w.store, v))
    && (v in w'.ledger <==> v in w.ledger) && (v in w.ledger ==> w'.ledger[v] == w.ledger[v])
    && var k := TimerKey(ns, v);
       && (k in w'.timers.byKey <==> k in w.timers.byKey)
       && (k in w.timers.byKey ==> w'.timers.byKey[k] == w.timers.byKey[k])
  }

  lemma OthersUntouched(ns: string, w: World, w': World, user: string, v: string)
    requires OnlyUser(ns, w, w', user) && v != user
    ensures SameUser(ns, w, w', v)
  {
    if SecretName(v) == SecretName(user) { SecretNameInjective(v, user); }
    if TokenKey(v) == TokenKey(user) { TokenKeyInjective(v, user); }
    if TimerKey(ns, v) == TimerKey(ns, user) { TimerKeyUserInjective(ns, v, user); }
  }

  /** A step that touches one user and keeps that user's invariant keeps them all. */
  lemma StepKeepsWorld(env: Env, ns: string, w: World, w': World, exempt: set<string>, user: string)
    requires WorldInv(env, ns, w, exempt)
    requires OnlyUser(ns, w, w', user) && UserInv(env, ns, w', exempt, user)
    ensures WorldInv(env, ns, w', exempt)
  {
    forall v ensures UserCore(env, ns, w', exempt, v) && UserDue(env, ns, w', v) {
      if v != user {
        OthersUntouched(ns, w, w', user, v);
        assert UserCore(env, ns, w, exempt, v) && UserDue(env, ns, w, v);
      }
    }
  }
}
