/** A whole local-users pass: what it keeps when calls fail, and what it establishes when it
    succeeds. */
module LocalUserPass {
  import opened Platform
  import opened LocalUserNames
  import opened LocalUsers
  import opened LocalUserInvariants
  import opened LocalUserSteps

  /** `exempt` accounts for every apiKey that this CR's extraConfig gives. */
  ghost predicate Covers(exempt: set<string>, cr: CR)
  {
    forall v :: ExtraApiKey(cr.extraConfig, v) ==> v in exempt
  }

  ghost predicate DistinctNames(users: seq<UserSpec>)
  {
    forall i, j | 0 <= i < j < |users| :: users[i].name != users[j].name
  }

  /** What the CR asks for one user: a secret and an entry exactly when the user is enabled and has
      apiKey, with the normalised settings; a timer when the token is to be renewed; no timer when
      the user is off, not renewed, or its lifetime is spelled "" or "0". */
  ghost predicate Settled(env: Env, ns: string, w: World, keep: bool, u: UserSpec)
  {
    var plan := MakePlan(env, u);
    && plan.Some?
    && (HasSecret(w.store, u.name) <==> WantsToken(u))
    && (WantsToken(u) ==>
          && HasEntry(w.store, u.name)
          && TheSecret(w.store, u.name).lifetime == plan.value.lifetime
          && TheSecret(w.store, u.name).autoRenew == AutoRenewText(Flag(u.autoRenew))
          && (Flag(u.autoRenew) && plan.value.duration > 0 ==> TimerKey(ns, u.name) in w.timers.byKey))
    && (!WantsToken(u) && !keep ==> !HasEntry(w.store, u.name))
    && (MustStop(u) ==> TimerKey(ns, u.name) !in w.timers.byKey)
  }

  /** The user's token at `w` has run out although it is to be renewed. */
  ghost predicate Overdue(env: Env, w: World, u: UserSpec)
  {
    && WantsToken(u) && Flag(u.autoRenew) && HasSecret(w.store, u.name)
    && var e := TheSecret(w.store, u.name).expAt;
       e.Some? && e.value != 0 && env.clock(w.n) > e.value * SECOND
  }

  /** The user got a token it did not have at `w`, and a timer that did not exist at `w`. */
  ghost predicate Renewed(env: Env, ns: string, w: World, w': World, u: UserSpec)
  {
    && HasSecret(w'.store, u.name) && w.n <= TheSecret(w'.store, u.name).token.id
    && HasEntry(w'.store, u.name) && TheEntry(w'.store, u.name).id == TheSecret(w'.store, u.name).token.id
    && (MakePlan(env, u).Some? && MakePlan(env, u).value.duration > 0 ==>
          TimerKey(ns, u.name) in w'.timers.byKey && |w.timers.cells| <= w'.timers.byKey[TimerKey(ns, u.name)])
  }

  // ---------- One user ----------

  lemma WantedUserKeeps(env: Env, ns: string, w: World, exempt: set<string>, u: UserSpec, p: Plan)
    requires Sane(env) && UserInv(env, ns, w, exempt, u.name) && WantsToken(u) && MakePlan(env, u) == Some(p)
    requires MustStop(u) ==> TimerKey(ns, u.name) !in w.timers.byKey
    ensures var s := if !HasSecret(w.store, u.name) then IssueAndSchedule(env, ns, w, u.name, p)
                     else KeepOrRenew(env, ns, w, u.name, p, TheSecret(w.store, u.name));
      && UserInv(env, ns, s.w, exempt, u.name) && OnlyUser(ns, w, s.w, u.name)
      && (s.ok ==>
            && HasSecret(s.w.store, u.name) && HasEntry(s.w.store, u.name)
            && TheSecret(s.w.store, u.name).lifetime == p.lifetime
            && TheSecret(s.w.store, u.name).autoRenew == AutoRenewText(p.autoRenew)
            && (p.autoRenew && p.duration > 0 ==> TimerKey(ns, u.name) in s.w.timers.byKey)
            && (!(p.autoRenew && p.duration > 0) ==> s.w.timers == w.timers))
      && (s.ok && Overdue(env, w, u) ==> Renewed(env, ns, w, s.w, u))
  {
    MakePlanIsGood(env, u);
    var d;
    if !HasSecret(w.store, u.name) {
      d := IssueAndScheduleKeeps(env, ns, w, exempt, u.name, p);
    } else {
      d := KeepOrRenewKeeps(env, ns, w, exempt, u.name, p);
    }
  }

  /** The spellings that stop a timer mean a token without expiry. */
  lemma StoppedMeansNoRenewal(env: Env, u: UserSpec)
    requires Sane(env) && MustStop(u) && WantsToken(u) && MakePlan(env, u).Some?
    ensures MakePlan(env, u).value.duration == 0 || !MakePlan(env, u).value.autoRenew
  {
  }

  lemma HandleUserKeeps(env: Env, ns: string, w: World, exempt: set<string>, keep: bool, u: UserSpec, p: Plan)
    requires Sane(env) && UserInv(env, ns, w, exempt, u.name) && (keep ==> u.name in exempt)
    requires MakePlan(env, u) == Some(p)
    requires MustStop(u) ==> TimerKey(ns, u.name) !in w.timers.byKey
    ensures var s := HandleUser(env, ns, w, keep, u, p);
      && UserInv(env, ns, s.w, exempt, u.name) && OnlyUser(ns, w, s.w, u.name)
      && (s.ok ==> Settled(env, ns, s.w, keep, u))
      && (s.ok && Overdue(env, w, u) ==> Renewed(env, ns, w, s.w, u))
      && (s.ok && p.duration == 0 ==> s.w.timers == w.timers)
  {
    if WantsToken(u) {
      WantedUserKeeps(env, ns, w, exempt, u, p);
      if MustStop(u) { StoppedMeansNoRenewal(env, u); }
    } else {
      CleanupUserKeeps(env, ns, w, exempt, keep, u.name,
                       if HasSecret(w.store, u.name) then Some(SecretName(u.name)) else None);
    }
  }

  lemma ReconcileUserKeeps(env: Env, ns: string, w: World, exempt: set<string>, keep: bool, u: UserSpec)
    requires Sane(env) && UserInv(env, ns, w, exempt, u.name) && (keep ==> u.name in exempt)
    ensures var s := ReconcileUser(env, ns, w, keep, u);
      && UserInv(env, ns, s.w, exempt, u.name) && OnlyUser(ns, w, s.w, u.name)
      && (s.ok ==> Settled(env, ns, s.w, keep, u))
      && (s.ok && Overdue(env, w, u) ==> Renewed(env, ns, w, s.w, u))
      && (s.ok && !MustStop(u) && MakePlan(env, u).value.duration == 0 ==> s.w.timers == w.timers)
  {
    StopIfNeededKeeps(env, ns, w, exempt, u);
    var w0 := StopIfNeeded(ns, w, u);
    TickKeeps(env, ns, w0, exempt, u.name);
    var w1 := Tick(w0);
    OnlyUserTrans(ns, w, w0, w1, u.name);
    if MakePlan(env, u).Some? && Answered(env, w0) {
      var s := HandleUser(env, ns, w1, keep, u, MakePlan(env, u).value);
      HandleUserKeeps(env, ns, w1, exempt, keep, u, MakePlan(env, u).value);
      OnlyUserTrans(ns, w, w1, s.w, u.name);
      assert env.clock(w.n) <= env.clock(w1.n);
    }
  }

  // ---------- All declared users ----------

  /** Keys of other namespaces map to the same timers. */
  ghost predicate SameElsewhere(ns: string, m: map<string, nat>, m': map<string, nat>)
  {
    forall k | !HasPrefix(k, ns + "/") :: (k in m' <==> k in m) && (k in m ==> m'[k] == m[k])
  }

  lemma UserStaysHome(ns: string, m: map<string, nat>, m': map<string, nat>, user: string)
    requires SameExcept(m, m', TimerKey(ns, user))
    ensures SameElsewhere(ns, m, m')
  {
    assert TimerKey(ns, user)[..|ns| + 1] == ns + "/";
  }

  /** Time passes, the CR stays, timers are only added or stopped, and only those of `ns`. */
  ghost predicate Forward(ns: string, w: World, w': World)
  {
    && w.n <= w'.n && w.writes <= w'.writes && w'.store.cr == w.store.cr
    && TimersGrow(w.timers, w'.timers) && NewCellsIn(ns, w.timers, w'.timers)
    && SameElsewhere(ns, w.timers.byKey, w'.timers.byKey)
  }

  lemma ForwardTrans(ns: string, a: World, b: World, c: World)
    requires Forward(ns, a, b) && Forward(ns, b, c)
    ensures Forward(ns, a, c)
  {
  }

  lemma SettledIsStable(env: Env, ns: string, a: World, w: World, w': World, keep: bool, u: UserSpec)
    requires SameUser(ns, w, w', u.name)
    ensures Settled(env, ns, w, keep, u) ==> Settled(env, ns, w', keep, u)
    ensures Renewed(env, ns, a, w, u) ==> Renewed(env, ns, a, w', u)
    ensures w.n == w'.n && Overdue(env, w, u) ==> Overdue(env, w', u)
  {
  }

  lemma OverdueLater(env: Env, ns: string, w: World, w': World, u: UserSpec)
    requires Sane(env) && Forward(ns, w, w') && SameUser(ns, w, w', u.name) && Overdue(env, w, u)
    ensures Overdue(env, w', u)
  {
  }

  lemma RenewedEarlier(env: Env, ns: string, a: World, w: World, w': World, u: UserSpec)
    requires Forward(ns, a, w) && Renewed(env, ns, w, w', u)
    ensures Renewed(env, ns, a, w', u)
  {
  }

  ghost predicate NotAmong(users: seq<UserSpec>, v: string)
  {
    forall i | 0 <= i < |users| :: users[i].name != v
  }

  /** The outcome of the loop over `users` for the user at index `i`. */
  ghost predicate LoopResult(env: Env, ns: string, w: World, s: Step, cr: CR, u: UserSpec)
  {
    if u.name in LegacyUsers(cr.extraConfig) then SameUser(ns, w, s.w, u.name)
    else s.ok ==>
      && Settled(env, ns, s.w, ExtraApiKey(cr.extraConfig, u.name), u)
      && (Overdue(env, w, u) ==> Renewed(env, ns, w, s.w, u))
  }

  /** Reconciling the user at the head of the list. */
  lemma HeadKeeps(env: Env, ns: string, w: World, exempt: set<string>, cr: CR, u: UserSpec)
    requires Sane(env) && WorldInv(env, ns, w, exempt) && Covers(exempt, cr)
    requires u.name !in LegacyUsers(cr.extraConfig)
    ensures var s := ReconcileUser(env, ns, w, ExtraApiKey(cr.extraConfig, u.name), u);
      && WorldInv(env, ns, s.w, exempt) && Forward(ns, w, s.w)
      && (forall v | v != u.name :: SameUser(ns, w, s.w, v))
      && LoopResult(env, ns, w, s, cr, u)
  {
    var keep := ExtraApiKey(cr.extraConfig, u.name);
    var s := ReconcileUser(env, ns, w, keep, u);
    assert UserCore(env, ns, w, exempt, u.name) && UserDue(env, ns, w, u.name);
    ReconcileUserKeeps(env, ns, w, exempt, keep, u);
    UserStaysHome(ns, w.timers.byKey, s.w.timers.byKey, u.name);
    StepKeepsWorld(env, ns, w, s.w, exempt, u.name);
    forall v | v != u.name ensures SameUser(ns, w, s.w, v) { OthersUntouched(ns, w, s.w, u.name, v); }
  }

  lemma {:induction false} ReconcileUsersKeeps(
      env: Env, ns: string, w: World, exempt: set<string>, cr: CR, users: seq<UserSpec>)
    requires Sane(env) && WorldInv(env, ns, w, exempt) && Covers(exempt, cr)
    ensures var s := ReconcileUsers(env, ns, w, cr, users);
      && WorldInv(env, ns, s.w, exempt) && Forward(ns, w, s.w)
      && (forall v | NotAmong(users, v) :: SameUser(ns, w, s.w, v))
      && (DistinctNames(users) ==> forall i | 0 <= i < |users| :: LoopResult(env, ns, w, s, cr, users[i]))
    decreases |users|
  {
    if users != [] {
      var u := users[0];
      var s := ReconcileUsers(env, ns, w, cr, users);
      if u.name in LegacyUsers(cr.extraConfig) {
        ReconcileUsersKeeps(env, ns, w, exempt, cr, users[1..]);
        LoopStep(env, ns, w, w, s, cr, users);
      } else {
        var t := ReconcileUser(env, ns, w, ExtraApiKey(cr.extraConfig, u.name), u);
        HeadKeeps(env, ns, w, exempt, cr, u);
        if t.ok {
          ReconcileUsersKeeps(env, ns, t.w, exempt, cr, users[1..]);
          LoopStep(env, ns, w, t.w, s, cr, users);
          ForwardTrans(ns, w, t.w, s.w);
        } else {
          LoopFailed(env, ns, w, t, cr, users);
        }
      }
    }
  }

  lemma LoopFailed(env: Env, ns: string, w: World, s: Step, cr: CR, users: seq<UserSpec>)
    requires users != [] && !s.ok
    requires forall v | v != users[0].name :: SameUser(ns, w, s.w, v)
    requires LoopResult(env, ns, w, s, cr, users[0])
    ensures forall v | NotAmong(users, v) :: SameUser(ns, w, s.w, v)
    ensures DistinctNames(users) ==> forall i | 0 <= i < |users| :: LoopResult(env, ns, w, s, cr, users[i])
  {
    forall v | NotAmong(users, v) ensures SameUser(ns, w, s.w, v) {
      assert users[0].name != v;
    }
    forall i | 0 <= i < |users| && DistinctNames(users) ensures LoopResult(env, ns, w, s, cr, users[i]) {
      assert i != 0 ==> users[i].name != users[0].name;
    }
  }

  /** One turn of the loop: the head user is done at `m`, the rest of the loop goes from `m`. */
  lemma LoopStep(env: Env, ns: string, w: World, m: World, s: Step, cr: CR, users: seq<UserSpec>)
    requires Sane(env) && users != []
    requires Forward(ns, w, m) && Forward(ns, m, s.w)
    requires forall v | v != users[0].name :: SameUser(ns, w, m, v)
    requires forall v | NotAmong(users[1..], v) :: SameUser(ns, m, s.w, v)
    requires LoopResult(env, ns, w, Step(m, true), cr, users[0])
    requires DistinctNames(users[1..]) ==>
               forall i | 0 <= i < |users| - 1 :: LoopResult(env, ns, m, s, cr, users[1..][i])
    ensures forall v | NotAmong(users, v) :: SameUser(ns, w, s.w, v)
    ensures DistinctNames(users) ==> forall i | 0 <= i < |users| :: LoopResult(env, ns, w, s, cr, users[i])
  {
    forall v | NotAmong(users, v) ensures SameUser(ns, w, s.w, v) {
      assert NotAmong(users[1..], v) && users[0].name != v;
      assert SameUser(ns, w, m, v) && SameUser(ns, m, s.w, v);
    }
    forall i | 0 <= i < |users| && DistinctNames(users) ensures LoopResult(env, ns, w, s, cr, users[i]) {
      var u := users[i];
      if i == 0 {
        assert NotAmong(users[1..], u.name);
        SettledIsStable(env, ns, w, m, s.w, ExtraApiKey(cr.extraConfig, u.name), u);
      } else {
        assert u == users[1..][i - 1];
        assert LoopResult(env, ns, m, s, cr, users[1..][i - 1]);
        assert SameUser(ns, w, m, u.name);
        if Overdue(env, w, u) { OverdueLater(env, ns, w, m, u); }
        if Renewed(env, ns, m, s.w, u) { RenewedEarlier(env, ns, w, m, s.w, u); }
      }
    }
  }

  // ---------- Cleanup of undeclared users ----------

  lemma CleanupListedKeeps(
      env: Env, ns: string, w: World, exempt: set<string>, cr: CR, name: string, secret: UserSecret)
    requires Sane(env) && WorldInv(env, ns, w, exempt) && Covers(exempt, cr) && name == SecretName(secret.user)
    ensures var s := CleanupListed(env, ns, w, cr, name, secret);
      && WorldInv(env, ns, s.w, exempt) && Forward(ns, w, s.w)
      && s.w.store.secrets.Keys <= w.store.secrets.Keys
      && (forall v | Declared(cr, v) :: SameUser(ns, w, s.w, v))
      && (s.ok && !Declared(cr, secret.user) ==> name !in s.w.store.secrets)
  {
    var v := secret.user;
    var s := CleanupListed(env, ns, w, cr, name, secret);
    if !Declared(cr, v) {
      var w0 := w.(timers := StopTimer(w.timers, TimerKey(ns, v)));
      StopTimerKeeps(w.timers, TimerKey(ns, v));
      assert UserCore(env, ns, w, exempt, v) && UserDue(env, ns, w, v);
      assert UserInv(env, ns, w0, exempt, v) && OnlyUser(ns, w, w0, v);
      CleanupUserKeeps(env, ns, w0, exempt, ExtraApiKey(cr.extraConfig, v), v, Some(name));
      OnlyUserTrans(ns, w, w0, s.w, v);
      StepKeepsWorld(env, ns, w, s.w, exempt, v);
      UserStaysHome(ns, w.timers.byKey, s.w.timers.byKey, v);
      CleanupNeverAdds(env, w0, ExtraApiKey(cr.extraConfig, v), v, Some(name));
      forall x | Declared(cr, x) ensures SameUser(ns, w, s.w, x) { OthersUntouched(ns, w, s.w, v, x); }
    }
  }

  lemma CleanupNeverAdds(env: Env, w: World, keep: bool, user: string, secret: Option<string>)
    ensures CleanupUser(env, w, keep, user, secret).w.store.secrets.Keys <= w.store.secrets.Keys
  {
  }

  lemma {:induction false} CleanupItemsKeeps(env: Env, ns: string, w: World, exempt: set<string>, cr: CR,
                                             items: seq<string>, listed: map<string, UserSecret>)
    requires Sane(env) && WorldInv(env, ns, w, exempt) && Covers(exempt, cr)
    requires forall x | x in listed :: x == SecretName(listed[x].user)
    ensures var s := CleanupItems(env, ns, w, cr, items, listed);
      && WorldInv(env, ns, s.w, exempt) && Forward(ns, w, s.w)
      && s.w.store.secrets.Keys <= w.store.secrets.Keys
      && (forall v | Declared(cr, v) :: SameUser(ns, w, s.w, v))
      && (s.ok ==> forall x | x in items && x in listed && !Declared(cr, listed[x].user) :: x !in s.w.store.secrets)
    decreases |items|
  {
    if items != [] {
      if items[0] !in listed {
        CleanupItemsKeeps(env, ns, w, exempt, cr, items[1..], listed);
      } else {
        var t := CleanupListed(env, ns, w, cr, items[0], listed[items[0]]);
        CleanupListedKeeps(env, ns, w, exempt, cr, items[0], listed[items[0]]);
        if t.ok {
          CleanupItemsKeeps(env, ns, t.w, exempt, cr, items[1..], listed);
          ForwardTrans(ns, w, t.w, CleanupItems(env, ns, w, cr, items, listed).w);
        }
      }
    }
  }

  lemma CleanupUsersKeeps(env: Env, ns: string, w: World, exempt: set<string>, cr: CR)
    requires Sane(env) && WorldInv(env, ns, w, exempt) && Covers(exempt, cr)
    ensures var s := CleanupUsers(env, ns, w, cr);
      && WorldInv(env, ns, s.w, exempt) && Forward(ns, w, s.w)
      && (forall v | Declared(cr, v) :: SameUser(ns, w, s.w, v))
      && (s.ok ==> forall v | !Declared(cr, v) :: !HasSecret(s.w.store, v))
  {
    var w1 := Tick(w);
    TickKeepsWorld(env, ns, w, exempt);
    var items := env.listing(w.n, w.store.secrets.Keys);
    CleanupItemsKeeps(env, ns, w1, exempt, cr, items, w.store.secrets);
    var s := CleanupUsers(env, ns, w, cr);
    forall v | s.ok && !Declared(cr, v) ensures !HasSecret(s.w.store, v) {
      if HasSecret(w.store, v) {
        var x := SecretName(v);
        assert x in items;
        SecretNameInjective(v, w.store.secrets[x].user);
      }
    }
  }

  lemma TickKeepsWorld(env: Env, ns: string, w: World, exempt: set<string>)
    requires WorldInv(env, ns, w, exempt)
    ensures WorldInv(env, ns, Tick(w), exempt) && Forward(ns, w, Tick(w))
    ensures forall v :: SameUser(ns, w, Tick(w), v)
  {
    forall v ensures UserCore(env, ns, Tick(w), exempt, v) && UserDue(env, ns, Tick(w), v) {
      assert UserCore(env, ns, w, exempt, v) && UserDue(env, ns, w, v);
    }
  }

  // ---------- The theorems about a pass ----------

  /** Whatever calls fail, a pass keeps the invariant, keeps every timer it finds, and leaves the
      users that extraConfig declares alone. */
  lemma PassKeepsWorld(env: Env, ns: string, w: World, exempt: set<string>)
    requires Sane(env) && WorldInv(env, ns, w, exempt)
    requires w.store.cr.Some? ==> Covers(exempt, w.store.cr.value)
    ensures var s := Pass(env, ns, w);
      WorldInv(env, ns, s.w, exempt) && Forward(ns, w, s.w)
  {
    TickKeepsWorld(env, ns, w, exempt);
    if w.store.cr.Some? {
      var cr := w.store.cr.value;
      ReconcileUsersKeeps(env, ns, Tick(w), exempt, cr, cr.users);
      var t := ReconcileUsers(env, ns, Tick(w), cr, cr.users);
      CleanupUsersKeeps(env, ns, t.w, exempt, cr);
    }
  }

  /** One pass that reports no error settles every declared user, leaves an undeclared user neither
      secret nor timer nor, unless extraConfig once gave it apiKey, token entry, and replaces every
      token that had run out. */
  lemma PassConverges(env: Env, ns: string, w: World, exempt: set<string>, cr: CR)
    requires Sane(env) && WorldInv(env, ns, w, exempt)
    requires w.store.cr == Some(cr) && Covers(exempt, cr) && DistinctNames(cr.users)
    requires Pass(env, ns, w).ok
    ensures var w' := Pass(env, ns, w).w;
      && (forall i | 0 <= i < |cr.users| && cr.users[i].name !in LegacyUsers(cr.extraConfig) ::
            && Settled(env, ns, w', ExtraApiKey(cr.extraConfig, cr.users[i].name), cr.users[i])
            && (Overdue(env, w, cr.users[i]) ==> Renewed(env, ns, w, w', cr.users[i])))
      && (forall i | 0 <= i < |cr.users| && cr.users[i].name in LegacyUsers(cr.extraConfig) ::
            SameUser(ns, w, w', cr.users[i].name))
      && (forall v | !Declared(cr, v) ::
            && !HasSecret(w'.store, v) && TimerKey(ns, v) !in w'.timers.byKey
            && (v !in exempt ==> !HasEntry(w'.store, v)))
  {
    var w1 := Tick(w);
    TickKeepsWorld(env, ns, w, exempt);
    ReconcileUsersKeeps(env, ns, w1, exempt, cr, cr.users);
    var t := ReconcileUsers(env, ns, w1, cr, cr.users);
    CleanupUsersKeeps(env, ns, t.w, exempt, cr);
    var w' := Pass(env, ns, w).w;
    forall i | 0 <= i < |cr.users| ensures LoopResult(env, ns, w, Step(w', true), cr, cr.users[i]) {
      var u := cr.users[i];
      assert LoopResult(env, ns, w1, t, cr, u);
      assert Declared(cr, u.name) && SameUser(ns, t.w, w', u.name);
      SettledIsStable(env, ns, w1, t.w, w', ExtraApiKey(cr.extraConfig, u.name), u);
      if Overdue(env, w, u) { OverdueLater(env, ns, w, w1, u); }
      if Renewed(env, ns, w1, w', u) { RenewedEarlier(env, ns, w, w1, w', u); }
    }
    forall v | !Declared(cr, v)
      ensures !HasSecret(w'.store, v) && TimerKey(ns, v) !in w'.timers.byKey
        && (v !in exempt ==> !HasEntry(w'.store, v))
    {
      assert UserCore(env, ns, w', exempt, v);
    }
  }

  /** For a name without a dot other than "enabled" the entry is exact: present when the user is
      enabled with apiKey, absent otherwise. */
  lemma SettledEntryIsExact(env: Env, ns: string, w: World, cr: CR, u: UserSpec)
    requires Settled(env, ns, w, ExtraApiKey(cr.extraConfig, u.name), u)
    requires '.' !in u.name && u.name != "enabled" && u.name !in LegacyUsers(cr.extraConfig)
    ensures HasEntry(w.store, u.name) <==> WantsToken(u)
  {
    NonLegacyHasNoExtraApiKey(cr.extraConfig, u.name);
  }
}
