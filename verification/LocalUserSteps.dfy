/** Each step of a pass keeps the invariant of the user it works on and touches no other. */
module LocalUserSteps {
  import opened Platform
  import opened LocalUserNames
  import opened LocalUsers
  import opened LocalUserInvariants

  lemma OnlyUserTrans(ns: string, a: World, b: World, c: World, user: string)
    requires OnlyUser(ns, a, b, user) && OnlyUser(ns, b, c, user)
    ensures OnlyUser(ns, a, c, user)
  {
  }

  lemma StopIfNeededKeeps(env: Env, ns: string, w: World, exempt: set<string>, u: UserSpec)
    requires UserInv(env, ns, w, exempt, u.name)
    ensures var w' := StopIfNeeded(ns, w, u);
      && UserInv(env, ns, w', exempt, u.name) && OnlyUser(ns, w, w', u.name)
      && w'.store == w.store && w'.ledger == w.ledger && w'.n == w.n && w'.writes == w.writes
      && (MustStop(u) ==> TimerKey(ns, u.name) !in w'.timers.byKey)
      && (!MustStop(u) ==> w' == w)
  {
    StopTimerKeeps(w.timers, TimerKey(ns, u.name));
  }

  /** The secret of a freshly issued token. */
  lemma MadeSecretIsGood(env: Env, user: string, p: Plan, d: Draft, n: nat)
    requires Sane(env) && GoodPlan(env, p) && d.id < n && d.issuedAt == env.clock(d.id + 1)
    ensures GoodSecret(env, MakeSecret(user, p, d), user, n)
    ensures Agrees(MakeSecret(user, p, d), MakeEntry(p, d))
    ensures p.duration > 0 ==> 0 < ExpiresAt(d.issuedAt, p.duration)
  {
    assert env.clock(0) <= env.clock(d.id + 1);
    if p.duration > 0 {
      assert UnixSeconds(d.issuedAt + p.duration) > 0;
    }
  }

  lemma CommitSecretKeeps(env: Env, ns: string, w: World, exempt: set<string>, user: string, p: Plan, d: Draft)
    requires Sane(env) && GoodPlan(env, p) && UserInv(env, ns, w, exempt, user)
    requires d.id < w.n && d.issuedAt == env.clock(d.id + 1)
    requires HasEntry(w.store, user) ==> TheEntry(w.store, user).id < d.id
    ensures var s := CommitSecret(env, w, user, p, d);
      && UserInv(env, ns, s.w, exempt, user) && OnlyUser(ns, w, s.w, user)
      && s.w.timers == w.timers && s.w.store.argocd == w.store.argocd
      && (s.ok ==> HasSecret(s.w.store, user) && TheSecret(s.w.store, user) == MakeSecret(user, p, d)
                   && user in s.w.ledger && s.w.ledger[user].Torn?)
  {
    MadeSecretIsGood(env, user, p, d, w.n);
  }

  /** The entry of the token in the secret is written. */
  lemma WrittenEntryKeeps(
      env: Env, ns: string, w: World, w': World, exempt: set<string>, user: string, p: Plan, d: Draft, issue: Issue)
    requires Sane(env) && GoodPlan(env, p) && UserInv(env, ns, w, exempt, user)
    requires d.id < w.n && d.issuedAt == env.clock(d.id + 1)
    requires HasSecret(w.store, user) && TheSecret(w.store, user) == MakeSecret(user, p, d)
    requires w.store.argocd.Some? && !issue.Torn?
    requires w.n <= w'.n && w.writes <= w'.writes && w'.timers == w.timers
    requires w'.store == PutEntry(w.store, TokenKey(user), MakeEntry(p, d)) && w'.ledger == w.ledger[user := issue]
    ensures UserCore(env, ns, w', exempt, user) && OnlyUser(ns, w, w', user) && NamesOK(w'.store)
    ensures !issue.Completed? ==> UserDue(env, ns, w', user)
  {
    MadeSecretIsGood(env, user, p, d, w.n);
  }

  lemma CommitEntryKeeps(env: Env, ns: string, w: World, exempt: set<string>, user: string, p: Plan, d: Draft)
    requires Sane(env) && GoodPlan(env, p) && UserInv(env, ns, w, exempt, user)
    requires d.id < w.n && d.issuedAt == env.clock(d.id + 1)
    requires HasSecret(w.store, user) && TheSecret(w.store, user) == MakeSecret(user, p, d)
    requires user in w.ledger && w.ledger[user].Torn?
    ensures var s := CommitEntry(env, w, user, p, d);
      && TimersOK(s.w.timers) && NamesOK(s.w.store) && UserCore(env, ns, s.w, exempt, user)
      && OnlyUser(ns, w, s.w, user)
      && s.w.timers == w.timers && s.w.store.secrets == w.store.secrets
      && (!s.ok ==> UserDue(env, ns, s.w, user))
      && (s.ok ==> HasEntry(s.w.store, user) && TheEntry(s.w.store, user) == MakeEntry(p, d)
                   && s.w.ledger == w.ledger[user := Completed])
  {
    var s := CommitEntry(env, w, user, p, d);
    LaterKeeps(env, ns, w, s.w.(store := w.store, ledger := w.ledger, writes := w.writes), exempt, user);
    if Answered(env, w) && w.store.argocd.Some? && !env.outcome(w.n + 1).Rejected? {
      var issue := if env.outcome(w.n + 1).Done? then Completed else Unconfirmed;
      WrittenEntryKeeps(env, ns, w, s.w, exempt, user, p, d, issue);
    }
  }

  /** What a successful issue leaves: both halves written, made from one draft drawn now. */
  ghost predicate Issued(env: Env, w: World, w': World, user: string, p: Plan, d: Draft)
  {
    && w.n <= d.id && d.id + 1 < w'.n && d.issuedAt == env.clock(d.id + 1)
    && HasSecret(w'.store, user) && TheSecret(w'.store, user) == MakeSecret(user, p, d)
    && HasEntry(w'.store, user) && TheEntry(w'.store, user) == MakeEntry(p, d)
    && user in w'.ledger && w'.ledger[user].Completed?
  }

  lemma IssueTokenKeeps(env: Env, ns: string, w: World, exempt: set<string>, user: string, p: Plan)
    returns (d: Draft)
    requires Sane(env) && GoodPlan(env, p) && UserInv(env, ns, w, exempt, user)
    ensures var s := IssueToken(env, w, user, p);
      && TimersOK(s.w.timers) && NamesOK(s.w.store) && UserCore(env, ns, s.w, exempt, user)
      && OnlyUser(ns, w, s.w, user)
      && s.w.timers == w.timers
      && (!s.ok ==> UserDue(env, ns, s.w, user))
      && (s.ok ==> Issued(env, w, s.w, user, p, d))
  {
    var pre := Prepare(env, w);
    var w1 := w.(n := pre.n);
    d := Draft(0, 0, 0);
    if pre.draft.Some? {
      d := pre.draft.value;
      var s := CommitSecret(env, w1, user, p, d);
      CommitSecretKeeps(env, ns, w1, exempt, user, p, d);
      if s.ok {
        CommitEntryKeeps(env, ns, s.w, exempt, user, p, d);
        OnlyUserTrans(ns, w1, s.w, CommitEntry(env, s.w, user, p, d).w, user);
      }
    }
  }

  /** An issue that succeeds makes six calls after the one that drew the id. */
  lemma IssueCalls(env: Env, w: World, user: string, p: Plan)
    ensures IssueToken(env, w, user, p).ok ==>
      Prepare(env, w).draft.Some? && IssueToken(env, w, user, p).w.n == Prepare(env, w).draft.value.id + 7
  {
  }

  lemma IssuedIsDrafted(env: Env, w: World, user: string, p: Plan)
    ensures var s := IssueToken(env, w, user, p);
      s.ok ==> Prepare(env, w).draft.Some? && HasSecret(s.w.store, user)
               && TheSecret(s.w.store, user).token.id == Prepare(env, w).draft.value.id
  {
  }

  lemma ScheduleKeeps(env: Env, ns: string, w: World, exempt: set<string>, user: string, wait: int)
    requires TimersOK(w.timers) && NamesOK(w.store) && UserCore(env, ns, w, exempt, user) && HasSecret(w.store, user)
    requires var s := TheSecret(w.store, user);
      s.expAt.value == 0 || DueOnTime(env, s.token.id, s.expAt.value, w.n + 1, env.clock(w.n) + wait)
    ensures var w' := Schedule(env, ns, w, user, wait);
      && UserInv(env, ns, w', exempt, user) && OnlyUser(ns, w, w', user)
      && w'.store == w.store && TimerKey(ns, user) in w'.timers.byKey
      && w'.timers.byKey[TimerKey(ns, user)] == |w.timers.cells|
  {
    StartTimerKeeps(w.timers, ns, user, env.clock(w.n) + wait);
  }

  /** What issuing and scheduling leaves: the token, and a fresh timer when it is to be renewed. */
  ghost predicate IssuedAndScheduled(env: Env, ns: string, w: World, w': World, user: string, p: Plan, d: Draft)
  {
    && Issued(env, w, w', user, p, d)
    && (p.duration > 0 && p.autoRenew ==>
          TimerKey(ns, user) in w'.timers.byKey && w'.timers.byKey[TimerKey(ns, user)] == |w.timers.cells|)
    && (!(p.duration > 0 && p.autoRenew) ==> w'.timers == w.timers)
  }

  lemma IssueAndScheduleKeeps(env: Env, ns: string, w: World, exempt: set<string>, user: string, p: Plan)
    returns (d: Draft)
    requires Sane(env) && GoodPlan(env, p) && UserInv(env, ns, w, exempt, user)
    requires !p.autoRenew ==> TimerKey(ns, user) !in w.timers.byKey
    ensures var s := IssueAndSchedule(env, ns, w, user, p);
      && UserInv(env, ns, s.w, exempt, user) && OnlyUser(ns, w, s.w, user)
      && (s.ok ==> IssuedAndScheduled(env, ns, w, s.w, user, p, d))
  {
    d := IssueTokenKeeps(env, ns, w, exempt, user, p);
    var s := IssueToken(env, w, user, p);
    if s.ok {
      MadeSecretIsGood(env, user, p, d, s.w.n);
      if p.duration > 0 && p.autoRenew {
        IssueCalls(env, w, user, p);
        IssuedIsDrafted(env, w, user, p);
        ScheduleKeeps(env, ns, s.w, exempt, user, p.duration);
        OnlyUserTrans(ns, w, s.w, IssueAndSchedule(env, ns, w, user, p).w, user);
      }
    }
  }

  lemma DropEntryKeeps(env: Env, ns: string, w: World, exempt: set<string>, user: string)
    requires UserInv(env, ns, w, exempt, user) && HasEntry(w.store, user)
    ensures var s := Write(env, w, DropEntry(w.store, TokenKey(user)), w.ledger);
      && UserInv(env, ns, s.w, exempt, user) && OnlyUser(ns, w, s.w, user)
      && s.w.timers == w.timers && s.w.store.secrets == w.store.secrets
      && (s.ok ==> !HasEntry(s.w.store, user))
  {
    var a := w.store.argocd.value.accounts;
    assert SameExcept(a, a - {TokenKey(user)}, TokenKey(user));
  }

  lemma RemoveEntryKeeps(env: Env, ns: string, w: World, exempt: set<string>, keep: bool, user: string)
    requires UserInv(env, ns, w, exempt, user)
    ensures var s := RemoveEntry(env, w, keep, user);
      && UserInv(env, ns, s.w, exempt, user) && OnlyUser(ns, w, s.w, user)
      && s.w.timers == w.timers && s.w.store.secrets == w.store.secrets
      && (s.ok && !keep ==> !HasEntry(s.w.store, user))
  {
    TickKeeps(env, ns, w, exempt, user);
    if HasEntry(w.store, user) {
      DropEntryKeeps(env, ns, Tick(w), exempt, user);
    }
  }

  lemma DeleteSecretKeeps(env: Env, ns: string, w: World, exempt: set<string>, user: string)
    requires UserInv(env, ns, w, exempt, user)
    requires HasEntry(w.store, user) ==> user in exempt
    requires TimerKey(ns, user) !in w.timers.byKey
    ensures var s := Write(env, w, w.store.(secrets := w.store.secrets - {SecretName(user)}), w.ledger);
      && UserInv(env, ns, s.w, exempt, user) && OnlyUser(ns, w, s.w, user)
      && s.w.timers == w.timers && s.w.store.argocd == w.store.argocd
      && (s.ok ==> !HasSecret(s.w.store, user))
  {
  }

  lemma CleanupUserKeeps(
      env: Env, ns: string, w: World, exempt: set<string>, keep: bool, user: string, secret: Option<string>)
    requires UserInv(env, ns, w, exempt, user)
    requires keep ==> user in exempt
    requires TimerKey(ns, user) !in w.timers.byKey
    requires secret.Some? ==> secret.value == SecretName(user)
    ensures var s := CleanupUser(env, w, keep, user, secret);
      && UserInv(env, ns, s.w, exempt, user) && OnlyUser(ns, w, s.w, user)
      && s.w.timers == w.timers
      && (s.ok && !keep ==> !HasEntry(s.w.store, user))
      && (s.ok && (secret.None? ==> !HasSecret(w.store, user)) ==> !HasSecret(s.w.store, user))
  {
    var s := RemoveEntry(env, w, keep, user);
    RemoveEntryKeeps(env, ns, w, exempt, keep, user);
    if s.ok && secret.Some? {
      DeleteSecretKeeps(env, ns, s.w, exempt, user);
      OnlyUserTrans(ns, w, s.w, CleanupUser(env, w, keep, user, secret).w, user);
    }
  }

  /** Keeping a token changes neither the token nor the entry. */
  ghost predicate Kept(ns: string, w: World, w': World, user: string, p: Plan, secret: UserSecret)
  {
    && HasSecret(w'.store, user) && TheSecret(w'.store, user) == secret.(autoRenew := AutoRenewText(p.autoRenew))
    && w'.store.argocd == w.store.argocd && HasEntry(w'.store, user)
    && (p.duration > 0 && p.autoRenew ==> TimerKey(ns, user) in w'.timers.byKey)
    && (!(p.duration > 0 && p.autoRenew) ==> w'.timers == w.timers)
    && (TimerKey(ns, user) in w.timers.byKey ==> w'.timers == w.timers)
  }

  /** Another autoRenew text in the user's secret. */
  lemma RetextKeeps(
      env: Env, ns: string, w: World, w': World, exempt: set<string>, user: string, secret: UserSecret, text: string)
    requires UserInv(env, ns, w, exempt, user)
    requires HasSecret(w.store, user) && TheSecret(w.store, user) == secret
    requires w.n <= w'.n && w.writes <= w'.writes && w'.timers == w.timers && w'.ledger == w.ledger
    requires w'.store == PutSecret(w.store, SecretName(user), secret.(autoRenew := text))
    ensures UserInv(env, ns, w', exempt, user) && OnlyUser(ns, w, w', user)
  {
  }

  lemma SyncAutoRenewKeeps(
      env: Env, ns: string, w: World, exempt: set<string>, user: string, p: Plan, secret: UserSecret)
    requires UserInv(env, ns, w, exempt, user)
    requires HasSecret(w.store, user) && TheSecret(w.store, user) == secret
    ensures var s := SyncAutoRenew(env, w, user, p, secret);
      && UserInv(env, ns, s.w, exempt, user) && OnlyUser(ns, w, s.w, user)
      && s.w.timers == w.timers && s.w.store.argocd == w.store.argocd && HasSecret(s.w.store, user)
      && TheSecret(s.w.store, user).expAt == secret.expAt
      && (s.ok ==> TheSecret(s.w.store, user) == secret.(autoRenew := AutoRenewText(p.autoRenew)))
  {
    var s := SyncAutoRenew(env, w, user, p, secret);
    var text := AutoRenewText(p.autoRenew);
    if secret.autoRenew != text && !env.outcome(w.n).Rejected? {
      RetextKeeps(env, ns, w, s.w, exempt, user, secret, text);
    }
  }

  /** The timer of a kept token is started from the stored expiry, if it has one. */
  lemma RearmKeeps(env: Env, ns: string, w: World, exempt: set<string>, user: string)
    requires UserInv(env, ns, w, exempt, user) && HasSecret(w.store, user)
    ensures var wait := TheSecret(w.store, user).expAt.value * SECOND - env.clock(w.n);
      var w' := Schedule(env, ns, Tick(w), user, wait);
      && UserInv(env, ns, w', exempt, user) && OnlyUser(ns, w, w', user)
      && w'.store == w.store && TimerKey(ns, user) in w'.timers.byKey
  {
    var s := TheSecret(w.store, user);
    var wait := s.expAt.value * SECOND - env.clock(w.n);
    TickKeeps(env, ns, w, exempt, user);
    assert Rearmed(env, s.expAt.value, env.clock(w.n + 1) + wait, w.n);
    ScheduleKeeps(env, ns, Tick(w), exempt, user, wait);
    OnlyUserTrans(ns, w, Tick(w), Schedule(env, ns, Tick(w), user, wait), user);
  }

  lemma EnsureTimerKeeps(env: Env, ns: string, w: World, exempt: set<string>, user: string, p: Plan)
    requires Sane(env) && GoodPlan(env, p) && UserInv(env, ns, w, exempt, user) && HasSecret(w.store, user)
    ensures var w' := EnsureTimer(env, ns, w, user, p, TheSecret(w.store, user).expAt.value);
      && UserInv(env, ns, w', exempt, user) && OnlyUser(ns, w, w', user) && w'.store == w.store
      && (p.duration > 0 && p.autoRenew ==> TimerKey(ns, user) in w'.timers.byKey)
      && (!(p.duration > 0 && p.autoRenew) || TimerKey(ns, user) in w.timers.byKey ==> w' == w)
  {
    if p.autoRenew && p.duration != 0 && TimerKey(ns, user) !in w.timers.byKey {
      if TheSecret(w.store, user).expAt.value == 0 {
        ScheduleKeeps(env, ns, w, exempt, user, p.duration);
      } else {
        RearmKeeps(env, ns, w, exempt, user);
      }
    }
  }

  lemma KeepTokenKeeps(env: Env, ns: string, w: World, exempt: set<string>, user: string, p: Plan, secret: UserSecret)
    requires Sane(env) && GoodPlan(env, p) && UserInv(env, ns, w, exempt, user)
    requires HasSecret(w.store, user) && TheSecret(w.store, user) == secret && HasEntry(w.store, user)
    ensures var s := KeepToken(env, ns, w, user, p, secret, secret.expAt.value);
      && UserInv(env, ns, s.w, exempt, user) && OnlyUser(ns, w, s.w, user)
      && (s.ok ==> Kept(ns, w, s.w, user, p, secret))
  {
    var s := SyncAutoRenew(env, w, user, p, secret);
    SyncAutoRenewKeeps(env, ns, w, exempt, user, p, secret);
    if s.ok {
      EnsureTimerKeeps(env, ns, s.w, exempt, user, p);
      OnlyUserTrans(ns, w, s.w, EnsureTimer(env, ns, s.w, user, p, secret.expAt.value), user);
    }
  }

  /** Reading does not disturb an invariant. */
  lemma TickKeeps(env: Env, ns: string, w: World, exempt: set<string>, user: string)
    requires UserInv(env, ns, w, exempt, user)
    ensures UserInv(env, ns, Tick(w), exempt, user) && OnlyUser(ns, w, Tick(w), user)
  {
  }

  /** Must an existing token be replaced, before its entry is looked at? */
  predicate Outdated(env: Env, w: World, p: Plan, secret: UserSecret)
    requires secret.expAt.Some?
  {
    || Expired(env, w, p, secret.expAt.value).0
    || p.lifetime != secret.lifetime
    || (secret.expAt.value == 0 && p.duration != 0)
  }

  /** Only time has passed. */
  predicate Later(w: World, w1: World) { w.n <= w1.n && w1 == w.(n := w1.n) }

  lemma LaterKeeps(env: Env, ns: string, w: World, w1: World, exempt: set<string>, user: string)
    requires Later(w, w1) && UserInv(env, ns, w, exempt, user)
    ensures UserInv(env, ns, w1, exempt, user) && OnlyUser(ns, w, w1, user)
  {
  }

  lemma IssueLaterKeeps(env: Env, ns: string, w: World, w1: World, exempt: set<string>, user: string, p: Plan)
    returns (d: Draft)
    requires Sane(env) && GoodPlan(env, p) && UserInv(env, ns, w, exempt, user) && Later(w, w1)
    requires !p.autoRenew ==> TimerKey(ns, user) !in w.timers.byKey
    ensures var s := IssueAndSchedule(env, ns, w1, user, p);
      && UserInv(env, ns, s.w, exempt, user) && OnlyUser(ns, w, s.w, user)
      && (s.ok ==> IssuedAndScheduled(env, ns, w, s.w, user, p, d))
  {
    LaterKeeps(env, ns, w, w1, exempt, user);
    d := IssueAndScheduleKeeps(env, ns, w1, exempt, user, p);
    OnlyUserTrans(ns, w, w1, IssueAndSchedule(env, ns, w1, user, p).w, user);
  }

  lemma KeepLaterKeeps(
      env: Env, ns: string, w: World, w1: World, exempt: set<string>, user: string, p: Plan, secret: UserSecret)
    requires Sane(env) && GoodPlan(env, p) && UserInv(env, ns, w, exempt, user) && Later(w, w1)
    requires HasSecret(w.store, user) && TheSecret(w.store, user) == secret && HasEntry(w.store, user)
    ensures var s := KeepToken(env, ns, w1, user, p, secret, secret.expAt.value);
      && UserInv(env, ns, s.w, exempt, user) && OnlyUser(ns, w, s.w, user)
      && (s.ok ==> Kept(ns, w, s.w, user, p, secret))
  {
    LaterKeeps(env, ns, w, w1, exempt, user);
    KeepTokenKeeps(env, ns, w1, exempt, user, p, secret);
    OnlyUserTrans(ns, w, w1, KeepToken(env, ns, w1, user, p, secret, secret.expAt.value).w, user);
  }

  lemma KeepOrRenewKeeps(env: Env, ns: string, w: World, exempt: set<string>, user: string, p: Plan)
    returns (d: Draft)
    requires Sane(env) && GoodPlan(env, p) && UserInv(env, ns, w, exempt, user)
    requires !p.autoRenew ==> TimerKey(ns, user) !in w.timers.byKey
    requires HasSecret(w.store, user)
    ensures var secret := TheSecret(w.store, user); var s := KeepOrRenew(env, ns, w, user, p, secret);
      && UserInv(env, ns, s.w, exempt, user) && OnlyUser(ns, w, s.w, user)
      && (s.ok && (Outdated(env, w, p, secret) || !HasEntry(w.store, user)) ==>
            IssuedAndScheduled(env, ns, w, s.w, user, p, d))
      && (s.ok && !Outdated(env, w, p, secret) && HasEntry(w.store, user) ==>
            Kept(ns, w, s.w, user, p, secret))
  {
    var secret := TheSecret(w.store, user);
    var w1 := Expired(env, w, p, secret.expAt.value).1;
    LaterKeeps(env, ns, w, Tick(w1), exempt, user);
    if Outdated(env, w, p, secret) {
      d := IssueLaterKeeps(env, ns, w, w1, exempt, user, p);
    } else if HasEntry(w1.store, user) {
      KeepLaterKeeps(env, ns, w, Tick(w1), exempt, user, p, secret);
      d := Draft(0, 0, 0);
    } else {
      d := IssueLaterKeeps(env, ns, w, Tick(w1), exempt, user, p);
    }
  }
}
