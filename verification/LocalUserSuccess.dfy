/** When a local-users pass succeeds: if its calls do, the only other things that can fail it are a missing
    argocd-secret or signing key, a lifetime that does not parse, and an unreadable expiry. */
module LocalUserSuccess {
  import opened Platform
  import opened LocalUserNames
  import opened LocalUsers
  import opened LocalUserInvariants
  import opened LocalUserRuns
  import opened LocalUserHistory

  predicate Ready(w: World)
  {
    && w.store.argocd.Some? && w.store.argocd.value.signingKey.Some?
    && forall x | x in w.store.secrets :: w.store.secrets[x].expAt.Some?
  }

  /** A step stays ready, and fails only after a call that failed. */
  ghost predicate Clean(env: Env, w: World, s: Step)
  {
    w.n <= s.w.n && Ready(s.w) && (ErrorFree(env, w.n, s.w.n) ==> s.ok)
  }

  lemma CleanThen(env: Env, w: World, s: Step, t: Step)
    requires Clean(env, w, s) && (if s.ok then Clean(env, s.w, t) else t == s)
    ensures Clean(env, w, t)
  {
    assert ErrorFree(env, w.n, t.w.n) && s.w.n <= t.w.n ==> ErrorFree(env, w.n, s.w.n) && ErrorFree(env, s.w.n, t.w.n);
  }

  lemma CommitClean(env: Env, w: World, user: string, p: Plan, d: Draft)
    requires Ready(w)
    ensures Clean(env, w, CommitSecret(env, w, user, p, d)) && Clean(env, w, CommitEntry(env, w, user, p, d))
  {
  }

  lemma PrepareClean(env: Env, w: World)
    requires Ready(w) && ErrorFree(env, w.n, Prepare(env, w).n)
    ensures Prepare(env, w).draft.Some?
  {
    var n := w.n;
    assert env.outcome(n).Done?;
    assert env.outcome(n + 1).Done?;
    assert env.outcome(n + 3).Done?;
    assert env.outcome(n + 4).Done?;
  }

  lemma IssueClean(env: Env, ns: string, w: World, user: string, p: Plan)
    requires Ready(w)
    ensures Clean(env, w, IssueAndSchedule(env, ns, w, user, p))
  {
    var pre := Prepare(env, w);
    var w1 := w.(n := pre.n);
    if ErrorFree(env, w.n, pre.n) { PrepareClean(env, w); }
    var prepared := Step(w1, pre.draft.Some?);
    assert Clean(env, w, prepared);
    if pre.draft.Some? {
      var d := pre.draft.value;
      var a := CommitSecret(env, w1, user, p, d);
      CommitClean(env, w1, user, p, d);
      CleanThen(env, w, prepared, a);
      if a.ok {
        var b := CommitEntry(env, a.w, user, p, d);
        CommitClean(env, a.w, user, p, d);
        CleanThen(env, w, a, b);
        assert Clean(env, b.w, Step(Schedule(env, ns, b.w, user, p.duration), true));
        if b.ok { CleanThen(env, w, b, Step(Schedule(env, ns, b.w, user, p.duration), true)); }
      }
    }
  }

  lemma CleanupClean(env: Env, w: World, keep: bool, user: string, secret: Option<string>)
    requires Ready(w)
    ensures Clean(env, w, CleanupUser(env, w, keep, user, secret))
  {
    var a := RemoveEntry(env, w, keep, user);
    assert Clean(env, w, a);
    if a.ok && secret.Some? { CleanThen(env, w, a, CleanupUser(env, w, keep, user, secret)); }
  }

  lemma KeepClean(env: Env, ns: string, w: World, user: string, p: Plan, secret: UserSecret, expAt: int)
    requires Ready(w) && secret.expAt.Some?
    ensures Clean(env, w, KeepToken(env, ns, w, user, p, secret, expAt))
  {
    var a := SyncAutoRenew(env, w, user, p, secret);
    assert Clean(env, w, a);
    assert Clean(env, a.w, Step(EnsureTimer(env, ns, a.w, user, p, expAt), true));
    CleanThen(env, w, a, KeepToken(env, ns, w, user, p, secret, expAt));
  }

  lemma IssueLaterClean(env: Env, ns: string, w: World, w1: World, user: string, p: Plan)
    requires Ready(w1) && Clean(env, w, Step(w1, true))
    ensures Clean(env, w, IssueAndSchedule(env, ns, w1, user, p))
  {
    IssueClean(env, ns, w1, user, p);
    CleanThen(env, w, Step(w1, true), IssueAndSchedule(env, ns, w1, user, p));
  }

  lemma KeepLaterClean(
      env: Env, ns: string, w: World, w1: World, user: string, p: Plan, secret: UserSecret, expAt: int)
    requires Ready(w1) && Clean(env, w, Step(w1, true)) && secret.expAt.Some?
    ensures Clean(env, w, KeepToken(env, ns, w1, user, p, secret, expAt))
  {
    KeepClean(env, ns, w1, user, p, secret, expAt);
    CleanThen(env, w, Step(w1, true), KeepToken(env, ns, w1, user, p, secret, expAt));
  }

  lemma KeepOrRenewClean(env: Env, ns: string, w: World, user: string, p: Plan, secret: UserSecret)
    requires Ready(w) && secret.expAt.Some?
    ensures Clean(env, w, KeepOrRenew(env, ns, w, user, p, secret))
  {
    var w1 := Expired(env, w, p, secret.expAt.value).1;
    assert Clean(env, w, Step(w1, true));
    if Expired(env, w, p, secret.expAt.value).0 || p.lifetime != secret.lifetime
       || (secret.expAt.value == 0 && p.duration != 0) {
      IssueLaterClean(env, ns, w, w1, user, p);
    } else if Answered(env, w1) {
      assert Clean(env, w, Step(Tick(w1), true));
      IssueLaterClean(env, ns, w, Tick(w1), user, p);
      KeepLaterClean(env, ns, w, Tick(w1), user, p, secret, secret.expAt.value);
    }
  }

  lemma UserClean(env: Env, ns: string, w: World, keep: bool, u: UserSpec)
    requires Ready(w) && MakePlan(env, u).Some?
    ensures Clean(env, w, ReconcileUser(env, ns, w, keep, u))
  {
    var p := MakePlan(env, u).value;
    var w0 := StopIfNeeded(ns, w, u);
    var w1 := Tick(w0);
    CleanupClean(env, w1, keep, u.name, if HasSecret(w1.store, u.name) then Some(SecretName(u.name)) else None);
    IssueClean(env, ns, w1, u.name, p);
    if HasSecret(w1.store, u.name) { KeepOrRenewClean(env, ns, w1, u.name, p, TheSecret(w1.store, u.name)); }
    assert Clean(env, w, Step(w1, Answered(env, w0)));
    CleanThen(env, w, Step(w1, Answered(env, w0)), ReconcileUser(env, ns, w, keep, u));
  }

  /** Every lifetime that the pass looks at parses. */
  predicate Parses(env: Env, cr: CR, users: seq<UserSpec>)
  {
    forall i | 0 <= i < |users| && users[i].name !in LegacyUsers(cr.extraConfig) :: MakePlan(env, users[i]).Some?
  }

  lemma {:induction false} UsersClean(env: Env, ns: string, w: World, cr: CR, users: seq<UserSpec>)
    requires Ready(w) && Parses(env, cr, users)
    ensures Clean(env, w, ReconcileUsers(env, ns, w, cr, users))
    decreases |users|
  {
    if users != [] {
      assert Parses(env, cr, users[1..]);
      var u := users[0];
      if u.name in LegacyUsers(cr.extraConfig) {
        UsersClean(env, ns, w, cr, users[1..]);
      } else {
        var s := ReconcileUser(env, ns, w, ExtraApiKey(cr.extraConfig, u.name), u);
        UserClean(env, ns, w, ExtraApiKey(cr.extraConfig, u.name), u);
        UsersClean(env, ns, s.w, cr, users[1..]);
        CleanThen(env, w, s, ReconcileUsers(env, ns, w, cr, users));
      }
    }
  }

  lemma {:induction false} ItemsClean(
      env: Env, ns: string, w: World, cr: CR, items: seq<string>, listed: map<string, UserSecret>)
    requires Ready(w)
    ensures Clean(env, w, CleanupItems(env, ns, w, cr, items, listed))
    decreases |items|
  {
    if items != [] {
      if items[0] !in listed {
        ItemsClean(env, ns, w, cr, items[1..], listed);
      } else {
        var secret := listed[items[0]];
        var w0 := w.(timers := StopTimer(w.timers, TimerKey(ns, secret.user)));
        CleanupClean(env, w0, ExtraApiKey(cr.extraConfig, secret.user), secret.user, Some(items[0]));
        var s := CleanupListed(env, ns, w, cr, items[0], secret);
        assert Clean(env, w, s);
        ItemsClean(env, ns, s.w, cr, items[1..], listed);
        CleanThen(env, w, s, CleanupItems(env, ns, w, cr, items, listed));
      }
    }
  }

  lemma PassClean(env: Env, ns: string, w: World, cr: CR)
    requires Ready(w) && w.store.cr == Some(cr) && Parses(env, cr, cr.users)
    ensures Clean(env, w, Pass(env, ns, w))
  {
    var w1 := Tick(w);
    UsersClean(env, ns, w1, cr, cr.users);
    var s := ReconcileUsers(env, ns, w1, cr, cr.users);
    if s.ok {
      var w2 := Tick(s.w);
      ItemsClean(env, ns, w2, cr, env.listing(s.w.n, s.w.store.secrets.Keys), s.w.store.secrets);
      assert Clean(env, s.w, Step(w2, Answered(env, s.w)));
      CleanThen(env, s.w, Step(w2, Answered(env, s.w)), CleanupUsers(env, ns, s.w, cr));
    }
    CleanThen(env, w1, s, RunPass(env, ns, w1, cr));
    assert Clean(env, w, Step(w1, Answered(env, w)));
    CleanThen(env, w, Step(w1, Answered(env, w)), Pass(env, ns, w));
  }

  /** After every run, a pass all of whose calls succeed is itself a success, provided argocd-secret holds a
      signing key and the declared lifetimes parse. So `EveryRunConverges` applies to it. */
  lemma ErrorFreePassSucceeds(env: Env, events: seq<Event>, ns: string, cr: CR)
    requires Sane(env) && GoodEvents(events) && '/' !in ns
    requires var w := WorldOf(Run(env, START, events), ns);
      && w.store.cr == Some(cr) && Parses(env, cr, cr.users)
      && w.store.argocd.Some? && w.store.argocd.value.signingKey.Some?
      && ErrorFree(env, w.n, Pass(env, ns, w).w.n)
    ensures Pass(env, ns, WorldOf(Run(env, START, events), ns)).ok
  {
    StartIsGood(env);
    RunKeepsSystem(env, START, events);
    var sys := Run(env, START, events);
    var w := WorldOf(sys, ns);
    assert NamespaceInv(env, sys, ns);
    forall x | x in w.store.secrets ensures w.store.secrets[x].expAt.Some? {
      assert x == SecretName(w.store.secrets[x].user);
      assert UserCore(env, ns, w, At(sys, ns).exempt, w.store.secrets[x].user);
    }
    PassClean(env, ns, w, cr);
  }
}
