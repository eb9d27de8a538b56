/** What becomes of the renewal timer of a user whose tokens do not expire. */
module LocalUserTimers {
  import opened Platform
  import opened LocalUserNames
  import opened LocalUsers
  import opened LocalUserInvariants
  import opened LocalUserPass
  import opened LocalUserRuns
  import opened LocalUserHistory

  /** The user's lifetime is valid and means no expiry. */
  predicate NeverExpires(env: Env, u: UserSpec) { MakePlan(env, u).Some? && MakePlan(env, u).value.duration == 0 }

  /** The timer under the user's key is gone when the settings call for stopping it, and otherwise is what it
      was: the same one, or none. */
  predicate TimerLeft(ns: string, w: World, w': World, u: UserSpec)
  {
    var k := TimerKey(ns, u.name);
    && (k in w'.timers.byKey <==> !MustStop(u) && k in w.timers.byKey)
    && (k in w'.timers.byKey ==> w'.timers.byKey[k] == w.timers.byKey[k])
  }

  lemma UserTimerLeft(env: Env, ns: string, w: World, exempt: set<string>, keep: bool, u: UserSpec)
    requires Sane(env) && WorldInv(env, ns, w, exempt) && (keep ==> u.name in exempt)
    requires NeverExpires(env, u) && ReconcileUser(env, ns, w, keep, u).ok
    ensures TimerLeft(ns, w, ReconcileUser(env, ns, w, keep, u).w, u)
  {
    assert UserCore(env, ns, w, exempt, u.name) && UserDue(env, ns, w, u.name);
    ReconcileUserKeeps(env, ns, w, exempt, keep, u);
  }

  lemma {:induction false} LoopTimerLeft(
    env: Env, ns: string, w: World, exempt: set<string>, cr: CR, users: seq<UserSpec>, i: nat)
    requires Sane(env) && WorldInv(env, ns, w, exempt) && Covers(exempt, cr) && DistinctNames(users)
    requires i < |users| && users[i].name !in LegacyUsers(cr.extraConfig) && NeverExpires(env, users[i])
    requires ReconcileUsers(env, ns, w, cr, users).ok
    ensures TimerLeft(ns, w, ReconcileUsers(env, ns, w, cr, users).w, users[i])
    decreases |users|
  {
    var head, rest := users[0], users[1..];
    var s := ReconcileUsers(env, ns, w, cr, users);
    assert DistinctNames(rest);
    if head.name in LegacyUsers(cr.extraConfig) {
      assert users[i] == rest[i - 1];
      LoopTimerLeft(env, ns, w, exempt, cr, rest, i - 1);
    } else {
      var keep := ExtraApiKey(cr.extraConfig, head.name);
      var t := ReconcileUser(env, ns, w, keep, head);
      HeadKeeps(env, ns, w, exempt, cr, head);
      if i == 0 {
        UserTimerLeft(env, ns, w, exempt, keep, head);
        ReconcileUsersKeeps(env, ns, t.w, exempt, cr, rest);
        assert NotAmong(rest, head.name);
        assert SameUser(ns, t.w, s.w, head.name);
      } else {
        assert users[i] == rest[i - 1] && users[i].name != head.name;
        assert SameUser(ns, w, t.w, users[i].name);
        LoopTimerLeft(env, ns, t.w, exempt, cr, rest, i - 1);
      }
    }
  }

  lemma PassTimerLeft(env: Env, ns: string, w: World, exempt: set<string>, cr: CR, i: nat)
    requires Sane(env) && WorldInv(env, ns, w, exempt)
    requires w.store.cr == Some(cr) && Covers(exempt, cr) && DistinctNames(cr.users)
    requires i < |cr.users| && cr.users[i].name !in LegacyUsers(cr.extraConfig) && NeverExpires(env, cr.users[i])
    requires Pass(env, ns, w).ok
    ensures TimerLeft(ns, w, Pass(env, ns, w).w, cr.users[i])
  {
    var w1 := Tick(w);
    TickKeepsWorld(env, ns, w, exempt);
    LoopTimerLeft(env, ns, w1, exempt, cr, cr.users, i);
    ReconcileUsersKeeps(env, ns, w1, exempt, cr, cr.users);
    var t := ReconcileUsers(env, ns, w1, cr, cr.users);
    CleanupUsersKeeps(env, ns, t.w, exempt, cr);
    assert Declared(cr, cr.users[i].name);
    assert SameUser(ns, t.w, Pass(env, ns, w).w, cr.users[i].name);
  }

  /** After every run, a pass that reports no error leaves a user whose tokens do not expire with a timer
      exactly when there was one before and the settings do not call for stopping it. They do for the
      lifetimes "" and "0", but not for other spellings of zero, so a timer set before the lifetime was
      changed to, say, "0h" goes on running. */
  lemma ZeroLifetimeTimer(env: Env, events: seq<Event>, ns: string, cr: CR, i: nat)
    requires Sane(env) && GoodEvents(events) && '/' !in ns
    requires var w := WorldOf(Run(env, START, events), ns);
      w.store.cr == Some(cr) && DistinctNames(cr.users) && Pass(env, ns, w).ok
    requires i < |cr.users| && cr.users[i].name !in LegacyUsers(cr.extraConfig) && NeverExpires(env, cr.users[i])
    ensures var w := WorldOf(Run(env, START, events), ns);
      TimerLeft(ns, w, Pass(env, ns, w).w, cr.users[i])
  {
    StartIsGood(env);
    RunKeepsSystem(env, START, events);
    var sys := Run(env, START, events);
    assert NamespaceInv(env, sys, ns);
    PassTimerLeft(env, ns, WorldOf(sys, ns), At(sys, ns).exempt, cr, i);
  }
}
