/** A settled namespace stays as it is: a further pass only reads. */
module LocalUserQuiet {
  import opened Platform
  import opened LocalUserNames
  import opened LocalUsers
  import opened LocalUserInvariants
  import opened LocalUserSteps
  import opened LocalUserPass

  /** Nothing but the call index differs: no write, no timer started or stopped. */
  ghost predicate OnlyReads(w: World, w': World)
  {
    w.n <= w'.n && w' == w.(n := w'.n)
  }

  /** The user's token, if it is auto-renewed, has not run out by call `at`. */
  ghost predicate FreshAt(env: Env, w: World, u: UserSpec, at: nat)
  {
    WantsToken(u) && Flag(u.autoRenew) && HasSecret(w.store, u.name)
    && TheSecret(w.store, u.name).expAt.Some? && TheSecret(w.store, u.name).expAt.value != 0
    ==> env.clock(at) <= TheSecret(w.store, u.name).expAt.value * SECOND
  }

  lemma QuietHandle(env: Env, ns: string, w: World, exempt: set<string>, keep: bool, u: UserSpec, p: Plan)
    requires Sane(env) && UserInv(env, ns, w, exempt, u.name) && Settled(env, ns, w, keep, u)
    requires MakePlan(env, u) == Some(p)
    requires FreshAt(env, w, u, HandleUser(env, ns, w, keep, u, p).w.n)
    ensures OnlyReads(w, HandleUser(env, ns, w, keep, u, p).w)
  {
    MakePlanIsGood(env, u);
    var s := HandleUser(env, ns, w, keep, u, p);
    if WantsToken(u) {
      var secret := TheSecret(w.store, u.name);
      var expAt := secret.expAt.value;
      KeepOrRenewAdvances(env, ns, w, u.name, p, secret);
      if p.autoRenew && expAt != 0 {
        assert env.clock(w.n) <= env.clock(s.w.n);
      }
    }
  }

  /** Looking at an existing secret never turns the call index back. */
  lemma KeepOrRenewAdvances(env: Env, ns: string, w: World, user: string, p: Plan, secret: UserSecret)
    ensures w.n <= KeepOrRenew(env, ns, w, user, p, secret).w.n
  {
    IssueAdvances(env, ns, w, user, p);
    IssueAdvances(env, ns, Tick(w), user, p);
    IssueAdvances(env, ns, Tick(Tick(w)), user, p);
  }

  lemma IssueAdvances(env: Env, ns: string, w: World, user: string, p: Plan)
    ensures w.n <= IssueAndSchedule(env, ns, w, user, p).w.n
  {
  }

  lemma QuietUser(env: Env, ns: string, w: World, exempt: set<string>, keep: bool, u: UserSpec)
    requires Sane(env) && UserInv(env, ns, w, exempt, u.name) && Settled(env, ns, w, keep, u)
    requires FreshAt(env, w, u, ReconcileUser(env, ns, w, keep, u).w.n)
    ensures OnlyReads(w, ReconcileUser(env, ns, w, keep, u).w)
  {
    assert StopIfNeeded(ns, w, u) == w;
    if Answered(env, w) {
      TickKeeps(env, ns, w, exempt, u.name);
      QuietHandle(env, ns, Tick(w), exempt, keep, u, MakePlan(env, u).value);
    }
  }

  /** What the loop over the declared users needs to find. */
  ghost predicate AllSettled(env: Env, ns: string, w: World, cr: CR, users: seq<UserSpec>, at: nat)
  {
    forall i | 0 <= i < |users| && users[i].name !in LegacyUsers(cr.extraConfig) ::
      Settled(env, ns, w, ExtraApiKey(cr.extraConfig, users[i].name), users[i]) && FreshAt(env, w, users[i], at)
  }

  lemma OnlyReadsKeeps(
      env: Env, ns: string, w: World, w': World, exempt: set<string>, cr: CR, users: seq<UserSpec>, at: nat)
    requires WorldInv(env, ns, w, exempt) && AllSettled(env, ns, w, cr, users, at) && OnlyReads(w, w')
    ensures WorldInv(env, ns, w', exempt) && AllSettled(env, ns, w', cr, users, at)
  {
    forall v ensures UserCore(env, ns, w', exempt, v) && UserDue(env, ns, w', v) {
      assert UserCore(env, ns, w, exempt, v) && UserDue(env, ns, w, v);
    }
    forall i | 0 <= i < |users| && users[i].name !in LegacyUsers(cr.extraConfig)
      ensures Settled(env, ns, w', ExtraApiKey(cr.extraConfig, users[i].name), users[i])
          && FreshAt(env, w', users[i], at)
    {
      SettledIsStable(env, ns, w, w, w', ExtraApiKey(cr.extraConfig, users[i].name), users[i]);
    }
  }

  lemma {:induction false} QuietUsers(
      env: Env, ns: string, w: World, exempt: set<string>, cr: CR, users: seq<UserSpec>, at: nat)
    requires Sane(env) && WorldInv(env, ns, w, exempt) && Covers(exempt, cr)
    requires ReconcileUsers(env, ns, w, cr, users).w.n <= at
    requires AllSettled(env, ns, w, cr, users, at)
    ensures OnlyReads(w, ReconcileUsers(env, ns, w, cr, users).w)
    decreases |users|
  {
    if users != [] {
      var u, rest := users[0], users[1..];
      assert AllSettled(env, ns, w, cr, rest, at);
      if u.name in LegacyUsers(cr.extraConfig) {
        QuietUsers(env, ns, w, exempt, cr, rest, at);
      } else {
        var keep := ExtraApiKey(cr.extraConfig, u.name);
        var t := ReconcileUser(env, ns, w, keep, u);
        HeadKeeps(env, ns, w, exempt, cr, u);
        if t.ok { ReconcileUsersKeeps(env, ns, t.w, exempt, cr, rest); }
        assert env.clock(t.w.n) <= env.clock(at);
        assert UserCore(env, ns, w, exempt, u.name) && UserDue(env, ns, w, u.name);
        QuietUser(env, ns, w, exempt, keep, u);
        if t.ok {
          OnlyReadsKeeps(env, ns, w, t.w, exempt, cr, rest, at);
          QuietUsers(env, ns, t.w, exempt, cr, rest, at);
        }
      }
    }
  }

  lemma {:induction false} QuietItems(
      env: Env, ns: string, w: World, cr: CR, items: seq<string>, listed: map<string, UserSecret>)
    requires forall x | x in listed :: Declared(cr, listed[x].user)
    ensures CleanupItems(env, ns, w, cr, items, listed) == Step(w, true)
    decreases |items|
  {
    if items != [] {
      QuietItems(env, ns, w, cr, items[1..], listed);
    }
  }

  /** A pass over a settled namespace with no undeclared secret only reads, whatever its calls
      return, as long as no auto-renewed token runs out before it ends. */
  lemma QuietPass(env: Env, ns: string, w: World, exempt: set<string>, cr: CR)
    requires Sane(env) && WorldInv(env, ns, w, exempt)
    requires w.store.cr == Some(cr) && Covers(exempt, cr)
    requires AllSettled(env, ns, w, cr, cr.users, Pass(env, ns, w).w.n)
    requires forall v | !Declared(cr, v) :: !HasSecret(w.store, v)
    ensures OnlyReads(w, Pass(env, ns, w).w)
  {
    if Answered(env, w) {
      var w1 := Tick(w);
      var at := Pass(env, ns, w).w.n;
      OnlyReadsKeeps(env, ns, w, w1, exempt, cr, cr.users, at);
      ReconcileUsersKeeps(env, ns, w1, exempt, cr, cr.users);
      var t := ReconcileUsers(env, ns, w1, cr, cr.users);
      if t.ok { CleanupUsersKeeps(env, ns, t.w, exempt, cr); }
      QuietUsers(env, ns, w1, exempt, cr, cr.users, at);
      assert t.w.store == w.store;
      forall x | x in w.store.secrets ensures Declared(cr, w.store.secrets[x].user) {
        assert HasSecret(w.store, w.store.secrets[x].user);
      }
      if t.ok && Answered(env, t.w) {
        QuietItems(env, ns, Tick(t.w), cr, env.listing(t.w.n, w.store.secrets.Keys), w.store.secrets);
      }
    }
  }

  /** After an error-free pass, the next pass performs no write and leaves the timer map unchanged,
      unless an auto-renewed token runs out before it ends. */
  lemma SecondPassIsQuiet(env: Env, ns: string, w: World, exempt: set<string>, cr: CR)
    requires Sane(env) && WorldInv(env, ns, w, exempt)
    requires w.store.cr == Some(cr) && Covers(exempt, cr) && DistinctNames(cr.users)
    requires Pass(env, ns, w).ok
    requires var first := Pass(env, ns, w).w;
      forall i | 0 <= i < |cr.users| :: FreshAt(env, first, cr.users[i], Pass(env, ns, first).w.n)
    ensures OnlyReads(Pass(env, ns, w).w, Pass(env, ns, Pass(env, ns, w).w).w)
  {
    var first := Pass(env, ns, w).w;
    PassKeepsWorld(env, ns, w, exempt);
    PassConverges(env, ns, w, exempt, cr);
    QuietPass(env, ns, first, exempt, cr);
  }

  // ---------- Torn issues ----------

  /** An issue whose entry write is rejected leaves the new secret beside the older entry. */
  lemma RejectedEntryWriteTears(env: Env, w: World, user: string, p: Plan)
    requires HasEntry(w.store, user) && TheEntry(w.store, user).id < w.n
    requires var pre := Prepare(env, w);
      pre.draft.Some? && env.outcome(pre.n).Done? && env.outcome(pre.n + 1).Done? && env.outcome(pre.n + 2).Rejected?
    ensures var s := IssueToken(env, w, user, p);
      && !s.ok && HasSecret(s.w.store, user) && HasEntry(s.w.store, user)
      && TheSecret(s.w.store, user).lifetime == p.lifetime
      && TheEntry(s.w.store, user) == TheEntry(w.store, user)
      && TheSecret(s.w.store, user).token.id != TheEntry(s.w.store, user).id
      && user in s.w.ledger && s.w.ledger[user].Torn?
  {
  }

  /** A torn issue over an older entry is not noticed: the pass looks only for the presence of the
      entry, so it keeps a secret and an entry that name different tokens. */
  lemma TornIssueIsNotRepaired(env: Env, ns: string, w: World, exempt: set<string>, cr: CR, user: string)
    requires Sane(env) && WorldInv(env, ns, w, exempt)
    requires w.store.cr == Some(cr) && Covers(exempt, cr)
    requires AllSettled(env, ns, w, cr, cr.users, Pass(env, ns, w).w.n)
    requires forall v | !Declared(cr, v) :: !HasSecret(w.store, v)
    requires HasSecret(w.store, user) && HasEntry(w.store, user) && user in w.ledger && w.ledger[user].Torn?
    ensures var s := Pass(env, ns, w).w.store;
      && HasSecret(s, user) && HasEntry(s, user) && TheSecret(s, user).token.id != TheEntry(s, user).id
  {
    QuietPass(env, ns, w, exempt, cr);
    assert UserCore(env, ns, w, exempt, user);
  }
}
