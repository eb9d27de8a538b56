/** What a local-users pass leaves for each user, field by field. */
module LocalUserContent {
  import opened Platform
  import opened LocalUserNames
  import opened LocalUsers
  import opened LocalUserInvariants
  import opened LocalUserPass
  import opened LocalUserRuns
  import opened LocalUserHistory
  import opened LocalUserAnswers

  // ---------- Tokens of declared users ----------

  /** How long the tokens of a user are to live, going by the trimmed lifetime; 0 stands for ever. */
  function LifetimeOf(env: Env, text: string): (r: Option<int>)
  {
    if text == "" then Some(0) else env.parseDuration(text)
  }

  /** The stored secret says for whom the token is, how it is to be renewed and when it was issued; the token
      claims the same, and has the lifetime that the user's settings ask for. */
  predicate SecretSays(env: Env, secret: UserSecret, u: UserSpec, text: string, duration: int)
  {
    var token := secret.token;
    var at, end := UnixSeconds(env.clock(token.id + 1)), UnixSeconds(env.clock(token.id + 1) + duration);
    && secret.user == u.name
    && secret.lifetime == (if duration == 0 then "0h" else text)
    && secret.autoRenew == (if u.autoRenew == Some(false) then "false" else "true")
    && token.issuer == "argocd" && token.subject == u.name + ":apiKey"
    && token.issuedAt == at && token.notBefore == at
    && secret.expAt == Some(if duration == 0 then 0 else end)
    && token.expires == (if duration == 0 then None else Some(end))
  }

  lemma SettledSecret(env: Env, ns: string, w: World, exempt: set<string>, keep: bool, u: UserSpec)
    requires Sane(env) && WorldInv(env, ns, w, exempt) && Settled(env, ns, w, keep, u) && WantsToken(u)
    ensures var text := TrimSpace(u.lifetime);
      && LifetimeOf(env, text).Some? && LifetimeOf(env, text).value >= 0
      && HasSecret(w.store, u.name)
      && SecretSays(env, TheSecret(w.store, u.name), u, text, LifetimeOf(env, text).value)
  {
    MakePlanIsGood(env, u);
    assert UserCore(env, ns, w, exempt, u.name);
  }

  /** A settled user, by what is stored. */
  ghost predicate StoredAsAsked(env: Env, s: Store, u: UserSpec, exempted: bool)
  {
    var at, key, text := u.name + "-local-user", "accounts." + u.name + ".tokens", TrimSpace(u.lifetime);
    if u.enabled != Some(false) && u.apiKey != Some(false) then
      && LifetimeOf(env, text).Some? && LifetimeOf(env, text).value >= 0
      && at in s.secrets && SecretSays(env, s.secrets[at], u, text, LifetimeOf(env, text).value)
      && s.argocd.Some? && key in s.argocd.value.accounts
      && var token := s.secrets[at].token;
         if Tore(env, token.id) then s.argocd.value.accounts[key].id != token.id
         else s.argocd.value.accounts[key] == Entry(token.id, token.issuedAt, s.secrets[at].expAt.value)
    else
      && at !in s.secrets
      && (s.argocd.Some? && key in s.argocd.value.accounts ==> exempted)
  }

  lemma SettledIsStoredAsAsked(env: Env, ns: string, w: World, exempt: set<string>, keep: bool, u: UserSpec)
    requires Sane(env) && WorldInv(env, ns, w, exempt) && Settled(env, ns, w, keep, u) && ByAnswers(env, w)
    ensures StoredAsAsked(env, w.store, u, keep)
  {
    if WantsToken(u) {
      SettledSecret(env, ns, w, exempt, keep, u);
      assert UserCore(env, ns, w, exempt, u.name);
      assert w.ledger[u.name] == IssueOf(env, TheSecret(w.store, u.name).token.id);
    }
  }

  /** What is known of the namespace after a pass that follows any run. */
  lemma PassLeaves(env: Env, events: seq<Event>, ns: string) returns (exempt: set<string>)
    requires Sane(env) && GoodEvents(events) && '/' !in ns
    ensures var w' := Pass(env, ns, WorldOf(Run(env, START, events), ns)).w;
      WorldInv(env, ns, w', exempt) && ByAnswers(env, w')
  {
    StartIsGood(env);
    RunKeepsSystem(env, START, events);
    RunKeeps(env, START, events);
    var sys := Run(env, START, events);
    var w := WorldOf(sys, ns);
    exempt := At(sys, ns).exempt;
    assert NamespaceInv(env, sys, ns) && ByAnswers(env, w);
    PassKeepsWorld(env, ns, w, exempt);
    PassKeeps(env, ns, w);
  }

  /** After every run, a pass that reports no error leaves each user of the CR that extraConfig does not declare
      as the CR says. A user who is not disabled and keeps apiKey has a secret with a token of the asked
      lifetime, an entry for that token unless its issue was torn, and a timer if the token expires and is to be
      renewed; any other user has no secret, and no entry unless extraConfig gives it apiKey. There is no timer
      where the settings call for stopping it. */
  lemma DeclaredUserGetsItsToken(env: Env, events: seq<Event>, ns: string, cr: CR, i: nat)
    requires Sane(env) && GoodEvents(events) && '/' !in ns
    requires var w := WorldOf(Run(env, START, events), ns);
      w.store.cr == Some(cr) && DistinctNames(cr.users) && Pass(env, ns, w).ok
    requires i < |cr.users| && cr.users[i].name !in LegacyUsers(cr.extraConfig)
    ensures var s := Pass(env, ns, WorldOf(Run(env, START, events), ns)).w.store;
      StoredAsAsked(env, s, cr.users[i], ExtraApiKey(cr.extraConfig, cr.users[i].name))
    ensures var timers := Pass(env, ns, WorldOf(Run(env, START, events), ns)).w.timers;
      var u := cr.users[i];
      var text := TrimSpace(u.lifetime);
      var off := u.enabled == Some(false) || u.apiKey == Some(false) || u.autoRenew == Some(false);
      && (off || text == "" || text == "0" ==> ns + "/" + u.name !in timers.byKey)
      && (!off && LifetimeOf(env, text) != Some(0) ==> ns + "/" + u.name in timers.byKey)
  {
    var exempt := PassLeaves(env, events, ns);
    EveryRunConverges(env, events, ns, cr);
    var w', u := Pass(env, ns, WorldOf(Run(env, START, events), ns)).w, cr.users[i];
    SettledIsStoredAsAsked(env, ns, w', exempt, ExtraApiKey(cr.extraConfig, u.name), u);
  }

  // ---------- Entries that extraConfig accounts for ----------

  predicate SameEntry(w: World, w': World, v: string)
  {
    && HasEntry(w'.store, v) == HasEntry(w.store, v)
    && (HasEntry(w.store, v) ==> TheEntry(w'.store, v) == TheEntry(w.store, v))
  }

  /** Nobody of that name among these users is to have a token issued by the pass. */
  predicate NoneWanted(cr: CR, users: seq<UserSpec>, v: string)
  {
    forall i | 0 <= i < |users| && users[i].name == v :: v in LegacyUsers(cr.extraConfig) || !WantsToken(users[i])
  }

  lemma CleanupKeepsEntry(env: Env, w: World, keep: bool, user: string, secret: Option<string>)
    requires keep
    ensures CleanupUser(env, w, keep, user, secret).w.store.argocd == w.store.argocd
  {
  }

  lemma UnwantedKeepsEntry(env: Env, ns: string, w: World, keep: bool, u: UserSpec)
    requires !WantsToken(u) && keep
    ensures ReconcileUser(env, ns, w, keep, u).w.store.argocd == w.store.argocd
  {
    var w1 := Tick(StopIfNeeded(ns, w, u));
    CleanupKeepsEntry(env, w1, keep, u.name, if HasSecret(w1.store, u.name) then Some(SecretName(u.name)) else None);
  }

  lemma HeadKeepsEntry(env: Env, ns: string, w: World, exempt: set<string>, cr: CR, u: UserSpec, v: string)
    requires Sane(env) && WorldInv(env, ns, w, exempt) && Covers(exempt, cr)
    requires u.name !in LegacyUsers(cr.extraConfig) && ExtraApiKey(cr.extraConfig, v)
    requires u.name == v ==> !WantsToken(u)
    ensures SameEntry(w, ReconcileUser(env, ns, w, ExtraApiKey(cr.extraConfig, u.name), u).w, v)
  {
    HeadKeeps(env, ns, w, exempt, cr, u);
    var keep := ExtraApiKey(cr.extraConfig, u.name);
    var w' := ReconcileUser(env, ns, w, keep, u).w;
    if u.name == v {
      UnwantedKeepsEntry(env, ns, w, keep, u);
      assert w'.store.argocd == w.store.argocd;
    } else {
      assert SameUser(ns, w, w', v);
    }
  }

  lemma {:induction false} UsersKeepEntry(
      env: Env, ns: string, w: World, exempt: set<string>, cr: CR, users: seq<UserSpec>, v: string)
    requires Sane(env) && WorldInv(env, ns, w, exempt) && Covers(exempt, cr)
    requires ExtraApiKey(cr.extraConfig, v) && NoneWanted(cr, users, v)
    ensures SameEntry(w, ReconcileUsers(env, ns, w, cr, users).w, v)
    decreases |users|
  {
    if users != [] {
      var u, rest := users[0], users[1..];
      assert NoneWanted(cr, rest, v);
      if u.name in LegacyUsers(cr.extraConfig) {
        UsersKeepEntry(env, ns, w, exempt, cr, rest, v);
      } else {
        var t := ReconcileUser(env, ns, w, ExtraApiKey(cr.extraConfig, u.name), u);
        HeadKeeps(env, ns, w, exempt, cr, u);
        HeadKeepsEntry(env, ns, w, exempt, cr, u, v);
        UsersKeepEntry(env, ns, t.w, exempt, cr, rest, v);
      }
    }
  }

  lemma ListedKeepsEntry(
      env: Env, ns: string, w: World, exempt: set<string>, cr: CR, name: string, secret: UserSecret, v: string)
    requires Sane(env) && WorldInv(env, ns, w, exempt) && Covers(exempt, cr)
    requires ExtraApiKey(cr.extraConfig, v)
    ensures SameEntry(w, CleanupListed(env, ns, w, cr, name, secret).w, v)
  {
    var x, keep := secret.user, ExtraApiKey(cr.extraConfig, secret.user);
    if !Declared(cr, x) {
      var w0 := w.(timers := StopTimer(w.timers, TimerKey(ns, x)));
      if x == v {
        CleanupKeepsEntry(env, w0, keep, v, Some(name));
      } else {
        CleanupTouchesOne(env, w0, keep, x, Some(name), v);
      }
    }
  }

  lemma CleanupTouchesOne(env: Env, w: World, keep: bool, user: string, secret: Option<string>, v: string)
    requires user != v
    ensures SameEntry(w, CleanupUser(env, w, keep, user, secret).w, v)
  {
    if TokenKey(user) == TokenKey(v) { TokenKeyInjective(user, v); }
  }

  lemma {:induction false} ItemsKeepEntry(env: Env, ns: string, w: World, exempt: set<string>, cr: CR,
                                          items: seq<string>, listed: map<string, UserSecret>, v: string)
    requires Sane(env) && WorldInv(env, ns, w, exempt) && Covers(exempt, cr)
    requires forall x | x in listed :: x == SecretName(listed[x].user)
    requires ExtraApiKey(cr.extraConfig, v)
    ensures SameEntry(w, CleanupItems(env, ns, w, cr, items, listed).w, v)
    decreases |items|
  {
    if items != [] {
      if items[0] !in listed {
        ItemsKeepEntry(env, ns, w, exempt, cr, items[1..], listed, v);
      } else {
        var t := CleanupListed(env, ns, w, cr, items[0], listed[items[0]]);
        CleanupListedKeeps(env, ns, w, exempt, cr, items[0], listed[items[0]]);
        ListedKeepsEntry(env, ns, w, exempt, cr, items[0], listed[items[0]], v);
        ItemsKeepEntry(env, ns, t.w, exempt, cr, items[1..], listed, v);
      }
    }
  }

  lemma PassKeepsEntry(env: Env, ns: string, w: World, exempt: set<string>, cr: CR, v: string)
    requires Sane(env) && WorldInv(env, ns, w, exempt) && w.store.cr == Some(cr) && Covers(exempt, cr)
    requires ExtraApiKey(cr.extraConfig, v) && NoneWanted(cr, cr.users, v)
    ensures SameEntry(w, Pass(env, ns, w).w, v)
  {
    var w1 := Tick(w);
    TickKeepsWorld(env, ns, w, exempt);
    ReconcileUsersKeeps(env, ns, w1, exempt, cr, cr.users);
    UsersKeepEntry(env, ns, w1, exempt, cr, cr.users, v);
    var t := ReconcileUsers(env, ns, w1, cr, cr.users);
    TickKeepsWorld(env, ns, t.w, exempt);
    var items := env.listing(t.w.n, t.w.store.secrets.Keys);
    ItemsKeepEntry(env, ns, Tick(t.w), exempt, cr, items, t.w.store.secrets, v);
  }

  /** In every run, whatever calls fail, a pass leaves the token entry of a user to whom extraConfig gives apiKey
      as it is, unless the user is declared in the CR, wants a token and escapes the scan of extraConfig. */
  lemma ExtraConfigKeepsEntries(env: Env, events: seq<Event>, ns: string, cr: CR, v: string)
    requires Sane(env) && GoodEvents(events) && '/' !in ns
    requires At(Run(env, START, events), ns).store.cr == Some(cr)
    requires "accounts." + v in cr.extraConfig && Contains(cr.extraConfig["accounts." + v], "apiKey")
    requires NoneWanted(cr, cr.users, v)
    ensures var w := WorldOf(Run(env, START, events), ns); SameEntry(w, Pass(env, ns, w).w, v)
  {
    StartIsGood(env);
    RunKeepsSystem(env, START, events);
    var sys := Run(env, START, events);
    assert NamespaceInv(env, sys, ns);
    PassKeepsEntry(env, ns, WorldOf(sys, ns), At(sys, ns).exempt, cr, v);
  }
}
