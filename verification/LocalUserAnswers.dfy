/** Token agreement by the answers of the API server. A token id is the index of the call that drew it, so
    the calls of its issue are known: the secret is written at id + 4, argocd-secret is read at id + 5 and
    written at id + 6. */
module LocalUserAnswers {
  import opened Platform
  import opened LocalUserNames
  import opened LocalUsers
  import opened LocalUserInvariants
  import opened LocalUserRuns
  import opened LocalUserHistory

  /** The issue that drew this id wrote the secret, but not the token entry. */
  predicate Tore(env: Env, id: nat)
  {
    !env.outcome(id + 4).Done? || !env.outcome(id + 5).Done? || env.outcome(id + 6).Rejected?
  }

  function IssueOf(env: Env, id: nat): (r: Issue)
  {
    if Tore(env, id) then Torn else if env.outcome(id + 6).Done? then Completed else Unconfirmed
  }

  /** The ledger records, for every stored secret, what the answers to the calls of its issue were. */
  ghost predicate ByAnswers(env: Env, w: World)
  {
    forall v | HasSecret(w.store, v) :: v in w.ledger && w.ledger[v] == IssueOf(env, TheSecret(w.store, v).token.id)
  }

  /** Nothing that the ledger is about has changed, unless secrets went. */
  ghost predicate Quiet(w: World, w': World)
  {
    && w'.ledger == w.ledger
    && forall x | x in w'.store.secrets :: x in w.store.secrets && w'.store.secrets[x].token == w.store.secrets[x].token
  }

  lemma QuietKeeps(env: Env, w: World, w': World)
    requires ByAnswers(env, w) && Quiet(w, w')
    ensures ByAnswers(env, w')
  {
    forall v | HasSecret(w'.store, v)
      ensures v in w'.ledger && w'.ledger[v] == IssueOf(env, TheSecret(w'.store, v).token.id)
    {
      assert HasSecret(w.store, v);
    }
  }

  // ---------- One issue ----------

  /** An issue gets as far as writing when its four preparatory calls are answered and there is a key to sign
      with. Between drawing the id and fetching the key it reads the clock. */
  predicate CanWrite(env: Env, w: World)
  {
    && env.outcome(w.n).Done? && env.outcome(w.n + 1).Done?
    && env.outcome(w.n + 3).Done? && env.outcome(w.n + 4).Done?
    && w.store.argocd.Some? && w.store.argocd.value.signingKey.Some?
  }

  lemma PrepareByAnswers(env: Env, w: World)
    ensures var pre := Prepare(env, w);
      if CanWrite(env, w) then
        pre == Prepared(w.n + 5, Some(Draft(w.n + 1, env.clock(w.n + 2), w.store.argocd.value.signingKey.value)))
      else pre.draft.None?
  {
  }

  /** An issue by its answers. If it gets as far as writing and the write of the secret is not rejected, the
      user has a secret with the new id, and the issue is recorded as the answers say; otherwise nothing has
      changed. */
  lemma IssueByAnswers(env: Env, w: World, user: string, p: Plan)
    ensures var s := IssueToken(env, w, user, p);
      var id := w.n + 1;
      if CanWrite(env, w) && !env.outcome(id + 4).Rejected? then
        && s.w.store.secrets.Keys == w.store.secrets.Keys + {SecretName(user)}
        && (forall x | x in w.store.secrets && x != SecretName(user) :: s.w.store.secrets[x] == w.store.secrets[x])
        && TheSecret(s.w.store, user).token.id == id
        && s.w.ledger == w.ledger[user := IssueOf(env, id)]
        && (s.ok <==> IssueOf(env, id).Completed?)
      else !s.ok && s.w.store == w.store && s.w.ledger == w.ledger
  {
    PrepareByAnswers(env, w);
    var pre := Prepare(env, w);
    if pre.draft.Some? {
      var a := CommitSecret(env, w.(n := pre.n), user, p, pre.draft.value);
      assert a.w.store.argocd.Some?;
    }
  }

  /** What such an issue stores, field by field: the token is signed with the key of argocd-secret and was
      issued at the clock reading of call id + 1; expiry, lifetime and autoRenew are the planned ones. The
      entry is written beside it unless the issue tears, and then the entry stays what it was; no other entry
      changes. */
  lemma IssueContent(env: Env, w: World, user: string, p: Plan)
    requires CanWrite(env, w) && !env.outcome(w.n + 5).Rejected?
    ensures var s, id := IssueToken(env, w, user, p).w.store, w.n + 1;
      var at, end := UnixSeconds(env.clock(id + 1)), UnixSeconds(env.clock(id + 1) + p.duration);
      var secret, name := s.secrets[user + "-local-user"], "accounts." + user + ".tokens";
      var token := secret.token;
      && secret.user == user && secret.lifetime == p.lifetime
      && secret.autoRenew == (if p.autoRenew then "true" else "false")
      && secret.expAt == Some(if p.duration > 0 then end else 0)
      && token.issuer == "argocd" && token.subject == user + ":apiKey" && token.id == id
      && token.key == w.store.argocd.value.signingKey.value
      && token.issuedAt == at && token.notBefore == at
      && token.expires == (if p.duration > 0 then Some(end) else None)
      && s.argocd.Some? && s.argocd.value.signingKey == w.store.argocd.value.signingKey
      && s.argocd.value.accounts == w.store.argocd.value.accounts + (
           if Tore(env, id) then map[] else map[name := Entry(id, at, if p.duration > 0 then end else 0)])
  {
    PrepareByAnswers(env, w);
    var pre := Prepare(env, w);
    var d := pre.draft.value;
    var a := CommitSecret(env, w.(n := pre.n), user, p, d);
    assert a.w.store.argocd == w.store.argocd && TheSecret(a.w.store, user) == MakeSecret(user, p, d);
    var accounts := w.store.argocd.value.accounts;
    assert accounts[TokenKey(user) := MakeEntry(p, d)] == accounts + map[TokenKey(user) := MakeEntry(p, d)];
    assert accounts == accounts + map[];
  }

  /** An issue tears exactly when it gets as far as writing, the secret is written, and either that is not
      acknowledged, or argocd-secret is not read, or the write of the entry is rejected. */
  lemma IssueTearsIff(env: Env, w: World, user: string, p: Plan)
    requires !NewSecret(w.store, user, w.n) && !NewEntry(w.store, user, w.n)
    ensures var s := IssueToken(env, w, user, p);
      NewSecret(s.w.store, user, w.n) && !NewEntry(s.w.store, user, w.n) <==>
        && CanWrite(env, w)
        && !env.outcome(w.n + 5).Rejected?
        && (!env.outcome(w.n + 5).Done? || !env.outcome(w.n + 6).Done? || env.outcome(w.n + 7).Rejected?)
  {
    PrepareByAnswers(env, w);
    var pre := Prepare(env, w);
    if pre.draft.Some? {
      var a := CommitSecret(env, w.(n := pre.n), user, p, pre.draft.value);
      assert a.w.store.argocd.Some?;
    }
  }

  lemma IssueKeeps(env: Env, ns: string, w: World, user: string, p: Plan)
    requires ByAnswers(env, w)
    ensures ByAnswers(env, IssueAndSchedule(env, ns, w, user, p).w)
  {
    IssueByAnswers(env, w, user, p);
    var s := IssueToken(env, w, user, p);
    forall v | HasSecret(s.w.store, v)
      ensures v in s.w.ledger && s.w.ledger[v] == IssueOf(env, TheSecret(s.w.store, v).token.id)
    {
      if v != user {
        if SecretName(v) == SecretName(user) { SecretNameInjective(v, user); }
        assert HasSecret(w.store, v);
      }
    }
  }

  // ---------- One pass ----------

  lemma UserKeeps(env: Env, ns: string, w: World, keep: bool, u: UserSpec)
    requires ByAnswers(env, w)
    ensures ByAnswers(env, ReconcileUser(env, ns, w, keep, u).w)
  {
    var w1 := Tick(StopIfNeeded(ns, w, u));
    QuietKeeps(env, w, w1);
    if MakePlan(env, u).Some? {
      var p := MakePlan(env, u).value;
      IssueKeeps(env, ns, w1, u.name, p);
      if HasSecret(w1.store, u.name) { KeepOrRenewKeeps(env, ns, w1, u.name, p, TheSecret(w1.store, u.name)); }
      CleanupKeeps(env, w1, keep, u.name, if HasSecret(w1.store, u.name) then Some(SecretName(u.name)) else None);
      QuietKeeps(env, w, Tick(StopIfNeeded(ns, w, u)));
      QuietKeeps(env, w, StopIfNeeded(ns, w, u));
    }
  }

  lemma KeepOrRenewKeeps(env: Env, ns: string, w: World, user: string, p: Plan, secret: UserSecret)
    requires ByAnswers(env, w) && HasSecret(w.store, user) && TheSecret(w.store, user) == secret
    ensures ByAnswers(env, KeepOrRenew(env, ns, w, user, p, secret).w)
  {
    if secret.expAt.Some? {
      var w1 := Expired(env, w, p, secret.expAt.value).1;
      QuietKeeps(env, w, w1);
      QuietKeeps(env, w, Tick(w1));
      IssueKeeps(env, ns, w1, user, p);
      IssueKeeps(env, ns, Tick(w1), user, p);
      KeepKeeps(env, ns, Tick(w1), user, p, secret, secret.expAt.value);
    }
  }

  lemma KeepKeeps(env: Env, ns: string, w: World, user: string, p: Plan, secret: UserSecret, expAt: int)
    requires ByAnswers(env, w) && HasSecret(w.store, user) && TheSecret(w.store, user) == secret
    ensures ByAnswers(env, KeepToken(env, ns, w, user, p, secret, expAt).w)
  {
    var s := SyncAutoRenew(env, w, user, p, secret);
    assert Quiet(w, s.w);
    QuietKeeps(env, w, s.w);
    QuietKeeps(env, s.w, EnsureTimer(env, ns, s.w, user, p, expAt));
  }

  lemma CleanupKeeps(env: Env, w: World, keep: bool, user: string, secret: Option<string>)
    requires ByAnswers(env, w)
    ensures ByAnswers(env, CleanupUser(env, w, keep, user, secret).w)
  {
    QuietKeeps(env, w, CleanupUser(env, w, keep, user, secret).w);
  }

  lemma {:induction false} UsersKeep(env: Env, ns: string, w: World, cr: CR, users: seq<UserSpec>)
    requires ByAnswers(env, w)
    ensures ByAnswers(env, ReconcileUsers(env, ns, w, cr, users).w)
    decreases |users|
  {
    if users != [] {
      var u := users[0];
      if u.name in LegacyUsers(cr.extraConfig) {
        UsersKeep(env, ns, w, cr, users[1..]);
      } else {
        UserKeeps(env, ns, w, ExtraApiKey(cr.extraConfig, u.name), u);
        var s := ReconcileUser(env, ns, w, ExtraApiKey(cr.extraConfig, u.name), u);
        UsersKeep(env, ns, s.w, cr, users[1..]);
      }
    }
  }

  lemma {:induction false} ItemsKeep(
    env: Env, ns: string, w: World, cr: CR, items: seq<string>, listed: map<string, UserSecret>)
    requires ByAnswers(env, w)
    ensures ByAnswers(env, CleanupItems(env, ns, w, cr, items, listed).w)
    decreases |items|
  {
    if items != [] {
      if items[0] !in listed {
        ItemsKeep(env, ns, w, cr, items[1..], listed);
      } else {
        var secret := listed[items[0]];
        var w0 := w.(timers := StopTimer(w.timers, TimerKey(ns, secret.user)));
        QuietKeeps(env, w, w0);
        CleanupKeeps(env, w0, ExtraApiKey(cr.extraConfig, secret.user), secret.user, Some(items[0]));
        var s := CleanupListed(env, ns, w, cr, items[0], secret);
        ItemsKeep(env, ns, s.w, cr, items[1..], listed);
      }
    }
  }

  lemma PassKeeps(env: Env, ns: string, w: World)
    requires ByAnswers(env, w)
    ensures ByAnswers(env, Pass(env, ns, w).w)
  {
    QuietKeeps(env, w, Tick(w));
    if w.store.cr.Some? {
      var cr := w.store.cr.value;
      UsersKeep(env, ns, Tick(w), cr, cr.users);
      var s := ReconcileUsers(env, ns, Tick(w), cr, cr.users);
      QuietKeeps(env, s.w, Tick(s.w));
      ItemsKeep(env, ns, Tick(s.w), cr, env.listing(s.w.n, s.w.store.secrets.Keys), s.w.store.secrets);
    }
  }

  // ---------- Runs ----------

  ghost predicate SystemByAnswers(env: Env, sys: System)
  {
    forall ns :: ByAnswers(env, WorldOf(sys, ns))
  }

  lemma ReconcileKeeps(env: Env, sys: System, ns: string)
    requires SystemByAnswers(env, sys)
    ensures SystemByAnswers(env, RunReconcile(env, sys, ns))
  {
    var sys' := RunReconcile(env, sys, ns);
    assert ByAnswers(env, WorldOf(sys, ns));
    PassKeeps(env, ns, WorldOf(sys, ns));
    forall ms ensures ByAnswers(env, WorldOf(sys', ms)) {
      if ms == ns {
        assert WorldOf(sys', ns) == Pass(env, ns, WorldOf(sys, ns)).w;
      } else {
        assert ByAnswers(env, WorldOf(sys, ms));
        QuietKeeps(env, WorldOf(sys, ms), WorldOf(sys', ms));
      }
    }
  }

  /** Events other than passes leave every namespace's secrets and ledger as they are. */
  lemma OthersKeep(env: Env, sys: System, sys': System)
    requires SystemByAnswers(env, sys)
    requires forall ns :: At(sys', ns).ledger == At(sys, ns).ledger
    requires forall ns :: At(sys', ns).store.secrets == At(sys, ns).store.secrets
    ensures SystemByAnswers(env, sys')
  {
    forall ns ensures ByAnswers(env, WorldOf(sys', ns)) {
      assert ByAnswers(env, WorldOf(sys, ns));
      QuietKeeps(env, WorldOf(sys, ns), WorldOf(sys', ns));
    }
  }

  lemma ApplyKeeps(env: Env, sys: System, e: Event)
    requires SystemByAnswers(env, sys)
    ensures SystemByAnswers(env, Apply(env, sys, e))
  {
    match e
    case Reconcile(ns) => ReconcileKeeps(env, sys, ns);
    case Goroutine(j) =>
      if j < |sys.spawned| {
        var v := sys.(spawned := sys.spawned[..j] + sys.spawned[j + 1..]);
        OthersKeep(env, sys, v);
        ReconcileKeeps(env, v, sys.spawned[j]);
      }
    case _ => OthersKeep(env, sys, Apply(env, sys, e));
  }

  lemma {:induction false} RunKeeps(env: Env, sys: System, events: seq<Event>)
    requires SystemByAnswers(env, sys)
    ensures SystemByAnswers(env, Run(env, sys, events))
    decreases |events|
  {
    if events != [] {
      ApplyKeeps(env, sys, events[0]);
      RunKeeps(env, Apply(env, sys, events[0]), events[1..]);
    }
  }

  lemma TimersStayGood(env: Env, events: seq<Event>)
    requires Sane(env) && GoodEvents(events)
    ensures TimersOK(Run(env, START, events).timers)
  {
    StartIsGood(env);
    RunKeepsSystem(env, START, events);
  }

  /** Agreement, by the answers: in every run, a user's secret and token entry name the same token, with the
      same times, exactly when the issue of the token in the secret was acknowledged in its write of the
      secret and its read of argocd-secret, and not rejected in its write of the entry. If that write was
      acknowledged too, a running timer is due on time: no earlier than the stored expiry, and no later than
      that plus the time between the two clock readings that it was started from, to the second. */
  lemma TokensAgreeIff(env: Env, events: seq<Event>, ns: string, v: string)
    requires Sane(env) && GoodEvents(events) && '/' !in ns
    ensures var w := WorldOf(Run(env, START, events), ns);
      && (HasSecret(w.store, v) && HasEntry(w.store, v) ==>
            (Agrees(TheSecret(w.store, v), TheEntry(w.store, v)) <==> !Tore(env, TheSecret(w.store, v).token.id)))
      && (var k := TimerKey(ns, v);
          && HasSecret(w.store, v) && TheSecret(w.store, v).expAt.Some? && TheSecret(w.store, v).expAt.value != 0
          && IssueOf(env, TheSecret(w.store, v).token.id).Completed?
          && k in w.timers.byKey
          ==>
            && w.timers.byKey[k] < |w.timers.cells|
            && var s, deadline := TheSecret(w.store, v), w.timers.cells[w.timers.byKey[k]].deadline;
               DueOnTime(env, s.token.id, s.expAt.value, w.n, deadline) && deadline >= s.expAt.value * SECOND)
  {
    TokensAgreeUnlessTorn(env, events, ns, v);
    TimersStayGood(env, events);
    assert SystemByAnswers(env, START);
    RunKeeps(env, START, events);
    assert ByAnswers(env, WorldOf(Run(env, START, events), ns));
  }
}
