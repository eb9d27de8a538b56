/** The operator's code for local users in its own form: objects whose methods change their fields
    call by call. Every method is proved to do exactly what the state transformer of `LocalUsers`
    says, so the theorems about passes and runs hold of these methods. */
module LocalUserController {
  import opened Platform
  import opened LocalUserNames
  import opened LocalUsers
  import opened LocalUserRuns

  class TokenRenewalTimer {
    const namespace: string
    const user: string
    const deadline: int
    var stopped: bool

    constructor (namespace: string, user: string, deadline: int)
      ensures this.namespace == namespace && this.user == user && this.deadline == deadline && !stopped
    {
      this.namespace, this.user, this.deadline, this.stopped := namespace, user, deadline, false;
    }
  }

  /** LocalUsersInfo: the shared map of timers. `created` and `ids` are the timers ever made and the
      positions among them of those in the map. */
  class LocalUsersInfo {
    var tokenRenewalTimers: map<string, TokenRenewalTimer>
    ghost var created: seq<TokenRenewalTimer>
    ghost var ids: map<string, nat>

    ghost predicate Valid()
      reads this
    {
      && ids.Keys == tokenRenewalTimers.Keys
      && (forall k | k in ids :: ids[k] < |created| && created[ids[k]] == tokenRenewalTimers[k])
      && (forall i, j | 0 <= i < j < |created| :: created[i] != created[j])
    }

    static ghost function Cells(made: seq<TokenRenewalTimer>): (cells: seq<Cell>)
      ensures |cells| == |made|
      ensures forall i | 0 <= i < |made| :: cells[i] == Cell(made[i].namespace, made[i].user, made[i].deadline)
    {
      seq(|made|, i requires 0 <= i < |made| => Cell(made[i].namespace, made[i].user, made[i].deadline))
    }

    ghost function Footprint(): (r: set<object>)
      reads this
    {
      set t | t in created
    }

    ghost function Abs(): (r: Timers)
      reads this, Footprint()
    {
      Timers(Cells(created),
             (set i: nat | i < |created| && created[i].stopped), ids)
    }

    constructor ()
      ensures Valid() && Abs() == Timers([], {}, map[])
    {
      tokenRenewalTimers, created, ids := map[], [], map[];
    }

    /** stopLocalUserTimer */
    method Stop(key: string)
      requires Valid()
      modifies this, Footprint()
      ensures Valid() && created == old(created)
      ensures Abs() == StopTimer(old(Abs()), key)
    {
      if key in tokenRenewalTimers {
        tokenRenewalTimers[key].stopped := true;
        tokenRenewalTimers := tokenRenewalTimers - {key};
        ids := ids - {key};
        ghost var i := old(ids[key]);
        assert forall j: nat | j < |created| && j != i :: created[j].stopped == old(created[j].stopped);
        assert Abs().stopped == old(Abs()).stopped + {i};
      }
    }

    /** startOrRestartLocalUserTimer */
    method Start(namespace: string, user: string, deadline: int)
      requires Valid()
      modifies this, Footprint()
      ensures Valid() && fresh(Footprint() - old(Footprint()))
      ensures Abs() == StartTimer(old(Abs()), namespace, user, deadline)
    {
      var key := TimerKey(namespace, user);
      Stop(key);
      ghost var mid := Abs();
      var timer := new TokenRenewalTimer(namespace, user, deadline);
      tokenRenewalTimers := tokenRenewalTimers[key := timer];
      ids := ids[key := |created|];
      created := created + [timer];
      assert Abs().cells == mid.cells + [Cell(namespace, user, deadline)];
      assert Abs().stopped == mid.stopped;
    }

    /** cleanupNamespaceTokenTimers, going over the keys of the map in any order. */
    method CleanupNamespace(namespace: string)
      requires Valid()
      modifies this, Footprint()
      ensures Valid() && created == old(created)
      ensures Abs() == StopNamespace(old(Abs()), namespace)
    {
      ghost var before := Abs();
      var prefix := namespace + "/";
      var keys := tokenRenewalTimers.Keys;
      ghost var gone: set<string> := {};
      assert Abs() == StopKeys(before, gone);
      while keys != {}
        invariant Valid() && created == old(created)
        invariant keys <= before.byKey.Keys && keys !! gone
        invariant forall k | k in before.byKey && k !in keys :: k in gone <==> HasPrefix(k, prefix)
        invariant forall k | k in gone :: k in before.byKey && HasPrefix(k, prefix)
        invariant Abs() == StopKeys(before, gone)
        decreases keys
      {
        var key :| key in keys;
        if HasPrefix(key, prefix) {
          Stop(key);
          StopOneMore(before, gone, key);
          gone := gone + {key};
        }
        keys := keys - {key};
      }
      assert gone == set k | k in before.byKey && HasPrefix(k, prefix);
    }
  }

  /** One turn of the loop over the declared users. */
  lemma LoopTurn(env: Env, ns: string, w: World, cr: CR, i: nat)
    requires i < |cr.users|
    ensures var u := cr.users[i]; var s := ReconcileUser(env, ns, w, ExtraApiKey(cr.extraConfig, u.name), u);
      ReconcileUsers(env, ns, w, cr, cr.users[i..]) ==
        if u.name in LegacyUsers(cr.extraConfig) then ReconcileUsers(env, ns, w, cr, cr.users[i + 1..])
        else if !s.ok then s else ReconcileUsers(env, ns, s.w, cr, cr.users[i + 1..])
  {
    assert cr.users[i..][0] == cr.users[i] && cr.users[i..][1..] == cr.users[i + 1..];
  }

  /** The reconciler at work in one namespace. The objects of the namespace and the call index are
      fields; `ledger` is history. */
  class Reconciler {
    const env: Env
    const namespace: string
    const localUsers: LocalUsersInfo
    var cr: Option<CR>
    var secrets: map<string, UserSecret>
    var argocd: Option<ArgoSecret>
    var n: nat
    var writes: nat
    ghost var ledger: map<string, Issue>

    constructor (env: Env, namespace: string, localUsers: LocalUsersInfo)
      ensures this.env == env && this.namespace == namespace && this.localUsers == localUsers
      ensures cr.None? && secrets == map[] && argocd.None? && n == 0 && writes == 0 && ledger == map[]
    {
      this.env, this.namespace, this.localUsers := env, namespace, localUsers;
      cr, secrets, argocd, n, writes, ledger := None, map[], None, 0, 0, map[];
    }

    ghost function Now(): (r: World)
      reads this, localUsers, localUsers.Footprint()
    {
      World(Store(cr, secrets, argocd), localUsers.Abs(), ledger, n, writes)
    }

    /** A read call. */
    method Read() returns (ok: bool)
      modifies this`n
      ensures Now() == Tick(old(Now())) && ok == Answered(env, old(Now()))
    {
      ok := env.outcome(n).Done?;
      n := n + 1;
    }

    /** A write call that would leave these secrets and this argocd-secret. */
    method Put(secrets': map<string, UserSecret>, argocd': Option<ArgoSecret>, ghost ledger': map<string, Issue>)
      returns (ok: bool)
      modifies this`secrets, this`argocd, this`ledger, this`n, this`writes
      ensures Step(Now(), ok) == Write(env, old(Now()), Store(old(cr), secrets', argocd'), ledger')
    {
      var o := env.outcome(n);
      n, writes := n + 1, writes + 1;
      if !o.Rejected? {
        secrets, argocd, ledger := secrets', argocd', ledger';
      }
      ok := o.Done?;
    }

    method PrepareToken() returns (draft: Option<Draft>)
      modifies this`n
      ensures var pre := Prepare(env, old(Now())); Now() == old(Now()).(n := pre.n) && draft == pre.draft
    {
      draft := None;
      var found := Read();
      if !found { return; }
      var id := n;
      var drawn := Read();
      if !drawn { return; }
      var issuedAt := env.clock(n);
      n := n + 1;
      var fetched := Read();
      if !fetched || argocd.None? || argocd.value.signingKey.None? { return; }
      var signed := Read();
      if !signed { return; }
      draft := Some(Draft(id, issuedAt, argocd.value.signingKey.value));
    }

    /** issueToken */
    method Issue(user: string, p: Plan) returns (ok: bool)
      requires localUsers.Valid()
      modifies this`secrets, this`argocd, this`ledger, this`n, this`writes
      ensures Step(Now(), ok) == IssueToken(env, old(Now()), user, p)
    {
      var draft := PrepareToken();
      if draft.None? { return false; }
      var d := draft.value;
      ok := Put(secrets[SecretName(user) := MakeSecret(user, p, d)], argocd, ledger[user := Torn]);
      if !ok { return; }
      ok := Read();
      if !ok || argocd.None? { return false; }
      var a := argocd.value;
      ghost var issue := if env.outcome(n).Done? then Completed else Unconfirmed;
      ok := Put(secrets, Some(a.(accounts := a.accounts[TokenKey(user) := MakeEntry(p, d)])), ledger[user := issue]);
    }

    method ScheduleRenewal(user: string, wait: int)
      requires localUsers.Valid()
      modifies this`n, localUsers, localUsers.Footprint()
      ensures localUsers.Valid()
      ensures fresh(localUsers.Footprint() - old(localUsers.Footprint()))
      ensures Now() == Schedule(env, namespace, old(Now()), user, wait)
    {
      localUsers.Start(namespace, user, env.clock(n) + wait);
      n := n + 1;
    }

    method IssueAndScheduleRenewal(user: string, p: Plan) returns (ok: bool)
      requires localUsers.Valid()
      modifies this, localUsers, localUsers.Footprint()
      ensures localUsers.Valid()
      ensures fresh(localUsers.Footprint() - old(localUsers.Footprint()))
      ensures Step(Now(), ok) == IssueAndSchedule(env, namespace, old(Now()), user, p)
    {
      ok := Issue(user, p);
      if ok && p.duration > 0 && p.autoRenew {
        ScheduleRenewal(user, p.duration);
      }
    }

    /** cleanupLocalUser */
    method CleanupLocalUser(keep: bool, user: string, secret: Option<string>) returns (ok: bool)
      requires localUsers.Valid()
      modifies this`secrets, this`argocd, this`ledger, this`n, this`writes
      ensures Step(Now(), ok) == CleanupUser(env, old(Now()), keep, user, secret)
    {
      if !keep {
        ok := Read();
        if !ok || argocd.None? { return false; }
        var a := argocd.value;
        if TokenKey(user) in a.accounts {
          ok := Put(secrets, Some(a.(accounts := a.accounts - {TokenKey(user)})), ledger);
          if !ok { return; }
        }
      }
      ok := true;
      if secret.Some? {
        ok := Put(secrets - {secret.value}, argocd, ledger);
      }
    }

    method UpdateAutoRenew(user: string, p: Plan, secret: UserSecret) returns (ok: bool)
      requires localUsers.Valid()
      modifies this`secrets, this`argocd, this`ledger, this`n, this`writes
      ensures Step(Now(), ok) == SyncAutoRenew(env, old(Now()), user, p, secret)
    {
      ok := true;
      if secret.autoRenew != AutoRenewText(p.autoRenew) {
        ok := Put(secrets[SecretName(user) := secret.(autoRenew := AutoRenewText(p.autoRenew))], argocd, ledger);
      }
    }

    method EnsureRenewalTimer(user: string, p: Plan, expAt: int)
      requires localUsers.Valid()
      modifies this`n, localUsers, localUsers.Footprint()
      ensures localUsers.Valid()
      ensures fresh(localUsers.Footprint() - old(localUsers.Footprint()))
      ensures Now() == EnsureTimer(env, namespace, old(Now()), user, p, expAt)
    {
      if p.autoRenew && p.duration != 0 && TimerKey(namespace, user) !in localUsers.tokenRenewalTimers {
        var remaining := p.duration;
        if expAt != 0 {
          remaining := expAt * SECOND - env.clock(n);
          n := n + 1;
        }
        ScheduleRenewal(user, remaining);
      }
    }

    /** The last part of reconcileLocalUser: the token stays. */
    method KeepLocalToken(user: string, p: Plan, secret: UserSecret, expAt: int) returns (ok: bool)
      requires localUsers.Valid()
      modifies this, localUsers, localUsers.Footprint()
      ensures localUsers.Valid()
      ensures fresh(localUsers.Footprint() - old(localUsers.Footprint()))
      ensures Step(Now(), ok) == KeepToken(env, namespace, old(Now()), user, p, secret, expAt)
    {
      ok := UpdateAutoRenew(user, p, secret);
      if ok { EnsureRenewalTimer(user, p, expAt); }
    }

    /** Must an existing token be replaced, before its entry is looked at? */
    method CheckOutdated(p: Plan, secret: UserSecret, expAt: int) returns (replace: bool)
      modifies this`n
      ensures var (expired, w1) := Expired(env, old(Now()), p, expAt);
        && Now() == w1
        && replace == (expired || p.lifetime != secret.lifetime || (expAt == 0 && p.duration != 0))
    {
      replace := p.lifetime != secret.lifetime;
      if expAt == 0 && p.duration != 0 { replace := true; }
      if p.autoRenew && expAt != 0 {
        if env.clock(n) > expAt * SECOND { replace := true; }
        n := n + 1;
      }
    }

    /** The part of reconcileLocalUser for an enabled user whose secret exists. */
    method KeepOrRenewLocalToken(user: string, p: Plan, secret: UserSecret) returns (ok: bool)
      requires localUsers.Valid()
      modifies this, localUsers, localUsers.Footprint()
      ensures localUsers.Valid()
      ensures fresh(localUsers.Footprint() - old(localUsers.Footprint()))
      ensures Step(Now(), ok) == KeepOrRenew(env, namespace, old(Now()), user, p, secret)
    {
      if secret.expAt.None? { return false; }
      var expAt := secret.expAt.value;
      var replace := CheckOutdated(p, secret, expAt);
      if !replace {
        ok := Read();
        if !ok || argocd.None? { return false; }
        replace := TokenKey(user) !in argocd.value.accounts;
      }
      ghost var w := Now();
      if replace {
        ok := IssueAndScheduleRenewal(user, p);
        assert KeepOrRenew(env, namespace, old(Now()), user, p, secret) == IssueAndSchedule(env, namespace, w, user, p);
      } else {
        ok := KeepLocalToken(user, p, secret, expAt);
        assert KeepOrRenew(env, namespace, old(Now()), user, p, secret) ==
            KeepToken(env, namespace, w, user, p, secret, expAt);
      }
    }

    /** reconcileLocalUser */
    method ReconcileLocalUser(keep: bool, u: UserSpec) returns (ok: bool)
      requires localUsers.Valid()
      modifies this, localUsers, localUsers.Footprint()
      ensures localUsers.Valid()
      ensures fresh(localUsers.Footprint() - old(localUsers.Footprint()))
      ensures Step(Now(), ok) == ReconcileUser(env, namespace, old(Now()), keep, u)
    {
      if MustStop(u) { localUsers.Stop(TimerKey(namespace, u.name)); }
      assert Now() == StopIfNeeded(namespace, old(Now()), u);
      var plan := MakePlan(env, u);
      if plan.None? { return false; }
      ok := Read();
      if !ok { return; }
      var name := SecretName(u.name);
      if !WantsToken(u) {
        ok := CleanupLocalUser(keep, u.name, if name in secrets then Some(name) else None);
      } else if name !in secrets {
        ok := IssueAndScheduleRenewal(u.name, plan.value);
      } else {
        ok := KeepOrRenewLocalToken(u.name, plan.value, secrets[name]);
      }
    }

    /** The loop of reconcileLocalUsers over the declared users. */
    method ReconcileDeclared(spec: CR) returns (ok: bool)
      requires localUsers.Valid()
      modifies this, localUsers, localUsers.Footprint()
      ensures localUsers.Valid()
      ensures fresh(localUsers.Footprint() - old(localUsers.Footprint()))
      ensures Step(Now(), ok) == ReconcileUsers(env, namespace, old(Now()), spec, spec.users)
    {
      ghost var start := Now();
      var legacy := LocalUsersInExtraConfig(spec.extraConfig);
      var i := 0;
      while i < |spec.users|
        invariant 0 <= i <= |spec.users|
        invariant localUsers.Valid()
        invariant fresh(localUsers.Footprint() - old(localUsers.Footprint()))
        invariant ReconcileUsers(env, namespace, start, spec, spec.users)
               == ReconcileUsers(env, namespace, Now(), spec, spec.users[i..])
      {
        var u := spec.users[i];
        LoopTurn(env, namespace, Now(), spec, i);
        if u.name !in legacy {
          ok := ReconcileLocalUser(ExtraApiKey(spec.extraConfig, u.name), u);
          if !ok { return; }
        }
        i := i + 1;
      }
      ok := true;
    }

    /** localUsersInExtraConfig, going over the keys in any order. */
    method LocalUsersInExtraConfig(extraConfig: map<string, string>) returns (users: set<string>)
      ensures users == LegacyUsers(extraConfig)
    {
      users := {};
      var keys := extraConfig.Keys;
      while keys != {}
        invariant keys <= extraConfig.Keys
        invariant users == set k | k in extraConfig && k !in keys && DeclaresAccount(k) :: k[|"accounts."|..]
        decreases keys
      {
        var k :| k in keys;
        keys := keys - {k};
        if HasPrefix(k, "accounts.") && !HasSuffix(k, ".enabled") {
          var user := k[|"accounts."|..];
          if '.' !in user { users := users + {user}; }
        }
      }
    }

    /** cleanupLocalUsers */
    method CleanupLocalUsers(spec: CR) returns (ok: bool)
      requires localUsers.Valid()
      modifies this, localUsers, localUsers.Footprint()
      ensures localUsers.Valid() && localUsers.Footprint() == old(localUsers.Footprint())
      ensures Step(Now(), ok) == CleanupUsers(env, namespace, old(Now()), spec)
    {
      var items, listed := env.listing(n, secrets.Keys), secrets;
      ok := Read();
      if !ok { return; }
      ghost var start := Now();
      var i := 0;
      while i < |items|
        invariant 0 <= i <= |items|
        invariant localUsers.Valid() && localUsers.Footprint() == old(localUsers.Footprint())
        invariant CleanupItems(env, namespace, start, spec, items, listed)
               == CleanupItems(env, namespace, Now(), spec, items[i..], listed)
      {
        var name := items[i];
        assert items[i..][0] == name && items[i..][1..] == items[i + 1..];
        if name in listed {
          var user := listed[name].user;
          var found := IsDeclared(spec, user);
          if !found {
            localUsers.Stop(TimerKey(namespace, user));
            ok := CleanupLocalUser(ExtraApiKey(spec.extraConfig, user), user, Some(name));
            if !ok { return; }
          }
        }
        i := i + 1;
      }
      ok := true;
    }

    method IsDeclared(spec: CR, user: string) returns (found: bool)
      ensures found == Declared(spec, user)
    {
      found := false;
      for i := 0 to |spec.users|
        invariant !found && forall j | 0 <= j < i :: spec.users[j].name != user
      {
        if spec.users[i].name == user { return true; }
      }
    }

    /** reconcileLocalUsers */
    method ReconcileLocalUsers() returns (ok: bool)
      requires localUsers.Valid()
      modifies this, localUsers, localUsers.Footprint()
      ensures localUsers.Valid()
      ensures fresh(localUsers.Footprint() - old(localUsers.Footprint()))
      ensures Step(Now(), ok) == Pass(env, namespace, old(Now()))
    {
      ok := Read();
      if !ok || cr.None? { return; }
      var spec := cr.value;
      ok := ReconcileDeclared(spec);
      if !ok { return; }
      ok := CleanupLocalUsers(spec);
    }
  }
}
