/** Whether a renewed token will be renewed again. A timer that has fired stays in the timer map, and a pass
    starts a new one only together with a token whose issue is completed. So after a renewal the user has a
    timer that is still to fire exactly when the issue of the stored token was completed. */
module LocalUserRenewal {
  import opened Platform
  import opened LocalUserNames
  import opened LocalUsers
  import opened LocalUserInvariants
  import opened LocalUserSteps
  import opened LocalUserPass
  import opened LocalUserRuns
  import opened LocalUserHistory
  import opened LocalUserAnswers

  /** The user's tokens are to be renewed. */
  predicate AutoRenewed(env: Env, u: UserSpec)
  {
    !MustStop(u) && MakePlan(env, u).Some? && MakePlan(env, u).value.duration > 0
  }

  function TokenId(w: World, v: string): (id: Option<nat>)
  {
    if HasSecret(w.store, v) then Some(TheSecret(w.store, v).token.id) else None
  }

  function TimerOf(ns: string, w: World, v: string): (i: Option<nat>)
  {
    var k := TimerKey(ns, v);
    if k in w.timers.byKey then Some(w.timers.byKey[k]) else None
  }

  /** How the token and the timer of a user with a timer move together. A token that stays keeps the timer. A
      new one comes with a new timer when its issue is completed, and otherwise keeps the timer, too. */
  ghost predicate Moved(env: Env, ns: string, w: World, w': World, v: string)
  {
    var id := TokenId(w', v);
    && w.n <= w'.n && |w.timers.cells| <= |w'.timers.cells|
    && (id.Some? ==>
          if id == TokenId(w, v) then
            TimerOf(ns, w, v).Some? ==> TimerOf(ns, w', v) == TimerOf(ns, w, v)
          else
            && id.value >= w.n
            && (if IssueOf(env, id.value).Completed? then
                  TimerOf(ns, w', v).Some? && TimerOf(ns, w', v).value >= |w.timers.cells|
                else TimerOf(ns, w, v).Some? ==> TimerOf(ns, w', v) == TimerOf(ns, w, v)))
  }

  /** Ids drawn so far are smaller than the call index. */
  predicate OldId(w: World, v: string) { TokenId(w, v).Some? ==> TokenId(w, v).value < w.n }

  // ---------- One user ----------

  lemma IssueMoves(env: Env, ns: string, w: World, v: string, p: Plan)
    requires OldId(w, v) && p.autoRenew && p.duration > 0
    ensures Moved(env, ns, w, IssueAndSchedule(env, ns, w, v, p).w, v)
  {
    IssueByAnswers(env, w, v, p);
    var s := IssueToken(env, w, v, p);
    IssueKeepsTimers(env, w, v, p);
  }

  lemma IssueKeepsTimers(env: Env, w: World, v: string, p: Plan)
    ensures var s := IssueToken(env, w, v, p); s.w.timers == w.timers && w.n <= s.w.n
  {
  }

  lemma KeepMoves(env: Env, ns: string, w: World, v: string, p: Plan, secret: UserSecret, expAt: int)
    requires HasSecret(w.store, v) && TheSecret(w.store, v) == secret
    ensures Moved(env, ns, w, KeepToken(env, ns, w, v, p, secret, expAt).w, v)
  {
    var s := SyncAutoRenew(env, w, v, p, secret);
    assert TokenId(s.w, v) == TokenId(w, v) && s.w.timers == w.timers && w.n <= s.w.n;
  }

  /** Time that passes first changes nothing. */
  lemma MovedLater(env: Env, ns: string, w: World, w1: World, w': World, v: string)
    requires w.n <= w1.n && w1.store.secrets == w.store.secrets && w1.timers == w.timers
    requires Moved(env, ns, w1, w', v)
    ensures Moved(env, ns, w, w', v)
  {
  }

  lemma IssueLaterMoves(env: Env, ns: string, w: World, w1: World, v: string, p: Plan)
    requires OldId(w, v) && p.autoRenew && p.duration > 0 && Later(w, w1)
    ensures Moved(env, ns, w, IssueAndSchedule(env, ns, w1, v, p).w, v)
  {
    IssueMoves(env, ns, w1, v, p);
    MovedLater(env, ns, w, w1, IssueAndSchedule(env, ns, w1, v, p).w, v);
  }

  lemma KeepLaterMoves(env: Env, ns: string, w: World, w1: World, v: string, p: Plan, secret: UserSecret, expAt: int)
    requires HasSecret(w.store, v) && TheSecret(w.store, v) == secret && Later(w, w1)
    ensures Moved(env, ns, w, KeepToken(env, ns, w1, v, p, secret, expAt).w, v)
  {
    KeepMoves(env, ns, w1, v, p, secret, expAt);
    MovedLater(env, ns, w, w1, KeepToken(env, ns, w1, v, p, secret, expAt).w, v);
  }

  lemma KeepOrRenewMoves(env: Env, ns: string, w: World, v: string, p: Plan)
    requires OldId(w, v) && p.autoRenew && p.duration > 0 && HasSecret(w.store, v)
    ensures Moved(env, ns, w, KeepOrRenew(env, ns, w, v, p, TheSecret(w.store, v)).w, v)
  {
    var secret := TheSecret(w.store, v);
    if secret.expAt.Some? {
      var w1 := Expired(env, w, p, secret.expAt.value).1;
      if Outdated(env, w, p, secret) {
        IssueLaterMoves(env, ns, w, w1, v, p);
      } else if HasEntry(w1.store, v) {
        KeepLaterMoves(env, ns, w, Tick(w1), v, p, secret, secret.expAt.value);
      } else {
        IssueLaterMoves(env, ns, w, Tick(w1), v, p);
      }
    }
  }

  lemma UserMoves(env: Env, ns: string, w: World, keep: bool, u: UserSpec)
    requires OldId(w, u.name) && AutoRenewed(env, u)
    ensures Moved(env, ns, w, ReconcileUser(env, ns, w, keep, u).w, u.name)
  {
    var p := MakePlan(env, u).value;
    assert StopIfNeeded(ns, w, u) == w;
    var w1 := Tick(w);
    var w' := ReconcileUser(env, ns, w, keep, u).w;
    IssueMoves(env, ns, w1, u.name, p);
    if HasSecret(w.store, u.name) { KeepOrRenewMoves(env, ns, w1, u.name, p); }
    if Answered(env, w) { MovedLater(env, ns, w, w1, w', u.name); }
  }

  // ---------- One pass ----------

  /** What does not touch the user. */
  lemma SameMoves(env: Env, ns: string, w: World, w': World, v: string)
    requires SameUser(ns, w, w', v) && Forward(ns, w, w')
    ensures Moved(env, ns, w, w', v)
  {
  }

  lemma MovedThenSame(env: Env, ns: string, w: World, w1: World, w': World, v: string)
    requires Moved(env, ns, w, w1, v) && SameUser(ns, w1, w', v) && Forward(ns, w1, w')
    ensures Moved(env, ns, w, w', v)
  {
  }

  lemma SameThenMoved(env: Env, ns: string, w: World, w1: World, w': World, v: string)
    requires SameUser(ns, w, w1, v) && Forward(ns, w, w1) && Moved(env, ns, w1, w', v)
    ensures Moved(env, ns, w, w', v)
  {
  }

  lemma InvOldId(env: Env, ns: string, w: World, exempt: set<string>, v: string)
    requires WorldInv(env, ns, w, exempt)
    ensures OldId(w, v)
  {
    assert UserCore(env, ns, w, exempt, v);
  }

  /** The head of the list is the user. */
  lemma HeadMoves(env: Env, ns: string, w: World, exempt: set<string>, cr: CR, users: seq<UserSpec>)
    requires Sane(env) && WorldInv(env, ns, w, exempt) && Covers(exempt, cr) && DistinctNames(users)
    requires users != [] && users[0].name !in LegacyUsers(cr.extraConfig) && AutoRenewed(env, users[0])
    ensures Moved(env, ns, w, ReconcileUsers(env, ns, w, cr, users).w, users[0].name)
  {
    var v, keep := users[0].name, ExtraApiKey(cr.extraConfig, users[0].name);
    var t := ReconcileUser(env, ns, w, keep, users[0]);
    InvOldId(env, ns, w, exempt, v);
    UserMoves(env, ns, w, keep, users[0]);
    if t.ok {
      HeadKeeps(env, ns, w, exempt, cr, users[0]);
      ReconcileUsersKeeps(env, ns, t.w, exempt, cr, users[1..]);
      assert NotAmong(users[1..], v);
      MovedThenSame(env, ns, w, t.w, ReconcileUsers(env, ns, t.w, cr, users[1..]).w, v);
    }
  }

  lemma {:induction false} LoopMoves(
      env: Env, ns: string, w: World, exempt: set<string>, cr: CR, users: seq<UserSpec>, i: nat)
    requires Sane(env) && WorldInv(env, ns, w, exempt) && Covers(exempt, cr) && DistinctNames(users)
    requires i < |users| && users[i].name !in LegacyUsers(cr.extraConfig) && AutoRenewed(env, users[i])
    ensures Moved(env, ns, w, ReconcileUsers(env, ns, w, cr, users).w, users[i].name)
    decreases |users|
  {
    if i == 0 {
      HeadMoves(env, ns, w, exempt, cr, users);
    } else {
      var head, rest, v := users[0], users[1..], users[i].name;
      assert DistinctNames(rest) && users[i] == rest[i - 1] && v != head.name;
      if head.name in LegacyUsers(cr.extraConfig) {
        LoopMoves(env, ns, w, exempt, cr, rest, i - 1);
      } else {
        var t := ReconcileUser(env, ns, w, ExtraApiKey(cr.extraConfig, head.name), head);
        HeadKeeps(env, ns, w, exempt, cr, head);
        if t.ok {
          LoopMoves(env, ns, t.w, exempt, cr, rest, i - 1);
          SameThenMoved(env, ns, w, t.w, ReconcileUsers(env, ns, t.w, cr, rest).w, v);
        } else {
          SameMoves(env, ns, w, t.w, v);
        }
      }
    }
  }

  lemma PassMoves(env: Env, ns: string, w: World, exempt: set<string>, cr: CR, i: nat)
    requires Sane(env) && WorldInv(env, ns, w, exempt)
    requires w.store.cr == Some(cr) && Covers(exempt, cr) && DistinctNames(cr.users)
    requires i < |cr.users| && cr.users[i].name !in LegacyUsers(cr.extraConfig) && AutoRenewed(env, cr.users[i])
    ensures Moved(env, ns, w, Pass(env, ns, w).w, cr.users[i].name)
  {
    var v, w1 := cr.users[i].name, Tick(w);
    TickKeepsWorld(env, ns, w, exempt);
    if Answered(env, w) {
      LoopMoves(env, ns, w1, exempt, cr, cr.users, i);
      ReconcileUsersKeeps(env, ns, w1, exempt, cr, cr.users);
      var t := ReconcileUsers(env, ns, w1, cr, cr.users);
      if t.ok {
        CleanupUsersKeeps(env, ns, t.w, exempt, cr);
        assert Declared(cr, v);
        MovedThenSame(env, ns, w1, t.w, CleanupUsers(env, ns, t.w, cr).w, v);
      }
      SameThenMoved(env, ns, w, w1, Pass(env, ns, w).w, v);
    } else {
      SameMoves(env, ns, w, w1, v);
    }
  }

  // ---------- Runs ----------

  /** Only timers that exist have fired, and none before its deadline. */
  ghost predicate FiredOnTime(env: Env, sys: System)
  {
    forall i | i in sys.fired :: i < |sys.timers.cells| && env.clock(sys.n) >= sys.timers.cells[i].deadline
  }

  lemma ApplyAdvances(env: Env, sys: System, e: Event)
    requires Sane(env) && SystemInv(env, sys) && NamesNamespace(e)
    ensures var sys' := Apply(env, sys, e);
      sys.n <= sys'.n && sys.fired <= sys'.fired && TimersGrow(sys.timers, sys'.timers)
    ensures FiredOnTime(env, sys) ==> FiredOnTime(env, Apply(env, sys, e))
  {
    ApplyKeepsSystem(env, sys, e);
    match e
    case Reconcile(ns) => ReconcileAdvances(env, sys, ns);
    case Goroutine(j) =>
      if j < |sys.spawned| {
        var rest := sys.spawned[..j] + sys.spawned[j + 1..];
        SpawnKeepsSystem(env, sys, sys.fired, rest);
        ReconcileAdvances(env, sys.(spawned := rest), sys.spawned[j]);
      }
    case _ =>
  }

  lemma ReconcileAdvances(env: Env, sys: System, ns: string)
    requires Sane(env) && SystemInv(env, sys) && '/' !in ns
    ensures var sys' := RunReconcile(env, sys, ns);
      sys.n <= sys'.n && sys.fired == sys'.fired && TimersGrow(sys.timers, sys'.timers)
  {
    assert NamespaceInv(env, sys, ns);
    PassKeepsWorld(env, ns, WorldOf(sys, ns), At(sys, ns).exempt);
  }

  lemma {:induction false} RunAdvances(env: Env, sys: System, events: seq<Event>)
    requires Sane(env) && SystemInv(env, sys) && GoodEvents(events)
    ensures var sys' := Run(env, sys, events);
      SystemInv(env, sys') && sys.n <= sys'.n && sys.fired <= sys'.fired && TimersGrow(sys.timers, sys'.timers)
    ensures FiredOnTime(env, sys) ==> FiredOnTime(env, Run(env, sys, events))
    decreases |events|
  {
    if events != [] {
      assert NamesNamespace(events[0]);
      ApplyKeepsSystem(env, sys, events[0]);
      ApplyAdvances(env, sys, events[0]);
      RunAdvances(env, Apply(env, sys, events[0]), events[1..]);
    }
  }

  /** Events after which the settings of the namespace are what they were and its timers run on. */
  predicate Benign(e: Event, ns: string)
  {
    match e
    case EditCR(m, _) => m != ns
    case CleanupTimers(m) => m != ns
    case Restart => false
    case _ => true
  }

  /** A user of the namespace whose tokens are to be renewed. */
  ghost predicate Renewing(env: Env, sys: System, ns: string, cr: CR, i: nat)
  {
    && At(sys, ns).store.cr == Some(cr) && DistinctNames(cr.users)
    && i < |cr.users| && cr.users[i].name !in LegacyUsers(cr.extraConfig) && AutoRenewed(env, cr.users[i])
  }

  lemma ReconcileMoves(env: Env, sys: System, m: string, ns: string, cr: CR, i: nat)
    requires Sane(env) && SystemInv(env, sys) && '/' !in ns && '/' !in m && Renewing(env, sys, ns, cr, i)
    ensures var sys' := RunReconcile(env, sys, m);
      Renewing(env, sys', ns, cr, i) && Moved(env, ns, WorldOf(sys, ns), WorldOf(sys', ns), cr.users[i].name)
  {
    var sys' := RunReconcile(env, sys, m);
    var w := WorldOf(sys, m);
    assert NamespaceInv(env, sys, m) && NamespaceInv(env, sys, ns);
    PassKeepsWorld(env, m, w, At(sys, m).exempt);
    if m == ns {
      PassMoves(env, ns, w, At(sys, ns).exempt, cr, i);
      assert WorldOf(sys', ns) == Pass(env, ns, w).w;
    } else {
      TimerKeyPrefix(m, ns, cr.users[i].name);
      assert At(sys', ns) == At(sys, ns);
    }
  }

  lemma GoroutineMoves(env: Env, sys: System, j: nat, ns: string, cr: CR, i: nat)
    requires Sane(env) && SystemInv(env, sys) && '/' !in ns && j < |sys.spawned| && Renewing(env, sys, ns, cr, i)
    ensures var sys' := Apply(env, sys, Goroutine(j));
      Renewing(env, sys', ns, cr, i) && Moved(env, ns, WorldOf(sys, ns), WorldOf(sys', ns), cr.users[i].name)
  {
    var rest := sys.spawned[..j] + sys.spawned[j + 1..];
    SpawnKeepsSystem(env, sys, sys.fired, rest);
    ReconcileMoves(env, sys.(spawned := rest), sys.spawned[j], ns, cr, i);
    assert WorldOf(sys.(spawned := rest), ns) == WorldOf(sys, ns);
  }

  lemma EventMoves(env: Env, sys: System, e: Event, ns: string, cr: CR, i: nat)
    requires Sane(env) && SystemInv(env, sys) && '/' !in ns && NamesNamespace(e) && Benign(e, ns)
    requires Renewing(env, sys, ns, cr, i)
    ensures var sys' := Apply(env, sys, e);
      Renewing(env, sys', ns, cr, i) && Moved(env, ns, WorldOf(sys, ns), WorldOf(sys', ns), cr.users[i].name)
  {
    var v := cr.users[i].name;
    match e
    case Reconcile(m) => ReconcileMoves(env, sys, m, ns, cr, i);
    case Goroutine(j) => if j < |sys.spawned| { GoroutineMoves(env, sys, j, ns, cr, i); }
    case CleanupTimers(m) => TimerKeyPrefix(m, ns, v);
    case _ =>
  }

  /** A token that is still there at the end of a run of such events was there all along, and so was its
      timer. */
  lemma {:induction false} TimerStaysWithToken(
      env: Env, sys: System, events: seq<Event>, ns: string, cr: CR, i: nat)
    requires Sane(env) && SystemInv(env, sys) && '/' !in ns && GoodEvents(events) && Renewing(env, sys, ns, cr, i)
    requires forall e | e in events :: Benign(e, ns)
    ensures var v := cr.users[i].name;
      var w, w' := WorldOf(sys, ns), WorldOf(Run(env, sys, events), ns);
      && (TokenId(w', v).Some? ==> TokenId(w', v) == TokenId(w, v) || TokenId(w', v).value >= w.n)
      && (TokenId(w', v).Some? && TokenId(w', v) == TokenId(w, v) && TimerOf(ns, w, v).Some? ==>
            TimerOf(ns, w', v) == TimerOf(ns, w, v))
    decreases |events|
  {
    if events != [] {
      var v, e := cr.users[i].name, events[0];
      assert e in events && NamesNamespace(e) && forall x | x in events[1..] :: x in events;
      EventMoves(env, sys, e, ns, cr, i);
      ApplyKeepsSystem(env, sys, e);
      var mid := Apply(env, sys, e);
      TimerStaysWithToken(env, mid, events[1..], ns, cr, i);
      assert NamespaceInv(env, sys, ns);
      InvOldId(env, ns, WorldOf(sys, ns), At(sys, ns).exempt, v);
    }
  }

  /** The user has a timer that is still to fire, and is due on time. */
  ghost predicate Armed(env: Env, sys: System, ns: string, v: string)
  {
    var w := WorldOf(sys, ns);
    var i := TimerOf(ns, w, v);
    && i.Some? && i.value !in sys.fired && i.value < |sys.timers.cells|
    && HasSecret(w.store, v) && TheSecret(w.store, v).expAt.Some?
    && var s, deadline := TheSecret(w.store, v), sys.timers.cells[i.value].deadline;
       DueOnTime(env, s.token.id, s.expAt.value, sys.n, deadline) && deadline >= s.expAt.value * SECOND
  }

  /** The stored token has not run out. */
  predicate Running(env: Env, sys: System, ns: string, v: string)
  {
    var w := WorldOf(sys, ns);
    && HasSecret(w.store, v) && TheSecret(w.store, v).expAt.Some?
    && env.clock(sys.n) < TheSecret(w.store, v).expAt.value * SECOND
  }

  /** In every run, a user who has a timer and a token whose issue was completed is armed for as long as the
      token runs. */
  lemma CompletedIsArmed(env: Env, events: seq<Event>, ns: string, v: string)
    requires Sane(env) && GoodEvents(events) && '/' !in ns
    requires var sys := Run(env, START, events); var w := WorldOf(sys, ns);
      && Running(env, sys, ns, v) && TimerOf(ns, w, v).Some?
      && IssueOf(env, TheSecret(w.store, v).token.id).Completed?
    ensures Armed(env, Run(env, START, events), ns, v)
  {
    var sys := Run(env, START, events);
    StartIsGood(env);
    RunAdvances(env, START, events);
    TokensAgreeIff(env, events, ns, v);
    assert env.clock(0) <= env.clock(sys.n);
    var k := TimerKey(ns, v);
    assert NamespaceInv(env, sys, ns);
    assert sys.timers.byKey[k] < |sys.timers.cells|;
  }

  /** After a pass over the namespace and then `later`. */
  function AfterPass(env: Env, sys: System, later: seq<Event>, ns: string): (end: System)
  {
    Run(env, RunReconcile(env, sys, ns), later)
  }

  /** A renewal: the pass begins when the user's timer has fired, and ends with a new token in the user's
      secret, whether or not it reports an error; then come passes, callbacks, goroutines and edits
      elsewhere, and at the end that token is still stored. */
  ghost predicate Renewal(env: Env, sys: System, later: seq<Event>, ns: string, cr: CR, i: nat)
  {
    && GoodEvents(later) && (forall e | e in later :: Benign(e, ns))
    && Renewing(env, sys, ns, cr, i)
    && var v := cr.users[i].name;
       var w, w1 := WorldOf(sys, ns), WorldOf(RunReconcile(env, sys, ns), ns);
       && TimerOf(ns, w, v).Some? && TimerOf(ns, w, v).value in sys.fired
       && TokenId(w1, v).Some? && TokenId(w1, v) != TokenId(w, v)
       && TokenId(WorldOf(AfterPass(env, sys, later, ns), ns), v) == TokenId(w1, v)
  }

  /** The timer after a renewal: a new one if the issue was completed, and otherwise still the one that had
      fired. */
  lemma RenewalTimer(env: Env, sys: System, later: seq<Event>, ns: string, cr: CR, i: nat)
    requires Sane(env) && SystemInv(env, sys) && FiredOnTime(env, sys) && '/' !in ns
    requires Renewal(env, sys, later, ns, cr, i)
    ensures var end := AfterPass(env, sys, later, ns); var w := WorldOf(end, ns); var v := cr.users[i].name;
      && TokenId(w, v).Some? && TimerOf(ns, w, v).Some?
      && (!IssueOf(env, TokenId(w, v).value).Completed? ==> TimerOf(ns, w, v).value in end.fired)
  {
    ReconcileKeepsSystem(env, sys, ns);
    ReconcileMoves(env, sys, ns, ns, cr, i);
    ReconcileAdvances(env, sys, ns);
    var mid := RunReconcile(env, sys, ns);
    TimerStaysWithToken(env, mid, later, ns, cr, i);
    RunAdvances(env, mid, later);
  }

  lemma AfterPassIsRun(env: Env, before: seq<Event>, later: seq<Event>, ns: string)
    requires GoodEvents(before) && GoodEvents(later) && '/' !in ns
    ensures GoodEvents(before + [Reconcile(ns)] + later)
    ensures Run(env, START, before + [Reconcile(ns)] + later) == AfterPass(env, Run(env, START, before), later, ns)
  {
    var sys := Run(env, START, before);
    RunSplit(env, START, before, [Reconcile(ns)]);
    RunSplit(env, START, before + [Reconcile(ns)], later);
    assert Run(env, sys, [Reconcile(ns)]) == RunReconcile(env, sys, ns);
  }

  /** Armed iff completed: in every run, after a renewal, as long as the new token is stored and runs, the user
      is armed exactly when the issue of that token was completed. */
  lemma RenewedIsArmedIff(env: Env, before: seq<Event>, later: seq<Event>, ns: string, cr: CR, i: nat)
    requires Sane(env) && GoodEvents(before) && '/' !in ns
    requires Renewal(env, Run(env, START, before), later, ns, cr, i)
    requires Running(env, AfterPass(env, Run(env, START, before), later, ns), ns, cr.users[i].name)
    ensures var end := AfterPass(env, Run(env, START, before), later, ns); var v := cr.users[i].name;
      Armed(env, end, ns, v) <==> IssueOf(env, TokenId(WorldOf(end, ns), v).value).Completed?
  {
    var sys, v := Run(env, START, before), cr.users[i].name;
    StartIsGood(env);
    RunAdvances(env, START, before);
    RenewalTimer(env, sys, later, ns, cr, i);
    AfterPassIsRun(env, before, later, ns);
    if IssueOf(env, TokenId(WorldOf(AfterPass(env, sys, later, ns), ns), v).value).Completed? {
      CompletedIsArmed(env, before + [Reconcile(ns)] + later, ns, v);
    }
  }

  /** Without a new token a timer that has fired is not replaced: as after a pass at exactly the expiry, which
      keeps the token because it has not run out yet. */
  lemma UnrenewedIsUnarmed(env: Env, sys: System, later: seq<Event>, ns: string, cr: CR, i: nat)
    requires Sane(env) && SystemInv(env, sys) && FiredOnTime(env, sys) && GoodEvents(later) && '/' !in ns
    requires forall e | e in later :: Benign(e, ns)
    requires Renewing(env, sys, ns, cr, i)
    requires var v := cr.users[i].name;
      && TimerOf(ns, WorldOf(sys, ns), v).Some? && TimerOf(ns, WorldOf(sys, ns), v).value in sys.fired
      && TokenId(WorldOf(Run(env, sys, later), ns), v) == TokenId(WorldOf(sys, ns), v)
      && TokenId(WorldOf(sys, ns), v).Some?
    ensures !Armed(env, Run(env, sys, later), ns, cr.users[i].name)
  {
    TimerStaysWithToken(env, sys, later, ns, cr, i);
    RunAdvances(env, sys, later);
  }

  /** A failing renewal: the only user's token has run out, its issue prepares and writes the secret, and the
      write of the entry is rejected. The pass fails with a new token in the secret. */
  lemma RejectedRenewal(env: Env, ns: string, w: World, cr: CR, u: UserSpec)
    requires w.store.cr == Some(cr) && cr.users == [u] && u.name !in LegacyUsers(cr.extraConfig) && AutoRenewed(env, u)
    requires HasSecret(w.store, u.name) && w.store.argocd.Some? && w.store.argocd.value.signingKey.Some?
    requires var e := TheSecret(w.store, u.name).expAt;
      e.Some? && e.value != 0 && env.clock(w.n + 2) > e.value * SECOND
    requires ErrorFree(env, w.n, w.n + 10) && env.outcome(w.n + 10).Rejected?
    ensures var s := Pass(env, ns, w);
      !s.ok && TokenId(s.w, u.name) == Some(w.n + 4) && IssueOf(env, w.n + 4).Torn?
  {
    assert forall i: nat | w.n <= i < w.n + 10 :: env.outcome(i).Done?;
    assert env.outcome(w.n).Done? && env.outcome(w.n + 1).Done? && env.outcome(w.n + 8).Done?;
    assert env.outcome(w.n + 9).Done?;
    var p := MakePlan(env, u).value;
    var w1, w2 := Tick(w), Tick(Tick(w));
    var m := Expired(env, w2, p, TheSecret(w.store, u.name).expAt.value).1;
    assert m == Tick(w2);
    assert env.outcome(m.n).Done? && env.outcome(m.n + 1).Done?;
    assert env.outcome(m.n + 3).Done? && env.outcome(m.n + 4).Done?;
    IssueByAnswers(env, m, u.name, p);
    var t := ReconcileUser(env, ns, w1, ExtraApiKey(cr.extraConfig, u.name), u);
    assert t == IssueAndSchedule(env, ns, m, u.name, p);
    assert cr.users[0] == u;
    assert !t.ok && Pass(env, ns, w).w == t.w;
  }
}
