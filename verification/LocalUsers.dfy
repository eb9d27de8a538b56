/** The local-user token protocol as state transformers.

    A pass keeps three things in step for every user: the secret `<user>-local-user`, the entry
    `accounts.<user>.tokens` of `argocd-secret`, and a renewal timer. `World` is what one pass
    over one namespace can see and change; each function below is one Go function, reading its
    API results and the clock from `Env` at the running call index `n`. */
module LocalUsers {
  import opened Platform
  import opened LocalUserNames

  // ---------- Declared users ----------

  datatype UserSpec = UserSpec(
    name: string,
    enabled: Option<bool>,
    apiKey: Option<bool>,
    autoRenew: Option<bool>,
    lifetime: string)

  datatype CR = CR(users: seq<UserSpec>, extraConfig: map<string, string>)

  /** Should the user have a secret and a token at all? */
  predicate WantsToken(u: UserSpec) { Flag(u.apiKey) && Flag(u.enabled) }

  /** The cases in which a pass begins by stopping the user's timer. */
  predicate MustStop(u: UserSpec)
  {
    || !Flag(u.enabled)
    || !Flag(u.autoRenew)
    || TrimSpace(u.lifetime) in {"", "0"}
    || !Flag(u.apiKey)
  }

  /** The normalised token settings of a user. */
  datatype Plan = Plan(lifetime: string, duration: int, autoRenew: bool)

  function MakePlan(env: Env, u: UserSpec): (r: Option<Plan>)
    ensures r.Some? ==> r.value.duration >= 0 && r.value.autoRenew == Flag(u.autoRenew)
  {
    var text := TrimSpace(u.lifetime);
    if text == "" then Some(Plan("0h", 0, Flag(u.autoRenew)))
    else match env.parseDuration(text)
      case None => None
      case Some(d) =>
        if d < 0 then None
        else Some(Plan(if d == 0 then "0h" else text, d, Flag(u.autoRenew)))
  }

  function AutoRenewText(b: bool): (r: string) { if b then "true" else "false" }

  // ---------- Stored objects ----------

  /** The registered claims of RFC 7519, sections 4.1.1 to 4.1.7, and the key that signed them. */
  datatype Jwt = Jwt(
    issuer: string, subject: string, expires: Option<int>, notBefore: int, issuedAt: int, id: nat, key: int)

  /** `expAt` is None when the stored text is not a number. */
  datatype UserSecret = UserSecret(
    user: string, expAt: Option<int>, lifetime: string, autoRenew: string, token: Jwt)

  datatype Entry = Entry(id: nat, issuedAt: int, expiresAt: int)

  datatype ArgoSecret = ArgoSecret(signingKey: Option<int>, accounts: map<string, Entry>)

  datatype Store = Store(cr: Option<CR>, secrets: map<string, UserSecret>, argocd: Option<ArgoSecret>)

  // ---------- Timers ----------

  /** A renewal timer made for a user of a namespace, due at `deadline`. */
  datatype Cell = Cell(namespace: string, user: string, deadline: int)

  /** Every timer ever made, the ones whose `stopped` flag is set, and the timer map. */
  datatype Timers = Timers(cells: seq<Cell>, stopped: set<nat>, byKey: map<string, nat>)

  function StopTimer(t: Timers, key: string): (r: Timers)
  {
    if key in t.byKey then t.(stopped := t.stopped + {t.byKey[key]}, byKey := t.byKey - {key}) else t
  }

  function StartTimer(t: Timers, namespace: string, user: string, deadline: int): (r: Timers)
  {
    var key := TimerKey(namespace, user);
    var t' := StopTimer(t, key);
    t'.(cells := t'.cells + [Cell(namespace, user, deadline)], byKey := t'.byKey[key := |t.cells|])
  }

  // ---------- The world of one pass ----------

  /** How the latest token of a user was issued: its secret and its entry both written and
      acknowledged; both written, the second without acknowledgement; or only the secret. */
  datatype Issue = Completed | Unconfirmed | Torn

  /** `ledger` is history: it records `Issue` per user and decides nothing. `writes` counts
      write calls. */
  datatype World = World(store: Store, timers: Timers, ledger: map<string, Issue>, n: nat, writes: nat)

  datatype Step = Step(w: World, ok: bool)

  function Tick(w: World): (r: World) { w.(n := w.n + 1) }

  predicate Answered(env: Env, w: World) { env.outcome(w.n).Done? }

  /** A write call: the new store and ledger take hold unless the call was rejected. */
  function Write(env: Env, w: World, store: Store, ledger: map<string, Issue>): (r: Step)
  {
    var o := env.outcome(w.n);
    var w' := w.(n := w.n + 1, writes := w.writes + 1);
    Step(if o.Rejected? then w' else w'.(store := store, ledger := ledger), o.Done?)
  }

  function PutSecret(s: Store, name: string, secret: UserSecret): (r: Store)
  {
    s.(secrets := s.secrets[name := secret])
  }

  function PutEntry(s: Store, key: string, e: Entry): (r: Store)
    requires s.argocd.Some?
  {
    s.(argocd := Some(s.argocd.value.(accounts := s.argocd.value.accounts[key := e])))
  }

  function DropEntry(s: Store, key: string): (r: Store)
    requires s.argocd.Some?
  {
    s.(argocd := Some(s.argocd.value.(accounts := s.argocd.value.accounts - {key})))
  }

  predicate HasEntry(s: Store, user: string)
  {
    s.argocd.Some? && TokenKey(user) in s.argocd.value.accounts
  }

  function TheEntry(s: Store, user: string): (r: Entry)
    requires HasEntry(s, user)
  {
    s.argocd.value.accounts[TokenKey(user)]
  }

  predicate HasSecret(s: Store, user: string) { SecretName(user) in s.secrets }

  function TheSecret(s: Store, user: string): (r: UserSecret)
    requires HasSecret(s, user)
  {
    s.secrets[SecretName(user)]
  }

  // ---------- Issuing a token ----------

  /** What a new token is made from. */
  datatype Draft = Draft(id: nat, issuedAt: int, key: int)

  datatype Prepared = Prepared(n: nat, draft: Option<Draft>)

  /** The part of issueToken before its first write: look up the secret, draw a unique id, read
      the clock, fetch the signing key and sign. Ids are call indices, so none is drawn twice. */
  function Prepare(env: Env, w: World): (r: Prepared)
    ensures w.n <= r.n
    ensures r.draft.Some? ==> w.n <= r.draft.value.id < r.n && r.draft.value.issuedAt == env.clock(r.draft.value.id + 1)
  {
    var n := w.n;
    if !env.outcome(n).Done? then Prepared(n + 1, None)
    else if !env.outcome(n + 1).Done? then Prepared(n + 2, None)
    else if !env.outcome(n + 3).Done? then Prepared(n + 4, None)
    else if w.store.argocd.None? || w.store.argocd.value.signingKey.None? then Prepared(n + 4, None)
    else if !env.outcome(n + 4).Done? then Prepared(n + 5, None)
    else Prepared(n + 5, Some(Draft(n + 1, env.clock(n + 2), w.store.argocd.value.signingKey.value)))
  }

  function ExpiresAt(issuedAt: int, duration: int): (r: int)
  {
    if duration > 0 then UnixSeconds(issuedAt + duration) else 0
  }

  function MakeJwt(user: string, d: Draft, duration: int): (r: Jwt)
  {
    Jwt("argocd", user + ":apiKey",
        if duration > 0 then Some(UnixSeconds(d.issuedAt + duration)) else None,
        UnixSeconds(d.issuedAt), UnixSeconds(d.issuedAt), d.id, d.key)
  }

  function MakeSecret(user: string, p: Plan, d: Draft): (r: UserSecret)
  {
    UserSecret(user, Some(ExpiresAt(d.issuedAt, p.duration)), p.lifetime, AutoRenewText(p.autoRenew),
               MakeJwt(user, d, p.duration))
  }

  function MakeEntry(p: Plan, d: Draft): (r: Entry)
  {
    Entry(d.id, UnixSeconds(d.issuedAt), ExpiresAt(d.issuedAt, p.duration))
  }

  /** The part of issueToken that writes: first the user secret, then the token entry. */
  function CommitSecret(env: Env, w: World, user: string, p: Plan, d: Draft): (r: Step)
  {
    Write(env, w, PutSecret(w.store, SecretName(user), MakeSecret(user, p, d)), w.ledger[user := Torn])
  }

  function CommitEntry(env: Env, w: World, user: string, p: Plan, d: Draft): (r: Step)
  {
    if !Answered(env, w) || w.store.argocd.None? then Step(Tick(w), false)
    else
      var issue := if env.outcome(w.n + 1).Done? then Completed else Unconfirmed;
      Write(env, Tick(w), PutEntry(w.store, TokenKey(user), MakeEntry(p, d)), w.ledger[user := issue])
  }

  function IssueToken(env: Env, w: World, user: string, p: Plan): (r: Step)
  {
    var pre := Prepare(env, w);
    var w1 := w.(n := pre.n);
    if pre.draft.None? then Step(w1, false)
    else
      var s := CommitSecret(env, w1, user, p, pre.draft.value);
      if !s.ok then s else CommitEntry(env, s.w, user, p, pre.draft.value)
  }

  function Schedule(env: Env, ns: string, w: World, user: string, wait: int): (r: World)
  {
    Tick(w).(timers := StartTimer(w.timers, ns, user, env.clock(w.n) + wait))
  }

  /** Issue a token and, when it is to be renewed, start its timer. */
  function IssueAndSchedule(env: Env, ns: string, w: World, user: string, p: Plan): (r: Step)
  {
    var s := IssueToken(env, w, user, p);
    if s.ok && p.duration > 0 && p.autoRenew then Step(Schedule(env, ns, s.w, user, p.duration), true) else s
  }

  // ---------- One user ----------

  /** Remove the token entry, unless it is to be kept because extraConfig gives the user apiKey. */
  function RemoveEntry(env: Env, w: World, keep: bool, user: string): (r: Step)
  {
    if keep then Step(w, true)
    else if !Answered(env, w) || w.store.argocd.None? then Step(Tick(w), false)
    else if !HasEntry(w.store, user) then Step(Tick(w), true)
    else Write(env, Tick(w), DropEntry(w.store, TokenKey(user)), w.ledger)
  }

  /** cleanupLocalUser: the entry first, then the secret named `secret`, if there is one. */
  function CleanupUser(env: Env, w: World, keep: bool, user: string, secret: Option<string>): (r: Step)
  {
    var s := RemoveEntry(env, w, keep, user);
    if !s.ok || secret.None? then s
    else Write(env, s.w, s.w.store.(secrets := s.w.store.secrets - {secret.value}), s.w.ledger)
  }

  /** Has the token run out? The clock is read only for an auto-renewed token with an expiry. */
  function Expired(env: Env, w: World, p: Plan, expAt: int): (r: (bool, World))
  {
    if p.autoRenew && expAt != 0 then (env.clock(w.n) > expAt * SECOND, Tick(w)) else (false, w)
  }

  /** Store a changed autoRenew value. */
  function SyncAutoRenew(env: Env, w: World, user: string, p: Plan, secret: UserSecret): (r: Step)
  {
    if secret.autoRenew == AutoRenewText(p.autoRenew) then Step(w, true)
    else Write(env, w, PutSecret(w.store, SecretName(user), secret.(autoRenew := AutoRenewText(p.autoRenew))), w.ledger)
  }

  /** Schedule the renewal of a token that is kept, if it is not scheduled yet. */
  function EnsureTimer(env: Env, ns: string, w: World, user: string, p: Plan, expAt: int): (r: World)
  {
    if !p.autoRenew || p.duration == 0 || TimerKey(ns, user) in w.timers.byKey then w
    else if expAt == 0 then Schedule(env, ns, w, user, p.duration)
    else Schedule(env, ns, Tick(w), user, expAt * SECOND - env.clock(w.n))
  }

  /** The token is kept: bring autoRenew and the timer up to date. */
  function KeepToken(env: Env, ns: string, w: World, user: string, p: Plan, secret: UserSecret, expAt: int): (r: Step)
  {
    var s := SyncAutoRenew(env, w, user, p, secret);
    if !s.ok then s else Step(EnsureTimer(env, ns, s.w, user, p, expAt), true)
  }

  /** An enabled user whose secret exists. */
  function KeepOrRenew(env: Env, ns: string, w: World, user: string, p: Plan, secret: UserSecret): (r: Step)
  {
    if secret.expAt.None? then Step(w, false)
    else
      var expAt := secret.expAt.value;
      var (expired, w1) := Expired(env, w, p, expAt);
      if expired || p.lifetime != secret.lifetime || (expAt == 0 && p.duration != 0) then
        IssueAndSchedule(env, ns, w1, user, p)
      else if !Answered(env, w1) || w1.store.argocd.None? then Step(Tick(w1), false)
      else if !HasEntry(w1.store, user) then IssueAndSchedule(env, ns, Tick(w1), user, p)
      else KeepToken(env, ns, Tick(w1), user, p, secret, expAt)
  }

  function StopIfNeeded(ns: string, w: World, u: UserSpec): (r: World)
  {
    if MustStop(u) then w.(timers := StopTimer(w.timers, TimerKey(ns, u.name))) else w
  }

  /** The user's settings are valid and its secret has been looked up. `keep` says that extraConfig
      gives the user apiKey. */
  function HandleUser(env: Env, ns: string, w: World, keep: bool, u: UserSpec, p: Plan): (r: Step)
  {
    var found := HasSecret(w.store, u.name);
    if !WantsToken(u) then CleanupUser(env, w, keep, u.name, if found then Some(SecretName(u.name)) else None)
    else if !found then IssueAndSchedule(env, ns, w, u.name, p)
    else KeepOrRenew(env, ns, w, u.name, p, TheSecret(w.store, u.name))
  }

  /** reconcileLocalUser. */
  function ReconcileUser(env: Env, ns: string, w: World, keep: bool, u: UserSpec): (r: Step)
  {
    var w0 := StopIfNeeded(ns, w, u);
    match MakePlan(env, u)
    case None => Step(w0, false)
    case Some(p) =>
      if !Answered(env, w0) then Step(Tick(w0), false) else HandleUser(env, ns, Tick(w0), keep, u, p)
  }

  // ---------- One pass ----------

  predicate Declared(cr: CR, user: string)
  {
    exists i | 0 <= i < |cr.users| :: cr.users[i].name == user
  }

  function ReconcileUsers(env: Env, ns: string, w: World, cr: CR, users: seq<UserSpec>): (r: Step)
    decreases |users|
  {
    if users == [] then Step(w, true)
    else if users[0].name in LegacyUsers(cr.extraConfig) then ReconcileUsers(env, ns, w, cr, users[1..])
    else
      var s := ReconcileUser(env, ns, w, ExtraApiKey(cr.extraConfig, users[0].name), users[0]);
      if !s.ok then s else ReconcileUsers(env, ns, s.w, cr, users[1..])
  }

  /** One listed secret: when its user is not declared, stop the timer and clean up. */
  function CleanupListed(env: Env, ns: string, w: World, cr: CR, name: string, secret: UserSecret): (r: Step)
  {
    if Declared(cr, secret.user) then Step(w, true)
    else
      var w0 := w.(timers := StopTimer(w.timers, TimerKey(ns, secret.user)));
      CleanupUser(env, w0, ExtraApiKey(cr.extraConfig, secret.user), secret.user, Some(name))
  }

  function CleanupItems(
      env: Env, ns: string, w: World, cr: CR, items: seq<string>, listed: map<string, UserSecret>): (r: Step)
    decreases |items|
  {
    if items == [] then Step(w, true)
    else if items[0] !in listed then CleanupItems(env, ns, w, cr, items[1..], listed)
    else
      var s := CleanupListed(env, ns, w, cr, items[0], listed[items[0]]);
      if !s.ok then s else CleanupItems(env, ns, s.w, cr, items[1..], listed)
  }

  /** cleanupLocalUsers. */
  function CleanupUsers(env: Env, ns: string, w: World, cr: CR): (r: Step)
  {
    if !Answered(env, w) then Step(Tick(w), false)
    else CleanupItems(env, ns, Tick(w), cr, env.listing(w.n, w.store.secrets.Keys), w.store.secrets)
  }

  function RunPass(env: Env, ns: string, w: World, cr: CR): (r: Step)
  {
    var s := ReconcileUsers(env, ns, w, cr, cr.users);
    if !s.ok then s else CleanupUsers(env, ns, s.w, cr)
  }

  /** reconcileLocalUsers. */
  function Pass(env: Env, ns: string, w: World): (r: Step)
  {
    if !Answered(env, w) then Step(Tick(w), false)
    else if w.store.cr.None? then Step(Tick(w), true)
    else RunPass(env, ns, Tick(w), w.store.cr.value)
  }
}
