/** The time-limited token of the Dex OAuth client: when a stored token is handed out again, when a new
    one is requested, and when the operator wakes up to renew it. */
module DexTokens {
  import opened Platform
  import opened Rbac

  /** The lifetime that is asked for, and the share of it that calls for renewal. */
  const EXPIRY_SECONDS: int := 3600
  const THRESHOLD_PERCENT: int := 33

  /** dexServerTokenRenewalThreshold: whole seconds, in nanoseconds. */
  const THRESHOLD: int := (EXPIRY_SECONDS * THRESHOLD_PERCENT / 100) * SECOND

  datatype Issue = Issue(token: string, expiry: int)

  /** The surroundings: what the TokenRequest API issues at a call, and the RFC 3339 form of instants. */
  datatype Tools = Tools(env: Env, issue: nat -> Issue, parse: string -> Option<int>, format: int -> string)

  /** Time never goes back, and the RFC 3339 form of an instant is read back to the second. */
  ghost predicate Good(t: Tools)
  {
    && (forall i: nat, j: nat :: i <= j ==> t.env.clock(i) <= t.env.clock(j))
    && (forall x: int :: t.parse(t.format(x)) == Some(UnixSeconds(x) * SECOND))
  }

  /** Per namespace: the Dex service account, the data of the token secret, and the stored requeue delay.
      `issued` remembers every token the API has handed to the operator. */
  datatype World = World(
    accounts: set<string>,
    secrets: map<string, map<string, string>>,
    requeue: map<string, int>,
    issued: set<Issue>,
    n: nat)

  predicate Answered(t: Tools, n: nat) { t.env.outcome(n).Done? }

  /** The expiry of a secret that holds a token and an expiry that can be read. */
  function Usable(t: Tools, data: map<string, string>): (r: Option<int>)
  {
    if "token" in data && data["token"] != "" && "expiry" in data then t.parse(data["expiry"]) else None
  }

  /** needsDexTokenRenewal */
  predicate NeedsRenewal(t: Tools, data: map<string, string>, now: int)
  {
    || "token" !in data || data["token"] == ""
    || "expiry" !in data
    || t.parse(data["expiry"]).None?
    || t.parse(data["expiry"]).value - now < THRESHOLD
  }

  function Schedule(w: World, ns: string, d: int): (r: World)
  {
    if d > 0 then w.(requeue := w.requeue[ns := d]) else w
  }

  datatype Handout = Handout(w: World, token: Option<string>)

  /** The second part of getDexOAuthClientSecret: request, store, schedule. */
  function Renew(t: Tools, w: World, ns: string): (r: Handout)
  {
    if !Answered(t, w.n) then Handout(w.(n := w.n + 1), None)
    else
      var i := t.issue(w.n);
      var data := map["token" := i.token, "expiry" := t.format(i.expiry)];
      var o := t.env.outcome(w.n + 1);
      var w1 := w.(issued := w.issued + {i}, n := w.n + 2,
                   secrets := if o.Rejected? then w.secrets else w.secrets[ns := data]);
      if !o.Done? then Handout(w1, None)
      else Handout(Schedule(w1.(n := w.n + 3), ns, i.expiry - t.env.clock(w.n + 2) - THRESHOLD), Some(i.token))
  }

  /** The clock reading that decides between the stored token and a new one is the third call. */
  function CheckTime(t: Tools, w: World): (r: int) { t.env.clock(w.n + 2) }

  /** The service account, the secret and that clock reading are behind. */
  function AfterCheck(w: World): (r: World) { w.(n := w.n + 3) }

  predicate Reuses(t: Tools, w: World, ns: string)
  {
    ns in w.secrets && !NeedsRenewal(t, w.secrets[ns], CheckTime(t, w))
  }

  /** getDexOAuthClientSecret with renewal enabled. The reused token is scheduled by a clock reading of
      its own. */
  function GetToken(t: Tools, w: World, ns: string): (r: Handout)
  {
    if !Answered(t, w.n) || ns !in w.accounts then Handout(w.(n := w.n + 1), None)
    else if !Answered(t, w.n + 1) then Handout(w.(n := w.n + 2), None)
    else if Reuses(t, w, ns) then
      var expiry := t.parse(w.secrets[ns]["expiry"]).value;
      Handout(Schedule(w.(n := w.n + 4), ns, expiry - t.env.clock(w.n + 3) - THRESHOLD), Some(w.secrets[ns]["token"]))
    else Renew(t, AfterCheck(w), ns)
  }

  /** Renewing: Dex is used and renewal is on. Legacy: renewal is off, whether Dex is used or not; the token
      secret goes. Unused: renewal is on, but Dex is not used. */
  datatype Mode = Renewing | Legacy | Unused

  /** reconcileSecrets goes by the renewal flag alone, the rest also by whether Dex is the provider. */
  function ModeOf(useDex: bool, renewal: bool): (m: Mode)
  {
    if !renewal then Legacy else if useDex then Renewing else Unused
  }

  datatype Result = Result(w: World, token: Option<string>, requeue: Option<int>, ok: bool)

  /** reconcileDexTokenRequestSecret */
  function DropSecret(t: Tools, w: World, ns: string): (r: Handout)
  {
    if !Answered(t, w.n) then Handout(w.(n := w.n + 1), None)
    else if ns !in w.secrets then Handout(w.(n := w.n + 1), Some(""))
    else
      var o := t.env.outcome(w.n + 1);
      Handout(w.(n := w.n + 2, secrets := if o.Rejected? then w.secrets else w.secrets - {ns}),
              if o.Done? then Some("") else None)
  }

  /** A whole reconciliation, as far as the token goes: one more call stands for all other resources. */
  function Pass(t: Tools, w: World, ns: string, mode: Mode): (r: Result)
  {
    var h := match mode
      case Renewing => GetToken(t, w, ns)
      case Legacy => DropSecret(t, w, ns)
      case Unused => Handout(w, Some(""));
    var token := if mode.Renewing? then h.token else None;
    var w1 := h.w.(n := h.w.n + 1);
    if h.token.None? then Result(h.w, None, None, false)
    else if !Answered(t, h.w.n) then Result(w1, token, None, false)
    else if mode.Renewing? then Result(w1, token, Lookup(w1.requeue, ns), true)
    else Result(w1.(requeue := w1.requeue - {ns}), None, None, true)
  }

  datatype Event =
    | Reconcile(ns: string, mode: Mode)
    | SetAccounts(accounts: set<string>)
    | Restart

  const START := World({}, map[], map[], {}, 0)

  /** A restart forgets the stored delays. */
  function Apply(t: Tools, w: World, e: Event): (r: World)
  {
    match e
    case Reconcile(ns, mode) => Pass(t, w, ns, mode).w
    case SetAccounts(accounts) => w.(accounts := accounts)
    case Restart => w.(requeue := map[])
  }

  function Run(t: Tools, w: World, events: seq<Event>): (r: World)
    decreases |events|
  {
    if events == [] then w else Apply(t, Run(t, w, events[..|events| - 1]), events[|events| - 1])
  }
}
