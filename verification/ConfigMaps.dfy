/** The main ConfigMap `argocd-cm`: how its data are built, how an existing one is brought in line, and
    how its owner reference is repaired. */
module ConfigMaps {
  import opened Platform
  import opened Text
  import opened LocalUserNames

  type Data = map<string, string>

  const DEX_KEY := "dex.config"
  const MASK_KEY := "resource.sensitive.mask.annotations"
  const TERMINAL_KEY := "exec.enabled"
  const FINE_GRAINED_KEY := "server.rbac." + "disableApplicationFineGrainedRBACInheritance"
  const TOKEN_ANNOTATION := "openshift.io/token-secret.value"

  /** Go reads an absent key as "". */
  function Get(d: Data, k: string): (r: string) { if k in d then d[k] else "" }

  // ---------- What the ArgoCD resource asks for ----------

  datatype Banner = Banner(content: string, url: string, permanent: bool, position: string)

  datatype User = User(name: string, enabled: Option<bool>, apiKey: Option<bool>, login: bool)

  /** `first` and `last` are the keys that every argocd-cm gets, before and after the resource
      customizations. Values that may fail to be computed are options. */
  datatype Spec = Spec(
    first: Data,
    installationID: string,
    kustomizeVersions: seq<(string, string)>,
    oidc: string,
    healthChecks: Data,
    ignoreDifferences: Option<Data>,
    actions: Data,
    last: Option<Data>,
    useDex: bool,
    dexConfig: string,
    openShiftOAuth: bool,
    openShiftDexConfig: Option<string>,
    banner: Option<Banner>,
    users: seq<User>,
    extraConfig: Data,
    openShift: bool)

  // ---------- Building the data ----------

  function WithVersions(d: Data, versions: seq<(string, string)>): (r: Data)
    decreases |versions|
  {
    if versions == [] then d
    else WithVersions(d["kustomize.version." + versions[0].0 := versions[0].1], versions[1..])
  }

  function WithBanner(d: Data, b: Option<Banner>): (r: Data)
  {
    if b.None? || b.value.content == "" then d
    else
      var d1 := d["ui.bannercontent" := b.value.content];
      var d2 := if b.value.url != "" then d1["ui.bannerurl" := b.value.url] else d1;
      var d3 := if b.value.permanent then d2["ui.bannerpermanent" := "true"] else d2;
      if b.value.position != "" then d3["ui.bannerposition" := b.value.position] else d3
  }

  /** The capabilities of a user, "" for none. */
  function Capabilities(u: User): (r: string)
  {
    if Flag(u.apiKey) && u.login then "apiKey, login"
    else if Flag(u.apiKey) then "apiKey"
    else if u.login then "login"
    else ""
  }

  function EnabledText(u: User): (r: string) { if Flag(u.enabled) then "true" else "false" }

  function WithUser(d: Data, u: User): (r: Data)
  {
    var d1 := if Capabilities(u) != "" then d[AccountKey(u.name) := Capabilities(u)] else d;
    d1[AccountKey(u.name) + ".enabled" := EnabledText(u)]
  }

  /** Users that extraConfig declares are left to it. */
  function WithUsers(d: Data, users: seq<User>, legacy: set<string>): (r: Data)
    decreases |users|
  {
    if users == [] then d
    else WithUsers(if users[0].name in legacy then d else WithUser(d, users[0]), users[1..], legacy)
  }

  /** The value for the mask list: the annotation is appended unless it is there. */
  function Mask(existing: string): (r: string)
  {
    if existing == "" then TOKEN_ANNOTATION
    else if TOKEN_ANNOTATION in Items(SplitComma(existing)) then existing
    else existing + "," + TOKEN_ANNOTATION
  }

  /** getDexConfig, or the OpenShift configuration where that is asked for. */
  function DexConfig(s: Spec): (r: Option<string>)
  {
    if s.openShiftOAuth then s.openShiftDexConfig
    else if Get(s.extraConfig, DEX_KEY) != "" then Some(s.extraConfig[DEX_KEY])
    else Some(s.dexConfig)
  }

  /** Everything but extraConfig and what follows it. */
  function Generated(s: Spec): (r: Option<Data>)
  {
    if s.ignoreDifferences.None? || s.last.None? || (s.useDex && DexConfig(s).None?) then None
    else
      var d1 := if s.installationID != "" then s.first["installationID" := s.installationID] else s.first;
      var d2 := WithVersions(d1, s.kustomizeVersions)["oidc.config" := s.oidc];
      var d3 := d2 + s.healthChecks + s.ignoreDifferences.value + s.actions + s.last.value;
      var d4 := if s.useDex then d3[DEX_KEY := DexConfig(s).value] else d3;
      Some(WithUsers(WithBanner(d4, s.banner), s.users, LegacyUsers(s.extraConfig)))
  }

  function Overlay(s: Spec, d: Data): (r: Data)
  {
    var d1 := d + s.extraConfig;
    var d2 := if FINE_GRAINED_KEY in d1 then d1 else d1[FINE_GRAINED_KEY := "false"];
    if s.openShift then d2[MASK_KEY := Mask(Get(d2, MASK_KEY))] else d2
  }

  function Build(s: Spec): (r: Option<Data>)
  {
    match Generated(s) case None => None case Some(d) => Some(Overlay(s, d))
  }

  /** The data that an existing ConfigMap is brought to: with Dex in use its key is Dex's own. */
  function Final(s: Spec): (r: Option<Data>)
  {
    match Build(s)
    case None => None
    case Some(d) => Some(if s.useDex then d[DEX_KEY := DexConfig(s).value] else d)
  }

  // ---------- Owner references ----------

  datatype OwnerRef = OwnerRef(apiVersion: string, kind: string, name: string, uid: string, controller: bool)

  /** The ArgoCD resource as an owner. */
  datatype Owner = Owner(apiVersion: string, kind: string, name: string, uid: string)

  predicate Names(ref: OwnerRef, o: Owner)
  {
    ref.apiVersion == o.apiVersion && ref.kind == o.kind && ref.name == o.name && ref.uid == o.uid
  }

  datatype Repair = Repair(refs: seq<OwnerRef>, changed: bool, ok: bool)

  /** The first reference of the owner's kind, or the number of references. */
  function FirstOfKind(refs: seq<OwnerRef>, kind: string): (i: nat)
    ensures i <= |refs|
    ensures i < |refs| ==> refs[i].kind == kind
    ensures forall j | 0 <= j < i :: refs[j].kind != kind
  {
    if refs == [] || refs[0].kind == kind then 0 else 1 + FirstOfKind(refs[1..], kind)
  }

  /** SetControllerReference refuses an object that another one controls. */
  predicate Controlled(refs: seq<OwnerRef>) { exists i | 0 <= i < |refs| :: refs[i].controller }

  /** modifyOwnerReferenceIfNeeded */
  function RepairOwner(refs: seq<OwnerRef>, o: Owner): (r: Repair)
  {
    var i := FirstOfKind(refs, o.kind);
    if i < |refs| then
      var fixed := refs[i].(apiVersion := o.apiVersion, uid := o.uid, name := o.name);
      Repair(refs[i := fixed], fixed != refs[i], true)
    else if Controlled(refs) then Repair(refs, false, false)
    else Repair(refs + [OwnerRef(o.apiVersion, o.kind, o.name, o.uid, true)], true, true)
  }

  // ---------- Reconciling ----------

  /** `data` is None for a ConfigMap whose data map is nil. */
  datatype ConfigMap = ConfigMap(data: Option<Data>, owners: seq<OwnerRef>)

  function DataOf(c: ConfigMap): (r: Data) { match c.data case None => map[] case Some(d) => d }

  /** The deployments that a changed ConfigMap is rolled out to. */
  datatype Deployment = DexServer | Server

  /** The ConfigMap and which of the deployments exist; `writes` counts the writes to any of the three, and
      `rollouts`, as history, the rollouts of each deployment that took hold. */
  datatype World = World(
    cm: Option<ConfigMap>, deployments: set<Deployment>, n: nat, writes: nat, rollouts: multiset<Deployment>)

  datatype Step = Step(w: World, ok: bool)

  predicate Answered(env: Env, w: World) { env.outcome(w.n).Done? }

  function Tick(w: World): (r: World) { w.(n := w.n + 1) }

  function PutConfigMap(env: Env, w: World, c: ConfigMap): (r: Step)
  {
    var o := env.outcome(w.n);
    Step(w.(n := w.n + 1, writes := w.writes + 1, cm := if o.Rejected? then w.cm else Some(c)), o.Done?)
  }

  /** Look for a deployment and label it anew if it is there. */
  function Rollout(env: Env, w: World, d: Deployment): (r: Step)
  {
    if !Answered(env, w) then Step(Tick(w), false)
    else if d !in w.deployments then Step(Tick(w), true)
    else
      var o := env.outcome(w.n + 1);
      Step(w.(n := w.n + 2, writes := w.writes + 1,
              rollouts := if o.Rejected? then w.rollouts else w.rollouts + multiset{d}),
           o.Done?)
  }

  /** Assigning to a nil data map ends the reconciliation with a panic. */
  predicate Panics(c: ConfigMap, dex: string) { c.data.None? && dex != "" }

  /** reconcileDexConfiguration on the ConfigMap that was read. */
  function ReconcileDex(env: Env, w: World, c: ConfigMap, dex: string): (r: Step)
  {
    if Get(DataOf(c), DEX_KEY) == dex then Step(w, true)
    else if Panics(c, dex) then Step(w, false)
    else
      var s := PutConfigMap(env, w, c.(data := Some(DataOf(c)[DEX_KEY := dex])));
      if !s.ok then s else Rollout(env, s.w, DexServer)
  }

  /** The rest of the update, on the copy `c` in the operator's memory. */
  function Align(env: Env, w: World, c: ConfigMap, data: Data, o: Owner, terminalChanged: bool): (r: Step)
  {
    var r := RepairOwner(c.owners, o);
    if !r.ok then Step(w, false)
    else if c.data == Some(data) && !r.changed then Step(w, true)
    else
      var s := PutConfigMap(env, w, ConfigMap(Some(data), r.refs));
      if !s.ok || !terminalChanged then s else Rollout(env, s.w, Server)
  }

  /** What the operator's copy holds after reconcileDexConfiguration. */
  function WithDex(c: ConfigMap, dex: string): (r: ConfigMap)
  {
    if Get(DataOf(c), DEX_KEY) == dex then c else c.(data := Some(DataOf(c)[DEX_KEY := dex]))
  }

  function Update(env: Env, w: World, s: Spec, c: ConfigMap, data: Data, o: Owner): (r: Step)
    requires s.useDex ==> DexConfig(s).Some?
  {
    var terminalChanged := Get(data, TERMINAL_KEY) != Get(DataOf(c), TERMINAL_KEY);
    if !s.useDex then Align(env, w, c, data, o, terminalChanged)
    else
      var dex := DexConfig(s).value;
      var a := ReconcileDex(env, w, c, dex);
      if !a.ok then a else Align(env, a.w, WithDex(c, dex), data[DEX_KEY := dex], o, terminalChanged)
  }

  /** reconcileArgoConfigMap */
  function Pass(env: Env, w: World, s: Spec, o: Owner): (r: Step)
  {
    match Build(s)
    case None => Step(w, false)
    case Some(data) =>
      if !Answered(env, w) then Step(Tick(w), false)
      else match w.cm
        case None =>
          PutConfigMap(env, Tick(w), ConfigMap(Some(data), [OwnerRef(o.apiVersion, o.kind, o.name, o.uid, true)]))
        case Some(c) => Update(env, Tick(w), s, c, data, o)
  }
}
