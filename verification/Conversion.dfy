/** The v1alpha1 form of a resource. The fields of a section that both versions have, and that conversion
    copies as they are, are one map; `rest` holds the other fields that are copied as they are. A slice
    that conversion builds by appending is None when it is nil; any other field of which only the
    presence matters is None when it has Go's zero value. */
module V1alpha1 {
  import opened Platform

  type Common = map<string, string>

  type Field = Option<string>

  type Slice<+T> = Option<seq<T>>

  datatype Dex = Dex(
    config: string, groups: seq<string>, image: string, openShiftOAuth: bool, resources: Option<string>,
    version: string, annotations: map<string, string>, labels: map<string, string>)

  datatype Keycloak = Keycloak(
    image: string, resources: Option<string>, rootCA: string, version: string, verifyTLS: Option<bool>, host: string)

  /** The last four fields are deprecated. */
  datatype SSO = SSO(
    provider: string, dex: Option<Dex>, keycloak: Option<Keycloak>,
    image: string, resources: Option<string>, verifyTLS: Option<bool>, version: string)

  datatype KustomizeVersion = KustomizeVersion(version: string, path: string)

  datatype Customization = Customization(jqPaths: seq<string>, pointers: seq<string>, managers: seq<string>)

  datatype ResourceIdentifiers = ResourceIdentifiers(group: string, kind: string, customization: Customization)

  datatype IgnoreDifference = IgnoreDifference(all: Option<Customization>, identifiers: Slice<ResourceIdentifiers>)

  datatype ResourceAction = ResourceAction(group: string, kind: string, action: string)

  datatype ResourceHealthCheck = ResourceHealthCheck(group: string, kind: string, check: string)

  datatype ManagedNamespace = ManagedNamespace(name: string, allowManagedBy: bool)

  datatype Server = Server(common: Common, enableRolloutsUI: bool)

  datatype ArgoCDAgent = ArgoCDAgent(principal: Option<Common>, agent: Option<Common>)

  /** `dex` and `resourceCustomizations` are deprecated. */
  datatype Spec = Spec(
    sso: Option<SSO>, dex: Option<Dex>,
    kustomizeVersions: Slice<KustomizeVersion>, ignoreDifferences: Option<IgnoreDifference>,
    actions: Slice<ResourceAction>, healthChecks: Slice<ResourceHealthCheck>,
    namespaceManagement: Slice<ManagedNamespace>,
    applicationSet: Option<Common>, controller: Common, redis: Common, repo: Common, server: Server,
    argoCDAgent: Option<ArgoCDAgent>,
    installationID: string, imagePullPolicy: string, resourceCustomizations: string,
    networkPolicy: Field, rest: Common)
}

/** The v1beta1 form. Each section has fields that v1alpha1 lacks; they follow the common ones. */
module V1beta1 {
  import opened Platform

  type Common = map<string, string>

  type Field = Option<string>

  type Slice<+T> = Option<seq<T>>

  datatype Dex = Dex(
    config: string, groups: seq<string>, image: string, openShiftOAuth: bool, resources: Option<string>,
    version: string, annotations: map<string, string>, labels: map<string, string>,
    enableSATokenRenewal: Field, env: Field, volumes: Field, volumeMounts: Field)

  datatype Keycloak = Keycloak(
    image: string, resources: Option<string>, rootCA: string, version: string, verifyTLS: Option<bool>, host: string)

  datatype SSO = SSO(provider: string, dex: Option<Dex>, keycloak: Option<Keycloak>)

  datatype KustomizeVersion = KustomizeVersion(version: string, path: string)

  datatype Customization = Customization(jqPaths: seq<string>, pointers: seq<string>, managers: seq<string>)

  datatype ResourceIdentifiers = ResourceIdentifiers(group: string, kind: string, customization: Customization)

  datatype IgnoreDifference = IgnoreDifference(all: Option<Customization>, identifiers: Slice<ResourceIdentifiers>)

  datatype ResourceAction = ResourceAction(group: string, kind: string, action: string)

  datatype ResourceHealthCheck = ResourceHealthCheck(group: string, kind: string, check: string)

  datatype ManagedNamespace = ManagedNamespace(name: string, allowManagedBy: bool)

  datatype ApplicationSet = ApplicationSet(
    common: Common, scmRootCAConfigMap: Field, enabled: Field, sourceNamespaces: Field, scmProviders: Field,
    annotations: Field, labels: Field, volumes: Field, volumeMounts: Field, logformat: Field)

  datatype Controller = Controller(
    common: Common, initContainers: Field, sidecarContainers: Field, enabled: Field, extraCommandArgs: Field,
    volumes: Field, volumeMounts: Field, annotations: Field, labels: Field, respectRBAC: Field)

  datatype Redis = Redis(common: Common, enabled: Field, remote: Field)

  datatype Repo = Repo(
    common: Common, enabled: Field, remote: Field, annotations: Field, labels: Field, systemCATrust: Field)

  /** `enableRolloutsUI` exists in both versions, but conversion does not copy it. */
  datatype Server = Server(
    common: Common, enableRolloutsUI: bool, initContainers: Field, sidecarContainers: Field, enabled: Field,
    volumes: Field, volumeMounts: Field, annotations: Field, labels: Field)

  datatype Principal = Principal(common: Common, resources: Field, destinationBasedMapping: Field)

  datatype Agent = Agent(common: Common, allowedNamespaces: Field, resources: Field, destinationBasedMapping: Field)

  datatype ArgoCDAgent = ArgoCDAgent(principal: Option<Principal>, agent: Option<Agent>)

  /** `installationID` and `imagePullPolicy` exist in both versions, but conversion does not copy them. */
  datatype Spec = Spec(
    sso: Option<SSO>,
    kustomizeVersions: Slice<KustomizeVersion>, ignoreDifferences: Option<IgnoreDifference>,
    actions: Slice<ResourceAction>, healthChecks: Slice<ResourceHealthCheck>,
    namespaceManagement: Slice<ManagedNamespace>,
    applicationSet: Option<ApplicationSet>, controller: Controller, redis: Redis, repo: Repo, server: Server,
    argoCDAgent: Option<ArgoCDAgent>,
    installationID: string, imagePullPolicy: string,
    imageUpdater: Field, localUsers: Field, clusterDomain: Field, cmdParams: Field, webTerminalEnabled: Field,
    networkPolicy: Field, rest: Common)
}

/** Conversion between the two versions, on values. */
module Conversion {
  import opened Platform
  import A = V1alpha1
  import B = V1beta1

  const DEX := "dex"

  function Map<S, T>(f: S -> T, o: Option<S>): (r: Option<T>)
  {
    match o case None => None case Some(x) => Some(f(x))
  }

  /** A list conversion: one element for each, in order. */
  function Each<S, T>(f: S -> T, xs: seq<S>): (ys: seq<T>)
  {
    seq(|xs|, i requires 0 <= i < |xs| => f(xs[i]))
  }

  /** Appending to a nil slice: a slice without elements comes out nil. */
  function Appended<S, T>(f: S -> T, xs: A.Slice<S>): (ys: A.Slice<T>)
  {
    if xs.None? || xs.value == [] then None else Some(Each(f, xs.value))
  }

  // ---------- Elements ----------

  function VersionToBeta(v: A.KustomizeVersion): (r: B.KustomizeVersion) { B.KustomizeVersion(v.version, v.path) }

  function VersionToAlpha(v: B.KustomizeVersion): (r: A.KustomizeVersion) { A.KustomizeVersion(v.version, v.path) }

  function CustomizationToBeta(c: A.Customization): (r: B.Customization)
  {
    B.Customization(c.jqPaths, c.pointers, c.managers)
  }

  function CustomizationToAlpha(c: B.Customization): (r: A.Customization)
  {
    A.Customization(c.jqPaths, c.pointers, c.managers)
  }

  function IdentifiersToBeta(x: A.ResourceIdentifiers): (r: B.ResourceIdentifiers)
  {
    B.ResourceIdentifiers(x.group, x.kind, CustomizationToBeta(x.customization))
  }

  function IdentifiersToAlpha(x: B.ResourceIdentifiers): (r: A.ResourceIdentifiers)
  {
    A.ResourceIdentifiers(x.group, x.kind, CustomizationToAlpha(x.customization))
  }

  function IgnoreToBeta(d: A.IgnoreDifference): (r: B.IgnoreDifference)
  {
    B.IgnoreDifference(Map(CustomizationToBeta, d.all), Appended(IdentifiersToBeta, d.identifiers))
  }

  function IgnoreToAlpha(d: B.IgnoreDifference): (r: A.IgnoreDifference)
  {
    A.IgnoreDifference(Map(CustomizationToAlpha, d.all), Appended(IdentifiersToAlpha, d.identifiers))
  }

  function ActionToBeta(x: A.ResourceAction): (r: B.ResourceAction) { B.ResourceAction(x.group, x.kind, x.action) }

  function ActionToAlpha(x: B.ResourceAction): (r: A.ResourceAction) { A.ResourceAction(x.group, x.kind, x.action) }

  function CheckToBeta(x: A.ResourceHealthCheck): (r: B.ResourceHealthCheck)
  {
    B.ResourceHealthCheck(x.group, x.kind, x.check)
  }

  function CheckToAlpha(x: B.ResourceHealthCheck): (r: A.ResourceHealthCheck)
  {
    A.ResourceHealthCheck(x.group, x.kind, x.check)
  }

  function ManagedToBeta(x: A.ManagedNamespace): (r: B.ManagedNamespace)
  {
    B.ManagedNamespace(x.name, x.allowManagedBy)
  }

  function ManagedToAlpha(x: B.ManagedNamespace): (r: A.ManagedNamespace)
  {
    A.ManagedNamespace(x.name, x.allowManagedBy)
  }

  // ---------- Sections ----------

  function DexToBeta(d: A.Dex): (r: B.Dex)
  {
    B.Dex(d.config, d.groups, d.image, d.openShiftOAuth, d.resources, d.version, d.annotations, d.labels,
          None, None, None, None)
  }

  function DexToAlpha(d: B.Dex): (r: A.Dex)
  {
    A.Dex(d.config, d.groups, d.image, d.openShiftOAuth, d.resources, d.version, d.annotations, d.labels)
  }

  function KeycloakToBeta(k: A.Keycloak): (r: B.Keycloak)
  {
    B.Keycloak(k.image, k.resources, k.rootCA, k.version, k.verifyTLS, k.host)
  }

  function KeycloakToAlpha(k: B.Keycloak): (r: A.Keycloak)
  {
    A.Keycloak(k.image, k.resources, k.rootCA, k.version, k.verifyTLS, k.host)
  }

  function ApplicationSetToBeta(x: A.Common): (r: B.ApplicationSet)
  {
    B.ApplicationSet(x, None, None, None, None, None, None, None, None, None)
  }

  function ApplicationSetToAlpha(x: B.ApplicationSet): (r: A.Common) { x.common }

  function ControllerToBeta(x: A.Common): (r: B.Controller)
  {
    B.Controller(x, None, None, None, None, None, None, None, None, None)
  }

  function RedisToBeta(x: A.Common): (r: B.Redis) { B.Redis(x, None, None) }

  function RepoToBeta(x: A.Common): (r: B.Repo) { B.Repo(x, None, None, None, None, None) }

  function ServerToBeta(x: A.Server): (r: B.Server)
  {
    B.Server(x.common, false, None, None, None, None, None, None, None)
  }

  function ServerToAlpha(x: B.Server): (r: A.Server) { A.Server(x.common, false) }

  function PrincipalToBeta(x: A.Common): (r: B.Principal) { B.Principal(x, None, None) }

  function PrincipalToAlpha(x: B.Principal): (r: A.Common) { x.common }

  function AgentToBeta(x: A.Common): (r: B.Agent) { B.Agent(x, None, None, None) }

  function AgentToAlpha(x: B.Agent): (r: A.Common) { x.common }

  function ArgoCDAgentToBeta(x: A.ArgoCDAgent): (r: B.ArgoCDAgent)
  {
    B.ArgoCDAgent(Map(PrincipalToBeta, x.principal), Map(AgentToBeta, x.agent))
  }

  function ArgoCDAgentToAlpha(x: B.ArgoCDAgent): (r: A.ArgoCDAgent)
  {
    A.ArgoCDAgent(Map(PrincipalToAlpha, x.principal), Map(AgentToAlpha, x.agent))
  }

  // ---------- Single sign-on ----------

  /** Is one of the deprecated Keycloak fields set? */
  predicate OldKeycloak(s: A.SSO) { s.image != "" || s.version != "" || s.verifyTLS.Some? || s.resources.Some? }

  /** Is the deprecated Dex section in force? */
  predicate OldDex(dex: Option<A.Dex>) { dex.Some? && (dex.value.config != "" || dex.value.openShiftOAuth) }

  const NO_KEYCLOAK := A.Keycloak("", None, "", "", None, "")

  /** The four deprecated fields replace the same four fields of the Keycloak section. */
  function Overridden(k: A.Keycloak, s: A.SSO): (r: A.Keycloak)
  {
    k.(image := s.image, version := s.version, verifyTLS := s.verifyTLS, resources := s.resources)
  }

  function FoldKeycloak(s: A.SSO): (r: Option<A.Keycloak>)
  {
    if OldKeycloak(s) then Some(Overridden(if s.keycloak.Some? then s.keycloak.value else NO_KEYCLOAK, s))
    else s.keycloak
  }

  function FoldSSO(sso: Option<A.SSO>, dex: Option<A.Dex>): (r: Option<B.SSO>)
  {
    var folded := match sso
      case None => None
      case Some(s) => Some(B.SSO(s.provider, Map(DexToBeta, s.dex), Map(KeycloakToBeta, FoldKeycloak(s))));
    if !OldDex(dex) then folded
    else Some(B.SSO(DEX, Some(DexToBeta(dex.value)), if folded.Some? then folded.value.keycloak else None))
  }

  function SSOToAlpha(s: B.SSO): (r: A.SSO)
  {
    A.SSO(s.provider, Map(DexToAlpha, s.dex), Map(KeycloakToAlpha, s.keycloak), "", None, None, "")
  }

  // ---------- Whole objects ----------

  /** ConvertTo */
  function ConvertTo(a: A.Spec): (b: B.Spec)
  {
    B.Spec(FoldSSO(a.sso, a.dex),
           Appended(VersionToBeta, a.kustomizeVersions), Map(IgnoreToBeta, a.ignoreDifferences),
           Appended(ActionToBeta, a.actions), Appended(CheckToBeta, a.healthChecks),
           Appended(ManagedToBeta, a.namespaceManagement),
           Map(ApplicationSetToBeta, a.applicationSet), ControllerToBeta(a.controller), RedisToBeta(a.redis),
           RepoToBeta(a.repo), ServerToBeta(a.server), Map(ArgoCDAgentToBeta, a.argoCDAgent),
           "", "", None, None, None, None, None, a.networkPolicy, a.rest)
  }

  /** ConvertFrom, which does not set the network policy. */
  function ConvertFrom(b: B.Spec): (a: A.Spec)
  {
    A.Spec(Map(SSOToAlpha, b.sso), None,
           Appended(VersionToAlpha, b.kustomizeVersions), Map(IgnoreToAlpha, b.ignoreDifferences),
           Appended(ActionToAlpha, b.actions), Appended(CheckToAlpha, b.healthChecks),
           Appended(ManagedToAlpha, b.namespaceManagement),
           Map(ApplicationSetToAlpha, b.applicationSet), b.controller.common, b.redis.common,
           b.repo.common, ServerToAlpha(b.server), Map(ArgoCDAgentToAlpha, b.argoCDAgent),
           "", "", "", None, b.rest)
  }

  // ---------- Round trips ----------

  /** A slice that appending reproduces: nil, or not empty. */
  predicate Kept<T>(xs: A.Slice<T>) { xs.Some? ==> xs.value != [] }

  lemma AppendedRoundTrip<S, T>(f: S -> T, g: T -> S, ys: B.Slice<T>)
    requires forall y :: f(g(y)) == y
    ensures Appended(f, Appended(g, ys)) == ys <==> Kept(ys)
  {
    if ys.Some? && ys.value != [] {
      assert Each(g, ys.value) != [];
      assert forall i | 0 <= i < |ys.value| :: Each(f, Each(g, ys.value))[i] == f(g(ys.value[i]));
      assert Each(f, Each(g, ys.value)) == ys.value;
    }
  }

  predicate KeptIgnore(d: Option<B.IgnoreDifference>) { d.Some? ==> Kept(d.value.identifiers) }

  predicate KeptIgnoreAlpha(d: Option<A.IgnoreDifference>) { d.Some? ==> Kept(d.value.identifiers) }

  /** The lists that are rebuilt by appending come back. */
  predicate KeptLists(b: B.Spec)
  {
    && Kept(b.kustomizeVersions) && KeptIgnore(b.ignoreDifferences) && Kept(b.actions) && Kept(b.healthChecks)
    && Kept(b.namespaceManagement)
  }

  predicate KeptAlphaLists(a: A.Spec)
  {
    && Kept(a.kustomizeVersions) && KeptIgnoreAlpha(a.ignoreDifferences) && Kept(a.actions) && Kept(a.healthChecks)
    && Kept(a.namespaceManagement)
  }

  // Sections that use no field that v1alpha1 lacks, or that conversion does not copy.

  predicate PlainDex(d: B.Dex)
  {
    d.enableSATokenRenewal.None? && d.env.None? && d.volumes.None? && d.volumeMounts.None?
  }

  predicate PlainApplicationSet(x: B.ApplicationSet)
  {
    && x.scmRootCAConfigMap.None? && x.enabled.None? && x.sourceNamespaces.None? && x.scmProviders.None?
    && x.annotations.None? && x.labels.None? && x.volumes.None? && x.volumeMounts.None? && x.logformat.None?
  }

  predicate PlainController(x: B.Controller)
  {
    && x.initContainers.None? && x.sidecarContainers.None? && x.enabled.None? && x.extraCommandArgs.None?
    && x.volumes.None? && x.volumeMounts.None? && x.annotations.None? && x.labels.None? && x.respectRBAC.None?
  }

  predicate PlainRepo(x: B.Repo)
  {
    && x.enabled.None? && x.remote.None? && x.annotations.None? && x.labels.None? && x.systemCATrust.None?
  }

  predicate PlainServer(x: B.Server)
  {
    && !x.enableRolloutsUI && x.initContainers.None? && x.sidecarContainers.None? && x.enabled.None?
    && x.volumes.None? && x.volumeMounts.None? && x.annotations.None? && x.labels.None?
  }

  predicate PlainAgent(x: B.ArgoCDAgent)
  {
    && (x.principal.Some? ==> x.principal.value.resources.None? && x.principal.value.destinationBasedMapping.None?)
    && (x.agent.Some? ==>
          && x.agent.value.allowedNamespaces.None? && x.agent.value.resources.None?
          && x.agent.value.destinationBasedMapping.None?)
  }

  predicate PlainSections(b: B.Spec)
  {
    && (b.sso.Some? && b.sso.value.dex.Some? ==> PlainDex(b.sso.value.dex.value))
    && (b.applicationSet.Some? ==> PlainApplicationSet(b.applicationSet.value))
    && PlainController(b.controller)
    && b.redis.enabled.None? && b.redis.remote.None?
    && PlainRepo(b.repo) && PlainServer(b.server)
    && (b.argoCDAgent.Some? ==> PlainAgent(b.argoCDAgent.value))
  }

  /** None of the top-level fields that are lost is set. */
  predicate PlainTop(b: B.Spec)
  {
    && b.installationID == "" && b.imagePullPolicy == "" && b.networkPolicy.None?
    && b.imageUpdater.None? && b.localUsers.None? && b.clusterDomain.None? && b.cmdParams.None?
    && b.webTerminalEnabled.None?
  }

  lemma ListsRoundTrip(b: B.Spec)
    ensures var c := ConvertTo(ConvertFrom(b));
      KeptLists(b) <==>
        && c.kustomizeVersions == b.kustomizeVersions && c.ignoreDifferences == b.ignoreDifferences
        && c.actions == b.actions && c.healthChecks == b.healthChecks
        && c.namespaceManagement == b.namespaceManagement
  {
    AppendedRoundTrip(VersionToBeta, VersionToAlpha, b.kustomizeVersions);
    AppendedRoundTrip(ActionToBeta, ActionToAlpha, b.actions);
    AppendedRoundTrip(CheckToBeta, CheckToAlpha, b.healthChecks);
    AppendedRoundTrip(ManagedToBeta, ManagedToAlpha, b.namespaceManagement);
    if b.ignoreDifferences.Some? {
      AppendedRoundTrip(IdentifiersToBeta, IdentifiersToAlpha, b.ignoreDifferences.value.identifiers);
    }
  }

  lemma SSORoundTrip(b: Option<B.SSO>)
    ensures FoldSSO(Map(SSOToAlpha, b), None) == b <==>
      (b.Some? && b.value.dex.Some? ==> PlainDex(b.value.dex.value))
  {
    if b.Some? && b.value.dex.Some? {
      var d := b.value.dex.value;
      assert DexToBeta(DexToAlpha(d)) == d <==> PlainDex(d);
    }
  }

  lemma SectionsRoundTrip(b: B.Spec)
    ensures var c := ConvertTo(ConvertFrom(b));
      PlainSections(b) <==>
        && c.sso == b.sso && c.applicationSet == b.applicationSet && c.controller == b.controller
        && c.redis == b.redis && c.repo == b.repo && c.server == b.server && c.argoCDAgent == b.argoCDAgent
  {
    SSORoundTrip(b.sso);
  }

  /** A v1beta1 object survives the trip to v1alpha1 and back exactly when it sets none of the fields
      that v1alpha1 lacks, none of the four that conversion forgets although both versions have them
      (installation id, image pull policy, network policy, rollouts UI), and has no list that is empty
      without being nil. */
  lemma BetaRoundTripIff(b: B.Spec)
    ensures ConvertTo(ConvertFrom(b)) == b <==> PlainSections(b) && PlainTop(b) && KeptLists(b)
  {
    ListsRoundTrip(b);
    SectionsRoundTrip(b);
  }

  lemma AlphaListsRoundTrip(a: A.Spec)
    ensures var c := ConvertFrom(ConvertTo(a));
      KeptAlphaLists(a) <==>
        && c.kustomizeVersions == a.kustomizeVersions && c.ignoreDifferences == a.ignoreDifferences
        && c.actions == a.actions && c.healthChecks == a.healthChecks
        && c.namespaceManagement == a.namespaceManagement
  {
    AppendedRoundTrip(VersionToAlpha, VersionToBeta, a.kustomizeVersions);
    AppendedRoundTrip(ActionToAlpha, ActionToBeta, a.actions);
    AppendedRoundTrip(CheckToAlpha, CheckToBeta, a.healthChecks);
    AppendedRoundTrip(ManagedToAlpha, ManagedToBeta, a.namespaceManagement);
    if a.ignoreDifferences.Some? {
      AppendedRoundTrip(IdentifiersToAlpha, IdentifiersToBeta, a.ignoreDifferences.value.identifiers);
    }
  }

  /** A v1alpha1 object survives the trip to v1beta1 and back exactly when it uses no deprecated field,
      sets none of the fields that conversion forgets, and has no list that is empty without being nil. */
  lemma AlphaRoundTripIff(a: A.Spec)
    ensures ConvertFrom(ConvertTo(a)) == a <==>
      && a.dex.None? && (a.sso.Some? ==> !OldKeycloak(a.sso.value)) && a.resourceCustomizations == ""
      && a.installationID == "" && a.imagePullPolicy == "" && a.networkPolicy.None? && !a.server.enableRolloutsUI
      && KeptAlphaLists(a)
  {
    AlphaListsRoundTrip(a);
    var c := ConvertFrom(ConvertTo(a));
    if a.sso.Some? && a.dex.None? {
      assert OldKeycloak(a.sso.value) ==> c.sso != a.sso;
      assert !OldKeycloak(a.sso.value) ==> c.sso == a.sso;
    }
    assert c.applicationSet == a.applicationSet && c.argoCDAgent == a.argoCDAgent;
  }

  /** Every v1alpha1 object: converting to v1beta1, back and to v1beta1 again changes nothing but the
      network policy, which is lost; the deprecated fields are folded in once and do not come back. */
  lemma AlphaFoldsOnce(a: A.Spec)
    ensures ConvertTo(ConvertFrom(ConvertTo(a))) == ConvertTo(a).(networkPolicy := None)
    ensures ConvertFrom(ConvertTo(a)).dex.None?
    ensures var s := ConvertFrom(ConvertTo(a)).sso; s.Some? ==> !OldKeycloak(s.value)
  {
    var b := ConvertTo(a).(networkPolicy := None);
    assert PlainSections(b) && PlainTop(b) && KeptLists(b);
    BetaRoundTripIff(b);
    assert ConvertFrom(ConvertTo(a)) == ConvertFrom(b);
  }

  /** The Keycloak section of v1alpha1 survives exactly when no deprecated Keycloak field is set or all
      four agree with it: one that is set wipes out the other three. */
  lemma KeycloakKeptIff(a: A.Spec)
    requires a.sso.Some? && a.sso.value.keycloak.Some?
    ensures var s := a.sso.value;
      ConvertTo(a).sso.value.keycloak == Some(KeycloakToBeta(s.keycloak.value)) <==>
      (!OldKeycloak(s) || Overridden(s.keycloak.value, s) == s.keycloak.value)
  {
    var s := a.sso.value;
    var k := s.keycloak.value;
    assert KeycloakToBeta(Overridden(k, s)) == KeycloakToBeta(k) <==> Overridden(k, s) == k;
  }

  // ---------- What the folding says ----------

  /** The same Dex settings, and none that v1alpha1 lacks. */
  predicate SameDex(d: A.Dex, e: B.Dex)
  {
    && e.config == d.config && e.groups == d.groups && e.image == d.image && e.openShiftOAuth == d.openShiftOAuth
    && e.resources == d.resources && e.version == d.version && e.annotations == d.annotations && e.labels == d.labels
    && e.enableSATokenRenewal.None? && e.env.None? && e.volumes.None? && e.volumeMounts.None?
  }

  predicate SameKeycloak(k: A.Keycloak, e: B.Keycloak)
  {
    && e.image == k.image && e.resources == k.resources && e.rootCA == k.rootCA
    && e.version == k.version && e.verifyTLS == k.verifyTLS && e.host == k.host
  }

  /** A deprecated Dex section with a configuration or OpenShift OAuth wins, whatever the sso section holds;
      otherwise provider and Dex section are those of the sso section, and without one there is none. */
  lemma DexIsFolded(a: A.Spec)
    ensures var b := ConvertTo(a).sso;
      a.dex.Some? && (a.dex.value.config != "" || a.dex.value.openShiftOAuth) ==>
        b.Some? && b.value.provider == "dex" && b.value.dex.Some? && SameDex(a.dex.value, b.value.dex.value)
    ensures var b := ConvertTo(a).sso;
      !(a.dex.Some? && (a.dex.value.config != "" || a.dex.value.openShiftOAuth)) ==>
        && (b.Some? <==> a.sso.Some?)
        && (a.sso.Some? ==>
              && b.value.provider == a.sso.value.provider
              && (b.value.dex.Some? <==> a.sso.value.dex.Some?)
              && (a.sso.value.dex.Some? ==> SameDex(a.sso.value.dex.value, b.value.dex.value)))
  {
  }

  /** The Keycloak section has the four deprecated values when one of them is set, with rootCA and host kept,
      and is that of the sso section otherwise. */
  lemma KeycloakIsFolded(a: A.Spec)
    ensures var b := ConvertTo(a).sso;
      a.sso.None? && b.Some? ==> b.value.keycloak.None?
    ensures var b := ConvertTo(a).sso;
      a.sso.Some? ==>
        && b.Some?
        && var s, e := a.sso.value, b.value.keycloak;
           if s.image != "" || s.version != "" || s.verifyTLS.Some? || s.resources.Some? then
             && e.Some? && e.value.image == s.image && e.value.version == s.version
             && e.value.verifyTLS == s.verifyTLS && e.value.resources == s.resources
             && e.value.rootCA == (if s.keycloak.Some? then s.keycloak.value.rootCA else "")
             && e.value.host == (if s.keycloak.Some? then s.keycloak.value.host else "")
           else
             && (e.Some? <==> s.keycloak.Some?)
             && (e.Some? ==> SameKeycloak(s.keycloak.value, e.value))
  {
  }

  // ---------- What is copied ----------

  predicate SameCustomization(c: A.Customization, e: B.Customization)
  {
    e.jqPaths == c.jqPaths && e.pointers == c.pointers && e.managers == c.managers
  }

  /** The elements of a list, in order; an empty list reads like a nil one. */
  function Elements<T>(xs: A.Slice<T>): (ys: seq<T>) { if xs.Some? then xs.value else [] }

  lemma AppendedElements<S, T>(f: S -> T, xs: A.Slice<S>)
    ensures var ys := Appended(f, xs);
      && |Elements(ys)| == |Elements(xs)|
      && forall i | 0 <= i < |Elements(xs)| :: Elements(ys)[i] == f(Elements(xs)[i])
  {
  }

  predicate SameVersions(xs: seq<A.KustomizeVersion>, ys: seq<B.KustomizeVersion>)
  {
    |ys| == |xs| && forall i | 0 <= i < |xs| :: ys[i].version == xs[i].version && ys[i].path == xs[i].path
  }

  predicate SameActions(xs: seq<A.ResourceAction>, ys: seq<B.ResourceAction>)
  {
    && |ys| == |xs|
    && forall i | 0 <= i < |xs| ::
         ys[i].group == xs[i].group && ys[i].kind == xs[i].kind && ys[i].action == xs[i].action
  }

  predicate SameChecks(xs: seq<A.ResourceHealthCheck>, ys: seq<B.ResourceHealthCheck>)
  {
    && |ys| == |xs|
    && forall i | 0 <= i < |xs| ::
         ys[i].group == xs[i].group && ys[i].kind == xs[i].kind && ys[i].check == xs[i].check
  }

  predicate SameManaged(xs: seq<A.ManagedNamespace>, ys: seq<B.ManagedNamespace>)
  {
    && |ys| == |xs|
    && forall i | 0 <= i < |xs| :: ys[i].name == xs[i].name && ys[i].allowManagedBy == xs[i].allowManagedBy
  }

  predicate SameIdentifiers(xs: seq<A.ResourceIdentifiers>, ys: seq<B.ResourceIdentifiers>)
  {
    && |ys| == |xs|
    && forall i | 0 <= i < |xs| ::
         && ys[i].group == xs[i].group && ys[i].kind == xs[i].kind
         && SameCustomization(xs[i].customization, ys[i].customization)
  }

  predicate SameIgnore(x: Option<A.IgnoreDifference>, y: Option<B.IgnoreDifference>)
  {
    && (y.Some? <==> x.Some?)
    && (x.Some? ==>
          && (y.value.all.Some? <==> x.value.all.Some?)
          && (x.value.all.Some? ==> SameCustomization(x.value.all.value, y.value.all.value))
          && SameIdentifiers(Elements(x.value.identifiers), Elements(y.value.identifiers)))
  }

  /** The two objects say the same in every list and in every field that both versions have and conversion
      copies. */
  predicate SaysTheSame(a: A.Spec, b: B.Spec)
  {
    && SameVersions(Elements(a.kustomizeVersions), Elements(b.kustomizeVersions))
    && SameIgnore(a.ignoreDifferences, b.ignoreDifferences)
    && SameActions(Elements(a.actions), Elements(b.actions))
    && SameChecks(Elements(a.healthChecks), Elements(b.healthChecks))
    && SameManaged(Elements(a.namespaceManagement), Elements(b.namespaceManagement))
    && (b.applicationSet.Some? <==> a.applicationSet.Some?)
    && (a.applicationSet.Some? ==> b.applicationSet.value.common == a.applicationSet.value)
    && b.controller.common == a.controller && b.redis.common == a.redis && b.repo.common == a.repo
    && b.server.common == a.server.common
    && (b.argoCDAgent.Some? <==> a.argoCDAgent.Some?)
    && (a.argoCDAgent.Some? ==> SameAgent(a.argoCDAgent.value, b.argoCDAgent.value))
    && b.rest == a.rest
  }

  predicate SameAgent(x: A.ArgoCDAgent, y: B.ArgoCDAgent)
  {
    && (y.principal.Some? <==> x.principal.Some?)
    && (x.principal.Some? ==> y.principal.value.common == x.principal.value)
    && (y.agent.Some? <==> x.agent.Some?)
    && (x.agent.Some? ==> y.agent.value.common == x.agent.value)
  }

  /** Conversion to v1beta1 copies every list, element by element and in order, and every common field; the
      network policy too. */
  lemma ConvertToCopies(a: A.Spec)
    ensures SaysTheSame(a, ConvertTo(a)) && ConvertTo(a).networkPolicy == a.networkPolicy
  {
    AppendedElements(VersionToBeta, a.kustomizeVersions);
    AppendedElements(ActionToBeta, a.actions);
    AppendedElements(CheckToBeta, a.healthChecks);
    AppendedElements(ManagedToBeta, a.namespaceManagement);
    if a.ignoreDifferences.Some? { AppendedElements(IdentifiersToBeta, a.ignoreDifferences.value.identifiers); }
  }

  /** So does conversion from v1beta1, which also copies single sign-on. */
  lemma ConvertFromCopies(b: B.Spec)
    ensures SaysTheSame(ConvertFrom(b), b)
    ensures var s := ConvertFrom(b).sso;
      && (s.Some? <==> b.sso.Some?)
      && (s.Some? ==>
            && s.value.provider == b.sso.value.provider
            && (s.value.dex.Some? <==> b.sso.value.dex.Some?)
            && (s.value.keycloak.Some? <==> b.sso.value.keycloak.Some?)
            && (s.value.keycloak.Some? ==> SameKeycloak(s.value.keycloak.value, b.sso.value.keycloak.value)))
      && (s.Some? && s.value.dex.Some? ==>
            var d, e := s.value.dex.value, b.sso.value.dex.value;
            && d.config == e.config && d.groups == e.groups && d.image == e.image && d.version == e.version
            && d.openShiftOAuth == e.openShiftOAuth && d.resources == e.resources
            && d.annotations == e.annotations && d.labels == e.labels)
  {
    AppendedElements(VersionToAlpha, b.kustomizeVersions);
    AppendedElements(ActionToAlpha, b.actions);
    AppendedElements(CheckToAlpha, b.healthChecks);
    AppendedElements(ManagedToAlpha, b.namespaceManagement);
    if b.ignoreDifferences.Some? { AppendedElements(IdentifiersToAlpha, b.ignoreDifferences.value.identifiers); }
  }

  // ---------- Aliasing ----------

  /** What ConvertTo does to its source: the Keycloak section is shared, so the override shows there. */
  function WrittenThrough(s: A.SSO): (r: A.SSO)
  {
    if s.keycloak.Some? && OldKeycloak(s) then s.(keycloak := Some(Overridden(s.keycloak.value, s))) else s
  }

  /** Converting the source once more, with the override written through, gives the same result. */
  lemma WriteThroughIsHarmless(s: A.SSO, dex: Option<A.Dex>)
    ensures FoldSSO(Some(WrittenThrough(s)), dex) == FoldSSO(Some(s), dex)
  {
  }
}

/** Conversion as the webhook does it: lists built by appending, and a Keycloak section that source and
    result share. */
module ConversionWebhook {
  import opened Platform
  import opened Conversion

  /** Both versions of the Keycloak section have the same fields, so a pointer to one is used as a pointer
      to the other. */
  class KeycloakSpec {
    var image: string
    var resources: Option<string>
    var rootCA: string
    var version: string
    var verifyTLS: Option<bool>
    var host: string

    constructor ()
      ensures Value() == NO_KEYCLOAK
    {
      image, resources, rootCA, version, verifyTLS, host := "", None, "", "", None, "";
    }

    ghost function Value(): (r: A.Keycloak)
      reads this
    {
      A.Keycloak(image, resources, rootCA, version, verifyTLS, host)
    }
  }

  class AlphaSSO {
    var provider: string
    var dex: Option<A.Dex>
    var keycloak: KeycloakSpec?
    var image: string
    var resources: Option<string>
    var verifyTLS: Option<bool>
    var version: string

    constructor (provider: string, dex: Option<A.Dex>, keycloak: KeycloakSpec?)
      ensures this.provider == provider && this.dex == dex && this.keycloak == keycloak
      ensures image == "" && resources.None? && verifyTLS.None? && version == ""
      ensures var k := if keycloak == null then None else Some(keycloak.Value());
        Value() == A.SSO(provider, dex, k, "", None, None, "")
    {
      this.provider, this.dex, this.keycloak := provider, dex, keycloak;
      image, resources, verifyTLS, version := "", None, None, "";
    }

    ghost function Value(): (r: A.SSO)
      reads this, keycloak
    {
      var k := if keycloak == null then None else Some(keycloak.Value());
      A.SSO(provider, dex, k, image, resources, verifyTLS, version)
    }
  }

  class BetaSSO {
    var provider: string
    var dex: Option<B.Dex>
    var keycloak: KeycloakSpec?

    constructor (provider: string, dex: Option<B.Dex>, keycloak: KeycloakSpec?)
      ensures this.provider == provider && this.dex == dex && this.keycloak == keycloak
    {
      this.provider, this.dex, this.keycloak := provider, dex, keycloak;
    }

    ghost function Value(): (r: B.SSO)
      reads this, keycloak
    {
      B.SSO(provider, dex, if keycloak == null then None else Some(KeycloakToBeta(keycloak.Value())))
    }
  }

  /** The ten list conversions, by their element conversion. */
  method ConvertList<S, T>(f: S -> T, src: A.Slice<S>) returns (dst: A.Slice<T>)
    ensures dst == Appended(f, src)
    ensures src.Some? && src.value != [] ==>
      dst.Some? && |dst.value| == |src.value| && forall i | 0 <= i < |src.value| :: dst.value[i] == f(src.value[i])
  {
    dst := None;
    if src.Some? {
      for i := 0 to |src.value|
        invariant if i == 0 then dst == None
          else dst.Some? && |dst.value| == i && forall k | 0 <= k < i :: dst.value[k] == f(src.value[k])
      {
        dst := Some((if dst.None? then [] else dst.value) + [f(src.value[i])]);
      }
      if dst.Some? { assert dst.value == Each(f, src.value); }
    }
  }

  /** The single sign-on part of ConvertTo. The source's Keycloak section becomes the result's. */
  method ConvertSSO(src: AlphaSSO?, dex: Option<A.Dex>) returns (dst: BetaSSO?)
    modifies if src == null then null else src.keycloak
    ensures dst != null ==> fresh(dst)
    ensures (if dst == null then None else Some(dst.Value())) ==
      FoldSSO(if src == null then None else Some(old(src.Value())), dex)
    ensures src != null ==> src.Value() == WrittenThrough(old(src.Value()))
    ensures src != null && src.keycloak != null ==> dst != null && dst.keycloak == src.keycloak
    ensures var inForce := dex.Some? && (dex.value.config != "" || dex.value.openShiftOAuth);
      if inForce then dst != null && dst.provider == "dex" && dst.dex.Some? && SameDex(dex.value, dst.dex.value)
      else
        && (dst == null <==> src == null)
        && (src != null ==>
              && dst.provider == src.provider && (dst.dex.Some? <==> src.dex.Some?)
              && (src.dex.Some? ==> SameDex(src.dex.value, dst.dex.value)))
    ensures src == null && dst != null ==> dst.keycloak == null
    ensures src != null ==>
      && dst != null
      && var deprecated := src.image != "" || src.version != "" || src.verifyTLS.Some? || src.resources.Some?;
         if deprecated then
           && dst.keycloak != null && dst.keycloak.image == src.image && dst.keycloak.version == src.version
           && dst.keycloak.verifyTLS == src.verifyTLS && dst.keycloak.resources == src.resources
           && dst.keycloak.rootCA == (if src.keycloak == null then "" else old(src.keycloak.rootCA))
           && dst.keycloak.host == (if src.keycloak == null then "" else old(src.keycloak.host))
         else dst.keycloak == src.keycloak && (src.keycloak != null ==> unchanged(src.keycloak))
  {
    dst := ConvertSection(src);
    if dex.Some? && (dex.value.config != "" || dex.value.openShiftOAuth) {
      if dst == null { dst := new BetaSSO("", None, null); }
      dst.provider := DEX;
      dst.dex := Some(DexToBeta(dex.value));
    }
  }

  /** The sso section alone. */
  method ConvertSection(src: AlphaSSO?) returns (dst: BetaSSO?)
    modifies if src == null then null else src.keycloak
    ensures dst != null ==> fresh(dst)
    ensures dst == null <==> src == null
    ensures src != null ==>
      && dst.provider == src.provider && dst.dex == Map(DexToBeta, src.dex)
      && src.Value() == WrittenThrough(old(src.Value()))
      && (src.keycloak != null ==> dst.keycloak == src.keycloak)
      && (if dst.keycloak == null then None else Some(dst.keycloak.Value())) == FoldKeycloak(old(src.Value()))
      && var deprecated := src.image != "" || src.version != "" || src.verifyTLS.Some? || src.resources.Some?;
         if deprecated then
           && dst.keycloak != null && dst.keycloak.image == src.image && dst.keycloak.version == src.version
           && dst.keycloak.verifyTLS == src.verifyTLS && dst.keycloak.resources == src.resources
           && dst.keycloak.rootCA == (if src.keycloak == null then "" else old(src.keycloak.rootCA))
           && dst.keycloak.host == (if src.keycloak == null then "" else old(src.keycloak.host))
         else dst.keycloak == src.keycloak && (src.keycloak != null ==> unchanged(src.keycloak))
  {
    dst := null;
    if src != null {
      dst := new BetaSSO(src.provider, Map(DexToBeta, src.dex), src.keycloak);
      if src.image != "" || src.version != "" || src.verifyTLS.Some? || src.resources.Some? {
        if dst.keycloak == null { dst.keycloak := new KeycloakSpec(); }
        dst.keycloak.image := src.image;
        dst.keycloak.version := src.version;
        dst.keycloak.verifyTLS := src.verifyTLS;
        dst.keycloak.resources := src.resources;
      }
    }
  }

  /** The single sign-on part of ConvertFrom; nothing is written to the source. */
  method ConvertSSOBack(src: BetaSSO?) returns (dst: AlphaSSO?)
    ensures dst != null ==> fresh(dst)
    ensures (if dst == null then None else Some(dst.Value())) ==
      if src == null then None else Some(SSOToAlpha(src.Value()))
    ensures src != null ==>
      && dst != null && dst.keycloak == src.keycloak && dst.provider == src.provider
      && dst.image == "" && dst.version == "" && dst.verifyTLS.None? && dst.resources.None?
      && (dst.dex.Some? <==> src.dex.Some?)
  {
    dst := null;
    if src != null { dst := new AlphaSSO(src.provider, Map(DexToAlpha, src.dex), src.keycloak); }
  }
}
