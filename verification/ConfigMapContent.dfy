/** Which part of the ArgoCD resource each key of `argocd-cm` comes from. */
module ConfigMapContent {
  import opened Platform
  import opened Rbac
  import opened Text
  import opened LocalUserNames
  import opened ConfigMaps
  import opened ConfigMapConvergence

  // ---------- Banner and versions ----------

  /** What the banner says under a key. Without content there is no banner. */
  function BannerLine(b: Option<Banner>, k: string): (v: Option<string>)
  {
    if b.None? || b.value.content == "" then None
    else if k == "ui.bannercontent" then Some(b.value.content)
    else if k == "ui.bannerurl" && b.value.url != "" then Some(b.value.url)
    else if k == "ui.bannerpermanent" && b.value.permanent then Some("true")
    else if k == "ui.bannerposition" && b.value.position != "" then Some(b.value.position)
    else None
  }

  function Or<T>(a: Option<T>, b: Option<T>): (r: Option<T>) { if a.Some? then a else b }

  lemma BannerLines(d: Data, b: Option<Banner>, k: string)
    ensures Lookup(WithBanner(d, b), k) == Or(BannerLine(b, k), Lookup(d, k))
  {
  }

  /** The path of the last version listed under a key. */
  ghost predicate LastVersion(versions: seq<(string, string)>, k: string, path: string)
  {
    exists i | 0 <= i < |versions| ::
      && "kustomize.version." + versions[i].0 == k && versions[i].1 == path
      && forall j | i < j < |versions| :: versions[j].0 != versions[i].0
  }

  predicate SomeVersion(versions: seq<(string, string)>, k: string)
  {
    exists i | 0 <= i < |versions| :: "kustomize.version." + versions[i].0 == k
  }

  lemma {:induction false} VersionLines(d: Data, versions: seq<(string, string)>, k: string)
    ensures var v := Lookup(WithVersions(d, versions), k);
      if SomeVersion(versions, k) then v.Some? && LastVersion(versions, k, v.value) else v == Lookup(d, k)
    decreases |versions|
  {
    if versions != [] {
      var rest, key := versions[1..], "kustomize.version." + versions[0].0;
      var d' := d[key := versions[0].1];
      VersionLines(d', rest, k);
      if SomeVersion(rest, k) {
        var v := Lookup(WithVersions(d', rest), k).value;
        var i :| 0 <= i < |rest| && "kustomize.version." + rest[i].0 == k && rest[i].1 == v
                 && forall j | i < j < |rest| :: rest[j].0 != rest[i].0;
        assert versions[i + 1] == rest[i];
        forall j | i + 1 < j < |versions| ensures versions[j].0 != versions[i + 1].0 {
          assert versions[j] == rest[j - 1];
        }
      } else {
        assert SomeVersion(versions, k) ==> key == k;
        if key == k {
          forall j | 0 < j < |versions| ensures versions[j].0 != versions[0].0 {
            assert versions[j] == rest[j - 1];
          }
        }
      }
    }
  }

  // ---------- Everything but the accounts ----------

  /** Keys that the loop over the local users does not write. */
  predicate NoAccountKey(k: string) { !HasPrefix(k, "accounts.") }

  lemma {:induction false} UsersLeave(d: Data, users: seq<User>, legacy: set<string>, k: string)
    requires NoAccountKey(k)
    ensures Lookup(WithUsers(d, users, legacy), k) == Lookup(d, k)
    decreases |users|
  {
    if users != [] {
      var key := AccountKey(users[0].name);
      assert key[..9] == "accounts." && (key + ".enabled")[..9] == "accounts.";
      UsersLeave(if users[0].name in legacy then d else WithUser(d, users[0]), users[1..], legacy, k);
    }
  }

  /** The customizations and what follows them, the later ones first. */
  function Customized(s: Spec, k: string): (v: Option<string>)
    requires s.last.Some? && s.ignoreDifferences.Some?
  {
    Or(Lookup(s.last.value, k),
    Or(Lookup(s.actions, k),
    Or(Lookup(s.ignoreDifferences.value, k),
       Lookup(s.healthChecks, k))))
  }

  /** The data to which the accounts are added. */
  function Earlier(s: Spec): (d: Data)
    requires Generated(s).Some?
  {
    var d1 := if s.installationID != "" then s.first["installationID" := s.installationID] else s.first;
    var d2 := WithVersions(d1, s.kustomizeVersions)["oidc.config" := s.oidc];
    var d3 := d2 + s.healthChecks + s.ignoreDifferences.value + s.actions + s.last.value;
    WithBanner(if s.useDex then d3["dex.config" := DexConfig(s).value] else d3, s.banner)
  }

  /** Where the value of a key comes from: the banner, else Dex's configuration, else the customizations, else
      the OIDC configuration, else the kustomize version, else the installation id, else one of the first keys. */
  ghost predicate ComesFrom(s: Spec, k: string, v: Option<string>)
    requires Generated(s).Some?
  {
    if BannerLine(s.banner, k).Some? then v == BannerLine(s.banner, k)
    else if k == "dex.config" && s.useDex then v == DexConfig(s)
    else if Customized(s, k).Some? then v == Customized(s, k)
    else if k == "oidc.config" then v == Some(s.oidc)
    else if SomeVersion(s.kustomizeVersions, k) then v.Some? && LastVersion(s.kustomizeVersions, k, v.value)
    else if k == "installationID" && s.installationID != "" then v == Some(s.installationID)
    else v == Lookup(s.first, k)
  }

  lemma CustomizedLines(s: Spec, d: Data, k: string)
    requires Generated(s).Some?
    ensures Lookup(d + s.healthChecks + s.ignoreDifferences.value + s.actions + s.last.value, k)
         == Or(Customized(s, k), Lookup(d, k))
  {
  }

  lemma EarlierByKey(s: Spec, k: string)
    requires Generated(s).Some?
    ensures ComesFrom(s, k, Lookup(Earlier(s), k))
  {
    var d1 := if s.installationID != "" then s.first["installationID" := s.installationID] else s.first;
    var d2 := WithVersions(d1, s.kustomizeVersions)["oidc.config" := s.oidc];
    var d3 := d2 + s.healthChecks + s.ignoreDifferences.value + s.actions + s.last.value;
    VersionLines(d1, s.kustomizeVersions, k);
    CustomizedLines(s, d2, k);
    BannerLines(if s.useDex then d3["dex.config" := DexConfig(s).value] else d3, s.banner, k);
  }

  /** The same for what the operator generates, under a key that is no account's. */
  lemma GeneratedByKey(s: Spec, k: string)
    requires Generated(s).Some? && NoAccountKey(k)
    ensures ComesFrom(s, k, Lookup(Generated(s).value, k))
  {
    EarlierByKey(s, k);
    UsersLeave(Earlier(s), s.users, LegacyUsers(s.extraConfig), k);
  }

  /** The data cannot be built exactly when the ignored differences or the values after them cannot be computed,
      or Dex is used with OpenShift OAuth and its configuration cannot be computed. */
  lemma FinalIff(s: Spec)
    ensures Final(s).Some? <==>
      && s.ignoreDifferences.Some? && s.last.Some?
      && (s.useDex && s.openShiftOAuth ==> s.openShiftDexConfig.Some?)
  {
  }

  /** The final value under a key that is no account's. On OpenShift the mask key has the list of the value it
      would have otherwise. While Dex is used, dex.config has Dex's configuration: that for OpenShift OAuth where
      this is asked for, else that of extraConfig unless it is empty, else that of the resource. Under any other
      key extraConfig comes first, then what the operator generates, and the fine-grained inheritance key is
      "false" if both leave it out. */
  lemma FinalByKey(s: Spec, k: string)
    requires Final(s).Some? && NoAccountKey(k)
    ensures var v, plain := Lookup(Final(s).value, k), Or(Lookup(s.extraConfig, k), Lookup(Generated(s).value, k));
      if k == "resource.sensitive.mask.annotations" && s.openShift then
        v == Some(Mask(if plain.Some? then plain.value else ""))
      else if k == "dex.config" && s.useDex then
        v == (if s.openShiftOAuth then s.openShiftDexConfig
              else if k in s.extraConfig && s.extraConfig[k] != "" then Some(s.extraConfig[k])
              else Some(s.dexConfig))
      else if k == FINE_GRAINED_KEY then v == Or(plain, Some("false"))
      else v == plain
  {
    var d1 := Generated(s).value + s.extraConfig;
    assert Lookup(d1, k) == Or(Lookup(s.extraConfig, k), Lookup(Generated(s).value, k));
  }

  // ---------- Accounts ----------

  lemma OverlayLeaves(s: Spec, k: string)
    requires Final(s).Some? && k !in s.extraConfig && k != "" && k[0] == 'a'
    ensures Lookup(Final(s).value, k) == Lookup(Generated(s).value, k)
  {
    assert MASK_KEY[0] == 'r' && DEX_KEY[0] == 'd' && FINE_GRAINED_KEY[0] == 's';
  }

  /** A declared user with a plain name that extraConfig does not mention: "apiKey" unless that is turned off,
      "login" if it is turned on, and for neither what the earlier parts of the data have; and enabled unless
      that is turned off. */
  lemma AccountTexts(s: Spec, i: nat)
    requires Final(s).Some? && WellNamed(s.users) && i < |s.users|
    requires s.users[i].name != "enabled"
    requires var k := "accounts." + s.users[i].name; k !in s.extraConfig && k + ".enabled" !in s.extraConfig
    ensures var u := s.users[i];
      var k := "accounts." + u.name;
      var v := Lookup(Final(s).value, k);
      if u.apiKey != Some(false) then v == Some(if u.login then "apiKey, login" else "apiKey")
      else if u.login then v == Some("login")
      else ComesFrom(s, k, v)
    ensures var u := s.users[i];
      var enabled := if u.enabled == Some(false) then "false" else "true";
      Lookup(Final(s).value, "accounts." + u.name + ".enabled") == Some(enabled)
  {
    AccountLines(s, i);
    var k := AccountKey(s.users[i].name);
    LegacyUsersExact(s.extraConfig, s.users[i].name);
    UserAccount(Earlier(s), s.users, LegacyUsers(s.extraConfig), i);
    EarlierByKey(s, k);
    OverlayLeaves(s, k);
  }

  // ---------- A new ConfigMap ----------

  /** A ConfigMap that is created is controlled by the ArgoCD resource and by no one else. */
  lemma CreatedIsControlled(env: Env, w: World, s: Spec, o: Owner)
    requires w.cm.None? && Pass(env, w, s, o).ok
    ensures var c := Pass(env, w, s, o).w.cm;
      && c.Some? && |c.value.owners| == 1 && c.value.owners[0].controller
      && c.value.owners[0].uid == o.uid && c.value.owners[0].name == o.name
      && c.value.owners[0].kind == o.kind && c.value.owners[0].apiVersion == o.apiVersion
  {
  }
}
