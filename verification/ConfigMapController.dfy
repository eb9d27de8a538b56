/** The argocd-cm code in its own form: data filled in step by step, an owner list edited in place, and
    writes to the stored ConfigMap. Each method is proved to do exactly what `ConfigMaps` says. */
module ConfigMapController {
  import opened Platform
  import opened Text
  import opened LocalUserNames
  import opened ConfigMaps

  /** The operator's copy of a ConfigMap. */
  class Copy {
    var data: Option<Data>
    var owners: seq<OwnerRef>

    constructor (c: ConfigMap)
      ensures Value() == c
    {
      data, owners := c.data, c.owners;
    }

    ghost function Value(): (r: ConfigMap)
      reads this
    {
      ConfigMap(data, owners)
    }

    /** modifyOwnerReferenceIfNeeded */
    method RepairOwners(o: Owner) returns (changed: bool, ok: bool)
      modifies this`owners
      ensures Repair(owners, changed, ok) == RepairOwner(old(owners), o)
    {
      changed, ok := false, true;
      var i := 0;
      while i < |owners|
        invariant 0 <= i <= |owners| && owners == old(owners) && !changed && ok
        invariant FirstOfKind(owners, o.kind) >= i
      {
        if owners[i].kind == o.kind {
          assert FirstOfKind(owners, o.kind) == i;
          if owners[i].apiVersion != o.apiVersion {
            owners := owners[i := owners[i].(apiVersion := o.apiVersion)];
            changed := true;
          }
          if owners[i].uid != o.uid {
            owners := owners[i := owners[i].(uid := o.uid)];
            changed := true;
          }
          if owners[i].name != o.name {
            owners := owners[i := owners[i].(name := o.name)];
            changed := true;
          }
          return;
        }
        i := i + 1;
      }
      var j := 0;
      while j < |owners|
        invariant 0 <= j <= |owners| && forall k | 0 <= k < j :: !owners[k].controller
      {
        if owners[j].controller { return false, false; }
        j := j + 1;
      }
      owners := owners + [OwnerRef(o.apiVersion, o.kind, o.name, o.uid, true)];
      changed := true;
    }
  }

  class Reconciler {
    const env: Env
    var cm: Option<ConfigMap>
    var deployments: set<Deployment>
    var n: nat
    var writes: nat
    var rollouts: multiset<Deployment>

    constructor (env: Env)
      ensures this.env == env && Now() == World(None, {}, 0, 0, multiset{})
    {
      this.env := env;
      cm, deployments, n, writes, rollouts := None, {}, 0, 0, multiset{};
    }

    ghost function Now(): (r: World)
      reads this
    {
      World(cm, deployments, n, writes, rollouts)
    }

    // ---------- Building the data ----------

    method AddVersions(before: Data, versions: seq<(string, string)>) returns (d: Data)
      ensures d == WithVersions(before, versions)
    {
      d := before;
      var i := 0;
      while i < |versions|
        invariant 0 <= i <= |versions| && WithVersions(before, versions) == WithVersions(d, versions[i..])
      {
        d := d["kustomize.version." + versions[i].0 := versions[i].1];
        i := i + 1;
      }
    }

    /** Copy entries over, in any order. */
    method CopyOver(before: Data, entries: Data) returns (d: Data)
      ensures d == before + entries
    {
      d := before;
      var keys := entries.Keys;
      while keys != {}
        invariant keys <= entries.Keys
        invariant d == before + (map k | k in entries && k !in keys :: entries[k])
        decreases keys
      {
        var k :| k in keys;
        keys := keys - {k};
        d := d[k := entries[k]];
      }
      assert (map k | k in entries && k !in keys :: entries[k]) == entries;
    }

    method AddBanner(before: Data, b: Option<Banner>) returns (d: Data)
      ensures d == WithBanner(before, b)
    {
      d := before;
      if b.Some? && b.value.content != "" {
        d := d["ui.bannercontent" := b.value.content];
        if b.value.url != "" { d := d["ui.bannerurl" := b.value.url]; }
        if b.value.permanent { d := d["ui.bannerpermanent" := "true"]; }
        if b.value.position != "" { d := d["ui.bannerposition" := b.value.position]; }
      }
    }

    method AddUsers(before: Data, users: seq<User>, legacy: set<string>) returns (d: Data)
      ensures d == WithUsers(before, users, legacy)
    {
      d := before;
      var i := 0;
      while i < |users|
        invariant 0 <= i <= |users| && WithUsers(before, users, legacy) == WithUsers(d, users[i..], legacy)
      {
        var u := users[i];
        if u.name !in legacy {
          var key := AccountKey(u.name);
          if Flag(u.apiKey) && u.login {
            d := d[key := "apiKey, login"];
          } else if Flag(u.apiKey) {
            d := d[key := "apiKey"];
          } else if u.login {
            d := d[key := "login"];
          }
          if Flag(u.enabled) { d := d[key + ".enabled" := "true"]; } else { d := d[key + ".enabled" := "false"]; }
        }
        i := i + 1;
      }
    }

    /** The search for the token annotation in the mask list. */
    method AddToMask(existing: string) returns (v: string)
      ensures v == Mask(existing)
    {
      if existing == "" { return TOKEN_ANNOTATION; }
      var parts := SplitComma(existing);
      var i := 0;
      while i < |parts|
        invariant 0 <= i <= |parts| && forall k | 0 <= k < i :: TrimSpace(parts[k]) != TOKEN_ANNOTATION
      {
        if TrimSpace(parts[i]) == TOKEN_ANNOTATION {
          assert IsItem(parts, TOKEN_ANNOTATION);
          return existing;
        }
        i := i + 1;
      }
      assert !IsItem(parts, TOKEN_ANNOTATION);
      v := existing + "," + TOKEN_ANNOTATION;
    }

    method GenerateData(s: Spec) returns (r: Option<Data>)
      ensures r == Generated(s)
    {
      var d := s.first;
      if s.installationID != "" { d := d["installationID" := s.installationID]; }
      d := AddVersions(d, s.kustomizeVersions);
      d := d["oidc.config" := s.oidc];
      d := CopyOver(d, s.healthChecks);
      if s.ignoreDifferences.None? { return None; }
      d := CopyOver(d, s.ignoreDifferences.value);
      d := CopyOver(d, s.actions);
      if s.last.None? { return None; }
      d := CopyOver(d, s.last.value);
      if s.useDex {
        var dex := DexConfig(s);
        if dex.None? { return None; }
        d := d[DEX_KEY := dex.value];
      }
      d := AddBanner(d, s.banner);
      d := AddUsers(d, s.users, LegacyUsers(s.extraConfig));
      r := Some(d);
    }

    method BuildData(s: Spec) returns (r: Option<Data>)
      ensures r == Build(s)
    {
      var g := GenerateData(s);
      if g.None? { return None; }
      var d := CopyOver(g.value, s.extraConfig);
      if FINE_GRAINED_KEY !in d { d := d[FINE_GRAINED_KEY := "false"]; }
      if s.openShift {
        var v := AddToMask(Get(d, MASK_KEY));
        d := d[MASK_KEY := v];
      }
      r := Some(d);
    }

    // ---------- Reconciling ----------

    method Call() returns (o: Outcome)
      modifies this`n
      ensures o == env.outcome(old(n)) && n == old(n) + 1
    {
      o := env.outcome(n);
      n := n + 1;
    }

    method WriteConfigMap(c: ConfigMap) returns (ok: bool)
      modifies this`cm, this`n, this`writes
      ensures Step(Now(), ok) == PutConfigMap(env, old(Now()), c)
    {
      var o := Call();
      writes := writes + 1;
      if !o.Rejected? { cm := Some(c); }
      ok := o.Done?;
    }

    method TriggerRollout(d: Deployment) returns (ok: bool)
      modifies this`n, this`writes, this`rollouts
      ensures Step(Now(), ok) == Rollout(env, old(Now()), d)
    {
      var o := Call();
      if !o.Done? { return false; }
      if d !in deployments { return true; }
      o := Call();
      writes := writes + 1;
      if !o.Rejected? { rollouts := rollouts + multiset{d}; }
      ok := o.Done?;
    }

    /** reconcileDexConfiguration, on the operator's copy; a panic is a failure. */
    method ReconcileDexConfiguration(c: Copy, dex: string) returns (ok: bool)
      modifies this`cm, this`n, this`writes, this`rollouts, c`data
      ensures Step(Now(), ok) == ReconcileDex(env, old(Now()), old(c.Value()), dex)
      ensures ok ==> c.Value() == WithDex(old(c.Value()), dex)
    {
      var actual := if c.data.None? then "" else Get(c.data.value, DEX_KEY);
      if actual == dex { return true; }
      if c.data.None? { return false; }
      c.data := Some(c.data.value[DEX_KEY := dex]);
      ok := WriteConfigMap(ConfigMap(c.data, c.owners));
      if ok { ok := TriggerRollout(DexServer); }
    }

    method AlignCopy(c: Copy, data: Data, o: Owner, terminalChanged: bool) returns (ok: bool)
      modifies this`cm, this`n, this`writes, this`rollouts, c
      ensures Step(Now(), ok) == Align(env, old(Now()), old(c.Value()), data, o, terminalChanged)
    {
      var changed := false;
      if c.data != Some(data) {
        c.data := Some(data);
        changed := true;
      }
      var refChanged;
      refChanged, ok := c.RepairOwners(o);
      if !ok { return; }
      if changed || refChanged {
        ok := WriteConfigMap(ConfigMap(c.data, c.owners));
        if ok && terminalChanged { ok := TriggerRollout(Server); }
      }
    }

    /** reconcileArgoConfigMap */
    method ReconcileArgoConfigMap(s: Spec, o: Owner) returns (ok: bool)
      modifies this`cm, this`n, this`writes, this`rollouts
      ensures Step(Now(), ok) == Pass(env, old(Now()), s, o)
    {
      var built := BuildData(s);
      if built.None? { return false; }
      var data := built.value;
      var found := Call();
      if !found.Done? { return false; }
      if cm.None? {
        ok := WriteConfigMap(ConfigMap(Some(data), [OwnerRef(o.apiVersion, o.kind, o.name, o.uid, true)]));
        return;
      }
      ok := UpdateExisting(s, cm.value, data, o);
    }

    /** The part of reconcileArgoConfigMap for a ConfigMap that exists. */
    method UpdateExisting(s: Spec, existing: ConfigMap, built: Data, o: Owner) returns (ok: bool)
      requires s.useDex ==> DexConfig(s).Some?
      modifies this`cm, this`n, this`writes, this`rollouts
      ensures Step(Now(), ok) == Update(env, old(Now()), s, existing, built, o)
    {
      var c := new Copy(existing);
      var data := built;
      var terminalChanged := Get(data, TERMINAL_KEY) != (if c.data.None? then "" else Get(c.data.value, TERMINAL_KEY));
      if s.useDex {
        ok := ReconcileDexConfiguration(c, DexConfig(s).value);
        if !ok { return; }
        data := data[DEX_KEY := if c.data.None? then "" else Get(c.data.value, DEX_KEY)];
      }
      ok := AlignCopy(c, data, o, terminalChanged);
    }
  }
}
