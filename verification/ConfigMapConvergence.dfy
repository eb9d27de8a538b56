/** What `argocd-cm` comes to: its final data, the mask list, the repaired owner reference, and how many
    passes it takes. */
module ConfigMapConvergence {
  import opened Platform
  import opened Rbac
  import opened Text
  import opened LocalUserNames
  import opened ConfigMaps

  // ---------- The mask list ----------

  lemma {:induction false} SplitAppend(a: string, b: string)
    ensures SplitComma(a + "," + b) == SplitComma(a) + SplitComma(b)
  {
    if a == "" {
      assert a + "," + b == [','] + b;
      SplitStep(',', b);
    } else {
      var c, a' := a[0], a[1..];
      SplitAppend(a', b);
      assert a + "," + b == [c] + (a' + "," + b) && a == [c] + a';
      SplitStep(c, a' + "," + b);
      SplitStep(c, a');
      PrependWord(c, SplitComma(a'), SplitComma(b));
    }
  }

  lemma PrependWord(c: char, xs: seq<string>, ys: seq<string>)
    requires |xs| >= 1
    ensures [[c] + (xs + ys)[0]] + (xs + ys)[1..] == ([[c] + xs[0]] + xs[1..]) + ys
    ensures [""] + (xs + ys) == ([""] + xs) + ys
  {
    assert (xs + ys)[1..] == xs[1..] + ys;
  }

  lemma {:induction false} SplitWord(w: string)
    requires ',' !in w
    ensures SplitComma(w) == [w]
  {
    if w != "" {
      assert w[0] != ',';
      SplitWord(w[1..]);
      assert w == [w[0]] + w[1..];
    }
  }

  lemma TokenIsItem(parts: seq<string>, i: nat)
    requires i < |parts| && parts[i] == TOKEN_ANNOTATION
    ensures TOKEN_ANNOTATION in Items(parts)
  {
    assert TrimSpace(TOKEN_ANNOTATION) == TOKEN_ANNOTATION;
    assert IsItem(parts, TOKEN_ANNOTATION);
  }

  lemma MaskEntries(existing: string)
    ensures SplitComma(Mask(existing)) ==
      if existing == "" then [TOKEN_ANNOTATION]
      else if TOKEN_ANNOTATION in Items(SplitComma(existing)) then SplitComma(existing)
      else SplitComma(existing) + [TOKEN_ANNOTATION]
  {
    assert ',' !in TOKEN_ANNOTATION;
    SplitWord(TOKEN_ANNOTATION);
    SplitAppend(existing, TOKEN_ANNOTATION);
  }

  lemma MaskHasToken(existing: string)
    ensures TOKEN_ANNOTATION in Items(SplitComma(Mask(existing)))
  {
    MaskEntries(existing);
    var parts := SplitComma(Mask(existing));
    if existing == "" || TOKEN_ANNOTATION !in Items(SplitComma(existing)) { TokenIsItem(parts, |parts| - 1); }
  }

  /** The mask list holds the annotation as a trimmed entry, keeps the earlier text as a prefix, adds the
      annotation as the last entry if it was missing and nothing else, and does not change when it is computed
      again. */
  lemma MaskProperties(existing: string)
    ensures TOKEN_ANNOTATION in Items(SplitComma(Mask(existing)))
    ensures HasPrefix(Mask(existing), existing)
    ensures existing != "" ==>
      SplitComma(Mask(existing)) == SplitComma(existing) +
        if "openshift.io/token-secret.value" in Items(SplitComma(existing)) then []
        else ["openshift.io/token-secret.value"]
    ensures existing == "" ==> Mask(existing) == "openshift.io/token-secret.value"
    ensures Mask(Mask(existing)) == Mask(existing)
  {
    MaskEntries(existing);
    MaskHasToken(existing);
    assert Mask(existing) != "";
  }

  // ---------- The data ----------

  /** Every extraConfig key has its extraConfig value in the final data, except dex.config while Dex is
      used, which has Dex's own, and the mask key on OpenShift, which is extended. */
  lemma ExtraConfigWins(s: Spec, k: string)
    requires Final(s).Some? && k in s.extraConfig
    ensures k in Final(s).value
    ensures Final(s).value[k] ==
      if k == DEX_KEY && s.useDex then DexConfig(s).value
      else if k == MASK_KEY && s.openShift then Mask(s.extraConfig[k])
      else s.extraConfig[k]
  {
  }

  lemma FinalAlwaysHas(s: Spec)
    requires Final(s).Some?
    ensures FINE_GRAINED_KEY in Final(s).value
    ensures s.openShift ==>
      MASK_KEY in Final(s).value && TOKEN_ANNOTATION in Items(SplitComma(Final(s).value[MASK_KEY]))
  {
    if s.openShift {
      var d := Generated(s).value + s.extraConfig;
      var d2 := if FINE_GRAINED_KEY in d then d else d[FINE_GRAINED_KEY := "false"];
      MaskProperties(Get(d2, MASK_KEY));
    }
  }

  // ---------- Accounts ----------

  /** Distinct user names without a dot do not share keys. */
  lemma AccountKeysDiffer(u: string, v: string)
    requires '.' !in u && '.' !in v
    ensures AccountKey(u) != AccountKey(v) + ".enabled"
    ensures AccountKey(u) == AccountKey(v) ==> u == v
    ensures AccountKey(u) + ".enabled" == AccountKey(v) + ".enabled" ==> u == v
  {
    var a, b := AccountKey(u), AccountKey(v);
    assert a[9..] == u && b[9..] == v;
    assert (b + ".enabled")[9..] == v + ".enabled";
    assert (v + ".enabled")[|v|] == '.';
    assert (a + ".enabled")[..|a|] == a && (b + ".enabled")[..|b|] == b;
    assert a + ".enabled" == b + ".enabled" ==> |a| == |b|;
  }

  ghost predicate WellNamed(users: seq<User>)
  {
    && (forall i | 0 <= i < |users| :: '.' !in users[i].name)
    && (forall i, j | 0 <= i < j < |users| :: users[i].name != users[j].name)
  }

  lemma {:induction false} OthersLeaveAccount(d: Data, users: seq<User>, legacy: set<string>, name: string)
    requires '.' !in name && WellNamed(users) && forall i | 0 <= i < |users| :: users[i].name != name
    ensures var d' := WithUsers(d, users, legacy);
      Lookup(d', AccountKey(name)) == Lookup(d, AccountKey(name)) &&
      Lookup(d', AccountKey(name) + ".enabled") == Lookup(d, AccountKey(name) + ".enabled")
    decreases |users|
  {
    if users != [] {
      var u := users[0];
      AccountKeysDiffer(u.name, name);
      AccountKeysDiffer(name, u.name);
      assert WellNamed(users[1..]);
      OthersLeaveAccount(if u.name in legacy then d else WithUser(d, u), users[1..], legacy, name);
    }
  }

  lemma {:induction false} UserAccount(d: Data, users: seq<User>, legacy: set<string>, i: nat)
    requires WellNamed(users) && i < |users| && users[i].name !in legacy
    ensures var d' := WithUsers(d, users, legacy);
      var k := AccountKey(users[i].name);
      && Lookup(d', k) == (if Capabilities(users[i]) != "" then Some(Capabilities(users[i])) else Lookup(d, k))
      && Lookup(d', k + ".enabled") == Some(EnabledText(users[i]))
    decreases |users|
  {
    assert WellNamed(users[1..]);
    var u := users[0];
    var name := users[i].name;
    AccountKeysDiffer(u.name, name);
    AccountKeysDiffer(name, u.name);
    if i == 0 {
      OthersLeaveAccount(WithUser(d, u), users[1..], legacy, u.name);
    } else {
      UserAccount(if u.name in legacy then d else WithUser(d, u), users[1..], legacy, i - 1);
    }
  }

  /** A declared user that extraConfig does not mention gets exactly its capabilities in the final data,
      and its enabled flag. */
  lemma AccountLines(s: Spec, i: nat)
    requires Final(s).Some? && WellNamed(s.users) && i < |s.users|
    requires s.users[i].name != "enabled"
    requires AccountKey(s.users[i].name) !in s.extraConfig && AccountKey(s.users[i].name) + ".enabled" !in s.extraConfig
    ensures var u := s.users[i];
      && (Capabilities(u) != "" ==> Lookup(Final(s).value, AccountKey(u.name)) == Some(Capabilities(u)))
      && Lookup(Final(s).value, AccountKey(u.name) + ".enabled") == Some(EnabledText(u))
  {
    var u := s.users[i];
    LegacyUsersExact(s.extraConfig, u.name);
    var d1 := if s.installationID != "" then s.first["installationID" := s.installationID] else s.first;
    var d2 := WithVersions(d1, s.kustomizeVersions)["oidc.config" := s.oidc];
    var d3 := d2 + s.healthChecks + s.ignoreDifferences.value + s.actions + s.last.value;
    var d4 := if s.useDex then d3[DEX_KEY := DexConfig(s).value] else d3;
    UserAccount(WithBanner(d4, s.banner), s.users, LegacyUsers(s.extraConfig), i);
    assert AccountKey(u.name)[0] == 'a' && (AccountKey(u.name) + ".enabled")[0] == 'a';
  }

  // ---------- Owner references ----------

  lemma FirstOfKindAt(refs: seq<OwnerRef>, kind: string, i: nat)
    requires i < |refs| && refs[i].kind == kind && forall j | 0 <= j < i :: refs[j].kind != kind
    ensures FirstOfKind(refs, kind) == i
  {
    var k := FirstOfKind(refs, kind);
    assert k <= i;
    assert !(k < i);
  }

  /** Repair succeeds unless no reference has the ArgoCD kind and another object controls the ConfigMap.
      When it succeeds, the first reference of the kind, or a new controlling one at the end, names the
      resource, every other one is as it was, in its place, `changed` tells the truth, and a second repair
      finds nothing to do. */
  lemma RepairIsExact(refs: seq<OwnerRef>, o: Owner)
    ensures var r := RepairOwner(refs, o);
      && (r.ok <==> (exists i | 0 <= i < |refs| :: refs[i].kind == o.kind)
                    || !(exists i | 0 <= i < |refs| :: refs[i].controller))
      && (r.changed <==> r.refs != refs)
      && (!r.ok ==> r.refs == refs)
    ensures var r := RepairOwner(refs, o);
      r.ok ==>
        var i := FirstOfKind(refs, o.kind);
        && |r.refs| == (if i < |refs| then |refs| else |refs| + 1)
        && Names(r.refs[i], o)
        && (forall j | 0 <= j < |refs| && j != i :: r.refs[j] == refs[j])
        && r.refs[i].controller == (if i < |refs| then refs[i].controller else true)
        && RepairOwner(r.refs, o) == Repair(r.refs, false, true)
  {
    var r := RepairOwner(refs, o);
    var i := FirstOfKind(refs, o.kind);
    if i < |refs| {
      FirstOfKindAt(r.refs, o.kind, i);
      assert r.refs[i] != refs[i] ==> r.refs != refs;
      assert r.refs[i] == refs[i] ==> r.refs == refs;
      assert r.refs[i := r.refs[i]] == r.refs;
    } else if r.ok {
      FirstOfKindAt(r.refs, o.kind, i);
      assert |r.refs| != |refs|;
      assert r.refs[i := r.refs[i]] == r.refs;
    }
  }

  // ---------- Convergence ----------

  ghost predicate Settled(s: Spec, o: Owner, w: World)
  {
    && w.cm.Some? && Final(s).Some?
    && w.cm.value.data == Final(s)
    && RepairOwner(w.cm.value.owners, o) == Repair(w.cm.value.owners, false, true)
  }

  /** Once settled, a pass writes nothing, whatever the API server answers. */
  lemma SettledIsQuiet(env: Env, w: World, s: Spec, o: Owner)
    requires Settled(s, o, w)
    ensures var t := Pass(env, w, s, o); t.w == Tick(w)
  {
  }

  /** A missing ConfigMap is created with dex.config from extraConfig, even when Dex's own differs. */
  predicate CreatedWithOtherDex(s: Spec)
  {
    s.useDex && DEX_KEY in s.extraConfig && Some(s.extraConfig[DEX_KEY]) != DexConfig(s)
  }

  /** The existing ConfigMap cannot be brought in line by any pass. */
  predicate Blocked(s: Spec, o: Owner, c: ConfigMap)
  {
    || (s.useDex && DexConfig(s).Some? && Panics(c, DexConfig(s).value))
    || !RepairOwner(c.owners, o).ok
  }

  lemma AlignSettles(env: Env, w: World, s: Spec, o: Owner, c: ConfigMap, terminalChanged: bool)
    requires Final(s).Some? && w.cm.Some? && c.owners == w.cm.value.owners && c.data == w.cm.value.data
    requires RepairOwner(c.owners, o).ok
    ensures var t := Align(env, w, c, Final(s).value, o, terminalChanged);
      w.n <= t.w.n && (ErrorFree(env, w.n, t.w.n) ==> t.ok && Settled(s, o, t.w))
  {
    RepairIsExact(c.owners, o);
    var r := RepairOwner(c.owners, o);
    if c.data != Some(Final(s).value) || r.changed {
      var p := PutConfigMap(env, w, ConfigMap(Some(Final(s).value), r.refs));
      assert env.outcome(w.n).Done? ==> Settled(s, o, p.w);
    }
  }

  lemma DexSettles(env: Env, w: World, c: ConfigMap, dex: string)
    requires w.cm == Some(c) && !Panics(c, dex)
    ensures var a := ReconcileDex(env, w, c, dex);
      && w.n <= a.w.n && (ErrorFree(env, w.n, a.w.n) ==> a.ok)
      && (a.ok ==> a.w.cm == Some(WithDex(c, dex)))
  {
  }

  lemma UpdateSettles(env: Env, w: World, s: Spec, o: Owner)
    requires Final(s).Some? && w.cm.Some? && !Blocked(s, o, w.cm.value)
    ensures var t := Update(env, w, s, w.cm.value, Build(s).value, o);
      w.n <= t.w.n && (ErrorFree(env, w.n, t.w.n) ==> t.ok && Settled(s, o, t.w))
  {
    var c := w.cm.value;
    var changed := Get(Build(s).value, TERMINAL_KEY) != Get(DataOf(c), TERMINAL_KEY);
    if !s.useDex {
      AlignSettles(env, w, s, o, c, changed);
    } else {
      var dex := DexConfig(s).value;
      DexSettles(env, w, c, dex);
      var a := ReconcileDex(env, w, c, dex);
      if a.ok {
        var d := WithDex(c, dex);
        AlignSettles(env, a.w, s, o, d, changed);
        var t := Align(env, a.w, d, Final(s).value, o, changed);
        assert t == Update(env, w, s, c, Build(s).value, o);
        assert ErrorFree(env, w.n, t.w.n) ==> ErrorFree(env, a.w.n, t.w.n);
      }
    }
  }

  /** One pass whose calls all succeed is itself a success unless the data cannot be built or the
      ConfigMap is blocked; and then it settles everything, except a ConfigMap just created with the
      dex.config of extraConfig while Dex has another. */
  lemma OnePass(env: Env, w: World, s: Spec, o: Owner)
    requires ErrorFree(env, w.n, Pass(env, w, s, o).w.n)
    ensures var t := Pass(env, w, s, o);
      && (t.ok <==> Final(s).Some? && (w.cm.Some? ==> !Blocked(s, o, w.cm.value)))
      && (t.ok ==> (Settled(s, o, t.w) <==> w.cm.Some? || !CreatedWithOtherDex(s)))
  {
    if Build(s).Some? {
      match w.cm
      case None => CreateSettles(env, w, s, o);
      case Some(c) => ExistingSettles(env, w, s, o);
    }
  }

  lemma ExistingSettles(env: Env, w: World, s: Spec, o: Owner)
    requires Build(s).Some? && w.cm.Some? && ErrorFree(env, w.n, Pass(env, w, s, o).w.n)
    ensures var t := Pass(env, w, s, o);
      if Blocked(s, o, w.cm.value) then !t.ok else t.ok && Settled(s, o, t.w)
  {
    if Blocked(s, o, w.cm.value) {
      BlockedFails(env, w, s, o);
    } else {
      UpdateSettles(env, Tick(w), s, o);
      assert w.n < Pass(env, w, s, o).w.n;
      assert env.outcome(w.n).Done?;
    }
  }

  lemma CreateSettles(env: Env, w: World, s: Spec, o: Owner)
    requires Build(s).Some? && w.cm.None? && ErrorFree(env, w.n, Pass(env, w, s, o).w.n)
    ensures var t := Pass(env, w, s, o);
      t.ok && t.w.cm.Some? && !Blocked(s, o, t.w.cm.value) && (Settled(s, o, t.w) <==> !CreatedWithOtherDex(s))
  {
    assert ErrorFree(env, w.n, w.n + 1);
    assert env.outcome(w.n + 1).Done?;
    var refs := [OwnerRef(o.apiVersion, o.kind, o.name, o.uid, true)];
    FirstOfKindAt(refs, o.kind, 0);
    assert refs[0 := refs[0]] == refs;
    var d := Build(s).value;
    if s.useDex {
      var dex := DexConfig(s).value;
      assert DEX_KEY in d && d[DEX_KEY] == if DEX_KEY in s.extraConfig then s.extraConfig[DEX_KEY] else dex by {
        GeneratedDex(s);
      }
      assert d[DEX_KEY := dex][DEX_KEY] == dex;
      assert d[DEX_KEY] == dex ==> d[DEX_KEY := dex] == d;
    }
  }

  lemma GeneratedDex(s: Spec)
    requires s.useDex && Generated(s).Some?
    ensures Lookup(Generated(s).value, DEX_KEY) == DexConfig(s)
  {
    var d1 := if s.installationID != "" then s.first["installationID" := s.installationID] else s.first;
    var d2 := WithVersions(d1, s.kustomizeVersions)["oidc.config" := s.oidc];
    var d3 := d2 + s.healthChecks + s.ignoreDifferences.value + s.actions + s.last.value;
    var d4 := d3[DEX_KEY := DexConfig(s).value];
    UsersLeaveOtherKeys(WithBanner(d4, s.banner), s.users, LegacyUsers(s.extraConfig), DEX_KEY);
  }

  lemma {:induction false} UsersLeaveOtherKeys(d: Data, users: seq<User>, legacy: set<string>, k: string)
    requires k != "" && k[0] != 'a'
    ensures Lookup(WithUsers(d, users, legacy), k) == Lookup(d, k)
    decreases |users|
  {
    if users != [] {
      assert AccountKey(users[0].name)[0] == 'a' && (AccountKey(users[0].name) + ".enabled")[0] == 'a';
      UsersLeaveOtherKeys(if users[0].name in legacy then d else WithUser(d, users[0]), users[1..], legacy, k);
    }
  }

  lemma UpdateBlocked(env: Env, w: World, s: Spec, o: Owner, data: Data)
    requires s.useDex ==> DexConfig(s).Some?
    requires w.cm.Some? && Blocked(s, o, w.cm.value)
    ensures var t := Update(env, w, s, w.cm.value, data, o); !t.ok && t.w.cm.Some? && Blocked(s, o, t.w.cm.value)
  {
    var c := w.cm.value;
    if s.useDex && !Panics(c, DexConfig(s).value) {
      var a := ReconcileDex(env, w, c, DexConfig(s).value);
      assert a.w.cm.Some? && a.w.cm.value.owners == c.owners;
    }
  }

  /** A blocked ConfigMap is not brought in line by any pass, whatever the answers. */
  lemma BlockedFails(env: Env, w: World, s: Spec, o: Owner)
    requires Build(s).Some? && w.cm.Some? && Blocked(s, o, w.cm.value)
    ensures var t := Pass(env, w, s, o); !t.ok && t.w.cm.Some? && Blocked(s, o, t.w.cm.value)
  {
    UpdateBlocked(env, Tick(w), s, o, Build(s).value);
  }

  /** From any start, two passes whose calls all succeed settle everything, if the first one is a
      success; from then on `SettledIsQuiet`. */
  lemma TwoPassesSettle(env: Env, w: World, s: Spec, o: Owner)
    requires var t := Pass(env, w, s, o);
      t.ok && ErrorFree(env, w.n, t.w.n) && ErrorFree(env, t.w.n, Pass(env, t.w, s, o).w.n)
    ensures var u := Pass(env, Pass(env, w, s, o).w, s, o); u.ok && Settled(s, o, u.w)
  {
    var t := Pass(env, w, s, o);
    OnePass(env, w, s, o);
    OnePass(env, t.w, s, o);
    if w.cm.None? {
      CreateSettles(env, w, s, o);
    } else {
      assert Settled(s, o, t.w);
      SettledNotBlocked(s, o, t.w);
    }
  }

  lemma SettledNotBlocked(s: Spec, o: Owner, w: World)
    requires Settled(s, o, w)
    ensures !Blocked(s, o, w.cm.value)
  {
  }
}
