/** The names under which a local user is known: its secret, its token entry in `argocd-secret`,
    its renewal timer and its account keys in the CR's extraConfig. */
module LocalUserNames {
  import opened Platform

  function SecretName(user: string): (r: string) { user + "-local-user" }

  function TokenKey(user: string): (r: string) { "accounts." + user + ".tokens" }

  function AccountKey(user: string): (r: string) { "accounts." + user }

  function TimerKey(namespace: string, user: string): (r: string) { namespace + "/" + user }

  lemma SecretNameInjective(u: string, v: string)
    requires SecretName(u) == SecretName(v)
    ensures u == v
  {
    assert |u| == |v|;
    assert u == SecretName(u)[..|u|] && v == SecretName(v)[..|v|];
  }

  lemma TokenKeyInjective(u: string, v: string)
    requires TokenKey(u) == TokenKey(v)
    ensures u == v
  {
    assert |u| == |v|;
    assert u == TokenKey(u)[9..9 + |u|] && v == TokenKey(v)[9..9 + |v|];
  }

  /** A timer key names one namespace and one user, because a namespace name holds no '/'. */
  lemma TimerKeyInjective(ns: string, u: string, ms: string, v: string)
    requires TimerKey(ns, u) == TimerKey(ms, v)
    requires '/' !in ns && '/' !in ms
    ensures ns == ms && u == v
  {
    var k := TimerKey(ns, u);
    assert k == ms + "/" + v;
    assert k[|ns|] == '/' && k[|ms|] == '/';
    assert forall i | 0 <= i < |ns| :: k[i] == ns[i];
    assert forall i | 0 <= i < |ms| :: k[i] == ms[i];
    assert |ns| == |ms|;
    assert ns == k[..|ns|] && ms == k[..|ms|];
    assert u == k[|ns| + 1..] && v == k[|ms| + 1..];
  }

  lemma TimerKeyUserInjective(ns: string, u: string, v: string)
    requires TimerKey(ns, u) == TimerKey(ns, v)
    ensures u == v
  {
    var k := TimerKey(ns, u);
    assert u == k[|ns| + 1..] && v == k[|ns| + 1..];
  }

  /** The prefix test of namespace cleanup tells the namespaces apart. */
  lemma TimerKeyPrefix(ns: string, ms: string, v: string)
    requires '/' !in ns && '/' !in ms
    ensures HasPrefix(TimerKey(ms, v), ns + "/") <==> ns == ms
  {
    var k := TimerKey(ms, v);
    if HasPrefix(k, ns + "/") {
      var rest := k[|ns| + 1..];
      assert k == k[..|ns| + 1] + rest;
      assert k == TimerKey(ns, rest);
      TimerKeyInjective(ns, rest, ms, v);
    }
    assert k[..|ms| + 1] == ms + "/";
  }

  /** Does this extraConfig key declare an account? */
  predicate DeclaresAccount(k: string)
  {
    HasPrefix(k, "accounts.") && !HasSuffix(k, ".enabled") && '.' !in k[|"accounts."|..]
  }

  /** The users that extraConfig declares. */
  function LegacyUsers(extraConfig: map<string, string>): (r: set<string>)
  {
    set k | k in extraConfig && DeclaresAccount(k) :: k[|"accounts."|..]
  }

  /** Does extraConfig give this user the apiKey capability? An absent key reads as "". */
  predicate ExtraApiKey(extraConfig: map<string, string>, user: string)
  {
    AccountKey(user) in extraConfig && Contains(extraConfig[AccountKey(user)], "apiKey")
  }

  /** The key scan finds a user exactly when its account key is in extraConfig, its name has no dot, and it
      is not called "enabled". */
  lemma LegacyUsersExact(extraConfig: map<string, string>, user: string)
    ensures user in LegacyUsers(extraConfig) <==>
      AccountKey(user) in extraConfig && '.' !in user && user != "enabled"
  {
    var k := AccountKey(user);
    assert k[|"accounts."|..] == user && k[..|"accounts."|] == "accounts.";
    if '.' !in user { EnabledSuffix(user); }
    if user in LegacyUsers(extraConfig) {
      var k' :| k' in extraConfig && DeclaresAccount(k') && k'[|"accounts."|..] == user;
      assert k' == k'[..|"accounts."|] + k'[|"accounts."|..];
    }
  }

  lemma EnabledSuffix(user: string)
    requires '.' !in user
    ensures HasSuffix(AccountKey(user), ".enabled") <==> user == "enabled"
  {
    var k := AccountKey(user);
    assert forall i | 0 <= i < |k| && i != 8 :: k[i] != '.' by {
      assert forall i | 9 <= i < |k| :: k[i] == user[i - 9];
    }
    assert |k| >= 8 ==> k[|k| - 8..][0] == k[|k| - 8];
    assert |k| == 16 ==> k[8..] == "." + user;
    assert ".enabled"[1..] == "enabled";
  }

  /** A user with a plain name that extraConfig does not declare has no apiKey from extraConfig either. */
  lemma NonLegacyHasNoExtraApiKey(extraConfig: map<string, string>, user: string)
    requires '.' !in user && user != "enabled"
    requires user !in LegacyUsers(extraConfig)
    ensures !ExtraApiKey(extraConfig, user)
  {
    LegacyUsersExact(extraConfig, user);
  }

  /** Witnesses: a dotted user, and the user "enabled", are given apiKey by extraConfig without being seen as
      declared there. */
  lemma DottedUserEscapesTheScan()
    ensures "a.b" !in LegacyUsers(map["accounts.a.b" := "apiKey"])
    ensures ExtraApiKey(map["accounts.a.b" := "apiKey"], "a.b")
    ensures "enabled" !in LegacyUsers(map["accounts.enabled" := "apiKey"])
    ensures ExtraApiKey(map["accounts.enabled" := "apiKey"], "enabled")
  {
    assert '.' == "accounts.a.b"[9..][1];
    assert "accounts.enabled"[8..] == ".enabled";
    assert "apiKey"[0..] == "apiKey";
    assert HasPrefix("apiKey"[0..], "apiKey");
    assert AccountKey("a.b") == "accounts.a.b";
    assert AccountKey("enabled") == "accounts.enabled";
  }
}
