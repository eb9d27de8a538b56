/** The non-expiring Dex token of earlier releases: handing it out, and removing it once token renewal
    is enabled. One namespace; the service account refers to its token secrets by name. */
module DexLegacy {
  import opened Platform

  datatype Secret = Secret(tracked: bool, serviceAccountToken: bool, account: string, token: string)

  /** `references` is None while the service account does not exist. */
  datatype World = World(secrets: map<string, Secret>, references: Option<seq<string>>, n: nat)

  datatype Step = Step(w: World, ok: bool)

  datatype Handout = Handout(w: World, token: Option<string>)

  /** `generated` gives the name that the API server generates at a call, `content` the token that it puts in
      the new secret. */
  datatype Tools = Tools(env: Env, account: string, generated: nat -> string, content: nat -> string)

  predicate Answered(t: Tools, w: World) { t.env.outcome(w.n).Done? }

  // ---------- Handing out ----------

  /** The first reference whose name contains "token". */
  function TokenReference(refs: seq<string>): (r: Option<string>)
    ensures r.Some? ==> r.value in refs && Contains(r.value, "token")
    ensures r.None? ==> forall x | x in refs :: !Contains(x, "token")
  {
    if refs == [] then None
    else if Contains(refs[0], "token") then Some(refs[0])
    else TokenReference(refs[1..])
  }

  function FetchToken(t: Tools, w: World, name: string): (r: Handout)
  {
    var w1 := w.(n := w.n + 1);
    if !Answered(t, w) || name !in w.secrets then Handout(w1, None) else Handout(w1, Some(w.secrets[name].token))
  }

  /** Create a token secret and refer to it. */
  function CreateToken(t: Tools, w: World, refs: seq<string>): (r: Handout)
  {
    var name := t.generated(w.n);
    var o, p := t.env.outcome(w.n), t.env.outcome(w.n + 1);
    var secret := Secret(true, true, t.account, t.content(w.n));
    var w1 := w.(n := w.n + 1, secrets := if o.Rejected? then w.secrets else w.secrets[name := secret]);
    if !o.Done? then Handout(w1, None)
    else
      var w2 := w1.(n := w1.n + 1, references := if p.Rejected? then w1.references else Some(refs + [name]));
      if !p.Done? then Handout(w2, None) else FetchToken(t, w2, name)
  }

  /** getDexOAuthClientSecretLegacy */
  function GetToken(t: Tools, w: World): (r: Handout)
  {
    if !Answered(t, w) || w.references.None? then Handout(w.(n := w.n + 1), None)
    else
      var w1 := w.(n := w.n + 1);
      match TokenReference(w.references.value)
      case Some(name) => FetchToken(t, w1, name)
      case None => CreateToken(t, w1, w.references.value)
  }

  // ---------- Removing ----------

  predicate IsLegacy(t: Tools, s: Secret) { s.tracked && s.serviceAccountToken && s.account == t.account }

  function Tracked(w: World): (r: set<string>) { set x | x in w.secrets && w.secrets[x].tracked }

  /** What the delete loop did: the names it took for deleted, and whether each delete went well. */
  datatype Deletion = Deletion(w: World, deleted: set<string>, ok: bool)

  /** One delete. */
  function DeleteOne(t: Tools, w: World, name: string): (r: World)
  {
    var o := t.env.outcome(w.n);
    w.(n := w.n + 1, secrets := if o.Rejected? then w.secrets else w.secrets - {name})
  }

  function DeleteLoop(t: Tools, w: World, names: seq<string>, listed: map<string, Secret>): (r: Deletion)
    decreases |names|
  {
    if names == [] then Deletion(w, {}, true)
    else if names[0] !in listed || !IsLegacy(t, listed[names[0]]) then DeleteLoop(t, w, names[1..], listed)
    else
      var o := t.env.outcome(w.n);
      var rest := DeleteLoop(t, DeleteOne(t, w, names[0]), names[1..], listed);
      if o.Done? then rest.(deleted := rest.deleted + {names[0]}) else rest.(ok := false)
  }

  function Without(refs: seq<string>, deleted: set<string>): (r: seq<string>)
    ensures forall x :: x in r <==> x in refs && x !in deleted
    ensures |r| <= |refs|
    ensures |r| == |refs| <==> r == refs
  {
    if refs == [] then []
    else if refs[0] in deleted then Without(refs[1..], deleted)
    else [refs[0]] + Without(refs[1..], deleted)
  }

  /** Drop the references to what was deleted; `ok` tells whether the deletes went well. */
  function Unlink(t: Tools, w: World, deleted: set<string>, ok: bool): (r: Step)
  {
    var w1 := w.(n := w.n + 1);
    if !Answered(t, w) then Step(w1, false)
    else if w.references.None? then Step(w1, ok)
    else
      var refs := w.references.value;
      var kept := Without(refs, deleted);
      if |kept| == |refs| then Step(w1, ok)
      else
        var o := t.env.outcome(w1.n);
        Step(w1.(n := w1.n + 1, references := if o.Rejected? then w.references else Some(kept)), ok && o.Done?)
  }

  /** reconcileDexLegacySATokenSecrets */
  function Remove(t: Tools, w: World): (r: Step)
  {
    if !Answered(t, w) then Step(w.(n := w.n + 1), false)
    else
      var listed := map x | x in Tracked(w) :: w.secrets[x];
      var d := DeleteLoop(t, w.(n := w.n + 1), t.env.listing(w.n, Tracked(w)), listed);
      Unlink(t, d.w, d.deleted, d.ok)
  }

  // ---------- Properties ----------

  function LegacyNames(t: Tools, w: World): (r: set<string>) { set x | x in w.secrets && IsLegacy(t, w.secrets[x]) }

  /** The loop deletes legacy secrets and nothing else; what it takes for deleted is deleted; when all
      went well it is all of them. */
  lemma {:induction false} DeleteLoopEffect(t: Tools, w: World, names: seq<string>, listed: map<string, Secret>)
    ensures var d := DeleteLoop(t, w, names, listed);
      && d.w.references == w.references && w.n <= d.w.n
      && (forall x | x in d.w.secrets :: x in w.secrets && d.w.secrets[x] == w.secrets[x])
      && (forall x | x in w.secrets && !(x in listed && IsLegacy(t, listed[x])) :: x in d.w.secrets)
      && (forall x | x in d.deleted :: x in names && x in listed && IsLegacy(t, listed[x]) && x !in d.w.secrets)
      && (d.ok ==> forall x | x in names && x in listed && IsLegacy(t, listed[x]) :: x in d.deleted)
    decreases |names|
  {
    if names != [] {
      assert forall x | x in names :: x == names[0] || x in names[1..];
      assert forall x | x in names[1..] :: x in names;
      if names[0] !in listed || !IsLegacy(t, listed[names[0]]) {
        DeleteLoopEffect(t, w, names[1..], listed);
      } else {
        DeleteLoopEffect(t, DeleteOne(t, w, names[0]), names[1..], listed);
      }
    }
  }

  ghost predicate Lists(t: Tools)
  {
    forall n: nat, s: set<string>, x: string :: x in t.env.listing(n, s) <==> x in s
  }

  lemma RemoveDeletes(t: Tools, w: World)
    requires Lists(t) && Answered(t, w)
    ensures var listed := map x | x in Tracked(w) :: w.secrets[x];
      var d := DeleteLoop(t, w.(n := w.n + 1), t.env.listing(w.n, Tracked(w)), listed);
      && d.deleted <= LegacyNames(t, w)
      && (d.ok ==> d.deleted == LegacyNames(t, w) && d.w.secrets == w.secrets - LegacyNames(t, w))
      && d.w.references == w.references
      && (forall x | x in d.w.secrets :: x in w.secrets && d.w.secrets[x] == w.secrets[x])
      && (forall x | x in d.deleted :: x !in d.w.secrets)
      && (forall x | x in w.secrets && x !in LegacyNames(t, w) :: x in d.w.secrets)
  {
    var listed := map x | x in Tracked(w) :: w.secrets[x];
    var names := t.env.listing(w.n, Tracked(w));
    DeleteLoopEffect(t, w.(n := w.n + 1), names, listed);
    assert forall x :: x in names <==> x in Tracked(w);
    assert forall x | x in LegacyNames(t, w) :: x in listed && listed[x] == w.secrets[x];
  }

  /** The elements of `xs` are elements of `ys`, in the same order. */
  predicate InOrderOf(xs: seq<string>, ys: seq<string>)
    decreases |ys|
  {
    xs == [] || (ys != [] && if xs[0] == ys[0] then InOrderOf(xs[1..], ys[1..]) else InOrderOf(xs, ys[1..]))
  }

  lemma {:induction false} WithoutInOrder(refs: seq<string>, deleted: set<string>)
    ensures InOrderOf(Without(refs, deleted), refs)
    decreases |refs|
  {
    if refs != [] {
      WithoutInOrder(refs[1..], deleted);
      var rest := Without(refs[1..], deleted);
      if refs[0] in deleted {
        assert rest != [] ==> rest[0] in rest && rest[0] != refs[0];
      } else {
        assert ([refs[0]] + rest)[1..] == rest;
      }
    }
  }

  /** A successful removal deletes exactly the legacy secrets of the Dex service account (operator-made service
      account tokens of that account) and drops exactly the references to them, in order. */
  lemma RemoveIsExact(t: Tools, w: World)
    requires Lists(t) && Remove(t, w).ok
    ensures forall x :: x in LegacyNames(t, w) <==>
      x in w.secrets && w.secrets[x].tracked && w.secrets[x].serviceAccountToken && w.secrets[x].account == t.account
    ensures var w' := Remove(t, w).w;
      && w'.secrets == w.secrets - LegacyNames(t, w)
      && w'.references == match w.references case None => None case Some(refs) => Some(Without(refs, LegacyNames(t, w)))
    ensures w.references.Some? ==> InOrderOf(Remove(t, w).w.references.value, w.references.value)
  {
    RemoveDeletes(t, w);
    if w.references.Some? { WithoutInOrder(w.references.value, LegacyNames(t, w)); }
  }

  /** A service account whose token reference leads nowhere. */
  predicate Stuck(w: World)
  {
    w.references.Some? &&
    var r := TokenReference(w.references.value);
    r.Some? && r.value !in w.secrets
  }

  /** With renewal off, a token is handed out by error-free calls exactly when the service account exists
      and is not stuck. */
  lemma HandoutExactly(t: Tools, w: World)
    requires ErrorFree(t.env, w.n, w.n + 4)
    ensures GetToken(t, w).token.Some? <==> w.references.Some? && !Stuck(w)
  {
  }

  lemma {:induction false} TokenReferenceIsFirst(refs: seq<string>)
    ensures match TokenReference(refs)
      case None => forall i | 0 <= i < |refs| :: !Contains(refs[i], "token")
      case Some(name) =>
        exists i | 0 <= i < |refs| ::
          && refs[i] == name && Contains(name, "token")
          && forall j | 0 <= j < i :: !Contains(refs[j], "token")
    decreases |refs|
  {
    if refs != [] && !Contains(refs[0], "token") {
      TokenReferenceIsFirst(refs[1..]);
      if TokenReference(refs[1..]).Some? {
        var i :| 0 <= i < |refs[1..]| && refs[1..][i] == TokenReference(refs[1..]).value
                 && forall j | 0 <= j < i :: !Contains(refs[1..][j], "token");
        assert refs[i + 1] == refs[1..][i];
        assert forall j | 0 < j < i + 1 :: refs[j] == refs[1..][j - 1];
      }
    }
  }

  /** Which token is handed out, for every state and every pattern of answers: with a token reference, the
      token of the secret that the first such reference names, and nothing changes but the call index; without
      one, the content that the API server generated for the secret that this call creates, which is then
      stored as a legacy secret of this account, with its name after the old references. */
  lemma HandedOutToken(t: Tools, w: World)
    requires GetToken(t, w).token.Some?
    ensures w.references.Some?
    ensures var h := GetToken(t, w);
      var refs := w.references.value;
      match TokenReference(refs)
      case Some(name) =>
        name in w.secrets && h.token.value == w.secrets[name].token && h.w == w.(n := w.n + 2)
      case None =>
        var name := t.generated(w.n + 1);
        && h.token.value == t.content(w.n + 1)
        && name in h.w.secrets && h.w.secrets[name].token == h.token.value && h.w.secrets[name].tracked
        && h.w.secrets[name].serviceAccountToken && h.w.secrets[name].account == t.account
        && (forall x | x != name :: x in h.w.secrets <==> x in w.secrets)
        && (forall x | x in w.secrets && x != name :: h.w.secrets[x] == w.secrets[x])
        && h.w.references == Some(refs + [name]) && h.w.n == w.n + 4
  {
  }

  /** What a handout changes, whether or not it hands out a token: when the account is read and no reference
      names "token", the new secret is stored unless that write is rejected, and referred to if it is
      acknowledged and the update of the account is not rejected. Otherwise nothing changes. */
  lemma HandoutEffect(t: Tools, w: World)
    ensures var h, name := GetToken(t, w), t.generated(w.n + 1);
      var creates := t.env.outcome(w.n).Done? && w.references.Some?
                     && forall x | x in w.references.value :: !Contains(x, "token");
      && h.w.secrets == (if creates && !t.env.outcome(w.n + 1).Rejected?
                         then w.secrets[name := Secret(true, true, t.account, t.content(w.n + 1))] else w.secrets)
      && h.w.references == (if creates && t.env.outcome(w.n + 1).Done? && !t.env.outcome(w.n + 2).Rejected?
                            then Some(w.references.value + [name]) else w.references)
  {
  }

  lemma {:induction false} TokenReferenceOfMore(refs: seq<string>, name: string)
    requires TokenReference(refs).None? && Contains(name, "token")
    ensures TokenReference(refs + [name]) == Some(name)
    decreases |refs|
  {
    if refs != [] {
      assert (refs + [name])[1..] == refs[1..] + [name];
      TokenReferenceOfMore(refs[1..], name);
    }
  }

  /** Two handouts in a row give the same token: the generated name contains "token", as the source asks of
      the API server, and the calls of the second one succeed. */
  lemma HandoutsAgree(t: Tools, w: World)
    requires GetToken(t, w).token.Some? && Contains(t.generated(w.n + 1), "token")
    requires var v := GetToken(t, w).w; ErrorFree(t.env, v.n, v.n + 2)
    ensures GetToken(t, GetToken(t, w).w).token == GetToken(t, w).token
  {
    HandedOutToken(t, w);
    var v := GetToken(t, w).w;
    if TokenReference(w.references.value).None? {
      TokenReferenceOfMore(w.references.value, t.generated(w.n + 1));
    }
    assert t.env.outcome(v.n).Done? && t.env.outcome(v.n + 1).Done?;
  }

  lemma {:induction false} WithoutKeepsFirst(refs: seq<string>, deleted: set<string>)
    requires TokenReference(refs).Some? && TokenReference(refs).value !in deleted
    ensures TokenReference(Without(refs, deleted)) == TokenReference(refs)
    decreases |refs|
  {
    if !Contains(refs[0], "token") {
      WithoutKeepsFirst(refs[1..], deleted);
      assert refs[0] !in deleted ==> Without(refs, deleted)[1..] == Without(refs[1..], deleted);
    }
  }

  lemma StuckStays(t: Tools, w: World, removing: bool)
    requires Lists(t) && Stuck(w)
    ensures Stuck(if removing then Remove(t, w).w else GetToken(t, w).w)
    ensures GetToken(t, w).token.None?
  {
    if removing && Answered(t, w) {
      RemoveDeletes(t, w);
      var listed := map x | x in Tracked(w) :: w.secrets[x];
      var d := DeleteLoop(t, w.(n := w.n + 1), t.env.listing(w.n, Tracked(w)), listed);
      WithoutKeepsFirst(w.references.value, d.deleted);
    }
  }

  function Run(t: Tools, w: World, removals: seq<bool>): (r: World)
    decreases |removals|
  {
    if removals == [] then w
    else Run(t, if removals[0] then Remove(t, w).w else GetToken(t, w).w, removals[1..])
  }

  /** Stuck is for good: whatever passes follow, with renewal on or off and with any answers, no legacy
      token is handed out again. */
  lemma {:induction false} StuckForever(t: Tools, w: World, removals: seq<bool>)
    requires Lists(t) && Stuck(w)
    ensures Stuck(Run(t, w, removals)) && GetToken(t, Run(t, w, removals)).token.None?
    decreases |removals|
  {
    StuckStays(t, w, true);
    StuckStays(t, w, false);
    if removals != [] {
      StuckForever(t, if removals[0] then Remove(t, w).w else GetToken(t, w).w, removals[1..]);
    }
  }

  // ---------- How an account gets stuck ----------

  /** The legacy secrets in the order in which the delete loop takes them. */
  function InOrder(t: Tools, names: seq<string>, listed: map<string, Secret>): (r: seq<string>)
  {
    if names == [] then []
    else if names[0] in listed && IsLegacy(t, listed[names[0]]) then [names[0]] + InOrder(t, names[1..], listed)
    else InOrder(t, names[1..], listed)
  }

  /** The names whose delete the API server carried out, and those whose delete it acknowledged; the
      i-th delete is call n + i. */
  function Taken(t: Tools, n: nat, order: seq<string>): (r: set<string>)
  {
    set i | 0 <= i < |order| && !t.env.outcome(n + i).Rejected? :: order[i]
  }

  function Acknowledged(t: Tools, n: nat, order: seq<string>): (r: set<string>)
  {
    set i | 0 <= i < |order| && t.env.outcome(n + i).Done? :: order[i]
  }

  lemma TakenStep(t: Tools, n: nat, x: string, rest: seq<string>)
    ensures Taken(t, n, [x] + rest) == (if t.env.outcome(n).Rejected? then {} else {x}) + Taken(t, n + 1, rest)
  {
    var order := [x] + rest;
    forall y | y in Taken(t, n, order)
      ensures (y == x && !t.env.outcome(n).Rejected?) || y in Taken(t, n + 1, rest)
    {
      var i :| 0 <= i < |order| && !t.env.outcome(n + i).Rejected? && order[i] == y;
      if i > 0 { assert rest[i - 1] == y && n + 1 + (i - 1) == n + i; }
    }
    forall y | y in Taken(t, n + 1, rest) ensures y in Taken(t, n, order) {
      var i :| 0 <= i < |rest| && !t.env.outcome(n + 1 + i).Rejected? && rest[i] == y;
      assert order[i + 1] == y && n + (i + 1) == n + 1 + i;
    }
    assert order[0] == x && n + 0 == n;
  }

  lemma AcknowledgedStep(t: Tools, n: nat, x: string, rest: seq<string>)
    ensures Acknowledged(t, n, [x] + rest) ==
      (if t.env.outcome(n).Done? then {x} else {}) + Acknowledged(t, n + 1, rest)
  {
    var order := [x] + rest;
    forall y | y in Acknowledged(t, n, order)
      ensures (y == x && t.env.outcome(n).Done?) || y in Acknowledged(t, n + 1, rest)
    {
      var i :| 0 <= i < |order| && t.env.outcome(n + i).Done? && order[i] == y;
      if i > 0 { assert rest[i - 1] == y && n + 1 + (i - 1) == n + i; }
    }
    forall y | y in Acknowledged(t, n + 1, rest) ensures y in Acknowledged(t, n, order) {
      var i :| 0 <= i < |rest| && t.env.outcome(n + 1 + i).Done? && rest[i] == y;
      assert order[i + 1] == y && n + (i + 1) == n + 1 + i;
    }
    assert order[0] == x && n + 0 == n;
  }

  /** What a delete loop did, by its answers: one call per legacy secret, and nothing but the outcomes
      decides. */
  ghost predicate ByAnswers(t: Tools, w: World, order: seq<string>, d: Deletion)
  {
    && d.w == w.(n := w.n + |order|, secrets := w.secrets - Taken(t, w.n, order))
    && d.deleted == Acknowledged(t, w.n, order)
    && (d.ok <==> ErrorFree(t.env, w.n, w.n + |order|))
  }

  lemma WithoutBoth(secrets: map<string, Secret>, a: set<string>, b: set<string>)
    ensures secrets - a - b == secrets - (a + b)
  {
  }

  lemma ErrorFreeStep(env: Env, n: nat, m: nat)
    requires n < m
    ensures ErrorFree(env, n, m) <==> env.outcome(n).Done? && ErrorFree(env, n + 1, m)
  {
  }

  lemma ByAnswersStep(t: Tools, w: World, x: string, rest: seq<string>, after: Deletion, d: Deletion)
    requires ByAnswers(t, DeleteOne(t, w, x), rest, after)
    requires d == if t.env.outcome(w.n).Done? then after.(deleted := after.deleted + {x}) else after.(ok := false)
    ensures ByAnswers(t, w, [x] + rest, d)
  {
    TakenStep(t, w.n, x, rest);
    AcknowledgedStep(t, w.n, x, rest);
    var gone := if t.env.outcome(w.n).Rejected? then {} else {x};
    assert DeleteOne(t, w, x).secrets == w.secrets - gone;
    WithoutBoth(w.secrets, gone, Taken(t, w.n + 1, rest));
    ErrorFreeStep(t.env, w.n, w.n + 1 + |rest|);
  }

  lemma {:induction false} DeleteLoopIs(t: Tools, w: World, names: seq<string>, listed: map<string, Secret>)
    ensures ByAnswers(t, w, InOrder(t, names, listed), DeleteLoop(t, w, names, listed))
    decreases |names|
  {
    if names != [] {
      if names[0] in listed && IsLegacy(t, listed[names[0]]) {
        var w1 := DeleteOne(t, w, names[0]);
        DeleteLoopIs(t, w1, names[1..], listed);
        ByAnswersStep(t, w, names[0], InOrder(t, names[1..], listed), DeleteLoop(t, w1, names[1..], listed),
                      DeleteLoop(t, w, names, listed));
      } else {
        DeleteLoopIs(t, w, names[1..], listed);
      }
    }
  }

  /** The legacy secrets of a removal, in listing order. */
  function Doomed(t: Tools, w: World): (r: seq<string>)
  {
    InOrder(t, t.env.listing(w.n, Tracked(w)), map x | x in Tracked(w) :: w.secrets[x])
  }

  /** Was the service account read, and its update not rejected? */
  predicate Updated(t: Tools, w: World)
  {
    var m := w.n + 1 + |Doomed(t, w)|;
    t.env.outcome(m).Done? && !t.env.outcome(m + 1).Rejected?
  }

  /** The references that a removal leaves: those to acknowledged deletes are dropped when the service
      account is read and its update is not rejected. */
  function KeptReferences(t: Tools, w: World, refs: seq<string>): (r: seq<string>)
  {
    if Updated(t, w) then Without(refs, Acknowledged(t, w.n + 1, Doomed(t, w))) else refs
  }

  /** A removal by its answers, for every state and every pattern of answers. */
  lemma RemoveIs(t: Tools, w: World)
    ensures var w' := Remove(t, w).w;
      if !Answered(t, w) then w' == w.(n := w.n + 1)
      else
        && w'.secrets == w.secrets - Taken(t, w.n + 1, Doomed(t, w))
        && w'.references ==
             match w.references case None => None case Some(refs) => Some(KeptReferences(t, w, refs))
  {
    if Answered(t, w) {
      DeleteLoopIs(t, w.(n := w.n + 1), t.env.listing(w.n, Tracked(w)), map x | x in Tracked(w) :: w.secrets[x]);
    }
  }

  /** When a removal succeeds, and how many calls it makes: it lists, deletes each legacy secret, reads the service
      account, and updates it exactly if it exists and refers to a secret that was taken for deleted. */
  lemma RemoveSucceedsIff(t: Tools, w: World)
    ensures var m := w.n + 1 + |Doomed(t, w)|;
      var refers := w.references.Some? &&
        exists x :: x in w.references.value && x in Acknowledged(t, w.n + 1, Doomed(t, w));
      && (Remove(t, w).ok <==>
            t.env.outcome(w.n).Done? && ErrorFree(t.env, w.n + 1, m + 1) && (refers ==> t.env.outcome(m + 1).Done?))
      && (t.env.outcome(w.n).Done? ==>
            Remove(t, w).w.n == if t.env.outcome(m).Done? && refers then m + 2 else m + 1)
  {
    var m := w.n + 1 + |Doomed(t, w)|;
    var listed := map x | x in Tracked(w) :: w.secrets[x];
    DeleteLoopIs(t, w.(n := w.n + 1), t.env.listing(w.n, Tracked(w)), listed);
    ErrorFreeLast(t.env, w.n + 1, m);
    if w.references.Some? { WithoutChanges(w.references.value, Acknowledged(t, w.n + 1, Doomed(t, w))); }
  }

  lemma ErrorFreeLast(env: Env, n: nat, m: nat)
    requires n <= m
    ensures ErrorFree(env, n, m + 1) <==> ErrorFree(env, n, m) && env.outcome(m).Done?
  {
  }

  lemma WithoutChanges(refs: seq<string>, deleted: set<string>)
    ensures |Without(refs, deleted)| == |refs| <==> forall x | x in refs :: x !in deleted
  {
    if forall x | x in refs :: x !in deleted { WithoutNothing(refs, deleted); }
  }

  lemma {:induction false} WithoutNothing(refs: seq<string>, deleted: set<string>)
    requires forall x | x in refs :: x !in deleted
    ensures Without(refs, deleted) == refs
    decreases |refs|
  {
    if refs != [] { WithoutNothing(refs[1..], deleted); }
  }

  /** Which removals leave the account stuck, for every state and every pattern of answers: when the list
      fails, those that find it stuck; otherwise those after which the first token reference among the
      kept ones is not to a secret that survives. */
  lemma RemoveGetsStuckExactly(t: Tools, w: World)
    ensures Stuck(Remove(t, w).w) <==>
      if !Answered(t, w) then Stuck(w)
      else
        && w.references.Some?
        && var r := TokenReference(KeptReferences(t, w, w.references.value));
           r.Some? && r.value !in w.secrets - Taken(t, w.n + 1, Doomed(t, w))
  {
    RemoveIs(t, w);
  }

  predicate Healthy(w: World)
  {
    w.references.Some? && forall x | x in w.references.value && Contains(x, "token") :: x in w.secrets
  }

  /** A healthy account, all of whose token references lead to secrets, gets stuck in one of two ways. Either
      it was not updated and the delete of the token in use was carried out; or it was, and the first token
      reference that is left names a secret whose delete was carried out, but not acknowledged. */
  lemma HealthyGetsStuckIff(t: Tools, w: World)
    requires Healthy(w) && Answered(t, w)
    ensures var refs, order := w.references.value, Doomed(t, w);
      var taken, known := Taken(t, w.n + 1, order), Acknowledged(t, w.n + 1, order);
      Stuck(Remove(t, w).w) <==>
        var r := TokenReference(if Updated(t, w) then Without(refs, known) else refs);
        r.Some? && r.value in if Updated(t, w) then taken - known else taken
  {
    RemoveGetsStuckExactly(t, w);
    var refs := w.references.value;
    WithoutDropsFirst(refs, Acknowledged(t, w.n + 1, Doomed(t, w)));
    var r := TokenReference(KeptReferences(t, w, refs));
    assert r.Some? ==> r.value in refs && Contains(r.value, "token");
  }

  /** An unacknowledged delete is enough: one tracked secret, the only reference, and every other call
      done. */
  lemma UnacknowledgedDeleteGetsStuck(t: Tools, w: World, x: string)
    requires Lists(t) && Contains(x, "token") && IsLegacy(t, Secret(true, true, t.account, "abc"))
    requires w.secrets == map[x := Secret(true, true, t.account, "abc")] && w.references == Some([x])
    requires forall i | i >= w.n && i != w.n + 1 :: t.env.outcome(i).Done?
    requires t.env.outcome(w.n + 1).Unacknowledged?
    requires t.env.listing(w.n, {x}) == [x]
    ensures Stuck(Remove(t, w).w)
  {
    assert Tracked(w) == {x};
    RemoveGetsStuckExactly(t, w);
    var listed := map y | y in Tracked(w) :: w.secrets[y];
    assert x in listed && listed[x] == Secret(true, true, t.account, "abc");
    assert InOrder(t, [x], listed) == [x] by {
      assert [x][1..] == [] && [x] + [] == [x];
    }
    assert Doomed(t, w) == [x];
    assert Acknowledged(t, w.n + 1, [x]) == {};
    assert [x][0] == x && !t.env.outcome(w.n + 1 + 0).Rejected?;
    assert x in Taken(t, w.n + 1, [x]);
    assert Without([x], {}) == [x];
  }

  /** When all deletes were acknowledged and took the token in use of a healthy account, it gets stuck
      exactly when the service account is not read or its update is rejected. */
  lemma AcknowledgedDeletesGetStuckIff(t: Tools, w: World)
    requires Lists(t) && Answered(t, w) && Healthy(w)
    requires TokenReference(w.references.value).Some?
    requires TokenReference(w.references.value).value in LegacyNames(t, w)
    requires ErrorFree(t.env, w.n + 1, w.n + 1 + |Doomed(t, w)|)
    ensures Stuck(Remove(t, w).w) <==> !Updated(t, w)
  {
    var refs := w.references.value;
    FullyAcknowledged(t, w, refs);
    DropsFirstIff(refs, LegacyNames(t, w), Updated(t, w));
    HealthyGetsStuckIff(t, w);
  }

  lemma FullyAcknowledged(t: Tools, w: World, refs: seq<string>)
    requires Lists(t) && ErrorFree(t.env, w.n + 1, w.n + 1 + |Doomed(t, w)|)
    ensures Taken(t, w.n + 1, Doomed(t, w)) == LegacyNames(t, w)
    ensures KeptReferences(t, w, refs) == if Updated(t, w) then Without(refs, LegacyNames(t, w)) else refs
  {
    AllAcknowledged(t, w.n + 1, Doomed(t, w));
    DoomedIsLegacy(t, w);
  }

  lemma DropsFirstIff(refs: seq<string>, gone: set<string>, updated: bool)
    requires TokenReference(refs).Some? && TokenReference(refs).value in gone
    ensures var r := TokenReference(if updated then Without(refs, gone) else refs);
      (r.Some? && r.value in gone) <==> !updated
  {
    WithoutDropsFirst(refs, gone);
  }

  lemma DoomedIsLegacy(t: Tools, w: World)
    requires Lists(t)
    ensures (set x | x in Doomed(t, w)) == LegacyNames(t, w)
  {
    var listed := map x | x in Tracked(w) :: w.secrets[x];
    InOrderIsLegacy(t, t.env.listing(w.n, Tracked(w)), listed);
    assert forall x | x in LegacyNames(t, w) :: x in listed && x in t.env.listing(w.n, Tracked(w));
  }

  lemma AllAcknowledged(t: Tools, n: nat, order: seq<string>)
    requires ErrorFree(t.env, n, n + |order|)
    ensures Acknowledged(t, n, order) == (set x | x in order) == Taken(t, n, order)
  {
    forall x | x in order ensures x in Acknowledged(t, n, order) && x in Taken(t, n, order) {
      var i :| 0 <= i < |order| && order[i] == x;
      assert t.env.outcome(n + i).Done?;
    }
  }

  lemma WithoutDropsFirst(refs: seq<string>, deleted: set<string>)
    ensures TokenReference(Without(refs, deleted)).Some? ==> TokenReference(Without(refs, deleted)).value !in deleted
  {
  }

  lemma {:induction false} InOrderIsLegacy(t: Tools, names: seq<string>, listed: map<string, Secret>)
    ensures forall x :: x in InOrder(t, names, listed) <==> x in names && x in listed && IsLegacy(t, listed[x])
    decreases |names|
  {
    if names != [] {
      InOrderIsLegacy(t, names[1..], listed);
      assert forall x :: x in names <==> x == names[0] || x in names[1..];
    }
  }
}
