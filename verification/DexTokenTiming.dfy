/** What holds of Dex tokens over every run: the tokens handed out are fresh, wake-ups fall on the
    renewal deadline, and where the one gap in the scheduling lies. */
module DexTokenTiming {
  import opened Platform
  import opened Rbac
  import opened DexTokens

  /** The stored secret pairs a token with the expiry it was issued with. */
  predicate Pairs(t: Tools, data: map<string, string>, i: Issue)
  {
    "token" in data && data["token"] == i.token && "expiry" in data && data["expiry"] == t.format(i.expiry)
  }

  predicate Backed(t: Tools, issued: set<Issue>, data: map<string, string>)
  {
    exists i :: i in issued && Pairs(t, data, i)
  }

  /** Every stored secret holds a token that was issued, with its expiry. */
  ghost predicate SecretsBacked(t: Tools, w: World)
  {
    forall ns | ns in w.secrets :: Backed(t, w.issued, w.secrets[ns])
  }

  ghost predicate DelaysPositive(w: World)
  {
    forall ns | ns in w.requeue :: w.requeue[ns] > 0
  }

  ghost predicate Honest(t: Tools, w: World) { SecretsBacked(t, w) && DelaysPositive(w) }

  lemma BackedByMore(t: Tools, issued: set<Issue>, more: set<Issue>, data: map<string, string>)
    requires Backed(t, issued, data) && issued <= more
    ensures Backed(t, more, data)
  {
    var i :| i in issued && Pairs(t, data, i);
    assert i in more && Pairs(t, data, i);
  }

  lemma RenewKeepsHonest(t: Tools, w: World, ns: string)
    requires Honest(t, w)
    ensures Honest(t, Renew(t, w, ns).w)
  {
    var w' := Renew(t, w, ns).w;
    forall m | m in w'.secrets ensures Backed(t, w'.issued, w'.secrets[m]) {
      if m in w.secrets && w'.secrets[m] == w.secrets[m] {
        BackedByMore(t, w.issued, w'.issued, w.secrets[m]);
      } else {
        assert Pairs(t, w'.secrets[m], t.issue(w.n));
      }
    }
  }

  lemma PassKeepsBacked(t: Tools, w: World, ns: string, mode: Mode)
    requires Honest(t, w)
    ensures SecretsBacked(t, Pass(t, w, ns, mode).w)
  {
    RenewKeepsHonest(t, AfterCheck(w), ns);
    var v := Renew(t, AfterCheck(w), ns).w;
    var w' := Pass(t, w, ns, mode).w;
    assert (w'.issued == v.issued && w'.secrets == v.secrets) ||
           (w'.issued == w.issued && w'.secrets.Items <= w.secrets.Items);
    assert forall m | m in w'.secrets :: (m, w'.secrets[m]) in w'.secrets.Items;
  }

  lemma PassKeepsHonest(t: Tools, w: World, ns: string, mode: Mode)
    requires Honest(t, w)
    ensures Honest(t, Pass(t, w, ns, mode).w)
  {
    PassKeepsBacked(t, w, ns, mode);
    PassKeepsPositive(t, w, ns, mode);
  }

  lemma PassKeepsPositive(t: Tools, w: World, ns: string, mode: Mode)
    requires DelaysPositive(w)
    ensures DelaysPositive(Pass(t, w, ns, mode).w)
  {
    var h := Renew(t, AfterCheck(w), ns);
    assert DelaysPositive(h.w);
  }

  lemma PassAdvances(t: Tools, w: World, ns: string, mode: Mode)
    ensures var w' := Pass(t, w, ns, mode).w; w.n <= w'.n && w.issued <= w'.issued
  {
  }

  lemma {:induction false} RunIsHonest(t: Tools, events: seq<Event>)
    ensures Honest(t, Run(t, START, events))
    decreases |events|
  {
    if events != [] {
      var rest := events[..|events| - 1];
      RunIsHonest(t, rest);
      match events[|events| - 1]
      case Reconcile(ns, mode) => PassKeepsHonest(t, Run(t, START, rest), ns, mode);
      case SetAccounts(_) =>
      case Restart =>
    }
  }

  // ---------- Freshness ----------

  /** The premise on the TokenRequest API: what it issues lives for at least the threshold. */
  ghost predicate LivesLongEnough(t: Tools)
  {
    forall i: nat :: t.issue(i).expiry - t.env.clock(i) >= THRESHOLD
  }

  /** Over every run, a token that a pass hands out was issued by the API and has at least the threshold
      left at the moment the pass decides: 33 percent of an hour, that is 1188 seconds. */
  lemma HandedOutIsFresh(t: Tools, events: seq<Event>, ns: string)
    requires Good(t) && LivesLongEnough(t)
    requires Pass(t, Run(t, START, events), ns, Renewing).token.Some?
    ensures var w := Run(t, START, events);
      var r := Pass(t, w, ns, Renewing);
      exists i :: i in r.w.issued && i.token == r.token.value && i.expiry - t.env.clock(w.n + 2) >= 1188 * SECOND
  {
    RunIsHonest(t, events);
    var i := HandoutIsFresh(t, Run(t, START, events), ns);
    assert THRESHOLD == 1188 * SECOND;
  }

  /** A token is handed out exactly when the service account is read and exists, the look-up of the secret
      succeeds, and either the stored token has not come to its deadline or a new one is issued and its
      secret written, both acknowledged. No new one is stored unless it was issued. */
  lemma HandsOutIff(t: Tools, w: World, ns: string)
    ensures var h, n := GetToken(t, w, ns), w.n;
      h.token.Some? <==>
        && ns in w.accounts && t.env.outcome(n).Done? && t.env.outcome(n + 1).Done?
        && ((Deadline(t, w, ns).Some? && t.env.clock(n + 2) <= Deadline(t, w, ns).value)
            || (t.env.outcome(n + 3).Done? && t.env.outcome(n + 4).Done?))
    ensures var h := GetToken(t, w, ns);
      h.token.Some? ==> ns in h.w.secrets && "token" in h.w.secrets[ns] && h.w.secrets[ns]["token"] == h.token.value
    ensures var h := GetToken(t, w, ns); h.token.None? ==> h.w.requeue == w.requeue
  {
  }

  /** What asking for a token stores: nothing, unless the account and the secret are read, the stored token has
      come to its deadline, a new one is issued, and its write is not rejected; then that one with its expiry. */
  lemma TokenIsStoredIff(t: Tools, w: World, ns: string)
    ensures var n, i := w.n, t.issue(w.n + 3);
      var late := Deadline(t, w, ns).None? || t.env.clock(n + 2) > Deadline(t, w, ns).value;
      var stores := && ns in w.accounts && t.env.outcome(n).Done? && t.env.outcome(n + 1).Done? && late
                    && t.env.outcome(n + 3).Done? && !t.env.outcome(n + 4).Rejected?;
      GetToken(t, w, ns).w.secrets ==
        if stores then w.secrets[ns := map["token" := i.token, "expiry" := t.format(i.expiry)]] else w.secrets
  {
  }

  lemma ReusedIsFresh(t: Tools, w: World, ns: string)
    returns (i: Issue)
    requires Good(t) && SecretsBacked(t, w) && Reuses(t, w, ns)
    ensures i in w.issued && i.token == w.secrets[ns]["token"] && i.expiry - CheckTime(t, w) >= THRESHOLD
  {
    assert Backed(t, w.issued, w.secrets[ns]);
    i :| i in w.issued && Pairs(t, w.secrets[ns], i);
    assert t.parse(t.format(i.expiry)).value <= i.expiry;
  }

  lemma HandoutIsFresh(t: Tools, w: World, ns: string)
    returns (i: Issue)
    requires Good(t) && LivesLongEnough(t) && SecretsBacked(t, w)
    requires Pass(t, w, ns, Renewing).token.Some?
    ensures var r := Pass(t, w, ns, Renewing);
      i in r.w.issued && i.token == r.token.value && i.expiry - CheckTime(t, w) >= THRESHOLD
  {
    var r := Pass(t, w, ns, Renewing);
    if Reuses(t, w, ns) {
      i := ReusedIsFresh(t, w, ns);
      assert r.w.issued == w.issued;
    } else {
      i := t.issue(w.n + 3);
      assert t.env.clock(w.n + 2) <= t.env.clock(w.n + 3);
    }
  }

  // ---------- Deadlines ----------

  /** The instant at which the stored token has exactly the threshold left. */
  function Deadline(t: Tools, w: World, ns: string): (r: Option<int>)
  {
    if ns !in w.secrets then None
    else match Usable(t, w.secrets[ns])
      case None => None
      case Some(e) => Some(e - THRESHOLD)
  }

  /** A pass whose two lookups succeed asks for a new token exactly when there is no usable one or its
      decision falls strictly after the deadline, 1188 seconds before the stored expiry. */
  lemma RenewsExactlyAfterDeadline(t: Tools, w: World, ns: string)
    ensures Reuses(t, w, ns) <==> Deadline(t, w, ns).Some? && CheckTime(t, w) <= Deadline(t, w, ns).value
    ensures Deadline(t, w, ns).Some? <==>
      && ns in w.secrets && "token" in w.secrets[ns] && w.secrets[ns]["token"] != ""
      && "expiry" in w.secrets[ns] && t.parse(w.secrets[ns]["expiry"]).Some?
    ensures Deadline(t, w, ns).Some? ==>
      Deadline(t, w, ns).value == t.parse(w.secrets[ns]["expiry"]).value - 1188 * SECOND
  {
  }

  /** Which instant a successful pass schedules by, and against which expiry. */
  function ScheduleTime(t: Tools, w: World, ns: string): (r: int)
  {
    if Reuses(t, w, ns) then t.env.clock(w.n + 3) else t.env.clock(w.n + 5)
  }

  function ScheduleExpiry(t: Tools, w: World, ns: string): (r: int)
  {
    if Reuses(t, w, ns) then t.parse(w.secrets[ns]["expiry"]).value else t.issue(w.n + 3).expiry
  }

  lemma WakesAt(t: Tools, w: World, ns: string)
    requires DelaysPositive(w) && Pass(t, w, ns, Renewing).ok
    ensures var d := ScheduleExpiry(t, w, ns) - THRESHOLD - ScheduleTime(t, w, ns);
      Pass(t, w, ns, Renewing).requeue == if d > 0 then Some(d) else Lookup(w.requeue, ns)
  {
  }

  /** A successful pass wakes the operator up exactly at the renewal deadline of the token it handed
      out, if and only if it schedules strictly before that deadline. */
  lemma WakesAtDeadline(t: Tools, events: seq<Event>, ns: string)
    requires Pass(t, Run(t, START, events), ns, Renewing).ok
    ensures var w := Run(t, START, events);
      var r := Pass(t, w, ns, Renewing);
      var deadline := ScheduleExpiry(t, w, ns) - THRESHOLD;
      (r.requeue.Some? && ScheduleTime(t, w, ns) + r.requeue.value == deadline) <==> ScheduleTime(t, w, ns) < deadline
  {
    RunIsHonest(t, events);
    WakesAt(t, Run(t, START, events), ns);
  }

  /** Any number of passes that reuse the token leave the secret, and so the deadline, as it is. */
  ghost predicate ReusedThroughout(t: Tools, w: World, ns: string, k: nat)
    decreases k
  {
    k == 0 || (Reuses(t, w, ns) && ReusedThroughout(t, Pass(t, w, ns, Renewing).w, ns, k - 1))
  }

  function Again(t: Tools, w: World, ns: string, k: nat): (r: World)
    decreases k
  {
    if k == 0 then w else Again(t, Pass(t, w, ns, Renewing).w, ns, k - 1)
  }

  lemma {:induction false} ReuseKeepsDeadline(t: Tools, w: World, ns: string, k: nat)
    requires ReusedThroughout(t, w, ns, k)
    ensures Again(t, w, ns, k).secrets == w.secrets
    ensures Deadline(t, Again(t, w, ns, k), ns) == Deadline(t, w, ns)
    decreases k
  {
    if k != 0 { ReuseKeepsDeadline(t, Pass(t, w, ns, Renewing).w, ns, k - 1); }
  }

  /** So each of them that schedules before the deadline wakes the operator up at the same instant. */
  lemma SameWakeUp(t: Tools, w: World, ns: string, k: nat)
    requires ReusedThroughout(t, w, ns, k + 1)
    requires Pass(t, Again(t, w, ns, k), ns, Renewing).ok
    requires ScheduleTime(t, Again(t, w, ns, k), ns) < Deadline(t, w, ns).value
    ensures var v := Again(t, w, ns, k);
      var r := Pass(t, v, ns, Renewing);
      r.requeue == Some(Deadline(t, w, ns).value - ScheduleTime(t, v, ns))
  {
    ReusedPrefix(t, w, ns, k);
    ReuseKeepsDeadline(t, w, ns, k);
  }

  lemma {:induction false} ReusedPrefix(t: Tools, w: World, ns: string, k: nat)
    requires ReusedThroughout(t, w, ns, k + 1)
    ensures ReusedThroughout(t, w, ns, k) && Reuses(t, Again(t, w, ns, k), ns)
    decreases k
  {
    if k != 0 { ReusedPrefix(t, Pass(t, w, ns, Renewing).w, ns, k - 1); }
  }

  // ---------- Replacement before expiry ----------

  /** A pass that decides strictly after the deadline and whose calls succeed replaces the token, and
      stores the new one with its expiry. */
  lemma LatePassReplaces(t: Tools, w: World, ns: string)
    requires Good(t) && ns in w.accounts && ErrorFree(t.env, w.n, w.n + 5)
    requires Deadline(t, w, ns).Some? && CheckTime(t, w) > Deadline(t, w, ns).value
    ensures var r := Pass(t, w, ns, Renewing);
      && r.token == Some(t.issue(w.n + 3).token)
      && ns in r.w.secrets && Pairs(t, r.w.secrets[ns], t.issue(w.n + 3))
  {
  }

  /** The expiry that the stored secret states. */
  function StoredExpiry(t: Tools, w: World, ns: string): (e: Option<int>)
  {
    if ns !in w.secrets then None else Usable(t, w.secrets[ns])
  }

  /** No lapse: when such a pass writes the secret before the old token expires, and the time from the
      issue to the end of the pass is shorter than the threshold by more than a second, the old token is
      alive at every moment until the write, and the new one from then until the pass ends. */
  lemma ReplacedInTime(t: Tools, w: World, ns: string)
    requires Good(t) && LivesLongEnough(t) && ns in w.accounts && ErrorFree(t.env, w.n, w.n + 5)
    requires Deadline(t, w, ns).Some? && CheckTime(t, w) > Deadline(t, w, ns).value
    requires t.issue(w.n + 3).token != ""
    requires t.env.clock(w.n + 4) < StoredExpiry(t, w, ns).value
    requires t.env.clock(Pass(t, w, ns, Renewing).w.n) - t.env.clock(w.n + 3) < THRESHOLD - SECOND
    ensures var r := Pass(t, w, ns, Renewing);
      && w.n + 4 < r.w.n
      && (forall i: nat | w.n <= i <= w.n + 4 :: t.env.clock(i) < StoredExpiry(t, w, ns).value)
      && StoredExpiry(t, r.w, ns).Some?
      && (forall i: nat | w.n + 4 <= i <= r.w.n :: t.env.clock(i) < StoredExpiry(t, r.w, ns).value)
  {
    LatePassReplaces(t, w, ns);
    var r := Pass(t, w, ns, Renewing);
    var e := t.issue(w.n + 3).expiry;
    assert StoredExpiry(t, r.w, ns) == Some(UnixSeconds(e) * SECOND);
    assert e - SECOND < UnixSeconds(e) * SECOND;
    assert e - t.env.clock(w.n + 3) >= THRESHOLD;
  }

  lemma RenewLeavesOthers(t: Tools, w: World, ns: string, m: string)
    requires m != ns
    ensures var w' := Renew(t, w, ns).w;
      && Lookup(w'.secrets, m) == Lookup(w.secrets, m) && Lookup(w'.requeue, m) == Lookup(w.requeue, m)
      && w'.accounts == w.accounts
  {
  }

  lemma OtherNamespacesUntouched(t: Tools, w: World, ns: string, mode: Mode, m: string)
    requires m != ns
    ensures var w' := Pass(t, w, ns, mode).w;
      && Lookup(w'.secrets, m) == Lookup(w.secrets, m) && Lookup(w'.requeue, m) == Lookup(w.requeue, m)
      && w'.accounts == w.accounts
  {
    RenewLeavesOthers(t, AfterCheck(w), ns, m);
  }

  /** Events that leave a namespace alone, as between two of its own passes. */
  predicate Elsewhere(events: seq<Event>, ns: string)
  {
    forall e | e in events :: e.Reconcile? && e.ns != ns
  }

  lemma {:induction false} ElsewhereKeeps(t: Tools, w: World, events: seq<Event>, ns: string)
    requires Elsewhere(events, ns) && Honest(t, w)
    ensures var w' := Run(t, w, events);
      && Honest(t, w') && w.n <= w'.n && w.issued <= w'.issued && w'.accounts == w.accounts
      && Lookup(w'.secrets, ns) == Lookup(w.secrets, ns) && Lookup(w'.requeue, ns) == Lookup(w.requeue, ns)
    decreases |events|
  {
    if events != [] {
      var rest := events[..|events| - 1];
      var e := events[|events| - 1];
      assert e in events && forall x | x in rest :: x in events;
      ElsewhereKeeps(t, w, rest, ns);
      var v := Run(t, w, rest);
      PassKeepsHonest(t, v, e.ns, e.mode);
      PassAdvances(t, v, e.ns, e.mode);
      OtherNamespacesUntouched(t, v, e.ns, e.mode, ns);
    }
  }

  /** What a pass hands out was issued with at least the expiry it schedules by. */
  lemma HandoutExpiry(t: Tools, w: World, ns: string)
    requires Good(t) && Honest(t, w) && Pass(t, w, ns, Renewing).ok
    ensures var r := Pass(t, w, ns, Renewing);
      exists i :: i in r.w.issued && r.token == Some(i.token) && ScheduleExpiry(t, w, ns) <= i.expiry
  {
    var r := Pass(t, w, ns, Renewing);
    if Reuses(t, w, ns) {
      assert Backed(t, w.issued, w.secrets[ns]);
      var i :| i in w.issued && Pairs(t, w.secrets[ns], i);
      assert t.parse(t.format(i.expiry)).value <= i.expiry;
      assert i in r.w.issued && r.token == Some(i.token);
    } else {
      assert t.issue(w.n + 3) in r.w.issued;
    }
  }

  /** A wake-up that was set before the deadline and is followed by the next pass of the namespace less
      than the threshold later finds the handed-out token unexpired, whatever happens in other
      namespaces meanwhile. With `LatePassReplaces`, that pass replaces the token if it comes after the
      deadline. */
  lemma NextPassFindsTokenAlive(t: Tools, events: seq<Event>, ns: string, between: seq<Event>)
    requires Good(t) && Elsewhere(between, ns)
    requires var w := Run(t, START, events);
      Pass(t, w, ns, Renewing).ok && ScheduleTime(t, w, ns) < ScheduleExpiry(t, w, ns) - THRESHOLD
    requires var w := Run(t, START, events);
      var r := Pass(t, w, ns, Renewing);
      r.requeue.Some? ==> CheckTime(t, Run(t, r.w, between)) < ScheduleTime(t, w, ns) + r.requeue.value + THRESHOLD
    ensures var w := Run(t, START, events);
      var r := Pass(t, w, ns, Renewing);
      var v := Run(t, r.w, between);
      && Lookup(v.secrets, ns) == Lookup(r.w.secrets, ns)
      && exists i :: i in v.issued && r.token == Some(i.token) && CheckTime(t, v) < i.expiry
  {
    var w := Run(t, START, events);
    var r := Pass(t, w, ns, Renewing);
    var v := Run(t, r.w, between);
    RunIsHonest(t, events);
    PassKeepsHonest(t, w, ns, Renewing);
    ElsewhereKeeps(t, r.w, between, ns);
    WakesAt(t, w, ns);
    HandoutExpiry(t, w, ns);
    var i :| i in r.w.issued && r.token == Some(i.token) && ScheduleExpiry(t, w, ns) <= i.expiry;
    assert i in v.issued;
  }

  // ---------- The gap ----------

  /** A pass that decides no later than the deadline but schedules no earlier than it hands out the old
      token and keeps the old delay: with a delay longer than the threshold the wake-up comes only after
      the token has expired, and without one there is no wake-up at all. */
  lemma GapInScheduling(t: Tools, w: World, ns: string)
    requires Pass(t, w, ns, Renewing).ok && Deadline(t, w, ns).Some?
    requires CheckTime(t, w) <= Deadline(t, w, ns).value <= t.env.clock(w.n + 3)
    ensures var r := Pass(t, w, ns, Renewing);
      && r.w.secrets == w.secrets && r.requeue == Lookup(w.requeue, ns)
      && (ns in w.requeue && w.requeue[ns] > THRESHOLD ==>
            ScheduleTime(t, w, ns) + r.requeue.value > Deadline(t, w, ns).value + THRESHOLD)
  {
  }
}
