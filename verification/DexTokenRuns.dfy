/** The Dex token of a namespace over a whole run: it never lapses while every wake-up is honoured in time. */
module DexTokenRuns {
  import opened Platform
  import opened Rbac
  import opened DexTokens
  import opened DexTokenTiming

  /** A chain of passes over one namespace that starts at `w`; each gap holds what happens in other
      namespaces before the next pass. Every pass succeeds and schedules before its renewal deadline, and the
      next one has ended less than the threshold after the wake-up that it set. It may come early. */
  ghost predicate Honoured(t: Tools, w: World, ns: string, gaps: seq<seq<Event>>)
    decreases |gaps|
  {
    var r := Pass(t, w, ns, Renewing);
    && r.ok && ScheduleTime(t, w, ns) < ScheduleExpiry(t, w, ns) - THRESHOLD
    && (gaps != [] ==>
          var v := Run(t, r.w, gaps[0]);
          && Elsewhere(gaps[0], ns)
          && r.requeue.Some?
          && t.env.clock(Pass(t, v, ns, Renewing).w.n) < ScheduleTime(t, w, ns) + r.requeue.value + THRESHOLD
          && Honoured(t, v, ns, gaps[1..]))
  }

  /** The token that is stored at `w` was issued with an expiry that `now` has not reached. */
  predicate Alive(t: Tools, w: World, ns: string, now: int)
  {
    ns in w.secrets && exists i :: i in w.issued && Pairs(t, w.secrets[ns], i) && now < i.expiry
  }

  /** Between any pass of the chain and the end of the next one, the token stored by the first is alive, and
      it is the one that was handed out. */
  ghost predicate NeverLapses(t: Tools, w: World, ns: string, gaps: seq<seq<Event>>)
    decreases |gaps|
  {
    gaps != [] ==>
      var r := Pass(t, w, ns, Renewing);
      var v := Run(t, r.w, gaps[0]);
      && ns in v.secrets && "token" in v.secrets[ns] && r.token == Some(v.secrets[ns]["token"])
      && (forall j: nat | r.w.n <= j <= Pass(t, v, ns, Renewing).w.n :: Alive(t, v, ns, t.env.clock(j)))
      && NeverLapses(t, v, ns, gaps[1..])
  }

  /** After a successful pass the secret holds the token that was handed out, with the expiry of its issue,
      which is no earlier than the one that the pass schedules by. */
  lemma StoredAfterPass(t: Tools, w: World, ns: string)
    returns (i: Issue)
    requires Good(t) && Honest(t, w) && Pass(t, w, ns, Renewing).ok
    ensures var r := Pass(t, w, ns, Renewing);
      && i in r.w.issued && ns in r.w.secrets && Pairs(t, r.w.secrets[ns], i) && r.token == Some(i.token)
      && ScheduleExpiry(t, w, ns) <= i.expiry
  {
    var r := Pass(t, w, ns, Renewing);
    if Reuses(t, w, ns) {
      assert Backed(t, w.issued, w.secrets[ns]);
      i :| i in w.issued && Pairs(t, w.secrets[ns], i);
      assert t.parse(t.format(i.expiry)).value <= i.expiry;
      assert r.w.secrets == w.secrets && r.w.issued == w.issued;
    } else {
      i := t.issue(w.n + 3);
    }
  }

  lemma ClockMoves(t: Tools, i: nat, j: nat)
    requires Good(t) && i <= j
    ensures t.env.clock(i) <= t.env.clock(j)
  {
  }

  /** One link of the chain. */
  lemma LinkHolds(t: Tools, w: World, ns: string, gaps: seq<seq<Event>>)
    requires Good(t) && Honest(t, w) && gaps != [] && Honoured(t, w, ns, gaps)
    ensures var r := Pass(t, w, ns, Renewing); var v := Run(t, r.w, gaps[0]);
      && Honest(t, v)
      && ns in v.secrets && "token" in v.secrets[ns] && r.token == Some(v.secrets[ns]["token"])
      && (forall j: nat | r.w.n <= j <= Pass(t, v, ns, Renewing).w.n :: Alive(t, v, ns, t.env.clock(j)))
  {
    var r := Pass(t, w, ns, Renewing);
    var v := Run(t, r.w, gaps[0]);
    var i := StoredAfterPass(t, w, ns);
    PassKeepsHonest(t, w, ns, Renewing);
    ElsewhereKeeps(t, r.w, gaps[0], ns);
    WakesAt(t, w, ns);
    var end := Pass(t, v, ns, Renewing).w.n;
    assert Lookup(v.secrets, ns) == Lookup(r.w.secrets, ns);
    forall j: nat | r.w.n <= j <= end ensures Alive(t, v, ns, t.env.clock(j)) {
      ClockMoves(t, j, end);
      assert i in v.issued && Pairs(t, v.secrets[ns], i) && t.env.clock(j) < i.expiry;
    }
  }

  lemma {:induction false} ChainHolds(t: Tools, w: World, ns: string, gaps: seq<seq<Event>>)
    requires Good(t) && Honest(t, w) && Honoured(t, w, ns, gaps)
    ensures NeverLapses(t, w, ns, gaps)
    decreases |gaps|
  {
    if gaps != [] {
      LinkHolds(t, w, ns, gaps);
      ChainHolds(t, Run(t, Pass(t, w, ns, Renewing).w, gaps[0]), ns, gaps[1..]);
    }
  }

  /** After every run, a chain of passes whose wake-ups are honoured never lets the stored token lapse,
      however long it is and whatever happens in other namespaces. */
  lemma TokenNeverLapses(t: Tools, events: seq<Event>, ns: string, gaps: seq<seq<Event>>)
    requires Good(t) && Honoured(t, Run(t, START, events), ns, gaps)
    ensures NeverLapses(t, Run(t, START, events), ns, gaps)
  {
    RunIsHonest(t, events);
    ChainHolds(t, Run(t, START, events), ns, gaps);
  }

  // ---------- Without renewal ----------

  /** With renewal off a successful pass leaves neither a token secret nor a delay in the namespace, whether Dex
      is used or not. With renewal on but Dex not used it leaves the secret as it is and no delay. Only with
      both does it hand out a token. */
  lemma PassWithoutRenewal(t: Tools, w: World, ns: string, useDex: bool)
    ensures var r := Pass(t, w, ns, ModeOf(useDex, false));
      && r.token.None? && r.requeue.None?
      && (r.ok ==> ns !in r.w.secrets && ns !in r.w.requeue)
      && (ns !in w.secrets ==> ns !in r.w.secrets)
    ensures var r := Pass(t, w, ns, ModeOf(false, true));
      r.token.None? && r.requeue.None? && r.w.secrets == w.secrets && (r.ok ==> ns !in r.w.requeue)
    ensures Pass(t, w, ns, ModeOf(true, true)).ok ==> Pass(t, w, ns, ModeOf(true, true)).token.Some?
  {
  }

  /** When a pass succeeds. With renewal off: the secret is looked up and, if it is there, deleted, and the rest
      of the pass goes well. With renewal on but Dex not used: the rest goes well. With both: a token is handed
      out and the rest goes well. */
  lemma PassSucceedsIff(t: Tools, w: World, ns: string, useDex: bool)
    ensures var n, done := w.n, (i: nat) => t.env.outcome(i).Done?;
      && (Pass(t, w, ns, ModeOf(useDex, false)).ok <==>
            done(n) && done(n + 1) && (ns in w.secrets ==> done(n + 2)))
      && (Pass(t, w, ns, ModeOf(false, true)).ok <==> done(n))
      && var r := Pass(t, w, ns, ModeOf(true, true));
         r.ok <==> r.token.Some? && r.w.n > n && done(r.w.n - 1)
  {
  }

  /** These events keep renewal off in the namespace. */
  predicate Off(events: seq<Event>, ns: string)
  {
    forall e | e in events && e.Reconcile? && e.ns == ns :: exists useDex :: e.mode == ModeOf(useDex, false)
  }

  /** After a successful pass with renewal off there is neither a token secret nor a delay, over every later
      run that does not turn renewal on again, whatever calls fail. */
  lemma {:induction false} StaysOff(t: Tools, w: World, ns: string, useDex: bool, later: seq<Event>)
    requires Pass(t, w, ns, ModeOf(useDex, false)).ok && Off(later, ns)
    ensures var w' := Run(t, Pass(t, w, ns, ModeOf(useDex, false)).w, later);
      ns !in w'.secrets && ns !in w'.requeue
    decreases |later|
  {
    PassWithoutRenewal(t, w, ns, useDex);
    if later != [] {
      var rest, e := later[..|later| - 1], later[|later| - 1];
      assert e in later && forall x | x in rest :: x in later;
      StaysOff(t, w, ns, useDex, rest);
      var v := Run(t, Pass(t, w, ns, ModeOf(useDex, false)).w, rest);
      if e.Reconcile? && e.ns != ns { OtherNamespacesUntouched(t, v, e.ns, e.mode, ns); }
    }
  }
}
