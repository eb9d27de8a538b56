/** The Dex token code in its own form: objects whose methods read the clock, call the API and update
    secrets, references and the requeue map. Each method is proved to do exactly what the state
    transformers of `DexTokens` and `DexLegacy` say. */
module DexController {
  import opened Platform
  import DexTokens
  import DexLegacy

  class TokenReconciler {
    const tools: DexTokens.Tools
    var accounts: set<string>
    var secrets: map<string, map<string, string>>
    var requeue: map<string, int>
    var issued: set<DexTokens.Issue>
    var n: nat

    constructor (tools: DexTokens.Tools)
      ensures this.tools == tools && Now() == DexTokens.START
    {
      this.tools := tools;
      accounts, secrets, requeue, issued, n := {}, map[], map[], {}, 0;
    }

    ghost function Now(): (r: DexTokens.World)
      reads this
    {
      DexTokens.World(accounts, secrets, requeue, issued, n)
    }

    method Call() returns (o: Outcome)
      modifies this`n
      ensures o == tools.env.outcome(old(n)) && n == old(n) + 1
    {
      o := tools.env.outcome(n);
      n := n + 1;
    }

    method ReadClock() returns (now: int)
      modifies this`n
      ensures now == tools.env.clock(old(n)) && n == old(n) + 1
    {
      now := tools.env.clock(n);
      n := n + 1;
    }

    /** Store the delay only when it lies ahead. */
    method StoreDelay(ns: string, d: int)
      modifies this`requeue
      ensures Now() == DexTokens.Schedule(old(Now()), ns, d)
    {
      if d > 0 { requeue := requeue[ns := d]; }
    }

    method RequestToken(ns: string) returns (token: Option<string>)
      modifies this
      ensures DexTokens.Handout(Now(), token) == DexTokens.Renew(tools, old(Now()), ns)
    {
      var i := tools.issue(n);
      var o := Call();
      if !o.Done? { return None; }
      issued := issued + {i};
      var data := map["token" := i.token, "expiry" := tools.format(i.expiry)];
      o := Call();
      if !o.Rejected? { secrets := secrets[ns := data]; }
      if !o.Done? { return None; }
      ScheduleFor(ns, i.expiry);
      token := Some(i.token);
    }

    /** getDexOAuthClientSecret */
    method GetOAuthClientSecret(ns: string) returns (token: Option<string>)
      modifies this
      ensures DexTokens.Handout(Now(), token) == DexTokens.GetToken(tools, old(Now()), ns)
    {
      var o := Call();
      if !o.Done? || ns !in accounts { return None; }
      o := Call();
      if !o.Done? { return None; }
      var reuse := CheckStored(ns);
      if reuse {
        token := Some(secrets[ns]["token"]);
        ScheduleFor(ns, tools.parse(secrets[ns]["expiry"]).value);
      } else {
        token := RequestToken(ns);
      }
    }

    /** Is there a stored token that need not be renewed? */
    method CheckStored(ns: string) returns (reuse: bool)
      requires n >= 2
      modifies this`n
      ensures Now() == old(Now()).(n := old(n) + 1)
      ensures reuse == DexTokens.Reuses(tools, old(Now()).(n := old(n) - 2), ns)
    {
      var now := ReadClock();
      reuse := ns in secrets && !DexTokens.NeedsRenewal(tools, secrets[ns], now);
    }

    /** Schedule the next wake-up by a fresh reading of the clock. */
    method ScheduleFor(ns: string, expiry: int)
      modifies this`requeue, this`n
      ensures var d := expiry - tools.env.clock(old(n)) - DexTokens.THRESHOLD;
        Now() == DexTokens.Schedule(old(Now()).(n := old(n) + 1), ns, d)
    {
      var now := ReadClock();
      StoreDelay(ns, expiry - now - DexTokens.THRESHOLD);
    }

    /** reconcileDexTokenRequestSecret */
    method DeleteTokenSecret(ns: string) returns (ok: bool)
      modifies this`secrets, this`n
      ensures var h := DexTokens.DropSecret(tools, old(Now()), ns); Now() == h.w && ok == h.token.Some?
    {
      var o := Call();
      if !o.Done? { return false; }
      if ns !in secrets { return true; }
      o := Call();
      if !o.Rejected? { secrets := secrets - {ns}; }
      ok := o.Done?;
    }

    /** The token's share of a reconciliation, and the requeue at its end. */
    method Reconcile(ns: string, useDex: bool, renewal: bool)
      returns (token: Option<string>, after: Option<int>, ok: bool)
      modifies this
      ensures DexTokens.Result(Now(), token, after, ok) ==
        DexTokens.Pass(tools, old(Now()), ns, DexTokens.ModeOf(useDex, renewal))
    {
      token, after, ok := None, None, true;
      if !renewal {
        ok := DeleteTokenSecret(ns);
      } else if useDex {
        token := GetOAuthClientSecret(ns);
        ok := token.Some?;
      }
      if !ok { return; }
      var o := Call();
      ok := o.Done?;
      if !ok { return; }
      if useDex && renewal {
        if ns in requeue { after := Some(requeue[ns]); }
      } else {
        requeue := requeue - {ns};
      }
    }
  }

  class LegacyReconciler {
    const tools: DexLegacy.Tools
    var secrets: map<string, DexLegacy.Secret>
    var references: Option<seq<string>>
    var n: nat

    constructor (tools: DexLegacy.Tools)
      ensures this.tools == tools && Now() == DexLegacy.World(map[], None, 0)
    {
      this.tools := tools;
      secrets, references, n := map[], None, 0;
    }

    ghost function Now(): (r: DexLegacy.World)
      reads this
    {
      DexLegacy.World(secrets, references, n)
    }

    method Call() returns (o: Outcome)
      modifies this`n
      ensures o == tools.env.outcome(old(n)) && n == old(n) + 1
    {
      o := tools.env.outcome(n);
      n := n + 1;
    }

    /** The loop over the references: the first whose name contains "token". */
    method FindTokenReference(refs: seq<string>) returns (r: Option<string>)
      ensures r == DexLegacy.TokenReference(refs)
    {
      var i := 0;
      while i < |refs|
        invariant 0 <= i <= |refs|
        invariant DexLegacy.TokenReference(refs) == DexLegacy.TokenReference(refs[i..])
      {
        if Contains(refs[i], "token") { return Some(refs[i]); }
        i := i + 1;
      }
      r := None;
    }

    /** getDexOAuthClientSecretLegacy */
    method GetOAuthClientSecret() returns (token: Option<string>)
      modifies this
      ensures DexLegacy.Handout(Now(), token) == DexLegacy.GetToken(tools, old(Now()))
    {
      var o := Call();
      if !o.Done? || references.None? { return None; }
      var r := FindTokenReference(references.value);
      if r.None? {
        var name := tools.generated(n);
        var secret := DexLegacy.Secret(true, true, tools.account, tools.content(n));
        o := Call();
        if !o.Rejected? { secrets := secrets[name := secret]; }
        if !o.Done? { return None; }
        o := Call();
        if !o.Rejected? { references := Some(references.value + [name]); }
        if !o.Done? { return None; }
        r := Some(name);
      }
      o := Call();
      if !o.Done? || r.value !in secrets { return None; }
      token := Some(secrets[r.value].token);
    }

    /** The delete loop. */
    method DeleteListed(names: seq<string>, listed: map<string, DexLegacy.Secret>)
      returns (deleted: set<string>, ok: bool)
      modifies this`secrets, this`n
      ensures DexLegacy.Deletion(Now(), deleted, ok) == DexLegacy.DeleteLoop(tools, old(Now()), names, listed)
    {
      deleted, ok := {}, true;
      ghost var start := Now();
      var i := 0;
      while i < |names|
        invariant 0 <= i <= |names|
        invariant var rest := DexLegacy.DeleteLoop(tools, Now(), names[i..], listed);
          DexLegacy.DeleteLoop(tools, start, names, listed) ==
          DexLegacy.Deletion(rest.w, deleted + rest.deleted, ok && rest.ok)
      {
        assert names[i..][0] == names[i] && names[i..][1..] == names[i + 1..];
        ghost var rest := DexLegacy.DeleteLoop(tools, Now(), names[i..], listed);
        ghost var before := deleted;
        if names[i] in listed && DexLegacy.IsLegacy(tools, listed[names[i]]) {
          var o := Call();
          if !o.Rejected? { secrets := secrets - {names[i]}; }
          if o.Done? { deleted := deleted + {names[i]}; } else { ok := false; }
        }
        i := i + 1;
        assert before + rest.deleted == deleted + DexLegacy.DeleteLoop(tools, Now(), names[i..], listed).deleted;
      }
    }

    /** Keep the references that were not deleted, in order. */
    method FilterReferences(refs: seq<string>, deleted: set<string>) returns (kept: seq<string>)
      ensures kept == DexLegacy.Without(refs, deleted)
    {
      kept := [];
      var i := 0;
      while i < |refs|
        invariant 0 <= i <= |refs|
        invariant DexLegacy.Without(refs, deleted) == kept + DexLegacy.Without(refs[i..], deleted)
      {
        assert refs[i..][0] == refs[i] && refs[i..][1..] == refs[i + 1..];
        if refs[i] !in deleted { kept := kept + [refs[i]]; }
        i := i + 1;
      }
    }

    /** reconcileDexLegacySATokenSecrets */
    method RemoveLegacySecrets() returns (ok: bool)
      modifies this
      ensures DexLegacy.Step(Now(), ok) == DexLegacy.Remove(tools, old(Now()))
    {
      var tracked := set x | x in secrets && secrets[x].tracked;
      assert tracked == DexLegacy.Tracked(Now());
      var listed := map x | x in tracked :: secrets[x];
      var names := tools.env.listing(n, tracked);
      var o := Call();
      if !o.Done? { return false; }
      var deleted;
      deleted, ok := DeleteListed(names, listed);
      o := Call();
      if !o.Done? { return false; }
      if references.None? { return; }
      var kept := FilterReferences(references.value, deleted);
      if |kept| != |references.value| {
        o := Call();
        if !o.Rejected? { references := Some(kept); }
        ok := ok && o.Done?;
      }
    }
  }
}
