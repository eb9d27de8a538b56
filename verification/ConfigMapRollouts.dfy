/** When a change of `argocd-cm` is rolled out to the deployments that read it. A change that is stored is
    rolled out by the pass that stores it or never. */
module ConfigMapRollouts {
  import opened Platform
  import opened ConfigMaps

  /** Later passes under the same spec; before each, deployments may have come or gone. */
  function Later(env: Env, w: World, s: Spec, o: Owner, deployments: seq<set<Deployment>>): (w': World)
    decreases |deployments|
  {
    if deployments == [] then w
    else Later(env, Pass(env, w.(deployments := deployments[0]), s, o).w, s, o, deployments[1..])
  }

  // ---------- The Dex deployment ----------

  predicate DexStored(s: Spec, w: World)
    requires DexConfig(s).Some?
  {
    w.cm.Some? && Get(DataOf(w.cm.value), DEX_KEY) == DexConfig(s).value
  }

  /** A pass that finds the ConfigMap is its update part, after one read. */
  lemma PassUpdates(env: Env, w: World, s: Spec, o: Owner)
    requires Build(s).Some? && w.cm.Some?
    ensures Pass(env, w, s, o) ==
      if env.outcome(w.n).Done? then Update(env, Tick(w), s, w.cm.value, Build(s).value, o) else Step(Tick(w), false)
  {
  }

  lemma AlignKeepsDex(env: Env, w: World, c: ConfigMap, data: Data, o: Owner, terminalChanged: bool, dex: string)
    requires w.cm.Some? && Get(DataOf(w.cm.value), DEX_KEY) == dex && Get(data, DEX_KEY) == dex
    ensures var w' := Align(env, w, c, data, o, terminalChanged).w;
      && w'.cm.Some? && Get(DataOf(w'.cm.value), DEX_KEY) == dex
      && w'.rollouts[DexServer] == w.rollouts[DexServer]
  {
  }

  lemma UpdateKeepsDex(env: Env, w: World, s: Spec, c: ConfigMap, data: Data, o: Owner)
    requires s.useDex && DexConfig(s).Some? && w.cm == Some(c) && DexStored(s, w)
    ensures var w' := Update(env, w, s, c, data, o).w;
      DexStored(s, w') && w'.rollouts[DexServer] == w.rollouts[DexServer]
  {
    var dex := DexConfig(s).value;
    var changed := Get(data, TERMINAL_KEY) != Get(DataOf(c), TERMINAL_KEY);
    assert Update(env, w, s, c, data, o) == Align(env, w, c, data[DEX_KEY := dex], o, changed);
    AlignKeepsDex(env, w, c, data[DEX_KEY := dex], o, changed, dex);
  }

  /** Once Dex's configuration is stored, no pass rolls the Dex deployment out. */
  lemma DexStoredStays(env: Env, w: World, s: Spec, o: Owner)
    requires s.useDex && DexConfig(s).Some? && DexStored(s, w)
    ensures var w' := Pass(env, w, s, o).w; DexStored(s, w') && w'.rollouts[DexServer] == w.rollouts[DexServer]
  {
    if Build(s).Some? {
      PassUpdates(env, w, s, o);
      UpdateKeepsDex(env, Tick(w), s, w.cm.value, Build(s).value, o);
    }
  }

  lemma {:induction false} DexStoredForever(env: Env, w: World, s: Spec, o: Owner, deployments: seq<set<Deployment>>)
    requires s.useDex && DexConfig(s).Some? && DexStored(s, w)
    ensures Later(env, w, s, o, deployments).rollouts[DexServer] == w.rollouts[DexServer]
    decreases |deployments|
  {
    if deployments != [] {
      var v := w.(deployments := deployments[0]);
      DexStoredStays(env, v, s, o);
      DexStoredForever(env, Pass(env, v, s, o).w, s, o, deployments[1..]);
    }
  }

  /** Does a pass that finds another dex.config store Dex's own? Its first call reads the ConfigMap, its
      second writes it. */
  predicate StoresDex(env: Env, w: World, dex: string)
    requires w.cm.Some?
  {
    !Panics(w.cm.value, dex) && env.outcome(w.n).Done? && !env.outcome(w.n + 1).Rejected?
  }

  /** Does it roll the deployment out, too? Its third call looks for the deployment, its fourth updates it. */
  predicate RollsOutDex(env: Env, w: World, dex: string)
    requires w.cm.Some?
  {
    && !Panics(w.cm.value, dex) && env.outcome(w.n).Done? && env.outcome(w.n + 1).Done?
    && env.outcome(w.n + 2).Done? && DexServer in w.deployments && !env.outcome(w.n + 3).Rejected?
  }

  lemma UpdateDex(env: Env, w: World, s: Spec, c: ConfigMap, data: Data, o: Owner)
    requires s.useDex && DexConfig(s).Some? && w.cm == Some(c) && !DexStored(s, w)
    ensures var w' := Update(env, w, s, c, data, o).w; var dex := DexConfig(s).value;
      && (DexStored(s, w') <==> !Panics(c, dex) && !env.outcome(w.n).Rejected?)
      && (!DexStored(s, w') ==> w'.cm == w.cm)
      && w'.rollouts[DexServer] == w.rollouts[DexServer] +
           if && !Panics(c, dex) && env.outcome(w.n).Done? && env.outcome(w.n + 1).Done?
              && DexServer in w.deployments && !env.outcome(w.n + 2).Rejected? then 1 else 0
  {
    var dex := DexConfig(s).value;
    var a := ReconcileDex(env, w, c, dex);
    if a.ok {
      var changed := Get(data, TERMINAL_KEY) != Get(DataOf(c), TERMINAL_KEY);
      AlignKeepsDex(env, a.w, WithDex(c, dex), data[DEX_KEY := dex], o, changed, dex);
    }
  }

  lemma DexPass(env: Env, w: World, s: Spec, o: Owner)
    requires s.useDex && Final(s).Some? && w.cm.Some? && !DexStored(s, w)
    ensures var w' := Pass(env, w, s, o).w; var dex := DexConfig(s).value;
      && (DexStored(s, w') <==> StoresDex(env, w, dex))
      && (!DexStored(s, w') ==> w'.cm == w.cm)
      && w'.rollouts[DexServer] == w.rollouts[DexServer] + if RollsOutDex(env, w, dex) then 1 else 0
  {
    PassUpdates(env, w, s, o);
    UpdateDex(env, Tick(w), s, w.cm.value, Build(s).value, o);
  }

  /** Now or never, for dex.config. A pass that finds another dex.config stores Dex's own and rolls the Dex
      deployment out exactly as the answers to its first four calls and the presence of the deployment
      say. If it does not store it, the ConfigMap is as it was and the change is still pending. If it
      stores it, then over all later passes under the same spec the Dex deployment is rolled out once if
      this pass did it, and otherwise not at all. */
  lemma DexRolloutNowOrNever(env: Env, w: World, s: Spec, o: Owner, deployments: seq<set<Deployment>>)
    requires s.useDex && Final(s).Some? && w.cm.Some? && !DexStored(s, w)
    ensures var w' := Pass(env, w, s, o).w; var dex := DexConfig(s).value;
      && w'.rollouts[DexServer] == w.rollouts[DexServer] + (if RollsOutDex(env, w, dex) then 1 else 0)
      && (!StoresDex(env, w, dex) ==> w'.cm == w.cm)
      && (StoresDex(env, w, dex) ==>
            Later(env, w', s, o, deployments).rollouts[DexServer] ==
              w.rollouts[DexServer] + if RollsOutDex(env, w, dex) then 1 else 0)
  {
    DexPass(env, w, s, o);
    if StoresDex(env, w, DexConfig(s).value) { DexStoredForever(env, Pass(env, w, s, o).w, s, o, deployments); }
  }

  // ---------- The server deployment ----------

  /** The value of exec.enabled that the spec asks for is the stored one. */
  predicate TerminalStored(s: Spec, w: World)
    requires Final(s).Some?
  {
    w.cm.Some? && Get(DataOf(w.cm.value), TERMINAL_KEY) == Get(Final(s).value, TERMINAL_KEY)
  }

  /** Must dex.config be brought in line first? */
  predicate DexFirst(s: Spec, c: ConfigMap)
    requires s.useDex ==> DexConfig(s).Some?
  {
    s.useDex && Get(DataOf(c), DEX_KEY) != DexConfig(s).value
  }

  /** The call that writes the ConfigMap as a whole, when `w.n` is the first call after the read: that one,
      unless the Dex stage comes before. */
  function WriteCall(w: World, s: Spec, c: ConfigMap): (m: nat)
    requires s.useDex ==> DexConfig(s).Some?
  {
    if !DexFirst(s, c) then w.n else if DexServer in w.deployments then w.n + 3 else w.n + 2
  }

  /** Does the update get as far as that call? */
  predicate ReachesWrite(env: Env, w: World, s: Spec, c: ConfigMap, o: Owner)
    requires s.useDex ==> DexConfig(s).Some?
  {
    && RepairOwner(c.owners, o).ok
    && (DexFirst(s, c) ==>
          && !Panics(c, DexConfig(s).value) && env.outcome(w.n).Done? && env.outcome(w.n + 1).Done?
          && (DexServer in w.deployments ==> env.outcome(w.n + 2).Done?))
  }

  predicate UpdateStores(env: Env, w: World, s: Spec, c: ConfigMap, o: Owner)
    requires s.useDex ==> DexConfig(s).Some?
  {
    ReachesWrite(env, w, s, c, o) && !env.outcome(WriteCall(w, s, c)).Rejected?
  }

  /** After the write comes the look for the deployment, and then its update. */
  predicate UpdateRollsOut(env: Env, w: World, s: Spec, c: ConfigMap, o: Owner)
    requires s.useDex ==> DexConfig(s).Some?
  {
    var m := WriteCall(w, s, c);
    && ReachesWrite(env, w, s, c, o) && env.outcome(m).Done?
    && env.outcome(m + 1).Done? && Server in w.deployments && !env.outcome(m + 2).Rejected?
  }

  /** Does a pass that finds another exec.enabled store the one of the spec, and does it roll the server
      out? Its first call reads the ConfigMap. */
  predicate StoresTerminal(env: Env, w: World, s: Spec, o: Owner)
    requires Final(s).Some? && w.cm.Some?
  {
    env.outcome(w.n).Done? && UpdateStores(env, Tick(w), s, w.cm.value, o)
  }

  predicate RollsOutServer(env: Env, w: World, s: Spec, o: Owner)
    requires Final(s).Some? && w.cm.Some?
  {
    env.outcome(w.n).Done? && UpdateRollsOut(env, Tick(w), s, w.cm.value, o)
  }

  lemma AlignKeepsTerminal(env: Env, w: World, c: ConfigMap, data: Data, o: Owner)
    requires w.cm.Some? && Get(DataOf(w.cm.value), TERMINAL_KEY) == Get(data, TERMINAL_KEY)
    ensures var w' := Align(env, w, c, data, o, false).w;
      && w'.cm.Some? && Get(DataOf(w'.cm.value), TERMINAL_KEY) == Get(data, TERMINAL_KEY)
      && w'.rollouts[Server] == w.rollouts[Server]
  {
  }

  /** An update as its two stages. */
  lemma UpdateIs(env: Env, w: World, s: Spec, c: ConfigMap, data: Data, o: Owner)
    requires s.useDex ==> DexConfig(s).Some?
    ensures var changed := Get(data, TERMINAL_KEY) != Get(DataOf(c), TERMINAL_KEY);
      Update(env, w, s, c, data, o) ==
        if !s.useDex then Align(env, w, c, data, o, changed)
        else
          var dex := DexConfig(s).value;
          var a := if DexFirst(s, c) then ReconcileDex(env, w, c, dex) else Step(w, true);
          if !a.ok then a else Align(env, a.w, WithDex(c, dex), data[DEX_KEY := dex], o, changed)
  {
  }

  lemma UpdateKeepsTerminal(env: Env, w: World, s: Spec, c: ConfigMap, data: Data, o: Owner)
    requires s.useDex ==> DexConfig(s).Some?
    requires w.cm == Some(c) && Get(data, TERMINAL_KEY) == Get(DataOf(c), TERMINAL_KEY)
    ensures var w' := Update(env, w, s, c, data, o).w;
      && w'.cm.Some? && Get(DataOf(w'.cm.value), TERMINAL_KEY) == Get(data, TERMINAL_KEY)
      && w'.rollouts[Server] == w.rollouts[Server]
  {
    UpdateIs(env, w, s, c, data, o);
    if !s.useDex {
      AlignKeepsTerminal(env, w, c, data, o);
    } else {
      var dex := DexConfig(s).value;
      WithDexKeeps(c, data, dex);
      if DexFirst(s, c) { DexStage(env, w, c, dex); }
      var a := if DexFirst(s, c) then ReconcileDex(env, w, c, dex) else Step(w, true);
      AlignKeepsTerminal(env, a.w, WithDex(c, dex), data[DEX_KEY := dex], o);
    }
  }

  lemma FinalTerminal(s: Spec)
    requires Final(s).Some?
    ensures Get(Final(s).value, TERMINAL_KEY) == Get(Build(s).value, TERMINAL_KEY)
  {
  }

  lemma TerminalStoredStays(env: Env, w: World, s: Spec, o: Owner)
    requires Final(s).Some? && TerminalStored(s, w)
    ensures var w' := Pass(env, w, s, o).w; TerminalStored(s, w') && w'.rollouts[Server] == w.rollouts[Server]
  {
    PassUpdates(env, w, s, o);
    FinalTerminal(s);
    UpdateKeepsTerminal(env, Tick(w), s, w.cm.value, Build(s).value, o);
  }

  lemma {:induction false} TerminalStoredForever(
    env: Env, w: World, s: Spec, o: Owner, deployments: seq<set<Deployment>>)
    requires Final(s).Some? && TerminalStored(s, w)
    ensures Later(env, w, s, o, deployments).rollouts[Server] == w.rollouts[Server]
    decreases |deployments|
  {
    if deployments != [] {
      var v := w.(deployments := deployments[0]);
      TerminalStoredStays(env, v, s, o);
      TerminalStoredForever(env, Pass(env, v, s, o).w, s, o, deployments[1..]);
    }
  }

  lemma AlignTerminal(env: Env, w: World, c: ConfigMap, data: Data, o: Owner)
    requires w.cm.Some? && Get(DataOf(w.cm.value), TERMINAL_KEY) == Get(DataOf(c), TERMINAL_KEY)
    requires Get(DataOf(c), TERMINAL_KEY) != Get(data, TERMINAL_KEY)
    ensures var w' := Align(env, w, c, data, o, true).w; var ok := RepairOwner(c.owners, o).ok;
      && w'.cm.Some?
      && (Get(DataOf(w'.cm.value), TERMINAL_KEY) == Get(data, TERMINAL_KEY) <==> ok && !env.outcome(w.n).Rejected?)
      && (Get(DataOf(w'.cm.value), TERMINAL_KEY) in {Get(data, TERMINAL_KEY), Get(DataOf(c), TERMINAL_KEY)})
      && w'.rollouts[Server] == w.rollouts[Server] +
           if && ok && env.outcome(w.n).Done? && env.outcome(w.n + 1).Done?
              && Server in w.deployments && !env.outcome(w.n + 2).Rejected? then 1 else 0
  {
    assert c.data != Some(data);
  }

  /** The Dex stage of a pass that finds another dex.config. */
  lemma DexStage(env: Env, w: World, c: ConfigMap, dex: string)
    requires w.cm == Some(c) && Get(DataOf(c), DEX_KEY) != dex
    ensures var a := ReconcileDex(env, w, c, dex);
      && a.w.cm.Some? && a.w.deployments == w.deployments && a.w.rollouts[Server] == w.rollouts[Server]
      && Get(DataOf(a.w.cm.value), TERMINAL_KEY) == Get(DataOf(c), TERMINAL_KEY)
      && (a.ok <==>
            && !Panics(c, dex) && env.outcome(w.n).Done? && env.outcome(w.n + 1).Done?
            && (DexServer in w.deployments ==> env.outcome(w.n + 2).Done?))
      && (a.ok ==> a.w.n == if DexServer in w.deployments then w.n + 3 else w.n + 2)
  {
  }

  /** What an update does about exec.enabled, by its answers. */
  ghost predicate TerminalResult(env: Env, w: World, s: Spec, c: ConfigMap, data: Data, o: Owner, w': World)
    requires s.useDex ==> DexConfig(s).Some?
  {
    && w'.cm.Some?
    && (Get(DataOf(w'.cm.value), TERMINAL_KEY) == Get(data, TERMINAL_KEY) <==> UpdateStores(env, w, s, c, o))
    && (Get(DataOf(w'.cm.value), TERMINAL_KEY) in {Get(data, TERMINAL_KEY), Get(DataOf(c), TERMINAL_KEY)})
    && w'.rollouts[Server] == w.rollouts[Server] + if UpdateRollsOut(env, w, s, c, o) then 1 else 0
  }

  lemma UpdateTerminalDirectly(env: Env, w: World, s: Spec, c: ConfigMap, data: Data, o: Owner)
    requires s.useDex ==> DexConfig(s).Some?
    requires !DexFirst(s, c)
    requires w.cm == Some(c) && Get(data, TERMINAL_KEY) != Get(DataOf(c), TERMINAL_KEY)
    ensures TerminalResult(env, w, s, c, data, o, Update(env, w, s, c, data, o).w)
  {
    AlignTerminal(env, w, c, if s.useDex then data[DEX_KEY := DexConfig(s).value] else data, o);
  }

  lemma WithDexKeeps(c: ConfigMap, data: Data, dex: string)
    ensures WithDex(c, dex).owners == c.owners
    ensures Get(DataOf(WithDex(c, dex)), TERMINAL_KEY) == Get(DataOf(c), TERMINAL_KEY)
    ensures Get(data[DEX_KEY := dex], TERMINAL_KEY) == Get(data, TERMINAL_KEY)
  {
  }

  lemma UpdateTerminalAfterDex(env: Env, w: World, s: Spec, c: ConfigMap, data: Data, o: Owner)
    requires s.useDex ==> DexConfig(s).Some?
    requires DexFirst(s, c)
    requires w.cm == Some(c) && Get(data, TERMINAL_KEY) != Get(DataOf(c), TERMINAL_KEY)
    ensures TerminalResult(env, w, s, c, data, o, Update(env, w, s, c, data, o).w)
  {
    var dex := DexConfig(s).value;
    UpdateIs(env, w, s, c, data, o);
    DexStage(env, w, c, dex);
    WithDexKeeps(c, data, dex);
    var a := ReconcileDex(env, w, c, dex);
    if a.ok { AlignTerminal(env, a.w, WithDex(c, dex), data[DEX_KEY := dex], o); }
  }

  lemma TerminalPass(env: Env, w: World, s: Spec, o: Owner)
    requires Final(s).Some? && w.cm.Some? && !TerminalStored(s, w)
    ensures var w' := Pass(env, w, s, o).w;
      && w'.cm.Some?
      && (TerminalStored(s, w') <==> StoresTerminal(env, w, s, o))
      && (!StoresTerminal(env, w, s, o) ==>
            Get(DataOf(w'.cm.value), TERMINAL_KEY) == Get(DataOf(w.cm.value), TERMINAL_KEY))
      && w'.rollouts[Server] == w.rollouts[Server] + if RollsOutServer(env, w, s, o) then 1 else 0
  {
    PassUpdates(env, w, s, o);
    FinalTerminal(s);
    var c, data := w.cm.value, Build(s).value;
    if DexFirst(s, c) {
      UpdateTerminalAfterDex(env, Tick(w), s, c, data, o);
    } else {
      UpdateTerminalDirectly(env, Tick(w), s, c, data, o);
    }
  }

  /** Now or never, for exec.enabled: a pass that finds another value stores the one of the spec and rolls
      the server out exactly as its answers, the owners and the presence of the deployments say. If it
      does not store it, the old value stays and the change is pending. If it does, then over all later
      passes under the same spec the server is rolled out once if this pass did it, and otherwise not at
      all. */
  lemma TerminalRolloutNowOrNever(env: Env, w: World, s: Spec, o: Owner, deployments: seq<set<Deployment>>)
    requires Final(s).Some? && w.cm.Some? && !TerminalStored(s, w)
    ensures var w' := Pass(env, w, s, o).w;
      && w'.cm.Some?
      && w'.rollouts[Server] == w.rollouts[Server] + (if RollsOutServer(env, w, s, o) then 1 else 0)
      && (!StoresTerminal(env, w, s, o) ==>
            Get(DataOf(w'.cm.value), TERMINAL_KEY) == Get(DataOf(w.cm.value), TERMINAL_KEY))
      && (StoresTerminal(env, w, s, o) ==>
            Later(env, w', s, o, deployments).rollouts[Server] ==
              w.rollouts[Server] + if RollsOutServer(env, w, s, o) then 1 else 0)
  {
    TerminalPass(env, w, s, o);
    if StoresTerminal(env, w, s, o) { TerminalStoredForever(env, Pass(env, w, s, o).w, s, o, deployments); }
  }
}
