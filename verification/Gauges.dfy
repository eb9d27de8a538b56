/** The gauges of active instances: how many there are, and how many in each phase. */
module Gauges {

  /** One reconciliation of the instance in a namespace, as the gauges see it. */
  datatype Event = Event(namespace: string, phase: string, deleting: bool)

  /** `active` holds the phase last seen per namespace; a phase without a gauge value reads 0. */
  datatype State = State(active: map<string, string>, byPhase: map<string, int>, total: int)

  const START := State(map[], map[], 0)

  function Gauge(s: State, phase: string): (r: int) { if phase in s.byPhase then s.byPhase[phase] else 0 }

  function Add(s: State, phase: string, d: int): (r: State) { s.(byPhase := s.byPhase[phase := Gauge(s, phase) + d]) }

  /** The bookkeeping for an instance that is seen. */
  function See(s: State, ns: string, phase: string): (r: State)
  {
    if ns !in s.active then
      if phase != "" then Add(s.(active := s.active[ns := phase], total := s.total + 1), phase, 1) else s
    else if s.active[ns] != phase then Add(Add(s.(active := s.active[ns := phase]), phase, 1), s.active[ns], -1)
    else s
  }

  function Forget(s: State, ns: string, phase: string): (r: State)
  {
    Add(s.(active := s.active - {ns}, total := s.total - 1), phase, -1)
  }

  function Handle(s: State, e: Event): (r: State)
  {
    var seen := See(s, e.namespace, e.phase);
    if e.deleting then Forget(seen, e.namespace, e.phase) else seen
  }

  function Run(events: seq<Event>): (r: State)
  {
    if events == [] then START else Handle(Run(events[..|events| - 1]), events[|events| - 1])
  }

  /** A deletion that the gauges count although the instance was never counted in. */
  predicate Spurious(s: State, e: Event) { e.deleting && e.phase == "" && e.namespace !in s.active }

  function SpuriousCount(events: seq<Event>): (r: nat)
  {
    if events == [] then 0
    else
      var rest := events[..|events| - 1];
      SpuriousCount(rest) + if Spurious(Run(rest), events[|events| - 1]) then 1 else 0
  }

  function InPhase(active: map<string, string>, phase: string): (r: set<string>)
  {
    set ns | ns in active && active[ns] == phase
  }

  /** The gauges are right up to `drift`. */
  ghost predicate Tracks(s: State, drift: nat)
  {
    && s.total == |s.active| - drift
    && forall p :: Gauge(s, p) == |InPhase(s.active, p)| - if p == "" then drift else 0
  }

  lemma PutSize(active: map<string, string>, ns: string, phase: string)
    ensures |active[ns := phase]| == |active| + (if ns in active then 0 else 1)
  {
    assert active[ns := phase].Keys == active.Keys + {ns};
  }

  lemma SizeWithout(xs: set<string>, x: string)
    ensures |xs| == |xs - {x}| + (if x in xs then 1 else 0)
  {
    if x in xs { assert xs == (xs - {x}) + {x}; } else { assert xs == xs - {x}; }
  }

  lemma PutInPhase(active: map<string, string>, ns: string, phase: string, p: string)
    ensures InPhase(active[ns := phase], p) - {ns} == InPhase(active, p) - {ns}
    ensures ns in InPhase(active[ns := phase], p) <==> p == phase
  {
    assert forall x | x != ns :: x in InPhase(active[ns := phase], p) <==> x in InPhase(active, p);
  }

  lemma PutCounts(active: map<string, string>, ns: string, phase: string, p: string)
    ensures |InPhase(active[ns := phase], p)| == |InPhase(active, p)|
      + (if p == phase then 1 else 0) - (if ns in InPhase(active, p) then 1 else 0)
  {
    SizeWithout(InPhase(active, p), ns);
    SizeWithout(InPhase(active[ns := phase], p), ns);
    PutInPhase(active, ns, phase, p);
  }

  lemma DropCounts(active: map<string, string>, ns: string, p: string)
    ensures var active' := active - {ns};
      && |active'| == |active| - (if ns in active then 1 else 0)
      && |InPhase(active', p)| == |InPhase(active, p)| - (if ns in active && active[ns] == p then 1 else 0)
  {
    var active' := active - {ns};
    assert active'.Keys == active.Keys - {ns};
    assert InPhase(active', p) == InPhase(active, p) - {ns};
  }

  lemma SeeTracks(s: State, ns: string, phase: string, drift: nat)
    requires Tracks(s, drift)
    ensures Tracks(See(s, ns, phase), drift)
    ensures var s' := See(s, ns, phase);
      if ns in s.active || phase != "" then ns in s'.active && s'.active[ns] == phase else s' == s
  {
    var s' := See(s, ns, phase);
    PutSize(s.active, ns, phase);
    forall p ensures Gauge(s', p) == |InPhase(s'.active, p)| - if p == "" then drift else 0 {
      PutCounts(s.active, ns, phase, p);
      assert Gauge(s, p) == |InPhase(s.active, p)| - if p == "" then drift else 0;
    }
  }

  lemma ForgetTracks(s: State, ns: string, phase: string, drift: nat)
    requires Tracks(s, drift)
    requires if ns in s.active then s.active[ns] == phase else phase == ""
    ensures Tracks(Forget(s, ns, phase), if ns in s.active then drift else drift + 1)
  {
    var s' := Forget(s, ns, phase);
    DropCounts(s.active, ns, phase);
    var drift' := if ns in s.active then drift else drift + 1;
    forall p ensures Gauge(s', p) == |InPhase(s'.active, p)| - if p == "" then drift' else 0 {
      DropCounts(s.active, ns, p);
      assert Gauge(s, p) == |InPhase(s.active, p)| - if p == "" then drift else 0;
    }
  }

  /** Over every run, the total and the gauge of the empty phase lag behind the truth by exactly the number
      of spurious deletions; all other phase gauges are right. */
  lemma {:induction false} GaugesDriftExactly(events: seq<Event>)
    ensures Tracks(Run(events), SpuriousCount(events))
    decreases |events|
  {
    if events != [] {
      var rest, e := events[..|events| - 1], events[|events| - 1];
      GaugesDriftExactly(rest);
      SeeTracks(Run(rest), e.namespace, e.phase, SpuriousCount(rest));
      if e.deleting { ForgetTracks(See(Run(rest), e.namespace, e.phase), e.namespace, e.phase, SpuriousCount(rest)); }
    } else {
      assert forall p :: InPhase(START.active, p) == {};
    }
  }

  predicate SpuriousAt(events: seq<Event>, i: nat)
    requires i < |events|
  {
    Spurious(Run(events[..i]), events[i])
  }

  lemma {:induction false} NoSpuriousIffZero(events: seq<Event>)
    ensures SpuriousCount(events) == 0 <==> forall i: nat | i < |events| :: !SpuriousAt(events, i)
    decreases |events|
  {
    if events != [] {
      var last := |events| - 1;
      var rest := events[..last];
      NoSpuriousIffZero(rest);
      forall i: nat | i < last ensures SpuriousAt(rest, i) == SpuriousAt(events, i) {
        assert rest[..i] == events[..i];
      }
      assert SpuriousAt(events, last) == Spurious(Run(rest), events[last]);
    }
  }

  /** The gauges are right after a run exactly when every deletion had a phase or came for an instance
      that was already counted. */
  lemma GaugesRightIff(events: seq<Event>)
    ensures Tracks(Run(events), 0)
      <==> forall i: nat | i < |events| :: !SpuriousAt(events, i)
  {
    GaugesDriftExactly(events);
    NoSpuriousIffZero(events);
  }

  /** The condition can fail: an instance that is deleted before its first phase is set. */
  lemma DeletionBeforeFirstPhase()
    ensures Run([Event("ns", "", true)]).total == -1 && Run([Event("ns", "", true)]).active == map[]
  {
    var e := Event("ns", "", true);
    assert [e][..0] == [];
    assert Run([e]) == Handle(START, e);
  }

  /** The gauges as the operator keeps them. */
  class Metrics {
    var active: map<string, string>
    var byPhase: map<string, int>
    var total: int

    constructor ()
      ensures Now() == START
    {
      active, byPhase, total := map[], map[], 0;
    }

    ghost function Now(): (r: State)
      reads this
    {
      State(active, byPhase, total)
    }

    method AddTo(phase: string, d: int)
      modifies this`byPhase
      ensures Now() == Add(old(Now()), phase, d)
    {
      byPhase := byPhase[phase := (if phase in byPhase then byPhase[phase] else 0) + d];
    }

    /** The accounting part of internalReconcile. */
    method Account(namespace: string, phase: string, deleting: bool)
      modifies this
      ensures Now() == Handle(old(Now()), Event(namespace, phase, deleting))
    {
      if namespace !in active {
        if phase != "" {
          active := active[namespace := phase];
          AddTo(phase, 1);
          total := total + 1;
        }
      } else if active[namespace] != phase {
        var before := active[namespace];
        active := active[namespace := phase];
        AddTo(phase, 1);
        AddTo(before, -1);
      }
      if deleting {
        active := active - {namespace};
        AddTo(phase, -1);
        total := total - 1;
      }
    }
  }
}
