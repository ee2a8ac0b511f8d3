/** What the trace of a record run shows of the fault injector: the policy in force, and where every
    accepted envelope went. */
module RunEvidence {
  import opened Base
  import opened Sorting
  import opened Events
  import opened Interp
  import opened Faults
  import opened InjectorSpec
  import opened InjectorProps
  import opened Node
  import opened RecordSpec
  import opened RecordReplay
  import opened RecordTrace
  import ReplaySpec
  import opened RecordVerified
  import opened TimerRuns
  import opened Wire

  /** The NetRecv events, in order. */
  function Receipts(evs: seq<EventKind>): seq<EventKind> {
    if evs == [] then []
    else (if evs[0].NetRecv? then [evs[0]] else []) + Receipts(evs[1..])
  }

  lemma {:induction false} ReceiptsAppend(a: seq<EventKind>, b: seq<EventKind>)
    ensures Receipts(a + b) == Receipts(a) + Receipts(b)
    decreases |a|
  {
    if a == [] {
      assert a + b == b;
    } else {
      assert (a + b)[0] == a[0] && (a + b)[1..] == a[1..] + b;
      ReceiptsAppend(a[1..], b);
      var first := if a[0].NetRecv? then [a[0]] else [];
      assert first + (Receipts(a[1..]) + Receipts(b)) == first + Receipts(a[1..]) + Receipts(b);
    }
  }

  /** Events that say nothing of the injector. */
  ghost predicate Unrelated(evs: seq<EventKind>) {
    forall e :: e in evs ==> !e.NetRecv? && !e.FaultInjected? && !e.FaultPolicyEvent?
  }

  lemma {:induction false} NoEvidence(evs: seq<EventKind>)
    requires forall e :: e in evs ==> !e.NetRecv?
    ensures Receipts(evs) == []
  {
    if evs != [] {
      assert evs[0] in evs;
      NoEvidence(evs[1..]);
    }
  }

  lemma {:induction false} NoDrops(evs: seq<EventKind>)
    requires forall e :: e in evs ==> !e.FaultInjected?
    ensures Drops(evs) == []
  {
    if evs != [] {
      assert evs[0] in evs;
      NoDrops(evs[1..]);
    }
  }

  lemma {:induction false} NoPolicy(evs: seq<EventKind>)
    requires forall e :: e in evs ==> !e.FaultPolicyEvent?
    ensures LatestPolicy(evs) == None
  {
    if evs != [] {
      assert evs[|evs| - 1] in evs;
      NoPolicy(evs[..|evs| - 1]);
    }
  }

  lemma {:induction false} AllReceipts(envs: seq<WireEnvelope>)
    ensures Receipts(RecvEvents(envs)) == RecvEvents(envs)
  {
    if envs != [] { AllReceipts(envs[1..]); }
  }

  lemma {:induction false} RecvAppend(a: seq<WireEnvelope>, b: seq<WireEnvelope>)
    ensures RecvEvents(a + b) == RecvEvents(a) + RecvEvents(b)
    decreases |a|
  {
    if a == [] {
      assert a + b == b;
    } else {
      assert (a + b)[0] == a[0] && (a + b)[1..] == a[1..] + b;
      RecvAppend(a[1..], b);
    }
  }

  lemma {:induction false} DropAppend(node: Uuid, a: seq<WireEnvelope>, b: seq<WireEnvelope>)
    ensures DropEvents(node, a + b) == DropEvents(node, a) + DropEvents(node, b)
    decreases |b|
  {
    if b == [] {
      assert a + b == a;
    } else {
      assert (a + b)[..|a + b| - 1] == a + b[..|b| - 1];
      DropAppend(node, a, b[..|b| - 1]);
    }
  }

  /** What these events show: the latest policy announced, the receipts and the drops. */
  ghost predicate Shows(evs: seq<EventKind>, policy: Option<EventKind>, received: seq<EventKind>, dropped: seq<EventKind>) {
    LatestPolicy(evs) == policy && Receipts(evs) == received && Drops(evs) == dropped
  }

  lemma ShowsJoin(a: seq<EventKind>, p: Option<EventKind>, r: seq<EventKind>, d: seq<EventKind>,
                  b: seq<EventKind>, q: Option<EventKind>, s: seq<EventKind>, e: seq<EventKind>)
    requires Shows(a, p, r, d) && Shows(b, q, s, e)
    ensures Shows(a + b, if q.Some? then q else p, r + s, d + e)
  {
    hide LatestPolicy;
    hide Receipts;
    hide Drops;
    LatestOf(a, b);
    ReceiptsAppend(a, b);
    EvidenceAppends(a, b);
  }

  lemma ShowsNothing(evs: seq<EventKind>)
    requires Unrelated(evs)
    ensures Shows(evs, None, [], [])
  {
    NoEvidence(evs);
    NoDrops(evs);
    NoPolicy(evs);
  }

  lemma ShowsReceipts(envs: seq<WireEnvelope>)
    ensures Shows(RecvEvents(envs), None, RecvEvents(envs), [])
  {
    AllReceipts(envs);
    NoDrops(RecvEvents(envs));
    NoPolicy(RecvEvents(envs));
  }

  lemma ShowsFaults(node: Uuid, evs: seq<EventKind>)
    requires FaultsOnly(node, evs)
    ensures Shows(evs, LatestPolicy(evs), [], Drops(evs))
  {
    NoEvidence(evs);
  }

  lemma DeliveryUnrelated(cfg: Config, r: RecState, step: U64, m: RecMove)
    requires DeliverNext(cfg, r, step) == Ok(m)
    ensures Unrelated(m.events)
  {
    hide Handle;
    if LeastReady(r.sys.actors).Some? {
      var to := LeastReady(r.sys.actors).value;
      var p := Pop(r.sys, to).value;
      var h := Handle(cfg, p.sys, to, p.entry).value;
      var d := Deliver(cfg.node, to, p.entry.id);
      assert CoreStep(cfg, Core(r.sys, []), d) == Ok(Move(Core(h.sys, [] + Cores(h.timers)), h.emitted));
      ReplaySpec.EmittedAreEmissions(cfg, Core(r.sys, []), d);
    }
  }

  /** A step shows of the injector what its drain shows. */
  lemma StepShows(cfg: Config, r: RecState, step: U64, arrivals: seq<WireEnvelope>, m: RecMove)
    requires RecordStep(cfg, r, step, arrivals) == Ok(m) && HoldsOwn(r.inj, cfg.node)
    ensures var d := Drain(r.inj, cfg.node, step, arrivals);
            Shows(m.events, LatestPolicy(d.events), RecvEvents(d.released), Drops(d.events))
  {
    hide Drain;
    hide DeliverNext;
    hide FireAll;
    hide RecvEvents;
    hide Shows;
    hide LatestPolicy;
    hide Drops;
    hide SortBy;
    var drained := Drain(r.inj, cfg.node, step, arrivals);
    var d := DrainStep(cfg, r, step, arrivals);
    DrainQuiet(r.inj, cfg.node, step, arrivals);
    var due := SortBy(TimerKey, Due(d.state.timers, step));
    var f := FireDue(cfg, d.state, step).value;
    var h := DeliverNext(cfg, f.state, step).value;
    FiringsLocal(cfg, d.state.sys, due, FireAll(cfg, d.state.sys, due).value);
    DeliveryUnrelated(cfg, f.state, step, h);
    ShowsFaults(cfg.node, drained.events);
    ShowsReceipts(drained.released);
    ShowsNothing(f.events);
    ShowsNothing(h.events);
    var policy, dropped := LatestPolicy(drained.events), Drops(drained.events);
    var received := RecvEvents(drained.released);
    ShowsJoin(drained.events, policy, [], dropped, received, None, received, []);
    ShowsJoin(drained.events + received, policy, [] + received, dropped + [], f.events, None, [], []);
    ShowsJoin(drained.events + received + f.events, policy, [] + received + [], dropped + [] + [], h.events, None, [], []);
    assert [] + received + [] + [] == received && dropped + [] + [] + [] == dropped;
  }

  /** The events of a run show of the injector what the injector does when it is run on its own. */
  lemma {:induction false} RunShows(cfg: Config, settings: Settings, r0: RecState, arrivals: seq<seq<WireEnvelope>>, n: nat, m: RecMove)
    requires n <= |arrivals| <= U64_MAX && RecordSteps(cfg, r0, arrivals, n) == Ok(m) && r0.inj == NewInjector(settings)
    ensures Shows(m.events, LatestPolicy(EventsBefore(settings, cfg.node, arrivals, n)),
                  RecvEvents(ReleasedBefore(settings, cfg.node, arrivals, n)),
                  DropEvents(cfg.node, DroppedBefore(settings, cfg.node, arrivals, n)))
  {
    hide RecordStep;
    hide Drain;
    hide PolicyForStep;
    hide InjectorAt;
    hide SeenAt;
    hide RunEvents;
    hide Own;
    hide Dropped;
    if n > 0 {
      hide Shows;
      hide LatestPolicy;
      hide Drops;
      hide DropEvents;
      hide RecvEvents;
      hide HoldsOwn;
      var node := cfg.node;
      var before := RecordSteps(cfg, r0, arrivals, n - 1).value;
      var last := RecordStep(cfg, before.state, n - 1, arrivals[n - 1]).value;
      RecordInjector(cfg, r0, settings, arrivals, n - 1, before);
      RunShows(cfg, settings, r0, arrivals, n - 1, before);
      StepShows(cfg, before.state, n - 1, arrivals[n - 1], last);
      var inj := InjectorAt(settings, node, arrivals, n - 1);
      var d := Drain(inj, node, n - 1, arrivals[n - 1]);
      QueueForm(settings, node, arrivals, n - 1);
      DrainEvidence(inj, node, n - 1, arrivals[n - 1]);
      ShowsJoin(before.events, LatestPolicy(EventsBefore(settings, node, arrivals, n - 1)),
                RecvEvents(ReleasedBefore(settings, node, arrivals, n - 1)),
                DropEvents(node, DroppedBefore(settings, node, arrivals, n - 1)),
                last.events, LatestPolicy(d.events), RecvEvents(d.released), Drops(d.events));
      LatestOf(EventsBefore(settings, node, arrivals, n - 1), d.events);
      RecvAppend(ReleasedBefore(settings, node, arrivals, n - 1), d.released);
      DropAppend(node, DroppedBefore(settings, node, arrivals, n - 1),
                 Dropped(Own(node, arrivals[n - 1]), inj.seen, PolicyForStep(settings, n - 1)));
    }
  }

  /** A whole record run: the start-up events show nothing of the injector. */
  lemma RecordShows(cfg: Config, settings: Settings, arrivals: seq<seq<WireEnvelope>>, m: RecMove)
    requires |arrivals| <= U64_MAX && Record(cfg, settings, arrivals) == Ok(m)
    ensures Shows(m.events, LatestPolicy(EventsBefore(settings, cfg.node, arrivals, |arrivals|)),
                  RecvEvents(ReleasedBefore(settings, cfg.node, arrivals, |arrivals|)),
                  DropEvents(cfg.node, DroppedBefore(settings, cfg.node, arrivals, |arrivals|)))
    ensures m.state.inj == InjectorAt(settings, cfg.node, arrivals, |arrivals|)
  {
    hide Startup;
    hide RecordSteps;
    hide Shows;
    hide LatestPolicy;
    hide EventsBefore;
    hide ReleasedBefore;
    hide DroppedBefore;
    hide DropEvents;
    hide RecvEvents;
    hide InjectorAt;
    hide RunEvents;
    hide HoldsOwn;
    var boot := Startup(cfg).value;
    var r0 := RecState(boot.sys, [], NewInjector(settings));
    var looped := RecordSteps(cfg, r0, arrivals, |arrivals|).value;
    RunShows(cfg, settings, r0, arrivals, |arrivals|, looped);
    RecordInjector(cfg, r0, settings, arrivals, |arrivals|, looped);
    StartupLocal(cfg, boot);
    ShowsNothing(boot.events);
    var received := RecvEvents(ReleasedBefore(settings, cfg.node, arrivals, |arrivals|));
    var dropped := DropEvents(cfg.node, DroppedBefore(settings, cfg.node, arrivals, |arrivals|));
    var policy := LatestPolicy(EventsBefore(settings, cfg.node, arrivals, |arrivals|));
    ShowsJoin(boot.events, None, [], [], looped.events, policy, received, dropped);
    assert [] + received == received && [] + dropped == dropped;
  }

  /** In the trace of a record run, at the end of every step, the latest FaultPolicy event announces
      the policy of that step. */
  lemma PolicyInTrace(cfg: Config, settings: Settings, r0: RecState, arrivals: seq<seq<WireEnvelope>>, n: nat, m: RecMove)
    requires 0 < n <= |arrivals| <= U64_MAX && RecordSteps(cfg, r0, arrivals, n) == Ok(m) && r0.inj == NewInjector(settings)
    ensures Announces(LatestPolicy(m.events), cfg.node, PolicyForStep(settings, n - 1))
  {
    hide RecordSteps;
    hide PolicyForStep;
    hide Announces;
    hide EventsBefore;
    RunShows(cfg, settings, r0, arrivals, n, m);
    PolicyEvidence(settings, cfg.node, arrivals, n);
  }

  /** A step begins with the events of its drain, and announces no policy after them. */
  lemma OnlyDrainAnnounces(cfg: Config, r: RecState, step: U64, arrivals: seq<WireEnvelope>, m: RecMove) returns (rest: seq<EventKind>)
    requires RecordStep(cfg, r, step, arrivals) == Ok(m)
    ensures m.events == Drain(r.inj, cfg.node, step, arrivals).events + rest
    ensures forall e :: e in rest ==> !e.FaultPolicyEvent?
  {
    hide Drain;
    hide DeliverNext;
    hide FireAll;
    hide RecvEvents;
    hide SortBy;
    var released := Drain(r.inj, cfg.node, step, arrivals).released;
    var d := DrainStep(cfg, r, step, arrivals);
    var due := SortBy(TimerKey, Due(d.state.timers, step));
    var f := FireDue(cfg, d.state, step).value;
    var h := DeliverNext(cfg, f.state, step).value;
    FiringsLocal(cfg, d.state.sys, due, FireAll(cfg, d.state.sys, due).value);
    DeliveryUnrelated(cfg, f.state, step, h);
    rest := RecvEvents(released) + f.events + h.events;
    assert forall e :: e in RecvEvents(released) ==> !e.FaultPolicyEvent?;
  }

  /** From the moment a step has drained the network, at each of its receipts, firings and deliveries,
      the latest FaultPolicy event so far announces the policy of the step. */
  lemma PolicyDuringStep(cfg: Config, settings: Settings, r0: RecState, arrivals: seq<seq<WireEnvelope>>, n: nat, m: RecMove,
                         before: RecMove, cut: nat)
    requires 0 < n <= |arrivals| <= U64_MAX && RecordSteps(cfg, r0, arrivals, n) == Ok(m) && r0.inj == NewInjector(settings)
    requires RecordSteps(cfg, r0, arrivals, n - 1) == Ok(before)
    requires |before.events| + |Drain(before.state.inj, cfg.node, n - 1, arrivals[n - 1]).events| <= cut <= |m.events|
    ensures Announces(LatestPolicy(m.events[..cut]), cfg.node, PolicyForStep(settings, n - 1))
  {
    hide RecordStep;
    hide Drain;
    hide LatestPolicy;
    hide PolicyForStep;
    hide Announces;
    PolicyInTrace(cfg, settings, r0, arrivals, n, m);
    var last := RecordStep(cfg, before.state, n - 1, arrivals[n - 1]).value;
    var rest := OnlyDrainAnnounces(cfg, before.state, n - 1, arrivals[n - 1], last);
    var drained := before.events + Drain(before.state.inj, cfg.node, n - 1, arrivals[n - 1]).events;
    assert m.events == drained + rest && m.events[..cut] == drained + rest[..cut - |drained|];
    LatestOf(drained, rest);
    LatestOf(drained, rest[..cut - |drained|]);
    NoPolicy(rest);
    NoPolicy(rest[..cut - |drained|]);
  }

  /** In the whole trace, start-up included, the latest one announces the policy of the last step. */
  lemma PolicyInRecording(cfg: Config, settings: Settings, arrivals: seq<seq<WireEnvelope>>, m: RecMove)
    requires 0 < |arrivals| <= U64_MAX && Record(cfg, settings, arrivals) == Ok(m)
    ensures Announces(LatestPolicy(m.events), cfg.node, PolicyForStep(settings, |arrivals| - 1))
  {
    hide Record;
    hide PolicyForStep;
    hide Announces;
    hide EventsBefore;
    RecordShows(cfg, settings, arrivals, m);
    PolicyEvidence(settings, cfg.node, arrivals, |arrivals|);
  }

  /** Conservation in the trace: of the envelopes accepted in a record run, each one has its NetRecv
      event, has its Drop event, or is still pending in the injector, and there are no other NetRecv
      or Drop events. */
  lemma ConservedInTrace(cfg: Config, settings: Settings, arrivals: seq<seq<WireEnvelope>>, m: RecMove)
    returns (released: seq<WireEnvelope>, dropped: seq<WireEnvelope>)
    requires |arrivals| <= U64_MAX && Record(cfg, settings, arrivals) == Ok(m)
    ensures Receipts(m.events) == RecvEvents(released) && Drops(m.events) == DropEvents(cfg.node, dropped)
    ensures m.state.inj.reorderBuf == []
    ensures multiset(Accepted(cfg.node, arrivals, |arrivals|)) ==
            multiset(released) + multiset(dropped) + multiset(Envelopes(m.state.inj.pending))
  {
    hide Record;
    hide PolicyForStep;
    hide EventsBefore;
    hide QueueAt;
    hide LeftBefore;
    hide SeenAt;
    released := ReleasedBefore(settings, cfg.node, arrivals, |arrivals|);
    dropped := DroppedBefore(settings, cfg.node, arrivals, |arrivals|);
    RecordShows(cfg, settings, arrivals, m);
    QueueForm(settings, cfg.node, arrivals, |arrivals|);
    Conservation(settings, cfg.node, arrivals, |arrivals|);
  }

  // ---- when envelopes are received ----

  /** The NetRecv and Drop events of step `k` of a record run are exactly those of the envelopes the
      injector, run on its own, releases and drops in that step. */
  lemma ReceiptsInStep(cfg: Config, settings: Settings, r0: RecState, arrivals: seq<seq<WireEnvelope>>, n: nat, k: nat)
    requires k < n <= |arrivals| <= U64_MAX && RecordSteps(cfg, r0, arrivals, n).Ok? && r0.inj == NewInjector(settings)
    ensures Receipts(EventsIn(cfg, r0, arrivals, k)) == RecvEvents(ReleasedDuring(settings, cfg.node, arrivals, k))
    ensures Drops(EventsIn(cfg, r0, arrivals, k)) ==
            DropEvents(cfg.node, Dropped(Own(cfg.node, arrivals[k]), SeenAt(cfg.node, arrivals, k), PolicyForStep(settings, k)))
  {
    hide RecordStep;
    hide RecordSteps;
    hide StateAt;
    hide EventsIn;
    hide Drain;
    hide InjectorAt;
    hide Receipts;
    hide Drops;
    hide DropEvents;
    hide RecvEvents;
    hide LatestPolicy;
    hide PolicyForStep;
    hide Dropped;
    hide SeenAt;
    hide RunEvents;
    hide ReleasedBefore;
    hide HoldsOwn;
    var before, next := NextStep(cfg, r0, arrivals, n, k);
    RecordInjector(cfg, r0, settings, arrivals, k, before);
    StepShows(cfg, before.state, k, arrivals[k], RecMove(next.state, EventsIn(cfg, r0, arrivals, k)));
    QueueForm(settings, cfg.node, arrivals, k);
    DrainEvidence(before.state.inj, cfg.node, k, arrivals[k]);
  }

  /** Release timing in the trace, under any policy changes: the envelopes received in step `k` are the
      entries of the injector's queue for which the latest release step among themselves and all
      ahead of them is `k`, in queue order. */
  lemma ReceivedWhenReached(cfg: Config, settings: Settings, r0: RecState, arrivals: seq<seq<WireEnvelope>>, n: nat, k: nat)
    returns (lo: nat, hi: nat)
    requires k < n <= |arrivals| <= U64_MAX && RecordSteps(cfg, r0, arrivals, n).Ok? && r0.inj == NewInjector(settings)
    ensures var q := QueueAt(settings, cfg.node, arrivals, n);
            && lo <= hi <= |q| && Receipts(EventsIn(cfg, r0, arrivals, k)) == RecvEvents(Envelopes(q[lo..hi]))
            && forall i :: 0 <= i < |q| ==> (lo <= i < hi <==> LatestAhead(q, i) == k)
  {
    hide RecordSteps;
    hide EventsIn;
    hide Receipts;
    hide RecvEvents;
    hide ReleasedDuring;
    hide LatestAhead;
    hide QueueAt;
    lo, hi := LeftBefore(settings, cfg.node, arrivals, k), LeftBefore(settings, cfg.node, arrivals, k + 1);
    ReceiptsInStep(cfg, settings, r0, arrivals, n, k);
    LeavesInStep(settings, cfg.node, arrivals, n, k);
  }

  /** And under a constant delay: what is received in step `k` is what arrived `d` steps earlier and was
      not dropped, in its reordered order. */
  lemma ReceivedAfterDelay(cfg: Config, settings: Settings, r0: RecState, arrivals: seq<seq<WireEnvelope>>, n: nat, k: nat, d: U64)
    requires k < n <= |arrivals| <= U64_MAX && RecordSteps(cfg, r0, arrivals, n).Ok? && r0.inj == NewInjector(settings)
    requires SteadyDelay(settings, d, k + 1)
    ensures Receipts(EventsIn(cfg, r0, arrivals, k)) ==
            RecvEvents(if k < d then [] else Envelopes(EnteringAt(settings, cfg.node, arrivals, k - d)))
  {
    hide RecordSteps;
    hide EventsIn;
    hide Receipts;
    hide RecvEvents;
    hide ReleasedDuring;
    hide EnteringAt;
    hide SteadyDelay;
    ReceiptsInStep(cfg, settings, r0, arrivals, n, k);
    ExactDelay(settings, cfg.node, arrivals, k, d);
  }

  lemma {:induction false} DropEventCount(node: Uuid, envs: seq<WireEnvelope>)
    ensures |DropEvents(node, envs)| == |envs|
  {
    if envs != [] { DropEventCount(node, envs[..|envs| - 1]); }
  }

  /** While every step's policy drops each d-th envelope, the trace of a record run has floor(k / d) Drop
      events when k envelopes were accepted. */
  lemma DropsInTrace(cfg: Config, settings: Settings, arrivals: seq<seq<WireEnvelope>>, m: RecMove, d: U64)
    requires |arrivals| <= U64_MAX && Record(cfg, settings, arrivals) == Ok(m) && d > 0
    requires forall s: nat :: s < |arrivals| ==> PolicyForStep(settings, s).dropEvery == Some(d)
    requires |Accepted(cfg.node, arrivals, |arrivals|)| <= U64_MAX
    ensures |Drops(m.events)| == |Accepted(cfg.node, arrivals, |arrivals|)| / d
  {
    hide Record;
    hide PolicyForStep;
    hide EventsBefore;
    hide Accepted;
    hide DropEvents;
    hide Drops;
    hide DroppedBefore;
    hide ReleasedBefore;
    hide InjectorAt;
    RecordShows(cfg, settings, arrivals, m);
    DropsEveryNth(settings, cfg.node, arrivals, |arrivals|, d);
    DropEventCount(cfg.node, DroppedBefore(settings, cfg.node, arrivals, |arrivals|));
  }
}
