/** Recorded runs of one node under the single-trace verifier. */
module RecordVerified {
  import opened Base
  import opened Sorting
  import opened Events
  import opened TraceFile
  import opened Lang
  import opened Interp
  import opened Faults
  import opened InjectorSpec
  import opened InjectorProps
  import opened Node
  import opened RecordSpec
  import opened ReplaySpec
  import opened RecordReplay
  import opened Queues
  import opened VerifySpec
  import opened VerifyMeaning
  import opened LineageSpec
  import opened HonestNode
  import opened HonestRun
  import opened QueueMirror
  import opened RecordTrace

  ghost predicate RunEvents(node: Uuid, released: seq<WireEnvelope>, evs: seq<EventKind>) {
    forall k :: k in evs ==> StepEvent(node, released, k)
  }

  lemma MoreReleased(node: Uuid, a: seq<WireEnvelope>, b: seq<WireEnvelope>, k: EventKind)
    requires StepEvent(node, a, k) || StepEvent(node, b, k)
    ensures StepEvent(node, a + b, k)
  {
    if k.NetRecv? {
      if k in RecvEvents(a) {
        var i :| 0 <= i < |a| && RecvEvents(a)[i] == k;
        assert RecvEvents(a + b)[i] == k;
      } else {
        var i :| 0 <= i < |b| && RecvEvents(b)[i] == k;
        assert (a + b)[|a| + i] == b[i] && RecvEvents(a + b)[|a| + i] == k;
      }
    }
  }

  /** The injector of a record run is the injector run on its own, and what the run receives is what
      that injector releases. */
  lemma {:induction false} RecordInjector(cfg: Config, r0: RecState, settings: Settings, arrivals: seq<seq<WireEnvelope>>, n: nat, m: RecMove)
    requires n <= |arrivals| <= U64_MAX && RecordSteps(cfg, r0, arrivals, n) == Ok(m) && r0.inj == NewInjector(settings)
    ensures m.state.inj == InjectorAt(settings, cfg.node, arrivals, n) && HoldsOwn(m.state.inj, cfg.node)
    ensures RunEvents(cfg.node, ReleasedBefore(settings, cfg.node, arrivals, n), m.events)
  {
    hide RecordStep;
    hide Drain;
    hide PolicyForStep;
    if n > 0 {
      var before := RecordSteps(cfg, r0, arrivals, n - 1).value;
      var last := RecordStep(cfg, before.state, n - 1, arrivals[n - 1]).value;
      RecordInjector(cfg, r0, settings, arrivals, n - 1, before);
      StepEvents(cfg, before.state, n - 1, arrivals[n - 1], last);
      StepInjector(cfg, before.state, n - 1, arrivals[n - 1], last);
      DrainQuiet(before.state.inj, cfg.node, n - 1, arrivals[n - 1]);
      var a := ReleasedBefore(settings, cfg.node, arrivals, n - 1);
      var b := ReleasedDuring(settings, cfg.node, arrivals, n - 1);
      forall k | k in m.events ensures StepEvent(cfg.node, a + b, k) {
        MoreReleased(cfg.node, a, b, k);
      }
    }
  }

  lemma StepInjector(cfg: Config, r: RecState, step: U64, arrivals: seq<WireEnvelope>, m: RecMove)
    requires RecordStep(cfg, r, step, arrivals) == Ok(m)
    ensures m.state.inj == Drain(r.inj, cfg.node, step, arrivals).inj
  {
    hide Drain;
    hide Handle;
    hide FireAll;
  }

  /** A record run is its start-up block and a trace that the event-driven machine follows. */
  lemma RecordFollows(cfg: Config, settings: Settings, arrivals: seq<seq<WireEnvelope>>, m: RecMove, boot: Boot)
    returns (rest: seq<EventKind>, end: Core)
    requires |arrivals| <= U64_MAX && Record(cfg, settings, arrivals) == Ok(m) && m.state.sys.timerCounter < U64_MAX
    requires Startup(cfg) == Ok(boot)
    ensures m.events == boot.events + rest && Follows(cfg, Core(boot.sys, []), rest) == Ok(end) && end.sys == m.state.sys
    ensures RunEvents(cfg.node, ReleasedBefore(settings, cfg.node, arrivals, |arrivals|), rest)
  {
    hide RecordSteps;
    hide Follows;
    hide RunEvents;
    hide StepsNeeded;
    hide ReleasedBefore;
    rest, end := RecordedLoopFollows(cfg, settings, arrivals, m, boot);
    var r0 := RecState(boot.sys, [], NewInjector(settings));
    var looped := RecordSteps(cfg, r0, arrivals, |arrivals|).value;
    assert rest == m.events[|boot.events|..] == looped.events;
    RecordInjector(cfg, r0, settings, arrivals, |arrivals|, looped);
  }

  /** What is received was accepted from the network. */
  lemma ReceivedWasAccepted(settings: Settings, node: Uuid, arrivals: seq<seq<WireEnvelope>>, k: EventKind)
    requires |arrivals| <= U64_MAX && StepEvent(node, ReleasedBefore(settings, node, arrivals, |arrivals|), k) && k.NetRecv?
    ensures exists e :: e in Accepted(node, arrivals, |arrivals|) && e.toActor == k.to
  {
    hide ReleasedBefore;
    hide Accepted;
    hide DroppedBefore;
    hide InjectorAt;
    var n := |arrivals|;
    Conservation(settings, node, arrivals, n);
    var released := ReleasedBefore(settings, node, arrivals, n);
    var i :| 0 <= i < |released| && RecvEvents(released)[i] == k;
    assert released[i] in multiset(released);
    assert released[i] in multiset(Accepted(node, arrivals, n));
  }

  // ---- the verifier's queues on a record run ----

  lemma {:induction false} ReceiptsMirror(actors: map<Uuid, Actor>, produced: Produced, envs: seq<WireEnvelope>)
    requires Mirrors(actors, produced, true) && forall e :: e in envs ==> e.toActor in actors
    ensures Mirrors(PushAll(actors, envs), ProducedRun(produced, RecvEvents(envs)), true)
    decreases |envs|
  {
    hide Mirrors;
    if envs == [] {
      NothingProduces(produced);
    } else {
      var e := envs[0];
      assert e in envs;
      var entry := Entry(e.msgId, e.payload);
      PushMirrors(actors, produced, e.toActor, entry, true);
      ReceiptsMirror(Push(actors, e.toActor, entry), Enqueue(produced, (e.toActor, e.msgId), e.payload), envs[1..]);
      ProducedCons(produced, RecvEvents(envs)[0], RecvEvents(envs[1..]));
      assert RecvEvents(envs) == [RecvEvents(envs)[0]] + RecvEvents(envs[1..]);
    }
  }

  lemma {:induction false} FiringsMirror(cfg: Config, s: Sys, produced: Produced, due: seq<PendingTimer>, f: Fired)
    requires Mirrors(s.actors, produced, true) && FireAll(cfg, s, due) == Ok(f)
    ensures Mirrors(f.sys.actors, ProducedRun(produced, f.events), true)
    decreases |due|
  {
    hide Mirrors;
    hide Dispatch;
    if due == [] {
      NothingProduces(produced);
    } else {
      var t := due[0].core;
      var (s1, sent) := Dispatch(cfg, s, t.from, t.target, t.payload).value;
      var rest := FireAll(cfg, s1, due[1..]).value;
      var fired := TimerFired(cfg.node, t.from, t.id);
      DispatchMirrors(cfg, s, produced, t.from, t.target, t.payload, s1, sent, true);
      FiringsMirror(cfg, s1, ProducedAfter(produced, sent), due[1..], rest);
      ProducedCons(produced, fired, [sent] + rest.events);
      ProducedCons(produced, sent, rest.events);
      assert f.events == [fired] + ([sent] + rest.events);
    }
  }

  lemma DeliveryMirrors(cfg: Config, r: RecState, produced: Produced, step: U64, m: RecMove)
    requires DeliverNext(cfg, r, step) == Ok(m) && Mirrors(r.sys.actors, produced, true)
    ensures Mirrors(m.state.sys.actors, ProducedRun(produced, m.events), true)
  {
    hide Mirrors;
    hide Handle;
    hide ProducedRun;
    if LeastReady(r.sys.actors).None? {
      NothingProduces(produced);
    } else {
      var to := LeastReady(r.sys.actors).value;
      var p := Pop(r.sys, to).value;
      var h := Handle(cfg, p.sys, to, p.entry).value;
      var d := Deliver(cfg.node, to, p.entry.id);
      var taken := Move(Core(h.sys, [] + Cores(h.timers)), h.emitted);
      assert CoreStep(cfg, Core(r.sys, []), d) == Ok(taken);
      CoreStepMirrors(cfg, Core(r.sys, []), d, taken, produced, true);
    }
  }

  lemma StepMirrors(cfg: Config, r: RecState, produced: Produced, step: U64, arrivals: seq<WireEnvelope>, m: RecMove)
    requires RecordStep(cfg, r, step, arrivals) == Ok(m) && HoldsOwn(r.inj, cfg.node) && Mirrors(r.sys.actors, produced, true)
    requires forall e :: e in Drain(r.inj, cfg.node, step, arrivals).released ==> e.toActor in r.sys.actors
    ensures Mirrors(m.state.sys.actors, ProducedRun(produced, m.events), true)
  {
    hide Mirrors;
    hide Drain;
    hide FireAll;
    hide DeliverNext;
    hide ProducedRun;
    hide RecvEvents;
    hide SortBy;
    var drained := Drain(r.inj, cfg.node, step, arrivals);
    var d := DrainStep(cfg, r, step, arrivals);
    var due := SortBy(TimerKey, Due(d.state.timers, step));
    var f := FireDue(cfg, d.state, step).value;
    var h := DeliverNext(cfg, f.state, step).value;
    DrainQuiet(r.inj, cfg.node, step, arrivals);
    QuietProduces(produced, drained.events);
    ReceiptsMirror(r.sys.actors, produced, drained.released);
    ProducedRunAppend(produced, drained.events, RecvEvents(drained.released));
    var p1 := ProducedRun(produced, d.events);
    FiringsMirror(cfg, d.state.sys, p1, due, FireAll(cfg, d.state.sys, due).value);
    ProducedRunAppend(produced, d.events, f.events);
    DeliveryMirrors(cfg, f.state, ProducedRun(p1, f.events), step, h);
    ProducedRunAppend(produced, d.events + f.events, h.events);
  }

  lemma {:induction false} PushAllKeeps(actors: map<Uuid, Actor>, envs: seq<WireEnvelope>)
    ensures PushAll(actors, envs).Keys == actors.Keys
    decreases |envs|
  {
    if envs != [] { PushAllKeeps(Push(actors, envs[0].toActor, Entry(envs[0].msgId, envs[0].payload)), envs[1..]); }
  }

  lemma {:induction false} FireAllKeeps(cfg: Config, s: Sys, due: seq<PendingTimer>)
    requires FireAll(cfg, s, due).Ok?
    ensures FireAll(cfg, s, due).value.sys.actors.Keys == s.actors.Keys
    decreases |due|
  {
    hide Dispatch;
    if due != [] {
      var t := due[0].core;
      DispatchKeepsActors(cfg, s, t.from, t.target, t.payload);
      FireAllKeeps(cfg, Dispatch(cfg, s, t.from, t.target, t.payload).value.0, due[1..]);
    }
  }

  lemma DeliverKeeps(cfg: Config, r: RecState, step: U64, m: RecMove)
    requires DeliverNext(cfg, r, step) == Ok(m)
    ensures m.state.sys.actors.Keys == r.sys.actors.Keys
  {
    hide Handle;
    if LeastReady(r.sys.actors).Some? {
      var to := LeastReady(r.sys.actors).value;
      var p := Pop(r.sys, to).value;
      var h := Handle(cfg, p.sys, to, p.entry).value;
      var d := Deliver(cfg.node, to, p.entry.id);
      var taken := Move(Core(h.sys, [] + Cores(h.timers)), h.emitted);
      assert CoreStep(cfg, Core(r.sys, []), d) == Ok(taken);
      StepKeepsActors(cfg, Core(r.sys, []), d, taken);
    }
  }

  /** The actors of a node stay the same throughout a run. */
  lemma {:induction false} RecordKeepsActors(cfg: Config, r0: RecState, arrivals: seq<seq<WireEnvelope>>, n: nat, m: RecMove)
    requires n <= |arrivals| <= U64_MAX && RecordSteps(cfg, r0, arrivals, n) == Ok(m)
    ensures m.state.sys.actors.Keys == r0.sys.actors.Keys
  {
    hide Drain;
    hide FireAll;
    hide DeliverNext;
    hide SortBy;
    if n > 0 {
      var before := RecordSteps(cfg, r0, arrivals, n - 1).value;
      RecordKeepsActors(cfg, r0, arrivals, n - 1, before);
      var r := before.state;
      var d := DrainStep(cfg, r, n - 1, arrivals[n - 1]).state;
      PushAllKeeps(r.sys.actors, Drain(r.inj, cfg.node, n - 1, arrivals[n - 1]).released);
      FireAllKeeps(cfg, d.sys, SortBy(TimerKey, Due(d.timers, n - 1)));
      var f := FireDue(cfg, d, n - 1).value.state;
      DeliverKeeps(cfg, f, n - 1, DeliverNext(cfg, f, n - 1).value);
    }
  }

  lemma {:induction false} RunMirrors(cfg: Config, settings: Settings, r0: RecState, arrivals: seq<seq<WireEnvelope>>, n: nat, produced: Produced, m: RecMove)
    requires n <= |arrivals| <= U64_MAX && RecordSteps(cfg, r0, arrivals, n) == Ok(m) && r0.inj == NewInjector(settings)
    requires Mirrors(r0.sys.actors, produced, true)
    requires forall e :: e in Accepted(cfg.node, arrivals, n) ==> e.toActor in r0.sys.actors
    ensures Mirrors(m.state.sys.actors, ProducedRun(produced, m.events), true)
  {
    hide RecordStep;
    hide Mirrors;
    hide ProducedRun;
    hide Accepted;
    hide Drain;
    hide PolicyForStep;
    hide ReleasedBefore;
    hide RunEvents;
    hide HoldsOwn;
    hide InjectorAt;
    if n == 0 {
      NothingProduces(produced);
    } else {
      var before := RecordSteps(cfg, r0, arrivals, n - 1).value;
      var last := RecordStep(cfg, before.state, n - 1, arrivals[n - 1]).value;
      ReleasedWereAccepted(settings, cfg.node, arrivals, n);
      RecordInjector(cfg, r0, settings, arrivals, n - 1, before);
      RecordKeepsActors(cfg, r0, arrivals, n - 1, before);
      RunMirrors(cfg, settings, r0, arrivals, n - 1, produced, before);
      StepMirrors(cfg, before.state, ProducedRun(produced, before.events), n - 1, arrivals[n - 1], last);
      ProducedRunAppend(produced, before.events, last.events);
    }
  }

  /** On every record run whose inbound envelopes name actors of the node, clean or not, the verifier's
      queues mirror the inboxes and its count of pending messages is what the inboxes hold. */
  lemma PendingIsWhatInboxesHold(cfg: Config, settings: Settings, arrivals: seq<seq<WireEnvelope>>, m: RecMove)
    requires |arrivals| <= U64_MAX && Record(cfg, settings, arrivals) == Ok(m)
    requires forall e :: e in Accepted(cfg.node, arrivals, |arrivals|) ==> e.toActor in m.state.sys.actors
    ensures QueuesMirror(m.state.sys.actors, VFold(StampAll(m.events), |m.events|).produced)
    ensures PendingMessages(StampAll(m.events)) == TotalLength(Inboxes(m.state.sys.actors))
  {
    hide Startup;
    hide VFold;
    hide Accepted;
    hide ProducedRun;
    hide StampAll;
    hide RecordSteps;
    hide QueuesMirror;
    var boot := Startup(cfg).value;
    var r0 := RecState(boot.sys, [], NewInjector(settings));
    var looped := RecordSteps(cfg, r0, arrivals, |arrivals|).value;
    StartupMirrors(cfg, boot);
    RecordKeepsActors(cfg, r0, arrivals, |arrivals|, looped);
    RunMirrors(cfg, settings, r0, arrivals, |arrivals|, ProducedRun(map[], boot.events), looped);
    ProducedRunAppend(map[], boot.events, looped.events);
    FileProduces(m.events);
  }

  /** Without inbound traffic there is nothing in a trace that could be dishonest. */
  lemma NothingReceived(cfg: Config, settings: Settings, arrivals: seq<seq<WireEnvelope>>, evs: seq<EventKind>,
                        actors: set<Uuid>, dropped: set<(Uuid, Uuid, Uuid)>, l: Ledger)
    requires |arrivals| <= U64_MAX && Accepted(cfg.node, arrivals, |arrivals|) == []
    requires RunEvents(cfg.node, ReleasedBefore(settings, cfg.node, arrivals, |arrivals|), evs)
    ensures InputsHonest(cfg, actors, dropped, l, evs)
  {
    hide ReleasedBefore;
    hide Accepted;
    hide GoodMsg;
    forall k | k in evs ensures !k.NetRecv? {
      if k.NetRecv? { ReceivedWasAccepted(settings, cfg.node, arrivals, k); }
    }
  }

  /** A started node that follows an honest trace leaves the verifier without complaints. */
  lemma StartedRunVerifies(cfg: Config, boot: Boot, rest: seq<EventKind>, end: Core, dropped: set<(Uuid, Uuid, Uuid)>)
    requires ValidConfig(cfg) && cfg.systemActor !in cfg.actorOf.Values
    requires Startup(cfg) == Ok(boot) && Follows(cfg, Core(boot.sys, []), rest) == Ok(end) && end.sys.msgCounter < U64_MAX
    requires DropsIn(rest) <= dropped
    requires forall l :: InputsHonest(cfg, boot.sys.actors.Keys, dropped, l, rest)
    ensures Calm(VRun(START, boot.events + rest))
  {
    hide ValidConfig;
    hide Startup;
    hide Follows;
    hide VRun;
    hide Calm;
    hide NodeInv;
    hide InputsHonest;
    hide DropsIn;
    CounterMonotone(cfg, Core(boot.sys, []), rest, end);
    var l := StartupHonest(cfg, Ledger(map[], {}), boot);
    var l1 := TraceHonest(cfg, Core(boot.sys, []), VRun(START, boot.events), l, map[], rest, end, dropped);
    VRunAppend(START, boot.events, rest);
  }

  /** A successful record run of one node that takes no inbound traffic gets zero problems from the
      single-trace verifier, lineage checks included, for every loaded program, fault policy and
      number of steps. */
  lemma SingleNodeRunVerifies(cfg: Config, settings: Settings, arrivals: seq<seq<WireEnvelope>>, m: RecMove)
    requires ValidConfig(cfg) && cfg.systemActor !in cfg.actorOf.Values
    requires |arrivals| <= U64_MAX && Record(cfg, settings, arrivals) == Ok(m)
    requires Accepted(cfg.node, arrivals, |arrivals|) == []
    requires m.state.sys.timerCounter < U64_MAX && m.state.sys.msgCounter < U64_MAX && |m.events| <= U64_MAX + 1
    ensures Problems(StampAll(m.events)) == []
  {
    hide ValidConfig;
    hide Startup;
    hide VFold;
    hide VRun;
    hide Accepted;
    hide StampAll;
    hide InputsHonest;
    hide RunEvents;
    hide RecordSteps;
    var boot := Startup(cfg).value;
    var rest, end := RecordFollows(cfg, settings, arrivals, m, boot);
    forall l ensures InputsHonest(cfg, boot.sys.actors.Keys, DropsIn(rest), l, rest) {
      NothingReceived(cfg, settings, arrivals, rest, boot.sys.actors.Keys, DropsIn(rest), l);
    }
    StartedRunVerifies(cfg, boot, rest, end, DropsIn(rest));
    FileIsRun(m.events);
  }
}
