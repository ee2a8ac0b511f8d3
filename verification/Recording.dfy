/** Record mode as the main loop runs it. */
module Recording {
  import opened Base
  import opened Sorting
  import opened Events
  import opened TraceFile
  import opened Lang
  import opened Interp
  import opened Faults
  import opened InjectorSpec
  import opened FaultInjection
  import opened Node
  import opened RecordSpec
  import opened Scheduler
  import opened Runtime

  lemma {:induction false} RecvEventsSnoc(envs: seq<WireEnvelope>, e: WireEnvelope)
    ensures RecvEvents(envs + [e]) == RecvEvents(envs) + [NetRecv(e.toNode, e.fromNode, e.toActor, e.msgId, e.payload)]
  {
    assert forall i :: 0 <= i < |envs| ==> (envs + [e])[i] == envs[i];
  }

  lemma {:induction false} PushAllSnoc(actors: map<Uuid, Actor>, envs: seq<WireEnvelope>, e: WireEnvelope)
    ensures PushAll(actors, envs + [e]) == Push(PushAll(actors, envs), e.toActor, Entry(e.msgId, e.payload))
    decreases |envs|
  {
    if envs == [] {
      assert envs + [e] == [e];
    } else {
      assert (envs + [e])[1..] == envs[1..] + [e];
      PushAllSnoc(Push(actors, envs[0].toActor, Entry(envs[0].msgId, envs[0].payload)), envs[1..], e);
    }
  }

  /** Takes in the arrivals of a step up to the release of what is due. */
  method IngestArrivals(injector: FaultInjector, node: Uuid, step: U64, arrivals: seq<WireEnvelope>, w: TraceWriter)
    requires w.Valid()
    modifies injector, w
    ensures w.Valid()
    ensures var m := IngestAll(old(injector.State()), node, step, arrivals);
            injector.State() == m.inj && w.kinds == old(w.kinds) + m.events
  {
    hide StampAll;
    hide SeqNo;
    hide InjectorSpec.Ingest;
    for i := 0 to |arrivals|
      invariant w.Valid()
      invariant var m := IngestAll(old(injector.State()), node, step, arrivals[..i]);
                injector.State() == m.inj && w.kinds == old(w.kinds) + m.events
    {
      assert arrivals[..i + 1][..i] == arrivals[..i];
      if arrivals[i].toNode != node {
        continue;
      }
      injector.Ingest(arrivals[i], step, node, w);
    }
    assert arrivals[..|arrivals|] == arrivals;
  }

  /** Hands released envelopes to their actors. */
  method Receive(rt: Runtime, released: seq<WireEnvelope>, w: TraceWriter)
    requires w.Valid()
    modifies rt`actors, w
    ensures w.Valid() && w.kinds == old(w.kinds) + RecvEvents(released) && rt.actors == PushAll(old(rt.actors), released)
  {
    hide StampAll;
    hide SeqNo;
    hide PushAll;
    hide RecvEvents;
    NothingPushed(old(rt.actors));
    for i := 0 to |released|
      invariant w.Valid() && w.kinds == old(w.kinds) + RecvEvents(released[..i])
      invariant rt.actors == PushAll(old(rt.actors), released[..i])
    {
      var env := released[i];
      RecvEventsSnoc(released[..i], env);
      PushAllSnoc(old(rt.actors), released[..i], env);
      assert released[..i + 1] == released[..i] + [env];
      w.RecordEvent(NetRecv(env.toNode, env.fromNode, env.toActor, env.msgId, env.payload));
      rt.PushInbox(env.toActor, env.msgId, env.payload);
    }
    assert released[..|released|] == released;
  }

  /** `drain_network`: `arrivals` is what the channel yields before it is empty. */
  method DrainNetwork(rt: Runtime, injector: FaultInjector, step: U64, arrivals: seq<WireEnvelope>, w: TraceWriter)
    requires w.Valid()
    modifies rt`actors, injector, w
    ensures w.Valid()
    ensures var d := Drain(old(injector.State()), rt.cfg.node, step, arrivals);
            && injector.State() == d.inj
            && rt.actors == PushAll(old(rt.actors), d.released)
            && w.kinds == old(w.kinds) + d.events + RecvEvents(d.released)
  {
    hide StampAll;
    hide SeqNo;
    hide InjectorSpec.SyncPolicy;
    hide IngestAll;
    hide InjectorSpec.FlushRemainder;
    hide PushAll;
    hide RecvEvents;
    var node := rt.cfg.node;
    injector.SyncPolicy(node, step, w);
    IngestArrivals(injector, node, step, arrivals, w);
    injector.FlushRemainder(node, w);
    ghost var d := Drain(old(injector.State()), node, step, arrivals);
    assert w.kinds == old(w.kinds) + d.events;
    var released := injector.ReleaseDue(step);
    Receive(rt, released, w);
  }

  lemma NothingPushed(actors: map<Uuid, Actor>)
    ensures PushAll(actors, []) == actors && RecvEvents([]) == []
  {
  }

  lemma {:induction false} DueSnoc(ts: seq<PendingTimer>, t: PendingTimer, step: U64)
    ensures Due(ts + [t], step) == if t.dueStep <= step then Due(ts, step) + [t] else Due(ts, step)
    ensures NotDue(ts + [t], step) == if t.dueStep <= step then NotDue(ts, step) else NotDue(ts, step) + [t]
  {
    if ts != [] {
      assert (ts + [t])[1..] == ts[1..] + [t];
      DueSnoc(ts[1..], t, step);
    }
  }

  /** Splits the pending timers; the due ones in the order of their ids. */
  method TakeDueTimers(timers: seq<PendingTimer>, step: U64) returns (due: seq<PendingTimer>, remaining: seq<PendingTimer>)
    ensures due == SortBy(TimerKey, Due(timers, step)) && remaining == NotDue(timers, step)
  {
    remaining := [];
    var dueTimers := [];
    for i := 0 to |timers|
      invariant dueTimers == Due(timers[..i], step) && remaining == NotDue(timers[..i], step)
    {
      DueSnoc(timers[..i], timers[i], step);
      assert timers[..i + 1] == timers[..i] + [timers[i]];
      if timers[i].dueStep <= step {
        dueTimers := dueTimers + [timers[i]];
      } else {
        remaining := remaining + [timers[i]];
      }
    }
    assert timers[..|timers|] == timers;
    due := SortBy(TimerKey, dueTimers);
  }

  /** What is left to fire when some timers have been fired. */
  ghost predicate FiringGoesOn(cfg: Config, start: Sys, due: seq<PendingTimer>, now: Sys, rest: seq<PendingTimer>, evs: seq<EventKind>) {
    match FireAll(cfg, now, rest)
    case Ok(more) => FireAll(cfg, start, due) == Ok(Fired(more.sys, evs + more.events))
    case Err(e) => FireAll(cfg, start, due) == Err(e)
  }

  lemma FiringStarts(cfg: Config, s: Sys, due: seq<PendingTimer>)
    ensures FiringGoesOn(cfg, s, due, s, due[0..], [])
  {
    assert due[0..] == due;
    var r := FireAll(cfg, s, due);
    if r.Ok? { assert [] + r.value.events == r.value.events; }
  }

  lemma FiringEnds(cfg: Config, start: Sys, due: seq<PendingTimer>, now: Sys, evs: seq<EventKind>)
    requires FiringGoesOn(cfg, start, due, now, due[|due|..], evs)
    ensures FireAll(cfg, start, due) == Ok(Fired(now, evs))
  {
    assert due[|due|..] == [] && evs + [] == evs;
  }

  lemma FiringNext(cfg: Config, start: Sys, due: seq<PendingTimer>, now: Sys, rest: seq<PendingTimer>, evs: seq<EventKind>)
    requires FiringGoesOn(cfg, start, due, now, rest, evs) && rest != []
    ensures var t := rest[0].core;
            var d := Dispatch(cfg, now, t.from, t.target, t.payload);
            if d.Ok? then FiringGoesOn(cfg, start, due, d.value.0, rest[1..], evs + [TimerFired(cfg.node, t.from, t.id)] + [d.value.1])
            else FireAll(cfg, start, due) == Err(d.error)
  {
    var t := rest[0].core;
    var d := Dispatch(cfg, now, t.from, t.target, t.payload);
    if d.Ok? {
      var after := FireAll(cfg, d.value.0, rest[1..]);
      if after.Ok? {
        assert evs + ([TimerFired(cfg.node, t.from, t.id), d.value.1] + after.value.events)
            == evs + [TimerFired(cfg.node, t.from, t.id)] + [d.value.1] + after.value.events;
      }
    }
  }

  method FireTimers(rt: Runtime, due: seq<PendingTimer>, w: TraceWriter) returns (failed: Option<Error>)
    requires w.Valid()
    modifies rt`actors, rt`msgCounter, w
    ensures match FireAll(rt.cfg, old(rt.State()), due)
            case Ok(f) => failed == None && rt.State() == f.sys && w.Valid() && w.kinds == old(w.kinds) + f.events
            case Err(e) => failed == Some(e)
  {
    hide StampAll;
    hide SeqNo;
    hide Dispatch;
    hide FiringGoesOn;
    failed := None;
    ghost var evs: seq<EventKind> := [];
    FiringStarts(rt.cfg, rt.State(), due);
    for i := 0 to |due|
      modifies rt`actors, rt`msgCounter, w
      invariant failed == None && w.Valid() && w.kinds == old(w.kinds) + evs
      invariant FiringGoesOn(rt.cfg, old(rt.State()), due, rt.State(), due[i..], evs)
    {
      var t := due[i].core;
      FiringNext(rt.cfg, old(rt.State()), due, rt.State(), due[i..], evs);
      assert due[i..][1..] == due[i + 1..];
      w.RecordEvent(TimerFired(rt.cfg.node, t.from, t.id));
      var r := rt.DispatchOutgoing(t.from, t.target, t.payload);
      if r.Err? {
        failed := Some(r.error);
        return;
      }
      w.RecordEvent(r.value);
      evs := evs + [TimerFired(rt.cfg.node, t.from, t.id)] + [r.value];
    }
    FiringEnds(rt.cfg, old(rt.State()), due, rt.State(), evs);
  }

  /** Lists the heads of all non-empty inboxes in whatever order the actors come, and picks one. */
  method ChooseDelivery(rt: Runtime) returns (next: Option<PendingDelivery>)
    ensures match LeastReady(rt.actors)
            case None => next == None
            case Some(to) => next == Some(PendingDelivery(rt.cfg.node, to, rt.actors[to].inbox[0].id))
  {
    var pending: seq<PendingDelivery> := [];
    var rest := rt.actors.Keys;
    while rest != {}
      invariant rest <= rt.actors.Keys
      invariant forall d :: d in pending <==> IsCandidate(rt.cfg.node, rt.actors, d) && d.to !in rest
      decreases |rest|
    {
      var a :| a in rest;
      rest := rest - {a};
      if rt.actors[a].inbox != [] {
        pending := pending + [PendingDelivery(rt.cfg.node, a, rt.actors[a].inbox[0].id)];
      }
    }
    ChoosesLeastActor(rt.cfg.node, rt.actors, pending);
    next := ChooseNext(pending);
  }

  /** Fires the due timers, the least id first. */
  method FirePending(rt: Runtime, timers: seq<PendingTimer>, step: U64, w: TraceWriter, injector: FaultInjector)
    returns (failed: Option<Error>, remaining: seq<PendingTimer>)
    requires w.Valid()
    modifies rt`actors, rt`msgCounter, w
    ensures match FireDue(rt.cfg, old(RecState(rt.State(), timers, injector.State())), step)
            case Ok(m) =>
              && failed == None && RecState(rt.State(), remaining, injector.State()) == m.state
              && w.Valid() && w.kinds == old(w.kinds) + m.events
            case Err(e) => failed == Some(e)
  {
    hide StampAll;
    hide SeqNo;
    hide FireAll;
    var due;
    due, remaining := TakeDueTimers(timers, step);
    failed := FireTimers(rt, due, w);
  }

  /** One iteration of the step loop in record mode. */
  method Step(rt: Runtime, injector: FaultInjector, timers: seq<PendingTimer>, step: U64, arrivals: seq<WireEnvelope>, w: TraceWriter)
    returns (failed: Option<Error>, pending: seq<PendingTimer>)
    requires w.Valid()
    modifies rt, injector, w
    ensures match RecordStep(rt.cfg, old(RecState(rt.State(), timers, injector.State())), step, arrivals)
            case Ok(m) =>
              && failed == None && RecState(rt.State(), pending, injector.State()) == m.state
              && w.Valid() && w.kinds == old(w.kinds) + m.events
            case Err(e) => failed == Some(e)
  {
    hide StampAll;
    hide SeqNo;
    hide Drain;
    hide FireDue;
    hide DeliverNext;
    hide PushAll;
    hide RecvEvents;
    DrainNetwork(rt, injector, step, arrivals, w);
    ghost var drained := DrainStep(rt.cfg, old(RecState(rt.State(), timers, injector.State())), step, arrivals);
    assert drained.state == RecState(rt.State(), timers, injector.State());
    assert w.kinds == old(w.kinds) + drained.events;
    failed, pending := FirePending(rt, timers, step, w, injector);
    if failed != None {
      return;
    }
    var more;
    failed, more := DeliverOne(rt, pending, step, w, injector);
    pending := pending + more;
  }

  /** Delivers the chosen message, if there is one. */
  method DeliverOne(rt: Runtime, timers: seq<PendingTimer>, step: U64, w: TraceWriter, injector: FaultInjector)
    returns (failed: Option<Error>, more: seq<PendingTimer>)
    requires w.Valid()
    modifies rt, w
    ensures match DeliverNext(rt.cfg, old(RecState(rt.State(), timers, injector.State())), step)
            case Ok(m) =>
              && failed == None && RecState(rt.State(), timers + more, injector.State()) == m.state
              && w.Valid() && w.kinds == old(w.kinds) + m.events
            case Err(e) => failed == Some(e)
  {
    hide StampAll;
    hide SeqNo;
    hide Handle;
    failed, more := None, [];
    var next := ChooseDelivery(rt);
    if next == None {
      assert timers + [] == timers && w.kinds + [] == w.kinds;
      return;
    }
    var d := next.value;
    w.RecordEvent(EventKind.Deliver(d.node, d.to, d.msgId));
    var emitted;
    failed, emitted, more := rt.Deliver(d.to, None, step, w);
  }

  /** Writes the start-up block: the Spawn events and the bootstrap messages. */
  method Start(cfg: Config, w: TraceWriter) returns (failed: Option<Error>, rt: Runtime)
    requires w.Valid() && w.kinds == []
    modifies w
    ensures fresh(rt) && rt.cfg == cfg
    ensures match Startup(cfg)
            case Ok(boot) => failed == None && rt.State() == boot.sys && w.Valid() && w.kinds == boot.events
            case Err(e) => failed == Some(e)
  {
    hide StampAll;
    hide SeqNo;
    hide Bootstrap;
    failed := None;
    rt := new Runtime(cfg);
    if cfg.program.services == [] {
      failed := Some(UnknownService(""));
      return;
    }
    var entry := if "Gateway" in cfg.actorOf then "Gateway" else cfg.program.services[0];
    if entry !in cfg.actorOf {
      failed := Some(UnknownService(entry));
      return;
    }
    w.RecordEvent(Spawn(cfg.node, cfg.systemActor, "System"));
    for i := 0 to |cfg.program.services|
      modifies w
      invariant w.Valid() && w.kinds == SpawnEvents(cfg, i)
    {
      var s := cfg.program.services[i];
      if s in cfg.actorOf {
        w.RecordEvent(Spawn(cfg.node, cfg.actorOf[s], s));
      }
    }
    ghost var spawned := w.kinds;
    var events;
    failed, events := rt.EnqueueBootstrap(entry, w);
  }

  lemma {:induction false} RecordStepsFail(cfg: Config, r: RecState, arrivals: seq<seq<WireEnvelope>>, n: nat, total: nat)
    requires n <= total <= |arrivals| <= U64_MAX && RecordSteps(cfg, r, arrivals, n).Err?
    ensures RecordSteps(cfg, r, arrivals, total) == RecordSteps(cfg, r, arrivals, n)
  {
    hide RecordStep;
    if n < total { RecordStepsFail(cfg, r, arrivals, n, total - 1); }
  }

  /** A record run: `arrivals[k]` is what the inbound channel yields during step k. It ends in the state,
      and writes the trace, of the specified run, or fails with its error. */
  method RunRecord(cfg: Config, settings: Settings, arrivals: seq<seq<WireEnvelope>>)
    returns (failed: Option<Error>, rt: Runtime, injector: FaultInjector, pending: seq<PendingTimer>, w: TraceWriter)
    requires |arrivals| <= U64_MAX
    ensures match Record(cfg, settings, arrivals)
            case Ok(m) =>
              && failed == None && RecState(rt.State(), pending, injector.State()) == m.state
              && w.file == StampAll(m.events)
            case Err(e) => failed == Some(e)
  {
    hide StampAll;
    hide SeqNo;
    hide RecordStep;
    w := new TraceWriter();
    injector := new FaultInjector(settings);
    pending := [];
    failed, rt := Start(cfg, w);
    if failed != None {
      return;
    }
    ghost var boot := Startup(cfg).value;
    ghost var r0 := RecState(boot.sys, [], NewInjector(settings));
    for step := 0 to |arrivals|
      modifies rt, injector, w
      invariant failed == None && w.Valid()
      invariant var m := RecordSteps(cfg, r0, arrivals, step);
                m.Ok? && m.value.state == RecState(rt.State(), pending, injector.State()) && w.kinds == boot.events + m.value.events
    {
      failed, pending := Step(rt, injector, pending, step, arrivals[step], w);
      if failed != None {
        RecordStepsFail(cfg, r0, arrivals, step + 1, |arrivals|);
        return;
      }
    }
  }
}
