/** Record runs of loaded programs do not go wrong: at every step every message that is sent, at once
    or from a timer, finds its service and its actor. */
module RunSound {
  import opened Base
  import opened Sorting
  import opened Events
  import opened Lang
  import opened Interp
  import opened Faults
  import opened InjectorSpec
  import opened InjectorProps
  import opened Node
  import opened RecordSpec
  import opened RecordReplay
  import opened LangSound
  import opened HonestNode
  import opened RecordVerified

  ghost predicate InboxesRead(actors: map<Uuid, Actor>) {
    forall a :: a in actors ==> forall e :: e in actors[a].inbox ==> e.payload.Message?
  }

  /** Every service has its actor with the declared state; if `clean`, all inboxes can be decoded. */
  ghost predicate ActorsSound(cfg: Config, actors: map<Uuid, Actor>, clean: bool) {
    ActorsOk(cfg, actors) && (clean ==> InboxesRead(actors))
  }

  /** Pending timers send decodable messages to services of the program. */
  ghost predicate TimersSound(cfg: Config, ts: seq<PendingTimer>) {
    forall t :: t in ts ==> t.core.target.service in cfg.actorOf && t.core.payload.Message?
  }

  ghost predicate RunOk(cfg: Config, r: RecState, clean: bool) {
    ActorsSound(cfg, r.sys.actors, clean) && TimersSound(cfg, r.timers)
  }

  /** The only errors of a run: a counter leaves the 64-bit range, or, if something undecodable may
      have arrived, a message does not decode. */
  predicate GoesRight<T>(r: Result<T>, clean: bool) {
    r.Err? ==> r.error.StateOverflow? || (!clean && r.error.UndecodablePayload?)
  }

  // ---- dispatch ----

  lemma PushSound(cfg: Config, actors: map<Uuid, Actor>, to: Uuid, e: Entry, clean: bool)
    requires ActorsSound(cfg, actors, clean) && (clean ==> e.payload.Message?)
    ensures ActorsSound(cfg, Push(actors, to, e), clean)
  {
  }

  lemma DispatchSound(cfg: Config, s: Sys, from: Uuid, target: Target, p: Payload, clean: bool)
    requires ActorsSound(cfg, s.actors, clean) && target.service in cfg.actorOf && p.Message?
    ensures Dispatch(cfg, s, from, target, p).Ok?
    ensures ActorsSound(cfg, Dispatch(cfg, s, from, target, p).value.0.actors, clean)
  {
    hide InboxesRead;
    PushSound(cfg, s.actors, cfg.actorOf[target.service], Entry(MsgId(cfg.node, s.msgCounter), p), clean);
  }

  /** Firing timers never fails: each finds the service it was made for. */
  lemma {:induction false} FireAllSound(cfg: Config, s: Sys, due: seq<PendingTimer>, clean: bool)
    requires ActorsSound(cfg, s.actors, clean) && TimersSound(cfg, due)
    ensures FireAll(cfg, s, due).Ok?
    ensures ActorsSound(cfg, FireAll(cfg, s, due).value.sys.actors, clean)
    decreases |due|
  {
    hide Dispatch;
    hide ActorsSound;
    if due != [] {
      var t := due[0].core;
      assert due[0] in due;
      DispatchSound(cfg, s, t.from, t.target, t.payload, clean);
      FireAllSound(cfg, Dispatch(cfg, s, t.from, t.target, t.payload).value.0, due[1..], clean);
    }
  }

  ghost predicate OutboxSound(cfg: Config, outbox: seq<Outgoing>) {
    forall o :: o in outbox ==> o.target.service in cfg.actorOf && o.payload.Message?
  }

  ghost predicate NewTimersSound(cfg: Config, ts: seq<NewTimer>) {
    forall t :: t in ts ==> t.core.target.service in cfg.actorOf && t.core.payload.Message?
  }

  lemma {:induction false} OutboxServed(cfg: Config, s: Sys, from: Uuid, outbox: seq<Outgoing>, clean: bool)
    requires ActorsSound(cfg, s.actors, clean) && OutboxSound(cfg, outbox)
    ensures ProcessOutbox(cfg, s, from, outbox).Ok?
    ensures ActorsSound(cfg, ProcessOutbox(cfg, s, from, outbox).value.sys.actors, clean)
    ensures NewTimersSound(cfg, ProcessOutbox(cfg, s, from, outbox).value.timers)
    decreases |outbox|
  {
    hide Dispatch;
    hide ActorsSound;
    if outbox != [] {
      assert outbox[0] in outbox;
      if outbox[0].delaySteps > 0 {
        OutboxServed(cfg, s.(timerCounter := SatAdd(s.timerCounter, 1)), from, outbox[1..], clean);
      } else {
        DispatchSound(cfg, s, from, outbox[0].target, outbox[0].payload, clean);
        OutboxServed(cfg, Dispatch(cfg, s, from, outbox[0].target, outbox[0].payload).value.0, from, outbox[1..], clean);
      }
    }
  }

  // ---- one delivery ----

  lemma StoreSound(cfg: Config, actors: map<Uuid, Actor>, to: Uuid, store: Store, clean: bool)
    requires ActorsSound(cfg, actors, clean) && to in actors && store.Keys == actors[to].store.Keys
    ensures ActorsSound(cfg, actors[to := actors[to].(store := store)], clean)
  {
  }

  lemma HandlerOutbox(cfg: Config, call: Call, store: Store, run: HandlerRun)
    requires ValidConfig(cfg)
    requires call.service in cfg.program.initialState && store.Keys == cfg.program.initialState[call.service].Keys
    requires ExecHandler(cfg, call, store) == Ok(run)
    ensures run.exec.store.Keys == store.Keys && OutboxSound(cfg, run.exec.outbox)
  {
    hide ExecHandler;
    hide Loaded;
    HandlerSends(cfg, call, store, run);
  }

  /** Delivering a decodable message to any actor of a loaded program fails only on overflow, its outbox
      included, and the timers it asks for have services to send to. */
  lemma HandlingSucceeds(cfg: Config, s: Sys, to: Uuid, e: Entry, clean: bool)
    requires ValidConfig(cfg) && ActorsSound(cfg, s.actors, clean) && to in s.actors && (clean ==> e.payload.Message?)
    ensures GoesRight(Handle(cfg, s, to, e), clean) && (e.payload.Message? ==> OnlyOverflow(Handle(cfg, s, to, e)))
    ensures Handle(cfg, s, to, e).Ok? ==>
              var h := Handle(cfg, s, to, e).value;
              ActorsSound(cfg, h.sys.actors, clean) && NewTimersSound(cfg, h.timers)
  {
    hide ExecHandler;
    hide Loaded;
    hide ProcessOutbox;
    hide EffectSeq;
    hide InboxesRead;
    hide NewTimersSound;
    hide OutboxSound;
    if e.payload.Message? {
      var a := s.actors[to];
      var call := Call(a.service, e.id, e.payload.msg);
      LoadedHandlersSound(cfg, call, a.store);
      if ExecHandler(cfg, call, a.store).Ok? {
        var run := ExecHandler(cfg, call, a.store).value;
        HandlerOutbox(cfg, call, a.store, run);
        StoreSound(cfg, s.actors, to, run.exec.store, clean);
        OutboxServed(cfg, s.(actors := s.actors[to := a.(store := run.exec.store)]), to, run.exec.outbox, clean);
      }
    }
  }

  lemma PopSound(cfg: Config, s: Sys, to: Uuid, clean: bool)
    requires ActorsSound(cfg, s.actors, clean) && to in s.actors && s.actors[to].inbox != []
    ensures Pop(s, to).Ok?
    ensures var p := Pop(s, to).value;
            to in p.sys.actors && ActorsSound(cfg, p.sys.actors, clean) && (clean ==> p.entry.payload.Message?)
  {
  }

  lemma {:induction false} ScheduleSound(cfg: Config, ts: seq<NewTimer>, step: U64)
    requires NewTimersSound(cfg, ts)
    ensures TimersSound(cfg, Schedule(ts, step))
  {
    if ts != [] {
      assert ts[0] in ts;
      ScheduleSound(cfg, ts[1..], step);
    }
  }

  lemma DeliverSound(cfg: Config, r: RecState, step: U64, clean: bool)
    requires ValidConfig(cfg) && RunOk(cfg, r, clean)
    ensures GoesRight(DeliverNext(cfg, r, step), clean)
    ensures DeliverNext(cfg, r, step).Ok? ==> RunOk(cfg, DeliverNext(cfg, r, step).value.state, clean)
  {
    hide ValidConfig;
    hide Handle;
    hide Pop;
    hide ActorsSound;
    hide NewTimersSound;
    if LeastReady(r.sys.actors).Some? {
      var to := LeastReady(r.sys.actors).value;
      PopSound(cfg, r.sys, to, clean);
      var p := Pop(r.sys, to).value;
      HandlingSucceeds(cfg, p.sys, to, p.entry, clean);
      if Handle(cfg, p.sys, to, p.entry).Ok? {
        ScheduleSound(cfg, Handle(cfg, p.sys, to, p.entry).value.timers, step);
      }
    }
  }

  // ---- one step ----

  lemma DueSound(cfg: Config, ts: seq<PendingTimer>, step: U64)
    requires TimersSound(cfg, ts)
    ensures TimersSound(cfg, SortBy(TimerKey, Due(ts, step))) && TimersSound(cfg, NotDue(ts, step))
  {
    PartsSound(cfg, ts, step);
    SortByMultiset(TimerKey, Due(ts, step));
    forall t | t in SortBy(TimerKey, Due(ts, step)) ensures t in Due(ts, step) {
      assert t in multiset(SortBy(TimerKey, Due(ts, step)));
    }
  }

  lemma {:induction false} PartsSound(cfg: Config, ts: seq<PendingTimer>, step: U64)
    requires TimersSound(cfg, ts)
    ensures TimersSound(cfg, Due(ts, step)) && TimersSound(cfg, NotDue(ts, step))
  {
    if ts != [] {
      assert ts[0] in ts;
      PartsSound(cfg, ts[1..], step);
    }
  }

  lemma FireSound(cfg: Config, r: RecState, step: U64, clean: bool)
    requires RunOk(cfg, r, clean)
    ensures FireDue(cfg, r, step).Ok? && RunOk(cfg, FireDue(cfg, r, step).value.state, clean)
  {
    hide ActorsSound;
    hide TimersSound;
    hide FireAll;
    hide SortBy;
    hide Due;
    hide NotDue;
    DueSound(cfg, r.timers, step);
    FireAllSound(cfg, r.sys, SortBy(TimerKey, Due(r.timers, step)), clean);
  }

  ghost predicate AllDecode(envs: seq<WireEnvelope>) {
    forall e :: e in envs ==> e.payload.Message?
  }

  lemma {:induction false} PushAllSound(cfg: Config, actors: map<Uuid, Actor>, envs: seq<WireEnvelope>, clean: bool)
    requires ActorsSound(cfg, actors, clean) && (clean ==> AllDecode(envs))
    ensures ActorsSound(cfg, PushAll(actors, envs), clean)
    decreases |envs|
  {
    hide ActorsSound;
    hide Push;
    if envs != [] {
      if clean { assert envs[0] in envs; }
      PushSound(cfg, actors, envs[0].toActor, Entry(envs[0].msgId, envs[0].payload), clean);
      PushAllSound(cfg, Push(actors, envs[0].toActor, Entry(envs[0].msgId, envs[0].payload)), envs[1..], clean);
    }
  }

  /** A step fails only on overflow or on what the network brought in undecodable, and leaves a state
      from which the same is true. */
  lemma StepSound(cfg: Config, r: RecState, step: U64, arrivals: seq<WireEnvelope>, clean: bool)
    requires ValidConfig(cfg) && RunOk(cfg, r, clean)
    requires clean ==> AllDecode(Drain(r.inj, cfg.node, step, arrivals).released)
    ensures GoesRight(RecordStep(cfg, r, step, arrivals), clean)
    ensures RecordStep(cfg, r, step, arrivals).Ok? ==> RunOk(cfg, RecordStep(cfg, r, step, arrivals).value.state, clean)
  {
    hide ValidConfig;
    hide Drain;
    hide ActorsSound;
    hide TimersSound;
    hide AllDecode;
    hide FireDue;
    hide DeliverNext;
    PushAllSound(cfg, r.sys.actors, Drain(r.inj, cfg.node, step, arrivals).released, clean);
    var d := DrainStep(cfg, r, step, arrivals).state;
    FireSound(cfg, d, step, clean);
    DeliverSound(cfg, FireDue(cfg, d, step).value.state, step, clean);
  }

  // ---- whole runs ----

  lemma ReleasedDecode(settings: Settings, node: Uuid, arrivals: seq<seq<WireEnvelope>>, n: nat)
    requires 0 < n <= |arrivals| <= U64_MAX && AllDecode(Accepted(node, arrivals, n))
    ensures AllDecode(ReleasedDuring(settings, node, arrivals, n - 1)) && AllDecode(Accepted(node, arrivals, n - 1))
  {
    hide ReleasedDuring;
    hide Accepted;
    ReleasedWereAccepted(settings, node, arrivals, n);
  }

  /** The first `n` steps of a run of a loaded program fail only when a counter leaves the 64-bit range,
      or on an envelope that did not decode if one was accepted; at every step all services have
      their actors, and all pending timers a service to send to. */
  lemma {:induction false} StepsSound(cfg: Config, settings: Settings, r0: RecState, arrivals: seq<seq<WireEnvelope>>, n: nat, clean: bool)
    requires ValidConfig(cfg) && n <= |arrivals| <= U64_MAX && r0.inj == NewInjector(settings) && RunOk(cfg, r0, clean)
    requires clean ==> AllDecode(Accepted(cfg.node, arrivals, n))
    ensures GoesRight(RecordSteps(cfg, r0, arrivals, n), clean)
    ensures RecordSteps(cfg, r0, arrivals, n).Ok? ==> RunOk(cfg, RecordSteps(cfg, r0, arrivals, n).value.state, clean)
  {
    hide ValidConfig;
    hide RecordStep;
    hide RunOk;
    hide AllDecode;
    hide Accepted;
    hide Drain;
    hide PolicyForStep;
    hide ReleasedBefore;
    hide InjectorAt;
    hide RunEvents;
    hide HoldsOwn;
    if n > 0 {
      if clean { ReleasedDecode(settings, cfg.node, arrivals, n); }
      StepsSound(cfg, settings, r0, arrivals, n - 1, clean);
      if RecordSteps(cfg, r0, arrivals, n - 1).Ok? {
        var before := RecordSteps(cfg, r0, arrivals, n - 1).value;
        RecordInjector(cfg, r0, settings, arrivals, n - 1, before);
        StepSound(cfg, before.state, n - 1, arrivals[n - 1], clean);
      }
    }
  }

  lemma {:induction false} BootstrapSound(cfg: Config, entry: Uuid, n: nat)
    requires ValidConfig(cfg) && entry in cfg.actorOf.Values
    ensures Bootstrap(cfg, entry, n).Ok? && ActorsSound(cfg, Bootstrap(cfg, entry, n).value.sys.actors, true)
  {
    hide Loaded;
    hide Push;
    if n == 0 {
      AllServicesRun(cfg);
    } else {
      BootstrapSound(cfg, entry, n - 1);
      var s := Bootstrap(cfg, entry, n - 1).value.sys;
      var id := MsgId(cfg.node, s.msgCounter);
      PushSound(cfg, s.actors, entry, Entry(id, BootstrapMessage(cfg, id, n - 1)), true);
    }
  }

  /** A loaded program always starts. */
  lemma StartupSound(cfg: Config)
    requires ValidConfig(cfg)
    ensures Startup(cfg).Ok? && ActorsSound(cfg, Startup(cfg).value.sys.actors, true)
  {
    hide Loaded;
    hide Bootstrap;
    hide ActorsSound;
    assert cfg.program.services[0] in ServiceNames(cfg.program.services);
    BootstrapSound(cfg, cfg.actorOf[EntryService(cfg)], BootstrapCount(cfg));
  }

  /** Loaded programs do not go wrong: a record run of any length, under any fault policies and with
      any inbound traffic, fails only when a counter leaves the 64-bit range, or on an accepted
      envelope that does not decode. No send and no timer ever misses its service or its actor. */
  lemma LoadedProgramsRun(cfg: Config, settings: Settings, arrivals: seq<seq<WireEnvelope>>)
    requires ValidConfig(cfg) && |arrivals| <= U64_MAX
    ensures var clean := AllDecode(Accepted(cfg.node, arrivals, |arrivals|));
            && GoesRight(Record(cfg, settings, arrivals), clean)
            && (Record(cfg, settings, arrivals).Ok? ==> RunOk(cfg, Record(cfg, settings, arrivals).value.state, clean))
  {
    hide ValidConfig;
    hide Startup;
    hide RecordSteps;
    hide AllDecode;
    hide Accepted;
    StartupSound(cfg);
    var r0 := RecState(Startup(cfg).value.sys, [], NewInjector(settings));
    StepsSound(cfg, settings, r0, arrivals, |arrivals|, AllDecode(Accepted(cfg.node, arrivals, |arrivals|)));
  }
}
