/** What a node starts with, and what its first delivery is. */
module StartupMeaning {
  import opened Base
  import opened Events
  import opened Lang
  import opened Decimal
  import opened Interp
  import opened ActionMeaning
  import opened Faults
  import opened InjectorSpec
  import opened InjectorProps
  import opened Node
  import opened RecordSpec
  import opened RecordReplay
  import opened DeliveryMeaning
  import opened HonestNode

  /** The service that gets the start messages: Gateway, or the first one if there is no Gateway. */
  predicate IsEntry(cfg: Config, service: string) {
    if "Gateway" in cfg.program.services then service == "Gateway"
    else cfg.program.services != [] && service == cfg.program.services[0]
  }

  /** The i-th start message: a root of this node's system, numbered from one. */
  function StartMessage(cfg: Config, i: nat): RuntimeMessage {
    var id := Canonical((cfg.node + 1 + i) % UUID_COUNT);
    RuntimeMessage("start", Canonical(cfg.node), "System", "bootstrap #" + PrintNat(i + 1),
                   Some(Provenance(Canonical(cfg.node), "System", id, Canonical(cfg.node), id, 0)))
  }

  function StartEntry(cfg: Config, i: nat): Entry {
    Entry((cfg.node + 1 + i) % UUID_COUNT, Message(StartMessage(cfg, i)))
  }

  function StartCount(cfg: Config): U64 {
    if cfg.bootstrapHello then cfg.bootstrapBurst else 1
  }

  lemma FirstTexts(cfg: Config)
    ensures StartMessage(cfg, 0).text == "bootstrap #1" && StartMessage(cfg, 1).text == "bootstrap #2"
  {
    assert PrintNat(1) == "1" && PrintNat(2) == "2";
  }

  /** Each service has one actor, with the service's name and initial store; only the entry service's
      inbox holds anything, the first `n` start messages. */
  ghost predicate Started(cfg: Config, actors: map<Uuid, Actor>, entry: string, n: nat) {
    && actors.Keys == cfg.actorOf.Values
    && (forall s :: s in cfg.actorOf ==>
          && s in cfg.program.initialState && cfg.actorOf[s] in actors
          && actors[cfg.actorOf[s]].service == s && actors[cfg.actorOf[s]].store == cfg.program.initialState[s])
    && (forall a :: a in actors && (entry !in cfg.actorOf || a != cfg.actorOf[entry]) ==> actors[a].inbox == [])
    && (entry in cfg.actorOf && cfg.actorOf[entry] in actors ==>
          && |actors[cfg.actorOf[entry]].inbox| == n
          && forall i :: 0 <= i < n ==> actors[cfg.actorOf[entry]].inbox[i] == StartEntry(cfg, i))
  }

  lemma LoadedNames(cfg: Config)
    requires ValidConfig(cfg)
    ensures cfg.program.services != [] && cfg.program.initialState.Keys == cfg.actorOf.Keys
    ensures forall s :: s in cfg.actorOf <==> s in cfg.program.services
  {
  }

  /** The i-th service's actor. */
  lemma {:induction false} ActorBuilt(cfg: Config, n: nat, i: nat)
    requires ValidConfig(cfg) && i < n <= |cfg.program.services|
    ensures var s := cfg.program.services[i];
            && s in cfg.actorOf && s in cfg.program.initialState && cfg.actorOf[s] in BuildActors(cfg, n)
            && BuildActors(cfg, n)[cfg.actorOf[s]] == Actor(s, cfg.program.initialState[s], [])
  {
    hide ValidConfig;
    hide ActorIds;
    NewActor(cfg, n);
    if i < n - 1 {
      ActorBuilt(cfg, n - 1, i);
      BuiltActors(cfg, n - 1);
    }
  }

  lemma NothingStarted(cfg: Config, entry: string)
    requires ValidConfig(cfg)
    ensures Started(cfg, BuildActors(cfg, |cfg.program.services|), entry, 0)
  {
    hide ValidConfig;
    hide BuildActors;
    var n := |cfg.program.services|;
    var actors := BuildActors(cfg, n);
    LoadedNames(cfg);
    BuiltActors(cfg, n);
    forall s | s in cfg.actorOf
      ensures cfg.actorOf[s] in actors && actors[cfg.actorOf[s]] == Actor(s, cfg.program.initialState[s], [])
    {
      var i :| 0 <= i < n && cfg.program.services[i] == s;
      ActorBuilt(cfg, n, i);
    }
    forall a | a in actors ensures a in cfg.actorOf.Values {
      assert a in ActorIds(cfg, n);
    }
  }

  /** The events of the start messages, in order. */
  ghost predicate SendStarts(cfg: Config, evs: seq<EventKind>, entry: string) {
    forall i :: 0 <= i < |evs| ==>
      entry in cfg.actorOf && evs[i] == Send(cfg.systemActor, cfg.actorOf[entry], StartEntry(cfg, i).id, StartEntry(cfg, i).payload)
  }

  lemma {:induction false} BootstrapMeans(cfg: Config, entry: string, n: nat, b: Boot)
    requires ValidConfig(cfg) && entry in cfg.actorOf && n <= U64_MAX && |cfg.program.services| > 0 && Bootstrap(cfg, cfg.actorOf[entry], n) == Ok(b)
    ensures Started(cfg, b.sys.actors, entry, n)
    ensures b.sys.msgCounter == (if n < U64_MAX then n + 1 else U64_MAX) && b.sys.timerCounter == 1
    ensures |b.events| == n && SendStarts(cfg, b.events, entry)
  {
    hide ValidConfig;
    hide Started;
    hide SendStarts;
    hide BootstrapMessage;
    hide StartEntry;
    hide MsgId;
    if n == 0 {
      NothingStarted(cfg, entry);
      assert SendStarts(cfg, [], entry) by { NothingSent(cfg, entry); }
    } else {
      var before := Bootstrap(cfg, cfg.actorOf[entry], n - 1).value;
      BootstrapMeans(cfg, entry, n - 1, before);
      StartEntryIs(cfg, n);
      PushStart(cfg, before.sys.actors, entry, n - 1);
      OneMoreStart(cfg, before.events, entry);
    }
  }

  lemma NothingSent(cfg: Config, entry: string)
    ensures SendStarts(cfg, [], entry)
  {
  }

  lemma OneMoreStart(cfg: Config, evs: seq<EventKind>, entry: string)
    requires SendStarts(cfg, evs, entry) && entry in cfg.actorOf
    ensures SendStarts(cfg, evs + [Send(cfg.systemActor, cfg.actorOf[entry], StartEntry(cfg, |evs|).id, StartEntry(cfg, |evs|).payload)], entry)
  {
    hide StartEntry;
  }

  lemma StartEntryIs(cfg: Config, n: U64)
    requires n > 0
    ensures StartEntry(cfg, n - 1) == Entry(MsgId(cfg.node, n), BootstrapMessage(cfg, MsgId(cfg.node, n), n - 1))
  {
    hide PrintNat;
  }

  lemma PushStart(cfg: Config, actors: map<Uuid, Actor>, entry: string, n: nat)
    requires entry in cfg.actorOf && Started(cfg, actors, entry, n)
    ensures Started(cfg, Push(actors, cfg.actorOf[entry], StartEntry(cfg, n)), entry, n + 1)
  {
    hide StartEntry;
  }

  lemma {:induction false} SpawnsMean(cfg: Config, n: nat)
    requires ValidConfig(cfg) && n <= |cfg.program.services|
    ensures |SpawnEvents(cfg, n)| == n + 1 && SpawnEvents(cfg, n)[0] == Spawn(cfg.node, cfg.systemActor, "System")
    ensures forall i :: 0 <= i < n ==>
              cfg.program.services[i] in cfg.actorOf
              && SpawnEvents(cfg, n)[1 + i] == Spawn(cfg.node, cfg.actorOf[cfg.program.services[i]], cfg.program.services[i])
  {
    hide ValidConfig;
    LoadedNames(cfg);
    if n > 0 { SpawnsMean(cfg, n - 1); }
  }

  /** Start-up: the system actor and then each service is announced, in the program's order; the entry
      service has the configured number of start messages waiting, each announced as sent by the
      system actor, and no other actor has any; the counters go on from there. */
  lemma StartupMeans(cfg: Config, boot: Boot, entry: string)
    requires ValidConfig(cfg) && Startup(cfg) == Ok(boot) && IsEntry(cfg, entry)
    ensures entry in cfg.actorOf && Started(cfg, boot.sys.actors, entry, StartCount(cfg))
    ensures boot.sys.msgCounter == (if StartCount(cfg) < U64_MAX then StartCount(cfg) + 1 else U64_MAX) && boot.sys.timerCounter == 1
    ensures var all := |cfg.program.services|;
            && |boot.events| == 1 + all + StartCount(cfg)
            && boot.events[0] == Spawn(cfg.node, cfg.systemActor, "System")
            && (forall i :: 0 <= i < all ==>
                  cfg.program.services[i] in cfg.actorOf
                  && boot.events[1 + i] == Spawn(cfg.node, cfg.actorOf[cfg.program.services[i]], cfg.program.services[i]))
            && SendStarts(cfg, boot.events[1 + all..], entry)
  {
    hide ValidConfig;
    hide Bootstrap;
    hide Started;
    hide SendStarts;
    hide SpawnEvents;
    LoadedNames(cfg);
    SpawnsMean(cfg, |cfg.program.services|);
    var b := Bootstrap(cfg, cfg.actorOf[entry], StartCount(cfg)).value;
    BootstrapMeans(cfg, entry, StartCount(cfg), b);
    var spawns := SpawnEvents(cfg, |cfg.program.services|);
    assert boot.events == spawns + b.events && boot.events[|spawns|..] == b.events;
  }

  // ---- the first delivery ----

  /** A delivery to this service of a message of this type is what these events begin with, and the
      handler for it is what ran. */
  ghost predicate Runs(cfg: Config, before: Sys, entry: string, e: Entry, delivered: seq<EventKind>, after: Sys) {
    && entry in cfg.actorOf && cfg.actorOf[entry] in before.actors && cfg.actorOf[entry] in after.actors && e.payload.Message?
    && var to := cfg.actorOf[entry];
       var x := ExecHandler(cfg, Call(entry, e.id, e.payload.msg), before.actors[to].store);
       && |delivered| >= 2 && delivered[0] == Deliver(cfg.node, to, e.id)
       && delivered[1].EffectObserved? && delivered[1].actor == to && delivered[1].service == entry
       && delivered[1].msgType == e.payload.msg.msgType && delivered[1].msgId == e.id
       && x.Ok? && after.actors[to].store == x.value.exec.store
  }

  lemma QuietDrain(inj: Injector, node: Uuid, step: U64, arrivals: seq<WireEnvelope>)
    requires Settled(inj) && inj.pending == [] && Own(node, arrivals) == []
    ensures Drain(inj, node, step, arrivals).released == []
  {
    hide Drain;
    hide PolicyForStep;
    DrainClosedForm(inj, node, step, arrivals);
    assert Entering(inj, node, step, arrivals) == [];
  }

  /** Without inbound traffic the first step of a run delivers the first start message to the entry
      service: its handler for "start" runs on the service's initial store. */
  lemma FirstDelivery(cfg: Config, settings: Settings, boot: Boot, entry: string, arrivals: seq<WireEnvelope>, m: RecMove)
    returns (network: seq<EventKind>, delivered: seq<EventKind>)
    requires ValidConfig(cfg) && Startup(cfg) == Ok(boot) && IsEntry(cfg, entry) && Own(cfg.node, arrivals) == []
    requires RecordStep(cfg, RecState(boot.sys, [], NewInjector(settings)), 0, arrivals) == Ok(m)
    ensures m.events == network + delivered && forall ev :: ev in network ==> FromNetwork(ev)
    ensures entry in cfg.actorOf && entry in cfg.program.initialState
    ensures Runs(cfg, boot.sys, entry, StartEntry(cfg, 0), delivered, m.state.sys)
    ensures boot.sys.actors[cfg.actorOf[entry]].store == cfg.program.initialState[entry]
  {
    hide ValidConfig;
    hide Startup;
    hide Handle;
    hide PrintNat;
    hide Started;
    hide StepDelivery;
    hide Runs;
    hide RecordStep;
    hide StartEntry;
    hide SendStarts;
    hide StartCount;
    var r := RecState(boot.sys, [], NewInjector(settings));
    StartupMeans(cfg, boot, entry);
    StartCountPositive(cfg);
    StartedEntry(cfg, boot.sys.actors, entry);
    var to := cfg.actorOf[entry];
    var p := Pop(boot.sys, to).value;
    FirstIsEntry(cfg, settings, boot, entry, arrivals, p);
    var fired;
    network, fired, delivered := StepParts(cfg, r, 0, arrivals, m);
    assert network + [] == network && fired == [];
    DeliveryRuns(cfg, boot.sys, entry, p, Handle(cfg, p.sys, to, p.entry).value);
  }

  lemma DeliveryRuns(cfg: Config, s: Sys, entry: string, p: Popped, h: Effects)
    requires entry in cfg.actorOf && Pop(s, cfg.actorOf[entry]) == Ok(p) && s.actors[cfg.actorOf[entry]].service == entry
    requires Handle(cfg, p.sys, cfg.actorOf[entry], p.entry) == Ok(h)
    ensures Runs(cfg, s, entry, p.entry, [Deliver(cfg.node, cfg.actorOf[entry], p.entry.id)] + h.emitted, h.sys)
  {
    hide Handle;
    hide ExecHandler;
    hide EffectSeq;
    hide AtOnce;
    DeliveryMeans(cfg, p.sys, cfg.actorOf[entry], p.entry, h);
  }

  lemma FirstIsEntry(cfg: Config, settings: Settings, boot: Boot, entry: string, arrivals: seq<WireEnvelope>, p: Popped)
    requires ValidConfig(cfg) && entry in cfg.actorOf && Started(cfg, boot.sys.actors, entry, StartCount(cfg)) && Own(cfg.node, arrivals) == []
    requires Pop(boot.sys, cfg.actorOf[entry]) == Ok(p)
    ensures StepDelivery(cfg, RecState(boot.sys, [], NewInjector(settings)), 0, arrivals) == Some(Delivery(cfg.actorOf[entry], p.entry, p.sys))
  {
    hide ValidConfig;
    hide Started;
    hide Drain;
    hide PolicyForStep;
    hide Pop;
    OnlyEntryReady(cfg, boot.sys.actors, entry);
    QuietDrain(NewInjector(settings), cfg.node, 0, arrivals);
  }

  lemma StartedEntry(cfg: Config, actors: map<Uuid, Actor>, entry: string)
    requires entry in cfg.actorOf && Started(cfg, actors, entry, StartCount(cfg)) && StartCount(cfg) >= 1
    ensures entry in cfg.program.initialState && cfg.actorOf[entry] in actors
    ensures var a := actors[cfg.actorOf[entry]];
            a.service == entry && a.store == cfg.program.initialState[entry] && a.inbox != [] && a.inbox[0] == StartEntry(cfg, 0)
  {
  }

  lemma OnlyEntryReady(cfg: Config, actors: map<Uuid, Actor>, entry: string)
    requires ValidConfig(cfg) && entry in cfg.actorOf && Started(cfg, actors, entry, StartCount(cfg))
    ensures LeastReady(actors) == Some(cfg.actorOf[entry])
    ensures actors[cfg.actorOf[entry]].inbox != [] && actors[cfg.actorOf[entry]].inbox[0] == StartEntry(cfg, 0)
  {
    StartCountPositive(cfg);
    assert actors[cfg.actorOf[entry]].inbox != [];
    assert !InboxesEmpty(actors);
  }

  lemma StartCountPositive(cfg: Config)
    requires ValidConfig(cfg)
    ensures StartCount(cfg) >= 1
  {
  }
}
