/** One node: its actors, message ids and timers, and the machine that the input events of a trace
    drive. Record and replay runs share the delivery, dispatch and start-up code modelled here. */
module Node {
  import opened Base
  import opened Events
  import opened Lang
  import opened Interp
  import opened Decimal

  datatype Entry = Entry(id: Uuid, payload: Payload)
  datatype Actor = Actor(service: string, store: Store, inbox: seq<Entry>)

  datatype Sys = Sys(actors: map<Uuid, Actor>, msgCounter: U64, timerCounter: U64)

  /** A pending timer without its due step. */
  datatype TimerCore = TimerCore(id: Uuid, from: Uuid, target: Target, payload: Payload)

  /** A timer a handler asked for, and after how many steps. */
  datatype NewTimer = NewTimer(core: TimerCore, delay: U64)

  function Cores(ts: seq<NewTimer>): (r: seq<TimerCore>)
    ensures |r| == |ts|
  {
    if ts == [] then [] else [ts[0].core] + Cores(ts[1..])
  }

  /** Appends a message to a known actor's inbox; messages to unknown actors are discarded. */
  function Push(actors: map<Uuid, Actor>, to: Uuid, e: Entry): map<Uuid, Actor> {
    if to in actors then actors[to := actors[to].(inbox := actors[to].inbox + [e])] else actors
  }

  function Dispatch(cfg: Config, s: Sys, from: Uuid, target: Target, payload: Payload): Result<(Sys, EventKind)> {
    if target.service !in cfg.actorOf then Err(UnknownService(target.service))
    else
      var to := cfg.actorOf[target.service];
      var id := MsgId(cfg.node, s.msgCounter);
      var s' := s.(msgCounter := SatAdd(s.msgCounter, 1));
      match target
      case LocalService(_) =>
        if to !in s.actors then Err(ActorMissing(to))
        else Ok((s'.(actors := Push(s.actors, to, Entry(id, payload))), Send(from, to, id, payload)))
      case RemoteService(node, _) =>
        Ok((s', NetSend(cfg.node, node, from, id, payload)))
  }

  datatype Effects = Effects(sys: Sys, emitted: seq<EventKind>, timers: seq<NewTimer>)

  /** The outbox of one handler run, in order: delayed sends become timers, the others go out. */
  function ProcessOutbox(cfg: Config, s: Sys, from: Uuid, outbox: seq<Outgoing>): Result<Effects>
    decreases |outbox|
  {
    if outbox == [] then Ok(Effects(s, [], []))
    else
      var out := outbox[0];
      if out.delaySteps > 0 then
        var t := NewTimer(TimerCore(TimerId(cfg.node, s.timerCounter), from, out.target, out.payload), out.delaySteps);
        var rest :- ProcessOutbox(cfg, s.(timerCounter := SatAdd(s.timerCounter, 1)), from, outbox[1..]);
        Ok(rest.(timers := [t] + rest.timers))
      else
        var (s1, ev) :- Dispatch(cfg, s, from, out.target, out.payload);
        var rest :- ProcessOutbox(cfg, s1, from, outbox[1..]);
        Ok(rest.(emitted := [ev] + rest.emitted))
  }

  function LogEvents(node: Uuid, from: Uuid, logs: seq<LogEmission>): (r: seq<EventKind>)
    ensures |r| == |logs|
  {
    if logs == [] then []
    else [LogLine(node, from, logs[0].service, logs[0].text)] + LogEvents(node, from, logs[1..])
  }

  datatype Popped = Popped(sys: Sys, entry: Entry)

  function Pop(s: Sys, to: Uuid): Result<Popped> {
    if to !in s.actors then Err(ActorMissing(to))
    else
      var a := s.actors[to];
      if a.inbox == [] then Err(EmptyInbox(to))
      else Ok(Popped(s.(actors := s.actors[to := a.(inbox := a.inbox[1..])]), a.inbox[0]))
  }

  /** Runs the handler for a popped message: new state, emitted events in trace order, new timers. */
  function Handle(cfg: Config, s: Sys, to: Uuid, e: Entry): Result<Effects> {
    if to !in s.actors then Err(ActorMissing(to))
    else if e.payload.Undecodable? then Err(UndecodablePayload)
    else
      var a := s.actors[to];
      var msg := e.payload.msg;
      var run :- ExecHandler(cfg, Call(a.service, e.id, msg), a.store);
      var s1 := s.(actors := s.actors[to := a.(store := run.exec.store)]);
      var out :- ProcessOutbox(cfg, s1, to, run.exec.outbox);
      var seen := EffectObserved(cfg.node, to, a.service, msg.msgType, e.id,
                                 EffectSeq(run.declared), EffectSeq(run.exec.observed));
      Ok(out.(emitted := [seen] + LogEvents(cfg.node, to, run.exec.logs) + out.emitted))
  }

  /** The machine's state: pending timers in the order replay keeps them. */
  datatype Core = Core(sys: Sys, timers: seq<TimerCore>)

  /** The first timer with this id and actor, or `|ts|`. */
  function FindTimer(ts: seq<TimerCore>, from: Uuid, id: Uuid): (i: nat)
    ensures i <= |ts|
    ensures i < |ts| ==> ts[i].id == id && ts[i].from == from
    ensures forall j :: 0 <= j < i ==> !(ts[j].id == id && ts[j].from == from)
  {
    if ts == [] || (ts[0].id == id && ts[0].from == from) then 0 else 1 + FindTimer(ts[1..], from, id)
  }

  /** `Vec::swap_remove`. */
  function SwapRemove<T>(ts: seq<T>, i: nat): (r: seq<T>)
    requires i < |ts|
    ensures |r| == |ts| - 1
    ensures multiset(r) == multiset(ts) - multiset{ts[i]}
  {
    var last := |ts| - 1;
    assert ts == ts[..last] + [ts[last]];
    if i == last then ts[..last] else ts[..last][i := ts[last]]
  }

  /** A state reached, and the events made on the way. */
  datatype Move = Move(core: Core, events: seq<EventKind>)

  /** What an input event does to a node, and the events the node must emit right after it.
      Events of other nodes and fault events change nothing. */
  function CoreStep(cfg: Config, c: Core, ev: EventKind): Result<Move> {
    match ev
    case NetRecv(node, _, to, id, payload) =>
      if node != cfg.node then Ok(Move(c, []))
      else Ok(Move(c.(sys := c.sys.(actors := Push(c.sys.actors, to, Entry(id, payload)))), []))
    case Deliver(node, to, id) =>
      if node != cfg.node then Ok(Move(c, []))
      else
        var p :- Pop(c.sys, to);
        if p.entry.id != id then Err(MsgIdMismatch(id, p.entry.id))
        else
          var h :- Handle(cfg, p.sys, to, p.entry);
          Ok(Move(Core(h.sys, c.timers + Cores(h.timers)), h.emitted))
    case TimerFired(node, from, id) =>
      if node != cfg.node then Ok(Move(c, []))
      else
        var i := FindTimer(c.timers, from, id);
        if i == |c.timers| then Err(UnknownTimer(id))
        else
          var t := c.timers[i];
          var (s, sent) :- Dispatch(cfg, c.sys, t.from, t.target, t.payload);
          Ok(Move(Core(s, SwapRemove(c.timers, i)), [sent]))
    case FaultInjected(_, _, _, _, _) => Ok(Move(c, []))
    case FaultPolicyEvent(_, _, _, _, _) => Ok(Move(c, []))
    case _ => Err(UnexpectedEmission)
  }

  /** The state after a trace whose emissions are exactly those the machine makes. */
  function Follows(cfg: Config, c: Core, trace: seq<EventKind>): Result<Core>
    decreases |trace|
  {
    if trace == [] then Ok(c)
    else
      var m :- CoreStep(cfg, c, trace[0]);
      if m.events <= trace[1..] then Follows(cfg, m.core, trace[1..][|m.events|..]) else Err(EmissionMismatch)
  }

  /** The trace the machine makes of a list of inputs, and the state it ends in. */
  function Run(cfg: Config, c: Core, inputs: seq<EventKind>): Result<Move>
    decreases |inputs|
  {
    if inputs == [] then Ok(Move(c, []))
    else
      var m :- CoreStep(cfg, c, inputs[0]);
      var rest :- Run(cfg, m.core, inputs[1..]);
      Ok(Move(rest.core, [inputs[0]] + m.events + rest.events))
  }

  predicate InboxesEmpty(actors: map<Uuid, Actor>) {
    forall a :: a in actors ==> actors[a].inbox == []
  }

  /** The facts `load_program` and `build_actor_system` establish, with actor ids that do not clash. */
  ghost predicate ValidConfig(cfg: Config) {
    && Loaded(cfg.program, cfg.parseId)
    && cfg.program.services != []
    && cfg.actorOf.Keys == ServiceNames(cfg.program.services)
    && (forall s, t :: s in cfg.actorOf && t in cfg.actorOf && cfg.actorOf[s] == cfg.actorOf[t] ==> s == t)
    && cfg.bootstrapBurst >= 1
  }

  /** The actors of the first `n` services, with initial stores and empty inboxes. */
  function BuildActors(cfg: Config, n: nat): map<Uuid, Actor>
    requires n <= |cfg.program.services|
  {
    if n == 0 then map[]
    else
      var s := cfg.program.services[n - 1];
      var before := BuildActors(cfg, n - 1);
      if s in cfg.actorOf && s in cfg.program.initialState then
        before[cfg.actorOf[s] := Actor(s, cfg.program.initialState[s], [])]
      else before
  }

  function SpawnEvents(cfg: Config, n: nat): seq<EventKind>
    requires n <= |cfg.program.services|
  {
    if n == 0 then [Spawn(cfg.node, cfg.systemActor, "System")]
    else
      var s := cfg.program.services[n - 1];
      SpawnEvents(cfg, n - 1) + (if s in cfg.actorOf then [Spawn(cfg.node, cfg.actorOf[s], s)] else [])
  }

  function EntryService(cfg: Config): string
    requires cfg.program.services != []
  {
    if "Gateway" in cfg.actorOf then "Gateway" else cfg.program.services[0]
  }

  function BootstrapCount(cfg: Config): U64 {
    if cfg.bootstrapHello then cfg.bootstrapBurst else 1
  }

  function BootstrapMessage(cfg: Config, id: Uuid, idx: nat): Payload {
    Message(RuntimeMessage("start", Canonical(cfg.node), "System", "bootstrap #" + PrintNat(idx + 1),
      Some(Provenance(Canonical(cfg.node), "System", Canonical(id), Canonical(cfg.node), Canonical(id), 0))))
  }

  datatype Boot = Boot(sys: Sys, events: seq<EventKind>)

  /** The state and events after the first `n` bootstrap messages. */
  function Bootstrap(cfg: Config, entry: Uuid, n: nat): Result<Boot>
    requires |cfg.program.services| > 0
  {
    if n == 0 then Ok(Boot(Sys(BuildActors(cfg, |cfg.program.services|), 1, 1), []))
    else
      var b :- Bootstrap(cfg, entry, n - 1);
      if entry !in b.sys.actors then Err(ActorMissing(entry))
      else
        var id := MsgId(cfg.node, b.sys.msgCounter);
        var payload := BootstrapMessage(cfg, id, n - 1);
        Ok(Boot(b.sys.(actors := Push(b.sys.actors, entry, Entry(id, payload)),
                       msgCounter := SatAdd(b.sys.msgCounter, 1)),
                b.events + [Send(cfg.systemActor, entry, id, payload)]))
  }

  /** The state and trace with which record and replay enter the step loop. */
  function Startup(cfg: Config): Result<Boot> {
    if cfg.program.services == [] then Err(UnknownService(""))
    else
      var entry := EntryService(cfg);
      if entry !in cfg.actorOf then Err(UnknownService(entry))
      else
        var b :- Bootstrap(cfg, cfg.actorOf[entry], BootstrapCount(cfg));
        Ok(Boot(b.sys, SpawnEvents(cfg, |cfg.program.services|) + b.events))
  }
}
