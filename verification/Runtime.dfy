/** A node as the runtime runs it: actors, counters and inboxes updated in place. */
module Runtime {
  import opened Base
  import opened Events
  import opened TraceFile
  import opened Lang
  import opened Interp
  import opened Decimal
  import opened Executor
  import opened Node
  import opened RecordSpec

  /** A trace writer that is there in record mode and absent in replay mode. */
  ghost predicate Wrote(w: TraceWriter?, before: seq<EventKind>, more: seq<EventKind>)
    reads w
  {
    w != null ==> w.Valid() && w.kinds == before + more
  }

  ghost function Written(w: TraceWriter?): seq<EventKind>
    reads w
  {
    if w == null then [] else w.kinds
  }

  method RecordEvent(w: TraceWriter?, k: EventKind)
    requires w != null ==> w.Valid()
    modifies w
    ensures Wrote(w, old(Written(w)), [k])
  {
    if w != null {
      w.RecordEvent(k);
    }
  }

  lemma {:induction false} ScheduleSnoc(ts: seq<NewTimer>, t: NewTimer, step: U64)
    ensures Schedule(ts + [t], step) == Schedule(ts, step) + [PendingTimer(SatAdd(step, t.delay), t.core)]
  {
    if ts != [] {
      assert (ts + [t])[1..] == ts[1..] + [t];
      ScheduleSnoc(ts[1..], t, step);
    }
  }

  lemma {:induction false} LogEventsSnoc(node: Uuid, from: Uuid, logs: seq<LogEmission>, l: LogEmission)
    ensures LogEvents(node, from, logs + [l]) == LogEvents(node, from, logs) + [LogLine(node, from, l.service, l.text)]
  {
    if logs != [] {
      assert (logs + [l])[1..] == logs[1..] + [l];
      LogEventsSnoc(node, from, logs[1..], l);
    }
  }

  lemma {:induction false} BootstrapFails(cfg: Config, entry: Uuid, n: nat, count: nat)
    requires |cfg.program.services| > 0 && n <= count && Bootstrap(cfg, entry, n).Err?
    ensures Bootstrap(cfg, entry, count) == Bootstrap(cfg, entry, n)
  {
    if n < count { BootstrapFails(cfg, entry, n, count - 1); }
  }

  /** What the outbox of a handler run still has to do when this much of it has been done. */
  ghost predicate OutboxGoesOn(cfg: Config, start: Sys, from: Uuid, outbox: seq<Outgoing>, now: Sys, rest: seq<Outgoing>,
                               emitted: seq<EventKind>, asked: seq<NewTimer>)
  {
    match ProcessOutbox(cfg, now, from, rest)
    case Ok(more) => ProcessOutbox(cfg, start, from, outbox) == Ok(Effects(more.sys, emitted + more.emitted, asked + more.timers))
    case Err(e) => ProcessOutbox(cfg, start, from, outbox) == Err(e)
  }

  lemma OutboxTimer(cfg: Config, start: Sys, from: Uuid, outbox: seq<Outgoing>, now: Sys, rest: seq<Outgoing>,
                    emitted: seq<EventKind>, asked: seq<NewTimer>)
    requires OutboxGoesOn(cfg, start, from, outbox, now, rest, emitted, asked) && rest != [] && rest[0].delaySteps > 0
    ensures var t := NewTimer(TimerCore(TimerId(cfg.node, now.timerCounter), from, rest[0].target, rest[0].payload), rest[0].delaySteps);
            OutboxGoesOn(cfg, start, from, outbox, now.(timerCounter := SatAdd(now.timerCounter, 1)), rest[1..], emitted, asked + [t])
  {
    var t := NewTimer(TimerCore(TimerId(cfg.node, now.timerCounter), from, rest[0].target, rest[0].payload), rest[0].delaySteps);
    var after := ProcessOutbox(cfg, now.(timerCounter := SatAdd(now.timerCounter, 1)), from, rest[1..]);
    if after.Ok? { assert asked + ([t] + after.value.timers) == asked + [t] + after.value.timers; }
  }

  lemma OutboxSend(cfg: Config, start: Sys, from: Uuid, outbox: seq<Outgoing>, now: Sys, rest: seq<Outgoing>,
                   emitted: seq<EventKind>, asked: seq<NewTimer>)
    requires OutboxGoesOn(cfg, start, from, outbox, now, rest, emitted, asked) && rest != [] && rest[0].delaySteps == 0
    ensures var d := Dispatch(cfg, now, from, rest[0].target, rest[0].payload);
            if d.Ok? then OutboxGoesOn(cfg, start, from, outbox, d.value.0, rest[1..], emitted + [d.value.1], asked)
            else ProcessOutbox(cfg, start, from, outbox) == Err(d.error)
  {
    var d := Dispatch(cfg, now, from, rest[0].target, rest[0].payload);
    if d.Ok? {
      var after := ProcessOutbox(cfg, d.value.0, from, rest[1..]);
      if after.Ok? { assert emitted + ([d.value.1] + after.value.emitted) == emitted + [d.value.1] + after.value.emitted; }
    }
  }

  /** The outcome of sending one message as the specification gives it. */
  ghost predicate Dispatched(cfg: Config, before: Sys, from: Uuid, target: Target, payload: Payload, r: Result<EventKind>, after: Sys) {
    var d := Dispatch(cfg, before, from, target, payload);
    if d.Ok? then r == Ok(d.value.1) && after == d.value.0 else r == Err(d.error)
  }

  class Runtime {
    const cfg: Config
    var actors: map<Uuid, Actor>
    var msgCounter: U64
    var timerCounter: U64

    function State(): Sys
      reads this
    {
      Sys(actors, msgCounter, timerCounter)
    }

    /** `build_actor_system`. */
    constructor (c: Config)
      ensures cfg == c && State() == Sys(BuildActors(c, |c.program.services|), 1, 1)
    {
      cfg := c;
      msgCounter := 1;
      timerCounter := 1;
      actors := map[];
      new;
      for i := 0 to |c.program.services|
        invariant cfg == c && msgCounter == 1 && timerCounter == 1 && actors == BuildActors(c, i)
      {
        var s := c.program.services[i];
        if s in c.actorOf && s in c.program.initialState {
          actors := actors[c.actorOf[s] := Actor(s, c.program.initialState[s], [])];
        }
      }
    }

    method NextMsgId() returns (id: Uuid)
      modifies this`msgCounter
      ensures id == MsgId(cfg.node, old(msgCounter)) && msgCounter == SatAdd(old(msgCounter), 1)
    {
      id := (cfg.node + msgCounter) % UUID_COUNT;
      msgCounter := SatAdd(msgCounter, 1);
    }

    method NextTimerId() returns (id: Uuid)
      modifies this`timerCounter
      ensures id == TimerId(cfg.node, old(timerCounter)) && timerCounter == SatAdd(old(timerCounter), 1)
    {
      id := (cfg.node + TIMER_OFFSET + timerCounter) % UUID_COUNT;
      timerCounter := SatAdd(timerCounter, 1);
    }

    /** Appends to the inbox of a known actor; otherwise the message is discarded. */
    method PushInbox(to: Uuid, id: Uuid, payload: Payload)
      modifies this`actors
      ensures actors == Push(old(actors), to, Entry(id, payload))
    {
      if to in actors {
        actors := actors[to := actors[to].(inbox := actors[to].inbox + [Entry(id, payload)])];
      }
    }

    method DispatchOutgoing(from: Uuid, target: Target, payload: Payload) returns (r: Result<EventKind>)
      modifies this`actors, this`msgCounter
      ensures Dispatched(cfg, old(State()), from, target, payload, r, State())
    {
      if target.service !in cfg.actorOf {
        return Err(UnknownService(target.service));
      }
      var to := cfg.actorOf[target.service];
      match target {
        case LocalService(_) =>
          var id := NextMsgId();
          if to !in actors {
            return Err(ActorMissing(to));
          }
          PushInbox(to, id, payload);
          r := Ok(Send(from, to, id, payload));
        case RemoteService(node, _) =>
          var id := NextMsgId();
          r := Ok(NetSend(cfg.node, node, from, id, payload));
      }
    }

    method EnqueueBootstrap(entryService: string, w: TraceWriter?) returns (failed: Option<Error>, events: seq<EventKind>)
      requires |cfg.program.services| > 0 && entryService in cfg.actorOf
      requires State() == Sys(BuildActors(cfg, |cfg.program.services|), 1, 1)
      requires w != null ==> w.Valid()
      modifies this`actors, this`msgCounter, w
      ensures match Bootstrap(cfg, cfg.actorOf[entryService], BootstrapCount(cfg))
              case Ok(b) => failed == None && State() == b.sys && events == b.events && Wrote(w, old(Written(w)), events)
              case Err(e) => failed == Some(e)
    {
      hide StampAll;
      hide SeqNo;
      hide PrintNat;
      failed, events := None, [];
      var entry := cfg.actorOf[entryService];
      var count: U64 := if cfg.bootstrapHello then cfg.bootstrapBurst else 1;
      for idx := 0 to count
        modifies this`actors, this`msgCounter, w
        invariant failed == None && Bootstrap(cfg, entry, idx) == Ok(Boot(State(), events))
        invariant Wrote(w, old(Written(w)), events)
      {
        if entry !in actors {
          failed := Some(ActorMissing(entry));
          BootstrapFails(cfg, entry, idx + 1, count);
          return;
        }
        var id := NextMsgId();
        var payload := BootstrapMessage(cfg, id, idx);
        PushInbox(entry, id, payload);
        var ev := Send(cfg.systemActor, entry, id, payload);
        events := events + [ev];
        RecordEvent(w, ev);
      }
    }

    /** Processes a handler's outbox in order. */
    method SendOutbox(from: Uuid, outbox: seq<Outgoing>, step: U64, w: TraceWriter?)
      returns (failed: Option<Error>, emitted: seq<EventKind>, timers: seq<PendingTimer>)
      requires w != null ==> w.Valid()
      modifies this, w
      ensures match ProcessOutbox(cfg, old(State()), from, outbox)
              case Ok(out) =>
                && failed == None && State() == out.sys && emitted == out.emitted
                && timers == Schedule(out.timers, step) && Wrote(w, old(Written(w)), emitted)
              case Err(e) => failed == Some(e)
    {
      hide StampAll;
      hide SeqNo;
      hide Dispatch;
      hide OutboxGoesOn;
      failed, emitted, timers := None, [], [];
      ghost var asked: seq<NewTimer> := [];
      assert OutboxGoesOn(cfg, State(), from, outbox, State(), outbox[0..], emitted, asked) by { OutboxStarts(cfg, State(), from, outbox); }
      for i := 0 to |outbox|
        modifies this, w
        invariant failed == None && OutboxGoesOn(cfg, old(State()), from, outbox, State(), outbox[i..], emitted, asked)
        invariant timers == Schedule(asked, step) && Wrote(w, old(Written(w)), emitted)
      {
        var out := outbox[i];
        assert outbox[i..][1..] == outbox[i + 1..];
        if out.delaySteps > 0 {
          OutboxTimer(cfg, old(State()), from, outbox, State(), outbox[i..], emitted, asked);
          var id := NextTimerId();
          ghost var t := NewTimer(TimerCore(id, from, out.target, out.payload), out.delaySteps);
          ScheduleSnoc(asked, t, step);
          asked := asked + [t];
          timers := timers + [PendingTimer(SatAdd(step, out.delaySteps), TimerCore(id, from, out.target, out.payload))];
        } else {
          OutboxSend(cfg, old(State()), from, outbox, State(), outbox[i..], emitted, asked);
          var r := DispatchOutgoing(from, out.target, out.payload);
          if r.Err? {
            failed := Some(r.error);
            return;
          }
          emitted := emitted + [r.value];
          RecordEvent(w, r.value);
        }
      }
      OutboxEnds(cfg, old(State()), from, outbox, State(), emitted, asked);
    }

    /** Writes down what a handler run observed and logged. */
    method Report(to: Uuid, seen: EventKind, logs: seq<LogEmission>, w: TraceWriter?) returns (emitted: seq<EventKind>)
      requires w != null ==> w.Valid()
      modifies w
      ensures emitted == [seen] + LogEvents(cfg.node, to, logs) && Wrote(w, old(Written(w)), emitted)
    {
      hide StampAll;
      hide SeqNo;
      RecordEvent(w, seen);
      emitted := [seen];
      NoLogs(cfg.node, to);
      for i := 0 to |logs|
        modifies w
        invariant emitted == [seen] + LogEvents(cfg.node, to, logs[..i]) && Wrote(w, old(Written(w)), emitted)
      {
        LogEventsSnoc(cfg.node, to, logs[..i], logs[i]);
        assert logs[..i + 1] == logs[..i] + [logs[i]];
        var line := LogLine(cfg.node, to, logs[i].service, logs[i].text);
        RecordEvent(w, line);
        emitted := emitted + [line];
      }
      assert logs[..|logs|] == logs;
    }

    /** Runs the handler for a popped message, and reports and sends what it asked for. */
    method HandleMessage(to: Uuid, e: Entry, step: U64, w: TraceWriter?)
      returns (failed: Option<Error>, emitted: seq<EventKind>, timers: seq<PendingTimer>)
      requires w != null ==> w.Valid()
      modifies this, w
      ensures match Handle(cfg, old(State()), to, e)
              case Err(err) => failed == Some(err)
              case Ok(h) =>
                && failed == None && State() == h.sys && emitted == h.emitted && timers == Schedule(h.timers, step)
                && Wrote(w, old(Written(w)), emitted)
    {
      hide StampAll;
      hide SeqNo;
      hide ExecHandler;
      hide ProcessOutbox;
      hide EffectSeq;
      hide LogEvents;
      failed, emitted, timers := None, [], [];
      if to !in actors {
        failed := Some(ActorMissing(to));
        return;
      }
      if e.payload.Undecodable? {
        failed := Some(UndecodablePayload);
        return;
      }
      var a := actors[to];
      var msg := e.payload.msg;
      var ctx := new ActorContext(cfg.node);
      var store, declared, observed;
      failed, store, declared, observed := ExecuteActions(cfg, Call(a.service, e.id, msg), a.store, ctx);
      if failed != None {
        return;
      }
      actors := actors[to := a.(store := store)];
      var seen := EffectObserved(cfg.node, to, a.service, msg.msgType, e.id, EffectSeq(declared), EffectSeq(observed));
      emitted := Report(to, seen, ctx.logs, w);
      var sent;
      failed, sent, timers := SendOutbox(to, ctx.outbox, step, w);
      emitted := emitted + sent;
    }

    /** Delivers the head of an actor's inbox. Replay names the message id its trace expects. */
    method Deliver(to: Uuid, traced: Option<Uuid>, step: U64, w: TraceWriter?)
      returns (failed: Option<Error>, emitted: seq<EventKind>, timers: seq<PendingTimer>)
      requires w != null ==> w.Valid()
      modifies this, w
      ensures Delivered(cfg, old(State()), to, traced, failed, State(), emitted, timers, step)
      ensures failed == None ==> Wrote(w, old(Written(w)), emitted)
    {
      hide StampAll;
      hide SeqNo;
      hide Handle;
      failed, emitted, timers := None, [], [];
      if to !in actors {
        failed := Some(ActorMissing(to));
        return;
      }
      var a := actors[to];
      if a.inbox == [] {
        failed := Some(EmptyInbox(to));
        return;
      }
      var e := a.inbox[0];
      actors := actors[to := a.(inbox := a.inbox[1..])];
      if traced.Some? && traced.value != e.id {
        failed := Some(MsgIdMismatch(traced.value, e.id));
        return;
      }
      failed, emitted, timers := HandleMessage(to, e, step, w);
    }
  }

  /** The outcome of a delivery as the specification of popping and handling gives it. */
  ghost predicate Delivered(cfg: Config, before: Sys, to: Uuid, traced: Option<Uuid>, failed: Option<Error>, after: Sys,
                            emitted: seq<EventKind>, timers: seq<PendingTimer>, step: U64)
  {
    match Pop(before, to)
    case Err(e) => failed == Some(e)
    case Ok(p) =>
      if traced.Some? && traced.value != p.entry.id then failed == Some(MsgIdMismatch(traced.value, p.entry.id))
      else match Handle(cfg, p.sys, to, p.entry)
        case Err(e) => failed == Some(e)
        case Ok(h) => failed == None && after == h.sys && emitted == h.emitted && timers == Schedule(h.timers, step)
  }

  lemma NoLogs(node: Uuid, from: Uuid)
    ensures LogEvents(node, from, []) == []
  {
  }

  lemma OutboxStarts(cfg: Config, s: Sys, from: Uuid, outbox: seq<Outgoing>)
    ensures OutboxGoesOn(cfg, s, from, outbox, s, outbox[0..], [], [])
  {
    assert outbox[0..] == outbox;
    var r := ProcessOutbox(cfg, s, from, outbox);
    if r.Ok? { assert [] + r.value.emitted == r.value.emitted && [] + r.value.timers == r.value.timers; }
  }

  lemma OutboxEnds(cfg: Config, start: Sys, from: Uuid, outbox: seq<Outgoing>, now: Sys, emitted: seq<EventKind>, asked: seq<NewTimer>)
    requires OutboxGoesOn(cfg, start, from, outbox, now, outbox[|outbox|..], emitted, asked)
    ensures ProcessOutbox(cfg, start, from, outbox) == Ok(Effects(now, emitted, asked))
  {
    assert outbox[|outbox|..] == [];
    assert emitted + [] == emitted && asked + [] == asked;
  }
}
