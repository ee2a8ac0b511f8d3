/** What a node puts on the wire in a step, and the evidence of network traffic its trace carries. */
module Wire {
  import opened Base
  import opened Sorting
  import opened Events
  import opened Lang
  import opened Interp
  import opened Faults
  import opened InjectorSpec
  import opened InjectorProps
  import opened Node
  import opened RecordSpec
  import opened ReplaySpec
  import opened RecordReplay
  import opened ClusterSpec
  import opened RecordTrace

  function DispatchWire(cfg: Config, s: Sys, target: Target, payload: Payload): seq<WireEnvelope> {
    match target
    case LocalService(_) => []
    case RemoteService(node, service) =>
      if service !in cfg.actorOf then []
      else [WireEnvelope(cfg.node, node, cfg.actorOf[service], MsgId(cfg.node, s.msgCounter), payload)]
  }

  function OutboxWire(cfg: Config, s: Sys, from: Uuid, outbox: seq<Outgoing>): seq<WireEnvelope>
    decreases |outbox|
  {
    if outbox == [] then []
    else if outbox[0].delaySteps > 0 then
      OutboxWire(cfg, s.(timerCounter := SatAdd(s.timerCounter, 1)), from, outbox[1..])
    else
      match Dispatch(cfg, s, from, outbox[0].target, outbox[0].payload)
      case Err(_) => []
      case Ok((s1, _)) =>
        DispatchWire(cfg, s, outbox[0].target, outbox[0].payload) + OutboxWire(cfg, s1, from, outbox[1..])
  }

  function FireWire(cfg: Config, s: Sys, due: seq<PendingTimer>): seq<WireEnvelope>
    decreases |due|
  {
    if due == [] then []
    else
      match Dispatch(cfg, s, due[0].core.from, due[0].core.target, due[0].core.payload)
      case Err(_) => []
      case Ok((s1, _)) => DispatchWire(cfg, s, due[0].core.target, due[0].core.payload) + FireWire(cfg, s1, due[1..])
  }

  function HandleWire(cfg: Config, s: Sys, to: Uuid, e: Entry): seq<WireEnvelope> {
    if to !in s.actors || e.payload.Undecodable? then []
    else
      var a := s.actors[to];
      match ExecHandler(cfg, Call(a.service, e.id, e.payload.msg), a.store)
      case Err(_) => []
      case Ok(run) => OutboxWire(cfg, s.(actors := s.actors[to := a.(store := run.exec.store)]), to, run.exec.outbox)
  }

  function DeliverWire(cfg: Config, r: RecState): seq<WireEnvelope> {
    match LeastReady(r.sys.actors)
    case None => []
    case Some(to) =>
      match Pop(r.sys, to)
      case Err(_) => []
      case Ok(p) => HandleWire(cfg, p.sys, to, p.entry)
  }

  /** The envelopes a node hands to the network in one step, in order. */
  function StepWire(cfg: Config, r: RecState, step: U64, arrivals: seq<WireEnvelope>): seq<WireEnvelope> {
    var d := DrainStep(cfg, r, step, arrivals).state;
    match FireDue(cfg, d, step)
    case Err(_) => []
    case Ok(f) =>
      FireWire(cfg, d.sys, SortBy(TimerKey, Due(d.timers, step))) + DeliverWire(cfg, f.state)
  }

  // ---- evidence in the trace ----

  /** The note a message leaves when it is sent, received or dropped. */
  function EnvNote(what: Evidence, e: WireEnvelope): Note {
    Note(what, (e.fromNode, e.msgId, e.toNode), if what.DroppedNote? then None else Some(e.payload))
  }

  function EnvNotes(what: Evidence, envs: seq<WireEnvelope>): (r: seq<Note>)
    ensures |r| == |envs|
    ensures forall i :: 0 <= i < |envs| ==> r[i] == EnvNote(what, envs[i])
  {
    if envs == [] then []
    else
      var n := |envs| - 1;
      EnvNotes(what, envs[..n]) + [EnvNote(what, envs[n])]
  }

  lemma EnvNotesAppend(what: Evidence, a: seq<WireEnvelope>, b: seq<WireEnvelope>)
    ensures EnvNotes(what, a + b) == EnvNotes(what, a) + EnvNotes(what, b)
  {
  }

  lemma {:induction false} NotesAppend(a: seq<EventKind>, b: seq<EventKind>, what: Evidence)
    ensures Notes(a + b, what) == Notes(a, what) + Notes(b, what)
    decreases |b|
  {
    hide NoteOf;
    if b == [] {
      assert a + b == a;
    } else {
      assert (a + b)[..|a + b| - 1] == a + b[..|b| - 1];
      NotesAppend(a, b[..|b| - 1], what);
    }
  }

  lemma {:induction false} NoNotes(kinds: seq<EventKind>, what: Evidence)
    requires forall k :: k in kinds ==> NoteOf(k).None? || NoteOf(k).value.what != what
    ensures Notes(kinds, what) == []
  {
    hide NoteOf;
    if kinds != [] {
      assert kinds[|kinds| - 1] in kinds;
      NoNotes(kinds[..|kinds| - 1], what);
    }
  }

  lemma OneNote(k: EventKind, what: Evidence)
    ensures Notes([k], what) == if NoteOf(k).Some? && NoteOf(k).value.what == what then [NoteOf(k).value] else []
  {
    hide NoteOf;
    assert [k][..0] == [];
  }

  /** Envelopes of this node, for actors every node of the program has. */
  ghost predicate Outward(cfg: Config, envs: seq<WireEnvelope>) {
    forall e :: e in envs ==> e.fromNode == cfg.node && e.toActor in cfg.actorOf.Values
  }

  ghost predicate Evident(cfg: Config, kinds: seq<EventKind>, envs: seq<WireEnvelope>) {
    Notes(kinds, SentNote) == EnvNotes(SentNote, envs) && Outward(cfg, envs)
  }

  lemma EvidentJoins(cfg: Config, a: seq<EventKind>, ea: seq<WireEnvelope>, b: seq<EventKind>, eb: seq<WireEnvelope>)
    requires Evident(cfg, a, ea) && Evident(cfg, b, eb)
    ensures Evident(cfg, a + b, ea + eb)
  {
    NotesAppend(a, b, SentNote);
    EnvNotesAppend(SentNote, ea, eb);
  }

  lemma NotEvident(cfg: Config, kinds: seq<EventKind>)
    requires forall k :: k in kinds ==> !k.NetSend?
    ensures Evident(cfg, kinds, [])
  {
    NoNotes(kinds, SentNote);
  }

  lemma DispatchEvident(cfg: Config, s: Sys, from: Uuid, target: Target, p: Payload, s1: Sys, ev: EventKind)
    requires Dispatch(cfg, s, from, target, p) == Ok((s1, ev))
    ensures Evident(cfg, [ev], DispatchWire(cfg, s, target, p))
  {
    OneNote(ev, SentNote);
    if target.RemoteService? { assert cfg.actorOf[target.service] in cfg.actorOf.Values; }
  }

  lemma {:induction false} OutboxEvident(cfg: Config, s: Sys, from: Uuid, outbox: seq<Outgoing>, out: Effects)
    requires ProcessOutbox(cfg, s, from, outbox) == Ok(out)
    ensures Evident(cfg, out.emitted, OutboxWire(cfg, s, from, outbox))
    decreases |outbox|
  {
    hide Dispatch;
    hide DispatchWire;
    hide Evident;
    if outbox == [] {
      NotEvident(cfg, []);
    } else if outbox[0].delaySteps > 0 {
      var s1 := s.(timerCounter := SatAdd(s.timerCounter, 1));
      OutboxEvident(cfg, s1, from, outbox[1..], ProcessOutbox(cfg, s1, from, outbox[1..]).value);
    } else {
      var (s1, ev) := Dispatch(cfg, s, from, outbox[0].target, outbox[0].payload).value;
      var rest := ProcessOutbox(cfg, s1, from, outbox[1..]).value;
      DispatchEvident(cfg, s, from, outbox[0].target, outbox[0].payload, s1, ev);
      OutboxEvident(cfg, s1, from, outbox[1..], rest);
      EvidentJoins(cfg, [ev], DispatchWire(cfg, s, outbox[0].target, outbox[0].payload), rest.emitted, OutboxWire(cfg, s1, from, outbox[1..]));
    }
  }

  lemma {:induction false} FiringsEvident(cfg: Config, s: Sys, due: seq<PendingTimer>, f: Fired)
    requires FireAll(cfg, s, due) == Ok(f)
    ensures Evident(cfg, f.events, FireWire(cfg, s, due))
    decreases |due|
  {
    hide Dispatch;
    hide DispatchWire;
    hide Evident;
    if due == [] {
      NotEvident(cfg, []);
    } else {
      var t := due[0].core;
      var (s1, sent) := Dispatch(cfg, s, t.from, t.target, t.payload).value;
      var rest := FireAll(cfg, s1, due[1..]).value;
      var fired := TimerFired(cfg.node, t.from, t.id);
      DispatchEvident(cfg, s, t.from, t.target, t.payload, s1, sent);
      FiringsEvident(cfg, s1, due[1..], rest);
      NotEvident(cfg, [fired]);
      EvidentJoins(cfg, [fired], [], [sent], DispatchWire(cfg, s, t.target, t.payload));
      EvidentJoins(cfg, [fired] + [sent], [] + DispatchWire(cfg, s, t.target, t.payload), rest.events, FireWire(cfg, s1, due[1..]));
      assert [fired] + [sent] + rest.events == f.events;
      assert [] + DispatchWire(cfg, s, t.target, t.payload) == DispatchWire(cfg, s, t.target, t.payload);
    }
  }

  lemma HandleEvident(cfg: Config, s: Sys, to: Uuid, e: Entry, h: Effects)
    requires Handle(cfg, s, to, e) == Ok(h)
    ensures Evident(cfg, h.emitted, HandleWire(cfg, s, to, e))
  {
    hide ExecHandler;
    hide ProcessOutbox;
    hide OutboxWire;
    hide EffectSeq;
    hide Evident;
    var a := s.actors[to];
    var run := ExecHandler(cfg, Call(a.service, e.id, e.payload.msg), a.store).value;
    var s1 := s.(actors := s.actors[to := a.(store := run.exec.store)]);
    var out := ProcessOutbox(cfg, s1, to, run.exec.outbox).value;
    var k := EffectObserved(cfg.node, to, a.service, e.payload.msg.msgType, e.id, EffectSeq(run.declared), EffectSeq(run.exec.observed));
    var report := [k] + LogEvents(cfg.node, to, run.exec.logs);
    LogEmissions(cfg.node, to, run.exec.logs);
    NotEvident(cfg, report);
    OutboxEvident(cfg, s1, to, run.exec.outbox, out);
    EvidentJoins(cfg, report, [], out.emitted, OutboxWire(cfg, s1, to, run.exec.outbox));
    assert [] + OutboxWire(cfg, s1, to, run.exec.outbox) == OutboxWire(cfg, s1, to, run.exec.outbox);
    assert h.emitted == report + out.emitted;
  }

  lemma DeliveryEvident(cfg: Config, r: RecState, step: U64, m: RecMove)
    requires DeliverNext(cfg, r, step) == Ok(m)
    ensures Evident(cfg, m.events, DeliverWire(cfg, r))
  {
    hide Handle;
    hide HandleWire;
    hide Evident;
    if LeastReady(r.sys.actors).None? {
      NotEvident(cfg, []);
    } else {
      var to := LeastReady(r.sys.actors).value;
      var p := Pop(r.sys, to).value;
      var h := Handle(cfg, p.sys, to, p.entry).value;
      var d := Deliver(cfg.node, to, p.entry.id);
      NotEvident(cfg, [d]);
      HandleEvident(cfg, p.sys, to, p.entry, h);
      EvidentJoins(cfg, [d], [], h.emitted, HandleWire(cfg, p.sys, to, p.entry));
      assert [] + HandleWire(cfg, p.sys, to, p.entry) == HandleWire(cfg, p.sys, to, p.entry);
    }
  }

  /** The NetSend events of a step are the evidence of exactly what went on the wire. */
  lemma StepSends(cfg: Config, r: RecState, step: U64, arrivals: seq<WireEnvelope>, m: RecMove)
    requires RecordStep(cfg, r, step, arrivals) == Ok(m) && HoldsOwn(r.inj, cfg.node)
    ensures Evident(cfg, m.events, StepWire(cfg, r, step, arrivals))
  {
    hide Drain;
    hide DeliverNext;
    hide DeliverWire;
    hide FireAll;
    hide FireWire;
    hide Evident;
    hide RecvEvents;
    var d := DrainStep(cfg, r, step, arrivals);
    DrainQuiet(r.inj, cfg.node, step, arrivals);
    var due := SortBy(TimerKey, Due(d.state.timers, step));
    var f := FireDue(cfg, d.state, step).value;
    var h := DeliverNext(cfg, f.state, step).value;
    assert forall k :: k in d.events ==> !k.NetSend?;
    NotEvident(cfg, d.events);
    FiringsEvident(cfg, d.state.sys, due, FireAll(cfg, d.state.sys, due).value);
    DeliveryEvident(cfg, f.state, step, h);
    EvidentJoins(cfg, d.events, [], f.events, FireWire(cfg, d.state.sys, due));
    assert [] + FireWire(cfg, d.state.sys, due) == FireWire(cfg, d.state.sys, due);
    EvidentJoins(cfg, d.events + f.events, FireWire(cfg, d.state.sys, due), h.events, DeliverWire(cfg, f.state));
  }

  // ---- receipts and drops ----

  lemma ReceiptSnoc(front: seq<WireEnvelope>, e: WireEnvelope)
    ensures RecvEvents(front + [e]) == RecvEvents(front) + [NetRecv(e.toNode, e.fromNode, e.toActor, e.msgId, e.payload)]
  {
    assert forall i :: 0 <= i < |front| ==> (front + [e])[i] == front[i];
  }

  lemma {:induction false} ReceiptNotes(envs: seq<WireEnvelope>)
    ensures Notes(RecvEvents(envs), ReceivedNote) == EnvNotes(ReceivedNote, envs)
    ensures Notes(RecvEvents(envs), DroppedNote) == []
  {
    if envs == [] {
    } else {
      hide RecvEvents;
      hide Notes;
      var front := envs[..|envs| - 1];
      var e := envs[|envs| - 1];
      var ev := NetRecv(e.toNode, e.fromNode, e.toActor, e.msgId, e.payload);
      assert envs == front + [e];
      ReceiptNotes(front);
      ReceiptSnoc(front, e);
      NotesAppend(RecvEvents(front), [ev], ReceivedNote);
      NotesAppend(RecvEvents(front), [ev], DroppedNote);
      OneNote(ev, ReceivedNote);
      OneNote(ev, DroppedNote);
    }
  }

  /** Only Drop events are evidence of dropping. */
  lemma {:induction false} NotesOfDrops(evs: seq<EventKind>)
    ensures Notes(evs, DroppedNote) == Notes(Drops(evs), DroppedNote)
  {
    if evs != [] {
      NotesOfDrops(evs[1..]);
      assert evs == [evs[0]] + evs[1..];
      NotesAppend([evs[0]], evs[1..], DroppedNote);
      var first := if evs[0].FaultInjected? && evs[0].action.Drop? then [evs[0]] else [];
      NotesAppend(first, Drops(evs[1..]), DroppedNote);
      OneNote(evs[0], DroppedNote);
    }
  }

  lemma DropNote(node: Uuid, e: WireEnvelope)
    requires e.toNode == node
    ensures Notes([FaultEvent(node, e, Drop)], DroppedNote) == [EnvNote(DroppedNote, e)]
  {
    hide Notes;
    OneNote(FaultEvent(node, e, Drop), DroppedNote);
  }

  lemma {:induction false} DropNotes(node: Uuid, envs: seq<WireEnvelope>)
    requires forall e :: e in envs ==> e.toNode == node
    ensures Notes(DropEvents(node, envs), DroppedNote) == EnvNotes(DroppedNote, envs)
  {
    if envs == [] {
    } else {
      hide Notes;
      hide EnvNote;
      hide FaultEvent;
      var n := |envs| - 1;
      assert envs[n] in envs;
      DropNotes(node, envs[..n]);
      DropNote(node, envs[n]);
      NotesAppend(DropEvents(node, envs[..n]), [FaultEvent(node, envs[n], Drop)], DroppedNote);
    }
  }

  lemma {:induction false} DroppedAreOwn(own: seq<WireEnvelope>, seen: U64, p: Policy)
    ensures forall e :: e in Dropped(own, seen, p) ==> e in own
  {
    if own != [] {
      DroppedAreOwn(own[..|own| - 1], seen, p);
    }
  }

  /** The envelopes dropped in one step. */
  function StepDrops(cfg: Config, inj: Injector, step: U64, arrivals: seq<WireEnvelope>): seq<WireEnvelope> {
    Dropped(Own(cfg.node, arrivals), inj.seen, PolicyForStep(inj.settings, step))
  }

  lemma {:induction false} OwnIsAddressed(node: Uuid, arrivals: seq<WireEnvelope>)
    ensures forall e :: e in Own(node, arrivals) ==> e.toNode == node && e in arrivals
  {
    if arrivals != [] { OwnIsAddressed(node, arrivals[..|arrivals| - 1]); }
  }

  /** The NetRecv and Drop events of a step are the evidence of exactly what was released and dropped. */
  lemma StepTakes(cfg: Config, r: RecState, step: U64, arrivals: seq<WireEnvelope>, m: RecMove)
    requires RecordStep(cfg, r, step, arrivals) == Ok(m) && HoldsOwn(r.inj, cfg.node) && Settled(r.inj)
    ensures Notes(m.events, ReceivedNote) == EnvNotes(ReceivedNote, Drain(r.inj, cfg.node, step, arrivals).released)
    ensures Notes(m.events, DroppedNote) == EnvNotes(DroppedNote, StepDrops(cfg, r.inj, step, arrivals))
  {
    hide Drain;
    hide DeliverNext;
    hide FireAll;
    hide RecvEvents;
    hide EnvNotes;
    hide Dropped;
    hide PolicyForStep;
    var drained := Drain(r.inj, cfg.node, step, arrivals);
    var d := DrainStep(cfg, r, step, arrivals);
    DrainQuiet(r.inj, cfg.node, step, arrivals);
    DrainEvidence(r.inj, cfg.node, step, arrivals);
    var due := SortBy(TimerKey, Due(d.state.timers, step));
    var f := FireDue(cfg, d.state, step).value;
    var h := DeliverNext(cfg, f.state, step).value;
    FiringsLocal(cfg, d.state.sys, due, FireAll(cfg, d.state.sys, due).value);
    DeliveryTakesNothing(cfg, f.state, step, h);
    ReceiptNotes(drained.released);
    NotesOfDrops(drained.events);
    OwnIsAddressed(cfg.node, arrivals);
    DroppedAreOwn(Own(cfg.node, arrivals), r.inj.seen, PolicyForStep(r.inj.settings, step));
    DropNotes(cfg.node, StepDrops(cfg, r.inj, step, arrivals));
    DrainNotes(cfg.node, drained.events, drained.released, f.events, h.events);
    assert m.events == drained.events + RecvEvents(drained.released) + f.events + h.events;
  }

  lemma DeliveryTakesNothing(cfg: Config, r: RecState, step: U64, m: RecMove)
    requires DeliverNext(cfg, r, step) == Ok(m)
    ensures forall k :: k in m.events ==> !k.NetRecv? && !k.FaultInjected?
  {
    hide Handle;
    if LeastReady(r.sys.actors).Some? {
      var to := LeastReady(r.sys.actors).value;
      var p := Pop(r.sys, to).value;
      var h := Handle(cfg, p.sys, to, p.entry).value;
      var d := Deliver(cfg.node, to, p.entry.id);
      assert CoreStep(cfg, Core(r.sys, []), d) == Ok(Move(Core(h.sys, [] + Cores(h.timers)), h.emitted));
      EmittedAreEmissions(cfg, Core(r.sys, []), d);
    }
  }

  lemma FourParts(a: seq<EventKind>, b: seq<EventKind>, c: seq<EventKind>, d: seq<EventKind>, what: Evidence)
    ensures Notes(a + b + c + d, what) == Notes(a, what) + Notes(b, what) + Notes(c, what) + Notes(d, what)
  {
    hide Notes;
    NotesAppend(a + b + c, d, what);
    NotesAppend(a + b, c, what);
    NotesAppend(a, b, what);
  }

  /** Only the first part of a step's block drops, and only the second receives. */
  lemma DrainNotes(node: Uuid, faults: seq<EventKind>, released: seq<WireEnvelope>, fired: seq<EventKind>, delivered: seq<EventKind>)
    requires FaultsOnly(node, faults)
    requires forall k :: k in fired ==> k.TimerFired? || k.Send? || k.NetSend?
    requires forall k :: k in delivered ==> !k.NetRecv? && !k.FaultInjected?
    ensures var all := faults + RecvEvents(released) + fired + delivered;
            && Notes(all, ReceivedNote) == EnvNotes(ReceivedNote, released)
            && Notes(all, DroppedNote) == Notes(faults, DroppedNote)
  {
    hide RecvEvents;
    hide EnvNotes;
    hide Notes;
    FourParts(faults, RecvEvents(released), fired, delivered, ReceivedNote);
    FourParts(faults, RecvEvents(released), fired, delivered, DroppedNote);
    NoNotes(faults, ReceivedNote);
    NoNotes(fired, ReceivedNote);
    NoNotes(delivered, ReceivedNote);
    NoNotes(fired, DroppedNote);
    NoNotes(delivered, DroppedNote);
    ReceiptNotes(released);
  }
}
