/** Replay mode as the main loop runs it: a cursor with one event of pushback over the trace file. */
module Replaying {
  import opened Base
  import opened Events
  import opened TraceFile
  import opened Lang
  import opened Interp
  import Faults
  import opened Node
  import opened RecordSpec
  import opened ReplaySpec
  import opened RecordReplay
  import opened Queues
  import opened QueueMirror
  import opened Runtime

  /** The events of a trace file from a position on. */
  function KindsFrom(events: seq<TraceEvent>, pos: nat): (r: seq<EventKind>)
    requires pos <= |events|
    ensures |r| == |events| - pos
    ensures forall i :: 0 <= i < |r| ==> r[i] == events[pos + i].kind
  {
    seq(|events| - pos, i requires 0 <= i < |events| - pos => events[pos + i].kind)
  }

  lemma {:induction false} KindsOfStamped(kinds: seq<EventKind>)
    ensures KindsFrom(StampAll(kinds), 0) == kinds
  {
    if kinds != [] {
      var n := |kinds| - 1;
      KindsOfStamped(kinds[..n]);
      StampSnoc(kinds[..n], kinds[n]);
      assert kinds[..n] + [kinds[n]] == kinds;
      forall i | 0 <= i < |kinds| ensures KindsFrom(StampAll(kinds), 0)[i] == kinds[i] {
        if i < n { assert KindsFrom(StampAll(kinds[..n]), 0)[i] == kinds[..n][i]; }
      }
    }
  }

  class ReplayCursor {
    const events: seq<TraceEvent>
    var pos: nat
    var buffered: Option<TraceEvent>

    ghost predicate Valid()
      reads this
    {
      pos <= |events|
    }

    /** The events that are still to be read. */
    ghost function Rest(): seq<EventKind>
      reads this
      requires Valid()
    {
      (if buffered == None then [] else [buffered.value.kind]) + KindsFrom(events, pos)
    }

    constructor (file: seq<TraceEvent>)
      ensures Valid() && Rest() == KindsFrom(file, 0)
    {
      events := file;
      pos := 0;
      buffered := None;
      new;
      assert [] + KindsFrom(file, 0) == KindsFrom(file, 0);
    }

    method Next() returns (ev: Option<TraceEvent>)
      requires Valid()
      modifies this
      ensures Valid() && buffered == None
      ensures if old(Rest()) == [] then ev == None && Rest() == []
              else ev.Some? && ev.value.kind == old(Rest())[0] && Rest() == old(Rest())[1..]
    {
      if buffered != None {
        ev := buffered;
        buffered := None;
        return;
      }
      if pos == |events| {
        return None;
      }
      ev := Some(events[pos]);
      pos := pos + 1;
      assert KindsFrom(events, pos) == KindsFrom(events, pos - 1)[1..];
    }

    method Unread(ev: TraceEvent)
      requires Valid() && buffered == None
      modifies this
      ensures Valid() && Rest() == [ev.kind] + old(Rest())
    {
      buffered := Some(ev);
    }
  }

  method InjectNetRecv(rt: Runtime, node: Uuid, to: Uuid, id: Uuid, payload: Payload)
    modifies rt`actors
    ensures rt.actors == if node == rt.cfg.node then Push(old(rt.actors), to, Entry(id, payload)) else old(rt.actors)
  {
    if node == rt.cfg.node {
      rt.PushInbox(to, id, payload);
    }
  }

  method DrainReplayInbound(cursor: ReplayCursor, rt: Runtime)
    requires cursor.Valid()
    modifies cursor, rt`actors
    ensures cursor.Valid()
    ensures (rt.actors, cursor.Rest()) == DrainInbound(rt.cfg, old(rt.actors), old(cursor.Rest()))
  {
    while true
      invariant cursor.Valid()
      invariant DrainInbound(rt.cfg, rt.actors, cursor.Rest()) == DrainInbound(rt.cfg, old(rt.actors), old(cursor.Rest()))
      decreases |cursor.Rest()|
    {
      ghost var before := cursor.Rest();
      var ev := cursor.Next();
      if ev == None {
        return;
      }
      match ev.value.kind {
        case NetRecv(node, _, to, id, payload) => InjectNetRecv(rt, node, to, id, payload);
        case FaultInjected(_, _, _, _, _) =>
        case FaultPolicyEvent(_, _, _, _, _) =>
        case _ =>
          cursor.Unread(ev.value);
          assert cursor.Rest() == before;
          return;
      }
    }
  }

  lemma TimersFound(ts: seq<PendingTimer>, from: Uuid, id: Uuid, i: nat)
    requires i <= |ts| && forall j :: 0 <= j < i ==> !(ts[j].core.id == id && ts[j].core.from == from)
    requires i < |ts| ==> ts[i].core.id == id && ts[i].core.from == from
    ensures FindTimer(TimerCores(ts), from, id) == i
  {
    var cores := TimerCores(ts);
    assert forall j :: 0 <= j < |ts| ==> cores[j] == ts[j].core;
  }

  lemma SwapRemoveCores(ts: seq<PendingTimer>, i: nat)
    requires i < |ts|
    ensures TimerCores(SwapRemove(ts, i)) == SwapRemove(TimerCores(ts), i)
  {
    hide SwapRemove;
    hide TimerCores;
    var cores := TimerCores(ts);
    var a, b := TimerCores(SwapRemove(ts, i)), SwapRemove(cores, i);
    assert |a| == |b|;
    forall k | 0 <= k < |a| ensures a[k] == b[k] {
      SwapRemoveAt(ts, i, k);
      SwapRemoveAt(cores, i, k);
    }
  }

  lemma SwapRemoveAt<T>(ts: seq<T>, i: nat, k: nat)
    requires i < |ts| && k < |ts| - 1
    ensures SwapRemove(ts, i)[k] == if k == i then ts[|ts| - 1] else ts[k]
  {
  }

  /** The outcome of a TimerFired in the trace: `rest` is what the trace holds after it. */
  ghost predicate FiredInReplay(cfg: Config, before: Core, ev: EventKind, rest: seq<EventKind>,
                                failed: Option<Error>, after: Core, left: seq<EventKind>)
  {
    match CoreStep(cfg, before, ev)
    case Err(e) => failed == Some(e)
    case Ok(m) =>
      if m.events != [] && rest == [] then failed == Some(TraceEnded)
      else if m.events <= rest then failed == None && after == m.core && left == rest[|m.events|..]
      else failed == Some(EmissionMismatch)
  }

  lemma OtherFired(cfg: Config, before: Core, ev: EventKind, rest: seq<EventKind>)
    requires ev.TimerFired? && ev.node != cfg.node
    ensures FiredInReplay(cfg, before, ev, rest, None, before, rest)
  {
    assert rest[0..] == rest;
  }

  lemma NoTimerFired(cfg: Config, before: Core, ev: EventKind, rest: seq<EventKind>, after: Core, left: seq<EventKind>)
    requires ev.TimerFired? && ev.node == cfg.node && FindTimer(before.timers, ev.from, ev.timerId) == |before.timers|
    ensures FiredInReplay(cfg, before, ev, rest, Some(UnknownTimer(ev.timerId)), after, left)
  {
    hide FindTimer;
  }

  /** What becomes of a pending timer's message, and of what the trace holds, decides about the firing. */
  lemma FiringOutcome(cfg: Config, before: Core, ev: EventKind, rest: seq<EventKind>, i: nat, after: Core, left: seq<EventKind>)
    requires ev.TimerFired? && ev.node == cfg.node && FindTimer(before.timers, ev.from, ev.timerId) == i < |before.timers|
    ensures var d := Dispatch(cfg, before.sys, before.timers[i].from, before.timers[i].target, before.timers[i].payload);
            if d.Err? then FiredInReplay(cfg, before, ev, rest, Some(d.error), after, left)
            else if rest == [] then FiredInReplay(cfg, before, ev, rest, Some(TraceEnded), after, left)
            else if rest[0] != d.value.1 then FiredInReplay(cfg, before, ev, rest, Some(EmissionMismatch), after, left)
            else FiredInReplay(cfg, before, ev, rest, None, Core(d.value.0, SwapRemove(before.timers, i)), rest[1..])
  {
    hide Dispatch;
    hide FindTimer;
    hide SwapRemove;
  }

  method ReplayFireTimer(cursor: ReplayCursor, rt: Runtime, timers: seq<PendingTimer>, node: Uuid, from: Uuid, id: Uuid)
    returns (failed: Option<Error>, remaining: seq<PendingTimer>)
    requires cursor.Valid()
    modifies cursor, rt`actors, rt`msgCounter
    ensures cursor.Valid()
    ensures FiredInReplay(rt.cfg, old(Core(rt.State(), TimerCores(timers))), TimerFired(node, from, id), old(cursor.Rest()),
                          failed, Core(rt.State(), TimerCores(remaining)), cursor.Rest())
  {
    hide Dispatch;
    hide TimerCores;
    hide CoreStep;
    hide FiredInReplay;
    hide FindTimer;
    hide SwapRemove;
    ghost var before, rest, ev := Core(rt.State(), TimerCores(timers)), cursor.Rest(), TimerFired(node, from, id);
    failed, remaining := None, timers;
    if node != rt.cfg.node {
      OtherFired(rt.cfg, before, ev, rest);
      return;
    }
    var i := 0;
    while i < |timers| && !(timers[i].core.id == id && timers[i].core.from == from)
      invariant 0 <= i <= |timers|
      invariant forall j :: 0 <= j < i ==> !(timers[j].core.id == id && timers[j].core.from == from)
    {
      i := i + 1;
    }
    TimersFound(timers, from, id, i);
    if i == |timers| {
      failed := Some(UnknownTimer(id));
      NoTimerFired(rt.cfg, before, ev, rest, before, rest);
      return;
    }
    var t := timers[i].core;
    SwapRemoveCores(timers, i);
    remaining := SwapRemove(timers, i);
    var sent := rt.DispatchOutgoing(t.from, t.target, t.payload);
    if sent.Err? {
      failed := Some(sent.error);
      FiringOutcome(rt.cfg, before, ev, rest, i, Core(rt.State(), TimerCores(remaining)), cursor.Rest());
      return;
    }
    var actual := cursor.Next();
    FiringOutcome(rt.cfg, before, ev, rest, i, Core(rt.State(), TimerCores(remaining)), cursor.Rest());
    if actual == None {
      failed := Some(TraceEnded);
      return;
    }
    if actual.value.kind != sent.value {
      failed := Some(EmissionMismatch);
    }
  }

  /** The outcome of advancing to the next delivery. */
  ghost predicate Advanced(cfg: Config, before: Core, trace: seq<EventKind>,
                           failed: Option<Error>, delivery: Option<EventKind>, after: Core, left: seq<EventKind>)
  {
    match NextDelivery(cfg, before, trace)
    case Err(e) => failed == Some(e)
    case Ok(adv) => failed == None && adv == Advance(delivery, after, left)
  }

  lemma AdvanceOverFiring(cfg: Config, c: Core, trace: seq<EventKind>, failed: Option<Error>, after: Core, left: seq<EventKind>)
    requires trace != [] && trace[0].TimerFired?
    requires FiredInReplay(cfg, c, trace[0], trace[1..], failed, after, left)
    ensures if failed == None then NextDelivery(cfg, c, trace) == NextDelivery(cfg, after, left) && |left| < |trace|
            else NextDelivery(cfg, c, trace) == Err(failed.value)
  {
    hide CoreStep;
  }

  /** Advancing over an input that emits nothing. */
  lemma AdvanceOverQuiet(cfg: Config, c: Core, trace: seq<EventKind>)
    requires trace != [] && (trace[0].NetRecv? || trace[0].FaultInjected? || trace[0].FaultPolicyEvent?
                             || (trace[0].Deliver? && trace[0].node != cfg.node))
    ensures var actors := if trace[0].NetRecv? && trace[0].node == cfg.node
                          then Push(c.sys.actors, trace[0].to, Entry(trace[0].msgId, trace[0].payload)) else c.sys.actors;
            NextDelivery(cfg, c, trace) == NextDelivery(cfg, c.(sys := c.sys.(actors := actors)), trace[1..])
  {
    hide Handle;
    hide Dispatch;
    hide Push;
    assert trace[1..][0..] == trace[1..];
  }

  method NextReplayDelivery(cursor: ReplayCursor, rt: Runtime, timers: seq<PendingTimer>)
    returns (failed: Option<Error>, delivery: Option<EventKind>, pending: seq<PendingTimer>)
    requires cursor.Valid()
    modifies cursor, rt`actors, rt`msgCounter
    ensures cursor.Valid()
    ensures Advanced(rt.cfg, old(Core(rt.State(), TimerCores(timers))), old(cursor.Rest()),
                     failed, delivery, Core(rt.State(), TimerCores(pending)), cursor.Rest())
  {
    hide TimerCores;
    hide FiredInReplay;
    hide CoreStep;
    hide KindsFrom;
    hide Push;
    failed, delivery, pending := None, None, timers;
    while true
      invariant cursor.Valid() && failed == None && delivery == None
      invariant NextDelivery(rt.cfg, Core(rt.State(), TimerCores(pending)), cursor.Rest())
                == NextDelivery(rt.cfg, old(Core(rt.State(), TimerCores(timers))), old(cursor.Rest()))
      decreases |cursor.Rest()|
    {
      ghost var c, trace := Core(rt.State(), TimerCores(pending)), cursor.Rest();
      var ev := cursor.Next();
      if ev == None {
        return;
      }
      match ev.value.kind {
        case NetRecv(node, _, to, id, payload) =>
          AdvanceOverQuiet(rt.cfg, c, trace);
          InjectNetRecv(rt, node, to, id, payload);
        case Deliver(node, _, _) =>
          if node == rt.cfg.node {
            delivery := Some(ev.value.kind);
            return;
          }
          AdvanceOverQuiet(rt.cfg, c, trace);
        case FaultInjected(_, _, _, _, _) => AdvanceOverQuiet(rt.cfg, c, trace);
        case FaultPolicyEvent(_, _, _, _, _) => AdvanceOverQuiet(rt.cfg, c, trace);
        case TimerFired(node, from, id) =>
          failed, pending := ReplayFireTimer(cursor, rt, pending, node, from, id);
          AdvanceOverFiring(rt.cfg, c, trace, failed, Core(rt.State(), TimerCores(pending)), cursor.Rest());
          if failed != None {
            return;
          }
        case _ =>
          failed := Some(UnexpectedEmission);
          return;
      }
    }
  }

  /** The trace agrees with the expected events so far, and `rest` is what it holds after them. */
  ghost predicate AgreesSoFar(trace: seq<EventKind>, expected: seq<EventKind>, i: nat, rest: seq<EventKind>) {
    i <= |trace| && i <= |expected| && expected[..i] == trace[..i] && rest == trace[i..]
  }

  lemma AgreesOn(trace: seq<EventKind>, expected: seq<EventKind>, i: nat, rest: seq<EventKind>)
    requires AgreesSoFar(trace, expected, i, rest) && i < |expected|
    ensures if rest != [] && rest[0] == expected[i] then AgreesSoFar(trace, expected, i + 1, rest[1..])
            else VerifyEmits(trace, expected) == Err(EmissionMismatch)
  {
    if rest != [] && rest[0] == expected[i] {
      assert expected[..i + 1] == trace[..i + 1];
    } else if i < |trace| {
      assert rest[0] == trace[i];
    }
  }

  lemma AgreesThroughout(trace: seq<EventKind>, expected: seq<EventKind>, rest: seq<EventKind>)
    requires AgreesSoFar(trace, expected, |expected|, rest)
    ensures VerifyEmits(trace, expected) ==
            if rest != [] && IsHandlerEmission(rest[0]) then Err(UnexpectedEmission) else Ok(rest)
  {
    assert expected[..|expected|] == expected;
  }

  /** Compares the trace with what this node has to have emitted. */
  method VerifyReplayEmits(cursor: ReplayCursor, expected: seq<EventKind>) returns (failed: Option<Error>)
    requires cursor.Valid()
    modifies cursor
    ensures cursor.Valid()
    ensures match VerifyEmits(old(cursor.Rest()), expected)
            case Ok(left) => failed == None && cursor.Rest() == left
            case Err(e) => failed == Some(e)
  {
    hide KindsFrom;
    hide IsHandlerEmission;
    hide VerifyEmits;
    hide AgreesSoFar;
    failed := None;
    ghost var trace := cursor.Rest();
    assert AgreesSoFar(trace, expected, 0, cursor.Rest()) by { NothingCompared(trace, expected); }
    for i := 0 to |expected|
      invariant cursor.Valid() && AgreesSoFar(trace, expected, i, cursor.Rest())
    {
      AgreesOn(trace, expected, i, cursor.Rest());
      var actual := cursor.Next();
      if actual == None || actual.value.kind != expected[i] {
        failed := Some(EmissionMismatch);
        return;
      }
    }
    ghost var rest := cursor.Rest();
    AgreesThroughout(trace, expected, rest);
    var next := cursor.Next();
    if next != None {
      if IsHandlerEmission(next.value.kind) {
        failed := Some(UnexpectedEmission);
        return;
      }
      cursor.Unread(next.value);
      assert cursor.Rest() == rest;
    }
  }

  lemma NothingCompared(trace: seq<EventKind>, expected: seq<EventKind>)
    ensures AgreesSoFar(trace, expected, 0, trace)
  {
  }

  lemma {:induction false} NoneWaiting<K, V>(m: map<K, seq<V>>)
    ensures TotalLength(m) == 0 <==> forall k :: k in m ==> m[k] == []
    decreases |m|
  {
    if m != map[] {
      var k :| k in m;
      TotalSplit(m, k);
      NoneWaiting(m - {k});
      assert forall x :: x in m ==> x == k || x in m - {k};
    }
  }

  /** `pending_inbox_messages`. */
  method PendingInboxMessages(rt: Runtime) returns (n: nat)
    ensures n == TotalLength(Inboxes(rt.actors))
    ensures n == 0 <==> InboxesEmpty(rt.actors)
  {
    n := SumLengths(Inboxes(rt.actors));
    NoneWaiting(Inboxes(rt.actors));
    assert forall a :: a in rt.actors ==> Inboxes(rt.actors)[a] == rt.actors[a].inbox;
  }

  /** The start-up block of a replaying node: built, and checked against the trace. */
  method ReplayStart(cfg: Config, cursor: ReplayCursor) returns (failed: Option<Error>, rt: Runtime)
    requires cursor.Valid()
    modifies cursor
    ensures fresh(rt) && rt.cfg == cfg && cursor.Valid()
    ensures match Startup(cfg)
            case Err(e) => failed == Some(e)
            case Ok(boot) =>
              match VerifyEmits(old(cursor.Rest()), boot.events)
              case Err(e) => failed == Some(e)
              case Ok(left) => failed == None && cursor.Rest() == left && rt.State() == boot.sys
  {
    hide Bootstrap;
    hide VerifyEmits;
    hide KindsFrom;
    failed := None;
    rt := new Runtime(cfg);
    if cfg.program.services == [] {
      failed := Some(UnknownService(""));
      return;
    }
    var entry := if "Gateway" in cfg.actorOf then "Gateway" else cfg.program.services[0];
    if entry !in cfg.actorOf {
      failed := Some(UnknownService(entry));
      return;
    }
    var expected := [Spawn(cfg.node, cfg.systemActor, "System")];
    for i := 0 to |cfg.program.services|
      invariant expected == SpawnEvents(cfg, i)
    {
      var s := cfg.program.services[i];
      if s in cfg.actorOf {
        expected := expected + [Spawn(cfg.node, cfg.actorOf[s], s)];
      }
    }
    var events;
    failed, events := rt.EnqueueBootstrap(entry, null);
    if failed != None {
      return;
    }
    expected := expected + events;
    failed := VerifyReplayEmits(cursor, expected);
  }

  /** The outcome of one iteration of the replay loop that delivers a message. */
  lemma StepsOn(cfg: Config, c: Core, trace: seq<EventKind>, steps: nat, mid: Core, d: EventKind, rest: seq<EventKind>)
    requires steps > 0 && NextDelivery(cfg, c, trace) == Ok(Advance(Some(d), mid, rest))
    ensures ReplaySteps(cfg, c, trace, steps) ==
            match CoreStep(cfg, mid, d)
            case Err(e) => Err(e)
            case Ok(m) =>
              match VerifyEmits(rest, m.events)
              case Err(e) => Err(e)
              case Ok(left) => ReplaySteps(cfg, m.core, left, steps - 1)
  {
    hide CoreStep;
    hide NextDelivery;
    hide VerifyEmits;
    DrainThenNext(cfg, c, trace);
  }

  lemma StepsEnd(cfg: Config, c: Core, trace: seq<EventKind>, steps: nat)
    requires steps > 0
    ensures match NextDelivery(cfg, c, trace)
            case Err(e) => ReplaySteps(cfg, c, trace, steps) == Err(e)
            case Ok(adv) =>
              adv.delivery == None ==>
                ReplaySteps(cfg, c, trace, steps) ==
                  if InboxesEmpty(adv.core.sys.actors) then Ok(adv.core) else Err(UndeliveredInbox)
  {
    hide CoreStep;
    hide NextDelivery;
    hide VerifyEmits;
    DrainThenNext(cfg, c, trace);
  }

  lemma DeliverIsCoreStep(cfg: Config, before: Sys, timers: seq<PendingTimer>, d: EventKind, failed: Option<Error>, after: Sys,
                          emitted: seq<EventKind>, more: seq<PendingTimer>, step: U64)
    requires d.Deliver? && d.node == cfg.node
    requires Delivered(cfg, before, d.to, Some(d.msgId), failed, after, emitted, more, step)
    ensures match CoreStep(cfg, Core(before, TimerCores(timers)), d)
            case Err(e) => failed == Some(e)
            case Ok(m) => failed == None && m == Move(Core(after, TimerCores(timers + more)), emitted)
  {
    hide Handle;
    if failed == None {
      var p := Pop(before, d.to).value;
      var h := Handle(cfg, p.sys, d.to, p.entry).value;
      CoresOfSchedule(h.timers, step);
      CoresAppend(timers, more);
    }
  }

  /** One iteration of the step loop in replay mode; it reports whether the trace was exhausted. */
  method ReplayStep(cursor: ReplayCursor, rt: Runtime, timers: seq<PendingTimer>, step: U64, ghost left: nat)
    returns (failed: Option<Error>, exhausted: bool, pending: seq<PendingTimer>)
    requires cursor.Valid() && left > 0
    modifies cursor, rt
    ensures cursor.Valid()
    ensures var r := ReplaySteps(rt.cfg, old(Core(rt.State(), TimerCores(timers))), old(cursor.Rest()), left);
            if failed != None then r == Err(failed.value)
            else if exhausted then r == Ok(Core(rt.State(), TimerCores(pending)))
            else r == ReplaySteps(rt.cfg, Core(rt.State(), TimerCores(pending)), cursor.Rest(), left - 1)
  {
    hide TimerCores;
    hide NextDelivery;
    hide DrainInbound;
    hide KindsFrom;
    hide Delivered;
    hide ReplaySteps;
    hide CoreStep;
    exhausted := false;
    ghost var c, trace := Core(rt.State(), TimerCores(timers)), cursor.Rest();
    DrainThenNext(rt.cfg, c, trace);
    DrainReplayInbound(cursor, rt);
    var delivery;
    failed, delivery, pending := NextReplayDelivery(cursor, rt, timers);
    StepsEnd(rt.cfg, c, trace, left);
    if failed != None {
      return;
    }
    ghost var mid, rest := Core(rt.State(), TimerCores(pending)), cursor.Rest();
    if delivery == None {
      exhausted := true;
      var waiting := PendingInboxMessages(rt);
      if waiting > 0 {
        failed := Some(UndeliveredInbox);
      }
      return;
    }
    var d := delivery.value;
    NextDeliveryFollows(rt.cfg, c, trace);
    StepsOn(rt.cfg, c, trace, left, mid, d, rest);
    var emitted, more;
    failed, emitted, more := rt.Deliver(d.to, Some(d.msgId), step, null);
    DeliverIsCoreStep(rt.cfg, mid.sys, pending, d, failed, rt.State(), emitted, more, step);
    if failed != None {
      return;
    }
    pending := pending + more;
    failed := VerifyReplayEmits(cursor, emitted);
  }

  /** A replay run over a trace file, with at most `steps` iterations: it succeeds on exactly the traces
      the specification accepts, and then ends in the specified state. */
  method RunReplay(cfg: Config, file: seq<TraceEvent>, steps: U64)
    returns (failed: Option<Error>, rt: Runtime, pending: seq<PendingTimer>)
    ensures match Replay(cfg, KindsFrom(file, 0), steps)
            case Ok(core) => failed == None && core == Core(rt.State(), TimerCores(pending))
            case Err(e) => failed == Some(e)
  {
    hide TimerCores;
    hide KindsFrom;
    hide VerifyEmits;
    hide Startup;
    hide NextDelivery;
    hide DrainInbound;
    hide CoreStep;
    pending := [];
    NoCores();
    var cursor := new ReplayCursor(file);
    failed, rt := ReplayStart(cfg, cursor);
    if failed != None {
      return;
    }
    var exhausted := false;
    var step: U64 := 0;
    while step < steps
      modifies rt, cursor
      invariant step <= steps && cursor.Valid() && failed == None
      invariant Replay(cfg, KindsFrom(file, 0), steps) ==
                ReplaySteps(cfg, Core(rt.State(), TimerCores(pending)), cursor.Rest(), steps - step)
      decreases steps - step
    {
      failed, exhausted, pending := ReplayStep(cursor, rt, pending, step, steps - step);
      if failed != None || exhausted {
        return;
      }
      step := step + 1;
    }
    var next := cursor.Next();
    if next != None {
      failed := Some(StoppedEarly);
      return;
    }
    var waiting := PendingInboxMessages(rt);
    if waiting > 0 {
      failed := Some(UndeliveredInbox);
    }
  }

  lemma NoCores()
    ensures TimerCores([]) == []
  {
  }

  /** A recorded file, replayed: accepted exactly when the recording left no inbox with messages and the
      iterations suffice. */
  lemma RecordedFileReplays(cfg: Config, settings: Faults.Settings, arrivals: seq<seq<WireEnvelope>>, m: RecMove, steps: U64)
    requires |arrivals| <= U64_MAX && Record(cfg, settings, arrivals) == Ok(m) && |arrivals| <= steps
    requires m.state.sys.timerCounter < U64_MAX || RecordTellable(cfg, settings, arrivals)
    ensures Replay(cfg, KindsFrom(StampAll(m.events), 0), steps).Ok? <==> InboxesEmpty(m.state.sys.actors)
  {
    KindsOfStamped(m.events);
    RecordThenReplay(cfg, settings, arrivals, m, steps);
  }
}
