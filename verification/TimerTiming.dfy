/** When timers fire in record mode, step by step: the due ones, once, sorted by id, each followed by
    its own message. `TimerRuns` draws the conclusions for whole runs. */
module TimerTiming {
  import opened Base
  import opened Sorting
  import opened Events
  import opened Lang
  import opened Interp
  import opened InjectorSpec
  import opened Node
  import opened RecordSpec
  import opened ReplaySpec
  import opened RecordReplay
  import opened VerifySpec
  import opened RecordTrace
  import opened Wire

  // ---- the due step ----

  ghost predicate NotBefore(ts: seq<PendingTimer>, step: nat) {
    forall t :: t in ts ==> t.dueStep >= step
  }

  lemma {:induction false} DueMembers(ts: seq<PendingTimer>, step: U64, t: PendingTimer)
    ensures t in Due(ts, step) <==> t in ts && t.dueStep <= step
    ensures t in NotDue(ts, step) <==> t in ts && t.dueStep > step
  {
    if ts != [] { DueMembers(ts[1..], step, t); }
  }

  lemma {:induction false} ScheduledAhead(ts: seq<NewTimer>, step: U64)
    requires step < U64_MAX && forall t :: t in ts ==> t.delay > 0
    ensures NotBefore(Schedule(ts, step), step + 1)
  {
    if ts != [] {
      assert ts[0] in ts;
      ScheduledAhead(ts[1..], step);
    }
  }

  lemma {:induction false} OutboxDelays(cfg: Config, s: Sys, from: Uuid, outbox: seq<Outgoing>, out: Effects)
    requires ProcessOutbox(cfg, s, from, outbox) == Ok(out)
    ensures forall t :: t in out.timers ==> t.delay > 0
    decreases |outbox|
  {
    hide Dispatch;
    if outbox != [] {
      if outbox[0].delaySteps > 0 {
        var s1 := s.(timerCounter := SatAdd(s.timerCounter, 1));
        OutboxDelays(cfg, s1, from, outbox[1..], ProcessOutbox(cfg, s1, from, outbox[1..]).value);
      } else {
        var s1 := Dispatch(cfg, s, from, outbox[0].target, outbox[0].payload).value.0;
        OutboxDelays(cfg, s1, from, outbox[1..], ProcessOutbox(cfg, s1, from, outbox[1..]).value);
      }
    }
  }

  lemma HandleDelays(cfg: Config, s: Sys, to: Uuid, e: Entry, h: Effects)
    requires Handle(cfg, s, to, e) == Ok(h)
    ensures forall t :: t in h.timers ==> t.delay > 0
  {
    hide ExecHandler;
    hide ProcessOutbox;
    hide EffectSeq;
    var a := s.actors[to];
    var run := ExecHandler(cfg, Call(a.service, e.id, e.payload.msg), a.store).value;
    var s1 := s.(actors := s.actors[to := a.(store := run.exec.store)]);
    OutboxDelays(cfg, s1, to, run.exec.outbox, ProcessOutbox(cfg, s1, to, run.exec.outbox).value);
  }

  lemma StepWaits(cfg: Config, r: RecState, step: U64, arrivals: seq<WireEnvelope>, m: RecMove)
    requires RecordStep(cfg, r, step, arrivals) == Ok(m) && step < U64_MAX
    ensures NotBefore(m.state.timers, step + 1)
  {
    hide Drain;
    hide FireAll;
    hide Handle;
    hide Due;
    hide NotDue;
    hide Schedule;
    var d := DrainStep(cfg, r, step, arrivals).state;
    var f := FireDue(cfg, d, step).value.state;
    forall t | t in f.timers ensures t.dueStep >= step + 1 { DueMembers(d.timers, step, t); }
    if LeastReady(f.sys.actors).Some? {
      var to := LeastReady(f.sys.actors).value;
      var p := Pop(f.sys, to).value;
      var h := Handle(cfg, p.sys, to, p.entry).value;
      HandleDelays(cfg, p.sys, to, p.entry, h);
      ScheduledAhead(h.timers, step);
    }
  }

  /** No timer that is pending before step n was due earlier. */
  lemma TimersWait(cfg: Config, r0: RecState, arrivals: seq<seq<WireEnvelope>>, n: nat, m: RecMove)
    requires n <= |arrivals| <= U64_MAX && RecordSteps(cfg, r0, arrivals, n) == Ok(m) && r0.timers == []
    ensures NotBefore(m.state.timers, n)
  {
    hide RecordStep;
    if n > 0 {
      var before := RecordSteps(cfg, r0, arrivals, n - 1).value;
      StepWaits(cfg, before.state, n - 1, arrivals[n - 1], RecordStep(cfg, before.state, n - 1, arrivals[n - 1]).value);
    }
  }

  // ---- the block of a firing ----

  /** This event sends this payload from this actor to this target: to the actor of the service, if that
      is here, and otherwise to the node. */
  predicate Conveys(cfg: Config, ev: EventKind, from: Uuid, target: Target, payload: Payload) {
    && IsSend(ev) && ev.from == from && ev.payload == payload && target.service in cfg.actorOf
    && match target
       case LocalService(service) => ev.Send? && ev.to == cfg.actorOf[service]
       case RemoteService(node, _) => ev.NetSend? && ev.node == cfg.node && ev.toNode == node
  }

  /** This event sends the timer's payload from the timer's actor to the timer's target. */
  predicate Carries(cfg: Config, ev: EventKind, t: TimerCore) {
    Conveys(cfg, ev, t.from, t.target, t.payload)
  }

  lemma DispatchConveys(cfg: Config, s: Sys, from: Uuid, target: Target, payload: Payload, s1: Sys, ev: EventKind)
    requires Dispatch(cfg, s, from, target, payload) == Ok((s1, ev))
    ensures Conveys(cfg, ev, from, target, payload)
  {
  }

  /** The k-th fired timer has its TimerFired event, followed at once by one message with the timer's
      payload from the timer's actor to the timer's target. */
  lemma {:induction false} FiringBlocks(cfg: Config, s: Sys, due: seq<PendingTimer>, f: Fired, k: nat)
    requires FireAll(cfg, s, due) == Ok(f) && k < |due|
    ensures |f.events| == 2 * |due|
    ensures f.events[2 * k] == TimerFired(cfg.node, due[k].core.from, due[k].core.id)
    ensures Carries(cfg, f.events[2 * k + 1], due[k].core)
    decreases |due|
  {
    hide Dispatch;
    hide Conveys;
    var t := due[0].core;
    var d := Dispatch(cfg, s, t.from, t.target, t.payload).value;
    var rest := FireAll(cfg, d.0, due[1..]).value;
    DispatchConveys(cfg, s, t.from, t.target, t.payload, d.0, d.1);
    assert f.events == [TimerFired(cfg.node, t.from, t.id), d.1] + rest.events;
    if |due| > 1 {
      FiringBlocks(cfg, d.0, due[1..], rest, if k > 0 then k - 1 else 0);
    }
  }

  // ---- at most once ----

  function FiredIds(evs: seq<EventKind>): seq<Uuid> {
    if evs == [] then []
    else (if evs[0].TimerFired? then [evs[0].timerId] else []) + FiredIds(evs[1..])
  }

  function PendingIds(ts: seq<PendingTimer>): (r: seq<Uuid>)
    ensures |r| == |ts|
  {
    if ts == [] then [] else [ts[0].core.id] + PendingIds(ts[1..])
  }

  function CoreIds(ts: seq<TimerCore>): (r: seq<Uuid>)
    ensures |r| == |ts|
  {
    if ts == [] then [] else [ts[0].id] + CoreIds(ts[1..])
  }

  /** Ids of earlier counter values, none twice. */
  ghost predicate Once(node: Uuid, counter: U64, ids: multiset<Uuid>) {
    forall id: Uuid :: id in ids ==> ids[id] == 1 && TimerIndex(node, id) < counter
  }

  lemma {:induction false} FiredIdsAppend(a: seq<EventKind>, b: seq<EventKind>)
    ensures FiredIds(a + b) == FiredIds(a) + FiredIds(b)
    decreases |a|
  {
    if a == [] {
      assert a + b == b;
    } else {
      assert (a + b)[0] == a[0] && (a + b)[1..] == a[1..] + b;
      FiredIdsAppend(a[1..], b);
      var first := if a[0].TimerFired? then [a[0].timerId] else [];
      assert first + (FiredIds(a[1..]) + FiredIds(b)) == first + FiredIds(a[1..]) + FiredIds(b);
    }
  }

  lemma {:induction false} NoFirings(evs: seq<EventKind>)
    requires forall e :: e in evs ==> !e.TimerFired?
    ensures FiredIds(evs) == []
  {
    if evs != [] {
      assert evs[0] in evs;
      NoFirings(evs[1..]);
    }
  }

  lemma {:induction false} FiredIdsOfDue(cfg: Config, s: Sys, due: seq<PendingTimer>, f: Fired)
    requires FireAll(cfg, s, due) == Ok(f)
    ensures FiredIds(f.events) == PendingIds(due)
    decreases |due|
  {
    hide Dispatch;
    if due != [] {
      var t := due[0].core;
      var d := Dispatch(cfg, s, t.from, t.target, t.payload).value;
      var rest := FireAll(cfg, d.0, due[1..]).value;
      DispatchLocal(cfg, s, t.from, t.target, t.payload, d.0, d.1);
      FiredIdsOfDue(cfg, d.0, due[1..], rest);
      var fired := TimerFired(cfg.node, t.from, t.id);
      assert f.events == [fired] + ([d.1] + rest.events);
      assert ([fired] + ([d.1] + rest.events))[1..] == [d.1] + rest.events;
      assert ([d.1] + rest.events)[1..] == rest.events;
    }
  }

  lemma {:induction false} IdsSplit(ts: seq<PendingTimer>, step: U64)
    ensures multiset(PendingIds(ts)) == multiset(PendingIds(Due(ts, step))) + multiset(PendingIds(NotDue(ts, step)))
  {
    if ts != [] {
      IdsSplit(ts[1..], step);
      assert PendingIds(ts) == [ts[0].core.id] + PendingIds(ts[1..]);
      if ts[0].dueStep <= step {
        assert PendingIds(Due(ts, step)) == [ts[0].core.id] + PendingIds(Due(ts[1..], step));
      } else {
        assert PendingIds(NotDue(ts, step)) == [ts[0].core.id] + PendingIds(NotDue(ts[1..], step));
      }
    }
  }

  lemma {:induction false} IdsOfInsert(x: PendingTimer, s: seq<PendingTimer>)
    ensures multiset(PendingIds(InsertBy(TimerKey, x, s))) == multiset(PendingIds(s)) + multiset{x.core.id}
  {
    if s == [] || TimerKey(x) < TimerKey(s[0]) {
      assert PendingIds([x] + s) == [x.core.id] + PendingIds(s);
    } else {
      IdsOfInsert(x, s[1..]);
      assert PendingIds(s) == [s[0].core.id] + PendingIds(s[1..]);
      assert PendingIds(InsertBy(TimerKey, x, s)) == [s[0].core.id] + PendingIds(InsertBy(TimerKey, x, s[1..]));
    }
  }

  lemma {:induction false} IdsAppend(a: seq<PendingTimer>, b: seq<PendingTimer>)
    ensures PendingIds(a + b) == PendingIds(a) + PendingIds(b)
    decreases |a|
  {
    if a == [] {
      assert a + b == b;
    } else {
      assert (a + b)[1..] == a[1..] + b;
      IdsAppend(a[1..], b);
    }
  }

  lemma {:induction false} IdsOfSort(s: seq<PendingTimer>)
    ensures multiset(PendingIds(SortBy(TimerKey, s))) == multiset(PendingIds(s))
  {
    if s != [] {
      var front := s[..|s| - 1];
      var last := s[|s| - 1];
      IdsOfSort(front);
      IdsOfInsert(last, SortBy(TimerKey, front));
      assert s == front + [last];
      IdsAppend(front, [last]);
      assert PendingIds([last]) == [last.core.id];
    }
  }

  lemma {:induction false} IdsOfSchedule(ts: seq<NewTimer>, step: U64)
    ensures PendingIds(Schedule(ts, step)) == CoreIds(Cores(ts))
  {
    if ts != [] {
      IdsOfSchedule(ts[1..], step);
      assert Schedule(ts, step)[1..] == Schedule(ts[1..], step);
      assert Cores(ts)[1..] == Cores(ts[1..]);
    }
  }

  lemma OneFreshId(node: Uuid, counter: U64, ids: multiset<Uuid>)
    requires Once(node, counter, ids) && counter < U64_MAX
    ensures Once(node, counter + 1, ids + multiset{TimerId(node, counter)})
  {
    IdsDetermineCounters(node, counter, counter);
  }

  lemma OutboxCounts(cfg: Config, s: Sys, from: Uuid, outbox: seq<Outgoing>, out: Effects)
    requires ProcessOutbox(cfg, s, from, outbox) == Ok(out)
    ensures s.timerCounter <= out.sys.timerCounter
  {
    OutboxTimers(cfg, s, from, outbox, out, multiset{});
  }

  lemma OneMoreCore(t: NewTimer, rest: seq<NewTimer>)
    ensures CoreIds(Cores([t] + rest)) == [t.core.id] + CoreIds(Cores(rest))
  {
    assert ([t] + rest)[1..] == rest;
    assert Cores([t] + rest)[1..] == Cores(rest);
  }

  lemma {:induction false} OutboxIds(cfg: Config, s: Sys, from: Uuid, outbox: seq<Outgoing>, out: Effects, ids: multiset<Uuid>)
    requires ProcessOutbox(cfg, s, from, outbox) == Ok(out) && out.sys.timerCounter < U64_MAX
    requires Once(cfg.node, s.timerCounter, ids)
    ensures Once(cfg.node, out.sys.timerCounter, ids + multiset(CoreIds(Cores(out.timers))))
    decreases |outbox|
  {
    hide Dispatch;
    hide Once;
    hide TimerId;
    hide CoreIds;
    NoIds();
    if outbox == [] {
      assert ids + multiset(CoreIds(Cores([]))) == ids;
    } else if outbox[0].delaySteps > 0 {
      var id := TimerId(cfg.node, s.timerCounter);
      var s1 := s.(timerCounter := SatAdd(s.timerCounter, 1));
      var rest := ProcessOutbox(cfg, s1, from, outbox[1..]).value;
      OutboxCounts(cfg, s1, from, outbox[1..], rest);
      OneFreshId(cfg.node, s.timerCounter, ids);
      OutboxIds(cfg, s1, from, outbox[1..], rest, ids + multiset{id});
      OneMoreCore(out.timers[0], rest.timers);
      assert out.timers == [out.timers[0]] + rest.timers;
      assert ids + multiset(CoreIds(Cores(out.timers))) == ids + multiset{id} + multiset(CoreIds(Cores(rest.timers)));
    } else {
      var s1 := Dispatch(cfg, s, from, outbox[0].target, outbox[0].payload).value.0;
      DispatchKeepsTimers(cfg, s, from, outbox[0].target, outbox[0].payload);
      OutboxIds(cfg, s1, from, outbox[1..], ProcessOutbox(cfg, s1, from, outbox[1..]).value, ids);
    }
  }

  lemma NoIds()
    ensures CoreIds(Cores([])) == []
  {
  }

  lemma HandleIds(cfg: Config, s: Sys, to: Uuid, e: Entry, h: Effects, ids: multiset<Uuid>)
    requires Handle(cfg, s, to, e) == Ok(h) && h.sys.timerCounter < U64_MAX && Once(cfg.node, s.timerCounter, ids)
    ensures Once(cfg.node, h.sys.timerCounter, ids + multiset(CoreIds(Cores(h.timers))))
  {
    hide ExecHandler;
    hide ProcessOutbox;
    hide EffectSeq;
    hide Once;
    var a := s.actors[to];
    var run := ExecHandler(cfg, Call(a.service, e.id, e.payload.msg), a.store).value;
    var s1 := s.(actors := s.actors[to := a.(store := run.exec.store)]);
    OutboxIds(cfg, s1, to, run.exec.outbox, ProcessOutbox(cfg, s1, to, run.exec.outbox).value, ids);
  }

  /** The ids that have fired and those that are pending, together. */
  ghost predicate TimersOnce(cfg: Config, r: RecState, evs: seq<EventKind>) {
    Once(cfg.node, r.sys.timerCounter, multiset(FiredIds(evs)) + multiset(PendingIds(r.timers)))
  }

  lemma FireKeepsOnce(cfg: Config, r: RecState, step: U64, evs: seq<EventKind>, m: RecMove)
    requires FireDue(cfg, r, step) == Ok(m) && TimersOnce(cfg, r, evs)
    ensures TimersOnce(cfg, m.state, evs + m.events) && m.state.sys.timerCounter == r.sys.timerCounter
  {
    hide Once;
    hide FireAll;
    hide Due;
    hide NotDue;
    hide SortBy;
    hide PendingIds;
    hide FiredIds;
    var due := SortBy(TimerKey, Due(r.timers, step));
    var f := FireAll(cfg, r.sys, due).value;
    IdsSplit(r.timers, step);
    IdsOfSort(Due(r.timers, step));
    FiredIdsOfDue(cfg, r.sys, due, f);
    FiredIdsAppend(evs, m.events);
    FireAllKeepsTimers(cfg, r.sys, due);
    assert multiset(FiredIds(evs + m.events)) + multiset(PendingIds(m.state.timers))
        == multiset(FiredIds(evs)) + multiset(PendingIds(r.timers));
  }

  lemma DeliverKeepsOnce(cfg: Config, r: RecState, step: U64, evs: seq<EventKind>, m: RecMove)
    requires DeliverNext(cfg, r, step) == Ok(m) && TimersOnce(cfg, r, evs) && m.state.sys.timerCounter < U64_MAX
    ensures TimersOnce(cfg, m.state, evs + m.events)
  {
    hide Once;
    hide Handle;
    hide FiredIds;
    hide PendingIds;
    FiredIdsAppend(evs, m.events);
    if LeastReady(r.sys.actors).None? {
      NoFirings([]);
      assert FiredIds(evs) + [] == FiredIds(evs);
    } else {
      var to := LeastReady(r.sys.actors).value;
      var p := Pop(r.sys, to).value;
      var h := Handle(cfg, p.sys, to, p.entry).value;
      DeliveryFiresNothing(cfg, r, step, m);
      NoFirings(m.events);
      HandleIds(cfg, p.sys, to, p.entry, h, multiset(FiredIds(evs)) + multiset(PendingIds(r.timers)));
      IdsOfSchedule(h.timers, step);
      IdsAppend(r.timers, Schedule(h.timers, step));
      assert multiset(FiredIds(evs + m.events)) + multiset(PendingIds(m.state.timers))
          == multiset(FiredIds(evs)) + multiset(PendingIds(r.timers)) + multiset(CoreIds(Cores(h.timers)));
    }
  }

  lemma DeliveryFiresNothing(cfg: Config, r: RecState, step: U64, m: RecMove)
    requires DeliverNext(cfg, r, step) == Ok(m)
    ensures forall e :: e in m.events ==> !e.TimerFired?
  {
    hide Handle;
    if LeastReady(r.sys.actors).Some? {
      var to := LeastReady(r.sys.actors).value;
      var p := Pop(r.sys, to).value;
      var h := Handle(cfg, p.sys, to, p.entry).value;
      var d := Deliver(cfg.node, to, p.entry.id);
      assert CoreStep(cfg, Core(r.sys, []), d) == Ok(Move(Core(h.sys, [] + Cores(h.timers)), h.emitted));
      EmittedAreEmissions(cfg, Core(r.sys, []), d);
    }
  }

  lemma StepKeepsOnce(cfg: Config, r: RecState, step: U64, arrivals: seq<WireEnvelope>, evs: seq<EventKind>, m: RecMove)
    requires RecordStep(cfg, r, step, arrivals) == Ok(m) && TimersOnce(cfg, r, evs) && m.state.sys.timerCounter < U64_MAX
    requires HoldsOwn(r.inj, cfg.node)
    ensures TimersOnce(cfg, m.state, evs + m.events)
  {
    hide TimersOnce;
    hide Drain;
    hide FireDue;
    hide DeliverNext;
    hide RecvEvents;
    var d := DrainStep(cfg, r, step, arrivals);
    DrainFiresNothing(cfg, r, step, arrivals, evs);
    var f := FireDue(cfg, d.state, step).value;
    FireKeepsOnce(cfg, d.state, step, evs + d.events, f);
    DeliverKeepsOnce(cfg, f.state, step, evs + d.events + f.events, DeliverNext(cfg, f.state, step).value);
    assert evs + m.events == evs + d.events + f.events + DeliverNext(cfg, f.state, step).value.events;
  }

  lemma DrainFiresNothing(cfg: Config, r: RecState, step: U64, arrivals: seq<WireEnvelope>, evs: seq<EventKind>)
    requires TimersOnce(cfg, r, evs) && HoldsOwn(r.inj, cfg.node)
    ensures TimersOnce(cfg, DrainStep(cfg, r, step, arrivals).state, evs + DrainStep(cfg, r, step, arrivals).events)
  {
    hide Once;
    hide Drain;
    hide FiredIds;
    hide PendingIds;
    var d := DrainStep(cfg, r, step, arrivals);
    DrainQuiet(r.inj, cfg.node, step, arrivals);
    FiredIdsAppend(evs, d.events);
    NoFirings(d.events);
    assert FiredIds(evs) + [] == FiredIds(evs);
  }

  lemma {:induction false} RunKeepsOnce(cfg: Config, r0: RecState, arrivals: seq<seq<WireEnvelope>>, n: nat, m: RecMove)
    requires n <= |arrivals| <= U64_MAX && RecordSteps(cfg, r0, arrivals, n) == Ok(m)
    requires r0.timers == [] && HoldsOwn(r0.inj, cfg.node) && m.state.sys.timerCounter < U64_MAX
    ensures TimersOnce(cfg, m.state, m.events)
  {
    hide RecordStep;
    if n == 0 {
      assert PendingIds([]) == [] && FiredIds([]) == [];
    } else {
      hide TimersOnce;
      var before := RecordSteps(cfg, r0, arrivals, n - 1).value;
      TimerCounterGrows(cfg, before.state, n - 1, arrivals[n - 1]);
      RunKeepsOnce(cfg, r0, arrivals, n - 1, before);
      RecordStepsNeedAtMost(cfg, r0, arrivals, n - 1);
      StepKeepsOnce(cfg, before.state, n - 1, arrivals[n - 1], before.events, RecordStep(cfg, before.state, n - 1, arrivals[n - 1]).value);
    }
  }

  lemma {:induction false} FiredAt(evs: seq<EventKind>, i: nat)
    requires i < |evs| && evs[i].TimerFired?
    ensures evs[i].timerId in FiredIds(evs)
  {
    if i > 0 { FiredAt(evs[1..], i - 1); }
  }

  /** A timer that has fired is pending no more. */
  lemma FiredIsGone(cfg: Config, r0: RecState, arrivals: seq<seq<WireEnvelope>>, n: nat, m: RecMove, i: nat)
    requires n <= |arrivals| <= U64_MAX && RecordSteps(cfg, r0, arrivals, n) == Ok(m)
    requires r0.timers == [] && HoldsOwn(r0.inj, cfg.node) && m.state.sys.timerCounter < U64_MAX
    requires i < |m.events| && m.events[i].TimerFired?
    ensures forall t :: t in m.state.timers ==> t.core.id != m.events[i].timerId
  {
    hide RecordSteps;
    RunKeepsOnce(cfg, r0, arrivals, n, m);
    FiredAt(m.events, i);
    var id := m.events[i].timerId;
    var fired := multiset(FiredIds(m.events));
    assert id in fired && id in fired + multiset(PendingIds(m.state.timers));
    forall t | t in m.state.timers ensures t.core.id != id {
      PendingAt(m.state.timers, t);
      assert t.core.id in multiset(PendingIds(m.state.timers));
    }
  }

  /** No timer fires twice: two TimerFired events of a run never name the same timer, and neither is
      pending any more. */
  lemma FiresAtMostOnce(cfg: Config, r0: RecState, arrivals: seq<seq<WireEnvelope>>, n: nat, m: RecMove, i: nat, j: nat)
    requires n <= |arrivals| <= U64_MAX && RecordSteps(cfg, r0, arrivals, n) == Ok(m)
    requires r0.timers == [] && HoldsOwn(r0.inj, cfg.node) && m.state.sys.timerCounter < U64_MAX
    requires i < j < |m.events| && m.events[i].TimerFired? && m.events[j].TimerFired?
    ensures m.events[i].timerId != m.events[j].timerId
    ensures forall t :: t in m.state.timers ==> t.core.id != m.events[i].timerId
  {
    hide RecordSteps;
    RunKeepsOnce(cfg, r0, arrivals, n, m);
    FiredIsGone(cfg, r0, arrivals, n, m, i);
    var a, b := m.events[..j], m.events[j..];
    assert m.events == a + b;
    FiredIdsAppend(a, b);
    FiredAt(a, i);
    FiredAt(b, 0);
    var id := m.events[i].timerId;
    var fired := FiredIds(m.events);
    assert id in multiset(FiredIds(a)) && m.events[j].timerId in multiset(FiredIds(b));
    assert multiset(fired) == multiset(FiredIds(a)) + multiset(FiredIds(b));
    assert id in multiset(fired) + multiset(PendingIds(m.state.timers));
  }

  lemma {:induction false} PendingAt(ts: seq<PendingTimer>, t: PendingTimer)
    requires t in ts
    ensures t.core.id in PendingIds(ts)
  {
    if t != ts[0] { PendingAt(ts[1..], t); }
  }
}
