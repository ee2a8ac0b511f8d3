/** Replay accepts what record wrote. */
module RecordReplay {
  import opened Base
  import opened Sorting
  import opened Events
  import opened Interp
  import opened Faults
  import opened InjectorSpec
  import opened Node
  import opened RecordSpec
  import opened ReplaySpec

  function TimerCores(ts: seq<PendingTimer>): (r: seq<TimerCore>)
    ensures |r| == |ts|
    ensures forall i :: 0 <= i < |ts| ==> r[i] == ts[i].core
  {
    if ts == [] then [] else [ts[0].core] + TimerCores(ts[1..])
  }

  /** Equal actors and counters, and the same pending timers up to order and due step. */
  ghost predicate Sim(r: RecState, c: Core) {
    r.sys == c.sys && multiset(TimerCores(r.timers)) == multiset(c.timers)
  }

  /** Pending timers carry the ids of earlier counter values, and an id names one timer. */
  ghost predicate TimersOk(cfg: Config, counter: U64, ts: multiset<TimerCore>) {
    && (forall t :: t in ts ==> TimerIndex(cfg.node, t.id) < counter)
    && IdsNameTimers(ts)
  }

  /** Everything the injector holds is addressed to this node. */
  ghost predicate HoldsOwn(inj: Injector, node: Uuid) {
    && (forall s :: s in inj.reorderBuf ==> s.env.toNode == node)
    && (forall s :: s in inj.pending ==> s.env.toNode == node)
  }

  ghost predicate FaultsOnly(node: Uuid, evs: seq<EventKind>) {
    forall e :: e in evs ==> (e.FaultInjected? || e.FaultPolicyEvent?) && e.node == node
  }

  // ---- the injector writes fault events only, and keeps only envelopes for this node ----

  lemma {:induction false} ReverseElements<T>(s: seq<T>)
    ensures forall x :: x in Reverse(s) <==> x in s
  {
    if s != [] { ReverseElements(s[1..]); }
  }

  lemma {:induction false} ReorderEventsAreFaults(node: Uuid, chunk: seq<Staged>, window: U64)
    ensures FaultsOnly(node, ReorderEvents(node, chunk, window))
  {
    if chunk != [] { ReorderEventsAreFaults(node, chunk[1..], window); }
  }

  ghost predicate Quiet(m: Moved, node: Uuid) {
    FaultsOnly(node, m.events) && HoldsOwn(m.inj, node)
  }

  lemma FlushChunkQuiet(inj: Injector, node: Uuid, window: U64)
    requires HoldsOwn(inj, node)
    ensures Quiet(FlushChunk(inj, node, window), node)
  {
    if inj.reorderBuf != [] {
      var take := if window <= |inj.reorderBuf| then window else |inj.reorderBuf|;
      ReverseElements(inj.reorderBuf[..take]);
      ReorderEventsAreFaults(node, inj.reorderBuf[..take], window);
    }
  }

  lemma {:induction false} FlushFullQuiet(inj: Injector, node: Uuid, window: U64)
    requires window > 0 && HoldsOwn(inj, node)
    ensures Quiet(FlushFull(inj, node, window), node)
    decreases |inj.reorderBuf|
  {
    if |inj.reorderBuf| >= window {
      FlushChunkQuiet(inj, node, window);
      FlushFullQuiet(FlushChunk(inj, node, window).inj, node, window);
    }
  }

  lemma SyncPolicyQuiet(inj: Injector, node: Uuid, step: U64)
    requires HoldsOwn(inj, node)
    ensures Quiet(SyncPolicy(inj, node, step), node)
  {
    FlushChunkQuiet(inj, node, inj.active.reorderWindow);
  }

  lemma IngestQuiet(inj: Injector, node: Uuid, step: U64, env: WireEnvelope)
    requires HoldsOwn(inj, node) && env.toNode == node
    ensures Quiet(Ingest(inj, node, step, env), node)
  {
    SyncPolicyQuiet(inj, node, step);
    var s := SyncPolicy(inj, node, step).inj;
    var p := s.active;
    if p.reorderWindow > 1 {
      var staged := Staged(env, SatAdd(step, p.delaySteps));
      FlushFullQuiet(s.(seen := WrapInc(s.seen), reorderBuf := s.reorderBuf + [staged]), node, p.reorderWindow);
    }
  }

  lemma {:induction false} IngestAllQuiet(inj: Injector, node: Uuid, step: U64, arrivals: seq<WireEnvelope>)
    requires HoldsOwn(inj, node)
    ensures Quiet(IngestAll(inj, node, step, arrivals), node)
    decreases |arrivals|
  {
    if arrivals != [] {
      var last := arrivals[|arrivals| - 1];
      IngestAllQuiet(inj, node, step, arrivals[..|arrivals| - 1]);
      if last.toNode == node {
        IngestQuiet(IngestAll(inj, node, step, arrivals[..|arrivals| - 1]).inj, node, step, last);
      }
    }
  }

  lemma DrainQuiet(inj: Injector, node: Uuid, step: U64, arrivals: seq<WireEnvelope>)
    requires HoldsOwn(inj, node)
    ensures var d := Drain(inj, node, step, arrivals);
            FaultsOnly(node, d.events) && HoldsOwn(d.inj, node)
            && forall e :: e in d.released ==> e.toNode == node
  {
    SyncPolicyQuiet(inj, node, step);
    var s := SyncPolicy(inj, node, step).inj;
    IngestAllQuiet(s, node, step, arrivals);
    var a := IngestAll(s, node, step, arrivals).inj;
    FlushChunkQuiet(a, node, a.active.reorderWindow);
    var f := FlushRemainder(a, node, a.active.reorderWindow).inj;
    var due := DueCount(f.pending, step);
    OwnEnvelopes(f.pending[..due], node);
  }

  lemma {:induction false} OwnEnvelopes(s: seq<Staged>, node: Uuid)
    requires forall x :: x in s ==> x.env.toNode == node
    ensures forall e :: e in Envelopes(s) ==> e.toNode == node
  {
    if s != [] { OwnEnvelopes(s[1..], node); }
  }

  // ---- following the events of one step ----

  /** Whatever comes next, the machine takes these events on its way from one state to another. */
  ghost predicate Advances(cfg: Config, c: Core, evs: seq<EventKind>, c': Core) {
    forall rest :: Follows(cfg, c, evs + rest) == Follows(cfg, c', rest)
  }

  lemma AdvancesNowhere(cfg: Config, c: Core)
    ensures Advances(cfg, c, [], c)
  {
    forall rest: seq<EventKind> ensures Follows(cfg, c, [] + rest) == Follows(cfg, c, rest) {
      assert [] + rest == rest;
    }
  }

  lemma AdvancesOn(cfg: Config, c: Core, a: seq<EventKind>, c1: Core, b: seq<EventKind>, c2: Core)
    requires Advances(cfg, c, a, c1) && Advances(cfg, c1, b, c2)
    ensures Advances(cfg, c, a + b, c2)
  {
    forall rest: seq<EventKind> ensures Follows(cfg, c, a + b + rest) == Follows(cfg, c2, rest) {
      assert a + b + rest == a + (b + rest);
    }
  }

  lemma AdvancesByStep(cfg: Config, c: Core, ev: EventKind, c': Core, emitted: seq<EventKind>)
    requires CoreStep(cfg, c, ev) == Ok(Move(c', emitted))
    ensures Advances(cfg, c, [ev] + emitted, c')
  {
    forall rest: seq<EventKind> ensures Follows(cfg, c, [ev] + emitted + rest) == Follows(cfg, c', rest) {
      FollowsBlock(cfg, c, ev, rest);
    }
  }

  lemma {:induction false} AdvancesByFaults(cfg: Config, c: Core, evs: seq<EventKind>)
    requires FaultsOnly(cfg.node, evs)
    ensures Advances(cfg, c, evs, c)
    decreases |evs|
  {
    if evs == [] {
      AdvancesNowhere(cfg, c);
    } else {
      assert evs[0] in evs;
      AdvancesByStep(cfg, c, evs[0], c, []);
      AdvancesByFaults(cfg, c, evs[1..]);
      AdvancesOn(cfg, c, [evs[0]] + [], c, evs[1..], c);
      assert evs == [evs[0]] + [] + evs[1..];
    }
  }

  lemma {:induction false} AdvancesByReceipts(cfg: Config, c: Core, envs: seq<WireEnvelope>)
    requires forall e :: e in envs ==> e.toNode == cfg.node
    ensures Advances(cfg, c, RecvEvents(envs), c.(sys := c.sys.(actors := PushAll(c.sys.actors, envs))))
    decreases |envs|
  {
    if envs == [] {
      AdvancesNowhere(cfg, c);
    } else {
      var ev := RecvEvents(envs)[0];
      var c1 := c.(sys := c.sys.(actors := Push(c.sys.actors, envs[0].toActor, Entry(envs[0].msgId, envs[0].payload))));
      var c2 := c.(sys := c.sys.(actors := PushAll(c.sys.actors, envs)));
      AdvancesByStep(cfg, c, ev, c1, []);
      AdvancesByReceipts(cfg, c1, envs[1..]);
      AdvancesOn(cfg, c, [ev] + [], c1, RecvEvents(envs[1..]), c2);
      assert RecvEvents(envs) == [ev] + [] + RecvEvents(envs[1..]);
    }
  }

  /** Replay finds the timer that record fired, wherever its own list keeps it. */
  lemma FindsTimer(ts: seq<TimerCore>, t: TimerCore)
    requires t in ts
    requires forall u :: u in ts && u.id == t.id && u.from == t.from ==> u == t
    ensures FindTimer(ts, t.from, t.id) < |ts| && ts[FindTimer(ts, t.from, t.id)] == t
  {
    var i := FindTimer(ts, t.from, t.id);
    var j :| 0 <= j < |ts| && ts[j] == t;
    if i < |ts| { assert ts[i] in ts; }
  }

  ghost predicate IdsNameTimers(ts: multiset<TimerCore>) {
    forall t, u :: t in ts && u in ts && t.id == u.id ==> t == u
  }

  /** No two different timers share both id and actor, which is all a TimerFired event tells of them. */
  ghost predicate TimersTellable(ts: multiset<TimerCore>) {
    forall t, u :: t in ts && u in ts && t.id == u.id && t.from == u.from ==> t == u
  }

  /** Replaying one firing: the timer leaves the list, its message goes out. */
  lemma AdvancesByFiring(cfg: Config, c: Core, t: TimerCore, s1: Sys, sent: EventKind) returns (c1: Core)
    requires t in multiset(c.timers) && TimersTellable(multiset(c.timers))
    requires Dispatch(cfg, c.sys, t.from, t.target, t.payload) == Ok((s1, sent))
    ensures Advances(cfg, c, [TimerFired(cfg.node, t.from, t.id), sent], c1)
    ensures c1.sys == s1 && multiset(c1.timers) == multiset(c.timers) - multiset{t}
  {
    forall u | u in c.timers && u.id == t.id && u.from == t.from ensures u == t { assert u in multiset(c.timers); }
    FindsTimer(c.timers, t);
    c1 := Core(s1, SwapRemove(c.timers, FindTimer(c.timers, t.from, t.id)));
    var ev := TimerFired(cfg.node, t.from, t.id);
    AdvancesByStep(cfg, c, ev, c1, [sent]);
    assert [ev, sent] == [ev] + [sent];
  }

  lemma {:induction false} AdvancesByFirings(cfg: Config, c: Core, due: seq<PendingTimer>, kept: multiset<TimerCore>)
    returns (c': Core)
    requires multiset(c.timers) == kept + multiset(TimerCores(due)) && TimersTellable(multiset(c.timers))
    requires FireAll(cfg, c.sys, due).Ok?
    ensures Advances(cfg, c, FireAll(cfg, c.sys, due).value.events, c')
    ensures c'.sys == FireAll(cfg, c.sys, due).value.sys && multiset(c'.timers) == kept
    decreases |due|
  {
    hide Advances;
    hide Dispatch;
    if due == [] {
      c' := c;
      AdvancesNowhere(cfg, c);
    } else {
      var t := due[0].core;
      var (s1, sent) := Dispatch(cfg, c.sys, t.from, t.target, t.payload).value;
      var later := FireAll(cfg, s1, due[1..]).value.events;
      assert TimerCores(due) == [t] + TimerCores(due[1..]);
      var c1 := AdvancesByFiring(cfg, c, t, s1, sent);
      c' := AdvancesByFirings(cfg, c1, due[1..], kept);
      AdvancesOn(cfg, c, [TimerFired(cfg.node, t.from, t.id), sent], c1, later, c');
    }
  }

  lemma {:induction false} DueSplits(ts: seq<PendingTimer>, step: U64)
    ensures multiset(TimerCores(ts)) == multiset(TimerCores(Due(ts, step))) + multiset(TimerCores(NotDue(ts, step)))
  {
    if ts != [] {
      DueSplits(ts[1..], step);
      assert TimerCores(ts) == [ts[0].core] + TimerCores(ts[1..]);
      if ts[0].dueStep <= step {
        assert TimerCores(Due(ts, step)) == [ts[0].core] + TimerCores(Due(ts[1..], step));
      } else {
        assert TimerCores(NotDue(ts, step)) == [ts[0].core] + TimerCores(NotDue(ts[1..], step));
      }
    }
  }

  lemma {:induction false} CoresOfInsert(x: PendingTimer, s: seq<PendingTimer>)
    ensures multiset(TimerCores(InsertBy(TimerKey, x, s))) == multiset(TimerCores(s)) + multiset{x.core}
  {
    if s == [] || TimerKey(x) < TimerKey(s[0]) {
      assert TimerCores([x] + s) == [x.core] + TimerCores(s);
    } else {
      CoresOfInsert(x, s[1..]);
      assert TimerCores(s) == [s[0].core] + TimerCores(s[1..]);
      assert TimerCores(InsertBy(TimerKey, x, s)) == [s[0].core] + TimerCores(InsertBy(TimerKey, x, s[1..]));
    }
  }

  lemma {:induction false} CoresOfSort(s: seq<PendingTimer>)
    ensures multiset(TimerCores(SortBy(TimerKey, s))) == multiset(TimerCores(s))
  {
    if s != [] {
      var front := s[..|s| - 1];
      CoresOfSort(front);
      CoresOfInsert(s[|s| - 1], SortBy(TimerKey, front));
      assert s == front + [s[|s| - 1]];
      CoresAppend(front, [s[|s| - 1]]);
      assert TimerCores([s[|s| - 1]]) == [s[|s| - 1].core];
    }
  }

  lemma {:induction false} CoresOfSchedule(ts: seq<NewTimer>, step: U64)
    ensures TimerCores(Schedule(ts, step)) == Cores(ts)
  {
    if ts != [] {
      CoresOfSchedule(ts[1..], step);
      assert TimerCores(Schedule(ts, step)) == [ts[0].core] + TimerCores(Schedule(ts[1..], step));
    }
  }

  lemma CoresAppend(a: seq<PendingTimer>, b: seq<PendingTimer>)
    ensures TimerCores(a + b) == TimerCores(a) + TimerCores(b)
  {
  }

  // ---- timer ids ----

  lemma DispatchKeepsTimers(cfg: Config, s: Sys, from: Uuid, target: Target, payload: Payload)
    requires Dispatch(cfg, s, from, target, payload).Ok?
    ensures Dispatch(cfg, s, from, target, payload).value.0.timerCounter == s.timerCounter
  {
  }

  lemma {:induction false} FireAllKeepsTimers(cfg: Config, s: Sys, due: seq<PendingTimer>)
    requires FireAll(cfg, s, due).Ok?
    ensures FireAll(cfg, s, due).value.sys.timerCounter == s.timerCounter
    decreases |due|
  {
    if due != [] {
      var t := due[0].core;
      FireAllKeepsTimers(cfg, Dispatch(cfg, s, t.from, t.target, t.payload).value.0, due[1..]);
    }
  }

  /** The next timer id clashes with no earlier one, as long as the counter can still advance. */
  lemma NextTimerOk(cfg: Config, counter: U64, t: TimerCore, ts: multiset<TimerCore>)
    requires TimersOk(cfg, counter, ts) && t.id == TimerId(cfg.node, counter) && counter < U64_MAX
    ensures TimersOk(cfg, counter + 1, ts + multiset{t})
  {
    IdsDetermineCounters(cfg.node, counter, counter);
  }

  /** New timers take the next ids; while the counter has not saturated they clash with no pending one. */
  lemma {:induction false} OutboxTimers(cfg: Config, s: Sys, from: Uuid, outbox: seq<Outgoing>, out: Effects, ts: multiset<TimerCore>)
    requires ProcessOutbox(cfg, s, from, outbox) == Ok(out)
    ensures s.timerCounter <= out.sys.timerCounter
    ensures out.sys.timerCounter < U64_MAX && TimersOk(cfg, s.timerCounter, ts) ==>
              TimersOk(cfg, out.sys.timerCounter, ts + multiset(Cores(out.timers)))
    decreases |outbox|
  {
    if outbox == [] {
      assert ts + multiset(Cores([])) == ts;
    } else if outbox[0].delaySteps > 0 {
      var t := TimerCore(TimerId(cfg.node, s.timerCounter), from, outbox[0].target, outbox[0].payload);
      var s1 := s.(timerCounter := SatAdd(s.timerCounter, 1));
      var rest := ProcessOutbox(cfg, s1, from, outbox[1..]).value;
      OutboxTimers(cfg, s1, from, outbox[1..], rest, ts + multiset{t});
      assert Cores(out.timers) == [t] + Cores(rest.timers) by { assert out.timers[1..] == rest.timers; }
      assert ts + multiset(Cores(out.timers)) == ts + multiset{t} + multiset(Cores(rest.timers));
      if out.sys.timerCounter < U64_MAX && TimersOk(cfg, s.timerCounter, ts) {
        NextTimerOk(cfg, s.timerCounter, t, ts);
      }
    } else {
      var s1 := Dispatch(cfg, s, from, outbox[0].target, outbox[0].payload).value.0;
      OutboxTimers(cfg, s1, from, outbox[1..], ProcessOutbox(cfg, s1, from, outbox[1..]).value, ts);
    }
  }

  lemma HandleTimers(cfg: Config, s: Sys, to: Uuid, e: Entry, ts: multiset<TimerCore>)
    requires Handle(cfg, s, to, e).Ok?
    ensures s.timerCounter <= Handle(cfg, s, to, e).value.sys.timerCounter
    ensures var h := Handle(cfg, s, to, e).value;
            h.sys.timerCounter < U64_MAX && TimersOk(cfg, s.timerCounter, ts) ==>
              TimersOk(cfg, h.sys.timerCounter, ts + multiset(Cores(h.timers)))
  {
    var a := s.actors[to];
    var run := ExecHandler(cfg, Call(a.service, e.id, e.payload.msg), a.store).value;
    var s1 := s.(actors := s.actors[to := a.(store := run.exec.store)]);
    OutboxTimers(cfg, s1, to, run.exec.outbox, ProcessOutbox(cfg, s1, to, run.exec.outbox).value, ts);
  }

  // ---- one step, all steps, and the run ----

  /** What the run keeps at every step boundary, as long as the timer counter has not saturated. */
  ghost predicate RecOk(cfg: Config, r: RecState) {
    && HoldsOwn(r.inj, cfg.node)
    && (r.sys.timerCounter < U64_MAX ==> TimersOk(cfg, r.sys.timerCounter, multiset(TimerCores(r.timers))))
  }

  /** A record move that the machine can follow. */
  ghost predicate Followed(cfg: Config, c: Core, m: RecMove, c': Core) {
    Advances(cfg, c, m.events, c') && Sim(m.state, c') && RecOk(cfg, m.state)
  }

  lemma DrainStepFollows(cfg: Config, r: RecState, step: U64, arrivals: seq<WireEnvelope>, c: Core)
    returns (c': Core)
    requires RecOk(cfg, r) && Sim(r, c)
    ensures Followed(cfg, c, DrainStep(cfg, r, step, arrivals), c')
  {
    var d := Drain(r.inj, cfg.node, step, arrivals);
    DrainQuiet(r.inj, cfg.node, step, arrivals);
    c' := c.(sys := c.sys.(actors := PushAll(c.sys.actors, d.released)));
    AdvancesByFaults(cfg, c, d.events);
    AdvancesByReceipts(cfg, c, d.released);
    AdvancesOn(cfg, c, d.events, c, RecvEvents(d.released), c');
  }

  lemma FireDueFollows(cfg: Config, r: RecState, step: U64, m: RecMove, c: Core)
    returns (c': Core)
    requires RecOk(cfg, r) && Sim(r, c) && TimersTellable(multiset(TimerCores(r.timers)))
    requires FireDue(cfg, r, step) == Ok(m)
    ensures Followed(cfg, c, m, c') && m.state.sys.timerCounter == r.sys.timerCounter
  {
    hide Advances;
    hide TimersOk;
    hide HoldsOwn;
    hide TimersTellable;
    hide FireAll;
    hide SortBy;
    hide TimerCores;
    var due := SortBy(TimerKey, Due(r.timers, step));
    CoresOfSort(Due(r.timers, step));
    DueSplits(r.timers, step);
    c' := AdvancesByFirings(cfg, c, due, multiset(TimerCores(NotDue(r.timers, step))));
    FireAllKeepsTimers(cfg, r.sys, due);
    assert Sim(m.state, c');
    if r.sys.timerCounter < U64_MAX {
      FewerTimersOk(cfg, r.sys.timerCounter, multiset(TimerCores(m.state.timers)), multiset(TimerCores(r.timers)));
    }
  }

  /** While the timer counter has not saturated, ids alone tell the pending timers apart. */
  lemma UnsaturatedTellable(cfg: Config, r: RecState)
    requires RecOk(cfg, r) && r.sys.timerCounter < U64_MAX
    ensures TimersTellable(multiset(TimerCores(r.timers)))
  {
  }

  lemma FewerTimersOk(cfg: Config, counter: U64, few: multiset<TimerCore>, all: multiset<TimerCore>)
    requires few <= all && TimersOk(cfg, counter, all)
    ensures TimersOk(cfg, counter, few)
  {
  }

  lemma DeliverNextFollows(cfg: Config, r: RecState, step: U64, c: Core)
    returns (c': Core)
    requires RecOk(cfg, r) && Sim(r, c) && DeliverNext(cfg, r, step).Ok?
    ensures Followed(cfg, c, DeliverNext(cfg, r, step).value, c')
    ensures r.sys.timerCounter <= DeliverNext(cfg, r, step).value.state.sys.timerCounter
  {
    if LeastReady(r.sys.actors).None? {
      c' := c;
      AdvancesNowhere(cfg, c);
    } else {
      var to := LeastReady(r.sys.actors).value;
      var p := Pop(r.sys, to).value;
      var h := Handle(cfg, p.sys, to, p.entry).value;
      c' := Core(h.sys, c.timers + Cores(h.timers));
      AdvancesByStep(cfg, c, Deliver(cfg.node, to, p.entry.id), c', h.emitted);
      HandleTimers(cfg, p.sys, to, p.entry, multiset(TimerCores(r.timers)));
      CoresOfSchedule(h.timers, step);
      CoresAppend(r.timers, Schedule(h.timers, step));
    }
  }

  lemma RecordStepFollows(cfg: Config, r: RecState, step: U64, arrivals: seq<WireEnvelope>, c: Core)
    returns (c': Core)
    requires RecOk(cfg, r) && Sim(r, c) && TimersTellable(multiset(TimerCores(r.timers)))
    requires RecordStep(cfg, r, step, arrivals).Ok?
    ensures Followed(cfg, c, RecordStep(cfg, r, step, arrivals).value, c')
  {
    var d := DrainStep(cfg, r, step, arrivals);
    var c1 := DrainStepFollows(cfg, r, step, arrivals, c);
    var f := FireDue(cfg, d.state, step).value;
    var c2 := FireDueFollows(cfg, d.state, step, f, c1);
    var h := DeliverNext(cfg, f.state, step).value;
    c' := DeliverNextFollows(cfg, f.state, step, c2);
    AdvancesOn(cfg, c, d.events, c1, f.events, c2);
    AdvancesOn(cfg, c, d.events + f.events, c2, h.events, c');
  }

  lemma TimerCounterGrows(cfg: Config, r: RecState, step: U64, arrivals: seq<WireEnvelope>)
    requires RecordStep(cfg, r, step, arrivals).Ok?
    ensures r.sys.timerCounter <= RecordStep(cfg, r, step, arrivals).value.state.sys.timerCounter
  {
    var d := DrainStep(cfg, r, step, arrivals).state;
    FireAllKeepsTimers(cfg, d.sys, SortBy(TimerKey, Due(d.timers, step)));
    var f := FireDue(cfg, d, step).value.state;
    if LeastReady(f.sys.actors).Some? {
      var to := LeastReady(f.sys.actors).value;
      var p := Pop(f.sys, to).value;
      HandleTimers(cfg, p.sys, to, p.entry, multiset{});
    }
  }

  /** Whenever one of the first `n` steps fires its timers, the pending ones can be told apart. */
  ghost predicate RunTellable(cfg: Config, r0: RecState, arrivals: seq<seq<WireEnvelope>>, n: nat)
    requires n <= |arrivals| <= U64_MAX
  {
    forall k: nat :: k < n && RecordSteps(cfg, r0, arrivals, k).Ok? ==>
      TimersTellable(multiset(TimerCores(RecordSteps(cfg, r0, arrivals, k).value.state.timers)))
  }

  lemma LastStepTellable(cfg: Config, r0: RecState, arrivals: seq<seq<WireEnvelope>>, n: nat)
    requires 0 < n <= |arrivals| <= U64_MAX && RunTellable(cfg, r0, arrivals, n) && RecordSteps(cfg, r0, arrivals, n - 1).Ok?
    ensures RunTellable(cfg, r0, arrivals, n - 1)
    ensures TimersTellable(multiset(TimerCores(RecordSteps(cfg, r0, arrivals, n - 1).value.state.timers)))
  {
    hide RecordSteps;
    hide TimersTellable;
  }

  lemma {:induction false} TellableStepsFollow(cfg: Config, r0: RecState, arrivals: seq<seq<WireEnvelope>>, n: nat,
                                               m: RecMove, c0: Core) returns (c: Core)
    requires n <= |arrivals| <= U64_MAX && RecordSteps(cfg, r0, arrivals, n) == Ok(m)
    requires RecOk(cfg, r0) && Sim(r0, c0) && RunTellable(cfg, r0, arrivals, n)
    ensures Followed(cfg, c0, m, c)
  {
    hide RecordStep;
    hide TimersTellable;
    hide Advances;
    hide RecOk;
    hide Sim;
    hide RunTellable;
    if n == 0 {
      c := c0;
      AdvancesNowhere(cfg, c0);
    } else {
      var before := RecordSteps(cfg, r0, arrivals, n - 1).value;
      var last := RecordStep(cfg, before.state, n - 1, arrivals[n - 1]).value;
      LastStepTellable(cfg, r0, arrivals, n);
      var c1 := TellableStepsFollow(cfg, r0, arrivals, n - 1, before, c0);
      c := RecordStepFollows(cfg, before.state, n - 1, arrivals[n - 1], c1);
      AdvancesOn(cfg, c0, before.events, c1, last.events, c);
    }
  }

  /** A run whose timer counter has not saturated at its end is such a run. */
  lemma {:induction false} UnsaturatedRunTellable(cfg: Config, r0: RecState, arrivals: seq<seq<WireEnvelope>>, n: nat, m: RecMove)
    requires n <= |arrivals| <= U64_MAX && RecordSteps(cfg, r0, arrivals, n) == Ok(m)
    requires RecOk(cfg, r0) && m.state.sys.timerCounter < U64_MAX
    ensures RunTellable(cfg, r0, arrivals, n)
  {
    hide RecordStep;
    hide TimersTellable;
    hide Followed;
    hide RecOk;
    if n > 0 {
      var before := RecordSteps(cfg, r0, arrivals, n - 1).value;
      TimerCounterGrows(cfg, before.state, n - 1, arrivals[n - 1]);
      UnsaturatedRunTellable(cfg, r0, arrivals, n - 1, before);
      var c := TellableStepsFollow(cfg, r0, arrivals, n - 1, before, Core(r0.sys, TimerCores(r0.timers)));
      FollowedIsOk(cfg, Core(r0.sys, TimerCores(r0.timers)), before, c);
      UnsaturatedTellable(cfg, before.state);
    }
  }

  lemma FollowedIsOk(cfg: Config, c: Core, m: RecMove, c': Core)
    requires Followed(cfg, c, m, c')
    ensures RecOk(cfg, m.state)
  {
  }

  lemma RecordStepsFollow(cfg: Config, r0: RecState, arrivals: seq<seq<WireEnvelope>>, n: nat, m: RecMove, c0: Core) returns (c: Core)
    requires n <= |arrivals| <= U64_MAX && RecordSteps(cfg, r0, arrivals, n) == Ok(m)
    requires RecOk(cfg, r0) && Sim(r0, c0)
    requires m.state.sys.timerCounter < U64_MAX || RunTellable(cfg, r0, arrivals, n)
    ensures Followed(cfg, c0, m, c)
  {
    hide RecordSteps;
    hide RecOk;
    hide Sim;
    hide Followed;
    hide RunTellable;
    if m.state.sys.timerCounter < U64_MAX { UnsaturatedRunTellable(cfg, r0, arrivals, n, m); }
    c := TellableStepsFollow(cfg, r0, arrivals, n, m, c0);
  }

  // ---- iterations of the replay loop that a recording needs ----

  lemma {:induction false} StepsOfNoise(cfg: Config, evs: seq<EventKind>, rest: seq<EventKind>)
    requires forall e :: e in evs ==> !e.Deliver?
    ensures StepsNeeded(cfg, evs + rest) <= if StepsNeeded(cfg, rest) == 0 then 1 else StepsNeeded(cfg, rest)
    decreases |evs|
  {
    if evs == [] {
      assert evs + rest == rest;
    } else {
      assert evs[0] in evs;
      assert (evs + rest)[1..] == evs[1..] + rest;
      StepsOfNoise(cfg, evs[1..], rest);
    }
  }

  lemma {:induction false} StepsSubadditive(cfg: Config, a: seq<EventKind>, b: seq<EventKind>)
    ensures StepsNeeded(cfg, a + b) <= StepsNeeded(cfg, a) + StepsNeeded(cfg, b)
    decreases |a|
  {
    if a == [] {
      assert a + b == b;
    } else {
      assert (a + b)[1..] == a[1..] + b;
      StepsSubadditive(cfg, a[1..], b);
    }
  }

  lemma {:induction false} FiringsAreNoise(cfg: Config, s: Sys, due: seq<PendingTimer>)
    requires FireAll(cfg, s, due).Ok?
    ensures forall e :: e in FireAll(cfg, s, due).value.events ==> !e.Deliver?
    decreases |due|
  {
    if due != [] {
      var t := due[0].core;
      FiringsAreNoise(cfg, Dispatch(cfg, s, t.from, t.target, t.payload).value.0, due[1..]);
    }
  }

  lemma DeliverNextNeedsOne(cfg: Config, r: RecState, step: U64)
    requires DeliverNext(cfg, r, step).Ok?
    ensures StepsNeeded(cfg, DeliverNext(cfg, r, step).value.events) <= 1
  {
    if LeastReady(r.sys.actors).Some? {
      var to := LeastReady(r.sys.actors).value;
      var p := Pop(r.sys, to).value;
      var h := Handle(cfg, p.sys, to, p.entry).value;
      EmittedAreEmissions(cfg, Core(r.sys, []), Deliver(cfg.node, to, p.entry.id));
      StepsSkipEmissions(cfg, h.emitted, []);
      assert h.emitted + [] == h.emitted;
      assert ([Deliver(cfg.node, to, p.entry.id)] + h.emitted)[1..] == h.emitted;
    }
  }

  lemma RecordStepNeedsOne(cfg: Config, r: RecState, step: U64, arrivals: seq<WireEnvelope>)
    requires RecordStep(cfg, r, step, arrivals).Ok? && HoldsOwn(r.inj, cfg.node)
    ensures StepsNeeded(cfg, RecordStep(cfg, r, step, arrivals).value.events) <= 1
    ensures HoldsOwn(RecordStep(cfg, r, step, arrivals).value.state.inj, cfg.node)
  {
    var d := DrainStep(cfg, r, step, arrivals);
    DrainQuiet(r.inj, cfg.node, step, arrivals);
    var f := FireDue(cfg, d.state, step).value;
    FiringsAreNoise(cfg, d.state.sys, SortBy(TimerKey, Due(d.state.timers, step)));
    DeliverNextNeedsOne(cfg, f.state, step);
    StepsOfNoise(cfg, d.events + f.events, DeliverNext(cfg, f.state, step).value.events);
  }

  lemma {:induction false} RecordStepsNeedAtMost(cfg: Config, r0: RecState, arrivals: seq<seq<WireEnvelope>>, n: nat)
    requires n <= |arrivals| <= U64_MAX && HoldsOwn(r0.inj, cfg.node)
    requires RecordSteps(cfg, r0, arrivals, n).Ok?
    ensures StepsNeeded(cfg, RecordSteps(cfg, r0, arrivals, n).value.events) <= n
    ensures HoldsOwn(RecordSteps(cfg, r0, arrivals, n).value.state.inj, cfg.node)
  {
    hide RecordStep;
    if n > 0 {
      RecordStepsNeedAtMost(cfg, r0, arrivals, n - 1);
      var before := RecordSteps(cfg, r0, arrivals, n - 1).value;
      RecordStepNeedsOne(cfg, before.state, n - 1, arrivals[n - 1]);
      StepsSubadditive(cfg, before.events, RecordStep(cfg, before.state, n - 1, arrivals[n - 1]).value.events);
    }
  }

  lemma {:induction false} BootstrapTimers(cfg: Config, entry: Uuid, n: nat)
    requires |cfg.program.services| > 0 && Bootstrap(cfg, entry, n).Ok?
    ensures Bootstrap(cfg, entry, n).value.sys.timerCounter == 1
  {
    if n > 0 { BootstrapTimers(cfg, entry, n - 1); }
  }

  /** Whenever the run fires timers, the pending ones can be told apart by id and actor. */
  ghost predicate RecordTellable(cfg: Config, settings: Settings, arrivals: seq<seq<WireEnvelope>>)
    requires |arrivals| <= U64_MAX
  {
    Startup(cfg).Ok? ==>
      RunTellable(cfg, RecState(Startup(cfg).value.sys, [], NewInjector(settings)), arrivals, |arrivals|)
  }

  /** Strict replay: for every program, fault policy, inbound schedule and number of steps, the trace
      of a successful record run is accepted by replay exactly when the recording left every inbox
      empty and replay has the iterations the trace needs, of which the recording's own number is
      always enough. Replay then ends with the recording's actors and counters, and with its pending
      timers up to order and due step. The timer counter must not have saturated, or at least timers
      pending together must differ in id or actor whenever some fire. */
  lemma RecordThenReplay(cfg: Config, settings: Settings, arrivals: seq<seq<WireEnvelope>>, m: RecMove, steps: nat)
    requires |arrivals| <= U64_MAX && Record(cfg, settings, arrivals) == Ok(m)
    requires m.state.sys.timerCounter < U64_MAX || RecordTellable(cfg, settings, arrivals)
    ensures var needed := StepsNeeded(cfg, AfterStartup(Startup(cfg).value, m.events));
            && needed <= |arrivals|
            && (Replay(cfg, m.events, steps).Ok? <==> InboxesEmpty(m.state.sys.actors) && needed <= steps)
            && (Replay(cfg, m.events, steps).Ok? ==> Sim(m.state, Replay(cfg, m.events, steps).value))
  {
    hide Startup;
    hide RecordSteps;
    hide ReplaySteps;
    hide Replay;
    hide Follows;
    hide StepsNeeded;
    hide Sim;
    hide RecordTellable;
    var boot := Startup(cfg).value;
    var rest, c := RecordedLoopFollows(cfg, settings, arrivals, m, boot);
    assert AfterStartup(boot, m.events) == rest;
    ReplayStepsExact(cfg, Core(boot.sys, []), rest, steps);
    ReplayAfterStartup(cfg, m.events, steps, boot);
    SimHasActors(m.state, c);
  }

  lemma SimHasActors(r: RecState, c: Core)
    requires Sim(r, c)
    ensures r.sys == c.sys
  {
  }

  /** The recorded trace after start-up, and where following it leads. */
  lemma RecordedLoopFollows(cfg: Config, settings: Settings, arrivals: seq<seq<WireEnvelope>>, m: RecMove, boot: Boot)
    returns (rest: seq<EventKind>, c: Core)
    requires |arrivals| <= U64_MAX && Record(cfg, settings, arrivals) == Ok(m) && Startup(cfg) == Ok(boot)
    requires m.state.sys.timerCounter < U64_MAX || RecordTellable(cfg, settings, arrivals)
    ensures m.events == boot.events + rest && StepsNeeded(cfg, rest) <= |arrivals|
    ensures Follows(cfg, Core(boot.sys, []), rest) == Ok(c) && Sim(m.state, c)
  {
    hide RecordSteps;
    hide RunTellable;
    hide Bootstrap;
    hide StepsNeeded;
    var r0 := RecState(boot.sys, [], NewInjector(settings));
    var c0 := Core(boot.sys, []);
    BootstrapTimers(cfg, cfg.actorOf[EntryService(cfg)], BootstrapCount(cfg));
    var looped := RecordSteps(cfg, r0, arrivals, |arrivals|).value;
    rest := looped.events;
    RecordStepsNeedAtMost(cfg, r0, arrivals, |arrivals|);
    c := RecordStepsFollow(cfg, r0, arrivals, |arrivals|, looped, c0);
    assert Follows(cfg, c0, rest + []) == Follows(cfg, c, []);
    assert rest + [] == rest;
  }

  /** Without that, replay can go wrong: of two pending timers that share id and actor it fires the one
      first in its list, and when the trace goes on with the message of the other, it refuses it. */
  lemma UntellableTimersDiverge(cfg: Config, c: Core, t: TimerCore, u: TimerCore, s: Sys, sent: EventKind, rest: seq<EventKind>)
    requires c.timers == [t, u] && t.id == u.id && t.from == u.from && t.payload != u.payload
    requires Dispatch(cfg, c.sys, u.from, u.target, u.payload) == Ok((s, sent))
    ensures Follows(cfg, c, [TimerFired(cfg.node, u.from, u.id), sent] + rest).Err?
  {
    hide Dispatch;
    hide Handle;
    hide Pop;
    hide SwapRemove;
    var fired := TimerFired(cfg.node, u.from, u.id);
    var trace := [fired, sent] + rest;
    assert FindTimer(c.timers, u.from, u.id) == 0;
    assert trace[0] == fired && trace[1..] == [sent] + rest;
    SentPayload(cfg, c.sys, u);
    if Dispatch(cfg, c.sys, t.from, t.target, t.payload).Ok? {
      SentPayload(cfg, c.sys, t);
      var made := CoreStep(cfg, c, fired).value.events;
      assert made[0] != sent && trace[1..][0] == sent;
    }
  }

  lemma SentPayload(cfg: Config, s: Sys, t: TimerCore)
    requires Dispatch(cfg, s, t.from, t.target, t.payload).Ok?
    ensures var ev := Dispatch(cfg, s, t.from, t.target, t.payload).value.1;
            (ev.Send? || ev.NetSend?) && ev.payload == t.payload
  {
  }
}
