/** The life of a timer over a whole record run: asked for in one step, pending until its delay has
    passed, fired in that step and in no other, in the order of asking. */
module TimerRuns {
  import opened Base
  import opened Sorting
  import opened Events
  import opened Lang
  import opened Interp
  import opened InjectorSpec
  import opened Node
  import opened RecordSpec
  import opened ReplaySpec
  import opened RecordReplay
  import opened VerifySpec
  import opened RecordTrace
  import opened TimerTiming

  // ---- the steps of a run ----

  /** The state in which step `k` of a run begins. */
  function StateAt(cfg: Config, r0: RecState, arrivals: seq<seq<WireEnvelope>>, k: nat): RecState
    requires k <= |arrivals| <= U64_MAX
  {
    match RecordSteps(cfg, r0, arrivals, k)
    case Ok(m) => m.state
    case Err(_) => r0
  }

  /** The events of step `k`. */
  function EventsIn(cfg: Config, r0: RecState, arrivals: seq<seq<WireEnvelope>>, k: nat): seq<EventKind>
    requires k < |arrivals| <= U64_MAX
  {
    match RecordStep(cfg, StateAt(cfg, r0, arrivals, k), k, arrivals[k])
    case Ok(m) => m.events
    case Err(_) => []
  }

  /** The timers asked for by the handler that runs in a step from `r`. */
  function StepAsks(cfg: Config, r: RecState, step: U64, arrivals: seq<WireEnvelope>): seq<NewTimer> {
    match FireDue(cfg, DrainStep(cfg, r, step, arrivals).state, step)
    case Err(_) => []
    case Ok(f) =>
      match LeastReady(f.state.sys.actors)
      case None => []
      case Some(to) =>
        match Pop(f.state.sys, to)
        case Err(_) => []
        case Ok(p) =>
          match Handle(cfg, p.sys, to, p.entry)
          case Err(_) => []
          case Ok(h) => h.timers
  }

  /** The timers asked for by the handler that runs in step `k`, in the order of its sends. */
  function AskedIn(cfg: Config, r0: RecState, arrivals: seq<seq<WireEnvelope>>, k: nat): seq<NewTimer>
    requires k < |arrivals| <= U64_MAX
  {
    StepAsks(cfg, StateAt(cfg, r0, arrivals, k), k, arrivals[k])
  }

  lemma {:induction false} PrefixRuns(cfg: Config, r0: RecState, arrivals: seq<seq<WireEnvelope>>, n: nat, k: nat)
    requires k <= n <= |arrivals| <= U64_MAX && RecordSteps(cfg, r0, arrivals, n).Ok?
    ensures RecordSteps(cfg, r0, arrivals, k).Ok?
  {
    hide RecordStep;
    if k < n { PrefixRuns(cfg, r0, arrivals, n - 1, k); }
  }

  /** The trace of a run is that of its first steps, followed by the events of the next one. */
  lemma NextStep(cfg: Config, r0: RecState, arrivals: seq<seq<WireEnvelope>>, n: nat, k: nat) returns (m: RecMove, next: RecMove)
    requires k < n <= |arrivals| <= U64_MAX && RecordSteps(cfg, r0, arrivals, n).Ok?
    ensures RecordSteps(cfg, r0, arrivals, k) == Ok(m) && m.state == StateAt(cfg, r0, arrivals, k)
    ensures RecordStep(cfg, m.state, k, arrivals[k]) == Ok(RecMove(next.state, EventsIn(cfg, r0, arrivals, k)))
    ensures RecordSteps(cfg, r0, arrivals, k + 1) == Ok(next) && next.state == StateAt(cfg, r0, arrivals, k + 1)
    ensures next.events == m.events + EventsIn(cfg, r0, arrivals, k)
  {
    hide RecordStep;
    PrefixRuns(cfg, r0, arrivals, n, k + 1);
    m := RecordSteps(cfg, r0, arrivals, k).value;
    next := RecordSteps(cfg, r0, arrivals, k + 1).value;
  }

  /** How many events precede step `k`. */
  function Offset(cfg: Config, r0: RecState, arrivals: seq<seq<WireEnvelope>>, k: nat): nat
    requires k <= |arrivals| <= U64_MAX
  {
    match RecordSteps(cfg, r0, arrivals, k)
    case Ok(m) => |m.events|
    case Err(_) => 0
  }

  lemma {:induction false} EarlierIsPrefix(cfg: Config, r0: RecState, arrivals: seq<seq<WireEnvelope>>, n: nat, k: nat, m: RecMove)
    requires k <= n <= |arrivals| <= U64_MAX && RecordSteps(cfg, r0, arrivals, n) == Ok(m)
    ensures RecordSteps(cfg, r0, arrivals, k).Ok? && RecordSteps(cfg, r0, arrivals, k).value.events <= m.events
  {
    hide RecordStep;
    if k < n { EarlierIsPrefix(cfg, r0, arrivals, n - 1, k, RecordSteps(cfg, r0, arrivals, n - 1).value); }
  }

  /** Where the events of step `k` stand in the run's trace. */
  lemma StepInRun(cfg: Config, r0: RecState, arrivals: seq<seq<WireEnvelope>>, n: nat, m: RecMove, k: nat)
    requires k < n <= |arrivals| <= U64_MAX && RecordSteps(cfg, r0, arrivals, n) == Ok(m)
    ensures var at := Offset(cfg, r0, arrivals, k);
            && Offset(cfg, r0, arrivals, k + 1) == at + |EventsIn(cfg, r0, arrivals, k)| <= |m.events|
            && m.events[at..at + |EventsIn(cfg, r0, arrivals, k)|] == EventsIn(cfg, r0, arrivals, k)
  {
    hide RecordStep;
    hide EventsIn;
    var before, next := NextStep(cfg, r0, arrivals, n, k);
    EarlierIsPrefix(cfg, r0, arrivals, n, k + 1, m);
    assert m.events[..|next.events|] == next.events;
  }

  lemma {:induction false} OffsetsGrow(cfg: Config, r0: RecState, arrivals: seq<seq<WireEnvelope>>, n: nat, j: nat, k: nat)
    requires j <= k <= n <= |arrivals| <= U64_MAX && RecordSteps(cfg, r0, arrivals, n).Ok?
    ensures Offset(cfg, r0, arrivals, j) <= Offset(cfg, r0, arrivals, k)
  {
    hide RecordSteps;
    hide Offset;
    hide EventsIn;
    if j < k {
      StepInRun(cfg, r0, arrivals, n, RecordSteps(cfg, r0, arrivals, n).value, k - 1);
      OffsetsGrow(cfg, r0, arrivals, n, j, k - 1);
    }
  }

  // ---- what a handler asks for ----

  /** The sends of an outbox that are to be delayed. */
  function Delayed(outbox: seq<Outgoing>): seq<Outgoing> {
    if outbox == [] then []
    else (if outbox[0].delaySteps > 0 then [outbox[0]] else []) + Delayed(outbox[1..])
  }

  /** The timer for a delayed send, when the timer counter has this value. */
  function TimerFor(node: Uuid, counter: U64, from: Uuid, o: Outgoing): NewTimer {
    NewTimer(TimerCore(TimerId(node, counter), from, o.target, o.payload), o.delaySteps)
  }

  /** The timers for these sends, each with the next timer id. */
  function TimersFor(node: Uuid, counter: U64, from: Uuid, sends: seq<Outgoing>): (r: seq<NewTimer>)
    ensures |r| == |sends|
    decreases |sends|
  {
    if sends == [] then []
    else [TimerFor(node, counter, from, sends[0])] + TimersFor(node, SatAdd(counter, 1), from, sends[1..])
  }

  lemma {:induction false} TimersForAt(node: Uuid, counter: U64, from: Uuid, sends: seq<Outgoing>, i: nat)
    requires i < |sends| && counter + i <= U64_MAX
    ensures TimersFor(node, counter, from, sends)[i] == TimerFor(node, counter + i, from, sends[i])
    decreases i
  {
    hide TimerFor;
    if i > 0 { TimersForAt(node, counter + 1, from, sends[1..], i - 1); }
  }

  lemma FirstDelayed(node: Uuid, counter: U64, from: Uuid, outbox: seq<Outgoing>)
    requires outbox != [] && outbox[0].delaySteps > 0
    ensures Delayed(outbox) == [outbox[0]] + Delayed(outbox[1..])
    ensures TimersFor(node, counter, from, Delayed(outbox)) ==
            [NewTimer(TimerCore(TimerId(node, counter), from, outbox[0].target, outbox[0].payload), outbox[0].delaySteps)]
            + TimersFor(node, SatAdd(counter, 1), from, Delayed(outbox[1..]))
  {
    assert Delayed(outbox)[1..] == Delayed(outbox[1..]);
  }

  /** Each delayed send of an outbox becomes one timer, in order, with the next timer id. */
  lemma {:induction false} OutboxAsks(cfg: Config, s: Sys, from: Uuid, outbox: seq<Outgoing>, out: Effects)
    requires ProcessOutbox(cfg, s, from, outbox) == Ok(out)
    ensures out.timers == TimersFor(cfg.node, s.timerCounter, from, Delayed(outbox))
    ensures s.timerCounter <= out.sys.timerCounter
    ensures out.sys.timerCounter < U64_MAX ==> out.sys.timerCounter == s.timerCounter + |out.timers|
    decreases |outbox|
  {
    hide Dispatch;
    hide TimerId;
    hide TimersFor;
    hide Delayed;
    if outbox == [] {
      NothingAsked(cfg.node, s.timerCounter, from);
    } else if outbox[0].delaySteps > 0 {
      var s1 := s.(timerCounter := SatAdd(s.timerCounter, 1));
      FirstDelayed(cfg.node, s.timerCounter, from, outbox);
      OutboxAsks(cfg, s1, from, outbox[1..], ProcessOutbox(cfg, s1, from, outbox[1..]).value);
    } else {
      var s1 := Dispatch(cfg, s, from, outbox[0].target, outbox[0].payload).value.0;
      DispatchKeepsTimers(cfg, s, from, outbox[0].target, outbox[0].payload);
      OutboxAsks(cfg, s1, from, outbox[1..], ProcessOutbox(cfg, s1, from, outbox[1..]).value);
      FirstAtOnce(outbox);
    }
  }

  lemma NothingAsked(node: Uuid, counter: U64, from: Uuid)
    ensures TimersFor(node, counter, from, Delayed([])) == []
  {
  }

  lemma FirstAtOnce(outbox: seq<Outgoing>)
    requires outbox != [] && outbox[0].delaySteps == 0
    ensures Delayed(outbox) == Delayed(outbox[1..])
  {
  }

  /** The timers asked for by a handler run are its delayed sends, numbered on from the timer counter. */
  lemma HandlerAsks(cfg: Config, s: Sys, to: Uuid, e: Entry, h: Effects)
    requires Handle(cfg, s, to, e) == Ok(h)
    ensures var a := s.actors[to];
            var sends := Delayed(ExecHandler(cfg, Call(a.service, e.id, e.payload.msg), a.store).value.exec.outbox);
            h.timers == TimersFor(cfg.node, s.timerCounter, to, sends)
    ensures h.sys.timerCounter < U64_MAX ==>
              && h.sys.timerCounter == s.timerCounter + |h.timers|
              && forall i :: 0 <= i < |h.timers| ==> h.timers[i].core.id == TimerId(cfg.node, s.timerCounter + i)
  {
    hide ExecHandler;
    hide ProcessOutbox;
    hide EffectSeq;
    hide TimersFor;
    hide TimerId;
    hide Delayed;
    var a := s.actors[to];
    var run := ExecHandler(cfg, Call(a.service, e.id, e.payload.msg), a.store).value;
    var s1 := s.(actors := s.actors[to := a.(store := run.exec.store)]);
    OutboxAsks(cfg, s1, to, run.exec.outbox, ProcessOutbox(cfg, s1, to, run.exec.outbox).value);
    if h.sys.timerCounter < U64_MAX {
      forall i | 0 <= i < |h.timers| ensures h.timers[i].core.id == TimerId(cfg.node, s.timerCounter + i) {
        TimersForAt(cfg.node, s.timerCounter, to, Delayed(run.exec.outbox), i);
      }
    }
  }

  // ---- one step ----

  /** A step fires the due timers, sorted by id, between events that fire nothing; it keeps the other
      timers and adds what its handler asks for. */
  lemma StepTimers(cfg: Config, r: RecState, step: U64, arrivals: seq<WireEnvelope>, m: RecMove)
    returns (s: Sys, f: Fired, pre: seq<EventKind>, post: seq<EventKind>)
    requires RecordStep(cfg, r, step, arrivals) == Ok(m)
    ensures FireAll(cfg, s, SortBy(TimerKey, Due(r.timers, step))) == Ok(f) && m.events == pre + f.events + post
    ensures HoldsOwn(r.inj, cfg.node) ==> forall e :: e in pre ==> !e.TimerFired?
    ensures forall e :: e in post ==> !e.TimerFired?
    ensures m.state.timers == NotDue(r.timers, step) + Schedule(StepAsks(cfg, r, step, arrivals), step)
    ensures forall t :: t in StepAsks(cfg, r, step, arrivals) ==> t.delay > 0
  {
    hide Drain;
    hide FireAll;
    hide Handle;
    hide Due;
    hide NotDue;
    hide Schedule;
    hide RecvEvents;
    hide SortBy;
    var d := DrainStep(cfg, r, step, arrivals);
    var fire := FireDue(cfg, d.state, step).value;
    var h := DeliverNext(cfg, fire.state, step).value;
    s, pre, post := d.state.sys, d.events, h.events;
    f := FireAll(cfg, s, SortBy(TimerKey, Due(r.timers, step))).value;
    if HoldsOwn(r.inj, cfg.node) { DrainQuiet(r.inj, cfg.node, step, arrivals); }
    DeliveryFiresNothing(cfg, fire.state, step, h);
    if LeastReady(fire.state.sys.actors).Some? {
      var to := LeastReady(fire.state.sys.actors).value;
      var p := Pop(fire.state.sys, to).value;
      HandleDelays(cfg, p.sys, to, p.entry, Handle(cfg, p.sys, to, p.entry).value);
    } else {
      NothingScheduled(step);
    }
  }

  /** What a step asks for carries the timer ids from the counter on. */
  lemma StepNumbers(cfg: Config, r: RecState, step: U64, arrivals: seq<WireEnvelope>, m: RecMove)
    requires RecordStep(cfg, r, step, arrivals) == Ok(m) && m.state.sys.timerCounter < U64_MAX
    ensures var asked := StepAsks(cfg, r, step, arrivals);
            && m.state.sys.timerCounter == r.sys.timerCounter + |asked|
            && forall i :: 0 <= i < |asked| ==> asked[i].core.id == TimerId(cfg.node, r.sys.timerCounter + i)
  {
    hide Drain;
    hide FireAll;
    hide Handle;
    hide Due;
    hide NotDue;
    hide Schedule;
    hide RecvEvents;
    hide SortBy;
    hide TimerId;
    var d := DrainStep(cfg, r, step, arrivals);
    var fire := FireDue(cfg, d.state, step).value;
    FireAllKeepsTimers(cfg, d.state.sys, SortBy(TimerKey, Due(r.timers, step)));
    if LeastReady(fire.state.sys.actors).Some? {
      var to := LeastReady(fire.state.sys.actors).value;
      var p := Pop(fire.state.sys, to).value;
      HandlerAsks(cfg, p.sys, to, p.entry, Handle(cfg, p.sys, to, p.entry).value);
    }
  }

  lemma NothingScheduled(step: U64)
    ensures Schedule([], step) == []
  {
  }

  lemma FiringAt(cfg: Config, s: Sys, due: seq<PendingTimer>, f: Fired, i: nat)
    requires FireAll(cfg, s, due) == Ok(f) && i < |f.events| && f.events[i].TimerFired?
    ensures i % 2 == 0 && i / 2 < |due|
    ensures f.events[i] == TimerFired(cfg.node, due[i / 2].core.from, due[i / 2].core.id)
  {
    hide FireAll;
    hide Dispatch;
    if due == [] {
      assert FireAll(cfg, s, []) == Ok(Fired(s, [])) by { NothingFires(cfg, s); }
    } else {
      FiringBlocks(cfg, s, due, f, 0);
      FiringBlocks(cfg, s, due, f, i / 2);
      assert i == 2 * (i / 2) + i % 2;
    }
  }

  lemma NothingFires(cfg: Config, s: Sys)
    ensures FireAll(cfg, s, []) == Ok(Fired(s, []))
  {
  }

  /** Where a step's event stands among its firings. */
  lemma FiringInStep(cfg: Config, s: Sys, due: seq<PendingTimer>, f: Fired, pre: seq<EventKind>, post: seq<EventKind>, i: nat)
    requires FireAll(cfg, s, due) == Ok(f) && i < |pre + f.events + post| && (pre + f.events + post)[i].TimerFired?
    requires (forall e :: e in pre ==> !e.TimerFired?) && (forall e :: e in post ==> !e.TimerFired?)
    ensures |pre| <= i < |pre| + 2 * |due|
    ensures (pre + f.events + post)[i] == TimerFired(cfg.node, due[(i - |pre|) / 2].core.from, due[(i - |pre|) / 2].core.id)
  {
    hide FireAll;
    var evs := pre + f.events + post;
    assert forall q :: 0 <= q < |pre| ==> !pre[q].TimerFired?;
    assert forall q :: 0 <= q < |post| ==> !post[q].TimerFired?;
    assert evs[|pre + f.events|..] == post;
    FiringAt(cfg, s, due, f, i - |pre|);
  }

  /** This timer's firing is among the events, followed at once by its message. */
  ghost predicate Fires(cfg: Config, evs: seq<EventKind>, t: TimerCore) {
    exists i :: 0 <= i < |evs| - 1 && evs[i] == TimerFired(cfg.node, t.from, t.id) && Carries(cfg, evs[i + 1], t)
  }

  /** A timer whose due step has come fires, and its message follows. */
  lemma DueFires(cfg: Config, r: RecState, step: U64, arrivals: seq<WireEnvelope>, m: RecMove, t: PendingTimer)
    requires RecordStep(cfg, r, step, arrivals) == Ok(m) && t in r.timers && t.dueStep <= step
    ensures Fires(cfg, m.events, t.core)
  {
    hide RecordStep;
    hide FireAll;
    hide SortBy;
    hide Carries;
    hide StepAsks;
    hide Schedule;
    var s, f, pre, post := StepTimers(cfg, r, step, arrivals, m);
    var due := SortBy(TimerKey, Due(r.timers, step));
    DueMembers(r.timers, step, t);
    SortByMultiset(TimerKey, Due(r.timers, step));
    assert t in multiset(due);
    var k :| 0 <= k < |due| && due[k] == t;
    FiringBlocks(cfg, s, due, f, k);
    var i := |pre| + 2 * k;
    assert m.events[i] == f.events[2 * k] && m.events[i + 1] == f.events[2 * k + 1];
  }

  /** Only timers that are due fire, those with the smaller ids first. */
  lemma FiredWereDue(cfg: Config, r: RecState, step: U64, arrivals: seq<WireEnvelope>, m: RecMove, i: nat) returns (t: PendingTimer)
    requires RecordStep(cfg, r, step, arrivals) == Ok(m) && HoldsOwn(r.inj, cfg.node)
    requires i < |m.events| && m.events[i].TimerFired?
    ensures t in r.timers && t.dueStep <= step && m.events[i] == TimerFired(cfg.node, t.core.from, t.core.id)
  {
    hide RecordStep;
    hide FireAll;
    hide SortBy;
    hide StepAsks;
    hide Schedule;
    hide HoldsOwn;
    var s, f, pre, post := StepTimers(cfg, r, step, arrivals, m);
    var due := SortBy(TimerKey, Due(r.timers, step));
    FiringInStep(cfg, s, due, f, pre, post, i);
    t := due[(i - |pre|) / 2];
    SortByMultiset(TimerKey, Due(r.timers, step));
    assert t in multiset(due);
    DueMembers(r.timers, step, t);
  }

  lemma FiredInIdOrder(cfg: Config, r: RecState, step: U64, arrivals: seq<WireEnvelope>, m: RecMove, i: nat, j: nat)
    requires RecordStep(cfg, r, step, arrivals) == Ok(m) && HoldsOwn(r.inj, cfg.node)
    requires i < j < |m.events| && m.events[i].TimerFired? && m.events[j].TimerFired?
    ensures m.events[i].timerId <= m.events[j].timerId
  {
    hide RecordStep;
    hide FireAll;
    hide SortBy;
    hide StepAsks;
    hide Schedule;
    hide HoldsOwn;
    var s, f, pre, post := StepTimers(cfg, r, step, arrivals, m);
    var due := SortBy(TimerKey, Due(r.timers, step));
    FiringInStep(cfg, s, due, f, pre, post, i);
    FiringInStep(cfg, s, due, f, pre, post, j);
    SortBySorted(TimerKey, Due(r.timers, step));
    var p, q := (i - |pre|) / 2, (j - |pre|) / 2;
    assert p <= q;
    if p < q { assert TimerKey(due[p]) <= TimerKey(due[q]); }
  }

  // ---- whole runs ----

  lemma {:induction false} ScheduleAt(ts: seq<NewTimer>, step: U64, t: NewTimer)
    requires t in ts
    ensures PendingTimer(SatAdd(step, t.delay), t.core) in Schedule(ts, step)
  {
    if t != ts[0] { ScheduleAt(ts[1..], step, t); }
  }

  lemma {:induction false} ScheduledWasAsked(ts: seq<NewTimer>, step: U64, p: PendingTimer) returns (t: NewTimer)
    requires p in Schedule(ts, step)
    ensures t in ts && p == PendingTimer(SatAdd(step, t.delay), t.core)
  {
    if p == Schedule(ts, step)[0] {
      t := ts[0];
    } else {
      t := ScheduledWasAsked(ts[1..], step, p);
    }
  }

  /** A timer asked for in step `s` is pending from then on until its delay has passed. */
  lemma {:induction false} WaitsItsDelay(cfg: Config, r0: RecState, arrivals: seq<seq<WireEnvelope>>, n: nat, s: nat, t: NewTimer, k: nat)
    requires n <= |arrivals| <= U64_MAX && RecordSteps(cfg, r0, arrivals, n).Ok?
    requires s < k <= n && t in AskedIn(cfg, r0, arrivals, s) && k <= s + t.delay
    ensures PendingTimer(SatAdd(s, t.delay), t.core) in StateAt(cfg, r0, arrivals, k).timers
  {
    hide RecordStep;
    hide RecordSteps;
    hide FireAll;
    hide Schedule;
    hide StepAsks;
    hide StateAt;
    hide EventsIn;
    var p := PendingTimer(SatAdd(s, t.delay), t.core);
    var m, next := NextStep(cfg, r0, arrivals, n, k - 1);
    var last := RecMove(next.state, EventsIn(cfg, r0, arrivals, k - 1));
    var sys, f, pre, post := StepTimers(cfg, m.state, k - 1, arrivals[k - 1], last);
    if k == s + 1 {
      ScheduleAt(StepAsks(cfg, m.state, s, arrivals[s]), s, t);
    } else {
      WaitsItsDelay(cfg, r0, arrivals, n, s, t, k - 1);
      DueMembers(m.state.timers, k - 1, p);
    }
  }

  /** A timer that a handler asks for in step `s` with delay `d` stays pending until step `s + d`. If
      the run gets there, the events of that step have the timer's firing, followed at once by one
      message with its payload, from its actor and to its target. */
  lemma FiresExactlyWhenDue(cfg: Config, r0: RecState, arrivals: seq<seq<WireEnvelope>>, n: nat, s: nat, t: NewTimer)
    requires n <= |arrivals| <= U64_MAX && RecordSteps(cfg, r0, arrivals, n).Ok?
    requires s < n && t in AskedIn(cfg, r0, arrivals, s)
    ensures t.delay > 0
    ensures forall k :: s < k <= n && k <= s + t.delay ==>
              PendingTimer(SatAdd(s, t.delay), t.core) in StateAt(cfg, r0, arrivals, k).timers
    ensures s + t.delay < n ==> Fires(cfg, EventsIn(cfg, r0, arrivals, s + t.delay), t.core)
  {
    hide RecordStep;
    hide RecordSteps;
    hide FireAll;
    hide StepAsks;
    hide StateAt;
    hide EventsIn;
    hide Fires;
    var m, next := NextStep(cfg, r0, arrivals, n, s);
    var sys, f, pre, post := StepTimers(cfg, m.state, s, arrivals[s], RecMove(next.state, EventsIn(cfg, r0, arrivals, s)));
    forall k | s < k <= n && k <= s + t.delay
      ensures PendingTimer(SatAdd(s, t.delay), t.core) in StateAt(cfg, r0, arrivals, k).timers
    {
      WaitsItsDelay(cfg, r0, arrivals, n, s, t, k);
    }
    var due := s + t.delay;
    if due < n {
      var before, after := NextStep(cfg, r0, arrivals, n, due);
      DueFires(cfg, before.state, due, arrivals[due], RecMove(after.state, EventsIn(cfg, r0, arrivals, due)),
               PendingTimer(SatAdd(s, t.delay), t.core));
    }
  }

  lemma StartState(cfg: Config, r0: RecState, arrivals: seq<seq<WireEnvelope>>)
    requires |arrivals| <= U64_MAX
    ensures StateAt(cfg, r0, arrivals, 0) == r0
  {
  }

  /** Whatever is pending was asked for in an earlier step and waits for the step its delay gives. */
  lemma {:induction false} PendingWasAsked(cfg: Config, r0: RecState, arrivals: seq<seq<WireEnvelope>>, n: nat, k: nat, p: PendingTimer)
    returns (s: nat, t: NewTimer)
    requires k <= n <= |arrivals| <= U64_MAX && RecordSteps(cfg, r0, arrivals, n).Ok? && r0.timers == []
    requires p in StateAt(cfg, r0, arrivals, k).timers
    ensures s < k && t in AskedIn(cfg, r0, arrivals, s) && p == PendingTimer(SatAdd(s, t.delay), t.core)
  {
    hide RecordStep;
    hide RecordSteps;
    hide FireAll;
    hide Schedule;
    hide StepAsks;
    hide StateAt;
    hide EventsIn;
    StartState(cfg, r0, arrivals);
    if k > 0 {
      var m, next := NextStep(cfg, r0, arrivals, n, k - 1);
      var last := RecMove(next.state, EventsIn(cfg, r0, arrivals, k - 1));
      var sys, f, pre, post := StepTimers(cfg, m.state, k - 1, arrivals[k - 1], last);
      if p in NotDue(m.state.timers, k - 1) {
        DueMembers(m.state.timers, k - 1, p);
        s, t := PendingWasAsked(cfg, r0, arrivals, n, k - 1, p);
      } else {
        s := k - 1;
        t := ScheduledWasAsked(StepAsks(cfg, m.state, s, arrivals[s]), s, p);
      }
    }
  }

  /** Every firing in step `k` is that of a timer asked for in a step `s` with delay `k - s`. */
  lemma FiringsWereAskedFor(cfg: Config, r0: RecState, arrivals: seq<seq<WireEnvelope>>, n: nat, k: nat, i: nat)
    returns (s: nat, t: NewTimer)
    requires n <= |arrivals| <= U64_MAX && RecordSteps(cfg, r0, arrivals, n).Ok? && r0.timers == [] && HoldsOwn(r0.inj, cfg.node)
    requires k < n && i < |EventsIn(cfg, r0, arrivals, k)| && EventsIn(cfg, r0, arrivals, k)[i].TimerFired?
    ensures s < k && t in AskedIn(cfg, r0, arrivals, s) && s + t.delay == k
    ensures EventsIn(cfg, r0, arrivals, k)[i] == TimerFired(cfg.node, t.core.from, t.core.id)
  {
    hide RecordStep;
    hide RecordSteps;
    hide StepAsks;
    hide StateAt;
    hide EventsIn;
    hide HoldsOwn;
    hide StepsNeeded;
    var m, next := NextStep(cfg, r0, arrivals, n, k);
    RecordStepsNeedAtMost(cfg, r0, arrivals, k);
    var p := FiredWereDue(cfg, m.state, k, arrivals[k], RecMove(next.state, EventsIn(cfg, r0, arrivals, k)), i);
    s, t := PendingWasAsked(cfg, r0, arrivals, n, k, p);
    TimersWait(cfg, r0, arrivals, k, m);
  }

  lemma {:induction false} CounterMonotoneInSteps(cfg: Config, r0: RecState, arrivals: seq<seq<WireEnvelope>>, n: nat, k: nat)
    requires k <= n <= |arrivals| <= U64_MAX && RecordSteps(cfg, r0, arrivals, n).Ok?
    ensures StateAt(cfg, r0, arrivals, k).sys.timerCounter <= StateAt(cfg, r0, arrivals, n).sys.timerCounter
  {
    hide RecordStep;
    hide RecordSteps;
    hide StateAt;
    hide EventsIn;
    if k < n {
      var m, next := NextStep(cfg, r0, arrivals, n, n - 1);
      TimerCounterGrows(cfg, m.state, n - 1, arrivals[n - 1]);
      CounterMonotoneInSteps(cfg, r0, arrivals, n - 1, k);
    }
  }

  /** No timer fires in two steps. */
  lemma FiresInOneStep(cfg: Config, r0: RecState, arrivals: seq<seq<WireEnvelope>>, n: nat, m: RecMove, k: nat, i: nat, l: nat, j: nat)
    requires n <= |arrivals| <= U64_MAX && RecordSteps(cfg, r0, arrivals, n) == Ok(m)
    requires r0.timers == [] && HoldsOwn(r0.inj, cfg.node) && m.state.sys.timerCounter < U64_MAX && k < l < n
    requires i < |EventsIn(cfg, r0, arrivals, k)| && EventsIn(cfg, r0, arrivals, k)[i].TimerFired?
    requires j < |EventsIn(cfg, r0, arrivals, l)| && EventsIn(cfg, r0, arrivals, l)[j].TimerFired?
    ensures EventsIn(cfg, r0, arrivals, k)[i].timerId != EventsIn(cfg, r0, arrivals, l)[j].timerId
  {
    hide RecordSteps;
    hide EventsIn;
    hide Offset;
    hide HoldsOwn;
    StepInRun(cfg, r0, arrivals, n, m, k);
    StepInRun(cfg, r0, arrivals, n, m, l);
    OffsetsGrow(cfg, r0, arrivals, n, k + 1, l);
    FiresAtMostOnce(cfg, r0, arrivals, n, m, Offset(cfg, r0, arrivals, k) + i, Offset(cfg, r0, arrivals, l) + j);
  }

  /** A timer asked for in step `s` with delay `d` fires in no step but `s + d`. */
  lemma FiresNoOtherTime(cfg: Config, r0: RecState, arrivals: seq<seq<WireEnvelope>>, n: nat, m: RecMove, s: nat, t: NewTimer, k: nat, i: nat)
    requires n <= |arrivals| <= U64_MAX && RecordSteps(cfg, r0, arrivals, n) == Ok(m)
    requires r0.timers == [] && HoldsOwn(r0.inj, cfg.node) && m.state.sys.timerCounter < U64_MAX
    requires s < n && t in AskedIn(cfg, r0, arrivals, s)
    requires k < n && i < |EventsIn(cfg, r0, arrivals, k)| && EventsIn(cfg, r0, arrivals, k)[i].TimerFired?
    requires EventsIn(cfg, r0, arrivals, k)[i].timerId == t.core.id
    ensures k == s + t.delay
  {
    hide RecordSteps;
    hide AskedIn;
    hide EventsIn;
    hide Fires;
    hide HoldsOwn;
    FiresExactlyWhenDue(cfg, r0, arrivals, n, s, t);
    var due := s + t.delay;
    if due >= n {
      var last, end := NextStep(cfg, r0, arrivals, n, n - 1);
      PendingNeverFired(cfg, r0, arrivals, n, m, PendingTimer(SatAdd(s, t.delay), t.core), k, i);
    } else if due != k {
      var j := FiringOf(cfg, EventsIn(cfg, r0, arrivals, due), t.core);
      if k < due { FiresInOneStep(cfg, r0, arrivals, n, m, k, i, due, j); }
      if due < k { FiresInOneStep(cfg, r0, arrivals, n, m, due, j, k, i); }
    }
  }

  lemma FiringOf(cfg: Config, evs: seq<EventKind>, t: TimerCore) returns (j: nat)
    requires Fires(cfg, evs, t)
    ensures j < |evs| && evs[j] == TimerFired(cfg.node, t.from, t.id)
  {
    hide Carries;
    var i :| 0 <= i < |evs| - 1 && evs[i] == TimerFired(cfg.node, t.from, t.id);
    j := i;
  }

  lemma PendingNeverFired(cfg: Config, r0: RecState, arrivals: seq<seq<WireEnvelope>>, n: nat, m: RecMove, p: PendingTimer, k: nat, i: nat)
    requires n <= |arrivals| <= U64_MAX && RecordSteps(cfg, r0, arrivals, n) == Ok(m)
    requires r0.timers == [] && HoldsOwn(r0.inj, cfg.node) && m.state.sys.timerCounter < U64_MAX
    requires p in m.state.timers
    requires k < n && i < |EventsIn(cfg, r0, arrivals, k)| && EventsIn(cfg, r0, arrivals, k)[i].TimerFired?
    ensures EventsIn(cfg, r0, arrivals, k)[i].timerId != p.core.id
  {
    hide RecordSteps;
    hide EventsIn;
    hide Offset;
    hide HoldsOwn;
    StepInRun(cfg, r0, arrivals, n, m, k);
    FiredIsGone(cfg, r0, arrivals, n, m, Offset(cfg, r0, arrivals, k) + i);
  }

  // ---- firing order ----

  /** Timer ids tell when a timer was asked for: they count on through the steps. */
  lemma AskedIds(cfg: Config, r0: RecState, arrivals: seq<seq<WireEnvelope>>, n: nat, s: nat)
    requires s < n <= |arrivals| <= U64_MAX && RecordSteps(cfg, r0, arrivals, n).Ok?
    requires StateAt(cfg, r0, arrivals, n).sys.timerCounter < U64_MAX
    ensures var asked := AskedIn(cfg, r0, arrivals, s);
            var counter := StateAt(cfg, r0, arrivals, s).sys.timerCounter;
            && StateAt(cfg, r0, arrivals, s + 1).sys.timerCounter == counter + |asked|
            && StateAt(cfg, r0, arrivals, s + 1).sys.timerCounter <= StateAt(cfg, r0, arrivals, n).sys.timerCounter
            && forall i :: 0 <= i < |asked| ==> asked[i].core.id == TimerId(cfg.node, counter + i)
  {
    hide RecordStep;
    hide RecordSteps;
    hide FireAll;
    hide StepAsks;
    hide Schedule;
    hide TimerId;
    hide StateAt;
    hide EventsIn;
    var m, next := NextStep(cfg, r0, arrivals, n, s);
    CounterMonotoneInSteps(cfg, r0, arrivals, n, s + 1);
    StepNumbers(cfg, m.state, s, arrivals[s], RecMove(next.state, EventsIn(cfg, r0, arrivals, s)));
  }

  /** While the timer ids do not wrap around 2^128, of two timers the one asked for earlier, in an
      earlier step or earlier in the same outbox, has the smaller id. */
  lemma EarlierHasSmallerId(cfg: Config, r0: RecState, arrivals: seq<seq<WireEnvelope>>, n: nat, s1: nat, i1: nat, s2: nat, i2: nat)
    requires n <= |arrivals| <= U64_MAX && RecordSteps(cfg, r0, arrivals, n).Ok?
    requires StateAt(cfg, r0, arrivals, n).sys.timerCounter < U64_MAX
    requires cfg.node + TIMER_OFFSET + StateAt(cfg, r0, arrivals, n).sys.timerCounter < UUID_COUNT
    requires s1 < n && i1 < |AskedIn(cfg, r0, arrivals, s1)| && s2 < n && i2 < |AskedIn(cfg, r0, arrivals, s2)|
    requires s1 < s2 || (s1 == s2 && i1 < i2)
    ensures AskedIn(cfg, r0, arrivals, s1)[i1].core.id < AskedIn(cfg, r0, arrivals, s2)[i2].core.id
  {
    hide RecordSteps;
    hide AskedIn;
    hide StateAt;
    AskedIds(cfg, r0, arrivals, n, s1);
    AskedIds(cfg, r0, arrivals, n, s2);
    if s1 < s2 {
      PrefixRuns(cfg, r0, arrivals, n, s2);
      CounterMonotoneInSteps(cfg, r0, arrivals, s2, s1 + 1);
    }
    var c1 := StateAt(cfg, r0, arrivals, s1).sys.timerCounter;
    var c2 := StateAt(cfg, r0, arrivals, s2).sys.timerCounter;
    assert c1 + i1 < c2 + i2;
    assert TimerId(cfg.node, c1 + i1) == cfg.node + TIMER_OFFSET + (c1 + i1);
    assert TimerId(cfg.node, c2 + i2) == cfg.node + TIMER_OFFSET + (c2 + i2);
  }

  /** Timers that fire in the same step fire in the order in which they were asked for, as long as the
      run's timer ids do not wrap around 2^128. */
  lemma FiresInOrderMade(cfg: Config, r0: RecState, arrivals: seq<seq<WireEnvelope>>, n: nat, m: RecMove,
                         s1: nat, i1: nat, s2: nat, i2: nat, k: nat, j1: nat, j2: nat)
    requires n <= |arrivals| <= U64_MAX && RecordSteps(cfg, r0, arrivals, n) == Ok(m) && HoldsOwn(r0.inj, cfg.node)
    requires m.state.sys.timerCounter < U64_MAX && cfg.node + TIMER_OFFSET + m.state.sys.timerCounter < UUID_COUNT
    requires s1 < n && i1 < |AskedIn(cfg, r0, arrivals, s1)| && s2 < n && i2 < |AskedIn(cfg, r0, arrivals, s2)|
    requires s1 < s2 || (s1 == s2 && i1 < i2)
    requires k < n && j1 < |EventsIn(cfg, r0, arrivals, k)| && j2 < |EventsIn(cfg, r0, arrivals, k)|
    requires var e1 := EventsIn(cfg, r0, arrivals, k)[j1];
             e1.TimerFired? && e1.timerId == AskedIn(cfg, r0, arrivals, s1)[i1].core.id
    requires var e2 := EventsIn(cfg, r0, arrivals, k)[j2];
             e2.TimerFired? && e2.timerId == AskedIn(cfg, r0, arrivals, s2)[i2].core.id
    ensures j1 < j2
  {
    hide RecordStep;
    hide AskedIn;
    hide EventsIn;
    hide HoldsOwn;
    hide StepsNeeded;
    EarlierHasSmallerId(cfg, r0, arrivals, n, s1, i1, s2, i2);
    var before, next := NextStep(cfg, r0, arrivals, n, k);
    RecordStepsNeedAtMost(cfg, r0, arrivals, k);
    if j2 < j1 {
      FiredInIdOrder(cfg, before.state, k, arrivals[k], RecMove(next.state, EventsIn(cfg, r0, arrivals, k)), j2, j1);
    }
  }
}
