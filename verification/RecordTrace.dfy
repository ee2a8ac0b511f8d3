/** The events of a record run: whose they are, how its messages are numbered, and what goes on the wire. */
module RecordTrace {
  import opened Base
  import opened Sorting
  import opened Events
  import opened TraceFile
  import opened Lang
  import opened Interp
  import opened Faults
  import opened InjectorSpec
  import opened Node
  import opened RecordSpec
  import opened ReplaySpec
  import opened RecordReplay
  import opened Queues
  import opened VerifySpec
  import opened VerifyMeaning
  import opened LineageSpec
  import opened ClusterSpec
  import opened HonestNode
  import opened HonestRun
  import opened QueueMirror

  // ---- every event is of this node ----

  predicate LocalTo(node: Uuid, k: EventKind) {
    LocalNode(k) == None || LocalNode(k) == Some(node)
  }

  ghost predicate AllLocal(node: Uuid, kinds: seq<EventKind>) {
    forall k :: k in kinds ==> LocalTo(node, k)
  }

  lemma DispatchLocal(cfg: Config, s: Sys, from: Uuid, target: Target, p: Payload, s1: Sys, ev: EventKind)
    requires Dispatch(cfg, s, from, target, p) == Ok((s1, ev))
    ensures LocalTo(cfg.node, ev) && IsSend(ev)
  {
  }

  lemma {:induction false} OutboxLocal(cfg: Config, s: Sys, from: Uuid, outbox: seq<Outgoing>, out: Effects)
    requires ProcessOutbox(cfg, s, from, outbox) == Ok(out)
    ensures AllLocal(cfg.node, out.emitted)
    decreases |outbox|
  {
    hide Dispatch;
    if outbox != [] {
      if outbox[0].delaySteps > 0 {
        var s1 := s.(timerCounter := SatAdd(s.timerCounter, 1));
        OutboxLocal(cfg, s1, from, outbox[1..], ProcessOutbox(cfg, s1, from, outbox[1..]).value);
      } else {
        var (s1, ev) := Dispatch(cfg, s, from, outbox[0].target, outbox[0].payload).value;
        DispatchLocal(cfg, s, from, outbox[0].target, outbox[0].payload, s1, ev);
        OutboxLocal(cfg, s1, from, outbox[1..], ProcessOutbox(cfg, s1, from, outbox[1..]).value);
      }
    }
  }

  lemma {:induction false} LogsLocal(node: Uuid, from: Uuid, logs: seq<LogEmission>)
    ensures AllLocal(node, LogEvents(node, from, logs))
  {
    if logs != [] { LogsLocal(node, from, logs[1..]); }
  }

  lemma HandleLocal(cfg: Config, s: Sys, to: Uuid, e: Entry, h: Effects)
    requires Handle(cfg, s, to, e) == Ok(h)
    ensures AllLocal(cfg.node, h.emitted)
  {
    hide ExecHandler;
    hide ProcessOutbox;
    hide EffectSeq;
    var a := s.actors[to];
    var run := ExecHandler(cfg, Call(a.service, e.id, e.payload.msg), a.store).value;
    var s1 := s.(actors := s.actors[to := a.(store := run.exec.store)]);
    OutboxLocal(cfg, s1, to, run.exec.outbox, ProcessOutbox(cfg, s1, to, run.exec.outbox).value);
    LogsLocal(cfg.node, to, run.exec.logs);
  }

  lemma {:induction false} FiringsLocal(cfg: Config, s: Sys, due: seq<PendingTimer>, f: Fired)
    requires FireAll(cfg, s, due) == Ok(f)
    ensures AllLocal(cfg.node, f.events) && forall k :: k in f.events ==> k.TimerFired? || IsSend(k)
    decreases |due|
  {
    hide Dispatch;
    if due != [] {
      var t := due[0].core;
      var (s1, sent) := Dispatch(cfg, s, t.from, t.target, t.payload).value;
      DispatchLocal(cfg, s, t.from, t.target, t.payload, s1, sent);
      FiringsLocal(cfg, s1, due[1..], FireAll(cfg, s1, due[1..]).value);
    }
  }

  /** An event of a step of this node; what it receives is among `released`. */
  predicate StepEvent(node: Uuid, released: seq<WireEnvelope>, k: EventKind) {
    && LocalTo(node, k) && !k.Spawn?
    && (k.NetRecv? ==> k in RecvEvents(released))
  }

  lemma DeliveryEvents(cfg: Config, r: RecState, step: U64, m: RecMove)
    requires DeliverNext(cfg, r, step) == Ok(m)
    ensures forall k :: k in m.events ==> LocalTo(cfg.node, k) && !k.Spawn? && !k.NetRecv?
  {
    hide Handle;
    if LeastReady(r.sys.actors).Some? {
      var to := LeastReady(r.sys.actors).value;
      var p := Pop(r.sys, to).value;
      var h := Handle(cfg, p.sys, to, p.entry).value;
      HandleLocal(cfg, p.sys, to, p.entry, h);
      var d := Deliver(cfg.node, to, p.entry.id);
      assert CoreStep(cfg, Core(r.sys, []), d) == Ok(Move(Core(h.sys, [] + Cores(h.timers)), h.emitted));
      EmittedAreEmissions(cfg, Core(r.sys, []), d);
    }
  }

  lemma StepEvents(cfg: Config, r: RecState, step: U64, arrivals: seq<WireEnvelope>, m: RecMove)
    requires RecordStep(cfg, r, step, arrivals) == Ok(m) && HoldsOwn(r.inj, cfg.node)
    ensures forall k :: k in m.events ==> StepEvent(cfg.node, Drain(r.inj, cfg.node, step, arrivals).released, k)
  {
    hide Drain;
    hide DeliverNext;
    hide FireAll;
    var d := Drain(r.inj, cfg.node, step, arrivals);
    DrainQuiet(r.inj, cfg.node, step, arrivals);
    var drained := DrainStep(cfg, r, step, arrivals);
    var f := FireDue(cfg, drained.state, step).value;
    FiringsLocal(cfg, drained.state.sys, SortBy(TimerKey, Due(drained.state.timers, step)),
                 FireAll(cfg, drained.state.sys, SortBy(TimerKey, Due(drained.state.timers, step))).value);
    DeliveryEvents(cfg, f.state, step, DeliverNext(cfg, f.state, step).value);
    forall k | k in m.events ensures StepEvent(cfg.node, d.released, k) {
      if k in RecvEvents(d.released) {
        var i :| 0 <= i < |d.released| && RecvEvents(d.released)[i] == k;
        assert d.released[i] in d.released;
      }
    }
  }

  lemma StartupLocal(cfg: Config, boot: Boot)
    requires Startup(cfg) == Ok(boot)
    ensures AllLocal(cfg.node, boot.events)
    ensures Spawn(cfg.node, cfg.systemActor, "System") in boot.events
    ensures forall k :: k in boot.events ==> k.Spawn? || k.Send?
  {
    hide Bootstrap;
    SpawnsLocal(cfg, |cfg.program.services|);
    BootstrapHasNoInputs(cfg, cfg.actorOf[EntryService(cfg)], BootstrapCount(cfg));
  }

  lemma {:induction false} SpawnsLocal(cfg: Config, n: nat)
    requires n <= |cfg.program.services|
    ensures AllLocal(cfg.node, SpawnEvents(cfg, n))
    ensures Spawn(cfg.node, cfg.systemActor, "System") in SpawnEvents(cfg, n)
    ensures forall k :: k in SpawnEvents(cfg, n) ==> k.Spawn?
  {
    if n > 0 { SpawnsLocal(cfg, n - 1); }
  }

  // ---- message numbers ----

  /** The messages sent in these events carry this node's ids for the counter values from `lo` up to,
      but not including, `hi`, in order. */
  predicate Numbered(node: Uuid, lo: nat, kinds: seq<EventKind>, hi: nat)
    decreases |kinds|
  {
    if kinds == [] then lo == hi
    else if IsSend(kinds[0]) then lo < U64_MAX && kinds[0].msgId == MsgId(node, lo) && Numbered(node, lo + 1, kinds[1..], hi)
    else Numbered(node, lo, kinds[1..], hi)
  }

  lemma {:induction false} NumberedJoins(node: Uuid, lo: nat, a: seq<EventKind>, mid: nat, b: seq<EventKind>, hi: nat)
    requires Numbered(node, lo, a, mid) && Numbered(node, mid, b, hi)
    ensures Numbered(node, lo, a + b, hi)
    decreases |a|
  {
    if a == [] {
      assert a + b == b;
    } else {
      assert (a + b)[1..] == a[1..] + b;
      NumberedJoins(node, if IsSend(a[0]) then lo + 1 else lo, a[1..], mid, b, hi);
    }
  }

  lemma {:induction false} UnnumberedAll(node: Uuid, lo: nat, kinds: seq<EventKind>)
    requires forall k :: k in kinds ==> !IsSend(k)
    ensures Numbered(node, lo, kinds, lo)
    decreases |kinds|
  {
    if kinds != [] {
      assert kinds[0] in kinds;
      UnnumberedAll(node, lo, kinds[1..]);
    }
  }

  lemma DispatchNumbered(cfg: Config, s: Sys, from: Uuid, target: Target, p: Payload, s1: Sys, ev: EventKind)
    requires Dispatch(cfg, s, from, target, p) == Ok((s1, ev)) && s1.msgCounter < U64_MAX
    ensures IsSend(ev) && ev.msgId == MsgId(cfg.node, s.msgCounter) && s1.msgCounter == s.msgCounter + 1
    ensures Numbered(cfg.node, s.msgCounter, [ev], s1.msgCounter)
  {
  }

  lemma {:induction false} OutboxNumbered(cfg: Config, s: Sys, from: Uuid, outbox: seq<Outgoing>, out: Effects)
    requires ProcessOutbox(cfg, s, from, outbox) == Ok(out) && out.sys.msgCounter < U64_MAX
    ensures Numbered(cfg.node, s.msgCounter, out.emitted, out.sys.msgCounter)
    decreases |outbox|
  {
    hide Dispatch;
    if outbox != [] {
      if outbox[0].delaySteps > 0 {
        var s1 := s.(timerCounter := SatAdd(s.timerCounter, 1));
        OutboxNumbered(cfg, s1, from, outbox[1..], ProcessOutbox(cfg, s1, from, outbox[1..]).value);
      } else {
        var (s1, ev) := Dispatch(cfg, s, from, outbox[0].target, outbox[0].payload).value;
        var rest := ProcessOutbox(cfg, s1, from, outbox[1..]).value;
        CounterGrows(cfg, s1, from, outbox[1..], rest);
        DispatchNumbered(cfg, s, from, outbox[0].target, outbox[0].payload, s1, ev);
        OutboxNumbered(cfg, s1, from, outbox[1..], rest);
        NumberedJoins(cfg.node, s.msgCounter, [ev], s1.msgCounter, rest.emitted, out.sys.msgCounter);
      }
    }
  }

  lemma StepNumbered(cfg: Config, c: Core, ev: EventKind, m: Move)
    requires CoreStep(cfg, c, ev) == Ok(m) && m.core.sys.msgCounter < U64_MAX
    ensures Numbered(cfg.node, c.sys.msgCounter, [ev] + m.events, m.core.sys.msgCounter)
  {
    hide Dispatch;
    hide ProcessOutbox;
    hide ExecHandler;
    hide EffectSeq;
    EmittedAreEmissions(cfg, c, ev);
    assert ([ev] + m.events)[1..] == m.events;
    if ev.TimerFired? && ev.node == cfg.node {
      var t := c.timers[FindTimer(c.timers, ev.from, ev.timerId)];
      var (s1, sent) := Dispatch(cfg, c.sys, t.from, t.target, t.payload).value;
      DispatchNumbered(cfg, c.sys, t.from, t.target, t.payload, s1, sent);
    } else if ev.Deliver? && ev.node == cfg.node {
      var p := Pop(c.sys, ev.to).value;
      var a := p.sys.actors[ev.to];
      var run := ExecHandler(cfg, Call(a.service, p.entry.id, p.entry.payload.msg), a.store).value;
      var s1 := p.sys.(actors := p.sys.actors[ev.to := a.(store := run.exec.store)]);
      var out := ProcessOutbox(cfg, s1, ev.to, run.exec.outbox).value;
      OutboxNumbered(cfg, s1, ev.to, run.exec.outbox, out);
      var k := EffectObserved(cfg.node, ev.to, a.service, p.entry.payload.msg.msgType, p.entry.id,
                              EffectSeq(run.declared), EffectSeq(run.exec.observed));
      var report := [k] + LogEvents(cfg.node, ev.to, run.exec.logs);
      LogEmissions(cfg.node, ev.to, run.exec.logs);
      UnnumberedAll(cfg.node, s1.msgCounter, report);
      NumberedJoins(cfg.node, s1.msgCounter, report, s1.msgCounter, out.emitted, out.sys.msgCounter);
      assert m.events == report + out.emitted;
    }
  }

  /** A node never reuses a message id: its sends are numbered consecutively. */
  lemma {:induction false} FollowsNumbered(cfg: Config, c: Core, trace: seq<EventKind>, end: Core)
    requires Follows(cfg, c, trace) == Ok(end) && end.sys.msgCounter < U64_MAX
    ensures Numbered(cfg.node, c.sys.msgCounter, trace, end.sys.msgCounter)
    decreases |trace|
  {
    hide CoreStep;
    if trace != [] {
      var m := CoreStep(cfg, c, trace[0]).value;
      var rest := trace[1..][|m.events|..];
      CounterMonotone(cfg, m.core, rest, end);
      StepNumbered(cfg, c, trace[0], m);
      FollowsNumbered(cfg, m.core, rest, end);
      NumberedJoins(cfg.node, c.sys.msgCounter, [trace[0]] + m.events, m.core.sys.msgCounter, rest, end.sys.msgCounter);
      assert trace == [trace[0]] + m.events + rest;
    }
  }

  lemma {:induction false} BootstrapNumbered(cfg: Config, entry: Uuid, n: nat, b: Boot)
    requires |cfg.program.services| > 0 && Bootstrap(cfg, entry, n) == Ok(b) && b.sys.msgCounter < U64_MAX
    ensures Numbered(cfg.node, 1, b.events, b.sys.msgCounter)
  {
    if n > 0 {
      var before := Bootstrap(cfg, entry, n - 1).value;
      BootstrapNumbered(cfg, entry, n - 1, before);
      var id := MsgId(cfg.node, before.sys.msgCounter);
      var sent := Send(cfg.systemActor, entry, id, BootstrapMessage(cfg, id, n - 1));
      assert Numbered(cfg.node, before.sys.msgCounter, [sent], b.sys.msgCounter);
      NumberedJoins(cfg.node, 1, before.events, before.sys.msgCounter, [sent], b.sys.msgCounter);
    }
  }

  lemma StartupNumbered(cfg: Config, boot: Boot)
    requires Startup(cfg) == Ok(boot) && boot.sys.msgCounter < U64_MAX
    ensures Numbered(cfg.node, 1, boot.events, boot.sys.msgCounter)
  {
    hide Bootstrap;
    var spawns := SpawnEvents(cfg, |cfg.program.services|);
    var b := Bootstrap(cfg, cfg.actorOf[EntryService(cfg)], BootstrapCount(cfg)).value;
    SpawnsLocal(cfg, |cfg.program.services|);
    UnnumberedAll(cfg.node, 1, spawns);
    BootstrapNumbered(cfg, cfg.actorOf[EntryService(cfg)], BootstrapCount(cfg), b);
    NumberedJoins(cfg.node, 1, spawns, 1, b.events, boot.sys.msgCounter);
  }

  /** Consecutive numbers are distinct ids, even where the ids wrap around 2^128. */
  lemma {:induction false} NumberedIds(node: Uuid, lo: nat, kinds: seq<EventKind>, hi: nat)
    requires Numbered(node, lo, kinds, hi)
    ensures lo <= hi
    ensures forall i :: 0 <= i < |kinds| && IsSend(kinds[i]) ==> lo <= MsgIndex(node, kinds[i].msgId) < hi
    ensures forall i, j :: 0 <= i < j < |kinds| && IsSend(kinds[i]) && IsSend(kinds[j]) ==> kinds[i].msgId != kinds[j].msgId
    decreases |kinds|
  {
    hide MsgIndex;
    hide MsgId;
    if kinds != [] {
      var next := if IsSend(kinds[0]) then lo + 1 else lo;
      NumberedIds(node, next, kinds[1..], hi);
      if IsSend(kinds[0]) { IdsDetermineCounters(node, lo, lo); }
      forall i | 0 <= i < |kinds| && IsSend(kinds[i]) ensures lo <= MsgIndex(node, kinds[i].msgId) < hi {
        if i > 0 { assert kinds[i] == kinds[1..][i - 1]; }
      }
      forall i, j | 0 <= i < j < |kinds| && IsSend(kinds[i]) && IsSend(kinds[j]) ensures kinds[i].msgId != kinds[j].msgId {
        assert kinds[j] == kinds[1..][j - 1];
        if i > 0 { assert kinds[i] == kinds[1..][i - 1]; }
      }
    }
  }
}
