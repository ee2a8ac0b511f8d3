/** Recorded runs under the single-trace verifier. */
module HonestRun {
  import opened Base
  import opened Sorting
  import opened Events
  import opened TraceFile
  import opened Lang
  import opened Interp
  import opened Faults
  import opened InjectorSpec
  import opened InjectorProps
  import opened Node
  import opened RecordSpec
  import opened ReplaySpec
  import opened RecordReplay
  import opened Queues
  import opened VerifySpec
  import opened VerifyMeaning
  import opened LineageSpec
  import opened LangSound
  import opened HonestNode

  lemma {:induction false} NumbersInOrder(v: VState, kinds: seq<EventKind>)
    requires v.expectedSeq + |kinds| <= U64_MAX + 1
    ensures VRun(v, kinds).expectedSeq == MinU64(v.expectedSeq + |kinds|)
    decreases |kinds|
  {
    if kinds != [] {
      var w := VStep(v, Stamp(v, kinds[0]));
      StampAdvances(v, kinds[0]);
      if |kinds| > 1 {
        NumbersInOrder(w, kinds[1..]);
      }
    }
  }

  lemma KindKeepsNumber(v: VState, at: U64, k: EventKind)
    ensures CheckKind(v, at, k).expectedSeq == v.expectedSeq
  {
    hide LineageProblems;
    hide RecordLineage;
    hide Dequeue;
    hide Enqueue;
  }

  lemma StampAdvances(v: VState, k: EventKind)
    ensures VStep(v, Stamp(v, k)).expectedSeq == SatAdd(v.expectedSeq, 1)
  {
    hide CheckKind;
    hide CheckSeq;
    hide CheckSeed;
    hide CheckEffectDue;
    hide CheckTimerDue;
    var ev := Stamp(v, k);
    var w := CheckSeed(CheckSeq(v, ev), ev);
    NumberingForm(v, ev);
    AnswerForm(w, ev);
    KindKeepsNumber(CheckTimerDue(CheckEffectDue(w, ev), ev), ev.seqNo, k);
  }

  lemma {:induction false} FoldOfPrefix(events: seq<TraceEvent>, more: seq<TraceEvent>, n: nat)
    requires n <= |events|
    ensures VFold(events + more, n) == VFold(events, n)
  {
    hide VStep;
    if n > 0 { FoldOfPrefix(events, more, n - 1); }
  }

  lemma RunSnoc(v: VState, front: seq<EventKind>, k: EventKind)
    ensures VRun(v, front + [k]) == VStep(VRun(v, front), Stamp(VRun(v, front), k))
  {
    hide VStep;
    var w := VRun(v, front);
    VRunAppend(v, front, [k]);
    assert VRun(w, [k]) == VStep(w, Stamp(w, k));
  }

  lemma FoldSnoc(events: seq<TraceEvent>, ev: TraceEvent)
    ensures VFold(events + [ev], |events| + 1) == VStep(VFold(events, |events|), ev)
  {
    hide VStep;
    FoldOfPrefix(events, [ev], |events|);
  }

  /** Verifying the trace file is running the verifier over the events as they were made. */
  lemma {:induction false} FileIsRun(kinds: seq<EventKind>)
    requires |kinds| <= U64_MAX + 1
    ensures VFold(StampAll(kinds), |kinds|) == VRun(START, kinds)
  {
    hide VStep;
    hide StampAll;
    if kinds == [] {
    } else {
      hide VRun;
      hide VFold;
      var n := |kinds| - 1;
      var front := kinds[..n];
      FileIsRun(front);
      NumbersInOrder(START, front);
      RunSnoc(START, front, kinds[n]);
      StampSnoc(front, kinds[n]);
      FoldSnoc(StampAll(front), TraceEvent(n, SEED, kinds[n]));
      assert front + [kinds[n]] == kinds;
    }
  }

  // ---- the lineage index of an honest node ----

  /** The lineage index built along with the verifier's run. */
  function IndexRun(v: VState, index: LineageIndex, kinds: seq<EventKind>): LineageIndex
    decreases |kinds|
  {
    if kinds == [] then index
    else
      var ev := Stamp(v, kinds[0]);
      IndexRun(VStep(v, ev), IndexAfter(v.produced, index, ev), kinds[1..])
  }

  lemma {:induction false} IndexRunAppend(v: VState, index: LineageIndex, a: seq<EventKind>, b: seq<EventKind>)
    ensures IndexRun(v, index, a + b) == IndexRun(VRun(v, a), IndexRun(v, index, a), b)
    decreases |a|
  {
    hide VStep;
    hide IndexAfter;
    if a == [] {
      assert a + b == b;
    } else {
      assert (a + b)[1..] == a[1..] + b;
      var ev := Stamp(v, a[0]);
      IndexRunAppend(VStep(v, ev), IndexAfter(v.produced, index, ev), a[1..], b);
    }
  }

  lemma {:induction false} QuietIndex(v: VState, index: LineageIndex, kinds: seq<EventKind>)
    requires forall k :: k in kinds ==> !k.Deliver?
    ensures IndexRun(v, index, kinds) == index
    decreases |kinds|
  {
    hide VStep;
    if kinds != [] {
      assert kinds[0] in kinds;
      QuietIndex(VStep(v, Stamp(v, kinds[0])), index, kinds[1..]);
    }
  }

  /** An index record that tells the truth about a message of the ledger delivered at `node`. */
  ghost predicate TrueRecord(l: Ledger, node: Uuid, key: LineageKey, rec: LineageRecord) {
    && key in l.delivered && key in l.info && l.info[key].home == node
    && var lineage := l.info[key].lineage;
       && rec.provenance.originMsgId == Canonical(lineage.originMsgId)
       && rec.provenance.originNode == lineage.originNode
       && rec.provenance.originService == lineage.originService
       && rec.provenance.hops == lineage.hops
       && (lineage.hops > 0 ==>
             && ParentKey(rec).Some?
             && var parent := ParentKey(rec).value;
                parent in l.delivered && parent in l.info && OneHopFrom(lineage, l.info[parent].lineage))
  }

  /** The index holds exactly the messages delivered at `node`, each with a true record. */
  ghost predicate IndexTrue(l: Ledger, node: Uuid, index: LineageIndex) {
    && (forall key :: key in index ==> TrueRecord(l, node, key, index[key]))
    && (forall key :: key in l.delivered && key in l.info && l.info[key].home == node ==> key in index)
  }

  lemma IndexTrueStays(l: Ledger, l2: Ledger, node: Uuid, other: Uuid, index: LineageIndex)
    requires IndexTrue(l, node, index) && Extends(l, l2) && OnlyBy(other, l, l2) && other != node && LedgerOk(l)
    ensures IndexTrue(l2, node, index)
  {
    forall key | key in index ensures TrueRecord(l2, node, key, index[key]) {
      assert TrueRecord(l, node, key, index[key]);
    }
  }

  lemma GoodRecordIsTrue(l: Ledger, home: Uuid, ev: TraceEvent, payload: Payload)
    requires ev.kind.Deliver? && GoodMsg(l, home, ev.kind.msgId, payload) && LedgerOk(l)
    requires ReadPayload(0, payload).Read? && (ReadPayload(0, payload).from, ev.kind.msgId) in l.delivered
    ensures ReadRecord(ev, payload).Some?
    ensures ReadRecord(ev, payload).value.key == (ReadPayload(0, payload).from, ev.kind.msgId)
    ensures var rec := ReadRecord(ev, payload).value; TrueRecord(l, home, rec.key, rec)
  {
  }

  /** The message a Deliver of this node takes from the queues is a good one. */
  lemma TakenIsGood(cfg: Config, c: Core, v: VState, l: Ledger, ev: EventKind, m: Move)
    requires NodeInv(cfg, c, v, l) && ev.Deliver? && ev.node == cfg.node && CoreStep(cfg, c, ev) == Ok(m)
    ensures QueueOf(v.produced, (ev.to, ev.msgId)) != []
    ensures GoodMsg(l, cfg.node, ev.msgId, v.produced[(ev.to, ev.msgId)][0])
  {
    hide Handle;
    hide GoodMsg;
    var e := Pop(c.sys, ev.to).value.entry;
    assert e == c.sys.actors[ev.to].inbox[0];
    MirrorPop(c.sys.actors, v.produced, ev.to);
    assert GoodMsg(l, cfg.node, c.sys.actors[ev.to].inbox[0].id, c.sys.actors[ev.to].inbox[0].payload);
  }

  /** One more delivery in the index. */
  lemma IndexDelivery(cfg: Config, c: Core, v: VState, l: Ledger, ev: EventKind, m: Move, l1: Ledger, index: LineageIndex)
    requires NodeInv(cfg, c, v, l) && ev.Deliver? && ev.node == cfg.node && CoreStep(cfg, c, ev) == Ok(m)
    requires LedgerOk(l) && LedgerOk(l1) && Extends(l, l1) && OnlyBy(cfg.node, l, l1)
    requires l1.delivered == l.delivered + NewlyDelivered(v.produced, ev)
    requires IndexTrue(l, cfg.node, index)
    ensures IndexTrue(l1, cfg.node, IndexAfter(v.produced, index, Stamp(v, ev)))
  {
    hide NodeInv;
    hide CoreStep;
    hide GoodMsg;
    hide TrueRecord;
    hide ReadPayload;
    hide ReadRecord;
    TakenIsGood(cfg, c, v, l, ev, m);
    var p := v.produced[(ev.to, ev.msgId)][0];
    GoodMsgStays(l, l1, cfg.node, ev.msgId, p);
    GoodIsReadable(l1, cfg.node, ev.msgId, p);
    GoodRecordIsTrue(l1, cfg.node, Stamp(v, ev), p);
    var after := IndexAfter(v.produced, index, Stamp(v, ev));
    forall key | key in after ensures TrueRecord(l1, cfg.node, key, after[key]) {
      if key != ReadRecord(Stamp(v, ev), p).value.key { TrueRecordStays(l, l1, cfg.node, key, index[key]); }
    }
    HomesKept(l, l1, cfg.node, index);
  }

  lemma TrueRecordStays(l: Ledger, l1: Ledger, node: Uuid, key: LineageKey, rec: LineageRecord)
    requires TrueRecord(l, node, key, rec) && Extends(l, l1)
    ensures TrueRecord(l1, node, key, rec)
  {
  }

  lemma HomesKept(l: Ledger, l1: Ledger, node: Uuid, index: LineageIndex)
    requires LedgerOk(l) && Extends(l, l1) && IndexTrue(l, node, index)
    ensures forall key :: key in l.delivered && l1.info[key].home == node ==> key in index
  {
  }

  lemma IndexHonest(cfg: Config, c: Core, v: VState, l: Ledger, ev: EventKind, m: Move, l1: Ledger, index: LineageIndex)
    requires NodeInv(cfg, c, v, l) && CoreStep(cfg, c, ev) == Ok(m) && StaysHonest(cfg, v, l, ev, m, l1)
    requires ev.Deliver? ==> ev.node == cfg.node
    requires IndexTrue(l, cfg.node, index)
    ensures IndexTrue(l1, cfg.node, IndexRun(v, index, [ev] + m.events))
  {
    hide CoreStep;
    hide VStep;
    hide VRun;
    hide IndexAfter;
    hide IndexTrue;
    hide SysInv;
    hide TimersGood;
    EmittedAreEmissions(cfg, c, ev);
    IndexRunAppend(v, index, [ev], m.events);
    assert LedgerOk(l) by { LedgerOfInv(cfg, c, v, l); }
    assert LedgerOk(l1) by { LedgerOfInv(cfg, m.core, VRun(v, [ev] + m.events), l1); }
    assert IndexRun(v, index, [ev]) == IndexAfter(v.produced, index, Stamp(v, ev));
    QuietIndex(VRun(v, [ev]), IndexRun(v, index, [ev]), m.events);
    if ev.Deliver? {
      IndexDelivery(cfg, c, v, l, ev, m, l1, index);
    } else {
      NothingDelivered(l, l1, cfg.node, v, index, ev);
    }
  }

  lemma LedgerOfInv(cfg: Config, c: Core, v: VState, l: Ledger)
    requires NodeInv(cfg, c, v, l)
    ensures LedgerOk(l)
  {
  }

  lemma NothingDelivered(l: Ledger, l1: Ledger, node: Uuid, v: VState, index: LineageIndex, ev: EventKind)
    requires LedgerOk(l) && Extends(l, l1) && l1.delivered == l.delivered && !ev.Deliver? && IndexTrue(l, node, index)
    ensures IndexTrue(l1, node, IndexAfter(v.produced, index, Stamp(v, ev)))
  {
    hide TrueRecord;
    forall key | key in index ensures TrueRecord(l1, node, key, index[key]) {
      TrueRecordStays(l, l1, node, key, index[key]);
    }
    HomesKept(l, l1, node, index);
  }

  // ---- honest traces ----

  function DropsIn(trace: seq<EventKind>): set<(Uuid, Uuid, Uuid)> {
    if trace == [] then {} else NewlyDropped(trace[0]) + DropsIn(trace[1..])
  }

  /** Every input in a stretch of trace is this node's own, and every receipt is of a message from
      the ledger that is due here and never dropped. */
  ghost predicate InputsHonest(cfg: Config, actors: set<Uuid>, dropped: set<(Uuid, Uuid, Uuid)>, l: Ledger, trace: seq<EventKind>) {
    forall ev :: ev in trace ==>
      && ((ev.Deliver? || ev.TimerFired?) ==> ev.node == cfg.node)
      && (ev.NetRecv? ==> ev.node == cfg.node && ev.to in actors && GoodMsg(l, cfg.node, ev.msgId, ev.payload)
                          && (ev.fromNode, ev.to, ev.msgId) !in dropped)
  }

  lemma InputsHonestSuffix(cfg: Config, actors: set<Uuid>, dropped: set<(Uuid, Uuid, Uuid)>, l: Ledger, l1: Ledger,
                           trace: seq<EventKind>, rest: seq<EventKind>)
    requires InputsHonest(cfg, actors, dropped, l, trace) && Extends(l, l1)
    requires forall ev :: ev in rest ==> ev in trace
    ensures InputsHonest(cfg, actors, dropped, l1, rest)
  {
    hide GoodMsg;
    forall ev | ev in rest && ev.NetRecv? ensures GoodMsg(l1, cfg.node, ev.msgId, ev.payload) {
      GoodMsgStays(l, l1, cfg.node, ev.msgId, ev.payload);
    }
  }

  lemma DispatchKeepsActors(cfg: Config, s: Sys, from: Uuid, target: Target, p: Payload)
    requires Dispatch(cfg, s, from, target, p).Ok?
    ensures Dispatch(cfg, s, from, target, p).value.0.actors.Keys == s.actors.Keys
    ensures s.msgCounter <= Dispatch(cfg, s, from, target, p).value.0.msgCounter
  {
  }

  lemma {:induction false} OutboxKeepsActors(cfg: Config, s: Sys, from: Uuid, outbox: seq<Outgoing>, out: Effects)
    requires ProcessOutbox(cfg, s, from, outbox) == Ok(out)
    ensures out.sys.actors.Keys == s.actors.Keys && s.msgCounter <= out.sys.msgCounter
    decreases |outbox|
  {
    hide Dispatch;
    if outbox != [] {
      if outbox[0].delaySteps > 0 {
        var s1 := s.(timerCounter := SatAdd(s.timerCounter, 1));
        OutboxKeepsActors(cfg, s1, from, outbox[1..], ProcessOutbox(cfg, s1, from, outbox[1..]).value);
      } else {
        DispatchKeepsActors(cfg, s, from, outbox[0].target, outbox[0].payload);
        var s1 := Dispatch(cfg, s, from, outbox[0].target, outbox[0].payload).value.0;
        OutboxKeepsActors(cfg, s1, from, outbox[1..], ProcessOutbox(cfg, s1, from, outbox[1..]).value);
      }
    }
  }

  lemma StepKeepsActors(cfg: Config, c: Core, ev: EventKind, m: Move)
    requires CoreStep(cfg, c, ev) == Ok(m)
    ensures m.core.sys.actors.Keys == c.sys.actors.Keys && c.sys.msgCounter <= m.core.sys.msgCounter
  {
    hide Dispatch;
    hide ProcessOutbox;
    hide ExecHandler;
    if ev.TimerFired? && ev.node == cfg.node {
      var t := c.timers[FindTimer(c.timers, ev.from, ev.timerId)];
      DispatchKeepsActors(cfg, c.sys, t.from, t.target, t.payload);
    } else if ev.Deliver? && ev.node == cfg.node {
      var p := Pop(c.sys, ev.to).value;
      var a := p.sys.actors[ev.to];
      var run := ExecHandler(cfg, Call(a.service, p.entry.id, p.entry.payload.msg), a.store).value;
      var s1 := p.sys.(actors := p.sys.actors[ev.to := a.(store := run.exec.store)]);
      OutboxKeepsActors(cfg, s1, ev.to, run.exec.outbox, ProcessOutbox(cfg, s1, ev.to, run.exec.outbox).value);
    }
  }

  lemma {:induction false} CounterMonotone(cfg: Config, c: Core, trace: seq<EventKind>, end: Core)
    requires Follows(cfg, c, trace) == Ok(end)
    ensures c.sys.msgCounter <= end.sys.msgCounter && end.sys.actors.Keys == c.sys.actors.Keys
    decreases |trace|
  {
    hide CoreStep;
    if trace != [] {
      var m := CoreStep(cfg, c, trace[0]).value;
      StepKeepsActors(cfg, c, trace[0], m);
      CounterMonotone(cfg, m.core, trace[1..][|m.events|..], end);
    }
  }

  lemma {:induction false} EmissionsDropNothing(em: seq<EventKind>, rest: seq<EventKind>)
    requires forall e :: e in em ==> !IsInput(e)
    ensures DropsIn(em + rest) == DropsIn(rest)
  {
    if em == [] {
      assert em + rest == rest;
    } else {
      assert em[0] in em;
      assert (em + rest)[1..] == em[1..] + rest;
      EmissionsDropNothing(em[1..], rest);
    }
  }

  /** The verifier and the ledger after a stretch of honest trace. */
  ghost predicate HonestAfter(cfg: Config, v: VState, l: Ledger, index: LineageIndex, trace: seq<EventKind>, end: Core, l1: Ledger) {
    var w := VRun(v, trace);
    && NodeInv(cfg, end, w, l1) && Calm(w) && w.dropped == v.dropped + DropsIn(trace)
    && IndexTrue(l1, cfg.node, IndexRun(v, index, trace))
    && Extends(l, l1) && OnlyBy(cfg.node, l, l1) && SendsGood(l1, trace)
  }

  lemma SendsJoin(l: Ledger, a: seq<EventKind>, b: seq<EventKind>)
    requires SendsGood(l, a) && SendsGood(l, b)
    ensures SendsGood(l, a + b)
  {
    hide GoodMsg;
  }

  lemma HonestJoins(cfg: Config, v: VState, l: Ledger, index: LineageIndex, ev: EventKind, m: Move, la: Ledger, rest: seq<EventKind>, end: Core, l1: Ledger)
    requires StaysHonest(cfg, v, l, ev, m, la)
    requires HonestAfter(cfg, VRun(v, [ev] + m.events), la, IndexRun(v, index, [ev] + m.events), rest, end, l1)
    requires forall e :: e in m.events ==> !IsInput(e)
    ensures HonestAfter(cfg, v, l, index, [ev] + m.events + rest, end, l1)
  {
    hide NodeInv;
    hide IndexTrue;
    hide IndexRun;
    hide GoodMsg;
    hide SendsGood;
    hide OnlyBy;
    hide Calm;
    hide VRun;
    hide DropsIn;
    hide NewlyDropped;
    hide NewlyDelivered;
    VRunAppend(v, [ev] + m.events, rest);
    IndexRunAppend(v, index, [ev] + m.events, rest);
    OnlyByJoins(cfg.node, l, la, l1);
    SendsStay(la, l1, [ev] + m.events);
    DropsOfBlock([ev] + m.events + rest, m.events, rest);
    SendsJoin(l1, [ev] + m.events, rest);
  }

  lemma NothingFollowed(cfg: Config, c: Core, v: VState, l: Ledger, index: LineageIndex)
    requires NodeInv(cfg, c, v, l) && Calm(v) && IndexTrue(l, cfg.node, index)
    ensures HonestAfter(cfg, v, l, index, [], c, l)
  {
    hide NodeInv;
    hide IndexTrue;
    OnlyBySelf(cfg.node, l);
  }

  lemma FirstIsHonest(cfg: Config, c: Core, v: VState, l: Ledger, trace: seq<EventKind>, dropped: set<(Uuid, Uuid, Uuid)>)
    requires trace != [] && IsInput(trace[0]) && InputsHonest(cfg, c.sys.actors.Keys, dropped, l, trace)
    requires v.dropped <= dropped
    ensures HonestInput(cfg, c, v, l, trace[0]) && (trace[0].Deliver? ==> trace[0].node == cfg.node)
  {
    hide GoodMsg;
    assert trace[0] in trace;
  }

  lemma HonestSoFar(cfg: Config, v: VState, l: Ledger, ev: EventKind, m: Move, la: Ledger)
    requires StaysHonest(cfg, v, l, ev, m, la)
    ensures var w := VRun(v, [ev] + m.events);
            NodeInv(cfg, m.core, w, la) && Calm(w) && w.dropped == v.dropped + NewlyDropped(ev)
    ensures Extends(l, la)
  {
    hide NodeInv;
    hide GoodMsg;
    hide VRun;
  }

  lemma DropsOfBlock(trace: seq<EventKind>, em: seq<EventKind>, rest: seq<EventKind>)
    requires trace != [] && trace == [trace[0]] + em + rest && forall e :: e in em ==> !IsInput(e)
    ensures DropsIn(trace) == NewlyDropped(trace[0]) + DropsIn(rest)
  {
    assert trace[1..] == em + rest;
    EmissionsDropNothing(em, rest);
  }

  lemma {:induction false} TraceHonest(cfg: Config, c: Core, v: VState, l: Ledger, index: LineageIndex, trace: seq<EventKind>, end: Core,
                                       dropped: set<(Uuid, Uuid, Uuid)>) returns (l1: Ledger)
    requires ValidConfig(cfg) && NodeInv(cfg, c, v, l) && Calm(v) && IndexTrue(l, cfg.node, index)
    requires Follows(cfg, c, trace) == Ok(end) && end.sys.msgCounter < U64_MAX
    requires InputsHonest(cfg, c.sys.actors.Keys, dropped, l, trace) && v.dropped + DropsIn(trace) <= dropped
    ensures HonestAfter(cfg, v, l, index, trace, end, l1)
    decreases |trace|
  {
    hide ValidConfig;
    hide NodeInv;
    hide Calm;
    hide CoreStep;
    hide GoodMsg;
    hide OnlyBy;
    hide IndexTrue;
    hide VRun;
    hide IndexRun;
    hide HonestAfter;
    hide InputsHonest;
    hide StaysHonest;
    hide HonestInput;
    hide DropsIn;
    if trace == [] {
      l1 := l;
      NothingFollowed(cfg, c, v, l, index);
    } else {
      var ev := trace[0];
      var m := CoreStep(cfg, c, ev).value;
      var rest := trace[1..][|m.events|..];
      EmittedAreEmissions(cfg, c, ev);
      InputsUnfold(trace, m.events);
      CounterMonotone(cfg, m.core, rest, end);
      StepKeepsActors(cfg, c, ev, m);
      FirstIsHonest(cfg, c, v, l, trace, dropped);
      var la := CoreStepHonest(cfg, c, v, l, ev, m);
      HonestSoFar(cfg, v, l, ev, m, la);
      InputsHonestSuffix(cfg, c.sys.actors.Keys, dropped, l, la, trace, rest);
      DropsOfBlock(trace, m.events, rest);
      IndexHonest(cfg, c, v, l, ev, m, la, index);
      l1 := TraceHonest(cfg, m.core, VRun(v, [ev] + m.events), la, IndexRun(v, index, [ev] + m.events), rest, end, dropped);
      HonestJoins(cfg, v, l, index, ev, m, la, rest, end, l1);
    }
  }
}
