/** A node of this system under the single-trace verifier: what keeps its report clean step by step. */
module HonestNode {
  import opened Base
  import opened Events
  import opened TraceFile
  import opened Lang
  import opened Interp
  import opened Node
  import opened Queues
  import opened VerifySpec
  import opened VerifyMeaning
  import opened LangSound

  function Stamp(v: VState, k: EventKind): TraceEvent {
    TraceEvent(v.expectedSeq, SEED, k)
  }

  /** The verifier run on from a state over events numbered in sequence. */
  function VRun(v: VState, kinds: seq<EventKind>): VState
    decreases |kinds|
  {
    if kinds == [] then v else VRun(VStep(v, Stamp(v, kinds[0])), kinds[1..])
  }

  lemma {:induction false} VRunAppend(v: VState, a: seq<EventKind>, b: seq<EventKind>)
    ensures VRun(v, a + b) == VRun(VRun(v, a), b)
    decreases |a|
  {
    if a == [] {
      assert a + b == b;
    } else {
      assert (a + b)[1..] == a[1..] + b;
      VRunAppend(VStep(v, Stamp(v, a[0])), a[1..], b);
    }
  }

  // ---- the ledger of all messages ever made ----

  /** A message's lineage and the node it is to be delivered at. */
  datatype Minted = Minted(lineage: Lineage, home: Uuid)

  /** Every message made so far, by sender node and id, and which of them have been delivered. */
  datatype Ledger = Ledger(info: map<LineageKey, Minted>, delivered: set<LineageKey>)

  ghost predicate LedgerOk(l: Ledger) {
    l.delivered <= l.info.Keys
  }

  ghost predicate Extends(l: Ledger, l2: Ledger) {
    && (forall k :: k in l.info ==> k in l2.info && l2.info[k] == l.info[k])
    && l.delivered <= l2.delivered
  }

  /** Only `node` made the messages that are new in `l2`, and only it delivered what is newly delivered. */
  ghost predicate OnlyBy(node: Uuid, l: Ledger, l2: Ledger) {
    && (forall k :: k in l2.info && k !in l.info ==> k.0 == node)
    && (forall k :: k in l2.delivered && k !in l.delivered ==> k in l2.info && l2.info[k].home == node)
  }

  /** All ids this node has used lie below its counter. */
  ghost predicate Fresh(l: Ledger, node: Uuid, counter: U64) {
    forall k :: k in l.info && k.0 == node ==> MsgIndex(node, k.1) < counter
  }

  predicate OneHopFrom(lineage: Lineage, parent: Lineage) {
    lineage == parent.(hops := SatAdd(parent.hops, 1))
  }

  /** The origin id is written the way this system prints ids. */
  predicate OriginPrinted(p: Payload) {
    p.Message? && p.msg.provenance.Some? && p.msg.provenance.value.originMsgId.Canonical?
  }

  /** The provenance of a message that has no id yet: it continues a delivered message. */
  ghost predicate GoodUnsent(l: Ledger, node: Uuid, p: Payload) {
    var r := ReadPayload(0, p);
    && r.Read? && r.msg.fromNode == Canonical(node) && OriginPrinted(p)
    && r.lineage.hops > 0 && r.parent in l.delivered && r.parent in l.info
    && OneHopFrom(r.lineage, l.info[r.parent].lineage)
  }

  /** A message in the ledger, to be delivered at `home`: a bootstrap root, or one continuing a
      delivered message. */
  ghost predicate GoodMsg(l: Ledger, home: Uuid, id: Uuid, p: Payload) {
    var r := ReadPayload(0, p);
    && r.Read? && r.msg.fromNode == Canonical(r.from) && OriginPrinted(p)
    && (r.from, id) in l.info && l.info[(r.from, id)] == Minted(r.lineage, home)
    && (if r.lineage.hops == 0 then
          r.lineage == Lineage(id, r.msg.fromNode, r.msg.fromService, 0) && r.parent == (r.from, id)
        else
          r.parent != (r.from, id) && r.parent in l.delivered && r.parent in l.info
          && OneHopFrom(r.lineage, l.info[r.parent].lineage))
  }

  lemma GoodMsgStays(l: Ledger, l2: Ledger, home: Uuid, id: Uuid, p: Payload)
    requires Extends(l, l2) && GoodMsg(l, home, id, p)
    ensures GoodMsg(l2, home, id, p)
  {
  }

  lemma GoodUnsentStays(l: Ledger, l2: Ledger, node: Uuid, p: Payload)
    requires Extends(l, l2) && GoodUnsent(l, node, p)
    ensures GoodUnsent(l2, node, p)
  {
  }

  /** Giving an unsent message the next id. */
  function Mint(l: Ledger, node: Uuid, id: Uuid, home: Uuid, p: Payload): Ledger {
    var r := ReadPayload(0, p);
    if r.Read? then l.(info := l.info[(node, id) := Minted(r.lineage, home)]) else l
  }

  lemma MintIsGood(l: Ledger, node: Uuid, counter: U64, home: Uuid, p: Payload)
    requires LedgerOk(l) && Fresh(l, node, counter) && counter < U64_MAX && GoodUnsent(l, node, p)
    ensures var id := MsgId(node, counter);
            var l2 := Mint(l, node, id, home, p);
            && (node, id) !in l.info && (node, id) in l2.info
            && LedgerOk(l2) && Extends(l, l2) && OnlyBy(node, l, l2) && Fresh(l2, node, counter + 1)
            && GoodMsg(l2, home, id, p)
  {
    IdsDetermineCounters(node, counter, counter);
  }

  // ---- the node's messages and the verifier's queues ----

  /** The payloads waiting in an inbox under one message id, oldest first. */
  function Project(inbox: seq<Entry>, id: Uuid): seq<Payload> {
    if inbox == [] then []
    else (if inbox[0].id == id then [inbox[0].payload] else []) + Project(inbox[1..], id)
  }

  lemma {:induction false} ProjectAppend(inbox: seq<Entry>, e: Entry, id: Uuid)
    ensures Project(inbox + [e], id) == Project(inbox, id) + if e.id == id then [e.payload] else []
  {
    if inbox != [] {
      assert (inbox + [e])[1..] == inbox[1..] + [e];
      ProjectAppend(inbox[1..], e, id);
    }
  }

  /** For every actor the verifier's queue under a message id is the projection of its inbox. */
  ghost predicate QueuesMirror(actors: map<Uuid, Actor>, produced: map<(Uuid, Uuid), seq<Payload>>) {
    forall a: Uuid, id: Uuid :: a in actors ==> QueueOf(produced, (a, id)) == Project(actors[a].inbox, id)
  }

  lemma MirrorPush(actors: map<Uuid, Actor>, produced: map<(Uuid, Uuid), seq<Payload>>, to: Uuid, e: Entry)
    requires QueuesMirror(actors, produced)
    ensures QueuesMirror(Push(actors, to, e), Enqueue(produced, (to, e.id), e.payload))
  {
    var after := Push(actors, to, e);
    forall a: Uuid, id: Uuid | a in after ensures QueueOf(Enqueue(produced, (to, e.id), e.payload), (a, id)) == Project(after[a].inbox, id) {
      assert QueueOf(produced, (a, id)) == Project(actors[a].inbox, id);
      if a == to { ProjectAppend(actors[a].inbox, e, id); }
    }
  }

  lemma MirrorPop(actors: map<Uuid, Actor>, produced: map<(Uuid, Uuid), seq<Payload>>, to: Uuid)
    requires QueuesMirror(actors, produced) && to in actors && actors[to].inbox != []
    ensures var e := actors[to].inbox[0];
            var key := (to, e.id);
            && QueueOf(produced, key) != [] && produced[key][0] == e.payload
            && QueuesMirror(actors[to := actors[to].(inbox := actors[to].inbox[1..])], Dequeue(produced, key))
  {
    var e := actors[to].inbox[0];
    var key := (to, e.id);
    assert QueueOf(produced, key) == Project(actors[to].inbox, e.id);
    var after := actors[to := actors[to].(inbox := actors[to].inbox[1..])];
    forall a: Uuid, id: Uuid | a in after ensures QueueOf(Dequeue(produced, key), (a, id)) == Project(after[a].inbox, id) {
      assert QueueOf(produced, (a, id)) == Project(actors[a].inbox, id);
      if (a, id) == key { assert QueueOf(Dequeue(produced, key), key) == QueueOf(produced, key)[1..]; }
    }
  }

  /** Nothing is wrong and nothing is outstanding. */
  ghost predicate Calm(v: VState) {
    v.problems == [] && v.timerDue == None && v.effectDue == None && (v.seed == None || v.seed == Some(SEED))
  }

  ghost predicate InboxesGood(l: Ledger, node: Uuid, actors: map<Uuid, Actor>) {
    forall a, i :: a in actors && 0 <= i < |actors[a].inbox| ==>
                     GoodMsg(l, node, actors[a].inbox[i].id, actors[a].inbox[i].payload)
  }

  ghost predicate DeliveredKnown(l: Ledger, delivered: map<LineageKey, Lineage>) {
    forall k :: k in delivered ==> k in l.delivered && k in l.info && l.info[k].lineage == delivered[k]
  }

  /** The node's actors and ids, the verifier's tables and the ledger agree. */
  ghost predicate SysInv(cfg: Config, s: Sys, v: VState, l: Ledger) {
    && LedgerOk(l)
    && ActorsOk(cfg, s.actors)
    && (forall a :: a in s.actors ==> a in v.spawned)
    && QueuesMirror(s.actors, v.produced)
    && DeliveredKnown(l, v.delivered)
    && InboxesGood(l, cfg.node, s.actors)
    && Fresh(l, cfg.node, s.msgCounter)
  }

  ghost predicate TimersGood(cfg: Config, s: Sys, l: Ledger, ts: seq<TimerCore>) {
    forall i :: 0 <= i < |ts| ==> GoodUnsent(l, cfg.node, ts[i].payload) && ts[i].from in s.actors
  }

  ghost predicate NodeInv(cfg: Config, c: Core, v: VState, l: Ledger) {
    SysInv(cfg, c.sys, v, l) && TimersGood(cfg, c.sys, l, c.timers)
  }

  /** What other nodes add to the ledger does not disturb this node. */
  lemma NodeInvStays(cfg: Config, c: Core, v: VState, l: Ledger, l2: Ledger)
    requires NodeInv(cfg, c, v, l) && Extends(l, l2) && LedgerOk(l2)
    requires forall k :: k in l2.info && k !in l.info ==> k.0 != cfg.node
    ensures NodeInv(cfg, c, v, l2)
  {
    forall a, i | a in c.sys.actors && 0 <= i < |c.sys.actors[a].inbox|
      ensures GoodMsg(l2, cfg.node, c.sys.actors[a].inbox[i].id, c.sys.actors[a].inbox[i].payload)
    {
      GoodMsgStays(l, l2, cfg.node, c.sys.actors[a].inbox[i].id, c.sys.actors[a].inbox[i].payload);
    }
    forall i | 0 <= i < |c.timers| ensures GoodUnsent(l2, cfg.node, c.timers[i].payload) {
      GoodUnsentStays(l, l2, cfg.node, c.timers[i].payload);
    }
  }

  // ---- single events ----

  /** The state after an event that only advances the numbering. */
  function Ticked(v: VState): VState {
    v.(expectedSeq := SatAdd(v.expectedSeq, 1), seed := Some(SEED))
  }

  ghost predicate SeedFits(v: VState) {
    v.problems == [] && (v.seed == None || v.seed == Some(SEED))
  }

  lemma VSend(v: VState, k: EventKind)
    requires SeedFits(v) && v.effectDue == None && IsSend(k)
    requires v.timerDue.Some? ==> v.timerDue.value.from == k.from
    requires k.from in v.spawned && (k.Send? ==> k.to in v.spawned)
    ensures VStep(v, Stamp(v, k)) == Ticked(v).(timerDue := None,
              produced := if k.Send? then Enqueue(v.produced, (k.to, k.msgId), k.payload) else v.produced)
  {
  }

  lemma VLog(v: VState, k: EventKind)
    requires Calm(v) && k.LogLine? && k.from in v.spawned
    ensures VStep(v, Stamp(v, k)) == Ticked(v)
  {
  }

  lemma VRecv(v: VState, k: EventKind)
    requires Calm(v) && k.NetRecv? && k.to in v.spawned && (k.fromNode, k.to, k.msgId) !in v.dropped
    ensures VStep(v, Stamp(v, k)) == Ticked(v).(produced := Enqueue(v.produced, (k.to, k.msgId), k.payload))
  {
  }

  lemma VFault(v: VState, k: EventKind)
    requires Calm(v) && (k.FaultInjected? || k.FaultPolicyEvent?)
    ensures VStep(v, Stamp(v, k)) == Ticked(v).(dropped :=
              if k.FaultInjected? && k.action.Drop? then v.dropped + {(k.fromNode, k.to, k.msgId)} else v.dropped)
  {
  }

  lemma VTimer(v: VState, k: EventKind)
    requires Calm(v) && k.TimerFired?
    ensures VStep(v, Stamp(v, k)) == Ticked(v).(timerDue := Some(TimerMark(v.expectedSeq, k.from)))
  {
  }

  lemma VDeliver(v: VState, k: EventKind)
    requires Calm(v) && k.Deliver? && k.to in v.spawned
    requires QueueOf(v.produced, (k.to, k.msgId)) != []
    requires LineageOk(k.msgId, v.produced[(k.to, k.msgId)][0], v.delivered)
    ensures VStep(v, Stamp(v, k)) == Ticked(v).(
              produced := Dequeue(v.produced, (k.to, k.msgId)),
              delivered := RecordLineage(k.msgId, v.produced[(k.to, k.msgId)][0], v.delivered),
              effectDue := Some(DeliverMark(v.expectedSeq, k.node, k.to, k.msgId)))
  {
    hide LineageOk;
    hide LineageProblems;
    hide RecordLineage;
    LineageProblemsMean(v.expectedSeq, k.msgId, v.produced[(k.to, k.msgId)][0], v.delivered);
  }

  lemma VEffect(v: VState, k: EventKind)
    requires SeedFits(v) && v.timerDue == None && k.EffectObserved? && k.actor in v.spawned
    requires v.effectDue.Some? && v.effectDue.value.node == k.node && v.effectDue.value.to == k.actor && v.effectDue.value.msgId == k.msgId
    requires Distinct(k.declared) && Distinct(k.observed) && forall e :: e in k.observed ==> e in k.declared
    ensures VStep(v, Stamp(v, k)) == Ticked(v).(effectDue := None)
  {
    hide Distinct;
    DistinctBySize(k.declared);
    DistinctBySize(k.observed);
  }

  // ---- sending ----

  /** A node hands out a message: it enters the ledger under a fresh id, and the verifier stays calm. */
  lemma MintDelivers(l: Ledger, node: Uuid, id: Uuid, home: Uuid, p: Payload)
    ensures Mint(l, node, id, home, p).delivered == l.delivered
  {
    hide ReadPayload;
  }

  lemma PushKeepsActors(cfg: Config, actors: map<Uuid, Actor>, to: Uuid, e: Entry)
    requires ActorsOk(cfg, actors)
    ensures ActorsOk(cfg, Push(actors, to, e)) && Push(actors, to, e).Keys == actors.Keys
  {
  }

  lemma DispatchHonest(cfg: Config, s: Sys, v: VState, l: Ledger, from: Uuid, target: Target, p: Payload, s1: Sys, ev: EventKind)
    returns (l1: Ledger)
    requires SysInv(cfg, s, v, l) && SeedFits(v) && v.effectDue == None
    requires v.timerDue.Some? ==> v.timerDue.value.from == from
    requires GoodUnsent(l, cfg.node, p) && from in s.actors
    requires Dispatch(cfg, s, from, target, p) == Ok((s1, ev)) && s1.msgCounter < U64_MAX
    ensures var v1 := VStep(v, Stamp(v, ev));
            && SysInv(cfg, s1, v1, l1) && Calm(v1) && v1.dropped == v.dropped && v1.spawned == v.spawned
            && s1.actors.Keys == s.actors.Keys
    ensures Extends(l, l1) && OnlyBy(cfg.node, l, l1) && l1.delivered == l.delivered
    ensures ev.msgId == MsgId(cfg.node, s.msgCounter) && s1.msgCounter == s.msgCounter + 1
    ensures l1 == Mint(l, cfg.node, ev.msgId, if ev.NetSend? then ev.toNode else cfg.node, p)
    ensures GoodMsg(l1, if ev.NetSend? then ev.toNode else cfg.node, ev.msgId, p)
  {
    hide GoodUnsent;
    hide GoodMsg;
    hide VStep;
    hide Fresh;
    hide ReadPayload;
    hide InboxesGood;
    hide DeliveredKnown;
    hide QueuesMirror;
    hide LedgerOk;
    hide OnlyBy;
    hide Mint;
    hide ActorsOk;
    hide Push;
    var home := if ev.NetSend? then ev.toNode else cfg.node;
    l1 := Mint(l, cfg.node, ev.msgId, home, p);
    MintIsGood(l, cfg.node, s.msgCounter, home, p);
    VSend(v, ev);
    if ev.Send? { MirrorPush(s.actors, v.produced, ev.to, Entry(ev.msgId, p)); }
    InboxesAfterPush(l, l1, cfg.node, s.actors, s1.actors, if ev.Send? then ev.to else from, Entry(ev.msgId, p));
    DeliveredStays(l, l1, v.delivered);
    MintDelivers(l, cfg.node, ev.msgId, home, p);
    PushKeepsActors(cfg, s.actors, if ev.Send? then ev.to else from, Entry(ev.msgId, p));
  }

  lemma DeliveredStays(l: Ledger, l2: Ledger, delivered: map<LineageKey, Lineage>)
    requires Extends(l, l2) && DeliveredKnown(l, delivered)
    ensures DeliveredKnown(l2, delivered)
  {
  }

  lemma InboxesAfterPush(l: Ledger, l1: Ledger, node: Uuid, actors: map<Uuid, Actor>, after: map<Uuid, Actor>, to: Uuid, e: Entry)
    requires InboxesGood(l, node, actors) && Extends(l, l1)
    requires after == actors || (after == Push(actors, to, e) && GoodMsg(l1, node, e.id, e.payload))
    ensures InboxesGood(l1, node, after)
  {
    hide GoodMsg;
    forall a, i | a in after && 0 <= i < |after[a].inbox| ensures GoodMsg(l1, node, after[a].inbox[i].id, after[a].inbox[i].payload) {
      if i < |actors[a].inbox| {
        GoodMsgStays(l, l1, node, actors[a].inbox[i].id, actors[a].inbox[i].payload);
      }
    }
  }

  ghost predicate AllUnsent(l: Ledger, node: Uuid, outbox: seq<Outgoing>) {
    forall i :: 0 <= i < |outbox| ==> GoodUnsent(l, node, outbox[i].payload)
  }

  lemma UnsentStay(l: Ledger, l2: Ledger, node: Uuid, outbox: seq<Outgoing>)
    requires Extends(l, l2) && AllUnsent(l, node, outbox)
    ensures AllUnsent(l2, node, outbox)
  {
    forall i | 0 <= i < |outbox| ensures GoodUnsent(l2, node, outbox[i].payload) {
      GoodUnsentStays(l, l2, node, outbox[i].payload);
    }
  }

  lemma OnlyByJoins(node: Uuid, l: Ledger, l1: Ledger, l2: Ledger)
    requires Extends(l, l1) && Extends(l1, l2) && OnlyBy(node, l, l1) && OnlyBy(node, l1, l2)
    ensures Extends(l, l2) && OnlyBy(node, l, l2)
  {
  }

  /** Every message among these events that leaves the node is in the ledger for its target node. */
  ghost predicate SendsGood(l: Ledger, evs: seq<EventKind>) {
    forall i :: 0 <= i < |evs| && evs[i].NetSend? ==> GoodMsg(l, evs[i].toNode, evs[i].msgId, evs[i].payload)
  }

  lemma SendsStay(l: Ledger, l2: Ledger, evs: seq<EventKind>)
    requires Extends(l, l2) && SendsGood(l, evs)
    ensures SendsGood(l2, evs)
  {
    forall i | 0 <= i < |evs| && evs[i].NetSend? ensures GoodMsg(l2, evs[i].toNode, evs[i].msgId, evs[i].payload) {
      GoodMsgStays(l, l2, evs[i].toNode, evs[i].msgId, evs[i].payload);
    }
  }

  lemma {:induction false} CounterGrows(cfg: Config, s: Sys, from: Uuid, outbox: seq<Outgoing>, out: Effects)
    requires ProcessOutbox(cfg, s, from, outbox) == Ok(out)
    ensures s.msgCounter <= out.sys.msgCounter
    decreases |outbox|
  {
    if outbox != [] {
      var s1 := if outbox[0].delaySteps > 0 then s.(timerCounter := SatAdd(s.timerCounter, 1))
                else Dispatch(cfg, s, from, outbox[0].target, outbox[0].payload).value.0;
      CounterGrows(cfg, s1, from, outbox[1..], ProcessOutbox(cfg, s1, from, outbox[1..]).value);
    }
  }

  lemma {:induction false} OutboxHonest(cfg: Config, s: Sys, v: VState, l: Ledger, from: Uuid, outbox: seq<Outgoing>, out: Effects)
    returns (l1: Ledger)
    requires SysInv(cfg, s, v, l) && Calm(v) && from in s.actors && AllUnsent(l, cfg.node, outbox)
    requires ProcessOutbox(cfg, s, from, outbox) == Ok(out) && out.sys.msgCounter < U64_MAX
    ensures var v1 := VRun(v, out.emitted);
            SysInv(cfg, out.sys, v1, l1) && Calm(v1) && v1.dropped == v.dropped && v1.spawned == v.spawned
    ensures Extends(l, l1) && OnlyBy(cfg.node, l, l1) && l1.delivered == l.delivered
    ensures out.sys.actors.Keys == s.actors.Keys
    ensures TimersGood(cfg, out.sys, l1, Cores(out.timers))
    ensures SendsGood(l1, out.emitted)
    decreases |outbox|
  {
    hide GoodUnsent;
    hide GoodMsg;
    hide VStep;
    hide SysInv;
    hide OnlyBy;
    hide Dispatch;
    if outbox == [] {
      l1 := l;
      OnlyBySelf(cfg.node, l);
    } else if outbox[0].delaySteps > 0 {
      var s1 := s.(timerCounter := SatAdd(s.timerCounter, 1));
      var rest := ProcessOutbox(cfg, s1, from, outbox[1..]).value;
      assert SysInv(cfg, s1, v, l) by { TimerCounterIrrelevant(cfg, s, v, l, s1.timerCounter); }
      l1 := OutboxHonest(cfg, s1, v, l, from, outbox[1..], rest);
      UnsentStay(l, l1, cfg.node, outbox);
      var t := TimerCore(TimerId(cfg.node, s.timerCounter), from, outbox[0].target, outbox[0].payload);
      assert Cores(out.timers) == [t] + Cores(rest.timers) by { assert out.timers[1..] == rest.timers; }
    } else {
      var (s1, ev) := Dispatch(cfg, s, from, outbox[0].target, outbox[0].payload).value;
      var rest := ProcessOutbox(cfg, s1, from, outbox[1..]).value;
      CounterGrows(cfg, s1, from, outbox[1..], rest);
      var la := DispatchHonest(cfg, s, v, l, from, outbox[0].target, outbox[0].payload, s1, ev);
      UnsentStay(l, la, cfg.node, outbox);
      l1 := OutboxHonest(cfg, s1, VStep(v, Stamp(v, ev)), la, from, outbox[1..], rest);
      OnlyByJoins(cfg.node, l, la, l1);
      assert out.emitted[1..] == rest.emitted;
      PayloadOfDispatch(cfg, s, from, outbox[0].target, outbox[0].payload, s1, ev);
      if ev.NetSend? { GoodMsgStays(la, l1, ev.toNode, ev.msgId, ev.payload); }
    }
  }

  lemma PayloadOfDispatch(cfg: Config, s: Sys, from: Uuid, target: Target, p: Payload, s1: Sys, ev: EventKind)
    requires Dispatch(cfg, s, from, target, p) == Ok((s1, ev))
    ensures IsSend(ev) && ev.payload == p && ev.from == from
  {
  }

  lemma OnlyBySelf(node: Uuid, l: Ledger)
    ensures Extends(l, l) && OnlyBy(node, l, l)
  {
  }

  lemma TimerCounterIrrelevant(cfg: Config, s: Sys, v: VState, l: Ledger, counter: U64)
    requires SysInv(cfg, s, v, l)
    ensures SysInv(cfg, s.(timerCounter := counter), v, l)
  {
  }

  // ---- delivering ----

  lemma GoodIsLineageOk(l: Ledger, home: Uuid, id: Uuid, p: Payload, delivered: map<LineageKey, Lineage>)
    requires GoodMsg(l, home, id, p) && DeliveredKnown(l, delivered)
    ensures LineageOk(id, p, delivered)
  {
  }

  function MarkDelivered(l: Ledger, id: Uuid, p: Payload): Ledger {
    var r := ReadPayload(0, p);
    if r.Read? then l.(delivered := l.delivered + {(r.from, id)}) else l
  }

  lemma DeliveryRecorded(l: Ledger, node: Uuid, id: Uuid, p: Payload, delivered: map<LineageKey, Lineage>)
    requires LedgerOk(l) && GoodMsg(l, node, id, p) && DeliveredKnown(l, delivered)
    ensures var l1 := MarkDelivered(l, id, p);
            && LedgerOk(l1) && Extends(l, l1) && OnlyBy(node, l, l1) && l1.info == l.info
            && DeliveredKnown(l1, RecordLineage(id, p, delivered))
  {
  }

  /** What a handler sends in answer to a delivered message continues that message's lineage. */
  lemma AnswerIsGood(cfg: Config, l: Ledger, call: Call, home: Uuid, p: Payload)
    requires GoodMsg(l, home, call.msgId, Message(call.incoming))
    requires ReadPayload(0, Message(call.incoming)).Read?
             && (ReadPayload(0, Message(call.incoming)).from, call.msgId) in l.delivered
    requires AnswersCall(cfg, call, p)
    ensures GoodUnsent(l, cfg.node, p)
  {
  }

  lemma AnswersAreGood(cfg: Config, l: Ledger, call: Call, home: Uuid, services: set<string>, outbox: seq<Outgoing>)
    requires GoodMsg(l, home, call.msgId, Message(call.incoming))
    requires ReadPayload(0, Message(call.incoming)).Read?
             && (ReadPayload(0, Message(call.incoming)).from, call.msgId) in l.delivered
    requires GoodSends(cfg, call, services, outbox)
    ensures AllUnsent(l, cfg.node, outbox)
  {
    hide GoodMsg;
    hide GoodUnsent;
    hide ReadPayload;
    forall i | 0 <= i < |outbox| ensures GoodUnsent(l, cfg.node, outbox[i].payload) {
      assert outbox[i] in outbox;
      AnswerIsGood(cfg, l, call, home, outbox[i].payload);
    }
  }

  lemma {:induction false} LogsHonest(v: VState, node: Uuid, from: Uuid, logs: seq<LogEmission>)
    requires Calm(v) && from in v.spawned
    ensures var w := VRun(v, LogEvents(node, from, logs));
            Calm(w) && w == v.(expectedSeq := w.expectedSeq, seed := w.seed)
    decreases |logs|
  {
    hide VStep;
    if logs != [] {
      var ev := LogEvents(node, from, logs)[0];
      VLog(v, ev);
      LogsHonest(VStep(v, Stamp(v, ev)), node, from, logs[1..]);
    }
  }

  lemma SysInvTicks(cfg: Config, s: Sys, v: VState, w: VState, l: Ledger)
    requires SysInv(cfg, s, v, l)
    requires w.spawned == v.spawned && w.produced == v.produced && w.delivered == v.delivered
    ensures SysInv(cfg, s, w, l)
  {
  }

  /** Popping a message: the verifier hands over the same payload and finds nothing wrong with it. */
  lemma PopHonest(cfg: Config, s: Sys, v: VState, l: Ledger, to: Uuid, p: Popped)
    requires SysInv(cfg, s, v, l) && Calm(v) && Pop(s, to) == Ok(p)
    ensures var k := Deliver(cfg.node, to, p.entry.id);
            var v1 := VStep(v, Stamp(v, k));
            var l1 := MarkDelivered(l, p.entry.id, p.entry.payload);
            && v1.effectDue == Some(DeliverMark(v.expectedSeq, cfg.node, to, p.entry.id))
            && SeedFits(v1) && v1.timerDue == None && v1.dropped == v.dropped && v1.spawned == v.spawned
            && SysInv(cfg, p.sys, v1, l1) && GoodMsg(l1, cfg.node, p.entry.id, p.entry.payload)
            && Extends(l, l1) && OnlyBy(cfg.node, l, l1)
            && QueueOf(v.produced, (to, p.entry.id)) != [] && v.produced[(to, p.entry.id)][0] == p.entry.payload
  {
    hide VStep;
    hide GoodMsg;
    hide LineageOk;
    hide MarkDelivered;
    hide RecordLineage;
    var k := Deliver(cfg.node, to, p.entry.id);
    assert p.entry == s.actors[to].inbox[0];
    MirrorPop(s.actors, v.produced, to);
    assert GoodMsg(l, cfg.node, s.actors[to].inbox[0].id, s.actors[to].inbox[0].payload);
    GoodIsLineageOk(l, cfg.node, p.entry.id, p.entry.payload, v.delivered);
    VDeliver(v, k);
    DeliveryRecorded(l, cfg.node, p.entry.id, p.entry.payload, v.delivered);
    var l1 := MarkDelivered(l, p.entry.id, p.entry.payload);
    forall a, i | a in p.sys.actors && 0 <= i < |p.sys.actors[a].inbox|
      ensures GoodMsg(l1, cfg.node, p.sys.actors[a].inbox[i].id, p.sys.actors[a].inbox[i].payload)
    {
      var j := if a == to then i + 1 else i;
      assert p.sys.actors[a].inbox[i] == s.actors[a].inbox[j];
      GoodMsgStays(l, l1, cfg.node, s.actors[a].inbox[j].id, s.actors[a].inbox[j].payload);
    }
    GoodMsgStays(l, l1, cfg.node, p.entry.id, p.entry.payload);
  }

  lemma StoreUpdateKeeps(cfg: Config, s: Sys, v: VState, l: Ledger, to: Uuid, store: Store)
    requires SysInv(cfg, s, v, l) && to in s.actors && store.Keys == s.actors[to].store.Keys
    ensures SysInv(cfg, s.(actors := s.actors[to := s.actors[to].(store := store)]), v, l)
  {
    hide GoodMsg;
    var after := s.actors[to := s.actors[to].(store := store)];
    forall a: Uuid, id: Uuid | a in after ensures QueueOf(v.produced, (a, id)) == Project(after[a].inbox, id) {
      assert QueueOf(v.produced, (a, id)) == Project(s.actors[a].inbox, id);
    }
  }

  /** The EffectObserved and Log events of a handler block. */
  lemma ReportHonest(cfg: Config, s: Sys, v: VState, l: Ledger, to: Uuid, k: EventKind, run: HandlerRun)
    requires SysInv(cfg, s, v, l) && SeedFits(v) && v.timerDue == None && to in s.actors
    requires k.EffectObserved? && k.node == cfg.node && k.actor == to
    requires v.effectDue.Some? && v.effectDue.value.node == k.node && v.effectDue.value.to == to && v.effectDue.value.msgId == k.msgId
    requires k.declared == EffectSeq(run.declared) && k.observed == EffectSeq(run.exec.observed)
    requires run.exec.observed <= run.declared
    ensures var w := VRun(v, [k] + LogEvents(cfg.node, to, run.exec.logs));
            SysInv(cfg, s, w, l) && Calm(w) && w.dropped == v.dropped && w.spawned == v.spawned
  {
    hide VStep;
    hide EffectSeq;
    hide SysInv;
    EffectSeqExact(run.declared);
    EffectSeqExact(run.exec.observed);
    assert to in v.spawned by { SpawnedActors(cfg, s, v, l, to); }
    VEffect(v, k);
    var logs := LogEvents(cfg.node, to, run.exec.logs);
    LogsHonest(VStep(v, Stamp(v, k)), cfg.node, to, run.exec.logs);
    assert ([k] + logs)[1..] == logs;
    SysInvTicks(cfg, s, v, VRun(v, [k] + logs), l);
  }

  lemma SpawnedActors(cfg: Config, s: Sys, v: VState, l: Ledger, a: Uuid)
    requires SysInv(cfg, s, v, l) && a in s.actors
    ensures a in v.spawned
  {
  }

  lemma HandleHonest(cfg: Config, s: Sys, v: VState, l: Ledger, to: Uuid, e: Entry, h: Effects) returns (l1: Ledger)
    requires ValidConfig(cfg) && SysInv(cfg, s, v, l) && SeedFits(v) && v.timerDue == None
    requires v.effectDue.Some? && v.effectDue.value.node == cfg.node && v.effectDue.value.to == to && v.effectDue.value.msgId == e.id
    requires GoodMsg(l, cfg.node, e.id, e.payload)
    requires ReadPayload(0, e.payload).Read? && (ReadPayload(0, e.payload).from, e.id) in l.delivered
    requires Handle(cfg, s, to, e) == Ok(h) && h.sys.msgCounter < U64_MAX
    ensures var w := VRun(v, h.emitted);
            SysInv(cfg, h.sys, w, l1) && Calm(w) && w.dropped == v.dropped && w.spawned == v.spawned
    ensures Extends(l, l1) && OnlyBy(cfg.node, l, l1) && l1.delivered == l.delivered
    ensures h.sys.actors.Keys == s.actors.Keys
    ensures TimersGood(cfg, h.sys, l1, Cores(h.timers)) && SendsGood(l1, h.emitted)
  {
    hide VStep;
    hide GoodMsg;
    hide EffectSeq;
    hide ReadPayload;
    hide ExecHandler;
    hide ProcessOutbox;
    hide GoodUnsent;
    hide SysInv;
    hide Loaded;
    hide LogEvents;
    var a := s.actors[to];
    var call := Call(a.service, e.id, e.payload.msg);
    var run := ExecHandler(cfg, call, a.store).value;
    assert ActorsOk(cfg, s.actors) by { ActorsOfInv(cfg, s, v, l); }
    HandlerSends(cfg, call, a.store, run);
    var s1 := s.(actors := s.actors[to := a.(store := run.exec.store)]);
    StoreUpdateKeeps(cfg, s, v, l, to, run.exec.store);
    AnswersAreGood(cfg, l, call, cfg.node, ServiceNames(cfg.program.services), run.exec.outbox);
    var k := EffectObserved(cfg.node, to, a.service, e.payload.msg.msgType, e.id, EffectSeq(run.declared), EffectSeq(run.exec.observed));
    var logs := LogEvents(cfg.node, to, run.exec.logs);
    ReportHonest(cfg, s1, v, l, to, k, run);
    var out := ProcessOutbox(cfg, s1, to, run.exec.outbox).value;
    l1 := OutboxHonest(cfg, s1, VRun(v, [k] + logs), l, to, run.exec.outbox, out);
    VRunAppend(v, [k] + logs, out.emitted);
    LogsSendNothing(cfg.node, to, run.exec.logs);
  }

  lemma ActorsOfInv(cfg: Config, s: Sys, v: VState, l: Ledger)
    requires SysInv(cfg, s, v, l)
    ensures ActorsOk(cfg, s.actors)
  {
  }

  lemma {:induction false} LogsSendNothing(node: Uuid, from: Uuid, logs: seq<LogEmission>)
    ensures forall i :: 0 <= i < |LogEvents(node, from, logs)| ==> LogEvents(node, from, logs)[i].LogLine?
  {
    if logs != [] { LogsSendNothing(node, from, logs[1..]); }
  }

  // ---- one input of the machine ----

  /** An input this node could really get: a message from the ledger that is due here and was not
      dropped before, or an event of its own. */
  ghost predicate HonestInput(cfg: Config, c: Core, v: VState, l: Ledger, ev: EventKind) {
    match ev
    case NetRecv(node, fromNode, to, id, p) =>
      node == cfg.node && to in c.sys.actors && GoodMsg(l, cfg.node, id, p) && (fromNode, to, id) !in v.dropped
    case Deliver(node, _, _) => node == cfg.node
    case TimerFired(node, _, _) => node == cfg.node
    case FaultInjected(_, _, _, _, _) => true
    case FaultPolicyEvent(_, _, _, _, _) => true
    case _ => false
  }

  function NewlyDropped(ev: EventKind): set<(Uuid, Uuid, Uuid)> {
    if ev.FaultInjected? && ev.action.Drop? then {(ev.fromNode, ev.to, ev.msgId)} else {}
  }

  /** The key of the message a Deliver takes from the queues. */
  function NewlyDelivered(produced: map<(Uuid, Uuid), seq<Payload>>, ev: EventKind): set<LineageKey> {
    if ev.Deliver? && QueueOf(produced, (ev.to, ev.msgId)) != [] then
      var r := ReadPayload(0, produced[(ev.to, ev.msgId)][0]);
      if r.Read? then {(r.from, ev.msgId)} else {}
    else {}
  }

  /** The outcome of one honest input. */
  ghost predicate StaysHonest(cfg: Config, v: VState, l: Ledger, ev: EventKind, m: Move, l1: Ledger) {
    var w := VRun(v, [ev] + m.events);
    && NodeInv(cfg, m.core, w, l1) && Calm(w)
    && w.dropped == v.dropped + NewlyDropped(ev) && w.spawned == v.spawned
    && Extends(l, l1) && OnlyBy(cfg.node, l, l1) && SendsGood(l1, [ev] + m.events)
    && l1.delivered == l.delivered + NewlyDelivered(v.produced, ev)
  }

  lemma VRunCons(v: VState, ev: EventKind, rest: seq<EventKind>)
    ensures VRun(v, [ev] + rest) == VRun(VStep(v, Stamp(v, ev)), rest)
  {
    assert ([ev] + rest)[1..] == rest;
  }

  lemma TimersStay(cfg: Config, s: Sys, s1: Sys, l: Ledger, l1: Ledger, ts: seq<TimerCore>)
    requires TimersGood(cfg, s, l, ts) && Extends(l, l1) && s1.actors.Keys == s.actors.Keys
    ensures TimersGood(cfg, s1, l1, ts)
  {
    forall i | 0 <= i < |ts| ensures GoodUnsent(l1, cfg.node, ts[i].payload) && ts[i].from in s1.actors {
      GoodUnsentStays(l, l1, cfg.node, ts[i].payload);
    }
  }

  lemma DeliverHonest(cfg: Config, c: Core, v: VState, l: Ledger, ev: EventKind, m: Move) returns (l1: Ledger)
    requires ValidConfig(cfg) && NodeInv(cfg, c, v, l) && Calm(v) && ev.Deliver? && ev.node == cfg.node
    requires CoreStep(cfg, c, ev) == Ok(m) && m.core.sys.msgCounter < U64_MAX
    ensures StaysHonest(cfg, v, l, ev, m, l1)
  {
    hide VStep;
    hide GoodMsg;
    hide Handle;
    hide SysInv;
    hide ReadPayload;
    hide GoodUnsent;
    hide ValidConfig;
    var p := Pop(c.sys, ev.to).value;
    var h := Handle(cfg, p.sys, ev.to, p.entry).value;
    PopHonest(cfg, c.sys, v, l, ev.to, p);
    var v1 := VStep(v, Stamp(v, ev));
    var la := MarkDelivered(l, p.entry.id, p.entry.payload);
    assert ReadPayload(0, p.entry.payload).Read? by { GoodIsReadable(la, cfg.node, p.entry.id, p.entry.payload); }
    l1 := HandleHonest(cfg, p.sys, v1, la, ev.to, p.entry, h);
    VRunCons(v, ev, h.emitted);
    OnlyByJoins(cfg.node, l, la, l1);
    TimersStay(cfg, c.sys, h.sys, l, l1, c.timers);
  }

  lemma GoodIsReadable(l: Ledger, home: Uuid, id: Uuid, p: Payload)
    requires GoodMsg(l, home, id, p)
    ensures ReadPayload(0, p).Read?
  {
  }

  lemma FiringHonest(cfg: Config, c: Core, v: VState, l: Ledger, ev: EventKind, m: Move) returns (l1: Ledger)
    requires NodeInv(cfg, c, v, l) && Calm(v) && ev.TimerFired? && ev.node == cfg.node
    requires CoreStep(cfg, c, ev) == Ok(m) && m.core.sys.msgCounter < U64_MAX
    ensures StaysHonest(cfg, v, l, ev, m, l1)
  {
    hide VStep;
    hide GoodMsg;
    hide Dispatch;
    hide SysInv;
    hide GoodUnsent;
    var i := FindTimer(c.timers, ev.from, ev.timerId);
    var t := c.timers[i];
    var (s1, sent) := Dispatch(cfg, c.sys, t.from, t.target, t.payload).value;
    VTimer(v, ev);
    var v1 := VStep(v, Stamp(v, ev));
    SysInvTicks(cfg, c.sys, v, v1, l);
    l1 := DispatchHonest(cfg, c.sys, v1, l, t.from, t.target, t.payload, s1, sent);
    PayloadOfDispatch(cfg, c.sys, t.from, t.target, t.payload, s1, sent);
    VRunCons(v, ev, [sent]);
    assert VRun(v1, [sent]) == VStep(v1, Stamp(v1, sent));
    TimersStay(cfg, c.sys, s1, l, l1, c.timers);
    SwapKeepsGood(cfg, s1, l1, c.timers, i);
  }

  lemma SwapKeepsGood(cfg: Config, s: Sys, l: Ledger, ts: seq<TimerCore>, i: nat)
    requires i < |ts| && TimersGood(cfg, s, l, ts)
    ensures TimersGood(cfg, s, l, SwapRemove(ts, i))
  {
    hide GoodUnsent;
  }

  lemma ReceiptHonest(cfg: Config, c: Core, v: VState, l: Ledger, ev: EventKind, m: Move)
    requires NodeInv(cfg, c, v, l) && Calm(v) && ev.NetRecv? && HonestInput(cfg, c, v, l, ev)
    requires CoreStep(cfg, c, ev) == Ok(m)
    ensures StaysHonest(cfg, v, l, ev, m, l)
  {
    hide VStep;
    hide GoodMsg;
    hide GoodUnsent;
    hide InboxesGood;
    hide QueuesMirror;
    hide DeliveredKnown;
    hide Fresh;
    hide ActorsOk;
    hide Push;
    hide OnlyBy;
    VRecv(v, ev);
    VRunCons(v, ev, []);
    OnlyBySelf(cfg.node, l);
    PushKeepsActors(cfg, c.sys.actors, ev.to, Entry(ev.msgId, ev.payload));
    MirrorPush(c.sys.actors, v.produced, ev.to, Entry(ev.msgId, ev.payload));
    InboxesAfterPush(l, l, cfg.node, c.sys.actors, m.core.sys.actors, ev.to, Entry(ev.msgId, ev.payload));
  }

  lemma CoreStepHonest(cfg: Config, c: Core, v: VState, l: Ledger, ev: EventKind, m: Move) returns (l1: Ledger)
    requires ValidConfig(cfg) && NodeInv(cfg, c, v, l) && Calm(v) && HonestInput(cfg, c, v, l, ev)
    requires CoreStep(cfg, c, ev) == Ok(m) && m.core.sys.msgCounter < U64_MAX
    ensures StaysHonest(cfg, v, l, ev, m, l1)
  {
    hide ValidConfig;
    if ev.Deliver? {
      l1 := DeliverHonest(cfg, c, v, l, ev, m);
    } else if ev.TimerFired? {
      l1 := FiringHonest(cfg, c, v, l, ev, m);
    } else {
      l1 := l;
      if ev.NetRecv? {
        ReceiptHonest(cfg, c, v, l, ev, m);
      } else {
        FaultHonest(cfg, c, v, l, ev, m);
      }
    }
  }

  lemma FaultHonest(cfg: Config, c: Core, v: VState, l: Ledger, ev: EventKind, m: Move)
    requires NodeInv(cfg, c, v, l) && Calm(v) && (ev.FaultInjected? || ev.FaultPolicyEvent?)
    requires CoreStep(cfg, c, ev) == Ok(m)
    ensures StaysHonest(cfg, v, l, ev, m, l)
  {
    hide VStep;
    hide GoodMsg;
    hide GoodUnsent;
    hide SysInv;
    VFault(v, ev);
    VRunCons(v, ev, []);
    SysInvTicks(cfg, c.sys, v, VStep(v, Stamp(v, ev)), l);
  }

  // ---- start-up ----

  /** The actors of the first `n` services. */
  function ActorIds(cfg: Config, n: nat): set<Uuid>
    requires n <= |cfg.program.services|
  {
    set i | 0 <= i < n && cfg.program.services[i] in cfg.actorOf :: cfg.actorOf[cfg.program.services[i]]
  }

  lemma VSpawn(v: VState, k: EventKind)
    requires Calm(v) && k.Spawn? && k.actor !in v.spawned
    ensures VStep(v, Stamp(v, k)) == Ticked(v).(spawned := v.spawned[k.actor := k.service])
  {
  }

  lemma {:induction false} SpawnsHonest(cfg: Config, n: nat)
    requires ValidConfig(cfg) && cfg.systemActor !in cfg.actorOf.Values && n <= |cfg.program.services|
    ensures var v := VRun(START, SpawnEvents(cfg, n));
            Calm(v) && v == START.(expectedSeq := v.expectedSeq, seed := v.seed, spawned := v.spawned)
            && v.spawned.Keys == {cfg.systemActor} + ActorIds(cfg, n)
  {
    hide Loaded;
    hide VStep;
    hide ActorIds;
    if n == 0 {
      var k := SpawnEvents(cfg, 0)[0];
      VSpawn(START, k);
      assert VRun(START, [k]) == VStep(START, Stamp(START, k));
      NoActorsYet(cfg);
    } else {
      SpawnsHonest(cfg, n - 1);
      var v := VRun(START, SpawnEvents(cfg, n - 1));
      var s := cfg.program.services[n - 1];
      assert s in ServiceNames(cfg.program.services);
      var k := Spawn(cfg.node, cfg.actorOf[s], s);
      VRunAppend(START, SpawnEvents(cfg, n - 1), [k]);
      NewActor(cfg, n);
      VSpawn(v, k);
      assert VRun(v, [k]) == VStep(v, Stamp(v, k));
    }
  }

  lemma NoActorsYet(cfg: Config)
    ensures ActorIds(cfg, 0) == {}
  {
  }

  lemma NewActor(cfg: Config, n: nat)
    requires ValidConfig(cfg) && 0 < n <= |cfg.program.services|
    ensures var s := cfg.program.services[n - 1];
            && s in cfg.actorOf && s in cfg.program.initialState
            && cfg.actorOf[s] in cfg.actorOf.Values && cfg.actorOf[s] !in ActorIds(cfg, n - 1)
            && ActorIds(cfg, n) == ActorIds(cfg, n - 1) + {cfg.actorOf[s]}
  {
    var s := cfg.program.services[n - 1];
    assert s in ServiceNames(cfg.program.services);
    assert cfg.actorOf[s] in cfg.actorOf.Values;
    forall i | 0 <= i < n - 1 && cfg.program.services[i] in cfg.actorOf ensures cfg.actorOf[cfg.program.services[i]] != cfg.actorOf[s] {
      assert cfg.program.services[i] != s;
    }
  }

  lemma {:induction false} BuiltActors(cfg: Config, n: nat)
    requires ValidConfig(cfg) && n <= |cfg.program.services|
    ensures var actors := BuildActors(cfg, n);
            && actors.Keys == ActorIds(cfg, n)
            && (forall a :: a in actors ==>
                  actors[a].inbox == [] && actors[a].service in cfg.program.initialState
                  && actors[a].store == cfg.program.initialState[actors[a].service])
  {
    hide Loaded;
    if n > 0 {
      BuiltActors(cfg, n - 1);
      NewActor(cfg, n);
    }
  }

  lemma AllServicesRun(cfg: Config)
    requires ValidConfig(cfg)
    ensures var actors := BuildActors(cfg, |cfg.program.services|);
            ActorsOk(cfg, actors) && forall a :: a in actors ==> actors[a].inbox == []
  {
    hide Loaded;
    BuiltActors(cfg, |cfg.program.services|);
    forall s | s in cfg.actorOf ensures cfg.actorOf[s] in ActorIds(cfg, |cfg.program.services|) {
      assert s in ServiceNames(cfg.program.services);
      var i :| 0 <= i < |cfg.program.services| && cfg.program.services[i] == s;
      assert cfg.actorOf[cfg.program.services[i]] == cfg.actorOf[s];
    }
  }

  lemma RootIsGood(cfg: Config, l: Ledger, counter: U64, idx: nat)
    requires LedgerOk(l) && Fresh(l, cfg.node, counter) && counter < U64_MAX
    ensures var id := MsgId(cfg.node, counter);
            var p := BootstrapMessage(cfg, id, idx);
            var l1 := Mint(l, cfg.node, id, cfg.node, p);
            && LedgerOk(l1) && Extends(l, l1) && OnlyBy(cfg.node, l, l1) && Fresh(l1, cfg.node, counter + 1)
            && GoodMsg(l1, cfg.node, id, p)
  {
    IdsDetermineCounters(cfg.node, counter, counter);
  }

  /** The verifier right after the Spawn events. */
  ghost predicate AfterSpawns(cfg: Config, v: VState) {
    && Calm(v) && v.produced == map[] && v.delivered == map[] && v.dropped == {}
    && v.spawned.Keys == {cfg.systemActor} + ActorIds(cfg, |cfg.program.services|)
  }

  lemma NothingSentYet(cfg: Config, v: VState, l: Ledger)
    requires ValidConfig(cfg) && cfg.systemActor !in cfg.actorOf.Values && LedgerOk(l) && AfterSpawns(cfg, v)
    requires forall k :: k in l.info ==> k.0 != cfg.node
    ensures SysInv(cfg, Sys(BuildActors(cfg, |cfg.program.services|), 1, 1), v, l)
  {
    hide ValidConfig;
    hide GoodMsg;
    AllServicesRun(cfg);
    BuiltActors(cfg, |cfg.program.services|);
  }

  /** One more bootstrap message. */
  lemma RootSent(cfg: Config, entry: Uuid, s: Sys, v: VState, l: Ledger, idx: nat) returns (l1: Ledger)
    requires SysInv(cfg, s, v, l) && Calm(v) && cfg.systemActor in v.spawned && entry in s.actors && s.msgCounter < U64_MAX
    ensures var id := MsgId(cfg.node, s.msgCounter);
            var p := BootstrapMessage(cfg, id, idx);
            var w := VRun(v, [Send(cfg.systemActor, entry, id, p)]);
            && SysInv(cfg, s.(actors := Push(s.actors, entry, Entry(id, p)), msgCounter := s.msgCounter + 1), w, l1)
            && Calm(w) && w.dropped == v.dropped && w.spawned == v.spawned
    ensures Extends(l, l1) && OnlyBy(cfg.node, l, l1) && l1.delivered == l.delivered
  {
    hide VStep;
    hide GoodMsg;
    hide BootstrapMessage;
    hide Fresh;
    var id := MsgId(cfg.node, s.msgCounter);
    var p := BootstrapMessage(cfg, id, idx);
    var k := Send(cfg.systemActor, entry, id, p);
    RootIsGood(cfg, l, s.msgCounter, idx);
    l1 := Mint(l, cfg.node, id, cfg.node, p);
    VSend(v, k);
    assert VRun(v, [k]) == VStep(v, Stamp(v, k));
    MirrorPush(s.actors, v.produced, entry, Entry(id, p));
    InboxesAfterPush(l, l1, cfg.node, s.actors, Push(s.actors, entry, Entry(id, p)), entry, Entry(id, p));
    DeliveredStays(l, l1, v.delivered);
  }

  /** After start-up the node is ready, whatever other nodes have put in the ledger already. */
  lemma {:induction false} BootstrapHonest(cfg: Config, entry: Uuid, n: nat, v0: VState, l0: Ledger, b: Boot) returns (l: Ledger)
    requires ValidConfig(cfg) && cfg.systemActor !in cfg.actorOf.Values && LedgerOk(l0) && AfterSpawns(cfg, v0)
    requires forall k :: k in l0.info ==> k.0 != cfg.node
    requires |cfg.program.services| > 0 && Bootstrap(cfg, entry, n) == Ok(b) && b.sys.msgCounter < U64_MAX
    ensures var v := VRun(v0, b.events);
            SysInv(cfg, b.sys, v, l) && Calm(v) && v.dropped == {} && v.spawned == v0.spawned
    ensures Extends(l0, l) && OnlyBy(cfg.node, l0, l) && l.delivered == l0.delivered
  {
    hide VStep;
    hide SysInv;
    hide ValidConfig;
    hide OnlyBy;
    hide BootstrapMessage;
    if n == 0 {
      l := l0;
      NothingSentYet(cfg, v0, l0);
      OnlyBySelf(cfg.node, l0);
    } else {
      var before := Bootstrap(cfg, entry, n - 1).value;
      var la := BootstrapHonest(cfg, entry, n - 1, v0, l0, before);
      l := RootSent(cfg, entry, before.sys, VRun(v0, before.events), la, n - 1);
      var id := MsgId(cfg.node, before.sys.msgCounter);
      VRunAppend(v0, before.events, [Send(cfg.systemActor, entry, id, BootstrapMessage(cfg, id, n - 1))]);
      OnlyByJoins(cfg.node, l0, la, l);
    }
  }

  lemma StartupHonest(cfg: Config, l0: Ledger, boot: Boot) returns (l: Ledger)
    requires ValidConfig(cfg) && cfg.systemActor !in cfg.actorOf.Values && LedgerOk(l0)
    requires forall k :: k in l0.info ==> k.0 != cfg.node
    requires Startup(cfg) == Ok(boot) && boot.sys.msgCounter < U64_MAX
    ensures var v := VRun(START, boot.events);
            NodeInv(cfg, Core(boot.sys, []), v, l) && Calm(v) && v.dropped == {}
    ensures Extends(l0, l) && OnlyBy(cfg.node, l0, l) && l.delivered == l0.delivered
  {
    hide ValidConfig;
    hide GoodMsg;
    var entry := cfg.actorOf[EntryService(cfg)];
    var b := Bootstrap(cfg, entry, BootstrapCount(cfg)).value;
    var spawns := SpawnEvents(cfg, |cfg.program.services|);
    SpawnsHonest(cfg, |cfg.program.services|);
    l := BootstrapHonest(cfg, entry, BootstrapCount(cfg), VRun(START, spawns), l0, b);
    VRunAppend(START, spawns, b.events);
  }
}
