/** The single-trace verifier category by category: a trace is free of one kind of problem exactly when
    the condition of that kind holds, whatever other problems it has. */
module VerifyCategories {
  import opened Base
  import opened Events
  import opened Queues
  import opened VerifySpec
  import opened VerifyMeaning
  import opened LineageSpec
  import opened QueueMirror

  datatype Category = Numbering | Seeding | Timing | Pairing | Sourcing

  /** The category of a problem; those about actors, effect lists, dropped envelopes and lineage have none here. */
  function CategoryOf(p: Problem): Option<Category> {
    match p
    case SeqMismatch(_, _) => Some(Numbering)
    case SeedMismatch(_) => Some(Seeding)
    case TimerSendWrongActor(_, _) => Some(Timing)
    case TimerNotAnswered(_, _) => Some(Timing)
    case TimerAtEnd(_) => Some(Timing)
    case DeliverNotAnswered(_, _) => Some(Pairing)
    case EffectOfOtherDeliver(_, _) => Some(Pairing)
    case EffectWithoutDeliver(_) => Some(Pairing)
    case DeliverAtEnd(_) => Some(Pairing)
    case DeliverWithoutSource(_, _, _) => Some(Sourcing)
    case _ => None
  }

  ghost predicate Free(ps: seq<Problem>, c: Category) {
    forall p :: p in ps ==> CategoryOf(p) != Some(c)
  }

  /** What the category demands of the event at index `i`: its number is its index; its seed is the
      first event's; it is a send of the same actor if a timer fired right before; it is the matching
      EffectObserved if and only if a delivery stands right before; it is no delivery of more than
      has been produced. */
  predicate InOrder(c: Category, events: seq<TraceEvent>, i: nat)
    requires i < |events|
  {
    var k := events[i].kind;
    match c
    case Numbering => events[i].seqNo == MinU64(i)
    case Seeding => events[i].seed == events[0].seed
    case Timing => i > 0 && events[i - 1].kind.TimerFired? ==> IsSend(k) && k.from == events[i - 1].kind.from
    case Pairing =>
      && (i > 0 && events[i - 1].kind.Deliver? ==> Answers(k, events[i - 1].kind))
      && (k.EffectObserved? ==> i > 0 && events[i - 1].kind.Deliver?)
    case Sourcing => k.Deliver? ==> Sourced(events, i)
  }

  /** What the category demands of the end of the trace. */
  predicate EndInOrder(c: Category, events: seq<TraceEvent>) {
    events != [] ==>
      var last := events[|events| - 1].kind;
      (c.Timing? ==> !last.TimerFired?) && (c.Pairing? ==> !last.Deliver?)
  }

  ghost predicate CategoryOk(c: Category, events: seq<TraceEvent>) {
    (forall i :: 0 <= i < |events| ==> InOrder(c, events, i)) && EndInOrder(c, events)
  }

  // ---- what each check adds ----

  lemma FreeAppend(a: seq<Problem>, b: seq<Problem>, c: Category)
    ensures Free(a + b, c) <==> Free(a, c) && Free(b, c)
  {
    assert Free(a, c) && Free(b, c) ==> Free(a + b, c);
    if Free(a + b, c) {
      forall p | p in a ensures CategoryOf(p) != Some(c) { assert p in a + b; }
      forall p | p in b ensures CategoryOf(p) != Some(c) { assert p in a + b; }
    }
  }

  lemma FreeSnoc(a: seq<Problem>, p: Problem, c: Category)
    ensures Free(a + [p], c) <==> Free(a, c) && CategoryOf(p) != Some(c)
  {
    FreeAppend(a, [p], c);
    assert p in [p];
  }

  lemma FreeWhen(a: seq<Problem>, condition: bool, p: Problem, c: Category)
    ensures Free(a + When(condition, p), c) <==> Free(a, c) && (condition ==> CategoryOf(p) != Some(c))
  {
    FreeSnoc(a, p, c);
    assert a + [] == a;
  }

  lemma NumberingAdds(v: VState, ev: TraceEvent, c: Category)
    ensures Free(CheckSeq(v, ev).problems, c) <==> Free(v.problems, c) && (c.Numbering? ==> ev.seqNo == v.expectedSeq)
    ensures Free(CheckSeed(v, ev).problems, c) <==>
            Free(v.problems, c) && (c.Seeding? && v.seed.Some? ==> ev.seed == v.seed.value)
  {
    hide Free;
    FreeSnoc(v.problems, SeqMismatch(ev.seqNo, v.expectedSeq), c);
    FreeSnoc(v.problems, SeedMismatch(ev.seqNo), c);
  }

  lemma AnswersAdd(v: VState, ev: TraceEvent, c: Category)
    ensures Free(CheckEffectDue(v, ev).problems, c) <==>
            Free(v.problems, c) && (c.Pairing? && v.effectDue.Some? ==> ev.kind.EffectObserved?)
    ensures Free(CheckTimerDue(v, ev).problems, c) <==>
            Free(v.problems, c) && (c.Timing? && v.timerDue.Some? ==> IsSend(ev.kind) && ev.kind.from == v.timerDue.value.from)
  {
    hide Free;
    if v.effectDue.Some? { FreeSnoc(v.problems, DeliverNotAnswered(ev.seqNo, v.effectDue.value.at), c); }
    if v.timerDue.Some? {
      FreeSnoc(v.problems, TimerNotAnswered(ev.seqNo, v.timerDue.value.at), c);
      if IsSend(ev.kind) {
        FreeWhen(v.problems, ev.kind.from != v.timerDue.value.from, TimerSendWrongActor(ev.seqNo, v.timerDue.value.at), c);
      }
    }
  }

  lemma ReadingHasNone(at: U64, payload: Payload, c: Category)
    ensures var r := ReadPayload(at, payload); r.Unreadable? ==> CategoryOf(r.why) != Some(c)
  {
  }

  lemma NothingIsFree(c: Category)
    ensures Free([], c)
  {
  }

  lemma RootsHaveNone(at: U64, msgId: Uuid, r: ReadProvenance, c: Category)
    requires r.Read?
    ensures Free(RootProblems(at, msgId, r), c)
  {
    hide Free;
    hide When;
    NothingIsFree(c);
    var p1 := When(r.lineage.originMsgId != msgId, RootOriginNotSelf(at));
    var p2 := When(r.parent.1 != msgId, RootParentNotSelf(at));
    var p3 := When(r.parent.0 != r.from, RootParentNodeNotSender(at));
    var p4 := When(r.lineage.originNode != r.msg.fromNode, RootOriginNodeNotSender(at));
    FreeWhen([], r.lineage.originMsgId != msgId, RootOriginNotSelf(at), c);
    assert [] + p1 == p1;
    FreeWhen(p1, r.parent.1 != msgId, RootParentNotSelf(at), c);
    FreeWhen(p1 + p2, r.parent.0 != r.from, RootParentNodeNotSender(at), c);
    FreeWhen(p1 + p2 + p3, r.lineage.originNode != r.msg.fromNode, RootOriginNodeNotSender(at), c);
    FreeWhen(p1 + p2 + p3 + p4, r.lineage.originService != r.msg.fromService, RootOriginServiceNotSender(at), c);
  }

  lemma ChildrenHaveNone(at: U64, msgId: Uuid, r: ReadProvenance, delivered: map<LineageKey, Lineage>, c: Category)
    requires r.Read?
    ensures Free(ChildProblems(at, msgId, r, delivered), c)
  {
    hide Free;
    hide When;
    NothingIsFree(c);
    var self := When(r.parent == (r.from, msgId), ParentIsSelf(at));
    FreeWhen([], r.parent == (r.from, msgId), ParentIsSelf(at), c);
    assert [] + self == self && self + [] == self;
    if r.parent in delivered {
      var p := delivered[r.parent];
      var p1 := When(r.lineage.hops != SatAdd(p.hops, 1), HopsNotParentPlusOne(at));
      var p2 := When(r.lineage.originMsgId != p.originMsgId, OriginMsgNotParents(at));
      var p3 := When(r.lineage.originNode != p.originNode, OriginNodeNotParents(at));
      var p4 := When(r.lineage.originService != p.originService, OriginServiceNotParents(at));
      FreeWhen(self, r.lineage.hops != SatAdd(p.hops, 1), HopsNotParentPlusOne(at), c);
      FreeWhen(self + p1, r.lineage.originMsgId != p.originMsgId, OriginMsgNotParents(at), c);
      FreeWhen(self + p1 + p2, r.lineage.originNode != p.originNode, OriginNodeNotParents(at), c);
      FreeWhen(self + p1 + p2 + p3, r.lineage.originService != p.originService, OriginServiceNotParents(at), c);
      assert self + (p1 + p2 + p3 + p4) == self + p1 + p2 + p3 + p4;
    }
  }

  lemma LineageHasNone(at: U64, msgId: Uuid, payload: Payload, delivered: map<LineageKey, Lineage>, c: Category)
    ensures Free(LineageProblems(at, msgId, payload, delivered), c)
  {
    hide Free;
    hide RootProblems;
    hide ChildProblems;
    hide ReadPayload;
    var r := ReadPayload(at, payload);
    ReadingHasNone(at, payload, c);
    if r.Unreadable? {
      NothingIsFree(c);
      FreeSnoc([], r.why, c);
      assert [] + [r.why] == [r.why];
    } else if r.lineage.hops == 0 {
      RootsHaveNone(at, msgId, r, c);
    } else {
      ChildrenHaveNone(at, msgId, r, delivered, c);
    }
  }

  lemma DeliverAdds(v: VState, at: U64, node: Uuid, to: Uuid, msgId: Uuid, c: Category)
    ensures Free(CheckDeliver(v, at, node, to, msgId).problems, c) <==>
            Free(v.problems, c) && (c.Sourcing? ==> QueueOf(v.produced, (to, msgId)) != [])
  {
    hide Free;
    hide LineageProblems;
    hide RecordLineage;
    hide Dequeue;
    var first := When(Unknown(v, to), UnknownReceiver(at, to));
    FreeWhen(v.problems, Unknown(v, to), UnknownReceiver(at, to), c);
    if QueueOf(v.produced, (to, msgId)) == [] {
      FreeSnoc(v.problems + first, DeliverWithoutSource(at, to, msgId), c);
    } else {
      var more := LineageProblems(at, msgId, v.produced[(to, msgId)][0], v.delivered);
      LineageHasNone(at, msgId, v.produced[(to, msgId)][0], v.delivered, c);
      FreeAppend(v.problems + first, more, c);
    }
  }

  lemma EffectProblems(v: VState, at: U64, k: EventKind, other: bool, twice: bool, again: bool, beyond: bool)
    requires k.EffectObserved?
    requires other <==> (v.effectDue.Some? && (k.node != v.effectDue.value.node || k.actor != v.effectDue.value.to
                                               || k.msgId != v.effectDue.value.msgId))
    requires twice == (|set e | e in k.declared| != |k.declared|) && again == (|set e | e in k.observed| != |k.observed|)
    requires beyond == exists e :: e in k.observed && e !in k.declared
    ensures CheckEffects(v, at, k).problems ==
            v.problems + When(Unknown(v, k.actor), UnknownEffectActor(at, k.actor))
            + (if v.effectDue == None then [EffectWithoutDeliver(at)] else When(other, EffectOfOtherDeliver(at, v.effectDue.value.at)))
            + When(twice, DuplicateDeclared(at)) + When(again, DuplicateObserved(at)) + When(beyond, UndeclaredObserved(at))
  {
    hide When;
    hide Unknown;
  }

  lemma EffectsAdd(v: VState, at: U64, k: EventKind, c: Category)
    requires k.EffectObserved?
    ensures Free(CheckEffects(v, at, k).problems, c) <==>
            Free(v.problems, c)
            && (c.Pairing? ==> v.effectDue.Some? && k.node == v.effectDue.value.node && k.actor == v.effectDue.value.to
                               && k.msgId == v.effectDue.value.msgId)
  {
    hide Free;
    hide When;
    hide Unknown;
    hide CheckEffects;
    var other := v.effectDue.Some?
                 && (k.node != v.effectDue.value.node || k.actor != v.effectDue.value.to || k.msgId != v.effectDue.value.msgId);
    var a := v.problems + When(Unknown(v, k.actor), UnknownEffectActor(at, k.actor));
    var b := if v.effectDue == None then [EffectWithoutDeliver(at)]
             else When(other, EffectOfOtherDeliver(at, v.effectDue.value.at));
    var twice := |set e | e in k.declared| != |k.declared|;
    var again := |set e | e in k.observed| != |k.observed|;
    var beyond := exists e :: e in k.observed && e !in k.declared;
    var d := a + b + When(twice, DuplicateDeclared(at));
    var o := d + When(again, DuplicateObserved(at));
    FreeWhen(v.problems, Unknown(v, k.actor), UnknownEffectActor(at, k.actor), c);
    if v.effectDue == None {
      FreeSnoc(a, EffectWithoutDeliver(at), c);
    } else {
      FreeWhen(a, other, EffectOfOtherDeliver(at, v.effectDue.value.at), c);
    }
    FreeWhen(a + b, twice, DuplicateDeclared(at), c);
    FreeWhen(d, again, DuplicateObserved(at), c);
    FreeWhen(o, beyond, UndeclaredObserved(at), c);
    EffectProblems(v, at, k, other, twice, again, beyond);
  }

  /** Checks of other kinds of events raise problems of no category. */
  lemma OthersAdd(v: VState, at: U64, k: EventKind, c: Category)
    requires !k.Deliver? && !k.EffectObserved?
    ensures Free(CheckKind(v, at, k).problems, c) <==> Free(v.problems, c)
  {
    hide Free;
    hide When;
    hide CheckDeliver;
    hide CheckEffects;
    hide Enqueue;
    hide Unknown;
    var all := v.problems;
    match k
    case Spawn(_, actor, _) =>
      FreeSnoc(all, DuplicateSpawn(at, actor), c);
      FreeSnoc(all, ConflictingSpawn(at, actor), c);
      assert all + [] == all;
    case Send(from, to, _, _) =>
      FreeWhen(all, Unknown(v, from), UnknownSender(at, from), c);
      FreeWhen(all + When(Unknown(v, from), UnknownSender(at, from)), Unknown(v, to), UnknownReceiver(at, to), c);
    case NetRecv(_, fromNode, to, msgId, _) =>
      FreeWhen(all, Unknown(v, to), UnknownReceiver(at, to), c);
      FreeWhen(all + When(Unknown(v, to), UnknownReceiver(at, to)), (fromNode, to, msgId) in v.dropped,
               ReceivedAfterDrop(at, fromNode, to, msgId), c);
    case NetSend(_, _, from, _, _) => FreeWhen(all, Unknown(v, from), UnknownSender(at, from), c);
    case LogLine(_, from, _, _) => FreeWhen(all, Unknown(v, from), UnknownLogger(at, from), c);
    case _ =>
  }

  // ---- the verifier's state ----

  /** What the verifier remembers of the first `n` events for a category that has had no problem. */
  ghost predicate Remembers(c: Category, events: seq<TraceEvent>, n: nat, v: VState)
    requires n <= |events|
  {
    match c
    case Numbering => v.expectedSeq == MinU64(n)
    case Seeding => v.seed == if n == 0 then None else Some(events[0].seed)
    case Timing =>
      if n > 0 && events[n - 1].kind.TimerFired? then v.timerDue.Some? && v.timerDue.value.from == events[n - 1].kind.from
      else v.timerDue == None
    case Pairing =>
      if n > 0 && events[n - 1].kind.Deliver? then
        && v.effectDue.Some?
        && var d, k := v.effectDue.value, events[n - 1].kind;
           d.node == k.node && d.to == k.to && d.msgId == k.msgId
      else v.effectDue == None
    case Sourcing => QueuesTrack(events, n, v.produced)
  }

  lemma StepAdds(v: VState, ev: TraceEvent, c: Category)
    ensures Free(VStep(v, ev).problems, c) <==>
            && Free(v.problems, c)
            && (c.Numbering? ==> ev.seqNo == v.expectedSeq)
            && (c.Seeding? && v.seed.Some? ==> ev.seed == v.seed.value)
            && (c.Timing? && v.timerDue.Some? ==> IsSend(ev.kind) && ev.kind.from == v.timerDue.value.from)
            && (c.Pairing? && v.effectDue.Some? ==> ev.kind.EffectObserved?)
            && (c.Pairing? && ev.kind.EffectObserved? ==>
                  && v.effectDue.Some? && ev.kind.node == v.effectDue.value.node && ev.kind.actor == v.effectDue.value.to
                  && ev.kind.msgId == v.effectDue.value.msgId)
            && (c.Sourcing? && ev.kind.Deliver? ==> QueueOf(v.produced, (ev.kind.to, ev.kind.msgId)) != [])
  {
    hide Free;
    hide CheckDeliver;
    hide CheckEffects;
    hide CheckSeq;
    hide CheckSeed;
    hide CheckEffectDue;
    hide CheckTimerDue;
    hide Enqueue;
    var v1 := CheckSeq(v, ev);
    var v2 := CheckSeed(v1, ev);
    var v3 := CheckEffectDue(v2, ev);
    var v4 := CheckTimerDue(v3, ev);
    NumberingAdds(v, ev, c);
    NumberingAdds(v1, ev, c);
    AnswersAdd(v2, ev, c);
    AnswersAdd(v3, ev, c);
    CheckKeeps(v, ev);
    CheckKeeps(v1, ev);
    CheckKeeps(v2, ev);
    CheckKeeps(v3, ev);
    var k := ev.kind;
    if k.Deliver? {
      DeliverAdds(v4, ev.seqNo, k.node, k.to, k.msgId, c);
    } else if k.EffectObserved? {
      EffectsAdd(v4, ev.seqNo, k, c);
    } else {
      OthersAdd(v4, ev.seqNo, k, c);
    }
  }

  lemma CheckKeeps(v: VState, ev: TraceEvent)
    ensures var w := CheckSeq(v, ev);
            w.seed == v.seed && w.effectDue == v.effectDue && w.timerDue == v.timerDue && w.produced == v.produced
    ensures var w := CheckSeed(v, ev); w.effectDue == v.effectDue && w.timerDue == v.timerDue && w.produced == v.produced
    ensures var w := CheckEffectDue(v, ev);
            w.timerDue == v.timerDue && w.produced == v.produced && (ev.kind.EffectObserved? ==> w.effectDue == v.effectDue)
    ensures var w := CheckTimerDue(v, ev); w.effectDue == v.effectDue && w.produced == v.produced
  {
  }

  /** What a step leaves for the next one to answer. */
  lemma StepLeaves(v: VState, ev: TraceEvent)
    ensures VStep(v, ev).expectedSeq == SatAdd(ev.seqNo, 1)
    ensures VStep(v, ev).seed == Some(if v.seed == None then ev.seed else v.seed.value)
    ensures var k := ev.kind;
            && (if k.TimerFired? then VStep(v, ev).timerDue.Some? && VStep(v, ev).timerDue.value.from == k.from
                else VStep(v, ev).timerDue == None)
            && (if k.Deliver? then
                  && VStep(v, ev).effectDue.Some?
                  && var d := VStep(v, ev).effectDue.value; d.node == k.node && d.to == k.to && d.msgId == k.msgId
                else VStep(v, ev).effectDue == None)
  {
    hide CheckSeq;
    hide CheckSeed;
    hide CheckEffectDue;
    hide CheckTimerDue;
    hide LineageProblems;
    hide RecordLineage;
    hide Enqueue;
    hide Dequeue;
    var w := CheckSeed(CheckSeq(v, ev), ev);
    NumberingForm(v, ev);
    AnswerForm(w, ev);
  }

  lemma QueuesStep(events: seq<TraceEvent>, n: nat, produced: Produced)
    requires n < |events| && QueuesTrack(events, n, produced) && InOrder(Sourcing, events, n)
    ensures QueuesTrack(events, n + 1, ProducedAfter(produced, events[n].kind))
  {
    var k := events[n].kind;
    if k.Send? || k.NetRecv? {
      EnqueueTracks(events, n, produced);
    } else if k.Deliver? {
      DequeueTracks(events, n, produced);
    } else {
      OtherTracks(events, n, produced);
    }
  }

  lemma SourcedInQueue(events: seq<TraceEvent>, n: nat, produced: Produced)
    requires n < |events| && QueuesTrack(events, n, produced) && events[n].kind.Deliver?
    ensures QueueOf(produced, (events[n].kind.to, events[n].kind.msgId)) != [] <==> Sourced(events, n)
  {
    assert KeyTracks(events, n, produced, (events[n].kind.to, events[n].kind.msgId));
  }

  lemma StepCategory(c: Category, events: seq<TraceEvent>, n: nat, v: VState)
    requires n < |events| && Free(v.problems, c) && Remembers(c, events, n, v)
    ensures Free(VStep(v, events[n]).problems, c) <==> InOrder(c, events, n)
    ensures InOrder(c, events, n) ==> Remembers(c, events, n + 1, VStep(v, events[n]))
  {
    hide Free;
    hide VStep;
    hide QueuesTrack;
    hide ProducedAfter;
    StepAdds(v, events[n], c);
    StepLeaves(v, events[n]);
    ProducedStep(v, events[n]);
    if c.Sourcing? {
      if events[n].kind.Deliver? { SourcedInQueue(events, n, v.produced); }
      if InOrder(c, events, n) { QueuesStep(events, n, v.produced); }
    }
  }

  lemma {:induction false} FoldCategory(c: Category, events: seq<TraceEvent>, n: nat)
    requires n <= |events|
    ensures Free(VFold(events, n).problems, c) <==> forall i :: 0 <= i < n ==> InOrder(c, events, i)
    ensures Free(VFold(events, n).problems, c) ==> Remembers(c, events, n, VFold(events, n))
  {
    hide VStep;
    hide InOrder;
    if n > 0 {
      hide Free;
      hide Remembers;
      FoldCategory(c, events, n - 1);
      if Free(VFold(events, n - 1).problems, c) {
        StepCategory(c, events, n - 1, VFold(events, n - 1));
      } else {
        StepAdds(VFold(events, n - 1), events[n - 1], c);
      }
    }
  }

  /** For each category on its own: a trace raises no problem of the category if and only if every event
      and the end are in the category's order, whatever other problems it has. */
  lemma CategoryCleanMeans(c: Category, events: seq<TraceEvent>)
    ensures Free(Problems(events), c) <==> CategoryOk(c, events)
  {
    hide Free;
    hide InOrder;
    hide VFold;
    FoldCategory(c, events, |events|);
    EndAdds(VFold(events, |events|), c);
  }

  /** When every delivery has a source, the pending messages are productions minus deliveries, whatever
      else is wrong with the trace. */
  lemma PendingWhenSourced(events: seq<TraceEvent>)
    requires Free(Problems(events), Sourcing)
    ensures PendingMessages(events) == ProducedCount(events, |events|) - DeliveredCount(events, |events|)
  {
    hide Free;
    hide InOrder;
    hide VFold;
    FoldCategory(Sourcing, events, |events|);
    EndAdds(VFold(events, |events|), Sourcing);
  }

  lemma EndAdds(v: VState, c: Category)
    ensures Free(FinalProblems(v), c) <==>
            Free(v.problems, c) && (c.Timing? ==> v.timerDue == None) && (c.Pairing? ==> v.effectDue == None)
  {
    hide Free;
    var a := if v.timerDue.Some? then [TimerAtEnd(v.timerDue.value.at)] else [];
    assert v.problems + [] == v.problems && v.problems + a + [] == v.problems + a;
    if v.timerDue.Some? { FreeSnoc(v.problems, TimerAtEnd(v.timerDue.value.at), c); }
    if v.effectDue.Some? { FreeSnoc(v.problems + a, DeliverAtEnd(v.effectDue.value.at), c); }
  }
}
