/** The single-trace verifier as a loop over the trace, and the lineage index beside it. */
module Verifying {
  import opened Base
  import opened Events
  import opened Queues
  import opened VerifySpec
  import opened LineageSpec

  /** Reads one id field; an unreadable one is reported. */
  method ParseField(at: U64, raw: IdText, problems: seq<Problem>) returns (id: Option<Uuid>, after: seq<Problem>)
    ensures id == raw.Parsed()
    ensures after == if id == None then problems + [InvalidField(at, raw)] else problems
  {
    id, after := raw.Parsed(), problems;
    if id == None {
      after := after + [InvalidField(at, raw)];
    }
  }

  /** A message without hops has to be its own origin and parent, from its own sender. */
  method CheckRoot(at: U64, msgId: Uuid, r: ReadProvenance, problems: seq<Problem>) returns (after: seq<Problem>)
    requires r.Read?
    ensures after == problems + RootProblems(at, msgId, r)
  {
    hide When;
    after := problems + When(r.lineage.originMsgId != msgId, RootOriginNotSelf(at));
    after := after + When(r.parent.1 != msgId, RootParentNotSelf(at));
    after := after + When(r.parent.0 != r.from, RootParentNodeNotSender(at));
    after := after + When(r.lineage.originNode != r.msg.fromNode, RootOriginNodeNotSender(at));
    after := after + When(r.lineage.originService != r.msg.fromService, RootOriginServiceNotSender(at));
  }

  /** Any other message has to continue its parent, if that was delivered here. */
  method CheckChild(at: U64, msgId: Uuid, r: ReadProvenance, delivered: map<LineageKey, Lineage>, problems: seq<Problem>)
    returns (after: seq<Problem>)
    requires r.Read?
    ensures after == problems + ChildProblems(at, msgId, r, delivered)
  {
    hide When;
    after := problems + When(r.parent == (r.from, msgId), ParentIsSelf(at));
    if r.parent in delivered {
      var parent := delivered[r.parent];
      after := after + When(r.lineage.hops != SatAdd(parent.hops, 1), HopsNotParentPlusOne(at));
      after := after + When(r.lineage.originMsgId != parent.originMsgId, OriginMsgNotParents(at));
      after := after + When(r.lineage.originNode != parent.originNode, OriginNodeNotParents(at));
      after := after + When(r.lineage.originService != parent.originService, OriginServiceNotParents(at));
    }
  }

  method VerifyPayloadLineage(at: U64, msgId: Uuid, payload: Payload, delivered: map<LineageKey, Lineage>, problems: seq<Problem>)
    returns (known: map<LineageKey, Lineage>, after: seq<Problem>)
    ensures known == RecordLineage(msgId, payload, delivered)
    ensures after == problems + LineageProblems(at, msgId, payload, delivered)
  {
    known, after := delivered, problems;
    if payload.Undecodable? {
      after := after + [PayloadUndecodable(at)];
      return;
    }
    var msg := payload.msg;
    if msg.provenance == None {
      after := after + [MissingProvenance(at)];
      return;
    }
    var prov := msg.provenance.value;
    var originMsgId, parentNode, parentMsgId, from;
    originMsgId, after := ParseField(at, prov.originMsgId, after);
    if originMsgId == None { return; }
    parentNode, after := ParseField(at, if prov.parentNode.IsEmpty() then msg.fromNode else prov.parentNode, after);
    if parentNode == None { return; }
    parentMsgId, after := ParseField(at, prov.parentMsgId, after);
    if parentMsgId == None { return; }
    from, after := ParseField(at, msg.fromNode, after);
    if from == None { return; }
    var r := Read(from.value, (parentNode.value, parentMsgId.value),
                  Lineage(originMsgId.value, prov.originNode, prov.originService, prov.hops), msg);
    assert r == ReadPayload(at, payload);
    if prov.hops == 0 {
      after := CheckRoot(at, msgId, r, after);
    } else {
      after := CheckChild(at, msgId, r, delivered, after);
    }
    known := known[(from.value, msgId) := Lineage(originMsgId.value, prov.originNode, prov.originService, prov.hops)];
  }

  lemma SubsetOfLists<T>(a: seq<T>, b: seq<T>)
    ensures (set e | e in a) <= (set e | e in b) <==> forall e :: e in a ==> e in b
  {
    var sa, sb := set e | e in a, set e | e in b;
    if sa <= sb {
      forall e | e in a ensures e in b { assert e in sa; }
    }
  }

  /** The verifier's variables, and what it does with each event. */
  class Verifier {
    var seed: Option<U64>
    var expectedSeq: U64
    var spawned: map<Uuid, string>
    var produced: Produced
    var delivered: map<LineageKey, Lineage>
    var dropped: set<(Uuid, Uuid, Uuid)>
    var timerDue: Option<TimerMark>
    var effectDue: Option<DeliverMark>
    var problems: seq<Problem>

    function State(): VState
      reads this
    {
      VState(expectedSeq, seed, spawned, produced, delivered, dropped, timerDue, effectDue, problems)
    }

    constructor ()
      ensures State() == START
    {
      seed, expectedSeq := None, 0;
      spawned, produced, delivered, dropped := map[], map[], map[], {};
      timerDue, effectDue := None, None;
      problems := [];
    }

    method Complain(p: Problem)
      modifies this`problems
      ensures problems == old(problems) + [p]
    {
      problems := problems + [p];
    }

    /** The event's number and seed. */
    method CheckNumbering(ev: TraceEvent)
      modifies this`problems, this`expectedSeq, this`seed
      ensures State() == CheckSeed(CheckSeq(old(State()), ev), ev)
    {
      if ev.seqNo != expectedSeq {
        Complain(SeqMismatch(ev.seqNo, expectedSeq));
        expectedSeq := SatAdd(ev.seqNo, 1);
      } else {
        expectedSeq := SatAdd(expectedSeq, 1);
      }
      if seed == None {
        seed := Some(ev.seed);
      } else if seed.value != ev.seed {
        Complain(SeedMismatch(ev.seqNo));
      }
    }

    /** The answers that the previous event still waits for. */
    method CheckAnswers(ev: TraceEvent)
      modifies this`problems, this`effectDue, this`timerDue
      ensures State() == CheckTimerDue(CheckEffectDue(old(State()), ev), ev)
    {
      if effectDue.Some? && !ev.kind.EffectObserved? {
        Complain(DeliverNotAnswered(ev.seqNo, effectDue.value.at));
        effectDue := None;
      }
      if timerDue.Some? {
        if ev.kind.Send? || ev.kind.NetSend? {
          if ev.kind.from != timerDue.value.from { Complain(TimerSendWrongActor(ev.seqNo, timerDue.value.at)); }
        } else {
          Complain(TimerNotAnswered(ev.seqNo, timerDue.value.at));
        }
        timerDue := None;
      }
    }

    /** Reports an actor that is used but was not spawned, once some actors have been. */
    method RequireSpawned(actor: Uuid, p: Problem)
      modifies this`problems
      ensures problems == old(problems) + When(Unknown(State(), actor), p)
    {
      if spawned != map[] && actor !in spawned { Complain(p); }
    }

    method OnDeliver(at: U64, node: Uuid, to: Uuid, msgId: Uuid)
      modifies this`problems, this`produced, this`delivered, this`effectDue
      ensures State() == CheckDeliver(old(State()), at, node, to, msgId)
    {
      hide LineageProblems;
      hide RecordLineage;
      RequireSpawned(to, UnknownReceiver(at, to));
      var key := (to, msgId);
      if key in produced && produced[key] != [] {
        var payload := produced[key][0];
        var rest := produced[key][1..];
        produced := if rest == [] then produced - {key} else produced[key := rest];
        delivered, problems := VerifyPayloadLineage(at, msgId, payload, delivered, problems);
      } else {
        produced := produced - {key};
        Complain(DeliverWithoutSource(at, to, msgId));
      }
      effectDue := Some(DeliverMark(at, node, to, msgId));
    }

    method OnEffect(at: U64, k: EventKind)
      requires k.EffectObserved?
      modifies this`problems, this`effectDue
      ensures State() == CheckEffects(old(State()), at, k)
    {
      hide When;
      RequireSpawned(k.actor, UnknownEffectActor(at, k.actor));
      if effectDue == None {
        Complain(EffectWithoutDeliver(at));
      } else {
        var d := effectDue.value;
        problems := problems + When(k.node != d.node || k.actor != d.to || k.msgId != d.msgId, EffectOfOtherDeliver(at, d.at));
      }
      effectDue := None;
      CheckEffectLists(at, k);
    }

    /** The effect lists have to be without repetition, and the observed effects declared. */
    method CheckEffectLists(at: U64, k: EventKind)
      requires k.EffectObserved?
      modifies this`problems
      ensures problems == old(problems)
                + When(|set e | e in k.declared| != |k.declared|, DuplicateDeclared(at))
                + When(|set e | e in k.observed| != |k.observed|, DuplicateObserved(at))
                + When(exists e :: e in k.observed && e !in k.declared, UndeclaredObserved(at))
    {
      hide When;
      var declared := set e | e in k.declared;
      var observed := set e | e in k.observed;
      SubsetOfLists(k.observed, k.declared);
      problems := problems + When(|declared| != |k.declared|, DuplicateDeclared(at));
      problems := problems + When(|observed| != |k.observed|, DuplicateObserved(at));
      problems := problems + When(!(observed <= declared), UndeclaredObserved(at));
    }

    method OnSpawn(at: U64, actor: Uuid, service: string)
      modifies this`problems, this`spawned
      ensures State() == CheckKind(old(State()), at, Spawn(0, actor, service))
    {
      if actor in spawned {
        if spawned[actor] == service { Complain(DuplicateSpawn(at, actor)); } else { Complain(ConflictingSpawn(at, actor)); }
      }
      spawned := spawned[actor := service];
    }

    method Produce(to: Uuid, msgId: Uuid, payload: Payload)
      modifies this`produced
      ensures produced == Enqueue(old(produced), (to, msgId), payload)
    {
      var key := (to, msgId);
      produced := produced[key := (if key in produced then produced[key] else []) + [payload]];
    }

    method OnEvent(ev: TraceEvent)
      modifies this
      ensures State() == VStep(old(State()), ev)
    {
      hide CheckSeq;
      hide CheckSeed;
      hide CheckEffectDue;
      hide CheckTimerDue;
      hide CheckDeliver;
      hide CheckEffects;
      hide Enqueue;
      CheckNumbering(ev);
      CheckAnswers(ev);
      var at := ev.seqNo;
      match ev.kind {
        case Spawn(_, actor, service) => OnSpawn(at, actor, service);
        case Send(from, to, msgId, payload) =>
          RequireSpawned(from, UnknownSender(at, from));
          RequireSpawned(to, UnknownReceiver(at, to));
          Produce(to, msgId, payload);
        case NetRecv(_, fromNode, to, msgId, payload) =>
          RequireSpawned(to, UnknownReceiver(at, to));
          if (fromNode, to, msgId) in dropped { Complain(ReceivedAfterDrop(at, fromNode, to, msgId)); }
          Produce(to, msgId, payload);
        case Deliver(node, to, msgId) => OnDeliver(at, node, to, msgId);
        case NetSend(_, _, from, _, _) => RequireSpawned(from, UnknownSender(at, from));
        case LogLine(_, from, _, _) => RequireSpawned(from, UnknownLogger(at, from));
        case EffectObserved(_, _, _, _, _, _, _) => OnEffect(at, ev.kind);
        case FaultInjected(_, fromNode, to, msgId, action) =>
          if action.Drop? { dropped := dropped + {(fromNode, to, msgId)}; }
        case FaultPolicyEvent(_, _, _, _, _) =>
        case TimerFired(_, from, _) => timerDue := Some(TimerMark(at, from));
      }
    }
  }

  lemma FoldPrefix(events: seq<TraceEvent>, i: nat)
    requires i < |events|
    ensures VFold(events, i + 1) == VStep(VFold(events, i), events[i])
  {
    hide VStep;
  }

  /** `verify_trace`: the problems in the order they are found, and how many messages are left over. */
  method VerifyTrace(events: seq<TraceEvent>) returns (problems: seq<Problem>, pending: nat)
    ensures problems == Problems(events) && pending == PendingMessages(events)
  {
    hide VStep;
    var v := new Verifier();
    for i := 0 to |events|
      modifies v
      invariant v.State() == VFold(events, i)
    {
      FoldPrefix(events, i);
      v.OnEvent(events[i]);
    }
    if v.timerDue.Some? { v.Complain(TimerAtEnd(v.timerDue.value.at)); }
    if v.effectDue.Some? { v.Complain(DeliverAtEnd(v.effectDue.value.at)); }
    problems := v.problems;
    pending := SumLengths(v.produced);
  }

  // ---- the lineage index ----

  /** A delivery whose payload was found. */
  datatype DeliveredPayload = DeliveredPayload(ev: TraceEvent, payload: Payload)

  /** The deliveries of the first `n` events that find a payload in the queues. */
  ghost function DeliveriesAt(events: seq<TraceEvent>, n: nat): seq<DeliveredPayload>
    requires n <= |events|
  {
    if n == 0 then []
    else
      var ev := events[n - 1];
      DeliveriesAt(events, n - 1) +
        if ev.kind.Deliver? && QueueOf(QueuesAt(events, n - 1), (ev.kind.to, ev.kind.msgId)) != [] then
          [DeliveredPayload(ev, QueuesAt(events, n - 1)[(ev.kind.to, ev.kind.msgId)][0])]
        else []
  }

  lemma {:induction false} OnlyDeliveries(events: seq<TraceEvent>, n: nat)
    requires n <= |events|
    ensures forall d :: d in DeliveriesAt(events, n) ==> d.ev.kind.Deliver?
  {
    hide QueuesAt;
    if n > 0 { OnlyDeliveries(events, n - 1); }
  }

  method CollectDeliveriesWithPayload(events: seq<TraceEvent>) returns (out: seq<DeliveredPayload>)
    ensures out == DeliveriesAt(events, |events|)
  {
    var produced: Produced := map[];
    out := [];
    for i := 0 to |events|
      invariant produced == QueuesAt(events, i) && out == DeliveriesAt(events, i)
    {
      match events[i].kind {
        case Send(_, to, msgId, payload) =>
          var key := (to, msgId);
          produced := produced[key := (if key in produced then produced[key] else []) + [payload]];
        case NetRecv(_, _, to, msgId, payload) =>
          var key := (to, msgId);
          produced := produced[key := (if key in produced then produced[key] else []) + [payload]];
        case Deliver(_, to, msgId) =>
          var key := (to, msgId);
          if key in produced {
            var queue := produced[key];
            if queue != [] {
              out := out + [DeliveredPayload(events[i], queue[0])];
              queue := queue[1..];
            }
            produced := if queue == [] then produced - {key} else produced[key := queue];
          } else {
            assert produced - {key} == produced;
          }
        case _ =>
      }
    }
  }

  /** The index of a list of deliveries. */
  ghost function Indexed(ds: seq<DeliveredPayload>): LineageIndex
    requires forall d :: d in ds ==> d.ev.kind.Deliver?
  {
    if ds == [] then map[]
    else
      var last := ds[|ds| - 1];
      match ReadRecord(last.ev, last.payload)
      case None => Indexed(ds[..|ds| - 1])
      case Some(rec) => Indexed(ds[..|ds| - 1])[rec.key := rec]
  }

  /** Indexing the collected deliveries is indexing the trace. */
  lemma {:induction false} IndexedDeliveries(events: seq<TraceEvent>, n: nat)
    requires n <= |events|
    ensures (forall d :: d in DeliveriesAt(events, n) ==> d.ev.kind.Deliver?) && Indexed(DeliveriesAt(events, n)) == IndexAt(events, n)
  {
    hide QueuesAt;
    hide ReadRecord;
    OnlyDeliveries(events, n);
    if n > 0 {
      IndexedDeliveries(events, n - 1);
      var front := DeliveriesAt(events, n - 1);
      var all := DeliveriesAt(events, n);
      if |all| > |front| {
        assert all[..|all| - 1] == front;
      } else {
        assert all == front;
      }
    }
  }

  method BuildLineageIndex(events: seq<TraceEvent>) returns (index: LineageIndex)
    ensures index == IndexOf(events)
  {
    hide ReadRecord;
    index := map[];
    var deliveries := CollectDeliveriesWithPayload(events);
    IndexedDeliveries(events, |events|);
    for i := 0 to |deliveries|
      invariant index == Indexed(deliveries[..i])
    {
      assert deliveries[..i + 1][..i] == deliveries[..i];
      match ReadRecord(deliveries[i].ev, deliveries[i].payload) {
        case None => continue;
        case Some(rec) => index := index[rec.key := rec];
      }
    }
    assert deliveries[..|deliveries|] == deliveries;
  }
}
