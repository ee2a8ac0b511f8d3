/** The single-trace verifier as a fold over the trace. */
module VerifySpec {
  import opened Base
  import opened Events
  import opened Queues

  datatype Problem =
    | SeqMismatch(at: U64, expected: U64)
    | SeedMismatch(at: U64)
    | DeliverNotAnswered(at: U64, deliver: U64)
    | TimerSendWrongActor(at: U64, timer: U64)
    | TimerNotAnswered(at: U64, timer: U64)
    | DuplicateSpawn(at: U64, actor: Uuid)
    | ConflictingSpawn(at: U64, actor: Uuid)
    | UnknownSender(at: U64, actor: Uuid)
    | UnknownReceiver(at: U64, actor: Uuid)
    | UnknownLogger(at: U64, actor: Uuid)
    | UnknownEffectActor(at: U64, actor: Uuid)
    | ReceivedAfterDrop(at: U64, fromNode: Uuid, to: Uuid, msgId: Uuid)
    | DeliverWithoutSource(at: U64, to: Uuid, msgId: Uuid)
    | EffectOfOtherDeliver(at: U64, deliver: U64)
    | EffectWithoutDeliver(at: U64)
    | DuplicateDeclared(at: U64)
    | DuplicateObserved(at: U64)
    | UndeclaredObserved(at: U64)
    | TimerAtEnd(timer: U64)
    | DeliverAtEnd(deliver: U64)
    | PayloadUndecodable(at: U64)
    | MissingProvenance(at: U64)
    | InvalidField(at: U64, raw: IdText)
    | RootOriginNotSelf(at: U64)
    | RootParentNotSelf(at: U64)
    | RootParentNodeNotSender(at: U64)
    | RootOriginNodeNotSender(at: U64)
    | RootOriginServiceNotSender(at: U64)
    | ParentIsSelf(at: U64)
    | HopsNotParentPlusOne(at: U64)
    | OriginMsgNotParents(at: U64)
    | OriginNodeNotParents(at: U64)
    | OriginServiceNotParents(at: U64)

  type LineageKey = (Uuid, Uuid)
  datatype Lineage = Lineage(originMsgId: Uuid, originNode: IdText, originService: string, hops: U64)

  function When(condition: bool, p: Problem): seq<Problem> {
    if condition then [p] else []
  }

  /** The provenance of a payload once its id fields have been read. */
  datatype ReadProvenance =
    | Unreadable(why: Problem)
    | Read(from: Uuid, parent: LineageKey, lineage: Lineage, msg: RuntimeMessage)

  /** `verify_payload_lineage` up to the checks: the first unreadable part ends it. */
  function ReadPayload(at: U64, payload: Payload): ReadProvenance {
    match payload
    case Undecodable(_) => Unreadable(PayloadUndecodable(at))
    case Message(msg) =>
      match msg.provenance
      case None => Unreadable(MissingProvenance(at))
      case Some(prov) =>
        var parentRaw := if prov.parentNode.IsEmpty() then msg.fromNode else prov.parentNode;
        if prov.originMsgId.Parsed().None? then Unreadable(InvalidField(at, prov.originMsgId))
        else if parentRaw.Parsed().None? then Unreadable(InvalidField(at, parentRaw))
        else if prov.parentMsgId.Parsed().None? then Unreadable(InvalidField(at, prov.parentMsgId))
        else if msg.fromNode.Parsed().None? then Unreadable(InvalidField(at, msg.fromNode))
        else Read(msg.fromNode.Parsed().value,
                  (parentRaw.Parsed().value, prov.parentMsgId.Parsed().value),
                  Lineage(prov.originMsgId.Parsed().value, prov.originNode, prov.originService, prov.hops),
                  msg)
  }

  function RootProblems(at: U64, msgId: Uuid, r: ReadProvenance): seq<Problem>
    requires r.Read?
  {
    When(r.lineage.originMsgId != msgId, RootOriginNotSelf(at))
    + When(r.parent.1 != msgId, RootParentNotSelf(at))
    + When(r.parent.0 != r.from, RootParentNodeNotSender(at))
    + When(r.lineage.originNode != r.msg.fromNode, RootOriginNodeNotSender(at))
    + When(r.lineage.originService != r.msg.fromService, RootOriginServiceNotSender(at))
  }

  function ChildProblems(at: U64, msgId: Uuid, r: ReadProvenance, delivered: map<LineageKey, Lineage>): seq<Problem>
    requires r.Read?
  {
    When(r.parent == (r.from, msgId), ParentIsSelf(at))
    + if r.parent !in delivered then []
      else
        var p := delivered[r.parent];
        When(r.lineage.hops != SatAdd(p.hops, 1), HopsNotParentPlusOne(at))
        + When(r.lineage.originMsgId != p.originMsgId, OriginMsgNotParents(at))
        + When(r.lineage.originNode != p.originNode, OriginNodeNotParents(at))
        + When(r.lineage.originService != p.originService, OriginServiceNotParents(at))
  }

  function LineageProblems(at: U64, msgId: Uuid, payload: Payload, delivered: map<LineageKey, Lineage>): seq<Problem> {
    var r := ReadPayload(at, payload);
    if r.Unreadable? then [r.why]
    else if r.lineage.hops == 0 then RootProblems(at, msgId, r)
    else ChildProblems(at, msgId, r, delivered)
  }

  /** The delivered-lineage map after a delivery; an unreadable payload leaves no record. */
  function RecordLineage(msgId: Uuid, payload: Payload, delivered: map<LineageKey, Lineage>): map<LineageKey, Lineage> {
    var r := ReadPayload(0, payload);
    if r.Unreadable? then delivered else delivered[(r.from, msgId) := r.lineage]
  }

  datatype TimerMark = TimerMark(at: U64, from: Uuid)
  datatype DeliverMark = DeliverMark(at: U64, node: Uuid, to: Uuid, msgId: Uuid)

  datatype VState = VState(
    expectedSeq: U64,
    seed: Option<U64>,
    spawned: map<Uuid, string>,
    produced: map<(Uuid, Uuid), seq<Payload>>,
    delivered: map<LineageKey, Lineage>,
    dropped: set<(Uuid, Uuid, Uuid)>,
    timerDue: Option<TimerMark>,
    effectDue: Option<DeliverMark>,
    problems: seq<Problem>)

  const START := VState(0, None, map[], map[], map[], {}, None, None, [])

  function CheckSeq(v: VState, ev: TraceEvent): VState {
    if ev.seqNo != v.expectedSeq then
      v.(expectedSeq := SatAdd(ev.seqNo, 1), problems := v.problems + [SeqMismatch(ev.seqNo, v.expectedSeq)])
    else v.(expectedSeq := SatAdd(v.expectedSeq, 1))
  }

  function CheckSeed(v: VState, ev: TraceEvent): VState {
    if v.seed == None then v.(seed := Some(ev.seed))
    else if v.seed.value != ev.seed then v.(problems := v.problems + [SeedMismatch(ev.seqNo)])
    else v
  }

  function CheckEffectDue(v: VState, ev: TraceEvent): VState {
    if v.effectDue.Some? && !ev.kind.EffectObserved? then
      v.(effectDue := None, problems := v.problems + [DeliverNotAnswered(ev.seqNo, v.effectDue.value.at)])
    else v
  }

  predicate IsSend(k: EventKind) { k.Send? || k.NetSend? }

  function CheckTimerDue(v: VState, ev: TraceEvent): VState {
    if v.timerDue == None then v
    else if !IsSend(ev.kind) then
      v.(timerDue := None, problems := v.problems + [TimerNotAnswered(ev.seqNo, v.timerDue.value.at)])
    else
      v.(timerDue := None,
         problems := v.problems + When(ev.kind.from != v.timerDue.value.from, TimerSendWrongActor(ev.seqNo, v.timerDue.value.at)))
  }

  /** An actor is unknown when some actors have been spawned and it is not one of them. */
  predicate Unknown(v: VState, actor: Uuid) {
    v.spawned != map[] && actor !in v.spawned
  }

  function CheckDeliver(v: VState, at: U64, node: Uuid, to: Uuid, msgId: Uuid): VState {
    var key := (to, msgId);
    var v1 := v.(problems := v.problems + When(Unknown(v, to), UnknownReceiver(at, to)),
                 effectDue := Some(DeliverMark(at, node, to, msgId)));
    if QueueOf(v.produced, key) == [] then
      v1.(produced := v.produced - {key}, problems := v1.problems + [DeliverWithoutSource(at, to, msgId)])
    else
      var payload := v.produced[key][0];
      v1.(produced := Dequeue(v.produced, key),
          delivered := RecordLineage(msgId, payload, v.delivered),
          problems := v1.problems + LineageProblems(at, msgId, payload, v.delivered))
  }

  function CheckEffects(v: VState, at: U64, k: EventKind): VState
    requires k.EffectObserved?
  {
    v.(effectDue := None,
       problems := v.problems
         + When(Unknown(v, k.actor), UnknownEffectActor(at, k.actor))
         + (if v.effectDue == None then [EffectWithoutDeliver(at)]
            else When(k.node != v.effectDue.value.node || k.actor != v.effectDue.value.to || k.msgId != v.effectDue.value.msgId,
                      EffectOfOtherDeliver(at, v.effectDue.value.at)))
         + When(|set e | e in k.declared| != |k.declared|, DuplicateDeclared(at))
         + When(|set e | e in k.observed| != |k.observed|, DuplicateObserved(at))
         + When(exists e :: e in k.observed && e !in k.declared, UndeclaredObserved(at)))
  }

  function CheckKind(v: VState, at: U64, k: EventKind): VState {
    match k
    case Spawn(_, actor, service) =>
      v.(spawned := v.spawned[actor := service],
         problems := v.problems +
           if actor !in v.spawned then []
           else if v.spawned[actor] == service then [DuplicateSpawn(at, actor)]
           else [ConflictingSpawn(at, actor)])
    case Send(from, to, msgId, payload) =>
      v.(produced := Enqueue(v.produced, (to, msgId), payload),
         problems := v.problems + When(Unknown(v, from), UnknownSender(at, from)) + When(Unknown(v, to), UnknownReceiver(at, to)))
    case NetRecv(_, fromNode, to, msgId, payload) =>
      v.(produced := Enqueue(v.produced, (to, msgId), payload),
         problems := v.problems + When(Unknown(v, to), UnknownReceiver(at, to))
           + When((fromNode, to, msgId) in v.dropped, ReceivedAfterDrop(at, fromNode, to, msgId)))
    case Deliver(node, to, msgId) => CheckDeliver(v, at, node, to, msgId)
    case NetSend(_, _, from, _, _) => v.(problems := v.problems + When(Unknown(v, from), UnknownSender(at, from)))
    case LogLine(_, from, _, _) => v.(problems := v.problems + When(Unknown(v, from), UnknownLogger(at, from)))
    case EffectObserved(_, _, _, _, _, _, _) => CheckEffects(v, at, k)
    case FaultInjected(_, fromNode, to, msgId, action) =>
      if action.Drop? then v.(dropped := v.dropped + {(fromNode, to, msgId)}) else v
    case FaultPolicyEvent(_, _, _, _, _) => v
    case TimerFired(_, from, _) => v.(timerDue := Some(TimerMark(at, from)))
  }

  function VStep(v: VState, ev: TraceEvent): VState {
    CheckKind(CheckTimerDue(CheckEffectDue(CheckSeed(CheckSeq(v, ev), ev), ev), ev), ev.seqNo, ev.kind)
  }

  /** The verifier's state after the first `n` events. */
  function VFold(events: seq<TraceEvent>, n: nat): VState
    requires n <= |events|
  {
    if n == 0 then START else VStep(VFold(events, n - 1), events[n - 1])
  }

  function FinalProblems(v: VState): seq<Problem> {
    v.problems
    + (if v.timerDue.Some? then [TimerAtEnd(v.timerDue.value.at)] else [])
    + (if v.effectDue.Some? then [DeliverAtEnd(v.effectDue.value.at)] else [])
  }

  function Problems(events: seq<TraceEvent>): seq<Problem> {
    FinalProblems(VFold(events, |events|))
  }

  ghost function PendingMessages(events: seq<TraceEvent>): nat {
    TotalLength(VFold(events, |events|).produced)
  }
}
