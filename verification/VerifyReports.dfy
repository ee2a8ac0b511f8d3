/** The report of the single-trace verifier, problem by problem: what each one says of the trace, and that
    it is reported exactly as often as that happens, whatever else is wrong. */
module VerifyReports {
  import opened Base
  import opened Events
  import opened Queues
  import opened VerifySpec
  import opened VerifyMeaning
  import opened VerifyCategories
  import opened LineageSpec
  import opened QueueMirror

  // ---- what a trace has said so far ----

  /** The payloads waiting under a key before index `n`: each Send or NetRecv adds one, each delivery takes
      the oldest if there is one. */
  function Waiting(events: seq<TraceEvent>, n: nat, key: (Uuid, Uuid)): seq<Payload>
    requires n <= |events|
  {
    if n == 0 then []
    else
      var before, k := Waiting(events, n - 1, key), events[n - 1].kind;
      if (k.Send? || k.NetRecv?) && k.to == key.0 && k.msgId == key.1 then before + [k.payload]
      else if k.Deliver? && k.to == key.0 && k.msgId == key.1 && before != [] then before[1..]
      else before
  }

  /** The payload that the delivery at index `i` hands over. */
  function Handed(events: seq<TraceEvent>, i: nat): Option<Payload>
    requires i < |events|
  {
    var k := events[i].kind;
    if k.Deliver? && Waiting(events, i, (k.to, k.msgId)) != [] then Some(Waiting(events, i, (k.to, k.msgId))[0]) else None
  }

  /** The service the latest Spawn event of an actor names. */
  function ServiceOf(events: seq<TraceEvent>, n: nat, actor: Uuid): Option<string>
    requires n <= |events|
  {
    if n == 0 then None
    else if events[n - 1].kind.Spawn? && events[n - 1].kind.actor == actor then Some(events[n - 1].kind.service)
    else ServiceOf(events, n - 1, actor)
  }

  predicate AnySpawned(events: seq<TraceEvent>, n: nat)
    requires n <= |events|
  {
    exists j :: 0 <= j < n && events[j].kind.Spawn?
  }

  predicate Stranger(events: seq<TraceEvent>, i: nat, actor: Uuid)
    requires i <= |events|
  {
    AnySpawned(events, i) && ServiceOf(events, i, actor).None?
  }

  predicate DroppedBefore(events: seq<TraceEvent>, i: nat, fromNode: Uuid, to: Uuid, msgId: Uuid)
    requires i <= |events|
  {
    exists j ::
      && 0 <= j < i && events[j].kind.FaultInjected? && events[j].kind.action.Drop?
      && events[j].kind.fromNode == fromNode && events[j].kind.to == to && events[j].kind.msgId == msgId
  }

  function ParentNodeText(msg: RuntimeMessage, prov: Provenance): IdText {
    if prov.parentNode == NotAnId("") then msg.fromNode else prov.parentNode
  }

  /** The first id field of a payload, in the order in which they are read, that is no UUID. */
  function FirstUnreadable(msg: RuntimeMessage, prov: Provenance): Option<IdText> {
    if prov.originMsgId.NotAnId? then Some(prov.originMsgId)
    else if ParentNodeText(msg, prov).NotAnId? then Some(ParentNodeText(msg, prov))
    else if prov.parentMsgId.NotAnId? then Some(prov.parentMsgId)
    else if msg.fromNode.NotAnId? then Some(msg.fromNode)
    else None
  }

  /** All four id fields of the message can be read. */
  predicate Readable(payload: Payload) {
    payload.Message? && payload.msg.provenance.Some? && FirstUnreadable(payload.msg, payload.msg.provenance.value).None?
  }

  function LineageIn(payload: Payload): Lineage
    requires Readable(payload)
  {
    var prov := payload.msg.provenance.value;
    Lineage(prov.originMsgId.id, prov.originNode, prov.originService, prov.hops)
  }

  /** The lineage in the latest readable delivery of a message of node `key.0` with id `key.1`. */
  function LastLineage(events: seq<TraceEvent>, n: nat, key: LineageKey): Option<Lineage>
    requires n <= |events|
  {
    if n == 0 then None
    else
      var h := Handed(events, n - 1);
      if h.Some? && Readable(h.value) && (h.value.msg.fromNode.id, events[n - 1].kind.msgId) == key
      then Some(LineageIn(h.value))
      else LastLineage(events, n - 1, key)
  }

  // ---- what each problem says ----

  predicate IsFollowing(p: Problem) {
    p.SeqMismatch? || p.SeedMismatch? || p.DeliverNotAnswered? || p.TimerSendWrongActor? || p.TimerNotAnswered?
  }

  /** What is wrong between the event at index `i` and the events around it. */
  predicate RaisedByOrder(events: seq<TraceEvent>, i: nat, p: Problem)
    requires i < |events|
  {
    var ev := events[i];
    match p
    case SeqMismatch(at, expected) =>
      && at == ev.seqNo && at != expected
      && expected == (if i == 0 then 0 else if events[i - 1].seqNo == U64_MAX then U64_MAX else events[i - 1].seqNo + 1)
    case SeedMismatch(at) => at == ev.seqNo && ev.seed != events[0].seed
    case DeliverNotAnswered(at, deliver) =>
      && i > 0 && events[i - 1].kind.Deliver? && deliver == events[i - 1].seqNo
      && at == ev.seqNo && !ev.kind.EffectObserved?
    case TimerNotAnswered(at, timer) =>
      && i > 0 && events[i - 1].kind.TimerFired? && timer == events[i - 1].seqNo
      && at == ev.seqNo && !ev.kind.Send? && !ev.kind.NetSend?
    case TimerSendWrongActor(at, timer) =>
      && i > 0 && events[i - 1].kind.TimerFired? && timer == events[i - 1].seqNo
      && at == ev.seqNo && (ev.kind.Send? || ev.kind.NetSend?) && ev.kind.from != events[i - 1].kind.from
    case _ => false
  }

  /** What is wrong with the lineage of a payload delivered under an id. */
  predicate RaisedByLineage(events: seq<TraceEvent>, i: nat, p: Problem)
    requires i < |events| && events[i].kind.Deliver? && Handed(events, i).Some?
  {
    var at, msgId, payload := events[i].seqNo, events[i].kind.msgId, Handed(events, i).value;
    if payload.Undecodable? then p == PayloadUndecodable(at)
    else if payload.msg.provenance.None? then p == MissingProvenance(at)
    else
      var msg, prov := payload.msg, payload.msg.provenance.value;
      if FirstUnreadable(msg, prov).Some? then p == InvalidField(at, FirstUnreadable(msg, prov).value)
      else
        var parent := (ParentNodeText(msg, prov).id, prov.parentMsgId.id);
        if prov.hops == 0 then
          || (p == RootOriginNotSelf(at) && prov.originMsgId.id != msgId)
          || (p == RootParentNotSelf(at) && prov.parentMsgId.id != msgId)
          || (p == RootParentNodeNotSender(at) && parent.0 != msg.fromNode.id)
          || (p == RootOriginNodeNotSender(at) && prov.originNode != msg.fromNode)
          || (p == RootOriginServiceNotSender(at) && prov.originService != msg.fromService)
        else
          || (p == ParentIsSelf(at) && parent == (msg.fromNode.id, msgId))
          || match LastLineage(events, i, parent)
             case None => false
             case Some(known) =>
               || (p == HopsNotParentPlusOne(at) && prov.hops != (if known.hops == U64_MAX then U64_MAX else known.hops + 1))
               || (p == OriginMsgNotParents(at) && prov.originMsgId.id != known.originMsgId)
               || (p == OriginNodeNotParents(at) && prov.originNode != known.originNode)
               || (p == OriginServiceNotParents(at) && prov.originService != known.originService)
  }

  /** What is wrong with the event itself, after what came before it. */
  ghost predicate RaisedByKind(events: seq<TraceEvent>, i: nat, p: Problem)
    requires i < |events|
  {
    var at, k := events[i].seqNo, events[i].kind;
    var afterDeliver := i > 0 && events[i - 1].kind.Deliver?;
    match k
    case Spawn(_, actor, service) =>
      || (p == DuplicateSpawn(at, actor) && ServiceOf(events, i, actor) == Some(service))
      || (p == ConflictingSpawn(at, actor) && ServiceOf(events, i, actor).Some? && ServiceOf(events, i, actor) != Some(service))
    case Send(from, to, _, _) =>
      || (p == UnknownSender(at, from) && Stranger(events, i, from))
      || (p == UnknownReceiver(at, to) && Stranger(events, i, to))
    case NetRecv(_, fromNode, to, msgId, _) =>
      || (p == UnknownReceiver(at, to) && Stranger(events, i, to))
      || (p == ReceivedAfterDrop(at, fromNode, to, msgId) && DroppedBefore(events, i, fromNode, to, msgId))
    case Deliver(_, to, msgId) =>
      || (p == UnknownReceiver(at, to) && Stranger(events, i, to))
      || (p == DeliverWithoutSource(at, to, msgId) && Waiting(events, i, (to, msgId)) == [])
      || (Handed(events, i).Some? && RaisedByLineage(events, i, p))
    case NetSend(_, _, from, _, _) => p == UnknownSender(at, from) && Stranger(events, i, from)
    case LogLine(_, from, _, _) => p == UnknownLogger(at, from) && Stranger(events, i, from)
    case EffectObserved(node, actor, _, _, msgId, declared, observed) =>
      || (p == UnknownEffectActor(at, actor) && Stranger(events, i, actor))
      || (p == EffectWithoutDeliver(at) && !afterDeliver)
      || (afterDeliver && p == EffectOfOtherDeliver(at, events[i - 1].seqNo)
          && (node != events[i - 1].kind.node || actor != events[i - 1].kind.to || msgId != events[i - 1].kind.msgId))
      || (p == DuplicateDeclared(at) && !Distinct(declared))
      || (p == DuplicateObserved(at) && !Distinct(observed))
      || (p == UndeclaredObserved(at) && exists e :: e in observed && e !in declared)
    case _ => false
  }

  ghost predicate Raised(events: seq<TraceEvent>, i: nat, p: Problem)
    requires i < |events|
  {
    if IsFollowing(p) then RaisedByOrder(events, i, p) else RaisedByKind(events, i, p)
  }

  /** What is wrong with the end of the trace. */
  predicate RaisedAtEnd(events: seq<TraceEvent>, p: Problem) {
    && events != []
    && var last := events[|events| - 1];
       (p == TimerAtEnd(last.seqNo) && last.kind.TimerFired?) || (p == DeliverAtEnd(last.seqNo) && last.kind.Deliver?)
  }

  /** How many of the first `n` events raise a problem. */
  ghost function TimesRaised(events: seq<TraceEvent>, n: nat, p: Problem): nat
    requires n <= |events|
  {
    if n == 0 then 0 else TimesRaised(events, n - 1, p) + Once(Raised(events, n - 1, p))
  }

  // ---- the verifier's state, whatever has gone wrong ----

  ghost predicate SpawnsKept(events: seq<TraceEvent>, n: nat, spawned: map<Uuid, string>)
    requires n <= |events|
  {
    && (spawned != map[] <==> AnySpawned(events, n))
    && forall actor :: ServiceOf(events, n, actor) == if actor in spawned then Some(spawned[actor]) else None
  }

  ghost predicate QueuesKept(events: seq<TraceEvent>, n: nat, produced: map<(Uuid, Uuid), seq<Payload>>)
    requires n <= |events|
  {
    forall key: (Uuid, Uuid) :: QueueOf(produced, key) == Waiting(events, n, key)
  }

  ghost predicate LineageKept(events: seq<TraceEvent>, n: nat, delivered: map<LineageKey, Lineage>)
    requires n <= |events|
  {
    forall key: LineageKey :: LastLineage(events, n, key) == if key in delivered then Some(delivered[key]) else None
  }

  ghost predicate DropsKept(events: seq<TraceEvent>, n: nat, dropped: set<(Uuid, Uuid, Uuid)>)
    requires n <= |events|
  {
    forall f: Uuid, t: Uuid, m: Uuid :: (f, t, m) in dropped <==> DroppedBefore(events, n, f, t, m)
  }

  ghost predicate HistoryKept(events: seq<TraceEvent>, n: nat, v: VState)
    requires n <= |events|
  {
    && SpawnsKept(events, n, v.spawned) && QueuesKept(events, n, v.produced)
    && LineageKept(events, n, v.delivered) && DropsKept(events, n, v.dropped)
  }

  predicate MarksKept(events: seq<TraceEvent>, n: nat, v: VState)
    requires n <= |events|
  {
    && v.expectedSeq == (if n == 0 then 0 else SatAdd(events[n - 1].seqNo, 1))
    && v.seed == (if n == 0 then None else Some(events[0].seed))
    && v.timerDue == (if n > 0 && events[n - 1].kind.TimerFired?
                      then Some(TimerMark(events[n - 1].seqNo, events[n - 1].kind.from)) else None)
    && v.effectDue == (if n > 0 && events[n - 1].kind.Deliver? then Some(MarkOf(events[n - 1])) else None)
  }

  function MarkOf(ev: TraceEvent): DeliverMark
    requires ev.kind.Deliver?
  {
    DeliverMark(ev.seqNo, ev.kind.node, ev.kind.to, ev.kind.msgId)
  }

  // ---- what each check adds ----

  function Times(ps: seq<Problem>, p: Problem): nat { multiset(ps)[p] }

  lemma TimesAppend(a: seq<Problem>, b: seq<Problem>, p: Problem)
    ensures Times(a + b, p) == Times(a, p) + Times(b, p)
  {
  }

  lemma TimesWhen(a: seq<Problem>, condition: bool, q: Problem, p: Problem)
    ensures Times(a + When(condition, q), p) == Times(a, p) + Once(condition && q == p)
  {
    TimesAppend(a, When(condition, q), p);
  }

  lemma TimesSnoc(a: seq<Problem>, q: Problem, p: Problem)
    ensures Times(a + [q], p) == Times(a, p) + Once(q == p)
  {
    TimesAppend(a, [q], p);
  }

  function Framed(v: VState, ev: TraceEvent): VState {
    CheckTimerDue(CheckEffectDue(CheckSeed(CheckSeq(v, ev), ev), ev), ev)
  }

  lemma NumberingRaises(v: VState, ev: TraceEvent, p: Problem)
    ensures Times(CheckSeq(v, ev).problems, p) ==
            Times(v.problems, p) + Once(ev.seqNo != v.expectedSeq && p == SeqMismatch(ev.seqNo, v.expectedSeq))
    ensures Times(CheckSeed(v, ev).problems, p) ==
            Times(v.problems, p) + Once(v.seed.Some? && v.seed.value != ev.seed && p == SeedMismatch(ev.seqNo))
  {
    hide Times;
    TimesSnoc(v.problems, SeqMismatch(ev.seqNo, v.expectedSeq), p);
    TimesSnoc(v.problems, SeedMismatch(ev.seqNo), p);
  }

  lemma AnswersRaise(v: VState, ev: TraceEvent, p: Problem)
    ensures Times(CheckEffectDue(v, ev).problems, p) ==
            Times(v.problems, p)
            + Once(v.effectDue.Some? && !ev.kind.EffectObserved? && p == DeliverNotAnswered(ev.seqNo, v.effectDue.value.at))
    ensures Times(CheckTimerDue(v, ev).problems, p) ==
            Times(v.problems, p)
            + Once(v.timerDue.Some? && !IsSend(ev.kind) && p == TimerNotAnswered(ev.seqNo, v.timerDue.value.at))
            + Once(v.timerDue.Some? && IsSend(ev.kind) && ev.kind.from != v.timerDue.value.from
                   && p == TimerSendWrongActor(ev.seqNo, v.timerDue.value.at))
  {
    hide Times;
    if v.effectDue.Some? { TimesSnoc(v.problems, DeliverNotAnswered(ev.seqNo, v.effectDue.value.at), p); }
    if v.timerDue.Some? {
      TimesSnoc(v.problems, TimerNotAnswered(ev.seqNo, v.timerDue.value.at), p);
      if IsSend(ev.kind) {
        TimesWhen(v.problems, ev.kind.from != v.timerDue.value.from, TimerSendWrongActor(ev.seqNo, v.timerDue.value.at), p);
      }
    }
  }

  lemma FramingRaises(events: seq<TraceEvent>, i: nat, v: VState, p: Problem)
    requires i < |events| && MarksKept(events, i, v)
    ensures var w := Framed(v, events[i]);
            && Times(w.problems, p) == Times(v.problems, p) + Once(IsFollowing(p) && RaisedByOrder(events, i, p))
            && w == v.(expectedSeq := SatAdd(events[i].seqNo, 1), seed := Some(events[0].seed), timerDue := None,
                       effectDue := if events[i].kind.EffectObserved? then v.effectDue else None, problems := w.problems)
  {
    hide CheckSeq;
    hide CheckSeed;
    hide CheckEffectDue;
    hide CheckTimerDue;
    hide Times;
    var ev := events[i];
    var v1 := CheckSeq(v, ev);
    var v2 := CheckSeed(v1, ev);
    var v3 := CheckEffectDue(v2, ev);
    NumberingShape(v, ev);
    NumberingShape(v1, ev);
    AnswerShape(v2, ev);
    AnswerShape(v3, ev);
    NumberingRaises(v, ev, p);
    NumberingRaises(v1, ev, p);
    AnswersRaise(v2, ev, p);
    AnswersRaise(v3, ev, p);
  }

  lemma NumberingShape(v: VState, ev: TraceEvent)
    ensures var w := CheckSeq(v, ev); w == v.(expectedSeq := SatAdd(ev.seqNo, 1), problems := w.problems)
    ensures var w := CheckSeed(v, ev); w == v.(seed := Some(if v.seed == None then ev.seed else v.seed.value), problems := w.problems)
  {
  }

  lemma AnswerShape(v: VState, ev: TraceEvent)
    ensures var w := CheckEffectDue(v, ev);
            w == v.(effectDue := if ev.kind.EffectObserved? then v.effectDue else None, problems := w.problems)
    ensures var w := CheckTimerDue(v, ev); w == v.(timerDue := None, problems := w.problems)
  {
  }

  /** A readable payload gives its parts; an unreadable one the first thing that is wrong with it. */
  lemma ReadingMeans(at: U64, payload: Payload)
    ensures var r := ReadPayload(at, payload);
            if Readable(payload) then
              var msg, prov := payload.msg, payload.msg.provenance.value;
              r == Read(msg.fromNode.id, (ParentNodeText(msg, prov).id, prov.parentMsgId.id), LineageIn(payload), msg)
            else
              r == Unreadable(if payload.Undecodable? then PayloadUndecodable(at)
                              else if payload.msg.provenance.None? then MissingProvenance(at)
                              else InvalidField(at, FirstUnreadable(payload.msg, payload.msg.provenance.value).value))
  {
  }

  lemma RootRaises(at: U64, msgId: Uuid, r: ReadProvenance, p: Problem)
    requires r.Read?
    ensures Times(RootProblems(at, msgId, r), p) ==
            Once((p == RootOriginNotSelf(at) && r.lineage.originMsgId != msgId)
                 || (p == RootParentNotSelf(at) && r.parent.1 != msgId)
                 || (p == RootParentNodeNotSender(at) && r.parent.0 != r.from)
                 || (p == RootOriginNodeNotSender(at) && r.lineage.originNode != r.msg.fromNode)
                 || (p == RootOriginServiceNotSender(at) && r.lineage.originService != r.msg.fromService))
  {
    hide Times;
    hide When;
    var p1 := When(r.lineage.originMsgId != msgId, RootOriginNotSelf(at));
    var p2 := When(r.parent.1 != msgId, RootParentNotSelf(at));
    var p3 := When(r.parent.0 != r.from, RootParentNodeNotSender(at));
    var p4 := When(r.lineage.originNode != r.msg.fromNode, RootOriginNodeNotSender(at));
    TimesNone(p);
    TimesWhen([], r.lineage.originMsgId != msgId, RootOriginNotSelf(at), p);
    assert [] + p1 == p1;
    TimesWhen(p1, r.parent.1 != msgId, RootParentNotSelf(at), p);
    TimesWhen(p1 + p2, r.parent.0 != r.from, RootParentNodeNotSender(at), p);
    TimesWhen(p1 + p2 + p3, r.lineage.originNode != r.msg.fromNode, RootOriginNodeNotSender(at), p);
    TimesWhen(p1 + p2 + p3 + p4, r.lineage.originService != r.msg.fromService, RootOriginServiceNotSender(at), p);
  }

  lemma TimesNone(p: Problem)
    ensures Times([], p) == 0
  {
  }

  lemma ChildRaises(at: U64, msgId: Uuid, r: ReadProvenance, delivered: map<LineageKey, Lineage>, p: Problem)
    requires r.Read?
    ensures Times(ChildProblems(at, msgId, r, delivered), p) ==
            Once((p == ParentIsSelf(at) && r.parent == (r.from, msgId))
                 || (r.parent in delivered
                     && var q := delivered[r.parent];
                        || (p == HopsNotParentPlusOne(at) && r.lineage.hops != SatAdd(q.hops, 1))
                        || (p == OriginMsgNotParents(at) && r.lineage.originMsgId != q.originMsgId)
                        || (p == OriginNodeNotParents(at) && r.lineage.originNode != q.originNode)
                        || (p == OriginServiceNotParents(at) && r.lineage.originService != q.originService)))
  {
    hide Times;
    hide When;
    hide SatAdd;
    var self := When(r.parent == (r.from, msgId), ParentIsSelf(at));
    TimesNone(p);
    TimesWhen([], r.parent == (r.from, msgId), ParentIsSelf(at), p);
    assert [] + self == self && self + [] == self;
    if r.parent in delivered {
      var q := delivered[r.parent];
      var p1 := When(r.lineage.hops != SatAdd(q.hops, 1), HopsNotParentPlusOne(at));
      var p2 := When(r.lineage.originMsgId != q.originMsgId, OriginMsgNotParents(at));
      var p3 := When(r.lineage.originNode != q.originNode, OriginNodeNotParents(at));
      var p4 := When(r.lineage.originService != q.originService, OriginServiceNotParents(at));
      TimesWhen(self, r.lineage.hops != SatAdd(q.hops, 1), HopsNotParentPlusOne(at), p);
      TimesWhen(self + p1, r.lineage.originMsgId != q.originMsgId, OriginMsgNotParents(at), p);
      TimesWhen(self + p1 + p2, r.lineage.originNode != q.originNode, OriginNodeNotParents(at), p);
      TimesWhen(self + p1 + p2 + p3, r.lineage.originService != q.originService, OriginServiceNotParents(at), p);
      assert self + (p1 + p2 + p3 + p4) == self + p1 + p2 + p3 + p4;
    }
  }

  lemma LineageRaises(events: seq<TraceEvent>, i: nat, delivered: map<LineageKey, Lineage>, p: Problem)
    requires i < |events| && events[i].kind.Deliver? && Handed(events, i).Some? && LineageKept(events, i, delivered)
    ensures Times(LineageProblems(events[i].seqNo, events[i].kind.msgId, Handed(events, i).value, delivered), p) ==
            Once(RaisedByLineage(events, i, p))
  {
    hide Times;
    hide RootProblems;
    hide ChildProblems;
    hide ReadPayload;
    hide RaisedByLineage;
    hide Handed;
    hide LineageKept;
    var at, payload := events[i].seqNo, Handed(events, i).value;
    var r := ReadPayload(at, payload);
    ReadingMeans(at, payload);
    if !Readable(payload) {
      TimesNone(p);
      TimesSnoc([], r.why, p);
      assert [] + [r.why] == [r.why];
      UnreadableRaises(events, i, p, r.why);
    } else if payload.msg.provenance.value.hops == 0 {
      RootRaised(events, i, p);
    } else {
      ChildRaised(events, i, delivered, p);
    }
  }

  lemma UnreadableRaises(events: seq<TraceEvent>, i: nat, p: Problem, why: Problem)
    requires i < |events| && events[i].kind.Deliver? && Handed(events, i).Some? && !Readable(Handed(events, i).value)
    requires ReadPayload(events[i].seqNo, Handed(events, i).value) == Unreadable(why)
    ensures RaisedByLineage(events, i, p) <==> why == p
  {
    hide Handed;
    hide LastLineage;
    hide ReadPayload;
    hide FirstUnreadable;
    ReadingMeans(events[i].seqNo, Handed(events, i).value);
  }

  lemma RootRaised(events: seq<TraceEvent>, i: nat, p: Problem)
    requires i < |events| && events[i].kind.Deliver? && Handed(events, i).Some? && Readable(Handed(events, i).value)
    requires Handed(events, i).value.msg.provenance.value.hops == 0
    ensures ReadPayload(events[i].seqNo, Handed(events, i).value).Read?
    ensures Times(RootProblems(events[i].seqNo, events[i].kind.msgId, ReadPayload(events[i].seqNo, Handed(events, i).value)), p)
            == Once(RaisedByLineage(events, i, p))
  {
    hide Times;
    hide RootProblems;
    hide ReadPayload;
    hide Handed;
    hide LastLineage;
    hide FirstUnreadable;
    ReadingMeans(events[i].seqNo, Handed(events, i).value);
    RootRaises(events[i].seqNo, events[i].kind.msgId, ReadPayload(events[i].seqNo, Handed(events, i).value), p);
  }

  lemma ChildRaised(events: seq<TraceEvent>, i: nat, delivered: map<LineageKey, Lineage>, p: Problem)
    requires i < |events| && events[i].kind.Deliver? && Handed(events, i).Some? && Readable(Handed(events, i).value)
    requires Handed(events, i).value.msg.provenance.value.hops != 0 && LineageKept(events, i, delivered)
    ensures ReadPayload(events[i].seqNo, Handed(events, i).value).Read?
    ensures Times(ChildProblems(events[i].seqNo, events[i].kind.msgId, ReadPayload(events[i].seqNo, Handed(events, i).value), delivered), p)
            == Once(RaisedByLineage(events, i, p))
  {
    hide Times;
    hide ChildProblems;
    hide ReadPayload;
    hide Handed;
    hide LastLineage;
    hide FirstUnreadable;
    ReadingMeans(events[i].seqNo, Handed(events, i).value);
    ChildRaises(events[i].seqNo, events[i].kind.msgId, ReadPayload(events[i].seqNo, Handed(events, i).value), delivered, p);
  }

  lemma UnknownMeans(events: seq<TraceEvent>, i: nat, v: VState, actor: Uuid)
    requires i <= |events| && SpawnsKept(events, i, v.spawned)
    ensures Unknown(v, actor) <==> Stranger(events, i, actor)
  {
    hide AnySpawned;
  }

  ghost predicate KindAdds(events: seq<TraceEvent>, i: nat, v: VState, p: Problem)
    requires i < |events|
  {
    Times(CheckKind(v, events[i].seqNo, events[i].kind).problems, p) == Times(v.problems, p) + Once(RaisedByKind(events, i, p))
  }

  lemma DeliverJoins(events: seq<TraceEvent>, i: nat, p: Problem)
    requires i < |events| && events[i].kind.Deliver?
    ensures var at, k := events[i].seqNo, events[i].kind;
            Once(RaisedByKind(events, i, p)) ==
              Once(Stranger(events, i, k.to) && UnknownReceiver(at, k.to) == p)
              + if Waiting(events, i, (k.to, k.msgId)) == [] then Once(DeliverWithoutSource(at, k.to, k.msgId) == p)
                else Once(RaisedByLineage(events, i, p))
  {
    hide Stranger;
    hide Waiting;
    hide RaisedByLineage;
    if Handed(events, i).Some? { LineageTags(events, i, p); }
  }

  lemma DeliverCheck(v: VState, at: U64, k: EventKind, queue: seq<Payload>)
    requires k.Deliver? && queue == QueueOf(v.produced, (k.to, k.msgId))
    ensures CheckKind(v, at, k).problems ==
            v.problems + When(Unknown(v, k.to), UnknownReceiver(at, k.to))
            + if queue == [] then [DeliverWithoutSource(at, k.to, k.msgId)] else LineageProblems(at, k.msgId, queue[0], v.delivered)
  {
    hide LineageProblems;
    hide RecordLineage;
    hide Dequeue;
    hide When;
    hide Unknown;
  }

  lemma DeliverRaises(events: seq<TraceEvent>, i: nat, v: VState, p: Problem)
    requires i < |events| && HistoryKept(events, i, v) && events[i].kind.Deliver?
    ensures KindAdds(events, i, v, p)
  {
    hide Times;
    hide When;
    hide Unknown;
    hide Stranger;
    hide CheckKind;
    hide LineageProblems;
    hide RaisedByKind;
    hide RaisedByLineage;
    hide Waiting;
    hide QueueOf;
    hide LineageKept;
    hide SpawnsKept;
    hide DropsKept;
    var at, to, msgId := events[i].seqNo, events[i].kind.to, events[i].kind.msgId;
    var queue := QueueOf(v.produced, (to, msgId));
    assert queue == Waiting(events, i, (to, msgId));
    UnknownMeans(events, i, v, to);
    DeliverCheck(v, at, events[i].kind, queue);
    DeliverJoins(events, i, p);
    var first := v.problems + When(Unknown(v, to), UnknownReceiver(at, to));
    TimesWhen(v.problems, Unknown(v, to), UnknownReceiver(at, to), p);
    if queue == [] {
      TimesSnoc(first, DeliverWithoutSource(at, to, msgId), p);
    } else {
      LineageRaises(events, i, v.delivered, p);
      TimesAppend(first, LineageProblems(at, msgId, queue[0], v.delivered), p);
    }
  }

  /** Lineage problems are told apart from the others by their constructors. */
  lemma LineageTags(events: seq<TraceEvent>, i: nat, p: Problem)
    requires i < |events| && events[i].kind.Deliver? && Handed(events, i).Some?
    ensures RaisedByLineage(events, i, p) ==> !p.UnknownReceiver? && !p.DeliverWithoutSource? && !IsFollowing(p)
  {
    hide Handed;
    hide LastLineage;
    hide FirstUnreadable;
    hide ParentNodeText;
  }

  lemma EffectsJoin(events: seq<TraceEvent>, i: nat, other: bool, p: Problem)
    requires i < |events| && events[i].kind.EffectObserved?
    requires var k := events[i].kind;
             other <==> && i > 0 && events[i - 1].kind.Deliver?
                        && (k.node != events[i - 1].kind.node || k.actor != events[i - 1].kind.to || k.msgId != events[i - 1].kind.msgId)
    ensures var at, k := events[i].seqNo, events[i].kind;
            Once(RaisedByKind(events, i, p)) ==
              Once(Stranger(events, i, k.actor) && UnknownEffectActor(at, k.actor) == p)
              + (if i > 0 && events[i - 1].kind.Deliver? then Once(other && EffectOfOtherDeliver(at, events[i - 1].seqNo) == p)
                 else Once(EffectWithoutDeliver(at) == p))
              + Once(!Distinct(k.declared) && DuplicateDeclared(at) == p)
              + Once(!Distinct(k.observed) && DuplicateObserved(at) == p)
              + Once((exists e :: e in k.observed && e !in k.declared) && UndeclaredObserved(at) == p)
  {
    hide Stranger;
    hide Distinct;
  }

  lemma EffectsTimes(v: VState, at: U64, k: EventKind, other: bool, p: Problem)
    requires k.EffectObserved?
    requires other <==> v.effectDue.Some? && (k.node != v.effectDue.value.node || k.actor != v.effectDue.value.to
                                              || k.msgId != v.effectDue.value.msgId)
    ensures Times(CheckEffects(v, at, k).problems, p) ==
            Times(v.problems, p)
            + Once(Unknown(v, k.actor) && UnknownEffectActor(at, k.actor) == p)
            + (if v.effectDue == None then Once(EffectWithoutDeliver(at) == p)
               else Once(other && EffectOfOtherDeliver(at, v.effectDue.value.at) == p))
            + Once(!Distinct(k.declared) && DuplicateDeclared(at) == p)
            + Once(!Distinct(k.observed) && DuplicateObserved(at) == p)
            + Once((exists e :: e in k.observed && e !in k.declared) && UndeclaredObserved(at) == p)
  {
    hide Times;
    hide When;
    hide Once;
    hide Unknown;
    hide CheckEffects;
    hide Distinct;
    var twice, again := |set e | e in k.declared| != |k.declared|, |set e | e in k.observed| != |k.observed|;
    var beyond := exists e :: e in k.observed && e !in k.declared;
    DistinctBySize(k.declared);
    DistinctBySize(k.observed);
    EffectProblems(v, at, k, other, twice, again, beyond);
    var a := v.problems + When(Unknown(v, k.actor), UnknownEffectActor(at, k.actor));
    TimesWhen(v.problems, Unknown(v, k.actor), UnknownEffectActor(at, k.actor), p);
    var b := a + if v.effectDue == None then [EffectWithoutDeliver(at)]
                 else When(other, EffectOfOtherDeliver(at, v.effectDue.value.at));
    if v.effectDue == None {
      TimesSnoc(a, EffectWithoutDeliver(at), p);
    } else {
      TimesWhen(a, other, EffectOfOtherDeliver(at, v.effectDue.value.at), p);
    }
    var c := b + When(twice, DuplicateDeclared(at));
    TimesWhen(b, twice, DuplicateDeclared(at), p);
    TimesWhen(c, again, DuplicateObserved(at), p);
    TimesWhen(c + When(again, DuplicateObserved(at)), beyond, UndeclaredObserved(at), p);
  }

  lemma EffectsRaise(events: seq<TraceEvent>, i: nat, v: VState, p: Problem)
    requires i < |events| && SpawnsKept(events, i, v.spawned) && events[i].kind.EffectObserved?
    requires v.effectDue == if i > 0 && events[i - 1].kind.Deliver? then Some(MarkOf(events[i - 1])) else None
    ensures KindAdds(events, i, v, p)
  {
    hide Times;
    hide Once;
    hide Unknown;
    hide Stranger;
    hide SpawnsKept;
    hide CheckKind;
    hide CheckEffects;
    hide RaisedByKind;
    hide Distinct;
    var at, k := events[i].seqNo, events[i].kind;
    var other := v.effectDue.Some?
                 && (k.node != v.effectDue.value.node || k.actor != v.effectDue.value.to || k.msgId != v.effectDue.value.msgId);
    UnknownMeans(events, i, v, k.actor);
    EffectsTimes(v, at, k, other, p);
    EffectsJoin(events, i, other, p);
    EffectsChecked(v, at, k);
  }

  lemma EffectsChecked(v: VState, at: U64, k: EventKind)
    requires k.EffectObserved?
    ensures CheckKind(v, at, k) == CheckEffects(v, at, k)
  {
    hide CheckEffects;
  }

  lemma SpawnRaises(events: seq<TraceEvent>, i: nat, v: VState, p: Problem)
    requires i < |events| && SpawnsKept(events, i, v.spawned) && events[i].kind.Spawn?
    ensures KindAdds(events, i, v, p)
  {
    hide Times;
    hide AnySpawned;
    TimesSnoc(v.problems, DuplicateSpawn(events[i].seqNo, events[i].kind.actor), p);
    TimesSnoc(v.problems, ConflictingSpawn(events[i].seqNo, events[i].kind.actor), p);
    assert v.problems + [] == v.problems;
  }

  lemma SendRaises(events: seq<TraceEvent>, i: nat, v: VState, p: Problem)
    requires i < |events| && SpawnsKept(events, i, v.spawned) && events[i].kind.Send?
    ensures KindAdds(events, i, v, p)
  {
    hide Times;
    hide When;
    hide Unknown;
    hide Stranger;
    hide SpawnsKept;
    hide Enqueue;
    var at, k := events[i].seqNo, events[i].kind;
    UnknownMeans(events, i, v, k.from);
    UnknownMeans(events, i, v, k.to);
    TimesWhen(v.problems, Unknown(v, k.from), UnknownSender(at, k.from), p);
    TimesWhen(v.problems + When(Unknown(v, k.from), UnknownSender(at, k.from)), Unknown(v, k.to), UnknownReceiver(at, k.to), p);
  }

  lemma RecvRaises(events: seq<TraceEvent>, i: nat, v: VState, p: Problem)
    requires i < |events| && SpawnsKept(events, i, v.spawned) && DropsKept(events, i, v.dropped) && events[i].kind.NetRecv?
    ensures KindAdds(events, i, v, p)
  {
    hide Times;
    hide When;
    hide Unknown;
    hide Stranger;
    hide SpawnsKept;
    hide Enqueue;
    hide DroppedBefore;
    var at, k := events[i].seqNo, events[i].kind;
    UnknownMeans(events, i, v, k.to);
    TimesWhen(v.problems, Unknown(v, k.to), UnknownReceiver(at, k.to), p);
    TimesWhen(v.problems + When(Unknown(v, k.to), UnknownReceiver(at, k.to)), (k.fromNode, k.to, k.msgId) in v.dropped,
              ReceivedAfterDrop(at, k.fromNode, k.to, k.msgId), p);
  }

  lemma OthersRaise(events: seq<TraceEvent>, i: nat, v: VState, p: Problem)
    requires i < |events| && SpawnsKept(events, i, v.spawned)
    requires var k := events[i].kind; k.NetSend? || k.LogLine? || k.FaultInjected? || k.FaultPolicyEvent? || k.TimerFired?
    ensures KindAdds(events, i, v, p)
  {
    hide Times;
    hide When;
    hide Unknown;
    hide Stranger;
    hide SpawnsKept;
    var at, k := events[i].seqNo, events[i].kind;
    if k.NetSend? || k.LogLine? {
      UnknownMeans(events, i, v, k.from);
      TimesWhen(v.problems, Unknown(v, k.from), UnknownSender(at, k.from), p);
      TimesWhen(v.problems, Unknown(v, k.from), UnknownLogger(at, k.from), p);
    }
  }

  lemma KindRaises(events: seq<TraceEvent>, i: nat, v: VState, p: Problem)
    requires i < |events| && HistoryKept(events, i, v)
    requires events[i].kind.EffectObserved? ==>
               v.effectDue == if i > 0 && events[i - 1].kind.Deliver? then Some(MarkOf(events[i - 1])) else None
    ensures KindAdds(events, i, v, p)
  {
    hide KindAdds;
    hide SpawnsKept;
    hide QueuesKept;
    hide LineageKept;
    hide DropsKept;
    var k := events[i].kind;
    if k.Deliver? {
      DeliverRaises(events, i, v, p);
    } else if k.EffectObserved? {
      EffectsRaise(events, i, v, p);
    } else if k.Spawn? {
      SpawnRaises(events, i, v, p);
    } else if k.Send? {
      SendRaises(events, i, v, p);
    } else if k.NetRecv? {
      RecvRaises(events, i, v, p);
    } else {
      OthersRaise(events, i, v, p);
    }
  }

  /** No event raises a problem twice. */
  lemma KindTags(events: seq<TraceEvent>, i: nat, p: Problem)
    requires i < |events| && IsFollowing(p)
    ensures !RaisedByKind(events, i, p)
  {
    hide RaisedByLineage;
    hide Stranger;
    hide DroppedBefore;
    hide Distinct;
    if events[i].kind.Deliver? && Handed(events, i).Some? { LineageTags(events, i, p); }
  }

  // ---- what an event leaves in the state ----

  lemma SpawnsStep(events: seq<TraceEvent>, i: nat, v: VState)
    requires i < |events| && SpawnsKept(events, i, v.spawned)
    ensures SpawnsKept(events, i + 1, CheckKind(v, events[i].seqNo, events[i].kind).spawned)
  {
    hide CheckDeliver;
    hide CheckEffects;
    hide Enqueue;
    KeptByDeliver(v, events[i].seqNo, events[i].kind);
    assert AnySpawned(events, i + 1) <==> AnySpawned(events, i) || events[i].kind.Spawn?;
  }

  /** Deliveries and effect reports leave the spawned actors and the dropped envelopes as they are. */
  lemma KeptByDeliver(v: VState, at: U64, k: EventKind)
    ensures k.Deliver? || k.EffectObserved? ==> CheckKind(v, at, k).spawned == v.spawned && CheckKind(v, at, k).dropped == v.dropped
    ensures k.EffectObserved? ==> CheckKind(v, at, k).delivered == v.delivered
  {
    hide LineageProblems;
    hide RecordLineage;
    hide Dequeue;
    hide Unknown;
  }

  lemma DropsStep(events: seq<TraceEvent>, i: nat, v: VState)
    requires i < |events| && DropsKept(events, i, v.dropped)
    ensures DropsKept(events, i + 1, CheckKind(v, events[i].seqNo, events[i].kind).dropped)
  {
    hide CheckDeliver;
    hide CheckEffects;
    hide Enqueue;
    KeptByDeliver(v, events[i].seqNo, events[i].kind);
    var k := events[i].kind;
    forall f: Uuid, t: Uuid, m: Uuid
      ensures DroppedBefore(events, i + 1, f, t, m) <==>
              DroppedBefore(events, i, f, t, m)
              || (k.FaultInjected? && k.action.Drop? && k.fromNode == f && k.to == t && k.msgId == m)
    {
    }
  }

  lemma QueuesStep(events: seq<TraceEvent>, i: nat, v: VState)
    requires i < |events| && QueuesKept(events, i, v.produced)
    ensures QueuesKept(events, i + 1, CheckKind(v, events[i].seqNo, events[i].kind).produced)
  {
    hide LineageProblems;
    hide RecordLineage;
    hide CheckEffects;
    var k := events[i].kind;
    var after := CheckKind(v, events[i].seqNo, k).produced;
    if k.EffectObserved? { ProducedByEffects(v, events[i].seqNo, k); }
    forall key: (Uuid, Uuid) ensures QueueOf(after, key) == Waiting(events, i + 1, key) {
      assert QueueOf(v.produced, key) == Waiting(events, i, key);
    }
  }

  lemma ProducedByEffects(v: VState, at: U64, k: EventKind)
    requires k.EffectObserved?
    ensures CheckEffects(v, at, k).produced == v.produced
  {
  }

  lemma LineageStep(events: seq<TraceEvent>, i: nat, v: VState)
    requires i < |events| && LineageKept(events, i, v.delivered) && QueuesKept(events, i, v.produced)
    ensures LineageKept(events, i + 1, CheckKind(v, events[i].seqNo, events[i].kind).delivered)
  {
    hide LineageProblems;
    hide CheckEffects;
    hide Waiting;
    hide ReadPayload;
    hide Dequeue;
    hide Enqueue;
    KeptByDeliver(v, events[i].seqNo, events[i].kind);
    var k := events[i].kind;
    if k.Deliver? {
      assert QueueOf(v.produced, (k.to, k.msgId)) == Waiting(events, i, (k.to, k.msgId));
      if Handed(events, i).Some? { ReadingMeans(0, Handed(events, i).value); }
    }
  }

  lemma MarksStep(events: seq<TraceEvent>, i: nat, v: VState)
    requires i < |events| && v.timerDue == None
    requires v.expectedSeq == SatAdd(events[i].seqNo, 1) && v.seed == Some(events[0].seed)
    requires v.effectDue.Some? ==> events[i].kind.EffectObserved?
    ensures MarksKept(events, i + 1, CheckKind(v, events[i].seqNo, events[i].kind))
  {
    hide LineageProblems;
    hide RecordLineage;
    hide Dequeue;
    hide Enqueue;
    hide Unknown;
  }

  lemma {:induction false} FoldReports(events: seq<TraceEvent>, n: nat, p: Problem)
    requires n <= |events|
    ensures Times(VFold(events, n).problems, p) == TimesRaised(events, n, p)
    ensures HistoryKept(events, n, VFold(events, n)) && MarksKept(events, n, VFold(events, n))
    decreases n
  {
    hide HistoryKept;
    hide MarksKept;
    hide Times;
    hide Raised;
    hide VStep;
    if n == 0 {
      NothingYet(events, p);
    } else {
      var i, v := n - 1, VFold(events, n - 1);
      FoldReports(events, i, p);
      StepReports(events, i, v, p);
    }
  }

  lemma NothingYet(events: seq<TraceEvent>, p: Problem)
    ensures Times(START.problems, p) == 0 && HistoryKept(events, 0, START) && MarksKept(events, 0, START)
  {
  }

  lemma StepReports(events: seq<TraceEvent>, i: nat, v: VState, p: Problem)
    requires i < |events| && HistoryKept(events, i, v) && MarksKept(events, i, v)
    ensures var w := VStep(v, events[i]);
            && Times(w.problems, p) == Times(v.problems, p) + Once(Raised(events, i, p))
            && HistoryKept(events, i + 1, w) && MarksKept(events, i + 1, w)
  {
    hide Times;
    hide CheckKind;
    hide CheckSeq;
    hide CheckSeed;
    hide CheckEffectDue;
    hide CheckTimerDue;
    hide RaisedByKind;
    hide RaisedByOrder;
    hide SpawnsKept;
    hide QueuesKept;
    hide LineageKept;
    hide DropsKept;
    var w := Framed(v, events[i]);
    FramingRaises(events, i, v, p);
    KindRaises(events, i, w, p);
    if IsFollowing(p) { KindTags(events, i, p); }
    SpawnsStep(events, i, w);
    QueuesStep(events, i, w);
    LineageStep(events, i, w);
    DropsStep(events, i, w);
    MarksStep(events, i, w);
  }

  /** The problems found up to some event are the first of the report, in the order of the events. */
  lemma {:induction false} EarlierFirst(events: seq<TraceEvent>, n: nat)
    requires n <= |events|
    ensures VFold(events, n).problems <= Problems(events)
    decreases |events| - n
  {
    hide VStep;
    if n < |events| {
      EarlierFirst(events, n + 1);
      StepGrows(VFold(events, n), events[n]);
    }
  }

  lemma StepGrows(v: VState, ev: TraceEvent)
    ensures v.problems <= VStep(v, ev).problems
  {
    hide CheckKind;
    hide CheckSeq;
    hide CheckSeed;
    hide CheckEffectDue;
    hide CheckTimerDue;
    var v1 := CheckSeq(v, ev);
    var v2 := CheckSeed(v1, ev);
    var v3 := CheckEffectDue(v2, ev);
    ChecksGrow(v, ev);
    ChecksGrow(v1, ev);
    ChecksGrow(v2, ev);
    ChecksGrow(v3, ev);
    KindGrows(CheckTimerDue(v3, ev), ev.seqNo, ev.kind);
  }

  lemma ChecksGrow(v: VState, ev: TraceEvent)
    ensures v.problems <= CheckSeq(v, ev).problems && v.problems <= CheckSeed(v, ev).problems
    ensures v.problems <= CheckEffectDue(v, ev).problems && v.problems <= CheckTimerDue(v, ev).problems
  {
  }

  lemma KindGrows(v: VState, at: U64, k: EventKind)
    ensures v.problems <= CheckKind(v, at, k).problems
  {
    hide LineageProblems;
    hide RecordLineage;
    hide Dequeue;
    hide Enqueue;
    hide Unknown;
    hide When;
  }

  /** Each problem is reported as often as events raise it, and once more if the end of the trace does. */
  lemma ReportExact(events: seq<TraceEvent>, p: Problem)
    ensures multiset(Problems(events))[p] == TimesRaised(events, |events|, p) + Once(RaisedAtEnd(events, p))
  {
    hide HistoryKept;
    hide Raised;
    hide VStep;
    hide Times;
    var n, v := |events|, VFold(events, |events|);
    FoldReports(events, n, p);
    if v.timerDue.Some? { TimesSnoc(v.problems, TimerAtEnd(v.timerDue.value.at), p); }
    var a := v.problems + if v.timerDue.Some? then [TimerAtEnd(v.timerDue.value.at)] else [];
    if v.effectDue.Some? { TimesSnoc(a, DeliverAtEnd(v.effectDue.value.at), p); }
    assert v.problems + [] == v.problems && a + [] == a;
    assert Times(Problems(events), p) == multiset(Problems(events))[p] by { TimesIs(Problems(events), p); }
  }

  lemma TimesIs(ps: seq<Problem>, p: Problem)
    ensures Times(ps, p) == multiset(ps)[p]
  {
  }

  // ---- pending messages and the lineage index ----

  /** How many of the first `n` events are deliveries that hand something over. */
  function HandedCount(events: seq<TraceEvent>, n: nat): nat
    requires n <= |events|
  {
    if n == 0 then 0 else HandedCount(events, n - 1) + Once(Handed(events, n - 1).Some?)
  }

  lemma {:induction false} QueuesWait(events: seq<TraceEvent>, n: nat, key: (Uuid, Uuid))
    requires n <= |events|
    ensures QueueOf(QueuesAt(events, n), key) == Waiting(events, n, key)
    decreases n
  {
    if n > 0 { QueuesWait(events, n - 1, key); }
  }

  lemma {:induction false} PendingFold(events: seq<TraceEvent>, n: nat)
    requires n <= |events|
    ensures TotalLength(QueuesAt(events, n)) + HandedCount(events, n) == ProducedCount(events, n)
    decreases n
  {
    if n > 0 {
      hide Waiting;
      hide TotalLength;
      hide Enqueue;
      hide Dequeue;
      PendingFold(events, n - 1);
      var k, before := events[n - 1].kind, QueuesAt(events, n - 1);
      if k.Send? || k.NetRecv? {
        TotalEnqueue(before, (k.to, k.msgId), k.payload);
      } else if k.Deliver? {
        var key := (k.to, k.msgId);
        QueuesWait(events, n - 1, key);
        if QueueOf(before, key) != [] { TotalDequeue(before, key); } else { EmptyGone(before, key); }
      }
    } else {
      NoQueues();
    }
  }

  lemma NoQueues()
    ensures TotalLength<(Uuid, Uuid), Payload>(map[]) == 0
  {
  }

  lemma EmptyGone<K, V>(m: map<K, seq<V>>, k: K)
    requires QueueOf(m, k) == []
    ensures TotalLength(m - {k}) == TotalLength(m)
  {
    if k in m { TotalSplit(m, k); } else { assert m - {k} == m; }
  }

  /** Whatever is wrong with a trace, the pending messages are the productions that no delivery has taken. */
  lemma PendingExact(events: seq<TraceEvent>)
    ensures PendingMessages(events) == ProducedCount(events, |events|) - HandedCount(events, |events|)
  {
    FoldQueues(events, |events|);
    PendingFold(events, |events|);
  }

  lemma {:induction false} FoldQueues(events: seq<TraceEvent>, n: nat)
    requires n <= |events|
    ensures VFold(events, n).produced == QueuesAt(events, n)
    decreases n
  {
    hide VStep;
    hide ProducedAfter;
    if n > 0 {
      FoldQueues(events, n - 1);
      ProducedStep(VFold(events, n - 1), events[n - 1]);
    }
  }

  /** The index of the latest delivery that can be indexed under a key: its payload decodes, has a
      provenance, and names the key's node as its sender. */
  function LatestIndexed(events: seq<TraceEvent>, n: nat, key: LineageKey): Option<nat>
    requires n <= |events|
    ensures LatestIndexed(events, n, key).Some? ==>
              var j := LatestIndexed(events, n, key).value;
              && j < n && events[j].kind.Deliver? && Handed(events, j).Some?
              && Handed(events, j).value.Message? && Handed(events, j).value.msg.provenance.Some?
  {
    if n == 0 then None
    else
      var h := Handed(events, n - 1);
      if h.Some? && h.value.Message? && h.value.msg.provenance.Some? && h.value.msg.fromNode.Parsed() == Some(key.0)
         && events[n - 1].kind.msgId == key.1
      then Some(n - 1)
      else LatestIndexed(events, n - 1, key)
  }

  /** The lineage index holds, under each key, the latest such delivery as the trace has it. */
  lemma {:induction false} IndexMeans(events: seq<TraceEvent>, n: nat, key: LineageKey)
    requires n <= |events|
    ensures match LatestIndexed(events, n, key)
            case None => key !in IndexAt(events, n)
            case Some(j) =>
              var msg, k := Handed(events, j).value.msg, events[j].kind;
              && key in IndexAt(events, n)
              && IndexAt(events, n)[key] ==
                 LineageRecord(key, events[j].seqNo, k.node, k.to, msg.fromService, msg.msgType, msg.provenance.value)
    decreases n
  {
    if n > 0 {
      hide Waiting;
      hide QueuesAt;
      IndexMeans(events, n - 1, key);
      var k := events[n - 1].kind;
      if k.Deliver? { QueuesWait(events, n - 1, (k.to, k.msgId)); }
    }
  }
}
