/** What a clean report of the single-trace verifier means, stated over the trace itself. */
module VerifyMeaning {
  import opened Base
  import opened Events
  import opened Queues
  import opened VerifySpec

  predicate Produces(k: EventKind, key: (Uuid, Uuid)) {
    (k.Send? || k.NetRecv?) && (k.to, k.msgId) == key
  }

  predicate Delivers(k: EventKind, key: (Uuid, Uuid)) {
    k.Deliver? && (k.to, k.msgId) == key
  }

  /** The payloads sent to or received for an actor under a message id in the first `n` events. */
  function Productions(events: seq<TraceEvent>, n: nat, key: (Uuid, Uuid)): seq<Payload>
    requires n <= |events|
  {
    if n == 0 then []
    else Productions(events, n - 1, key) + if Produces(events[n - 1].kind, key) then [events[n - 1].kind.payload] else []
  }

  function Deliveries(events: seq<TraceEvent>, n: nat, key: (Uuid, Uuid)): nat
    requires n <= |events|
  {
    if n == 0 then 0
    else Deliveries(events, n - 1, key) + if Delivers(events[n - 1].kind, key) then 1 else 0
  }

  function ProducedCount(events: seq<TraceEvent>, n: nat): nat
    requires n <= |events|
  {
    if n == 0 then 0
    else ProducedCount(events, n - 1) + if events[n - 1].kind.Send? || events[n - 1].kind.NetRecv? then 1 else 0
  }

  function DeliveredCount(events: seq<TraceEvent>, n: nat): nat
    requires n <= |events|
  {
    if n == 0 then 0
    else DeliveredCount(events, n - 1) + if events[n - 1].kind.Deliver? then 1 else 0
  }

  function Spawned(events: seq<TraceEvent>, n: nat): set<Uuid>
    requires n <= |events|
  {
    if n == 0 then {}
    else Spawned(events, n - 1) + if events[n - 1].kind.Spawn? then {events[n - 1].kind.actor} else {}
  }

  function DroppedKeys(events: seq<TraceEvent>, n: nat): set<(Uuid, Uuid, Uuid)>
    requires n <= |events|
  {
    if n == 0 then {}
    else
      var k := events[n - 1].kind;
      DroppedKeys(events, n - 1) + if k.FaultInjected? && k.action.Drop? then {(k.fromNode, k.to, k.msgId)} else {}
  }

  /** The delivery at index `i` has a message to deliver: fewer deliveries than productions before. */
  predicate Sourced(events: seq<TraceEvent>, i: nat)
    requires i < |events| && events[i].kind.Deliver?
  {
    var key := (events[i].kind.to, events[i].kind.msgId);
    Deliveries(events, i, key) < |Productions(events, i, key)|
  }

  /** The payload the delivery at index `i` hands over: first produced, first delivered. */
  function DeliveredPayload(events: seq<TraceEvent>, i: nat): Payload
    requires i < |events| && events[i].kind.Deliver? && Sourced(events, i)
  {
    var key := (events[i].kind.to, events[i].kind.msgId);
    Productions(events, i, key)[Deliveries(events, i, key)]
  }

  /** The lineage of what has been delivered, under sender and message id; the latest record counts. */
  function LineageAt(events: seq<TraceEvent>, n: nat): map<LineageKey, Lineage>
    requires n <= |events|
  {
    if n == 0 then map[]
    else if events[n - 1].kind.Deliver? && Sourced(events, n - 1) then
      RecordLineage(events[n - 1].kind.msgId, DeliveredPayload(events, n - 1), LineageAt(events, n - 1))
    else LineageAt(events, n - 1)
  }

  /** A payload's provenance is readable; a root names itself and its sender throughout; any other
      message is not its own parent and, if its parent was delivered here, extends it by one hop and
      keeps its origin. */
  predicate LineageOk(msgId: Uuid, payload: Payload, delivered: map<LineageKey, Lineage>) {
    var r := ReadPayload(0, payload);
    && r.Read?
    && (if r.lineage.hops == 0 then
          && r.lineage.originMsgId == msgId
          && r.parent == (r.from, msgId)
          && r.lineage.originNode == r.msg.fromNode
          && r.lineage.originService == r.msg.fromService
        else
          && r.parent != (r.from, msgId)
          && (r.parent in delivered ==> r.lineage == delivered[r.parent].(hops := SatAdd(delivered[r.parent].hops, 1))))
  }

  predicate Known(events: seq<TraceEvent>, i: nat, actor: Uuid)
    requires i <= |events|
  {
    Spawned(events, i) == {} || actor in Spawned(events, i)
  }

  predicate Answers(k: EventKind, deliver: EventKind)
    requires deliver.Deliver?
  {
    k.EffectObserved? && k.node == deliver.node && k.actor == deliver.to && k.msgId == deliver.msgId
  }

  ghost predicate KindOk(events: seq<TraceEvent>, i: nat)
    requires i < |events|
  {
    match events[i].kind
    case Spawn(_, actor, _) => actor !in Spawned(events, i)
    case Send(from, to, _, _) => Known(events, i, from) && Known(events, i, to)
    case NetRecv(_, fromNode, to, msgId, _) => Known(events, i, to) && (fromNode, to, msgId) !in DroppedKeys(events, i)
    case Deliver(_, to, msgId) =>
      Known(events, i, to) && Sourced(events, i) && LineageOk(msgId, DeliveredPayload(events, i), LineageAt(events, i))
    case NetSend(_, _, from, _, _) => Known(events, i, from)
    case LogLine(_, from, _, _) => Known(events, i, from)
    case EffectObserved(_, actor, _, _, _, declared, observed) =>
      && Known(events, i, actor)
      && i > 0 && events[i - 1].kind.Deliver?
      && Distinct(declared) && Distinct(observed)
      && (forall e :: e in observed ==> e in declared)
    case _ => true
  }

  function MinU64(i: nat): U64 {
    if i <= U64_MAX then i else U64_MAX
  }

  /** The event at index `i` is in order: it is numbered by its index, carries the run's seed, answers
      the delivery or timer right before it, and fits what came earlier. */
  ghost predicate EventOk(events: seq<TraceEvent>, i: nat)
    requires i < |events|
  {
    && events[i].seqNo == MinU64(i)
    && events[i].seed == events[0].seed
    && (i > 0 && events[i - 1].kind.Deliver? ==> Answers(events[i].kind, events[i - 1].kind))
    && (i > 0 && events[i - 1].kind.TimerFired? ==> IsSend(events[i].kind) && events[i].kind.from == events[i - 1].kind.from)
    && KindOk(events, i)
  }

  ghost predicate TraceOk(events: seq<TraceEvent>) {
    && (forall i :: 0 <= i < |events| ==> EventOk(events, i))
    && (events != [] ==> !events[|events| - 1].kind.Deliver? && !events[|events| - 1].kind.TimerFired?)
  }

  // ---- proof ----

  lemma {:induction false} DistinctBySize<T>(s: seq<T>)
    ensures |set e | e in s| <= |s|
    ensures |set e | e in s| == |s| <==> Distinct(s)
  {
    var all := set e | e in s;
    if s != [] {
      var rest := set e | e in s[1..];
      DistinctBySize(s[1..]);
      assert all == rest + {s[0]};
      if s[0] in s[1..] {
        assert all == rest;
        var j :| 0 <= j < |s[1..]| && s[1..][j] == s[0];
        assert s[0] == s[j + 1];
      } else {
        assert |all| == |rest| + 1;
        if Distinct(s[1..]) { DistinctCons(s); }
        if Distinct(s) {
          forall i, j | 0 <= i < j < |s[1..]| ensures s[1..][i] != s[1..][j] { assert s[i + 1] != s[j + 1]; }
        }
      }
    }
  }

  lemma DistinctCons<T>(s: seq<T>)
    requires s != [] && Distinct(s[1..]) && s[0] !in s[1..]
    ensures Distinct(s)
  {
    forall i, j | 0 <= i < j < |s| ensures s[i] != s[j] {
      assert s[j] == s[1..][j - 1];
      if i > 0 { assert s[i] == s[1..][i - 1]; }
    }
  }

  lemma LineageProblemsMean(at: U64, msgId: Uuid, payload: Payload, delivered: map<LineageKey, Lineage>)
    ensures LineageProblems(at, msgId, payload, delivered) == [] <==> LineageOk(msgId, payload, delivered)
  {
  }

  /** The verifier's state after `n` events that were all in order. */
  ghost predicate Tracks(events: seq<TraceEvent>, n: nat, v: VState)
    requires n <= |events|
  {
    && v.problems == []
    && v.expectedSeq == MinU64(n)
    && v.seed == (if n == 0 then None else Some(events[0].seed))
    && v.spawned.Keys == Spawned(events, n)
    && v.delivered == LineageAt(events, n)
    && v.dropped == DroppedKeys(events, n)
    && v.timerDue == (if n > 0 && events[n - 1].kind.TimerFired?
                      then Some(TimerMark(MinU64(n - 1), events[n - 1].kind.from)) else None)
    && v.effectDue == (if n > 0 && events[n - 1].kind.Deliver?
                       then Some(DeliverMark(MinU64(n - 1), events[n - 1].kind.node, events[n - 1].kind.to, events[n - 1].kind.msgId))
                       else None)
    && QueuesTrack(events, n, v.produced)
  }

  /** Each queue holds what was produced and not yet delivered, oldest first. */
  ghost predicate QueuesTrack(events: seq<TraceEvent>, n: nat, produced: map<(Uuid, Uuid), seq<Payload>>)
    requires n <= |events|
  {
    && (forall key: (Uuid, Uuid) :: KeyTracks(events, n, produced, key))
    && TotalLength(produced) + DeliveredCount(events, n) == ProducedCount(events, n)
  }

  ghost predicate KeyTracks(events: seq<TraceEvent>, n: nat, produced: map<(Uuid, Uuid), seq<Payload>>, key: (Uuid, Uuid))
    requires n <= |events|
  {
    && Deliveries(events, n, key) <= |Productions(events, n, key)|
    && QueueOf(produced, key) == Productions(events, n, key)[Deliveries(events, n, key)..]
  }

  lemma KindKeepsProblems(v: VState, at: U64, k: EventKind)
    ensures v.problems != [] ==> CheckKind(v, at, k).problems != []
  {
    hide LineageProblems;
    hide RecordLineage;
    hide Dequeue;
    hide Enqueue;
  }

  lemma ChecksKeepProblems(v: VState, ev: TraceEvent)
    ensures v.problems != [] ==> CheckSeq(v, ev).problems != []
    ensures v.problems != [] ==> CheckSeed(v, ev).problems != []
    ensures v.problems != [] ==> CheckEffectDue(v, ev).problems != []
    ensures v.problems != [] ==> CheckTimerDue(v, ev).problems != []
  {
  }

  lemma ProblemsStay(v: VState, ev: TraceEvent)
    requires v.problems != []
    ensures VStep(v, ev).problems != []
  {
    hide CheckKind;
    hide CheckSeq;
    hide CheckSeed;
    hide CheckEffectDue;
    hide CheckTimerDue;
    var v1 := CheckSeq(v, ev);
    var v2 := CheckSeed(v1, ev);
    var v3 := CheckEffectDue(v2, ev);
    ChecksKeepProblems(v, ev);
    ChecksKeepProblems(v1, ev);
    ChecksKeepProblems(v2, ev);
    ChecksKeepProblems(v3, ev);
    KindKeepsProblems(CheckTimerDue(v3, ev), ev.seqNo, ev.kind);
  }

  lemma ProductionsStep(events: seq<TraceEvent>, n: nat, key: (Uuid, Uuid))
    requires n < |events|
    ensures Productions(events, n + 1, key) ==
            if Produces(events[n].kind, key) then Productions(events, n, key) + [events[n].kind.payload]
            else Productions(events, n, key)
    ensures Deliveries(events, n + 1, key) == Deliveries(events, n, key) + if Delivers(events[n].kind, key) then 1 else 0
  {
  }

  lemma CountsStep(events: seq<TraceEvent>, n: nat)
    requires n < |events|
    ensures ProducedCount(events, n + 1) == ProducedCount(events, n) + if events[n].kind.Send? || events[n].kind.NetRecv? then 1 else 0
    ensures DeliveredCount(events, n + 1) == DeliveredCount(events, n) + if events[n].kind.Deliver? then 1 else 0
  {
  }

  lemma EnqueueTracks(events: seq<TraceEvent>, n: nat, produced: map<(Uuid, Uuid), seq<Payload>>)
    requires n < |events| && (events[n].kind.Send? || events[n].kind.NetRecv?) && QueuesTrack(events, n, produced)
    ensures QueuesTrack(events, n + 1, Enqueue(produced, (events[n].kind.to, events[n].kind.msgId), events[n].kind.payload))
  {
    var k := events[n].kind;
    var after := Enqueue(produced, (k.to, k.msgId), k.payload);
    TotalEnqueue(produced, (k.to, k.msgId), k.payload);
    CountsStep(events, n);
    var m := n + 1;
    forall key: (Uuid, Uuid) ensures KeyTracks(events, m, after, key) {
      ProductionsStep(events, n, key);
      assert KeyTracks(events, n, produced, key);
    }
  }

  lemma DequeueTracks(events: seq<TraceEvent>, n: nat, produced: map<(Uuid, Uuid), seq<Payload>>)
    requires n < |events| && events[n].kind.Deliver? && Sourced(events, n) && QueuesTrack(events, n, produced)
    ensures var key := (events[n].kind.to, events[n].kind.msgId);
            key in produced && produced[key] != [] && produced[key][0] == DeliveredPayload(events, n)
            && QueuesTrack(events, n + 1, Dequeue(produced, key))
  {
    var k := (events[n].kind.to, events[n].kind.msgId);
    assert KeyTracks(events, n, produced, k);
    var after := Dequeue(produced, k);
    TotalDequeue(produced, k);
    CountsStep(events, n);
    var m := n + 1;
    forall key: (Uuid, Uuid) ensures KeyTracks(events, m, after, key) {
      ProductionsStep(events, n, key);
      assert KeyTracks(events, n, produced, key);
      if key == k { assert QueueOf(after, key) == QueueOf(produced, key)[1..]; }
    }
  }

  lemma OtherTracks(events: seq<TraceEvent>, n: nat, produced: map<(Uuid, Uuid), seq<Payload>>)
    requires n < |events| && !events[n].kind.Send? && !events[n].kind.NetRecv? && !events[n].kind.Deliver?
    requires QueuesTrack(events, n, produced)
    ensures QueuesTrack(events, n + 1, produced)
  {
    CountsStep(events, n);
    var m := n + 1;
    forall key: (Uuid, Uuid) ensures KeyTracks(events, m, produced, key) {
      ProductionsStep(events, n, key);
      assert KeyTracks(events, n, produced, key);
    }
  }

  /** One more event: the verifier stays clean exactly when the event is in order. */
  lemma StepTracks(events: seq<TraceEvent>, n: nat, v: VState)
    requires n < |events| && Tracks(events, n, v)
    ensures VStep(v, events[n]).problems == [] <==> EventOk(events, n)
    ensures EventOk(events, n) ==> Tracks(events, n + 1, VStep(v, events[n]))
  {
    var ev := events[n];
    var v1 := CheckTimerDue(CheckEffectDue(CheckSeed(CheckSeq(v, ev), ev), ev), ev);
    FramingTracks(events, n, v);
    KindTracks(events, n, v1);
  }

  /** What the checks before the event's own kind leave behind. */
  ghost predicate Framed(events: seq<TraceEvent>, n: nat, v: VState)
    requires n < |events|
  {
    && v.expectedSeq == MinU64(n + 1)
    && v.seed == Some(events[0].seed)
    && v.spawned.Keys == Spawned(events, n)
    && v.delivered == LineageAt(events, n)
    && v.dropped == DroppedKeys(events, n)
    && v.timerDue == None
    && QueuesTrack(events, n, v.produced)
    && v.problems == []
    && v.effectDue == (if n > 0 && events[n - 1].kind.Deliver? && events[n].kind.EffectObserved?
                       then Some(DeliverMark(MinU64(n - 1), events[n - 1].kind.node, events[n - 1].kind.to, events[n - 1].kind.msgId))
                       else None)
  }

  ghost predicate FrameOk(events: seq<TraceEvent>, n: nat)
    requires n < |events|
  {
    && events[n].seqNo == MinU64(n)
    && events[n].seed == events[0].seed
    && (n > 0 && events[n - 1].kind.Deliver? ==> events[n].kind.EffectObserved?)
    && (n > 0 && events[n - 1].kind.TimerFired? ==> IsSend(events[n].kind) && events[n].kind.from == events[n - 1].kind.from)
  }

  lemma NumberingForm(v: VState, ev: TraceEvent)
    ensures var w := CheckSeed(CheckSeq(v, ev), ev);
            && w == v.(expectedSeq := SatAdd(ev.seqNo, 1), seed := Some(if v.seed == None then ev.seed else v.seed.value),
                       problems := w.problems)
            && (w.problems == [] <==>
                  v.problems == [] && ev.seqNo == v.expectedSeq && (v.seed.Some? ==> v.seed.value == ev.seed))
  {
  }

  lemma AnswerForm(v: VState, ev: TraceEvent)
    ensures var w := CheckTimerDue(CheckEffectDue(v, ev), ev);
            && w == v.(timerDue := None, effectDue := if ev.kind.EffectObserved? then v.effectDue else None, problems := w.problems)
            && (w.problems == [] <==>
                  && v.problems == []
                  && (v.effectDue.Some? ==> ev.kind.EffectObserved?)
                  && (v.timerDue.Some? ==> IsSend(ev.kind) && ev.kind.from == v.timerDue.value.from))
  {
  }

  lemma FramingTracks(events: seq<TraceEvent>, n: nat, v: VState)
    requires n < |events| && Tracks(events, n, v)
    ensures var ev := events[n];
            var v1 := CheckTimerDue(CheckEffectDue(CheckSeed(CheckSeq(v, ev), ev), ev), ev);
            (v1.problems == [] <==> FrameOk(events, n)) && (FrameOk(events, n) ==> Framed(events, n, v1))
  {
    hide LineageAt;
    hide QueuesTrack;
    hide DroppedKeys;
    hide Spawned;
    hide CheckSeq;
    hide CheckSeed;
    hide CheckEffectDue;
    hide CheckTimerDue;
    NumberingForm(v, events[n]);
    AnswerForm(CheckSeed(CheckSeq(v, events[n]), events[n]), events[n]);
  }

  ghost predicate StepsRight(events: seq<TraceEvent>, n: nat, v: VState)
    requires n < |events|
  {
    var w := CheckKind(v, events[n].seqNo, events[n].kind);
    (w.problems == [] <==> EventOk(events, n)) && (EventOk(events, n) ==> Tracks(events, n + 1, w))
  }

  lemma KindTracks(events: seq<TraceEvent>, n: nat, v: VState)
    requires n < |events|
    requires v.problems == [] <==> FrameOk(events, n)
    requires v.problems == [] ==> Framed(events, n, v)
    ensures StepsRight(events, n, v)
  {
    hide CheckKind;
    hide Framed;
    hide Tracks;
    if v.problems == [] {
      var k := events[n].kind;
      if k.Send? || k.NetRecv? {
        ProductionTracks(events, n, v);
      } else if k.Deliver? {
        DeliverTracks(events, n, v);
      } else if k.EffectObserved? {
        EffectTracks(events, n, v);
      } else {
        RestTracks(events, n, v);
      }
    } else {
      KindKeepsProblems(v, events[n].seqNo, events[n].kind);
    }
  }

  lemma ProductionTracks(events: seq<TraceEvent>, n: nat, v: VState)
    requires n < |events| && FrameOk(events, n) && Framed(events, n, v)
    requires events[n].kind.Send? || events[n].kind.NetRecv?
    ensures StepsRight(events, n, v)
  {
    hide CheckDeliver;
    hide CheckEffects;
    hide QueuesTrack;
    EnqueueTracks(events, n, v.produced);
  }

  lemma EffectTracks(events: seq<TraceEvent>, n: nat, v: VState)
    requires n < |events| && FrameOk(events, n) && Framed(events, n, v) && events[n].kind.EffectObserved?
    ensures StepsRight(events, n, v)
  {
    hide CheckDeliver;
    hide QueuesTrack;
    hide Distinct;
    OtherTracks(events, n, v.produced);
    DistinctBySize(events[n].kind.declared);
    DistinctBySize(events[n].kind.observed);
  }

  lemma RestTracks(events: seq<TraceEvent>, n: nat, v: VState)
    requires n < |events| && FrameOk(events, n) && Framed(events, n, v)
    requires var k := events[n].kind; !k.Send? && !k.NetRecv? && !k.Deliver? && !k.EffectObserved?
    ensures StepsRight(events, n, v)
  {
    hide StepsRight;
    var k := events[n].kind;
    if k.Spawn? {
      SpawnTracks(events, n, v);
    } else if k.NetSend? || k.LogLine? {
      EmissionTracks(events, n, v);
    } else {
      InputTracks(events, n, v);
    }
  }

  lemma SpawnTracks(events: seq<TraceEvent>, n: nat, v: VState)
    requires n < |events| && FrameOk(events, n) && Framed(events, n, v) && events[n].kind.Spawn?
    ensures StepsRight(events, n, v)
  {
    hide CheckDeliver;
    hide CheckEffects;
    hide QueuesTrack;
    hide Enqueue;
    OtherTracks(events, n, v.produced);
  }

  lemma EmissionTracks(events: seq<TraceEvent>, n: nat, v: VState)
    requires n < |events| && FrameOk(events, n) && Framed(events, n, v) && (events[n].kind.NetSend? || events[n].kind.LogLine?)
    ensures StepsRight(events, n, v)
  {
    hide CheckDeliver;
    hide CheckEffects;
    hide QueuesTrack;
    hide Enqueue;
    OtherTracks(events, n, v.produced);
  }

  lemma InputTracks(events: seq<TraceEvent>, n: nat, v: VState)
    requires n < |events| && FrameOk(events, n) && Framed(events, n, v)
    requires var k := events[n].kind; k.TimerFired? || k.FaultInjected? || k.FaultPolicyEvent?
    ensures StepsRight(events, n, v)
  {
    hide CheckDeliver;
    hide CheckEffects;
    hide QueuesTrack;
    hide Enqueue;
    OtherTracks(events, n, v.produced);
  }

  lemma DeliverTracks(events: seq<TraceEvent>, n: nat, v: VState)
    requires n < |events| && FrameOk(events, n) && Framed(events, n, v) && events[n].kind.Deliver?
    ensures StepsRight(events, n, v)
  {
    hide LineageProblems;
    hide LineageOk;
    var key := (events[n].kind.to, events[n].kind.msgId);
    assert KeyTracks(events, n, v.produced, key);
    if Sourced(events, n) {
      DequeueTracks(events, n, v.produced);
      LineageProblemsMean(events[n].seqNo, events[n].kind.msgId, DeliveredPayload(events, n), v.delivered);
    }
  }

  lemma {:induction false} FoldTracks(events: seq<TraceEvent>, n: nat)
    requires n <= |events|
    ensures VFold(events, n).problems == [] <==> forall i :: 0 <= i < n ==> EventOk(events, i)
    ensures VFold(events, n).problems == [] ==> Tracks(events, n, VFold(events, n))
  {
    hide VStep;
    hide EventOk;
    if n > 0 {
      FoldTracks(events, n - 1);
      if VFold(events, n - 1).problems == [] {
        StepTracks(events, n - 1, VFold(events, n - 1));
      } else {
        ProblemsStay(VFold(events, n - 1), events[n - 1]);
      }
    }
  }

  /** A trace gets a clean report exactly when every event in it is in order and it does not end in
      an unanswered delivery or timer; the reported pending messages are then the productions not
      yet delivered. */
  lemma CleanMeans(events: seq<TraceEvent>)
    ensures Problems(events) == [] <==> TraceOk(events)
    ensures Problems(events) == [] ==>
              PendingMessages(events) == ProducedCount(events, |events|) - DeliveredCount(events, |events|)
  {
    FoldTracks(events, |events|);
  }
}
