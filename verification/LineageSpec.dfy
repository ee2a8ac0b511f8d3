/** The lineage index of a trace: the record of every delivery whose payload can be read. */
module LineageSpec {
  import opened Base
  import opened Events
  import opened Queues
  import opened VerifySpec

  type Produced = map<(Uuid, Uuid), seq<Payload>>

  /** What an event does to the queues of produced payloads, whatever else is wrong with it. */
  function ProducedAfter(produced: Produced, k: EventKind): Produced {
    match k
    case Send(_, to, msgId, payload) => Enqueue(produced, (to, msgId), payload)
    case NetRecv(_, _, to, msgId, payload) => Enqueue(produced, (to, msgId), payload)
    case Deliver(_, to, msgId) =>
      if QueueOf(produced, (to, msgId)) == [] then produced - {(to, msgId)} else Dequeue(produced, (to, msgId))
    case _ => produced
  }

  function QueuesAt(events: seq<TraceEvent>, n: nat): Produced
    requires n <= |events|
  {
    if n == 0 then map[] else ProducedAfter(QueuesAt(events, n - 1), events[n - 1].kind)
  }

  datatype LineageRecord = LineageRecord(
    key: LineageKey,
    at: U64,
    localNode: Uuid,
    to: Uuid,
    fromService: string,
    msgType: string,
    provenance: Provenance)

  /** A delivery is indexed when its payload decodes, has a provenance, and names its sender by a UUID. */
  function ReadRecord(ev: TraceEvent, payload: Payload): Option<LineageRecord>
    requires ev.kind.Deliver?
  {
    if payload.Undecodable? || payload.msg.provenance.None? || payload.msg.fromNode.Parsed().None? then None
    else
      var msg := payload.msg;
      Some(LineageRecord((msg.fromNode.Parsed().value, ev.kind.msgId), ev.seqNo, ev.kind.node, ev.kind.to,
                         msg.fromService, msg.msgType, msg.provenance.value))
  }

  type LineageIndex = map<LineageKey, LineageRecord>

  /** A later delivery under the same key replaces the earlier record. */
  function IndexAfter(produced: Produced, index: LineageIndex, ev: TraceEvent): LineageIndex {
    if !ev.kind.Deliver? || QueueOf(produced, (ev.kind.to, ev.kind.msgId)) == [] then index
    else
      match ReadRecord(ev, produced[(ev.kind.to, ev.kind.msgId)][0])
      case None => index
      case Some(rec) => index[rec.key := rec]
  }

  function IndexAt(events: seq<TraceEvent>, n: nat): LineageIndex
    requires n <= |events|
  {
    if n == 0 then map[] else IndexAfter(QueuesAt(events, n - 1), IndexAt(events, n - 1), events[n - 1])
  }

  function IndexOf(events: seq<TraceEvent>): LineageIndex {
    IndexAt(events, |events|)
  }

  /** `lineage_parent_key`: a record without a parent node has its parent at its own sender. */
  function ParentKey(rec: LineageRecord): Option<LineageKey> {
    var node := if rec.provenance.parentNode.IsEmpty() then Some(rec.key.0) else rec.provenance.parentNode.Parsed();
    var msg := rec.provenance.parentMsgId.Parsed();
    if node.Some? && msg.Some? then Some((node.value, msg.value)) else None
  }

  /** The record continues the parent's lineage: one more hop, the same origin as it is written. */
  predicate Continues(rec: Provenance, parent: Provenance) {
    && rec.hops == SatAdd(parent.hops, 1)
    && rec.originMsgId == parent.originMsgId
    && rec.originNode == parent.originNode
    && rec.originService == parent.originService
  }
}
