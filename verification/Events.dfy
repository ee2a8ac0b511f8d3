/** Messages, provenance and trace events. */
module Events {
  import opened Base

  /** The text of a field that should hold a UUID: as this system prints it, spelled some other
      way that still parses (upper case, braces, ...), or not a UUID at all. */
  datatype IdText =
    | Canonical(id: Uuid)
    | Spelled(id: Uuid, text: string)
    | NotAnId(text: string)
  {
    function Parsed(): Option<Uuid> {
      match this
      case Canonical(id) => Some(id)
      case Spelled(id, _) => Some(id)
      case NotAnId(_) => None
    }

    predicate IsEmpty() { this == NotAnId("") }
  }

  datatype Provenance = Provenance(
    originNode: IdText,
    originService: string,
    originMsgId: IdText,
    parentNode: IdText,
    parentMsgId: IdText,
    hops: U64)

  datatype RuntimeMessage = RuntimeMessage(
    msgType: string,
    fromNode: IdText,
    fromService: string,
    text: string,
    provenance: Option<Provenance>)

  /** A JSON payload: one that decodes to a runtime message, or one that does not. */
  datatype Payload = Message(msg: RuntimeMessage) | Undecodable(tag: nat)

  datatype Effect = Log | StateRead | StateWrite | SendLocal | SendRemote | TimerLocal | TimerRemote

  datatype FaultAction = Drop | Delay(steps: U64) | Reorder(window: nat)

  datatype EventKind =
    | Spawn(node: Uuid, actor: Uuid, service: string)
    | Send(from: Uuid, to: Uuid, msgId: Uuid, payload: Payload)
    | Deliver(node: Uuid, to: Uuid, msgId: Uuid)
    | TimerFired(node: Uuid, from: Uuid, timerId: Uuid)
    | NetRecv(node: Uuid, fromNode: Uuid, to: Uuid, msgId: Uuid, payload: Payload)
    | NetSend(node: Uuid, toNode: Uuid, from: Uuid, msgId: Uuid, payload: Payload)
    | LogLine(node: Uuid, from: Uuid, service: string, text: string)
    | EffectObserved(node: Uuid, actor: Uuid, service: string, msgType: string, msgId: Uuid,
                     declared: seq<Effect>, observed: seq<Effect>)
    | FaultInjected(node: Uuid, fromNode: Uuid, to: Uuid, msgId: Uuid, action: FaultAction)
    | FaultPolicyEvent(node: Uuid, step: U64, dropEvery: Option<U64>, delaySteps: U64, reorderWindow: nat)

  datatype TraceEvent = TraceEvent(seqNo: U64, seed: U64, kind: EventKind)

  datatype WireEnvelope = WireEnvelope(fromNode: Uuid, toNode: Uuid, toActor: Uuid, msgId: Uuid, payload: Payload)

  /** The events a replaying node takes from the trace as its inputs; every other event is one the
      node must produce itself. */
  predicate IsInput(ev: EventKind) {
    ev.NetRecv? || ev.Deliver? || ev.TimerFired? || ev.FaultInjected? || ev.FaultPolicyEvent?
  }

  /** The events `verify_replay_emits` refuses right after an expected block. */
  predicate IsHandlerEmission(ev: EventKind) {
    ev.Send? || ev.NetSend? || ev.LogLine? || ev.EffectObserved?
  }
}
