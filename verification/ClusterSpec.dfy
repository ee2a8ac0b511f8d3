/** The cluster verifier: what makes its report clean, and the numbers it reports. */
module ClusterSpec {
  import opened Base
  import opened Events
  import opened VerifySpec
  import opened LineageSpec

  type Trace = seq<TraceEvent>

  /** Sender, message id, receiver. */
  type ClusterKey = (Uuid, Uuid, Uuid)

  function LocalNode(k: EventKind): Option<Uuid> {
    match k
    case Spawn(node, _, _) => Some(node)
    case Deliver(node, _, _) => Some(node)
    case TimerFired(node, _, _) => Some(node)
    case NetRecv(node, _, _, _, _) => Some(node)
    case NetSend(node, _, _, _, _) => Some(node)
    case LogLine(node, _, _, _) => Some(node)
    case EffectObserved(node, _, _, _, _, _, _) => Some(node)
    case FaultInjected(node, _, _, _, _) => Some(node)
    case FaultPolicyEvent(node, _, _, _, _) => Some(node)
    case Send(_, _, _, _) => None
  }

  function LocalNodes(trace: Trace): set<Uuid> {
    set ev | ev in trace && LocalNode(ev.kind).Some? :: LocalNode(ev.kind).value
  }

  function Included(traces: seq<Trace>): set<Uuid> {
    if traces == [] then {} else Included(traces[..|traces| - 1]) + LocalNodes(traces[|traces| - 1])
  }

  /** All events of all traces, in the order the verifier reads them. */
  function AllEvents(traces: seq<Trace>): seq<EventKind> {
    if traces == [] then [] else AllEvents(traces[..|traces| - 1]) + Kinds(traces[|traces| - 1])
  }

  function Kinds(trace: Trace): (r: seq<EventKind>)
    ensures |r| == |trace|
  {
    if trace == [] then [] else Kinds(trace[..|trace| - 1]) + [trace[|trace| - 1].kind]
  }

  /** Network evidence: a message that was sent, received or dropped. */
  datatype Evidence = SentNote | ReceivedNote | DroppedNote
  datatype Note = Note(what: Evidence, key: ClusterKey, payload: Option<Payload>)

  function NoteOf(k: EventKind): Option<Note> {
    match k
    case NetSend(node, toNode, _, msgId, payload) => Some(Note(SentNote, (node, msgId, toNode), Some(payload)))
    case NetRecv(node, fromNode, _, msgId, payload) => Some(Note(ReceivedNote, (fromNode, msgId, node), Some(payload)))
    case FaultInjected(node, fromNode, _, msgId, action) =>
      if action.Drop? then Some(Note(DroppedNote, (fromNode, msgId, node), None)) else None
    case _ => None
  }

  /** The evidence of one kind, in order. */
  function Notes(kinds: seq<EventKind>, what: Evidence): seq<Note> {
    if kinds == [] then []
    else
      var note := NoteOf(kinds[|kinds| - 1]);
      Notes(kinds[..|kinds| - 1], what) + if note.Some? && note.value.what == what then [note.value] else []
  }

  /** The table the verifier collects the notes in; a repeated key replaces the earlier entry. */
  function Table(notes: seq<Note>): map<ClusterKey, Option<Payload>> {
    if notes == [] then map[]
    else Table(notes[..|notes| - 1])[notes[|notes| - 1].key := notes[|notes| - 1].payload]
  }

  function SendTable(traces: seq<Trace>): map<ClusterKey, Option<Payload>> { Table(Notes(AllEvents(traces), SentNote)) }

  function RecvTable(traces: seq<Trace>): map<ClusterKey, Option<Payload>> { Table(Notes(AllEvents(traces), ReceivedNote)) }

  function DropTable(traces: seq<Trace>): map<ClusterKey, Option<Payload>> { Table(Notes(AllEvents(traces), DroppedNote)) }

  ghost predicate KeysOnce(notes: seq<Note>) {
    forall i, j :: 0 <= i < j < |notes| ==> notes[i].key != notes[j].key
  }

  function GlobalIndex(traces: seq<Trace>): LineageIndex {
    if traces == [] then map[] else GlobalIndex(traces[..|traces| - 1]) + IndexOf(traces[|traces| - 1])
  }

  // ---- a clean report ----

  ghost predicate OneNodeEach(traces: seq<Trace>) {
    forall i :: 0 <= i < |traces| ==> |LocalNodes(traces[i])| == 1
  }

  ghost predicate EvidenceOnce(traces: seq<Trace>) {
    && KeysOnce(Notes(AllEvents(traces), SentNote))
    && KeysOnce(Notes(AllEvents(traces), ReceivedNote))
    && KeysOnce(Notes(AllEvents(traces), DroppedNote))
  }

  predicate RecvOk(traces: seq<Trace>, key: ClusterKey)
    requires key in RecvTable(traces)
  {
    key.0 in Included(traces) ==> key in SendTable(traces) && SendTable(traces)[key] == RecvTable(traces)[key]
  }

  predicate DropOk(traces: seq<Trace>, key: ClusterKey) {
    key.0 in Included(traces) ==> key in SendTable(traces)
  }

  predicate SendOk(traces: seq<Trace>, key: ClusterKey) {
    key.2 in Included(traces) ==> (key in RecvTable(traces) <==> key !in DropTable(traces))
  }

  ghost predicate NetworkOk(traces: seq<Trace>) {
    && (forall key :: key in RecvTable(traces) ==> RecvOk(traces, key))
    && (forall key :: key in DropTable(traces) ==> DropOk(traces, key))
    && (forall key :: key in SendTable(traces) ==> SendOk(traces, key))
  }

  /** A message is delivered in one trace only. */
  ghost predicate DeliveredOnce(traces: seq<Trace>) {
    forall i, j, key :: 0 <= i < j < |traces| && key in IndexOf(traces[i]) ==> key !in IndexOf(traces[j])
  }

  predicate ParentOk(traces: seq<Trace>, key: LineageKey)
    requires key in GlobalIndex(traces)
  {
    var index := GlobalIndex(traces);
    var rec := index[key];
    rec.provenance.hops > 0 ==>
      && ParentKey(rec).Some?
      && (if ParentKey(rec).value in index then Continues(rec.provenance, index[ParentKey(rec).value].provenance)
          else ParentKey(rec).value.0 !in Included(traces))
  }

  ghost predicate ParentsOk(traces: seq<Trace>) {
    forall key :: key in GlobalIndex(traces) ==> ParentOk(traces, key)
  }

  /** What a cluster report without problems says about the traces. */
  ghost predicate ClusterOk(traces: seq<Trace>) {
    && OneNodeEach(traces) && EvidenceOnce(traces) && NetworkOk(traces) && DeliveredOnce(traces) && ParentsOk(traces)
  }

  // ---- the numbers in the report ----

  function MatchedRecvs(traces: seq<Trace>): set<ClusterKey> {
    set key | key in RecvTable(traces) && key.0 in Included(traces) && key in SendTable(traces)
              && SendTable(traces)[key] == RecvTable(traces)[key]
  }

  function MatchedDrops(traces: seq<Trace>): set<ClusterKey> {
    set key | key in DropTable(traces) && key.0 in Included(traces) && key in SendTable(traces)
  }

  function ExternalSends(traces: seq<Trace>): set<ClusterKey> {
    set key | key in SendTable(traces) && key.2 !in Included(traces)
  }

  function ExternalRecvs(traces: seq<Trace>): set<ClusterKey> {
    set key | key in RecvTable(traces) && key.0 !in Included(traces)
  }

  function ExternalDrops(traces: seq<Trace>): set<ClusterKey> {
    set key | key in DropTable(traces) && key.0 !in Included(traces)
  }

  function ResolvedParents(traces: seq<Trace>): set<LineageKey> {
    set key | key in GlobalIndex(traces) && HasParent(GlobalIndex(traces)[key])
              && ParentKey(GlobalIndex(traces)[key]).value in GlobalIndex(traces)
  }

  function ExternalParents(traces: seq<Trace>): set<LineageKey> {
    set key | key in GlobalIndex(traces) && HasParent(GlobalIndex(traces)[key])
              && ParentKey(GlobalIndex(traces)[key]).value !in GlobalIndex(traces)
              && ParentKey(GlobalIndex(traces)[key]).value.0 !in Included(traces)
  }

  /** A record with hops whose parent reference can be read. */
  predicate HasParent(rec: LineageRecord) {
    rec.provenance.hops > 0 && ParentKey(rec).Some?
  }
}
