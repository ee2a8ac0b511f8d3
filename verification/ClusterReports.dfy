/** Which problems the cluster verifier has to report, and how often, said of the traces. */
module ClusterReports {
  import opened Base
  import opened Events
  import opened VerifySpec
  import opened LineageSpec
  import opened ClusterSpec
  import opened ClusterMeaning

  datatype ClusterProblem =
    | NoNodeEvents(trace: nat)
    | MixedNodes(trace: nat)
    | DuplicateNote(what: Evidence, key: ClusterKey)
    | RecvWithoutSend(key: ClusterKey)
    | PayloadMismatch(key: ClusterKey)
    | DropWithoutSend(key: ClusterKey)
    | RecvAndDrop(key: ClusterKey)
    | NeitherRecvNorDrop(key: ClusterKey)
    | DuplicateLineage(record: LineageKey)
    | InvalidParent(record: LineageKey)
    | HopsMismatch(record: LineageKey)
    | OriginMsgMismatch(record: LineageKey)
    | OriginNodeMismatch(record: LineageKey)
    | OriginServiceMismatch(record: LineageKey)
    | MissingParent(record: LineageKey)

  type Notebook = map<ClusterKey, Option<Payload>>
  type Times = ClusterProblem -> nat

  /** How many of so many are repetitions of the first. */
  function Repeats(n: nat): nat { if n == 0 then 0 else n - 1 }

  /** The problems after are those before and, so many times each, new ones. */
  ghost predicate Added(before: seq<ClusterProblem>, after: seq<ClusterProblem>, times: Times) {
    forall p :: multiset(after)[p] == multiset(before)[p] + times(p)
  }

  lemma AddedJoin(a: seq<ClusterProblem>, b: seq<ClusterProblem>, c: seq<ClusterProblem>, f: Times, g: Times, h: Times)
    requires Added(a, b, f) && Added(b, c, g) && forall p :: h(p) == f(p) + g(p)
    ensures Added(a, c, h)
  {
  }

  // ---- what is said about an event ----

  /** This event is evidence that the message was sent, received or dropped. */
  predicate Mentions(k: EventKind, what: Evidence, key: ClusterKey) {
    match what
    case SentNote => k.NetSend? && k.node == key.0 && k.msgId == key.1 && k.toNode == key.2
    case ReceivedNote => k.NetRecv? && k.fromNode == key.0 && k.msgId == key.1 && k.node == key.2
    case DroppedNote => k.FaultInjected? && k.action.Drop? && k.fromNode == key.0 && k.msgId == key.1 && k.node == key.2
  }

  function CountOf(kinds: seq<EventKind>, what: Evidence, key: ClusterKey): nat {
    if kinds == [] then 0
    else CountOf(kinds[..|kinds| - 1], what, key) + Once(Mentions(kinds[|kinds| - 1], what, key))
  }

  /** The payload in the last evidence of a message that was sent or received. */
  function LastPayload(kinds: seq<EventKind>, what: Evidence, key: ClusterKey): Option<Payload>
    requires !what.DroppedNote?
  {
    if kinds == [] then None
    else if Mentions(kinds[|kinds| - 1], what, key) then Some(kinds[|kinds| - 1].payload)
    else LastPayload(kinds[..|kinds| - 1], what, key)
  }

  ghost predicate Mentioned(traces: seq<Trace>, what: Evidence, key: ClusterKey) {
    exists k :: k in AllEvents(traces) && Mentions(k, what, key)
  }

  lemma NoteIsMention(k: EventKind, what: Evidence, key: ClusterKey)
    ensures Mentions(k, what, key) <==> NoteOf(k).Some? && NoteOf(k).value.what == what && NoteOf(k).value.key == key
    ensures Mentions(k, what, key) && !what.DroppedNote? ==> NoteOf(k).value.payload == Some(k.payload)
  {
  }

  lemma {:induction false} CountMeans(kinds: seq<EventKind>, what: Evidence, key: ClusterKey)
    ensures CountOf(kinds, what, key) > 0 <==> exists k :: k in kinds && Mentions(k, what, key)
  {
    hide Mentions;
    if kinds != [] {
      var n := |kinds| - 1;
      CountMeans(kinds[..n], what, key);
      assert kinds == kinds[..n] + [kinds[n]];
      if Mentions(kinds[n], what, key) { assert kinds[n] in kinds; }
    }
  }

  /** The tables hold the last evidence of each message. */
  lemma {:induction false} TablesMean(kinds: seq<EventKind>, what: Evidence, key: ClusterKey)
    ensures key in Table(Notes(kinds, what)) <==> CountOf(kinds, what, key) > 0
    ensures key in Table(Notes(kinds, what)) && !what.DroppedNote? ==> Table(Notes(kinds, what))[key] == LastPayload(kinds, what, key)
  {
    hide NoteOf;
    hide Mentions;
    if kinds != [] {
      hide Table;
      var n := |kinds| - 1;
      var front, note := Notes(kinds[..n], what), NoteOf(kinds[n]);
      TablesMean(kinds[..n], what, key);
      NoteIsMention(kinds[n], what, key);
      if note.Some? && note.value.what == what {
        TableSnoc(front, note.value);
        assert Notes(kinds, what) == front + [note.value];
      } else {
        assert Notes(kinds, what) == front;
      }
    }
  }

  /** Every event but Send is of the node it names, and a cluster has the nodes of such events. */
  lemma {:induction false} IncludedMeans(traces: seq<Trace>, n: Uuid)
    ensures n in Included(traces) <==> exists k :: k in AllEvents(traces) && !k.Send? && k.node == n
  {
    if traces != [] {
      var front, last := traces[..|traces| - 1], traces[|traces| - 1];
      assert traces == front + [last];
      AllSnoc(front, last);
      IncludedMeans(front, n);
      forall k ensures k in Kinds(last) <==> exists ev :: ev in last && ev.kind == k { EventsOfTrace(last, k); }
      LocalNodesMean(last, n);
    }
  }

  lemma LocalNodesMean(trace: Trace, n: Uuid)
    ensures n in LocalNodes(trace) <==> exists ev :: ev in trace && !ev.kind.Send? && ev.kind.node == n
  {
    if ev :| ev in trace && !ev.kind.Send? && ev.kind.node == n { assert LocalNode(ev.kind) == Some(n); }
  }

  /** A record's parent: the message it names, at the node it names, or at its own sender if it names no
      node; nothing if an id does not parse. */
  predicate NamesParent(rec: LineageRecord, parent: LineageKey) {
    && rec.provenance.parentMsgId.Parsed() == Some(parent.1)
    && (if rec.provenance.parentNode == NotAnId("") then parent.0 == rec.key.0 else rec.provenance.parentNode.Parsed() == Some(parent.0))
  }

  lemma ParentKeyMeans(rec: LineageRecord, parent: LineageKey)
    ensures ParentKey(rec) == Some(parent) <==> NamesParent(rec, parent)
  {
  }

  /** The record's hops are one more than the parent's, saturating. */
  predicate HopsFollow(rec: Provenance, parent: Provenance) {
    rec.hops == if parent.hops == U64_MAX then U64_MAX else parent.hops + 1
  }

  // ---- the problems of each pass ----

  ghost function NodeTimes(traces: seq<Trace>, n: nat): Times {
    (p: ClusterProblem) =>
      match p
      case NoNodeEvents(i) => Once(i < n && i < |traces| && LocalNodes(traces[i]) == {})
      case MixedNodes(i) => Once(i < n && i < |traces| && |LocalNodes(traces[i])| > 1)
      case _ => 0
  }

  ghost function NoteTimes(kinds: seq<EventKind>): Times {
    (p: ClusterProblem) => match p case DuplicateNote(what, key) => Repeats(CountOf(kinds, what, key)) case _ => 0
  }

  /** The receipts among these. */
  ghost function RecvTimes(included: set<Uuid>, sends: Notebook, recvs: Notebook, done: set<ClusterKey>): Times {
    (p: ClusterProblem) =>
      match p
      case RecvWithoutSend(key) => Once(key in done && key.0 in included && key !in sends)
      case PayloadMismatch(key) => Once(key in done && key.0 in included && key in sends && key in recvs && sends[key] != recvs[key])
      case _ => 0
  }

  ghost function DropTimes(included: set<Uuid>, sends: Notebook, done: set<ClusterKey>): Times {
    (p: ClusterProblem) => match p case DropWithoutSend(key) => Once(key in done && key.0 in included && key !in sends) case _ => 0
  }

  ghost function SendTimes(included: set<Uuid>, recvs: Notebook, drops: Notebook, done: set<ClusterKey>): Times {
    (p: ClusterProblem) =>
      match p
      case RecvAndDrop(key) => Once(key in done && key.2 in included && key in recvs && key in drops)
      case NeitherRecvNorDrop(key) => Once(key in done && key.2 in included && key !in recvs && key !in drops)
      case _ => 0
  }

  /** How many of the first `n` traces index a delivery under this key. */
  function IndexedIn(traces: seq<Trace>, key: LineageKey): nat {
    if traces == [] then 0 else IndexedIn(traces[..|traces| - 1], key) + Once(key in IndexOf(traces[|traces| - 1]))
  }

  ghost function JoinTimes(traces: seq<Trace>): Times {
    (p: ClusterProblem) => match p case DuplicateLineage(key) => Repeats(IndexedIn(traces, key)) case _ => 0
  }

  /** The keys of one trace that are in the index already. */
  ghost function ClashTimes(index: LineageIndex, done: set<LineageKey>): Times {
    (p: ClusterProblem) => match p case DuplicateLineage(key) => Once(key in done && key in index) case _ => 0
  }

  /** A record with hops whose parent is in the index. */
  predicate HasKnownParent(index: LineageIndex, key: LineageKey) {
    key in index && HasParent(index[key]) && ParentKey(index[key]).value in index
  }

  function ParentOf(index: LineageIndex, key: LineageKey): Provenance
    requires HasKnownParent(index, key)
  {
    index[ParentKey(index[key]).value].provenance
  }

  ghost function ParentTimes(included: set<Uuid>, index: LineageIndex, done: set<LineageKey>): Times {
    (p: ClusterProblem) =>
      match p
      case InvalidParent(key) => Once(key in done && key in index && index[key].provenance.hops > 0 && ParentKey(index[key]).None?)
      case HopsMismatch(key) => Once(key in done && HasKnownParent(index, key) && !HopsFollow(index[key].provenance, ParentOf(index, key)))
      case OriginMsgMismatch(key) =>
        Once(key in done && HasKnownParent(index, key) && index[key].provenance.originMsgId != ParentOf(index, key).originMsgId)
      case OriginNodeMismatch(key) =>
        Once(key in done && HasKnownParent(index, key) && index[key].provenance.originNode != ParentOf(index, key).originNode)
      case OriginServiceMismatch(key) =>
        Once(key in done && HasKnownParent(index, key) && index[key].provenance.originService != ParentOf(index, key).originService)
      case MissingParent(key) =>
        Once(key in done && key in index && HasParent(index[key]) && ParentKey(index[key]).value !in index
             && ParentKey(index[key]).value.0 in included)
      case _ => 0
  }

  // ---- the whole report ----

  /** Every problem is reported, and exactly as often as it should be. */
  ghost predicate ReportExact(traces: seq<Trace>, ps: multiset<ClusterProblem>) {
    && (forall i: nat :: ps[NoNodeEvents(i)] == Once(i < |traces| && LocalNodes(traces[i]) == {}))
    && (forall i: nat :: ps[MixedNodes(i)] == Once(i < |traces| && |LocalNodes(traces[i])| > 1))
    && (forall what, key :: ps[DuplicateNote(what, key)] == Repeats(CountOf(AllEvents(traces), what, key)))
    && (forall key :: NetworkExact(traces, ps, key))
    && (forall key :: LineageExact(traces, ps, key))
  }

  /** The problems with one message: received though no included node sent it, received with another
      payload than was sent, dropped though not sent, both received and dropped, or neither. */
  ghost predicate NetworkExact(traces: seq<Trace>, ps: multiset<ClusterProblem>, key: ClusterKey) {
    var sent, received, dropped := Mentioned(traces, SentNote, key), Mentioned(traces, ReceivedNote, key), Mentioned(traces, DroppedNote, key);
    && ps[RecvWithoutSend(key)] == Once(received && key.0 in Included(traces) && !sent)
    && ps[PayloadMismatch(key)] == Once(received && key.0 in Included(traces) && sent
         && LastPayload(AllEvents(traces), SentNote, key) != LastPayload(AllEvents(traces), ReceivedNote, key))
    && ps[DropWithoutSend(key)] == Once(dropped && key.0 in Included(traces) && !sent)
    && ps[RecvAndDrop(key)] == Once(sent && key.2 in Included(traces) && received && dropped)
    && ps[NeitherRecvNorDrop(key)] == Once(sent && key.2 in Included(traces) && !received && !dropped)
  }

  /** The problems with one delivery record and the parent it names: an id that cannot be read; a parent
      that an included node should have delivered; one that is not one hop before, or of another origin. */
  ghost predicate ParentsExact(included: set<Uuid>, index: LineageIndex, times: Times, key: LineageKey) {
    && times(InvalidParent(key)) == Once(key in index && index[key].provenance.hops > 0 && !exists parent :: NamesParent(index[key], parent))
    && times(MissingParent(key)) == Once(key in index && index[key].provenance.hops > 0
         && exists parent :: NamesParent(index[key], parent) && parent !in index && parent.0 in included)
    && times(HopsMismatch(key)) == Once(key in index && index[key].provenance.hops > 0
         && exists parent :: NamesParent(index[key], parent) && parent in index && !HopsFollow(index[key].provenance, index[parent].provenance))
    && times(OriginMsgMismatch(key)) == Once(key in index && index[key].provenance.hops > 0
         && exists parent :: NamesParent(index[key], parent) && parent in index
                             && index[key].provenance.originMsgId != index[parent].provenance.originMsgId)
    && times(OriginNodeMismatch(key)) == Once(key in index && index[key].provenance.hops > 0
         && exists parent :: NamesParent(index[key], parent) && parent in index
                             && index[key].provenance.originNode != index[parent].provenance.originNode)
    && times(OriginServiceMismatch(key)) == Once(key in index && index[key].provenance.hops > 0
         && exists parent :: NamesParent(index[key], parent) && parent in index
                             && index[key].provenance.originService != index[parent].provenance.originService)
  }

  function TimesIn(ps: multiset<ClusterProblem>): Times {
    (p: ClusterProblem) => ps[p]
  }

  /** The problems with one delivery record: delivered in several traces, or not continuing its parent. */
  ghost predicate LineageExact(traces: seq<Trace>, ps: multiset<ClusterProblem>, key: LineageKey) {
    && ps[DuplicateLineage(key)] == Repeats(IndexedIn(traces, key))
    && ParentsExact(Included(traces), GlobalIndex(traces), TimesIn(ps), key)
  }

  function Plus(f: Times, g: Times): Times {
    (p: ClusterProblem) => f(p) + g(p)
  }

  /** The problems of all passes together. */
  ghost function AllTimes(traces: seq<Trace>): Times {
    var included, sends, recvs, drops := Included(traces), SendTable(traces), RecvTable(traces), DropTable(traces);
    var index := GlobalIndex(traces);
    var nodes := Plus(NodeTimes(traces, |traces|), NoteTimes(AllEvents(traces)));
    var messages := Plus(RecvTimes(included, sends, recvs, recvs.Keys),
                         Plus(DropTimes(included, sends, drops.Keys), SendTimes(included, recvs, drops, sends.Keys)));
    Plus(Plus(nodes, messages), Plus(JoinTimes(traces), ParentTimes(included, index, index.Keys)))
  }

  lemma AllTimesExact(traces: seq<Trace>, ps: seq<ClusterProblem>)
    requires Added([], ps, AllTimes(traces))
    ensures ReportExact(traces, multiset(ps))
  {
    hide Included;
    hide SendTable;
    hide RecvTable;
    hide DropTable;
    hide GlobalIndex;
    hide AllEvents;
    hide LocalNodes;
    hide CountOf;
    hide LastPayload;
    hide Mentioned;
    hide IndexedIn;
    hide NetworkExact;
    hide LineageExact;
    var t := AllTimes(traces);
    assert forall p :: multiset(ps)[p] == t(p);
    forall i: nat ensures multiset(ps)[NoNodeEvents(i)] == t(NoNodeEvents(i)) && multiset(ps)[MixedNodes(i)] == t(MixedNodes(i)) {
    }
    forall what, key ensures multiset(ps)[DuplicateNote(what, key)] == t(DuplicateNote(what, key)) {
    }
    forall key ensures NetworkExact(traces, multiset(ps), key) { NetworkTimes(traces, ps, key); }
    forall key ensures LineageExact(traces, multiset(ps), key) { LineageTimes(traces, ps, key); }
  }

  lemma NetworkTimes(traces: seq<Trace>, ps: seq<ClusterProblem>, key: ClusterKey)
    requires forall p :: multiset(ps)[p] == AllTimes(traces)(p)
    ensures NetworkExact(traces, multiset(ps), key)
  {
    hide Included;
    hide AllEvents;
    hide GlobalIndex;
    hide Table;
    hide Notes;
    hide CountOf;
    hide LastPayload;
    hide Mentions;
    forall what ensures key in Table(Notes(AllEvents(traces), what)) <==> Mentioned(traces, what, key) {
      TablesMean(AllEvents(traces), what, key);
      CountMeans(AllEvents(traces), what, key);
    }
    TablesMean(AllEvents(traces), SentNote, key);
    TablesMean(AllEvents(traces), ReceivedNote, key);
    hide Mentioned;
    var t := AllTimes(traces);
    assert multiset(ps)[RecvWithoutSend(key)] == t(RecvWithoutSend(key));
    assert multiset(ps)[PayloadMismatch(key)] == t(PayloadMismatch(key));
    assert multiset(ps)[DropWithoutSend(key)] == t(DropWithoutSend(key));
    assert multiset(ps)[RecvAndDrop(key)] == t(RecvAndDrop(key));
    assert multiset(ps)[NeitherRecvNorDrop(key)] == t(NeitherRecvNorDrop(key));
  }

  lemma ParentTimesExact(included: set<Uuid>, index: LineageIndex, key: LineageKey)
    ensures ParentsExact(included, index, ParentTimes(included, index, index.Keys), key)
  {
    hide ParentKey;
    hide NamesParent;
    hide HopsFollow;
    if key in index {
      var rec := index[key];
      forall parent ensures NamesParent(rec, parent) <==> ParentKey(rec) == Some(parent) { ParentKeyMeans(rec, parent); }
      if ParentKey(rec).Some? {
        var known := ParentKey(rec).value;
        assert NamesParent(rec, known) && forall parent :: NamesParent(rec, parent) ==> parent == known;
      } else {
        assert forall parent :: !NamesParent(rec, parent);
      }
    }
  }

  lemma LineageTimes(traces: seq<Trace>, ps: seq<ClusterProblem>, key: LineageKey)
    requires forall p :: multiset(ps)[p] == AllTimes(traces)(p)
    ensures LineageExact(traces, multiset(ps), key)
  {
    hide Included;
    hide AllEvents;
    hide GlobalIndex;
    hide SendTable;
    hide RecvTable;
    hide DropTable;
    hide IndexedIn;
    hide NamesParent;
    hide HopsFollow;
    var index := GlobalIndex(traces);
    var times := ParentTimes(Included(traces), index, index.Keys);
    ParentTimesExact(Included(traces), index, key);
    LineageOnly(traces, key);
    hide ParentTimes;
    hide AllTimes;
    assert multiset(ps)[DuplicateLineage(key)] == AllTimes(traces)(DuplicateLineage(key));
    assert multiset(ps)[InvalidParent(key)] == times(InvalidParent(key));
    assert multiset(ps)[MissingParent(key)] == times(MissingParent(key));
    assert multiset(ps)[HopsMismatch(key)] == times(HopsMismatch(key));
    assert multiset(ps)[OriginMsgMismatch(key)] == times(OriginMsgMismatch(key));
    assert multiset(ps)[OriginNodeMismatch(key)] == times(OriginNodeMismatch(key));
    assert multiset(ps)[OriginServiceMismatch(key)] == times(OriginServiceMismatch(key));
  }

  /** Problems with a parent come from the last pass only. */
  lemma LineageOnly(traces: seq<Trace>, key: LineageKey)
    ensures var all, index := AllTimes(traces), GlobalIndex(traces);
            var times := ParentTimes(Included(traces), index, index.Keys);
            && all(DuplicateLineage(key)) == Repeats(IndexedIn(traces, key))
            && all(InvalidParent(key)) == times(InvalidParent(key)) && all(MissingParent(key)) == times(MissingParent(key))
            && all(HopsMismatch(key)) == times(HopsMismatch(key)) && all(OriginMsgMismatch(key)) == times(OriginMsgMismatch(key))
            && all(OriginNodeMismatch(key)) == times(OriginNodeMismatch(key))
            && all(OriginServiceMismatch(key)) == times(OriginServiceMismatch(key))
  {
    hide Included;
    hide AllEvents;
    hide GlobalIndex;
    hide SendTable;
    hide RecvTable;
    hide DropTable;
    hide IndexedIn;
  }
}
