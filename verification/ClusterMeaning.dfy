/** What a clean cluster report tells about the messages and the lineage of a cluster. */
module ClusterMeaning {
  import opened Base
  import opened Events
  import opened Queues
  import opened VerifySpec
  import opened VerifyMeaning
  import opened LineageSpec
  import opened QueueMirror
  import opened ClusterSpec

  // ---- every sent message is accounted for ----

  lemma {:induction false} NotesFrom(kinds: seq<EventKind>, what: Evidence)
    ensures forall n: Note :: n in Notes(kinds, what) <==> n.what == what && exists k :: k in kinds && NoteOf(k) == Some(n)
  {
    if kinds != [] {
      var front := kinds[..|kinds| - 1];
      var last := kinds[|kinds| - 1];
      NotesFrom(front, what);
      assert kinds == front + [last];
      forall n: Note | n.what == what && exists k :: k in kinds && NoteOf(k) == Some(n) ensures n in Notes(kinds, what) {
        var k :| k in kinds && NoteOf(k) == Some(n);
        if k in front { assert n in Notes(front, what); } else { assert k == last; }
      }
      forall n | n in Notes(kinds, what) ensures n.what == what && exists k :: k in kinds && NoteOf(k) == Some(n) {
        if n in Notes(front, what) {
          var k :| k in front && NoteOf(k) == Some(n);
          assert k in kinds;
        } else {
          assert last in kinds && NoteOf(last) == Some(n);
        }
      }
    }
  }

  lemma TableSnoc(front: seq<Note>, last: Note)
    ensures Table(front + [last]) == Table(front)[last.key := last.payload]
  {
    assert (front + [last])[..|front|] == front;
  }

  lemma {:induction false} TableDomain(notes: seq<Note>)
    ensures forall key :: key in Table(notes) <==> exists n :: n in notes && n.key == key
  {
    if notes != [] {
      hide Table;
      var front := notes[..|notes| - 1];
      var last := notes[|notes| - 1];
      assert notes == front + [last];
      TableDomain(front);
      TableSnoc(front, last);
      forall key | key in Table(notes) ensures exists n :: n in notes && n.key == key {
        if key == last.key {
          assert last in notes;
        } else {
          var n :| n in front && n.key == key;
          assert n in notes;
        }
      }
      forall n | n in notes ensures n.key in Table(notes) { assert n == last || n in front; }
    }
  }

  lemma {:induction false} TableSize(notes: seq<Note>)
    ensures |Table(notes)| <= |notes| && (KeysOnce(notes) ==> |Table(notes)| == |notes|)
  {
    if notes != [] {
      hide Table;
      hide KeysOnce;
      var front, last := notes[..|notes| - 1], notes[|notes| - 1];
      assert notes == front + [last];
      TableSize(front);
      TableSnoc(front, last);
      var t := Table(front);
      assert t[last.key := last.payload].Keys == t.Keys + {last.key};
      if KeysOnce(notes) {
        LastIsNew(front, last);
        TableDomain(front);
      }
    }
  }

  lemma {:induction false} TableHolds(notes: seq<Note>, n: Note)
    requires KeysOnce(notes) && n in notes
    ensures n.key in Table(notes) && Table(notes)[n.key] == n.payload
  {
    hide Table;
    hide KeysOnce;
    var front, last := notes[..|notes| - 1], notes[|notes| - 1];
    assert notes == front + [last];
    TableSnoc(front, last);
    LastIsNew(front, last);
    if n != last { TableHolds(front, n); }
  }

  /** The table holds every note once its keys are distinct. */
  lemma TableKeys(notes: seq<Note>)
    ensures forall key :: key in Table(notes) <==> exists n :: n in notes && n.key == key
    ensures |Table(notes)| <= |notes|
    ensures KeysOnce(notes) ==> |Table(notes)| == |notes| && forall n :: n in notes ==> Table(notes)[n.key] == n.payload
  {
    hide Table;
    hide KeysOnce;
    TableDomain(notes);
    TableSize(notes);
    if KeysOnce(notes) {
      forall n | n in notes ensures n.key in Table(notes) && Table(notes)[n.key] == n.payload { TableHolds(notes, n); }
    }
  }

  lemma LastIsNew(front: seq<Note>, last: Note)
    requires KeysOnce(front + [last])
    ensures KeysOnce(front) && forall n :: n in front ==> n.key != last.key
  {
    var notes := front + [last];
    forall i, j | 0 <= i < j < |front| ensures front[i].key != front[j].key { assert notes[i].key != notes[j].key; }
    forall n | n in front ensures n.key != last.key {
      var i :| 0 <= i < |front| && front[i] == n;
      assert notes[i].key != notes[|front|].key;
    }
  }

  lemma {:induction false} EventsOfTrace(trace: Trace, k: EventKind)
    ensures k in Kinds(trace) <==> exists ev :: ev in trace && ev.kind == k
  {
    if trace != [] {
      var front := trace[..|trace| - 1];
      EventsOfTrace(front, k);
      assert trace == front + [trace[|trace| - 1]];
    }
  }

  lemma AllSnoc(front: seq<Trace>, last: Trace)
    ensures AllEvents(front + [last]) == AllEvents(front) + Kinds(last)
    ensures Included(front + [last]) == Included(front) + LocalNodes(last)
  {
    hide Kinds;
    hide LocalNodes;
    assert (front + [last])[..|front|] == front;
  }

  lemma {:induction false} LocalIncluded(traces: seq<Trace>, k: EventKind)
    requires k in AllEvents(traces) && LocalNode(k).Some?
    ensures LocalNode(k).value in Included(traces)
  {
    hide Kinds;
    hide LocalNode;
    if traces != [] {
      hide AllEvents;
      hide Included;
      var front := traces[..|traces| - 1];
      var last := traces[|traces| - 1];
      assert traces == front + [last];
      AllSnoc(front, last);
      if k in AllEvents(front) {
        LocalIncluded(front, k);
      } else {
        EventsOfTrace(last, k);
        var ev :| ev in last && ev.kind == k;
        assert LocalNode(ev.kind).value in LocalNodes(last);
      }
    }
  }

  /** Where the notes come from: senders and receivers are nodes of the given traces. */
  lemma NoteNodes(traces: seq<Trace>)
    ensures forall key :: key in SendTable(traces) ==> key.0 in Included(traces)
    ensures forall key :: key in RecvTable(traces) ==> key.2 in Included(traces)
    ensures forall key :: key in DropTable(traces) ==> key.2 in Included(traces)
  {
    forall key | key in SendTable(traces) ensures key.0 in Included(traces) { SourceNode(traces, SentNote, key); }
    forall key | key in RecvTable(traces) ensures key.2 in Included(traces) { SourceNode(traces, ReceivedNote, key); }
    forall key | key in DropTable(traces) ensures key.2 in Included(traces) { SourceNode(traces, DroppedNote, key); }
  }

  lemma SourceNode(traces: seq<Trace>, what: Evidence, key: ClusterKey)
    requires key in Table(Notes(AllEvents(traces), what))
    ensures (if what.SentNote? then key.0 else key.2) in Included(traces)
  {
    hide Notes;
    hide Table;
    hide AllEvents;
    hide Included;
    TableKeys(Notes(AllEvents(traces), what));
    var n :| n in Notes(AllEvents(traces), what) && n.key == key;
    NotesFrom(AllEvents(traces), what);
    var k :| k in AllEvents(traces) && NoteOf(k) == Some(n);
    LocalIncluded(traces, k);
  }

  /** On a clean report the sent messages split into those received with the same payload, those
      dropped, and those that left the cluster; nothing is counted twice and nothing is missing. */
  lemma SendsPartitioned(traces: seq<Trace>)
    requires ClusterOk(traces)
    ensures SendTable(traces).Keys == MatchedRecvs(traces) + MatchedDrops(traces) + ExternalSends(traces)
    ensures MatchedRecvs(traces) !! MatchedDrops(traces) !! ExternalSends(traces)
    ensures |MatchedRecvs(traces)| + |MatchedDrops(traces)| + |ExternalSends(traces)|
              == |Notes(AllEvents(traces), SentNote)|
  {
    hide SendTable;
    hide RecvTable;
    hide DropTable;
    hide Included;
    hide DeliveredOnce;
    hide ParentsOk;
    hide KeysOnce;
    NoteNodes(traces);
    var sends := SendTable(traces).Keys;
    forall key | key in sends
      ensures key in MatchedRecvs(traces) + MatchedDrops(traces) + ExternalSends(traces)
      ensures !(key in MatchedRecvs(traces) && key in MatchedDrops(traces))
    {
      assert SendOk(traces, key);
      if key in RecvTable(traces) { assert RecvOk(traces, key); }
    }
    assert sends == MatchedRecvs(traces) + MatchedDrops(traces) + ExternalSends(traces);
    assert |sends| == |Notes(AllEvents(traces), SentNote)| by { SendCount(traces); }
  }

  lemma SendCount(traces: seq<Trace>)
    requires KeysOnce(Notes(AllEvents(traces), SentNote))
    ensures |SendTable(traces).Keys| == |Notes(AllEvents(traces), SentNote)|
  {
    TableKeys(Notes(AllEvents(traces), SentNote));
    assert |Table(Notes(AllEvents(traces), SentNote)).Keys| == |Table(Notes(AllEvents(traces), SentNote))|;
  }

  /** Event by event: a NetSend to a node of the cluster has either one receipt with its payload or
      one drop, never both. */
  lemma SendAccountedFor(traces: seq<Trace>, k: EventKind)
    requires ClusterOk(traces) && k in AllEvents(traces) && k.NetSend? && k.toNode in Included(traces)
    ensures var key := (k.node, k.msgId, k.toNode);
            (key in RecvTable(traces) && RecvTable(traces)[key] == Some(k.payload) && key !in DropTable(traces))
            || (key !in RecvTable(traces) && key in DropTable(traces))
  {
    var key := (k.node, k.msgId, k.toNode);
    var notes := Notes(AllEvents(traces), SentNote);
    NotesFrom(AllEvents(traces), SentNote);
    TableKeys(notes);
    assert Note(SentNote, key, Some(k.payload)) in notes;
    assert SendTable(traces)[key] == Some(k.payload);
    assert SendOk(traces, key);
    LocalIncluded(traces, k);
    if key in RecvTable(traces) { assert RecvOk(traces, key); }
  }

  // ---- every lineage leads to its root ----

  /** A record whose ids can be read; if it is a root, it names itself and its sender. */
  ghost predicate RecordReads(key: LineageKey, rec: LineageRecord) {
    && ParentKey(rec).Some?
    && (rec.provenance.hops == 0 ==>
          && ParentKey(rec) == Some(key)
          && rec.provenance.originMsgId.Parsed() == Some(key.1)
          && rec.provenance.originNode.Parsed() == Some(key.0)
          && rec.provenance.originService == rec.fromService)
  }

  lemma RecordReadable(ev: TraceEvent, payload: Payload, delivered: map<LineageKey, Lineage>)
    requires ev.kind.Deliver? && LineageOk(ev.kind.msgId, payload, delivered)
    ensures ReadRecord(ev, payload).Some?
    ensures RecordReads(ReadRecord(ev, payload).value.key, ReadRecord(ev, payload).value)
  {
  }

  lemma {:induction false} IndexReadable(events: seq<TraceEvent>, n: nat)
    requires n <= |events| && VFold(events, n).problems == []
    ensures forall k :: k in IndexAt(events, n) ==> RecordReads(k, IndexAt(events, n)[k])
  {
    hide QueuesAt;
    hide RecordReads;
    hide VStep;
    hide LineageOk;
    hide ReadRecord;
    if n > 0 {
      if VFold(events, n - 1).problems != [] { ProblemsStay(VFold(events, n - 1), events[n - 1]); }
      IndexReadable(events, n - 1);
      FoldTracks(events, n);
      FoldTracks(events, n - 1);
      FoldQueues(events, n - 1);
      if events[n - 1].kind.Deliver? {
        assert EventOk(events, n - 1);
        var key := (events[n - 1].kind.to, events[n - 1].kind.msgId);
        assert KeyTracks(events, n - 1, VFold(events, n - 1).produced, key);
        RecordReadable(events[n - 1], DeliveredPayload(events, n - 1), LineageAt(events, n - 1));
      }
    }
  }

  lemma {:induction false} GlobalRecords(traces: seq<Trace>, key: LineageKey)
    requires key in GlobalIndex(traces)
    ensures exists i :: 0 <= i < |traces| && key in IndexOf(traces[i]) && GlobalIndex(traces)[key] == IndexOf(traces[i])[key]
  {
    var n := |traces| - 1;
    if key in IndexOf(traces[n]) {
      assert GlobalIndex(traces)[key] == IndexOf(traces[n])[key];
    } else {
      GlobalRecords(traces[..n], key);
      var i :| 0 <= i < n && key in IndexOf(traces[..n][i]) && GlobalIndex(traces[..n])[key] == IndexOf(traces[..n][i])[key];
      assert key in IndexOf(traces[i]) && GlobalIndex(traces)[key] == IndexOf(traces[i])[key];
    }
  }

  /** A cluster whose reports are all clean and whose lineage stays inside it. */
  ghost predicate Verified(traces: seq<Trace>) {
    && (forall i :: 0 <= i < |traces| ==> Problems(traces[i]) == [])
    && ClusterOk(traces)
    && ExternalParents(traces) == {}
    && (forall key :: key in GlobalIndex(traces) ==> GlobalIndex(traces)[key].provenance.hops < U64_MAX)
  }

  lemma RecordsRead(traces: seq<Trace>, key: LineageKey)
    requires forall i :: 0 <= i < |traces| ==> Problems(traces[i]) == []
    requires key in GlobalIndex(traces)
    ensures RecordReads(key, GlobalIndex(traces)[key])
  {
    hide RecordReads;
    hide VFold;
    GlobalRecords(traces, key);
    var i :| 0 <= i < |traces| && key in IndexOf(traces[i]) && GlobalIndex(traces)[key] == IndexOf(traces[i])[key];
    assert Problems(traces[i]) == [];
    IndexReadable(traces[i], |traces[i]|);
  }

  /** The record reached from `key` by following `n` parent links, if they all resolve. */
  function Ancestor(index: LineageIndex, key: LineageKey, n: nat): Option<LineageKey>
    decreases n
  {
    if key !in index then None
    else if n == 0 then Some(key)
    else match ParentKey(index[key]) case None => None case Some(parent) => Ancestor(index, parent, n - 1)
  }

  /** One parent link: it resolves, drops one hop and keeps the origin. */
  lemma ParentStep(traces: seq<Trace>, key: LineageKey)
    requires Verified(traces) && key in GlobalIndex(traces) && GlobalIndex(traces)[key].provenance.hops > 0
    ensures var index := GlobalIndex(traces);
            var parent := ParentKey(index[key]);
            && parent.Some? && parent.value in index
            && index[key].provenance.hops == index[parent.value].provenance.hops + 1
            && index[key].provenance.originMsgId == index[parent.value].provenance.originMsgId
            && index[key].provenance.originNode == index[parent.value].provenance.originNode
            && index[key].provenance.originService == index[parent.value].provenance.originService
  {
    hide GlobalIndex;
    hide Included;
    hide EvidenceOnce;
    hide NetworkOk;
    hide OneNodeEach;
    hide DeliveredOnce;
    assert ParentOk(traces, key);
    assert key !in ExternalParents(traces);
  }

  /** From any delivered message with h hops, following h parent links reaches a root; every record
      on the way has one hop less than the one before and the same origin, and that origin is the
      root message itself: its id, its sender node and its sender service. */
  lemma {:induction false} LineageReachesRoot(traces: seq<Trace>, key: LineageKey, n: nat)
    requires Verified(traces) && key in GlobalIndex(traces)
    requires n <= GlobalIndex(traces)[key].provenance.hops
    ensures var index := GlobalIndex(traces);
            var here := Ancestor(index, key, n);
            && here.Some? && here.value in index
            && index[here.value].provenance.hops == index[key].provenance.hops - n
            && index[here.value].provenance.originMsgId == index[key].provenance.originMsgId
            && index[here.value].provenance.originNode == index[key].provenance.originNode
            && index[here.value].provenance.originService == index[key].provenance.originService
            && (n == index[key].provenance.hops ==>
                  && index[key].provenance.originMsgId.Parsed() == Some(here.value.1)
                  && index[key].provenance.originNode.Parsed() == Some(here.value.0)
                  && index[key].provenance.originService == index[here.value].fromService)
    decreases n
  {
    hide Verified;
    hide GlobalIndex;
    if n == 0 {
      assert forall i :: 0 <= i < |traces| ==> Problems(traces[i]) == [] by { VerifiedParts(traces); }
      RecordsRead(traces, key);
    } else {
      ParentStep(traces, key);
      LineageReachesRoot(traces, ParentKey(GlobalIndex(traces)[key]).value, n - 1);
    }
  }

  lemma VerifiedParts(traces: seq<Trace>)
    requires Verified(traces)
    ensures forall i :: 0 <= i < |traces| ==> Problems(traces[i]) == []
  {
  }

  lemma RootIsItsParent(traces: seq<Trace>, key: LineageKey)
    requires Verified(traces) && key in GlobalIndex(traces) && GlobalIndex(traces)[key].provenance.hops == 0
    ensures ParentKey(GlobalIndex(traces)[key]) == Some(key)
  {
    hide Verified;
    hide GlobalIndex;
    VerifiedParts(traces);
    RecordsRead(traces, key);
  }

  lemma {:induction false} RootStays(traces: seq<Trace>, key: LineageKey, n: nat)
    requires Verified(traces) && key in GlobalIndex(traces) && GlobalIndex(traces)[key].provenance.hops == 0
    ensures Ancestor(GlobalIndex(traces), key, n) == Some(key)
  {
    hide Verified;
    hide GlobalIndex;
    hide ParentKey;
    if n > 0 {
      RootIsItsParent(traces, key);
      RootStays(traces, key, n - 1);
    }
  }

  lemma {:induction false} AncestorOfAncestor(index: LineageIndex, key: LineageKey, m: nat, n: nat)
    requires Ancestor(index, key, m).Some?
    ensures Ancestor(index, key, m + n) == Ancestor(index, Ancestor(index, key, m).value, n)
    decreases m
  {
    if m > 0 { AncestorOfAncestor(index, ParentKey(index[key]).value, m - 1, n); }
  }

  /** So the parent graph has no cycle: no message but a root is its own ancestor, however many links
      are followed. */
  lemma LineageAcyclic(traces: seq<Trace>, key: LineageKey, n: nat)
    requires Verified(traces) && key in GlobalIndex(traces) && GlobalIndex(traces)[key].provenance.hops > 0 && n > 0
    ensures Ancestor(GlobalIndex(traces), key, n) != Some(key)
  {
    hide Verified;
    hide GlobalIndex;
    hide Ancestor;
    var h := GlobalIndex(traces)[key].provenance.hops;
    if n <= h {
      LineageReachesRoot(traces, key, n);
    } else {
      LineageReachesRoot(traces, key, h);
      AncestorOfAncestor(GlobalIndex(traces), key, h, n - h);
      RootStays(traces, Ancestor(GlobalIndex(traces), key, h).value, n - h);
    }
  }
}
