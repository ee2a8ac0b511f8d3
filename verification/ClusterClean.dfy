/** The traces of a drained cluster run get a clean report from the cluster verifier. */
module ClusterClean {
  import opened Base
  import opened Events
  import opened TraceFile
  import opened Interp
  import opened InjectorSpec
  import opened InjectorProps
  import opened Node
  import opened VerifySpec
  import opened LineageSpec
  import opened ClusterSpec
  import opened ClusterMeaning
  import opened QueueMirror
  import opened HonestNode
  import opened HonestRun
  import opened RecordTrace
  import opened Wire
  import opened ClusterRun
  import opened ClusterHonest
  import opened ClusterVerified

  /** The trace files of the cluster's nodes, in a given order. */
  function TraceFiles(c: Cluster, order: seq<Uuid>): (r: seq<Trace>)
    requires forall i :: i in order ==> i in c.nodes
    ensures |r| == |order|
    ensures forall k :: 0 <= k < |order| ==> r[k] == StampAll(c.nodes[order[k]].events)
  {
    if order == [] then []
    else
      var last := |order| - 1;
      TraceFiles(c, order[..last]) + [StampAll(c.nodes[order[last]].events)]
  }

  /** Every node's trace once. */
  ghost predicate Enumerates(order: seq<Uuid>, nodes: set<Uuid>) {
    (forall i :: i in order <==> i in nodes) && Distinct(order)
  }

  lemma {:induction false} KindsOfFile(kinds: seq<EventKind>)
    ensures Kinds(StampAll(kinds)) == kinds
  {
    if kinds != [] {
      var n := |kinds| - 1;
      var front := kinds[..n];
      KindsOfFile(front);
      StampSnoc(front, kinds[n]);
      assert front + [kinds[n]] == kinds;
      var file := StampAll(kinds);
      assert file[..n] == StampAll(front);
    }
  }

  // ---- the index of a trace file ----

  lemma {:induction false} IndexOfPrefix(events: seq<TraceEvent>, more: seq<TraceEvent>, n: nat)
    requires n <= |events|
    ensures QueuesAt(events + more, n) == QueuesAt(events, n) && IndexAt(events + more, n) == IndexAt(events, n)
  {
    hide ProducedAfter;
    hide IndexAfter;
    if n > 0 { IndexOfPrefix(events, more, n - 1); }
  }

  lemma IndexSnoc(events: seq<TraceEvent>, ev: TraceEvent)
    ensures IndexOf(events + [ev]) == IndexAfter(QueuesAt(events, |events|), IndexOf(events), ev)
  {
    hide IndexAfter;
    hide QueuesAt;
    IndexOfPrefix(events, [ev], |events|);
  }

  lemma IndexRunSnoc(front: seq<EventKind>, k: EventKind)
    ensures var v := VRun(START, front);
            IndexRun(START, map[], front + [k]) == IndexAfter(v.produced, IndexRun(START, map[], front), Stamp(v, k))
  {
    hide IndexAfter;
    hide VStep;
    IndexRunAppend(START, map[], front, [k]);
  }

  lemma {:induction false} IndexOfFile(kinds: seq<EventKind>)
    requires |kinds| <= U64_MAX + 1
    ensures IndexOf(StampAll(kinds)) == IndexRun(START, map[], kinds)
  {
    hide IndexAfter;
    hide VStep;
    hide VRun;
    hide VFold;
    hide StampAll;
    hide QueuesAt;
    hide IndexAt;
    if kinds == [] {
      assert StampAll([]) == [];
      EmptyIndex();
    } else {
      hide IndexRun;
      hide IndexOf;
      var n := |kinds| - 1;
      var front := kinds[..n];
      IndexOfFile(front);
      assert front + [kinds[n]] == kinds;
      StampSnoc(front, kinds[n]);
      IndexSnoc(StampAll(front), TraceEvent(n, SEED, kinds[n]));
      FoldQueues(StampAll(front), n);
      FileIsRun(front);
      NumbersInOrder(START, front);
      IndexRunSnoc(front, kinds[n]);
    }
  }

  lemma EmptyIndex()
    ensures IndexOf([]) == map[]
  {
  }

  // ---- one node per trace ----

  lemma LocalNodesOfFile(i: Uuid, kinds: seq<EventKind>)
    requires AllLocal(i, kinds) && exists k :: k in kinds && LocalNode(k) == Some(i)
    ensures LocalNodes(StampAll(kinds)) == {i}
  {
    hide LocalNode;
    var file := StampAll(kinds);
    KindsOfFile(kinds);
    var k :| k in kinds && LocalNode(k) == Some(i);
    EventsOfTrace(file, k);
    var ev :| ev in file && ev.kind == k;
    assert i in LocalNodes(file) by { assert LocalNode(ev.kind).Some?; }
    forall x | x in LocalNodes(file) ensures x == i {
      var e :| e in file && LocalNode(e.kind).Some? && LocalNode(e.kind).value == x;
      EventsOfTrace(file, e.kind);
      assert LocalTo(i, e.kind);
    }
  }

  ghost predicate FilesLocal(c: Cluster, order: seq<Uuid>)
    requires forall i :: i in order ==> i in c.nodes
  {
    forall i :: i in order ==> LocalNodes(StampAll(c.nodes[i].events)) == {i}
  }

  lemma {:induction false} FilesInclude(c: Cluster, order: seq<Uuid>)
    requires (forall i :: i in order ==> i in c.nodes) && FilesLocal(c, order)
    ensures Included(TraceFiles(c, order)) == set i | i in order
  {
    hide LocalNodes;
    hide StampAll;
    if order != [] {
      var last := |order| - 1;
      assert order == order[..last] + [order[last]];
      assert TraceFiles(c, order)[..last] == TraceFiles(c, order[..last]);
      FilesInclude(c, order[..last]);
    }
  }

  // ---- the evidence of all traces ----

  /** The node whose trace an entry is in. */
  function Keeper(n: Note): Uuid {
    if n.what.SentNote? then n.key.0 else n.key.2
  }

  lemma {:induction false} NotesOfAll(c: Cluster, order: seq<Uuid>, what: Evidence)
    requires forall i :: i in order ==> i in c.nodes
    ensures forall n :: n in Notes(AllEvents(TraceFiles(c, order)), what) <==> exists i :: i in order && n in Notes(c.nodes[i].events, what)
  {
    hide Notes;
    if order == [] {
      NoNotes([], what);
    } else {
      var last := |order| - 1;
      var front := order[..last];
      var i := order[last];
      assert order == front + [i];
      NotesOfAll(c, front, what);
      AllNotesSnoc(c, order, what);
      forall n: Note ensures n in Notes(AllEvents(TraceFiles(c, order)), what) <==> exists j :: j in order && n in Notes(c.nodes[j].events, what) {
        if n in Notes(c.nodes[i].events, what) { assert i in order; }
        if n in Notes(AllEvents(TraceFiles(c, front)), what) {
          var j :| j in front && n in Notes(c.nodes[j].events, what);
          assert j in order;
        }
      }
    }
  }

  lemma AllNotesSnoc(c: Cluster, order: seq<Uuid>, what: Evidence)
    requires order != [] && forall i :: i in order ==> i in c.nodes
    ensures Notes(AllEvents(TraceFiles(c, order)), what) ==
            Notes(AllEvents(TraceFiles(c, order[..|order| - 1])), what) + Notes(c.nodes[order[|order| - 1]].events, what)
  {
    hide Notes;
    hide StampAll;
    var last := |order| - 1;
    assert TraceFiles(c, order)[..last] == TraceFiles(c, order[..last]);
    KindsOfFile(c.nodes[order[last]].events);
    NotesAppend(AllEvents(TraceFiles(c, order[..last])), c.nodes[order[last]].events, what);
  }

  lemma KeysOnceJoins(a: seq<Note>, b: seq<Note>, i: Uuid, what: Evidence)
    requires KeysOnce(a) && KeysOnce(b)
    requires forall n :: n in a ==> n.what == what && Keeper(n) != i
    requires forall n :: n in b ==> n.what == what && Keeper(n) == i
    ensures KeysOnce(a + b)
  {
    var all := a + b;
    forall p, q | 0 <= p < q < |all| ensures all[p].key != all[q].key {
      if p < |a| <= q { assert all[p] in a && all[q] in b; }
    }
  }

  ghost predicate KeptApart(c: Cluster, i: Uuid, what: Evidence)
    requires i in c.nodes
  {
    && KeysOnce(Notes(c.nodes[i].events, what))
    && (forall n :: n in Notes(c.nodes[i].events, what) ==> n.what == what && Keeper(n) == i)
  }

  lemma KeptByOthers(c: Cluster, front: seq<Uuid>, last: Uuid, what: Evidence)
    requires forall i :: i in front ==> i in c.nodes && KeptApart(c, i, what)
    requires Distinct(front + [last])
    ensures Distinct(front)
    ensures forall n :: n in Notes(AllEvents(TraceFiles(c, front)), what) ==> n.what == what && Keeper(n) != last
  {
    hide Notes;
    hide TraceFiles;
    hide AllEvents;
    var order := front + [last];
    forall p, q | 0 <= p < q < |front| ensures front[p] != front[q] { assert order[p] != order[q]; }
    NotesOfAll(c, front, what);
    forall n | n in Notes(AllEvents(TraceFiles(c, front)), what) ensures n.what == what && Keeper(n) != last {
      var j :| j in front && n in Notes(c.nodes[j].events, what);
      assert KeptApart(c, j, what);
      var p :| 0 <= p < |front| && front[p] == j;
      assert order[p] != order[|front|];
    }
  }

  lemma {:induction false} AllKeysOnce(c: Cluster, order: seq<Uuid>, what: Evidence)
    requires forall i :: i in order ==> i in c.nodes && KeptApart(c, i, what)
    requires Distinct(order)
    ensures KeysOnce(Notes(AllEvents(TraceFiles(c, order)), what))
  {
    hide Notes;
    hide KeysOnce;
    hide Distinct;
    if order == [] {
      NoNotes([], what);
      NoKeys();
    } else {
      hide TraceFiles;
      hide AllEvents;
      var last := |order| - 1;
      var front := order[..last];
      assert order == front + [order[last]];
      KeptByOthers(c, front, order[last], what);
      AllKeysOnce(c, front, what);
      AllNotesSnoc(c, order, what);
      assert KeptApart(c, order[last], what);
      KeysOnceJoins(Notes(AllEvents(TraceFiles(c, front)), what), Notes(c.nodes[order[last]].events, what), order[last], what);
    }
  }

  lemma NoKeys()
    ensures KeysOnce([])
  {
  }

  // ---- the network tables ----

  lemma NumberedNode(c: Cluster, b: Books, actors: set<Uuid>, i: Uuid)
    requires ClusterKept(c, b, actors) && i in c.nodes
    ensures Numbered(i, 1, c.nodes[i].events, c.nodes[i].r.sys.msgCounter) && AllLocal(i, c.nodes[i].events)
  {
    hide Numbered;
    hide AllLocal;
    hide SentOk;
    hide HomesIn;
    hide NodeInv;
    hide TrafficOk;
    hide IndexTrue;
    assert NodeKept(c, b, actors, i);
  }

  lemma SentApart(c: Cluster, b: Books, actors: set<Uuid>, i: Uuid)
    requires ClusterKept(c, b, actors) && i in c.nodes
    ensures KeptApart(c, i, SentNote)
  {
    hide Notes;
    hide ClusterKept;
    hide Numbered;
    hide MsgIndex;
    var kinds := c.nodes[i].events;
    NumberedNode(c, b, actors, i);
    NumberedIds(i, 1, kinds, c.nodes[i].r.sys.msgCounter);
    NotesOnce(kinds);
    forall n | n in Notes(kinds, SentNote) ensures n.what == SentNote && Keeper(n) == i {
      NotedSends(kinds, n);
      var j :| 0 <= j < |kinds| && NoteOf(kinds[j]) == Some(n) && kinds[j].NetSend?;
      assert LocalTo(i, kinds[j]);
    }
  }

  lemma {:induction false} CountTwice<T>(s: seq<T>, p: nat, q: nat)
    requires p < q < |s| && s[p] == s[q]
    ensures multiset(s)[s[p]] >= 2
  {
    assert s == s[..q] + [s[q]] + s[q + 1..];
    assert s[p] in s[..q];
  }

  /** The envelopes a node took in are noted under distinct keys. */
  lemma TakenApart(i: Uuid, all: multiset<WireEnvelope>, sent: seq<WireEnvelope>, taken: seq<WireEnvelope>, what: Evidence)
    requires SentOnce(sent) && multiset(taken) <= multiset(Own(i, sent)) && what != SentNote
    ensures KeysOnce(EnvNotes(what, taken))
    ensures forall n :: n in EnvNotes(what, taken) ==> n.what == what && Keeper(n) == i
  {
    hide Own;
    forall e | e in taken ensures e in sent && e.toNode == i {
      assert e in multiset(taken);
      assert e in multiset(Own(i, sent));
      OwnMembers(i, sent, e);
    }
    var notes := EnvNotes(what, taken);
    forall p, q | 0 <= p < q < |notes| ensures notes[p].key != notes[q].key {
      if notes[p].key == notes[q].key {
        assert taken[p] in taken && taken[q] in taken;
        SameKeySame(sent, taken[p], taken[q]);
        CountTwice(taken, p, q);
        OneCopy(sent, i, taken[p]);
      }
    }
  }

  lemma TakenNotesApart(c: Cluster, b: Books, actors: set<Uuid>, i: Uuid)
    requires ClusterKept(c, b, actors) && i in c.nodes
    ensures KeptApart(c, i, ReceivedNote) && KeptApart(c, i, DroppedNote)
  {
    hide Notes;
    hide EnvNotes;
    hide Own;
    hide NodeRuns;
    hide Envelopes;
    assert NodeKept(c, b, actors, i);
    assert multiset(b.received[i]) <= multiset(Own(i, b.sent));
    assert multiset(b.dropped[i]) <= multiset(Own(i, b.sent));
    TakenApart(i, multiset{}, b.sent, b.received[i], ReceivedNote);
    TakenApart(i, multiset{}, b.sent, b.dropped[i], DroppedNote);
  }

  lemma FilesEvidenceOnce(c: Cluster, b: Books, actors: set<Uuid>, order: seq<Uuid>)
    requires ClusterKept(c, b, actors) && Enumerates(order, c.nodes.Keys)
    ensures EvidenceOnce(TraceFiles(c, order))
  {
    hide ClusterKept;
    hide KeptApart;
    hide Notes;
    forall i | i in order ensures KeptApart(c, i, SentNote) && KeptApart(c, i, ReceivedNote) && KeptApart(c, i, DroppedNote) {
      SentApart(c, b, actors, i);
      TakenNotesApart(c, b, actors, i);
    }
    AllKeysOnce(c, order, SentNote);
    AllKeysOnce(c, order, ReceivedNote);
    AllKeysOnce(c, order, DroppedNote);
  }

  function EnvKey(e: WireEnvelope): ClusterKey {
    (e.fromNode, e.msgId, e.toNode)
  }

  /** The table of one kind of evidence holds exactly the noted entries. */
  lemma TableHolds(c: Cluster, order: seq<Uuid>, what: Evidence, key: ClusterKey)
    requires (forall i :: i in order ==> i in c.nodes) && KeysOnce(Notes(AllEvents(TraceFiles(c, order)), what))
    ensures var t := Table(Notes(AllEvents(TraceFiles(c, order)), what));
            && (key in t ==> exists i :: i in order && Note(what, key, t[key]) in Notes(c.nodes[i].events, what))
            && (forall i, n :: i in order && n in Notes(c.nodes[i].events, what) ==> n.key in t && t[n.key] == n.payload)
  {
    hide Notes;
    hide Table;
    hide TraceFiles;
    hide AllEvents;
    hide KeysOnce;
    hide NoteOf;
    var notes := Notes(AllEvents(TraceFiles(c, order)), what);
    NotesOfAll(c, order, what);
    TableKeys(notes);
    if key in Table(notes) {
      var n :| n in notes && n.key == key;
      NotesFrom(AllEvents(TraceFiles(c, order)), what);
      assert n == Note(what, key, Table(notes)[key]);
    }
  }

  lemma NotedEnvelope(what: Evidence, envs: seq<WireEnvelope>, n: Note)
    requires n in EnvNotes(what, envs)
    ensures exists e :: e in envs && EnvNote(what, e) == n
  {
    var k :| 0 <= k < |envs| && EnvNotes(what, envs)[k] == n;
    assert envs[k] in envs && EnvNote(what, envs[k]) == n;
  }

  lemma EnvelopeNoted(what: Evidence, envs: seq<WireEnvelope>, e: WireEnvelope)
    requires e in envs
    ensures EnvNote(what, e) in EnvNotes(what, envs)
  {
    var k :| 0 <= k < |envs| && envs[k] == e;
    assert EnvNotes(what, envs)[k] == EnvNote(what, e);
  }

  lemma SendsFit(c: Cluster, b: Books, actors: set<Uuid>, order: seq<Uuid>)
    requires ClusterKept(c, b, actors) && Enumerates(order, c.nodes.Keys) && EvidenceOnce(TraceFiles(c, order))
    ensures var t := SendTable(TraceFiles(c, order));
            && (forall key :: key in t ==> exists e :: e in b.sent && EnvKey(e) == key)
            && (forall e :: e in b.sent ==> EnvKey(e) in t && t[EnvKey(e)] == Some(e.payload))
  {
    hide Notes;
    hide NodeKept;
    hide HomesIn;
    hide EnvNotes;
    hide By;
    hide KeysOnce;
    var t := SendTable(TraceFiles(c, order));
    forall key | key in t ensures exists e :: e in b.sent && EnvKey(e) == key {
      TableHolds(c, order, SentNote, key);
      var i :| i in order && Note(SentNote, key, t[key]) in Notes(c.nodes[i].events, SentNote);
      NotedEnvelope(SentNote, By(i, b.sent), Note(SentNote, key, t[key]));
      var e :| e in By(i, b.sent) && EnvNote(SentNote, e) == Note(SentNote, key, t[key]);
      ByMembers(i, b.sent, e);
      assert EnvKey(e) == key;
    }
    forall e | e in b.sent ensures EnvKey(e) in t && t[EnvKey(e)] == Some(e.payload) {
      assert SentFine(c.nodes, actors, b.ledger, e);
      ByMembers(e.fromNode, b.sent, e);
      EnvelopeNoted(SentNote, By(e.fromNode, b.sent), e);
      TableHolds(c, order, SentNote, EnvKey(e));
    }
  }

  lemma ReceiptsFit(c: Cluster, b: Books, actors: set<Uuid>, order: seq<Uuid>)
    requires ClusterKept(c, b, actors) && Enumerates(order, c.nodes.Keys) && EvidenceOnce(TraceFiles(c, order))
    ensures var t := RecvTable(TraceFiles(c, order));
            && (forall key :: key in t ==>
                  exists i, e :: i in c.nodes && i in b.received && e in b.received[i] && EnvKey(e) == key && t[key] == Some(e.payload))
            && (forall i, e :: i in c.nodes && i in b.received && e in b.received[i] ==> EnvKey(e) in t)
  {
    hide Notes;
    hide TraceFiles;
    hide AllEvents;
    hide Distinct;
    hide NodeRuns;
    hide HomesIn;
    hide SentOk;
    hide EnvNotes;
    hide Own;
    hide Envelopes;
    hide KeysOnce;
    var t := RecvTable(TraceFiles(c, order));
    forall key | key in t
      ensures exists i, e :: i in c.nodes && i in b.received && e in b.received[i] && EnvKey(e) == key && t[key] == Some(e.payload)
    {
      TableHolds(c, order, ReceivedNote, key);
      var i :| i in order && Note(ReceivedNote, key, t[key]) in Notes(c.nodes[i].events, ReceivedNote);
      assert NodeKept(c, b, actors, i);
      NotedEnvelope(ReceivedNote, b.received[i], Note(ReceivedNote, key, t[key]));
      var e :| e in b.received[i] && EnvNote(ReceivedNote, e) == Note(ReceivedNote, key, t[key]);
      assert EnvKey(e) == key;
    }
    forall i, e | i in c.nodes && i in b.received && e in b.received[i] ensures EnvKey(e) in t {
      assert NodeKept(c, b, actors, i);
      EnvelopeNoted(ReceivedNote, b.received[i], e);
      TableHolds(c, order, ReceivedNote, EnvKey(e));
    }
  }

  lemma DropsFit(c: Cluster, b: Books, actors: set<Uuid>, order: seq<Uuid>)
    requires ClusterKept(c, b, actors) && Enumerates(order, c.nodes.Keys) && EvidenceOnce(TraceFiles(c, order))
    ensures var t := DropTable(TraceFiles(c, order));
            && (forall key :: key in t ==> exists i, e :: i in c.nodes && i in b.dropped && e in b.dropped[i] && EnvKey(e) == key)
            && (forall i, e :: i in c.nodes && i in b.dropped && e in b.dropped[i] ==> EnvKey(e) in t)
  {
    hide Notes;
    hide TraceFiles;
    hide AllEvents;
    hide Distinct;
    hide NodeRuns;
    hide HomesIn;
    hide SentOk;
    hide EnvNotes;
    hide Own;
    hide Envelopes;
    hide KeysOnce;
    var t := DropTable(TraceFiles(c, order));
    forall key | key in t ensures exists i, e :: i in c.nodes && i in b.dropped && e in b.dropped[i] && EnvKey(e) == key {
      TableHolds(c, order, DroppedNote, key);
      var i :| i in order && Note(DroppedNote, key, t[key]) in Notes(c.nodes[i].events, DroppedNote);
      assert NodeKept(c, b, actors, i);
      NotedEnvelope(DroppedNote, b.dropped[i], Note(DroppedNote, key, t[key]));
      var e :| e in b.dropped[i] && EnvNote(DroppedNote, e) == Note(DroppedNote, key, t[key]);
      assert EnvKey(e) == key;
    }
    forall i, e | i in c.nodes && i in b.dropped && e in b.dropped[i] ensures EnvKey(e) in t {
      assert NodeKept(c, b, actors, i);
      EnvelopeNoted(DroppedNote, b.dropped[i], e);
      TableHolds(c, order, DroppedNote, EnvKey(e));
    }
  }

  /** A node took each envelope that was sent to it, and only those. */
  lemma TakenOnce(c: Cluster, b: Books, actors: set<Uuid>, i: Uuid, e: WireEnvelope)
    requires ClusterKept(c, b, actors) && i in c.nodes
    ensures i in b.received && i in b.dropped
    ensures e in b.received[i] || e in b.dropped[i] ==> e in b.sent && e.toNode == i
    ensures NothingUnderWay(c) && e in b.sent && e.toNode == i ==> e in b.received[i] || e in b.dropped[i]
    ensures e in b.received[i] ==> forall d :: d in b.dropped[i] ==> EnvKey(d) != EnvKey(e)
  {
    hide Notes;
    hide NodeRuns;
    hide HomesIn;
    hide EnvNotes;
    hide Own;
    hide SentFine;
    hide By;
    hide SentOnce;
    assert NodeKept(c, b, actors, i);
    OwnMembers(i, b.sent, e);
    var own := multiset(Own(i, b.sent));
    assert e in own <==> e in Own(i, b.sent);
    if e in b.received[i] {
      assert e in multiset(b.received[i]);
      ReceivedNotDropped(i, c.nodes[i], c.wires[i], b.sent, b.received[i], b.dropped[i], e);
    }
    if e in b.dropped[i] { assert e in multiset(b.dropped[i]); }
    if NothingUnderWay(c) {
      assert c.wires[i] == multiset{} && Envelopes(c.nodes[i].r.inj.pending) == [];
    }
  }

  lemma ReceiptOk(c: Cluster, b: Books, actors: set<Uuid>, order: seq<Uuid>, key: ClusterKey)
    requires ClusterKept(c, b, actors) && Enumerates(order, c.nodes.Keys) && EvidenceOnce(TraceFiles(c, order))
    requires key in RecvTable(TraceFiles(c, order))
    ensures key.0 in c.nodes && RecvOk(TraceFiles(c, order), key)
  {
    hide NodeKept;
    hide HomesIn;
    hide By;
    hide Notes;
    hide SendTable;
    hide RecvTable;
    hide EvidenceOnce;
    hide Included;
    hide Distinct;
    hide SentOnce;
    hide GoodMsg;
    hide MsgIndex;
    hide TraceFiles;
    SendsFit(c, b, actors, order);
    var j, r := ReceivedAs(c, b, actors, order, key);
    TakenOnce(c, b, actors, j, r);
    assert SentFine(c.nodes, actors, b.ledger, r);
  }

  lemma DroppingOk(c: Cluster, b: Books, actors: set<Uuid>, order: seq<Uuid>, key: ClusterKey)
    requires ClusterKept(c, b, actors) && Enumerates(order, c.nodes.Keys) && EvidenceOnce(TraceFiles(c, order))
    requires key in DropTable(TraceFiles(c, order))
    ensures key.0 in c.nodes && DropOk(TraceFiles(c, order), key)
  {
    hide NodeKept;
    hide HomesIn;
    hide By;
    hide Notes;
    hide SendTable;
    hide DropTable;
    hide EvidenceOnce;
    hide Included;
    hide Distinct;
    hide SentOnce;
    hide GoodMsg;
    hide MsgIndex;
    hide TraceFiles;
    SendsFit(c, b, actors, order);
    var j, d := DroppedAs(c, b, actors, order, key);
    TakenOnce(c, b, actors, j, d);
    assert SentFine(c.nodes, actors, b.ledger, d);
  }

  lemma FilesNetworkOk(c: Cluster, b: Books, actors: set<Uuid>, order: seq<Uuid>)
    requires ClusterKept(c, b, actors) && Enumerates(order, c.nodes.Keys) && EvidenceOnce(TraceFiles(c, order))
    requires NothingUnderWay(c) && Included(TraceFiles(c, order)) == c.nodes.Keys
    ensures NetworkOk(TraceFiles(c, order))
    ensures ExternalRecvs(TraceFiles(c, order)) == {} && ExternalDrops(TraceFiles(c, order)) == {}
  {
    hide ClusterKept;
    hide NothingUnderWay;
    hide SendTable;
    hide RecvTable;
    hide DropTable;
    hide EvidenceOnce;
    hide Included;
    hide Distinct;
    hide RecvOk;
    hide DropOk;
    hide TraceFiles;
    var traces := TraceFiles(c, order);
    forall key | key in RecvTable(traces) ensures RecvOk(traces, key) && key.0 in c.nodes {
      ReceiptOk(c, b, actors, order, key);
    }
    forall key | key in DropTable(traces) ensures DropOk(traces, key) && key.0 in c.nodes {
      DroppingOk(c, b, actors, order, key);
    }
    forall key | key in SendTable(traces) ensures SendOk(traces, key) {
      if key.2 in c.nodes { SendTakenOnce(c, b, actors, order, key); }
    }
  }

  lemma SendTakenOnce(c: Cluster, b: Books, actors: set<Uuid>, order: seq<Uuid>, key: ClusterKey)
    requires ClusterKept(c, b, actors) && Enumerates(order, c.nodes.Keys) && EvidenceOnce(TraceFiles(c, order))
    requires NothingUnderWay(c) && key in SendTable(TraceFiles(c, order)) && key.2 in c.nodes
    ensures key in RecvTable(TraceFiles(c, order)) <==> key !in DropTable(TraceFiles(c, order))
  {
    hide ClusterKept;
    hide NothingUnderWay;
    hide SendTable;
    hide RecvTable;
    hide DropTable;
    hide EvidenceOnce;
    hide Distinct;
    hide TraceFiles;
    var traces := TraceFiles(c, order);
    SendsFit(c, b, actors, order);
    var i := key.2;
    var e :| e in b.sent && EnvKey(e) == key;
    TakenOnce(c, b, actors, i, e);
    if e in b.received[i] { ReceiptsFit(c, b, actors, order); } else { DropsFit(c, b, actors, order); }
    if key in RecvTable(traces) && key in DropTable(traces) { NotTakenTwice(c, b, actors, order, key); }
  }

  lemma NotTakenTwice(c: Cluster, b: Books, actors: set<Uuid>, order: seq<Uuid>, key: ClusterKey)
    requires ClusterKept(c, b, actors) && Enumerates(order, c.nodes.Keys) && EvidenceOnce(TraceFiles(c, order))
    ensures !(key in RecvTable(TraceFiles(c, order)) && key in DropTable(TraceFiles(c, order)))
  {
    hide ClusterKept;
    hide RecvTable;
    hide DropTable;
    hide EvidenceOnce;
    hide Distinct;
    hide TraceFiles;
    if key in RecvTable(TraceFiles(c, order)) && key in DropTable(TraceFiles(c, order)) {
      var j, r := ReceivedAs(c, b, actors, order, key);
      var k, d := DroppedAs(c, b, actors, order, key);
      TakenOnce(c, b, actors, j, r);
      TakenOnce(c, b, actors, k, d);
    }
  }

  lemma ReceivedAs(c: Cluster, b: Books, actors: set<Uuid>, order: seq<Uuid>, key: ClusterKey) returns (j: Uuid, r: WireEnvelope)
    requires ClusterKept(c, b, actors) && Enumerates(order, c.nodes.Keys) && EvidenceOnce(TraceFiles(c, order))
    requires key in RecvTable(TraceFiles(c, order))
    ensures j in c.nodes && j in b.received && r in b.received[j] && EnvKey(r) == key
    ensures RecvTable(TraceFiles(c, order))[key] == Some(r.payload)
  {
    hide ClusterKept;
    hide RecvTable;
    ReceiptsFit(c, b, actors, order);
    j, r :| j in c.nodes && j in b.received && r in b.received[j] && EnvKey(r) == key
            && RecvTable(TraceFiles(c, order))[key] == Some(r.payload);
  }

  lemma DroppedAs(c: Cluster, b: Books, actors: set<Uuid>, order: seq<Uuid>, key: ClusterKey) returns (j: Uuid, d: WireEnvelope)
    requires ClusterKept(c, b, actors) && Enumerates(order, c.nodes.Keys) && EvidenceOnce(TraceFiles(c, order))
    requires key in DropTable(TraceFiles(c, order))
    ensures j in c.nodes && j in b.dropped && d in b.dropped[j] && EnvKey(d) == key
  {
    hide ClusterKept;
    hide DropTable;
    DropsFit(c, b, actors, order);
    j, d :| j in c.nodes && j in b.dropped && d in b.dropped[j] && EnvKey(d) == key;
  }

  // ---- the lineage of all traces ----

  /** Each trace file's index holds the messages delivered at its node, with true records. */
  ghost predicate IndexesTrue(c: Cluster, order: seq<Uuid>, l: Ledger)
    requires forall i :: i in order ==> i in c.nodes
  {
    forall i :: i in order ==> IndexTrue(l, i, IndexOf(StampAll(c.nodes[i].events)))
  }

  lemma FilesIndexed(c: Cluster, b: Books, actors: set<Uuid>, order: seq<Uuid>)
    requires ClusterKept(c, b, actors) && Enumerates(order, c.nodes.Keys) && Unsaturated(c)
    ensures IndexesTrue(c, order, b.ledger) && FilesLocal(c, order)
  {
    hide SentOk;
    hide TrafficOk;
    hide HomesIn;
    hide IndexTrue;
    hide NodeInv;
    hide StampAll;
    hide Distinct;
    hide LocalNodes;
    forall i | i in order
      ensures IndexTrue(b.ledger, i, IndexOf(StampAll(c.nodes[i].events))) && LocalNodes(StampAll(c.nodes[i].events)) == {i}
    {
      assert NodeKept(c, b, actors, i);
      IndexOfFile(c.nodes[i].events);
      LocalNodesOfFile(i, c.nodes[i].events);
    }
  }

  /** The joined index knows every delivered message, and tells the truth about it. */
  lemma {:induction false} JoinedIndex(c: Cluster, order: seq<Uuid>, l: Ledger)
    requires (forall i :: i in order ==> i in c.nodes) && IndexesTrue(c, order, l) && LedgerOk(l)
    ensures forall key :: key in GlobalIndex(TraceFiles(c, order)) ==>
              key in l.delivered && TrueRecord(l, l.info[key].home, key, GlobalIndex(TraceFiles(c, order))[key])
    ensures forall key :: key in l.delivered && l.info[key].home in order ==> key in GlobalIndex(TraceFiles(c, order))
  {
    hide StampAll;
    hide TrueRecord;
    hide IndexOf;
    if order != [] {
      var last := |order| - 1;
      var front := order[..last];
      assert order == front + [order[last]];
      JoinedIndex(c, front, l);
      assert TraceFiles(c, order)[..last] == TraceFiles(c, front);
      var index := IndexOf(StampAll(c.nodes[order[last]].events));
      assert IndexTrue(l, order[last], index);
      forall key | key in index ensures key in l.delivered && l.info[key].home == order[last] {
        assert TrueRecord(l, order[last], key, index[key]);
        HomeOf(l, order[last], key, index[key]);
      }
    }
  }

  lemma HomeOf(l: Ledger, node: Uuid, key: LineageKey, rec: LineageRecord)
    requires TrueRecord(l, node, key, rec)
    ensures key in l.delivered && key in l.info && l.info[key].home == node
  {
  }

  lemma FilesDeliverOnce(c: Cluster, order: seq<Uuid>, l: Ledger)
    requires (forall i :: i in order ==> i in c.nodes) && IndexesTrue(c, order, l) && Distinct(order)
    ensures DeliveredOnce(TraceFiles(c, order))
  {
    hide StampAll;
    hide IndexOf;
    var traces := TraceFiles(c, order);
    forall p, q, key | 0 <= p < q < |traces| && key in IndexOf(traces[p]) ensures key !in IndexOf(traces[q]) {
      assert IndexTrue(l, order[p], IndexOf(traces[p])) && IndexTrue(l, order[q], IndexOf(traces[q]));
      HomeOf(l, order[p], key, IndexOf(traces[p])[key]);
      if key in IndexOf(traces[q]) { HomeOf(l, order[q], key, IndexOf(traces[q])[key]); }
    }
  }

  /** True records continue their parents'. */
  lemma TrueContinues(l: Ledger, node: Uuid, key: LineageKey, rec: LineageRecord, home: Uuid, parent: LineageRecord)
    requires TrueRecord(l, node, key, rec) && rec.provenance.hops > 0
    requires ParentKey(rec).Some? && TrueRecord(l, home, ParentKey(rec).value, parent)
    ensures Continues(rec.provenance, parent.provenance)
  {
  }

  lemma ParentKnown(l: Ledger, node: Uuid, key: LineageKey, rec: LineageRecord)
    requires TrueRecord(l, node, key, rec) && rec.provenance.hops > 0
    ensures ParentKey(rec).Some? && ParentKey(rec).value in l.delivered && ParentKey(rec).value in l.info
  {
  }

  lemma FilesParentsOk(c: Cluster, order: seq<Uuid>, l: Ledger)
    requires Enumerates(order, c.nodes.Keys) && IndexesTrue(c, order, l) && LedgerOk(l) && HomesIn(l, c.nodes.Keys)
    ensures ParentsOk(TraceFiles(c, order)) && ExternalParents(TraceFiles(c, order)) == {}
  {
    hide StampAll;
    hide TrueRecord;
    hide IndexesTrue;
    hide Distinct;
    hide GlobalIndex;
    hide Included;
    var traces := TraceFiles(c, order);
    var index := GlobalIndex(traces);
    JoinedIndex(c, order, l);
    forall key | key in index && index[key].provenance.hops > 0
      ensures ParentKey(index[key]).Some? && ParentKey(index[key]).value in index
      ensures Continues(index[key].provenance, index[ParentKey(index[key]).value].provenance)
    {
      var home := l.info[key].home;
      ParentKnown(l, home, key, index[key]);
      var parent := ParentKey(index[key]).value;
      assert l.info[parent].home in order;
      TrueContinues(l, home, key, index[key], l.info[parent].home, index[parent]);
    }
  }

  // ---- the theorem ----

  /** Nothing a node sent was addressed to a node outside the cluster. */
  ghost predicate SendsStayInside(c: Cluster) {
    forall i, k :: i in c.nodes && k in c.nodes[i].events && k.NetSend? ==> k.toNode in c.nodes
  }

  lemma NoExternalSends(c: Cluster, order: seq<Uuid>)
    requires Enumerates(order, c.nodes.Keys) && SendsStayInside(c) && Included(TraceFiles(c, order)) == c.nodes.Keys
    ensures ExternalSends(TraceFiles(c, order)) == {}
  {
    hide Notes;
    hide Table;
    hide Distinct;
    hide StampAll;
    hide AllEvents;
    hide TraceFiles;
    hide Included;
    var traces := TraceFiles(c, order);
    var notes := Notes(AllEvents(traces), SentNote);
    TableKeys(notes);
    NotesOfAll(c, order, SentNote);
    forall key | key in SendTable(traces) ensures key.2 in c.nodes {
      var n :| n in notes && n.key == key;
      var i :| i in order && n in Notes(c.nodes[i].events, SentNote);
      NotedSends(c.nodes[i].events, n);
      var j :| 0 <= j < |c.nodes[i].events| && NoteOf(c.nodes[i].events[j]) == Some(n) && c.nodes[i].events[j].NetSend?;
      assert c.nodes[i].events[j] in c.nodes[i].events;
    }
  }

  /** Any number of nodes with distinct ids record the same loaded program, each under fault policies
      of its own, over channels that deliver every envelope once and in any order. When nothing is
      under way any more, the cluster verifier reports no problem on their traces, in whatever order
      they are given, and sees no message and no lineage from outside; and none to the outside
      unless a node sent one there. */
  lemma ClusterRunVerifies(setup: map<Uuid, Member>, schedule: seq<ClusterMove>, end: Cluster, order: seq<Uuid>)
    requires SetupOk(setup) && RunCluster(StartOf(setup), schedule) == Some(end)
    requires Unsaturated(end) && NothingUnderWay(end) && Enumerates(order, end.nodes.Keys)
    ensures var traces := TraceFiles(end, order);
            && ClusterOk(traces)
            && ExternalRecvs(traces) == {} && ExternalDrops(traces) == {} && ExternalParents(traces) == {}
            && (SendsStayInside(end) ==> ExternalSends(traces) == {})
  {
    hide SetupOk;
    hide RunCluster;
    hide NothingUnderWay;
    hide Unsaturated;
    hide SentOk;
    hide HomesIn;
    hide NodeKept;
    hide LedgerOk;
    hide LocalNodes;
    hide StampAll;
    hide EvidenceOnce;
    hide NetworkOk;
    hide DeliveredOnce;
    hide ParentsOk;
    hide Included;
    hide IndexesTrue;
    hide ExternalRecvs;
    hide ExternalDrops;
    hide ExternalParents;
    hide ExternalSends;
    hide SendsStayInside;
    var b := RunKept(setup, schedule, end);
    var actors := SharedActors(setup);
    FilesIndexed(end, b, actors, order);
    FilesInclude(end, order);
    assert (set i | i in order) == end.nodes.Keys;
    FilesEvidenceOnce(end, b, actors, order);
    FilesNetworkOk(end, b, actors, order);
    FilesDeliverOnce(end, order, b.ledger);
    FilesParentsOk(end, order, b.ledger);
    if SendsStayInside(end) { NoExternalSends(end, order); }
    forall k | 0 <= k < |order| ensures |LocalNodes(TraceFiles(end, order)[k])| == 1 {
      assert order[k] in order;
      assert LocalNodes(StampAll(end.nodes[order[k]].events)) == {order[k]};
    }
  }
}
