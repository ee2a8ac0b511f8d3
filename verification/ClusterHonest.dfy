/** Clusters of recording nodes under the cluster verifier: what every reachable state keeps. */
module ClusterHonest {
  import opened Base
  import opened Events
  import opened TraceFile
  import opened Lang
  import opened Interp
  import opened Faults
  import opened InjectorSpec
  import opened InjectorProps
  import opened Node
  import opened RecordSpec
  import opened ReplaySpec
  import opened RecordReplay
  import opened VerifySpec
  import opened VerifyMeaning
  import opened LineageSpec
  import opened ClusterSpec
  import opened LangSound
  import opened HonestNode
  import opened HonestRun
  import opened RecordTrace
  import opened RecordVerified
  import opened Wire
  import opened ClusterRun

  // ---- one node ----

  /** A node whose trace so far is clean, and which the machine and the ledger follow. */
  ghost predicate NodeRuns(i: Uuid, nr: NodeRun, core: Core, l: Ledger) {
    var v := VRun(START, nr.events);
    && nr.cfg.node == i && ValidConfig(nr.cfg)
    && RecOk(nr.cfg, nr.r) && Settled(nr.r.inj) && Sim(nr.r, core)
    && NodeInv(nr.cfg, core, v, l) && Calm(v) && v.dropped == DropsIn(nr.events)
    && IndexTrue(l, i, IndexRun(START, map[], nr.events))
    && Numbered(i, 1, nr.events, nr.r.sys.msgCounter)
    && AllLocal(i, nr.events) && (exists k :: k in nr.events && LocalNode(k) == Some(i))
  }

  lemma DropsAppend(a: seq<EventKind>, b: seq<EventKind>)
    ensures DropsIn(a + b) == DropsIn(a) + DropsIn(b)
    decreases |a|
  {
    if a == [] {
      assert a + b == b;
    } else {
      assert (a + b)[1..] == a[1..] + b;
      DropsAppend(a[1..], b);
    }
  }

  /** The outcome of one step of a node, for the node and for the ledger. */
  ghost predicate StepKeeps(i: Uuid, nr: NodeRun, l: Ledger, m: RecMove, core1: Core, l1: Ledger) {
    && NodeRuns(i, NodeRun(nr.cfg, m.state, SatAdd(nr.steps, 1), nr.events + m.events), core1, l1)
    && LedgerOk(l1) && Extends(l, l1) && OnlyBy(i, l, l1) && SendsGood(l1, m.events)
    && Numbered(i, nr.r.sys.msgCounter, m.events, m.state.sys.msgCounter)
  }

  lemma StepFollowed(i: Uuid, nr: NodeRun, core: Core, l: Ledger, arrivals: seq<WireEnvelope>, m: RecMove) returns (core1: Core)
    requires NodeRuns(i, nr, core, l) && RecordStep(nr.cfg, nr.r, nr.steps, arrivals) == Ok(m)
    requires m.state.sys.timerCounter < U64_MAX
    ensures Follows(nr.cfg, core, m.events) == Ok(core1) && Sim(m.state, core1) && RecOk(nr.cfg, m.state)
  {
    hide RecordStep;
    hide NodeInv;
    hide IndexTrue;
    hide Numbered;
    hide Settled;
    TimerCounterGrows(nr.cfg, nr.r, nr.steps, arrivals);
    UnsaturatedTellable(nr.cfg, nr.r);
    core1 := RecordStepFollows(nr.cfg, nr.r, nr.steps, arrivals, core);
    assert Follows(nr.cfg, core, m.events + []) == Follows(nr.cfg, core1, []);
    assert m.events + [] == m.events;
  }

  lemma NodeSteps(i: Uuid, nr: NodeRun, core: Core, l: Ledger, arrivals: seq<WireEnvelope>, m: RecMove, dropped: set<(Uuid, Uuid, Uuid)>)
    returns (core1: Core, l1: Ledger)
    requires NodeRuns(i, nr, core, l) && RecordStep(nr.cfg, nr.r, nr.steps, arrivals) == Ok(m)
    requires m.state.sys.timerCounter < U64_MAX && m.state.sys.msgCounter < U64_MAX
    requires InputsHonest(nr.cfg, core.sys.actors.Keys, dropped, l, m.events)
    requires DropsIn(nr.events) + DropsIn(m.events) <= dropped
    ensures StepKeeps(i, nr, l, m, core1, l1)
  {
    hide RecordStep;
    hide NodeInv;
    hide IndexTrue;
    hide ValidConfig;
    hide Numbered;
    hide Follows;
    hide InputsHonest;
    hide Drain;
    hide OnlyBy;
    hide GoodMsg;
    var v := VRun(START, nr.events);
    core1 := StepFollowed(i, nr, core, l, arrivals, m);
    l1 := TraceHonest(nr.cfg, core, v, l, IndexRun(START, map[], nr.events), m.events, core1, dropped);
    VRunAppend(START, nr.events, m.events);
    IndexRunAppend(START, map[], nr.events, m.events);
    DropsAppend(nr.events, m.events);
    FollowsNumbered(nr.cfg, core, m.events, core1);
    NumberedJoins(i, 1, nr.events, nr.r.sys.msgCounter, m.events, m.state.sys.msgCounter);
    StepEvents(nr.cfg, nr.r, nr.steps, arrivals, m);
    StepInjector(nr.cfg, nr.r, nr.steps, arrivals, m);
    DrainConserves(nr.r.inj, nr.cfg, nr.steps, arrivals);
    LedgerOfInv(nr.cfg, core1, VRun(v, m.events), l1);
    var k :| k in nr.events && LocalNode(k) == Some(i);
    assert k in nr.events + m.events;
  }

  /** Steps of other nodes do not disturb a node. */
  lemma NodeStays(i: Uuid, nr: NodeRun, core: Core, l: Ledger, other: Uuid, l1: Ledger)
    requires NodeRuns(i, nr, core, l) && LedgerOk(l1) && Extends(l, l1) && OnlyBy(other, l, l1) && other != i
    ensures NodeRuns(i, nr, core, l1)
  {
    hide NodeInv;
    hide IndexTrue;
    hide ValidConfig;
    hide Numbered;
    LedgerOfInv(nr.cfg, core, VRun(START, nr.events), l);
    NodeInvStays(nr.cfg, core, VRun(START, nr.events), l, l1);
    IndexTrueStays(l, l1, i, other, IndexRun(START, map[], nr.events));
  }

  // ---- the traffic to one node ----

  /** What was sent to a node is under way, waiting in its injector, received or dropped, and its trace
      says what was received and dropped. */
  ghost predicate TrafficOk(i: Uuid, nr: NodeRun, wire: multiset<WireEnvelope>, sent: seq<WireEnvelope>,
                            received: seq<WireEnvelope>, dropped: seq<WireEnvelope>) {
    && Notes(nr.events, ReceivedNote) == EnvNotes(ReceivedNote, received)
    && Notes(nr.events, DroppedNote) == EnvNotes(DroppedNote, dropped)
    && multiset(Own(i, sent)) == wire + multiset(Envelopes(nr.r.inj.pending)) + multiset(received) + multiset(dropped)
  }

  /** No two sent envelopes share sender and message id. */
  ghost predicate SentOnce(sent: seq<WireEnvelope>) {
    forall a, b :: 0 <= a < b < |sent| ==> (sent[a].fromNode, sent[a].msgId) != (sent[b].fromNode, sent[b].msgId)
  }

  lemma {:induction false} OneCopy(sent: seq<WireEnvelope>, i: Uuid, e: WireEnvelope)
    requires SentOnce(sent)
    ensures multiset(Own(i, sent))[e] <= 1
  {
    if sent != [] {
      var front := sent[..|sent| - 1];
      var last := sent[|sent| - 1];
      OneCopy(front, i, e);
      if e == last {
        forall x | x in front ensures x != last {
          var a :| 0 <= a < |front| && front[a] == x;
          assert sent[a] == x;
        }
        OwnMembers(i, front, e);
        assert multiset(Own(i, front))[e] == 0;
      }
    }
  }

  lemma SameKeySame(sent: seq<WireEnvelope>, d: WireEnvelope, e: WireEnvelope)
    requires SentOnce(sent) && d in sent && e in sent && d.fromNode == e.fromNode && d.msgId == e.msgId
    ensures d == e
  {
    var a :| 0 <= a < |sent| && sent[a] == d;
    var b :| 0 <= b < |sent| && sent[b] == e;
  }

  /** The traffic after a step that brings these arrivals in and sends these envelopes. */
  lemma TrafficSteps(i: Uuid, nr: NodeRun, wire: multiset<WireEnvelope>, sent: seq<WireEnvelope>,
                     received: seq<WireEnvelope>, dropped: seq<WireEnvelope>,
                     arrivals: seq<WireEnvelope>, m: RecMove, more: seq<WireEnvelope>)
    requires TrafficOk(i, nr, wire, sent, received, dropped) && nr.cfg.node == i
    requires HoldsOwn(nr.r.inj, i) && Settled(nr.r.inj)
    requires RecordStep(nr.cfg, nr.r, nr.steps, arrivals) == Ok(m) && multiset(arrivals) <= wire
    ensures var d := Drain(nr.r.inj, i, nr.steps, arrivals);
            TrafficOk(i, NodeRun(nr.cfg, m.state, SatAdd(nr.steps, 1), nr.events + m.events),
                      wire - multiset(arrivals) + multiset(Own(i, more)), sent + more,
                      received + d.released, dropped + StepDrops(nr.cfg, nr.r.inj, nr.steps, arrivals))
  {
    hide RecordStep;
    hide Drain;
    hide Own;
    hide Notes;
    hide EnvNotes;
    hide Envelopes;
    hide HoldsOwn;
    hide StepDrops;
    var d := Drain(nr.r.inj, i, nr.steps, arrivals);
    var drops := StepDrops(nr.cfg, nr.r.inj, nr.steps, arrivals);
    ArrivalsAreOwn(i, nr, wire, sent, received, dropped, arrivals);
    StepTakes(nr.cfg, nr.r, nr.steps, arrivals, m);
    StepInjector(nr.cfg, nr.r, nr.steps, arrivals, m);
    DrainConserves(nr.r.inj, nr.cfg, nr.steps, arrivals);
    OwnAppend(i, sent, more);
    NotesAppend(nr.events, m.events, ReceivedNote);
    NotesAppend(nr.events, m.events, DroppedNote);
    EnvNotesAppend(ReceivedNote, received, d.released);
    EnvNotesAppend(DroppedNote, dropped, drops);
    Balance(multiset(Own(i, sent)), wire, multiset(Envelopes(nr.r.inj.pending)), multiset(received), multiset(dropped),
            multiset(arrivals), multiset(drops), multiset(d.released), multiset(Envelopes(m.state.inj.pending)), multiset(Own(i, more)));
  }

  lemma Balance<T>(own: multiset<T>, wire: multiset<T>, waiting: multiset<T>, received: multiset<T>, dropped: multiset<T>,
                   arrivals: multiset<T>, drops: multiset<T>, released: multiset<T>, left: multiset<T>, more: multiset<T>)
    requires own == wire + waiting + received + dropped && arrivals <= wire
    requires arrivals + waiting == drops + released + left
    ensures own + more == (wire - arrivals + more) + left + (received + released) + (dropped + drops)
  {
    forall x: T ensures (own + more)[x] == ((wire - arrivals + more) + left + (received + released) + (dropped + drops))[x] {
      assert (arrivals + waiting)[x] == (drops + released + left)[x];
    }
  }

  lemma ArrivalsAreOwn(i: Uuid, nr: NodeRun, wire: multiset<WireEnvelope>, sent: seq<WireEnvelope>,
                       received: seq<WireEnvelope>, dropped: seq<WireEnvelope>, arrivals: seq<WireEnvelope>)
    requires TrafficOk(i, nr, wire, sent, received, dropped) && multiset(arrivals) <= wire
    ensures Own(i, arrivals) == arrivals
  {
    hide Own;
    hide Notes;
    hide EnvNotes;
    forall e | e in arrivals ensures e.toNode == i {
      assert e in multiset(arrivals);
      assert e in multiset(Own(i, sent));
      OwnMembers(i, sent, e);
    }
    OwnAll(i, arrivals);
  }

  /** A received envelope was sent to this node, and no dropped one shares its sender and id. */
  lemma ReceivedNotDropped(i: Uuid, nr: NodeRun, wire: multiset<WireEnvelope>, sent: seq<WireEnvelope>,
                           received: seq<WireEnvelope>, dropped: seq<WireEnvelope>, e: WireEnvelope)
    requires TrafficOk(i, nr, wire, sent, received, dropped) && SentOnce(sent) && e in received
    ensures e in sent && e.toNode == i
    ensures forall d :: d in dropped ==> (d.fromNode, d.msgId) != (e.fromNode, e.msgId)
  {
    hide Own;
    hide Notes;
    hide EnvNotes;
    assert e in multiset(received);
    assert e in multiset(Own(i, sent));
    OwnMembers(i, sent, e);
    OneCopy(sent, i, e);
    forall d | d in dropped ensures (d.fromNode, d.msgId) != (e.fromNode, e.msgId) {
      assert d in multiset(dropped);
      assert d in multiset(Own(i, sent));
      OwnMembers(i, sent, d);
      if d.fromNode == e.fromNode && d.msgId == e.msgId {
        SameKeySame(sent, d, e);
        assert false;
      }
    }
  }

  lemma {:induction false} DropsHaveNotes(i: Uuid, evs: seq<EventKind>, d: (Uuid, Uuid, Uuid)) returns (n: Note)
    requires AllLocal(i, evs) && d in DropsIn(evs)
    ensures n in Notes(evs, DroppedNote) && n.key == (d.0, d.2, i)
  {
    assert evs == [evs[0]] + evs[1..];
    NotesAppend([evs[0]], evs[1..], DroppedNote);
    if d in NewlyDropped(evs[0]) {
      assert evs[0] in evs;
      OneNote(evs[0], DroppedNote);
      n := NoteOf(evs[0]).value;
    } else {
      n := DropsHaveNotes(i, evs[1..], d);
    }
  }

  lemma DropsWereDropped(i: Uuid, evs: seq<EventKind>, dropped: seq<WireEnvelope>, d: (Uuid, Uuid, Uuid))
    requires AllLocal(i, evs) && Notes(evs, DroppedNote) == EnvNotes(DroppedNote, dropped) && d in DropsIn(evs)
    ensures exists e :: e in dropped && (e.fromNode, e.msgId) == (d.0, d.2)
  {
    hide Notes;
    hide AllLocal;
    hide DropsIn;
    var n := DropsHaveNotes(i, evs, d);
    var k :| 0 <= k < |dropped| && EnvNotes(DroppedNote, dropped)[k] == n;
    assert dropped[k] in dropped;
  }

  /** So a received envelope is not among what the verifier has seen dropped. */
  lemma ReceiptFits(i: Uuid, nr: NodeRun, wire: multiset<WireEnvelope>, sent: seq<WireEnvelope>,
                    received: seq<WireEnvelope>, dropped: seq<WireEnvelope>, e: WireEnvelope)
    requires TrafficOk(i, nr, wire, sent, received, dropped) && SentOnce(sent) && e in received
    requires AllLocal(i, nr.events)
    ensures e in sent && e.toNode == i
    ensures (e.fromNode, e.toActor, e.msgId) !in DropsIn(nr.events)
  {
    hide Own;
    hide Notes;
    hide EnvNotes;
    hide AllLocal;
    hide DropsIn;
    ReceivedNotDropped(i, nr, wire, sent, received, dropped, e);
    if (e.fromNode, e.toActor, e.msgId) in DropsIn(nr.events) {
      DropsWereDropped(i, nr.events, dropped, (e.fromNode, e.toActor, e.msgId));
    }
  }

  // ---- what has been sent ----

  function By(node: Uuid, envs: seq<WireEnvelope>): seq<WireEnvelope> {
    if envs == [] then []
    else
      var last := envs[|envs| - 1];
      By(node, envs[..|envs| - 1]) + if last.fromNode == node then [last] else []
  }

  lemma {:induction false} ByAppend(node: Uuid, a: seq<WireEnvelope>, b: seq<WireEnvelope>)
    ensures By(node, a + b) == By(node, a) + By(node, b)
    decreases |b|
  {
    if b == [] {
      assert a + b == a;
    } else {
      assert (a + b)[..|a + b| - 1] == a + b[..|b| - 1];
      ByAppend(node, a, b[..|b| - 1]);
    }
  }

  lemma {:induction false} ByOne(node: Uuid, other: Uuid, envs: seq<WireEnvelope>)
    requires forall e :: e in envs ==> e.fromNode == node
    ensures By(other, envs) == if other == node then envs else []
  {
    if envs != [] {
      assert envs[|envs| - 1] in envs;
      ByOne(node, other, envs[..|envs| - 1]);
    }
  }

  lemma {:induction false} ByMembers(node: Uuid, envs: seq<WireEnvelope>, e: WireEnvelope)
    ensures e in By(node, envs) <==> e in envs && e.fromNode == node
  {
    if envs != [] {
      assert envs == envs[..|envs| - 1] + [envs[|envs| - 1]];
      ByMembers(node, envs[..|envs| - 1], e);
    }
  }

  /** A sent envelope comes from a node of the cluster, carries one of the ids that node has used so
      far and a message of the ledger, and goes to an actor of the program. */
  ghost predicate SentFine(nodes: map<Uuid, NodeRun>, actors: set<Uuid>, l: Ledger, e: WireEnvelope) {
    && e.fromNode in nodes && e.toActor in actors
    && GoodMsg(l, e.toNode, e.msgId, e.payload)
    && MsgIndex(e.fromNode, e.msgId) < nodes[e.fromNode].r.sys.msgCounter
  }

  ghost predicate SentOk(nodes: map<Uuid, NodeRun>, actors: set<Uuid>, l: Ledger, sent: seq<WireEnvelope>) {
    && SentOnce(sent)
    && (forall e :: e in sent ==> SentFine(nodes, actors, l, e))
    && (forall i :: i in nodes ==> Notes(nodes[i].events, SentNote) == EnvNotes(SentNote, By(i, sent)))
  }

  lemma {:induction false} NotedSends(kinds: seq<EventKind>, n: Note)
    requires n in Notes(kinds, SentNote)
    ensures exists j :: 0 <= j < |kinds| && NoteOf(kinds[j]) == Some(n) && kinds[j].NetSend?
  {
    hide NoteOf;
    var last := |kinds| - 1;
    if NoteOf(kinds[last]) == Some(n) && n.what == SentNote {
      assert kinds[last].NetSend? by { NoteKind(kinds[last]); }
    } else {
      NotedSends(kinds[..last], n);
      var j :| 0 <= j < last && NoteOf(kinds[..last][j]) == Some(n) && kinds[..last][j].NetSend?;
      assert NoteOf(kinds[j]) == Some(n) && kinds[j].NetSend?;
    }
  }

  lemma NoteKind(k: EventKind)
    ensures NoteOf(k).Some? && NoteOf(k).value.what == SentNote ==> k.NetSend?
    ensures k.NetSend? ==> NoteOf(k) == Some(Note(SentNote, (k.node, k.msgId, k.toNode), Some(k.payload)))
  {
  }

  ghost predicate IdsOnce(kinds: seq<EventKind>) {
    forall i, j :: 0 <= i < j < |kinds| && IsSend(kinds[i]) && IsSend(kinds[j]) ==> kinds[i].msgId != kinds[j].msgId
  }

  lemma {:induction false} NotesOnce(kinds: seq<EventKind>)
    requires IdsOnce(kinds)
    ensures forall a, b :: 0 <= a < b < |Notes(kinds, SentNote)| ==> Notes(kinds, SentNote)[a].key.1 != Notes(kinds, SentNote)[b].key.1
  {
    hide NoteOf;
    if kinds != [] {
      var last := |kinds| - 1;
      var front := kinds[..last];
      assert forall j :: 0 <= j < last ==> front[j] == kinds[j];
      assert IdsOnce(front);
      NotesOnce(front);
      forall n | n in Notes(front, SentNote) && kinds[last].NetSend? ensures n.key.1 != kinds[last].msgId {
        NotedSends(front, n);
        var j :| 0 <= j < last && NoteOf(front[j]) == Some(n) && front[j].NetSend?;
        NoteKind(front[j]);
        assert kinds[j].msgId != kinds[last].msgId;
      }
      NoteKind(kinds[last]);
    }
  }

  /** What one step sends: distinct fresh ids. */
  lemma SendsAreFresh(i: Uuid, lo: nat, kinds: seq<EventKind>, hi: nat, envs: seq<WireEnvelope>)
    requires Numbered(i, lo, kinds, hi)
    requires Notes(kinds, SentNote) == EnvNotes(SentNote, envs)
    requires forall e :: e in envs ==> e.fromNode == i
    ensures SentOnce(envs)
    ensures forall e :: e in envs ==> lo <= MsgIndex(i, e.msgId) < hi
  {
    hide Notes;
    hide Numbered;
    hide MsgIndex;
    NumberedIds(i, lo, kinds, hi);
    NotesOnce(kinds);
    forall a, b | 0 <= a < b < |envs| ensures (envs[a].fromNode, envs[a].msgId) != (envs[b].fromNode, envs[b].msgId) {
      assert Notes(kinds, SentNote)[a].key.1 == envs[a].msgId;
      assert Notes(kinds, SentNote)[b].key.1 == envs[b].msgId;
    }
    forall e | e in envs ensures lo <= MsgIndex(i, e.msgId) < hi {
      var a :| 0 <= a < |envs| && envs[a] == e;
      var n := Notes(kinds, SentNote)[a];
      assert n == EnvNote(SentNote, e);
      NotedSends(kinds, n);
      var j :| 0 <= j < |kinds| && NoteOf(kinds[j]) == Some(n) && kinds[j].NetSend?;
      assert IsSend(kinds[j]) && kinds[j].msgId == e.msgId;
    }
  }

  lemma SentOnceJoins(sent: seq<WireEnvelope>, more: seq<WireEnvelope>, i: Uuid, lo: nat)
    requires SentOnce(sent) && SentOnce(more)
    requires forall e :: e in sent && e.fromNode == i ==> MsgIndex(i, e.msgId) < lo
    requires forall e :: e in more ==> e.fromNode == i && lo <= MsgIndex(i, e.msgId)
    ensures SentOnce(sent + more)
  {
    hide MsgIndex;
    var all := sent + more;
    forall a, b | 0 <= a < b < |all| ensures (all[a].fromNode, all[a].msgId) != (all[b].fromNode, all[b].msgId) {
      if a < |sent| <= b {
        assert all[a] in sent && all[b] in more;
      }
    }
  }

  lemma SentFineStays(nodes: map<Uuid, NodeRun>, nodes1: map<Uuid, NodeRun>, actors: set<Uuid>, l: Ledger, l1: Ledger, e: WireEnvelope)
    requires SentFine(nodes, actors, l, e) && Extends(l, l1) && nodes.Keys == nodes1.Keys
    requires forall i :: i in nodes ==> nodes[i].r.sys.msgCounter <= nodes1[i].r.sys.msgCounter
    ensures SentFine(nodes1, actors, l1, e)
  {
    hide GoodMsg;
    GoodMsgStays(l, l1, e.toNode, e.msgId, e.payload);
  }

  lemma GoodSend(l1: Ledger, evs: seq<EventKind>, envs: seq<WireEnvelope>, e: WireEnvelope)
    requires SendsGood(l1, evs) && Notes(evs, SentNote) == EnvNotes(SentNote, envs) && e in envs
    ensures GoodMsg(l1, e.toNode, e.msgId, e.payload)
  {
    hide GoodMsg;
    hide Notes;
    var a :| 0 <= a < |envs| && envs[a] == e;
    var n := Notes(evs, SentNote)[a];
    NotedSends(evs, n);
    var j :| 0 <= j < |evs| && NoteOf(evs[j]) == Some(n) && evs[j].NetSend?;
    assert GoodMsg(l1, evs[j].toNode, evs[j].msgId, evs[j].payload);
  }

  lemma SentSteps(nodes: map<Uuid, NodeRun>, actors: set<Uuid>, l: Ledger, sent: seq<WireEnvelope>,
                  i: Uuid, nr1: NodeRun, evs: seq<EventKind>, l1: Ledger, more: seq<WireEnvelope>)
    requires SentOk(nodes, actors, l, sent) && i in nodes
    requires nr1.events == nodes[i].events + evs
    requires Numbered(i, nodes[i].r.sys.msgCounter, evs, nr1.r.sys.msgCounter)
    requires Extends(l, l1) && SendsGood(l1, evs)
    requires Notes(evs, SentNote) == EnvNotes(SentNote, more)
    requires forall e :: e in more ==> e.fromNode == i && e.toActor in actors
    ensures SentOk(nodes[i := nr1], actors, l1, sent + more)
  {
    hide GoodMsg;
    hide Notes;
    hide EnvNotes;
    hide Numbered;
    hide MsgIndex;
    hide By;
    hide SentOnce;
    hide SendsGood;
    hide Extends;
    var lo := nodes[i].r.sys.msgCounter;
    var nodes1 := nodes[i := nr1];
    SendsAreFresh(i, lo, evs, nr1.r.sys.msgCounter, more);
    NumberedIds(i, lo, evs, nr1.r.sys.msgCounter);
    forall e | e in sent && e.fromNode == i ensures MsgIndex(i, e.msgId) < lo {
      assert SentFine(nodes, actors, l, e);
    }
    SentOnceJoins(sent, more, i, lo);
    forall e | e in sent + more ensures SentFine(nodes1, actors, l1, e) {
      if e in sent { SentFineStays(nodes, nodes1, actors, l, l1, e); } else { GoodSend(l1, evs, more, e); }
    }
    forall j | j in nodes1 ensures Notes(nodes1[j].events, SentNote) == EnvNotes(SentNote, By(j, sent + more)) {
      ByAppend(j, sent, more);
      ByOne(i, j, more);
      if j == i {
        NotesAppend(nodes[i].events, evs, SentNote);
        EnvNotesAppend(SentNote, By(i, sent), more);
      } else {
        assert By(j, sent) + [] == By(j, sent);
      }
    }
  }
}
