/** Envelopes go to the actor of the service they were addressed to, on the wire and at the receiver. */
module Addressing {
  import opened Base
  import opened Sorting
  import opened Events
  import opened Lang
  import opened Interp
  import opened InjectorSpec
  import opened InjectorProps
  import opened Node
  import opened RecordSpec
  import opened RecordReplay
  import opened RecordTrace
  import opened RecordVerified
  import opened DeliveryMeaning
  import opened Wire
  import opened ClusterSpec
  import opened ClusterRun
  import ClusterMeaning

  /** A message a handler or a timer sends to another node. */
  datatype RemoteSend = RemoteSend(node: Uuid, service: string, payload: Payload)

  /** The messages for other nodes among those of an outbox that are sent at once. */
  function RemoteOf(outs: seq<Outgoing>): seq<RemoteSend> {
    if outs == [] then []
    else
      match outs[0].target
      case LocalService(_) => RemoteOf(outs[1..])
      case RemoteService(node, service) => [RemoteSend(node, service, outs[0].payload)] + RemoteOf(outs[1..])
  }

  /** The messages for other nodes among those of timers. */
  function RemoteTimers(ts: seq<PendingTimer>): seq<RemoteSend> {
    if ts == [] then []
    else
      match ts[0].core.target
      case LocalService(_) => RemoteTimers(ts[1..])
      case RemoteService(node, service) => [RemoteSend(node, service, ts[0].core.payload)] + RemoteTimers(ts[1..])
  }

  /** The envelope of a message for another node: from this node to that one, with its payload, and to the
      actor of the service it names. */
  predicate Envelops(cfg: Config, e: WireEnvelope, r: RemoteSend) {
    && r.service in cfg.actorOf && e.toActor == cfg.actorOf[r.service]
    && e.fromNode == cfg.node && e.toNode == r.node && e.payload == r.payload
  }

  predicate AllEnvelop(cfg: Config, envs: seq<WireEnvelope>, sends: seq<RemoteSend>) {
    |envs| == |sends| && forall i :: 0 <= i < |envs| ==> Envelops(cfg, envs[i], sends[i])
  }

  lemma EnvelopJoin(cfg: Config, a: seq<WireEnvelope>, ra: seq<RemoteSend>, b: seq<WireEnvelope>, rb: seq<RemoteSend>)
    requires AllEnvelop(cfg, a, ra) && AllEnvelop(cfg, b, rb)
    ensures AllEnvelop(cfg, a + b, ra + rb)
  {
  }

  lemma DispatchEnvelops(cfg: Config, s: Sys, from: Uuid, target: Target, p: Payload)
    requires Dispatch(cfg, s, from, target, p).Ok?
    ensures AllEnvelop(cfg, DispatchWire(cfg, s, target, p),
                       match target case LocalService(_) => [] case RemoteService(node, service) => [RemoteSend(node, service, p)])
  {
  }

  lemma {:induction false} OutboxEnvelops(cfg: Config, s: Sys, from: Uuid, outbox: seq<Outgoing>)
    requires ProcessOutbox(cfg, s, from, outbox).Ok?
    ensures AllEnvelop(cfg, OutboxWire(cfg, s, from, outbox), RemoteOf(AtOnce(outbox)))
    decreases |outbox|
  {
    hide Dispatch;
    hide DispatchWire;
    hide Envelops;
    if outbox != [] {
      if outbox[0].delaySteps > 0 {
        OutboxEnvelops(cfg, s.(timerCounter := SatAdd(s.timerCounter, 1)), from, outbox[1..]);
        assert AtOnce(outbox) == AtOnce(outbox[1..]);
      } else {
        var o := outbox[0];
        var s1 := Dispatch(cfg, s, from, o.target, o.payload).value.0;
        DispatchEnvelops(cfg, s, from, o.target, o.payload);
        OutboxEnvelops(cfg, s1, from, outbox[1..]);
        assert AtOnce(outbox) == [o] + AtOnce(outbox[1..]) && ([o] + AtOnce(outbox[1..]))[1..] == AtOnce(outbox[1..]);
        var first := match o.target case LocalService(_) => [] case RemoteService(node, service) => [RemoteSend(node, service, o.payload)];
        assert RemoteOf(AtOnce(outbox)) == first + RemoteOf(AtOnce(outbox[1..]));
        EnvelopJoin(cfg, DispatchWire(cfg, s, o.target, o.payload), first, OutboxWire(cfg, s1, from, outbox[1..]), RemoteOf(AtOnce(outbox[1..])));
      }
    }
  }

  lemma {:induction false} FiringsEnvelop(cfg: Config, s: Sys, due: seq<PendingTimer>)
    requires FireAll(cfg, s, due).Ok?
    ensures AllEnvelop(cfg, FireWire(cfg, s, due), RemoteTimers(due))
    decreases |due|
  {
    hide Dispatch;
    hide DispatchWire;
    hide Envelops;
    if due != [] {
      var t := due[0].core;
      var s1 := Dispatch(cfg, s, t.from, t.target, t.payload).value.0;
      DispatchEnvelops(cfg, s, t.from, t.target, t.payload);
      FiringsEnvelop(cfg, s1, due[1..]);
      var first := match t.target case LocalService(_) => [] case RemoteService(node, service) => [RemoteSend(node, service, t.payload)];
      assert RemoteTimers(due) == first + RemoteTimers(due[1..]);
      EnvelopJoin(cfg, DispatchWire(cfg, s, t.target, t.payload), first, FireWire(cfg, s1, due[1..]), RemoteTimers(due[1..]));
    }
  }

  /** The messages for other nodes of a step: those of the timers that fire, then those its handler sends
      at once. */
  function StepRemote(cfg: Config, r: RecState, step: U64, arrivals: seq<WireEnvelope>): seq<RemoteSend> {
    RemoteTimers(SortBy(TimerKey, Due(r.timers, step))) +
    match StepDelivery(cfg, r, step, arrivals)
    case None => []
    case Some(d) =>
      if d.to !in d.before.actors || d.entry.payload.Undecodable? then []
      else
        var a := d.before.actors[d.to];
        match ExecHandler(cfg, Call(a.service, d.entry.id, d.entry.payload.msg), a.store)
        case Err(_) => []
        case Ok(run) => RemoteOf(AtOnce(run.exec.outbox))
  }

  /** What a step puts on the wire are the envelopes of exactly these messages, in order: each for the
      node, and for the actor of the service, that the handler or timer names. */
  lemma WireAddressed(cfg: Config, r: RecState, step: U64, arrivals: seq<WireEnvelope>)
    requires RecordStep(cfg, r, step, arrivals).Ok?
    ensures AllEnvelop(cfg, StepWire(cfg, r, step, arrivals), StepRemote(cfg, r, step, arrivals))
  {
    hide Drain;
    hide FireAll;
    hide FireWire;
    hide ExecHandler;
    hide ProcessOutbox;
    hide OutboxWire;
    hide EffectSeq;
    hide AllEnvelop;
    hide SortBy;
    hide Due;
    hide RemoteTimers;
    hide RemoteOf;
    var d := DrainStep(cfg, r, step, arrivals).state;
    var due := SortBy(TimerKey, Due(d.timers, step));
    var f := FireDue(cfg, d, step).value.state;
    FiringsEnvelop(cfg, d.sys, due);
    if LeastReady(f.sys.actors).Some? {
      var to := LeastReady(f.sys.actors).value;
      var p := Pop(f.sys, to).value;
      var a := p.sys.actors[to];
      var run := ExecHandler(cfg, Call(a.service, p.entry.id, p.entry.payload.msg), a.store).value;
      var s1 := p.sys.(actors := p.sys.actors[to := a.(store := run.exec.store)]);
      OutboxEnvelops(cfg, s1, to, run.exec.outbox);
      EnvelopJoin(cfg, FireWire(cfg, d.sys, due), RemoteTimers(due), OutboxWire(cfg, s1, to, run.exec.outbox), RemoteOf(AtOnce(run.exec.outbox)));
    } else {
      NothingEnveloped(cfg);
      EnvelopJoin(cfg, FireWire(cfg, d.sys, due), RemoteTimers(due), [], []);
    }
  }

  lemma NothingEnveloped(cfg: Config)
    ensures AllEnvelop(cfg, [], [])
  {
  }

  // ---- in a cluster ----

  /** In its p-th move the cluster put this envelope on the wire. */
  ghost predicate PostedAt(setup: map<Uuid, Member>, schedule: seq<ClusterMove>, p: nat, e: WireEnvelope)
    requires SetupOk(setup) && p < |schedule|
  {
    match RunCluster(StartOf(setup), schedule[..p])
    case None => false
    case Some(mid) =>
      && CanStep(mid, schedule[p])
      && var nr := mid.nodes[schedule[p].node];
         e in StepWire(nr.cfg, nr.r, nr.steps, schedule[p].arrivals)
  }

  ghost predicate Posted(setup: map<Uuid, Member>, schedule: seq<ClusterMove>, e: WireEnvelope)
    requires SetupOk(setup)
  {
    exists p: nat :: p < |schedule| && PostedAt(setup, schedule, p, e)
  }

  lemma StaysPosted(setup: map<Uuid, Member>, schedule: seq<ClusterMove>, mv: ClusterMove, e: WireEnvelope)
    requires SetupOk(setup) && Posted(setup, schedule, e)
    ensures Posted(setup, schedule + [mv], e)
  {
    hide RunCluster;
    hide CanStep;
    hide StepWire;
    hide SetupOk;
    var p: nat :| p < |schedule| && PostedAt(setup, schedule, p, e);
    assert (schedule + [mv])[..p] == schedule[..p] && (schedule + [mv])[p] == schedule[p];
    assert PostedAt(setup, schedule + [mv], p, e);
  }

  /** A receipt of an envelope. */
  predicate ReceiptOf(k: EventKind, e: WireEnvelope) {
    k == NetRecv(e.toNode, e.fromNode, e.toActor, e.msgId, e.payload)
  }

  /** What a node holds and has received was put on the wire. */
  ghost predicate NodePosted(setup: map<Uuid, Member>, schedule: seq<ClusterMove>, i: Uuid, nr: NodeRun)
    requires SetupOk(setup)
  {
    && i in setup && nr.cfg == setup[i].cfg && HoldsOwn(nr.r.inj, i) && Settled(nr.r.inj)
    && (forall e :: e in Envelopes(nr.r.inj.pending) ==> Posted(setup, schedule, e))
    && (forall k :: k in nr.events && k.NetRecv? ==> exists e :: Posted(setup, schedule, e) && ReceiptOf(k, e))
  }

  ghost predicate AllPosted(setup: map<Uuid, Member>, schedule: seq<ClusterMove>, c: Cluster)
    requires SetupOk(setup)
  {
    && (forall j, e :: j in c.wires && e in c.wires[j] ==> Posted(setup, schedule, e))
    && (forall i :: i in c.nodes ==> NodePosted(setup, schedule, i, c.nodes[i]))
  }

  lemma NodeStaysPosted(setup: map<Uuid, Member>, schedule: seq<ClusterMove>, mv: ClusterMove, i: Uuid, nr: NodeRun)
    requires SetupOk(setup) && NodePosted(setup, schedule, i, nr)
    ensures NodePosted(setup, schedule + [mv], i, nr)
  {
    hide SetupOk;
    hide Posted;
    hide HoldsOwn;
    hide ReceiptOf;
    forall e | Posted(setup, schedule, e) ensures Posted(setup, schedule + [mv], e) { StaysPosted(setup, schedule, mv, e); }
  }

  lemma StepReceives(nr: NodeRun, arrivals: seq<WireEnvelope>, m: RecMove)
    requires RecordStep(nr.cfg, nr.r, nr.steps, arrivals) == Ok(m) && HoldsOwn(nr.r.inj, nr.cfg.node) && Settled(nr.r.inj)
    ensures HoldsOwn(m.state.inj, nr.cfg.node) && Settled(m.state.inj)
    ensures forall e :: e in Envelopes(m.state.inj.pending) ==> e in arrivals || e in Envelopes(nr.r.inj.pending)
    ensures forall k :: k in m.events && k.NetRecv? ==>
              exists e :: (e in arrivals || e in Envelopes(nr.r.inj.pending)) && ReceiptOf(k, e)
  {
    hide RecordStep;
    hide Drain;
    hide HoldsOwn;
    hide Settled;
    hide Envelopes;
    hide Own;
    hide StepDrops;
    var d := Drain(nr.r.inj, nr.cfg.node, nr.steps, arrivals);
    StepEvents(nr.cfg, nr.r, nr.steps, arrivals, m);
    StepInjector(nr.cfg, nr.r, nr.steps, arrivals, m);
    DrainQuiet(nr.r.inj, nr.cfg.node, nr.steps, arrivals);
    DrainConserves(nr.r.inj, nr.cfg, nr.steps, arrivals);
    forall e | e in d.released || e in Envelopes(d.inj.pending) ensures e in arrivals || e in Envelopes(nr.r.inj.pending) {
      assert e in multiset(d.released) || e in multiset(Envelopes(d.inj.pending));
      assert e in multiset(Own(nr.cfg.node, arrivals)) + multiset(Envelopes(nr.r.inj.pending));
      OwnMembers(nr.cfg.node, arrivals, e);
    }
    forall k | k in m.events && k.NetRecv? ensures exists e :: (e in arrivals || e in Envelopes(nr.r.inj.pending)) && ReceiptOf(k, e) {
      var i :| 0 <= i < |d.released| && RecvEvents(d.released)[i] == k;
      assert d.released[i] in d.released && ReceiptOf(k, d.released[i]);
    }
  }

  lemma {:induction false} PostedWires(wires: map<Uuid, multiset<WireEnvelope>>, envs: seq<WireEnvelope>)
    ensures forall j, e :: j in Post(wires, envs) && e in Post(wires, envs)[j] ==> (j in wires && e in wires[j]) || e in envs
  {
    if envs != [] {
      var front := envs[..|envs| - 1];
      PostedWires(wires, front);
      assert forall e :: e in front ==> e in envs;
    }
  }

  /** One move keeps it so. */
  lemma MovePosted(setup: map<Uuid, Member>, front: seq<ClusterMove>, mv: ClusterMove, mid: Cluster)
    requires SetupOk(setup) && RunCluster(StartOf(setup), front) == Some(mid) && CanStep(mid, mv) && AllPosted(setup, front, mid)
    ensures AllPosted(setup, front + [mv], AfterStep(mid, mv))
  {
    hide RecordStep;
    hide StepWire;
    hide Posted;
    hide SetupOk;
    hide NodePosted;
    hide RunCluster;
    var schedule := front + [mv];
    assert schedule[..|schedule| - 1] == front;
    var nr := mid.nodes[mv.node];
    var m := RecordStep(nr.cfg, nr.r, nr.steps, mv.arrivals).value;
    var out := StepWire(nr.cfg, nr.r, nr.steps, mv.arrivals);
    forall e | e in out ensures Posted(setup, schedule, e) { JustPosted(setup, schedule, mid, e); }
    forall e | Posted(setup, front, e) ensures Posted(setup, schedule, e) { StaysPosted(setup, front, mv, e); }
    PostedWires(mid.wires[mv.node := mid.wires[mv.node] - multiset(mv.arrivals)], out);
    forall i | i in mid.nodes ensures NodePosted(setup, schedule, i, AfterStep(mid, mv).nodes[i]) {
      NodeStaysPosted(setup, front, mv, i, mid.nodes[i]);
      if i == mv.node {
        assert forall e :: e in mv.arrivals ==> e in multiset(mv.arrivals);
        StepPosted(setup, schedule, i, nr, mv.arrivals, m);
      }
    }
  }

  /** Whatever a cluster has under way or has received was put on the wire by one of its moves. */
  lemma {:induction false} EverythingPosted(setup: map<Uuid, Member>, schedule: seq<ClusterMove>, end: Cluster)
    requires SetupOk(setup) && RunCluster(StartOf(setup), schedule) == Some(end)
    ensures AllPosted(setup, schedule, end)
  {
    hide AllPosted;
    hide CanStep;
    hide AfterStep;
    hide StartOf;
    hide Startup;
    hide ValidConfig;
    if schedule == [] {
      NothingPosted(setup);
    } else {
      var n := |schedule| - 1;
      var front, mv := schedule[..n], schedule[n];
      assert schedule == front + [mv];
      var mid := RunCluster(StartOf(setup), front).value;
      EverythingPosted(setup, front, mid);
      MovePosted(setup, front, mv, mid);
    }
  }

  lemma NothingPosted(setup: map<Uuid, Member>)
    requires SetupOk(setup)
    ensures AllPosted(setup, [], StartOf(setup))
  {
    hide Startup;
    hide Posted;
    forall i | i in setup ensures NodePosted(setup, [], i, StartOf(setup).nodes[i]) {
      StartupLocal(setup[i].cfg, Startup(setup[i].cfg).value);
    }
  }

  lemma JustPosted(setup: map<Uuid, Member>, schedule: seq<ClusterMove>, mid: Cluster, e: WireEnvelope)
    requires SetupOk(setup) && schedule != [] && RunCluster(StartOf(setup), schedule[..|schedule| - 1]) == Some(mid)
    requires CanStep(mid, schedule[|schedule| - 1])
    requires var mv := schedule[|schedule| - 1]; var nr := mid.nodes[mv.node]; e in StepWire(nr.cfg, nr.r, nr.steps, mv.arrivals)
    ensures Posted(setup, schedule, e)
  {
    hide SetupOk;
    hide RunCluster;
    hide CanStep;
    hide StepWire;
    assert PostedAt(setup, schedule, |schedule| - 1, e);
  }

  lemma StepPosted(setup: map<Uuid, Member>, schedule: seq<ClusterMove>, i: Uuid, nr: NodeRun, arrivals: seq<WireEnvelope>, m: RecMove)
    requires SetupOk(setup) && NodePosted(setup, schedule, i, nr) && nr.steps < U64_MAX
    requires RecordStep(nr.cfg, nr.r, nr.steps, arrivals) == Ok(m) && forall e :: e in arrivals ==> Posted(setup, schedule, e)
    ensures NodePosted(setup, schedule, i, NodeRun(nr.cfg, m.state, nr.steps + 1, nr.events + m.events))
  {
    hide RecordStep;
    hide Posted;
    hide HoldsOwn;
    hide Settled;
    hide Envelopes;
    assert nr.cfg.node == i;
    StepReceives(nr, arrivals, m);
    forall k | k in nr.events + m.events && k.NetRecv? ensures exists e :: Posted(setup, schedule, e) && ReceiptOf(k, e) {
      if k in m.events {
        var e :| (e in arrivals || e in Envelopes(nr.r.inj.pending)) && ReceiptOf(k, e);
        assert Posted(setup, schedule, e);
      }
    }
  }

  /** Whatever a node of a cluster receives was sent in one move of the cluster by a handler or a timer,
      which named this node and the service whose actor receives it; the payload is that of the
      message, and the NetSend event of that move has the id of the receipt. */
  lemma ReceivedAsAddressed(setup: map<Uuid, Member>, schedule: seq<ClusterMove>, end: Cluster, i: Uuid, k: EventKind)
    returns (p: nat, sender: NodeRun, sent: RemoteSend)
    requires SetupOk(setup) && RunCluster(StartOf(setup), schedule) == Some(end)
    requires i in end.nodes && k in end.nodes[i].events && k.NetRecv?
    ensures p < |schedule| && RunCluster(StartOf(setup), schedule[..p]).Some?
    ensures var mid := RunCluster(StartOf(setup), schedule[..p]).value;
            CanStep(mid, schedule[p]) && sender == mid.nodes[schedule[p].node]
    ensures sender.cfg.node == k.fromNode && sender.cfg.node in setup && sender.cfg == setup[sender.cfg.node].cfg
    ensures sent in StepRemote(sender.cfg, sender.r, sender.steps, schedule[p].arrivals)
    ensures sent.node == k.node && sent.payload == k.payload && sent.service in sender.cfg.actorOf && k.to == sender.cfg.actorOf[sent.service]
    ensures exists ev :: ev in RecordStep(sender.cfg, sender.r, sender.steps, schedule[p].arrivals).value.events
                         && ev.NetSend? && ev.node == k.fromNode && ev.toNode == k.node && ev.msgId == k.msgId && ev.payload == k.payload
  {
    hide RecordStep;
    hide StepWire;
    hide StepRemote;
    hide ValidConfig;
    hide Startup;
    hide RunCluster;
    hide HoldsOwn;
    hide Settled;
    EverythingPosted(setup, schedule, end);
    var e :| Posted(setup, schedule, e) && ReceiptOf(k, e);
    p :| p < |schedule| && PostedAt(setup, schedule, p, e);
    var mid := RunCluster(StartOf(setup), schedule[..p]).value;
    EverythingPosted(setup, schedule[..p], mid);
    sender := mid.nodes[schedule[p].node];
    assert NodePosted(setup, schedule[..p], schedule[p].node, sender);
    assert sender.cfg.node == schedule[p].node by { SetupNodes(setup, schedule[p].node); }
    var arrivals := schedule[p].arrivals;
    WireAddressed(sender.cfg, sender.r, sender.steps, arrivals);
    var wire := StepWire(sender.cfg, sender.r, sender.steps, arrivals);
    var q :| 0 <= q < |wire| && wire[q] == e;
    sent := StepRemote(sender.cfg, sender.r, sender.steps, arrivals)[q];
    assert Envelops(sender.cfg, wire[q], sent);
    WireHasEvent(sender.cfg, sender.r, sender.steps, arrivals, e);
  }

  lemma SetupNodes(setup: map<Uuid, Member>, i: Uuid)
    requires SetupOk(setup) && i in setup
    ensures setup[i].cfg.node == i
  {
  }

  lemma WireHasEvent(cfg: Config, r: RecState, step: U64, arrivals: seq<WireEnvelope>, e: WireEnvelope)
    requires RecordStep(cfg, r, step, arrivals).Ok? && HoldsOwn(r.inj, cfg.node) && e in StepWire(cfg, r, step, arrivals)
    ensures exists ev :: ev in RecordStep(cfg, r, step, arrivals).value.events
                         && ev.NetSend? && ev.node == e.fromNode && ev.toNode == e.toNode && ev.msgId == e.msgId && ev.payload == e.payload
  {
    hide RecordStep;
    hide StepWire;
    hide HoldsOwn;
    hide Notes;
    var m := RecordStep(cfg, r, step, arrivals).value;
    StepSends(cfg, r, step, arrivals, m);
    var wire := StepWire(cfg, r, step, arrivals);
    var q :| 0 <= q < |wire| && wire[q] == e;
    var n := EnvNote(SentNote, e);
    assert EnvNotes(SentNote, wire)[q] == n;
    ClusterMeaning.NotesFrom(m.events, SentNote);
    assert n in Notes(m.events, SentNote);
    var ev :| ev in m.events && NoteOf(ev) == Some(n);
    assert ev.NetSend?;
  }
}
