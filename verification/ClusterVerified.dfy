/** Cluster runs verify: clean traces at every moment, and a clean cluster report once all is drained. */
module ClusterVerified {
  import opened Base
  import opened Events
  import opened TraceFile
  import opened Lang
  import opened Interp
  import opened Faults
  import opened InjectorSpec
  import opened InjectorProps
  import opened Node
  import opened RecordSpec
  import opened ReplaySpec
  import opened RecordReplay
  import opened VerifySpec
  import opened VerifyMeaning
  import opened LineageSpec
  import opened ClusterSpec
  import opened LangSound
  import opened HonestNode
  import opened HonestRun
  import opened RecordTrace
  import opened RecordVerified
  import opened Wire
  import opened ClusterRun
  import opened ClusterHonest

  /** What the proof keeps about a cluster: everything sent so far, what each node has received and
      dropped of it, the machine states that follow the nodes, and the ledger. */
  datatype Books = Books(
    sent: seq<WireEnvelope>,
    received: map<Uuid, seq<WireEnvelope>>,
    dropped: map<Uuid, seq<WireEnvelope>>,
    cores: map<Uuid, Core>,
    ledger: Ledger)

  ghost predicate NodeKept(c: Cluster, b: Books, actors: set<Uuid>, i: Uuid)
    requires i in c.nodes
  {
    && i in c.wires && i in b.received && i in b.dropped && i in b.cores
    && NodeRuns(i, c.nodes[i], b.cores[i], b.ledger)
    && TrafficOk(i, c.nodes[i], c.wires[i], b.sent, b.received[i], b.dropped[i])
    && c.nodes[i].cfg.actorOf.Values == actors
  }

  ghost predicate HomesIn(l: Ledger, nodes: set<Uuid>) {
    forall k :: k in l.delivered && k in l.info ==> l.info[k].home in nodes
  }

  ghost predicate ClusterKept(c: Cluster, b: Books, actors: set<Uuid>) {
    && LedgerOk(b.ledger)
    && c.wires.Keys == c.nodes.Keys
    && SentOk(c.nodes, actors, b.ledger, b.sent)
    && HomesIn(b.ledger, c.nodes.Keys)
    && (forall i :: i in c.nodes ==> NodeKept(c, b, actors, i))
  }

  lemma ActorsAreThere(cfg: Config, c: Core, v: VState, l: Ledger, a: Uuid)
    requires NodeInv(cfg, c, v, l) && a in cfg.actorOf.Values
    ensures a in c.sys.actors.Keys
  {
    var s :| s in cfg.actorOf && cfg.actorOf[s] == a;
    assert ActorsOk(cfg, c.sys.actors);
  }

  /** Everything a step takes in is honest. */
  lemma StepInputsHonest(i: Uuid, nodes: map<Uuid, NodeRun>, core: Core, l: Ledger, actors: set<Uuid>, wire: multiset<WireEnvelope>,
                         sent: seq<WireEnvelope>, received: seq<WireEnvelope>, dropped: seq<WireEnvelope>,
                         arrivals: seq<WireEnvelope>, m: RecMove)
    requires i in nodes
    requires NodeRuns(i, nodes[i], core, l) && TrafficOk(i, nodes[i], wire, sent, received, dropped)
    requires nodes[i].cfg.actorOf.Values == actors && SentOk(nodes, actors, l, sent)
    requires RecordStep(nodes[i].cfg, nodes[i].r, nodes[i].steps, arrivals) == Ok(m) && multiset(arrivals) <= wire
    ensures InputsHonest(nodes[i].cfg, core.sys.actors.Keys, DropsIn(nodes[i].events) + DropsIn(m.events), l, m.events)
  {
    hide RecordStep;
    hide NodeInv;
    hide IndexTrue;
    hide ValidConfig;
    hide Numbered;
    hide DropsIn;
    hide TrafficOk;
    hide GoodMsg;
    hide Drain;
    hide Settled;
    hide HoldsOwn;
    hide RecvEvents;
    hide SentOnce;
    hide MsgIndex;
    hide Notes;
    hide EnvNotes;
    hide By;
    hide Calm;
    hide Sim;
    var nr := nodes[i];
    assert HoldsOwn(nr.r.inj, i);
    var d := Drain(nr.r.inj, i, nr.steps, arrivals);
    StepEvents(nr.cfg, nr.r, nr.steps, arrivals, m);
    TrafficSteps(i, nr, wire, sent, received, dropped, arrivals, m, []);
    var nr1 := NodeRun(nr.cfg, m.state, SatAdd(nr.steps, 1), nr.events + m.events);
    assert sent + [] == sent;
    DropsAppend(nr.events, m.events);
    forall k | k in m.events && k.NetRecv?
      ensures k.to in core.sys.actors.Keys && GoodMsg(l, i, k.msgId, k.payload)
      ensures (k.fromNode, k.to, k.msgId) !in DropsIn(nr.events) + DropsIn(m.events)
    {
      var e := ReleasedFor(d.released, k);
      assert e in received + d.released;
      ReceiptFits(i, nr1, wire - multiset(arrivals) + multiset(Own(i, [])), sent, received + d.released,
                  dropped + StepDrops(nr.cfg, nr.r.inj, nr.steps, arrivals), e);
      assert SentFine(nodes, actors, l, e);
      ActorsAreThere(nr.cfg, core, VRun(START, nr.events), l, e.toActor);
    }
  }

  lemma ReleasedFor(released: seq<WireEnvelope>, k: EventKind) returns (e: WireEnvelope)
    requires k in RecvEvents(released)
    ensures e in released && k == NetRecv(e.toNode, e.fromNode, e.toActor, e.msgId, e.payload)
  {
    var j :| 0 <= j < |released| && RecvEvents(released)[j] == k;
    e := released[j];
  }

  lemma HomesStay(l: Ledger, l1: Ledger, i: Uuid, nodes: set<Uuid>)
    requires HomesIn(l, nodes) && Extends(l, l1) && OnlyBy(i, l, l1) && i in nodes && LedgerOk(l)
    ensures HomesIn(l1, nodes)
  {
  }

  /** The books after a step. */
  function NextBooks(b: Books, i: Uuid, nr: NodeRun, arrivals: seq<WireEnvelope>, core1: Core, l1: Ledger): Books
    requires i in b.received && i in b.dropped
  {
    Books(b.sent + StepWire(nr.cfg, nr.r, nr.steps, arrivals),
          b.received[i := b.received[i] + Drain(nr.r.inj, i, nr.steps, arrivals).released],
          b.dropped[i := b.dropped[i] + StepDrops(nr.cfg, nr.r.inj, nr.steps, arrivals)],
          b.cores[i := core1], l1)
  }

  /** What a step does to the cluster and the books, given what it does to its node. */
  ghost predicate Stepped(c: Cluster, b: Books, i: Uuid, arrivals: seq<WireEnvelope>, m: RecMove, c1: Cluster, b1: Books)
    requires i in c.nodes && i in c.wires && i in b.received && i in b.dropped
  {
    var nr := c.nodes[i];
    var more := StepWire(nr.cfg, nr.r, nr.steps, arrivals);
    && c1.nodes == c.nodes[i := NodeRun(nr.cfg, m.state, SatAdd(nr.steps, 1), nr.events + m.events)]
    && c1.wires.Keys == c.wires.Keys
    && (forall j :: j in c.wires ==>
          c1.wires[j] == (if j == i then c.wires[i] - multiset(arrivals) else c.wires[j]) + multiset(Own(j, more)))
    && b1 == NextBooks(b, i, nr, arrivals, if i in b1.cores then b1.cores[i] else Core(m.state.sys, []), b1.ledger)
  }

  lemma StepIs(c: Cluster, mv: ClusterMove, b: Books, m: RecMove, core1: Core, l1: Ledger)
    requires CanStep(c, mv) && mv.node in b.received && mv.node in b.dropped
    requires RecordStep(c.nodes[mv.node].cfg, c.nodes[mv.node].r, c.nodes[mv.node].steps, mv.arrivals) == Ok(m)
    ensures Stepped(c, b, mv.node, mv.arrivals, m, AfterStep(c, mv), NextBooks(b, mv.node, c.nodes[mv.node], mv.arrivals, core1, l1))
  {
    hide RecordStep;
    hide StepWire;
    hide Drain;
    hide StepDrops;
    hide Own;
    hide Post;
    var nr := c.nodes[mv.node];
    var more := StepWire(nr.cfg, nr.r, nr.steps, mv.arrivals);
    PostAt(c.wires[mv.node := c.wires[mv.node] - multiset(mv.arrivals)], more, mv.node);
    forall j | j in c.wires
      ensures AfterStep(c, mv).wires[j] ==
              (if j == mv.node then c.wires[mv.node] - multiset(mv.arrivals) else c.wires[j]) + multiset(Own(j, more))
    {
      PostAt(c.wires[mv.node := c.wires[mv.node] - multiset(mv.arrivals)], more, j);
    }
  }

  /** The stepping node and all others are kept. */
  lemma NodesStep(c: Cluster, b: Books, actors: set<Uuid>, i: Uuid, arrivals: seq<WireEnvelope>, m: RecMove, c1: Cluster, b1: Books, j: Uuid)
    requires ClusterKept(c, b, actors) && i in c.nodes && j in c.nodes
    requires i in c.wires && i in b.received && i in b.dropped && i in b1.cores
    requires RecordStep(c.nodes[i].cfg, c.nodes[i].r, c.nodes[i].steps, arrivals) == Ok(m) && multiset(arrivals) <= c.wires[i]
    requires Stepped(c, b, i, arrivals, m, c1, b1)
    requires StepKeeps(i, c.nodes[i], b.ledger, m, b1.cores[i], b1.ledger)
    ensures j in c1.nodes && NodeKept(c1, b1, actors, j)
  {
    hide RecordStep;
    hide NodeRuns;
    hide SentOk;
    hide TrafficOk;
    hide StepWire;
    hide Drain;
    hide StepDrops;
    hide HomesIn;
    hide LedgerOk;
    hide OnlyBy;
    hide Extends;
    hide SendsGood;
    hide Numbered;
    hide NodeKept;
    hide Own;
    var nr := c.nodes[i];
    var more := StepWire(nr.cfg, nr.r, nr.steps, arrivals);
    assert NodeKept(c, b, actors, j) && NodeKept(c, b, actors, i);
    KeptParts(c, b, actors, j);
    if j == i {
      OwnInjector(i, nr, b.cores[i], b.ledger);
      TrafficSteps(i, nr, c.wires[i], b.sent, b.received[i], b.dropped[i], arrivals, m, more);
      StepperKept(c1, b1, actors, i);
    } else {
      OtherKept(c, b, actors, j, c1, b1, more, i);
    }
  }

  /** What has been sent stays in order. */
  lemma SendsStep(c: Cluster, b: Books, actors: set<Uuid>, i: Uuid, arrivals: seq<WireEnvelope>, m: RecMove, c1: Cluster, b1: Books)
    requires ClusterKept(c, b, actors) && i in c.nodes
    requires i in c.wires && i in b.received && i in b.dropped && i in b.cores && i in b1.cores
    requires NodeRuns(i, c.nodes[i], b.cores[i], b.ledger) && c.nodes[i].cfg.actorOf.Values == actors
    requires RecordStep(c.nodes[i].cfg, c.nodes[i].r, c.nodes[i].steps, arrivals) == Ok(m)
    requires Stepped(c, b, i, arrivals, m, c1, b1)
    requires StepKeeps(i, c.nodes[i], b.ledger, m, b1.cores[i], b1.ledger)
    ensures SentOk(c1.nodes, actors, b1.ledger, b1.sent)
  {
    hide RecordStep;
    hide NodeRuns;
    hide SentOk;
    hide StepWire;
    hide Drain;
    hide StepDrops;
    hide HomesIn;
    hide LedgerOk;
    hide OnlyBy;
    hide Extends;
    hide SendsGood;
    hide Numbered;
    hide NodeKept;
    hide Own;
    hide Notes;
    hide EnvNotes;
    var nr := c.nodes[i];
    OwnInjector(i, nr, b.cores[i], b.ledger);
    StepSends(nr.cfg, nr.r, nr.steps, arrivals, m);
    SentSteps(c.nodes, actors, b.ledger, b.sent, i, c1.nodes[i], m.events, b1.ledger, StepWire(nr.cfg, nr.r, nr.steps, arrivals));
  }

  /** Every step keeps the books in order. */
  lemma ClusterStepKeeps(c: Cluster, mv: ClusterMove, b: Books, actors: set<Uuid>) returns (b1: Books)
    requires ClusterKept(c, b, actors) && CanStep(c, mv) && Unsaturated(AfterStep(c, mv))
    ensures ClusterKept(AfterStep(c, mv), b1, actors)
  {
    hide RecordStep;
    hide NodeRuns;
    hide SentOk;
    hide TrafficOk;
    hide StepWire;
    hide Drain;
    hide StepDrops;
    hide InputsHonest;
    hide DropsIn;
    hide HomesIn;
    hide NodeKept;
    hide NextBooks;
    hide Own;
    var i := mv.node;
    var nr := c.nodes[i];
    var m := RecordStep(nr.cfg, nr.r, nr.steps, mv.arrivals).value;
    assert NodeKept(c, b, actors, i);
    KeptParts(c, b, actors, i);
    StepInputsHonest(i, c.nodes, b.cores[i], b.ledger, actors, c.wires[i], b.sent, b.received[i], b.dropped[i], mv.arrivals, m);
    var core1, l1 := StepOfNode(c, mv, b, m);
    b1 := NextBooks(b, i, nr, mv.arrivals, core1, l1);
    assert b1.cores == b.cores[i := core1] && b1.ledger == l1 by { BooksNext(b, i, nr, mv.arrivals, core1, l1); }
    StepIs(c, mv, b, m, core1, l1);
    StepKept(c, b, actors, i, mv.arrivals, m, AfterStep(c, mv), b1);
  }

  lemma BooksNext(b: Books, i: Uuid, nr: NodeRun, arrivals: seq<WireEnvelope>, core1: Core, l1: Ledger)
    requires i in b.received && i in b.dropped
    ensures NextBooks(b, i, nr, arrivals, core1, l1).cores == b.cores[i := core1]
    ensures NextBooks(b, i, nr, arrivals, core1, l1).ledger == l1
  {
  }

  lemma StepOfNode(c: Cluster, mv: ClusterMove, b: Books, m: RecMove) returns (core1: Core, l1: Ledger)
    requires CanStep(c, mv) && Unsaturated(AfterStep(c, mv)) && mv.node in b.cores
    requires RecordStep(c.nodes[mv.node].cfg, c.nodes[mv.node].r, c.nodes[mv.node].steps, mv.arrivals) == Ok(m)
    requires NodeRuns(mv.node, c.nodes[mv.node], b.cores[mv.node], b.ledger)
    requires InputsHonest(c.nodes[mv.node].cfg, b.cores[mv.node].sys.actors.Keys,
                          DropsIn(c.nodes[mv.node].events) + DropsIn(m.events), b.ledger, m.events)
    ensures StepKeeps(mv.node, c.nodes[mv.node], b.ledger, m, core1, l1)
  {
    hide RecordStep;
    hide NodeRuns;
    hide StepWire;
    hide InputsHonest;
    hide DropsIn;
    hide StepKeeps;
    hide Post;
    var nr := c.nodes[mv.node];
    assert AfterStep(c, mv).nodes[mv.node].r == m.state;
    core1, l1 := NodeSteps(mv.node, nr, b.cores[mv.node], b.ledger, mv.arrivals, m, DropsIn(nr.events) + DropsIn(m.events));
  }

  lemma StepKept(c: Cluster, b: Books, actors: set<Uuid>, i: Uuid, arrivals: seq<WireEnvelope>, m: RecMove, c1: Cluster, b1: Books)
    requires ClusterKept(c, b, actors) && i in c.nodes
    requires i in c.wires && i in b.received && i in b.dropped && i in b.cores && i in b1.cores
    requires RecordStep(c.nodes[i].cfg, c.nodes[i].r, c.nodes[i].steps, arrivals) == Ok(m) && multiset(arrivals) <= c.wires[i]
    requires Stepped(c, b, i, arrivals, m, c1, b1)
    requires StepKeeps(i, c.nodes[i], b.ledger, m, b1.cores[i], b1.ledger)
    ensures ClusterKept(c1, b1, actors)
  {
    hide RecordStep;
    hide NodeRuns;
    hide SentOk;
    hide StepWire;
    hide HomesIn;
    hide NodeKept;
    hide NextBooks;
    hide Own;
    hide SendsGood;
    hide Numbered;
    assert NodeKept(c, b, actors, i);
    KeptParts(c, b, actors, i);
    SendsStep(c, b, actors, i, arrivals, m, c1, b1);
    HomesStay(b.ledger, b1.ledger, i, c.nodes.Keys);
    assert c1.nodes.Keys == c.nodes.Keys;
    forall j | j in c1.nodes ensures NodeKept(c1, b1, actors, j) {
      NodesStep(c, b, actors, i, arrivals, m, c1, b1, j);
    }
  }

  lemma KeptParts(c: Cluster, b: Books, actors: set<Uuid>, i: Uuid)
    requires i in c.nodes && NodeKept(c, b, actors, i)
    ensures i in c.wires && i in b.received && i in b.dropped && i in b.cores
    ensures NodeRuns(i, c.nodes[i], b.cores[i], b.ledger)
    ensures TrafficOk(i, c.nodes[i], c.wires[i], b.sent, b.received[i], b.dropped[i])
    ensures c.nodes[i].cfg.actorOf.Values == actors
  {
    hide NodeRuns;
    hide TrafficOk;
  }

  lemma StepperKept(c1: Cluster, b1: Books, actors: set<Uuid>, i: Uuid)
    requires i in c1.nodes && i in c1.wires && i in b1.received && i in b1.dropped && i in b1.cores
    requires NodeRuns(i, c1.nodes[i], b1.cores[i], b1.ledger)
    requires TrafficOk(i, c1.nodes[i], c1.wires[i], b1.sent, b1.received[i], b1.dropped[i])
    requires c1.nodes[i].cfg.actorOf.Values == actors
    ensures NodeKept(c1, b1, actors, i)
  {
    hide NodeRuns;
    hide TrafficOk;
  }

  lemma OtherKept(c: Cluster, b: Books, actors: set<Uuid>, j: Uuid, c1: Cluster, b1: Books, more: seq<WireEnvelope>, stepper: Uuid)
    requires j in c.nodes && NodeKept(c, b, actors, j) && j != stepper
    requires j in c1.nodes && c1.nodes[j] == c.nodes[j] && j in c1.wires && c1.wires[j] == c.wires[j] + multiset(Own(j, more))
    requires j in b1.received && b1.received[j] == b.received[j] && j in b1.dropped && b1.dropped[j] == b.dropped[j]
    requires j in b1.cores && b1.cores[j] == b.cores[j] && b1.sent == b.sent + more
    requires LedgerOk(b1.ledger) && Extends(b.ledger, b1.ledger) && OnlyBy(stepper, b.ledger, b1.ledger)
    ensures NodeKept(c1, b1, actors, j)
  {
    hide NodeRuns;
    hide TrafficOk;
    hide LedgerOk;
    hide Extends;
    hide OnlyBy;
    hide Own;
    NodeStays(j, c.nodes[j], b.cores[j], b.ledger, stepper, b1.ledger);
    TrafficStays(j, c.nodes[j], c.wires[j], b.sent, b.received[j], b.dropped[j], more);
  }

  lemma OwnInjector(i: Uuid, nr: NodeRun, core: Core, l: Ledger)
    requires NodeRuns(i, nr, core, l)
    ensures nr.cfg.node == i && HoldsOwn(nr.r.inj, i) && Settled(nr.r.inj)
  {
  }

  /** What another node sends only goes on the wire. */
  lemma TrafficStays(j: Uuid, nr: NodeRun, wire: multiset<WireEnvelope>, sent: seq<WireEnvelope>,
                     received: seq<WireEnvelope>, dropped: seq<WireEnvelope>, more: seq<WireEnvelope>)
    requires TrafficOk(j, nr, wire, sent, received, dropped)
    ensures TrafficOk(j, nr, wire + multiset(Own(j, more)), sent + more, received, dropped)
  {
    hide Own;
    hide Notes;
    hide EnvNotes;
    OwnAppend(j, sent, more);
  }

  // ---- the start ----

  /** A ledger, and a machine state for each node of a set, after those nodes have started. */
  ghost predicate StartedWith(setup: map<Uuid, Member>, some: set<Uuid>, cores: map<Uuid, Core>, l: Ledger)
    requires SetupOk(setup) && some <= setup.Keys
  {
    && LedgerOk(l) && l.delivered == {} && cores.Keys == some
    && (forall k :: k in l.info ==> k.0 in some)
    && (forall i :: i in some ==> NodeRuns(i, StartedNode(setup[i]), cores[i], l))
  }

  lemma OneStarts(m: Member, i: Uuid, l0: Ledger, boot: Boot) returns (l: Ledger)
    requires m.cfg.node == i && ValidConfig(m.cfg) && m.cfg.systemActor !in m.cfg.actorOf.Values
    requires Startup(m.cfg) == Ok(boot) && boot.sys.msgCounter < U64_MAX
    requires LedgerOk(l0) && l0.delivered == {} && forall k :: k in l0.info ==> k.0 != i
    ensures NodeRuns(i, StartedNode(m), Core(boot.sys, []), l)
    ensures LedgerOk(l) && l.delivered == {} && Extends(l0, l) && OnlyBy(i, l0, l)
  {
    hide ValidConfig;
    hide Startup;
    hide NodeInv;
    hide VRun;
    hide IndexRun;
    hide Numbered;
    var v := VRun(START, boot.events);
    l := StartupHonest(m.cfg, l0, boot);
    LedgerOfInv(m.cfg, Core(boot.sys, []), v, l);
    StartupLocal(m.cfg, boot);
    StartupNumbered(m.cfg, boot);
    QuietIndex(START, map[], boot.events);
    NoDropsIn(boot.events);
    BootCounters(m.cfg, boot);
    assert TimerCores([]) == [];
  }

  lemma {:induction false} NoDropsIn(evs: seq<EventKind>)
    requires forall k :: k in evs ==> !k.FaultInjected?
    ensures DropsIn(evs) == {}
  {
    if evs != [] {
      assert evs[0] in evs;
      NoDropsIn(evs[1..]);
    }
  }

  lemma BootCounters(cfg: Config, boot: Boot)
    requires Startup(cfg) == Ok(boot) && boot.sys.msgCounter < U64_MAX
    ensures boot.sys.timerCounter == 1 && Numbered(cfg.node, 1, boot.events, boot.sys.msgCounter)
  {
    hide Bootstrap;
    BootstrapTimers(cfg, cfg.actorOf[EntryService(cfg)], BootstrapCount(cfg));
    StartupNumbered(cfg, boot);
  }

  lemma {:induction false} AllStart(setup: map<Uuid, Member>, some: set<Uuid>) returns (cores: map<Uuid, Core>, l: Ledger)
    requires SetupOk(setup) && some <= setup.Keys
    requires forall i :: i in some ==> Startup(setup[i].cfg).value.sys.msgCounter < U64_MAX
    ensures StartedWith(setup, some, cores, l)
    decreases |some|
  {
    hide NodeRuns;
    hide Startup;
    hide ValidConfig;
    hide StartedNode;
    if some == {} {
      cores, l := map[], Ledger(map[], {});
    } else {
      var i :| i in some;
      var before, l0 := AllStart(setup, some - {i});
      var boot := Startup(setup[i].cfg).value;
      l := OneStarts(setup[i], i, l0, boot);
      cores := before[i := Core(boot.sys, [])];
      forall j | j in some ensures NodeRuns(j, StartedNode(setup[j]), cores[j], l) {
        if j != i { NodeStays(j, StartedNode(setup[j]), cores[j], l0, i, l); }
      }
    }
  }

  ghost function SharedActors(setup: map<Uuid, Member>): set<Uuid> {
    if setup == map[] then {} else var i :| i in setup; setup[i].cfg.actorOf.Values
  }

  function StartBooks(nodes: set<Uuid>, cores: map<Uuid, Core>, l: Ledger): Books {
    Books([], map i | i in nodes :: [], map i | i in nodes :: [], cores, l)
  }

  lemma StartedTraffic(i: Uuid, m: Member)
    requires m.cfg.node == i && Startup(m.cfg).Ok?
    ensures TrafficOk(i, StartedNode(m), multiset{}, [], [], [])
    ensures Notes(StartedNode(m).events, SentNote) == EnvNotes(SentNote, By(i, []))
  {
    hide Startup;
    hide Notes;
    StartupLocal(m.cfg, Startup(m.cfg).value);
    NoNotes(StartedNode(m).events, SentNote);
    NoNotes(StartedNode(m).events, ReceivedNote);
    NoNotes(StartedNode(m).events, DroppedNote);
  }

  lemma StartKept(setup: map<Uuid, Member>) returns (b: Books)
    requires SetupOk(setup) && Unsaturated(StartOf(setup))
    ensures ClusterKept(StartOf(setup), b, SharedActors(setup))
  {
    hide NodeRuns;
    hide Startup;
    hide ValidConfig;
    hide TrafficOk;
    hide Notes;
    hide EnvNotes;
    hide By;
    var c := StartOf(setup);
    forall i | i in setup ensures Startup(setup[i].cfg).value.sys.msgCounter < U64_MAX { assert i in c.nodes; }
    var cores, l := AllStart(setup, setup.Keys);
    b := StartBooks(setup.Keys, cores, l);
    forall i | i in c.nodes
      ensures NodeKept(c, b, SharedActors(setup), i) && Notes(c.nodes[i].events, SentNote) == EnvNotes(SentNote, By(i, []))
    {
      StartedTraffic(i, setup[i]);
    }
  }

  // ---- counters only grow ----

  lemma {:induction false} FiringsCount(cfg: Config, s: Sys, due: seq<PendingTimer>, f: Fired)
    requires FireAll(cfg, s, due) == Ok(f)
    ensures s.msgCounter <= f.sys.msgCounter
    decreases |due|
  {
    hide Dispatch;
    if due != [] {
      var t := due[0].core;
      DispatchKeepsActors(cfg, s, t.from, t.target, t.payload);
      var s1 := Dispatch(cfg, s, t.from, t.target, t.payload).value.0;
      FiringsCount(cfg, s1, due[1..], FireAll(cfg, s1, due[1..]).value);
    }
  }

  lemma HandleCounts(cfg: Config, s: Sys, to: Uuid, e: Entry, h: Effects)
    requires Handle(cfg, s, to, e) == Ok(h)
    ensures s.msgCounter <= h.sys.msgCounter
  {
    hide ExecHandler;
    hide ProcessOutbox;
    hide EffectSeq;
    var a := s.actors[to];
    var run := ExecHandler(cfg, Call(a.service, e.id, e.payload.msg), a.store).value;
    var s1 := s.(actors := s.actors[to := a.(store := run.exec.store)]);
    CounterGrows(cfg, s1, to, run.exec.outbox, ProcessOutbox(cfg, s1, to, run.exec.outbox).value);
  }

  lemma StepCounts(cfg: Config, r: RecState, step: U64, arrivals: seq<WireEnvelope>, m: RecMove)
    requires RecordStep(cfg, r, step, arrivals) == Ok(m)
    ensures r.sys.msgCounter <= m.state.sys.msgCounter && r.sys.timerCounter <= m.state.sys.timerCounter
  {
    hide Drain;
    hide Handle;
    hide FireAll;
    TimerCounterGrows(cfg, r, step, arrivals);
    var d := DrainStep(cfg, r, step, arrivals).state;
    var due := Sorting.SortBy(TimerKey, Due(d.timers, step));
    FiringsCount(cfg, d.sys, due, FireAll(cfg, d.sys, due).value);
    var f := FireDue(cfg, d, step).value.state;
    if LeastReady(f.sys.actors).Some? {
      var to := LeastReady(f.sys.actors).value;
      var p := Pop(f.sys, to).value;
      HandleCounts(cfg, p.sys, to, p.entry, Handle(cfg, p.sys, to, p.entry).value);
    }
  }

  lemma UnsaturatedBefore(c: Cluster, mv: ClusterMove)
    requires CanStep(c, mv) && Unsaturated(AfterStep(c, mv))
    ensures Unsaturated(c)
  {
    hide RecordStep;
    hide StepWire;
    var nr := c.nodes[mv.node];
    StepCounts(nr.cfg, nr.r, nr.steps, mv.arrivals, RecordStep(nr.cfg, nr.r, nr.steps, mv.arrivals).value);
    var c1 := AfterStep(c, mv);
    forall i | i in c.nodes
      ensures c.nodes[i].r.sys.msgCounter < U64_MAX && c.nodes[i].r.sys.timerCounter < U64_MAX && |c.nodes[i].events| <= U64_MAX + 1
    {
      assert i in c1.nodes;
    }
  }

  lemma {:induction false} UnsaturatedThroughout(start: Cluster, schedule: seq<ClusterMove>, end: Cluster)
    requires RunCluster(start, schedule) == Some(end) && Unsaturated(end)
    ensures Unsaturated(start)
  {
    hide CanStep;
    hide Unsaturated;
    hide AfterStep;
    if schedule != [] {
      var front := schedule[..|schedule| - 1];
      UnsaturatedBefore(RunCluster(start, front).value, schedule[|schedule| - 1]);
      UnsaturatedThroughout(start, front, RunCluster(start, front).value);
    }
  }

  /** Every state a cluster reaches is in order. */
  lemma {:induction false} RunKeptFrom(start: Cluster, b0: Books, actors: set<Uuid>, schedule: seq<ClusterMove>, end: Cluster) returns (b: Books)
    requires ClusterKept(start, b0, actors) && RunCluster(start, schedule) == Some(end) && Unsaturated(end)
    ensures ClusterKept(end, b, actors) && end.nodes.Keys == start.nodes.Keys
  {
    hide CanStep;
    hide Unsaturated;
    hide ClusterKept;
    hide AfterStep;
    if schedule == [] {
      b := b0;
    } else {
      var mid := RunCluster(start, schedule[..|schedule| - 1]).value;
      var mv := schedule[|schedule| - 1];
      UnsaturatedBefore(mid, mv);
      var before := RunKeptFrom(start, b0, actors, schedule[..|schedule| - 1], mid);
      b := ClusterStepKeeps(mid, mv, before, actors);
      StepKeepsNodes(mid, mv);
    }
  }

  lemma RunKept(setup: map<Uuid, Member>, schedule: seq<ClusterMove>, end: Cluster) returns (b: Books)
    requires SetupOk(setup) && RunCluster(StartOf(setup), schedule) == Some(end) && Unsaturated(end)
    ensures ClusterKept(end, b, SharedActors(setup)) && end.nodes.Keys == setup.Keys
  {
    hide RunCluster;
    hide ClusterKept;
    hide Unsaturated;
    UnsaturatedThroughout(StartOf(setup), schedule, end);
    var b0 := StartKept(setup);
    b := RunKeptFrom(StartOf(setup), b0, SharedActors(setup), schedule, end);
  }

  lemma StepKeepsNodes(c: Cluster, mv: ClusterMove)
    requires CanStep(c, mv)
    ensures AfterStep(c, mv).nodes.Keys == c.nodes.Keys
  {
    hide RecordStep;
    hide StepWire;
  }

  /** At every moment of every cluster run, whatever is still under way, each node's trace gets zero
      problems from the single-trace verifier. */
  lemma EveryTraceVerifies(setup: map<Uuid, Member>, schedule: seq<ClusterMove>, end: Cluster, i: Uuid)
    requires SetupOk(setup) && RunCluster(StartOf(setup), schedule) == Some(end) && Unsaturated(end) && i in end.nodes
    ensures Problems(StampAll(end.nodes[i].events)) == []
  {
    hide SetupOk;
    hide RunCluster;
    hide VRun;
    hide VFold;
    hide StampAll;
    hide TrafficOk;
    hide SentOk;
    hide NodeInv;
    hide IndexTrue;
    hide HomesIn;
    hide StartOf;
    hide Numbered;
    hide AllLocal;
    hide IndexRun;
    hide DropsIn;
    var b := RunKept(setup, schedule, end);
    assert NodeKept(end, b, SharedActors(setup), i);
    FileIsRun(end.nodes[i].events);
  }
}
