/** A cluster of recording nodes over channels that deliver each envelope once, in any order. */
module ClusterRun {
  import opened Base
  import opened Events
  import opened Lang
  import opened Interp
  import opened Faults
  import opened InjectorSpec
  import opened InjectorProps
  import opened Node
  import opened RecordSpec
  import opened RecordReplay
  import opened Wire

  /** A node in the middle of its run. */
  datatype NodeRun = NodeRun(cfg: Config, r: RecState, steps: U64, events: seq<EventKind>)

  /** The nodes, and for each the envelopes under way to it. */
  datatype Cluster = Cluster(nodes: map<Uuid, NodeRun>, wires: map<Uuid, multiset<WireEnvelope>>)

  /** One node takes one step, and its channel yields these envelopes. */
  datatype ClusterMove = ClusterMove(node: Uuid, arrivals: seq<WireEnvelope>)

  datatype Member = Member(cfg: Config, settings: Settings)

  /** Puts envelopes under way; those for nodes outside the cluster leave it. */
  function Post(wires: map<Uuid, multiset<WireEnvelope>>, envs: seq<WireEnvelope>): map<Uuid, multiset<WireEnvelope>> {
    if envs == [] then wires
    else
      var e := envs[|envs| - 1];
      var before := Post(wires, envs[..|envs| - 1]);
      if e.toNode in before then before[e.toNode := before[e.toNode] + multiset{e}] else before
  }

  ghost predicate CanStep(c: Cluster, mv: ClusterMove) {
    && mv.node in c.nodes && mv.node in c.wires
    && var nr := c.nodes[mv.node];
       && nr.steps < U64_MAX
       && multiset(mv.arrivals) <= c.wires[mv.node]
       && RecordStep(nr.cfg, nr.r, nr.steps, mv.arrivals).Ok?
  }

  ghost function AfterStep(c: Cluster, mv: ClusterMove): Cluster
    requires CanStep(c, mv)
  {
    var nr := c.nodes[mv.node];
    var m := RecordStep(nr.cfg, nr.r, nr.steps, mv.arrivals).value;
    Cluster(c.nodes[mv.node := NodeRun(nr.cfg, m.state, nr.steps + 1, nr.events + m.events)],
            Post(c.wires[mv.node := c.wires[mv.node] - multiset(mv.arrivals)],
                 StepWire(nr.cfg, nr.r, nr.steps, mv.arrivals)))
  }

  /** The cluster after a schedule of moves, if every move of it can be made and succeeds. */
  ghost function RunCluster(c: Cluster, schedule: seq<ClusterMove>): Option<Cluster> {
    if schedule == [] then Some(c)
    else
      match RunCluster(c, schedule[..|schedule| - 1])
      case None => None
      case Some(mid) =>
        var last := schedule[|schedule| - 1];
        if CanStep(mid, last) then Some(AfterStep(mid, last)) else None
  }

  /** Nodes with distinct ids that run the same loaded program and start without an error. */
  ghost predicate SetupOk(setup: map<Uuid, Member>) {
    && (forall i :: i in setup ==>
          && setup[i].cfg.node == i
          && ValidConfig(setup[i].cfg)
          && setup[i].cfg.systemActor !in setup[i].cfg.actorOf.Values
          && Startup(setup[i].cfg).Ok?)
    && (forall i, j :: i in setup && j in setup ==>
          setup[i].cfg.program == setup[j].cfg.program && setup[i].cfg.actorOf == setup[j].cfg.actorOf)
  }

  /** The cluster when every node has started and nothing is under way. */
  function StartOf(setup: map<Uuid, Member>): Cluster
    requires forall i :: i in setup ==> Startup(setup[i].cfg).Ok?
  {
    Cluster(map i | i in setup :: StartedNode(setup[i]), map i | i in setup :: multiset{})
  }

  function StartedNode(m: Member): NodeRun
    requires Startup(m.cfg).Ok?
  {
    var boot := Startup(m.cfg).value;
    NodeRun(m.cfg, RecState(boot.sys, [], NewInjector(m.settings)), 0, boot.events)
  }

  /** No id counter has saturated and no trace is longer than its numbers can count. */
  ghost predicate Unsaturated(c: Cluster) {
    forall i :: i in c.nodes ==>
      && c.nodes[i].r.sys.msgCounter < U64_MAX && c.nodes[i].r.sys.timerCounter < U64_MAX
      && |c.nodes[i].events| <= U64_MAX + 1
  }

  /** All envelopes have been taken off the wires and out of the injectors. */
  ghost predicate NothingUnderWay(c: Cluster) {
    && (forall i :: i in c.wires ==> c.wires[i] == multiset{})
    && (forall i :: i in c.nodes ==> c.nodes[i].r.inj.pending == [])
  }

  lemma {:induction false} PostAt(wires: map<Uuid, multiset<WireEnvelope>>, envs: seq<WireEnvelope>, j: Uuid)
    ensures Post(wires, envs).Keys == wires.Keys
    ensures j in wires ==> Post(wires, envs)[j] == wires[j] + multiset(Own(j, envs))
  {
    if envs != [] {
      PostAt(wires, envs[..|envs| - 1], j);
    }
  }

  lemma {:induction false} OwnAppend(node: Uuid, a: seq<WireEnvelope>, b: seq<WireEnvelope>)
    ensures Own(node, a + b) == Own(node, a) + Own(node, b)
    decreases |b|
  {
    if b == [] {
      assert a + b == a;
    } else {
      assert (a + b)[..|a + b| - 1] == a + b[..|b| - 1];
      OwnAppend(node, a, b[..|b| - 1]);
    }
  }

  lemma {:induction false} OwnAll(node: Uuid, envs: seq<WireEnvelope>)
    requires forall e :: e in envs ==> e.toNode == node
    ensures Own(node, envs) == envs
  {
    if envs != [] {
      assert envs[|envs| - 1] in envs;
      OwnAll(node, envs[..|envs| - 1]);
    }
  }

  lemma {:induction false} OwnMembers(node: Uuid, envs: seq<WireEnvelope>, e: WireEnvelope)
    ensures e in Own(node, envs) <==> e in envs && e.toNode == node
  {
    if envs != [] {
      assert envs == envs[..|envs| - 1] + [envs[|envs| - 1]];
      OwnMembers(node, envs[..|envs| - 1], e);
    }
  }

  /** Conservation in one drain: what arrives and what was pending is dropped, released or pending. */
  lemma DrainConserves(inj: Injector, cfg: Config, step: U64, arrivals: seq<WireEnvelope>)
    requires Settled(inj)
    ensures var d := Drain(inj, cfg.node, step, arrivals);
            && Settled(d.inj)
            && multiset(Own(cfg.node, arrivals)) + multiset(Envelopes(inj.pending))
               == multiset(StepDrops(cfg, inj, step, arrivals)) + multiset(d.released) + multiset(Envelopes(d.inj.pending))
  {
    hide Drain;
    hide Own;
    hide Survivors;
    hide Dropped;
    hide Reordered;
    hide Stage;
    hide PolicyForStep;
    hide Envelopes;
    var p := PolicyForStep(inj.settings, step);
    var own := Own(cfg.node, arrivals);
    var entering := Entering(inj, cfg.node, step, arrivals);
    var queue := inj.pending + entering;
    DrainClosedForm(inj, cfg.node, step, arrivals);
    KeptOrDropped(own, inj.seen, p);
    EnteringHoldsSurvivors(Survivors(own, inj.seen, p), SatAdd(step, p.delaySteps), p.reorderWindow);
    EnvelopesAppend(inj.pending, entering);
    SplitQueue(queue, DueCount(queue, step));
    var d := Drain(inj, cfg.node, step, arrivals);
    Rebalance(multiset(own), multiset(Envelopes(inj.pending)), multiset(Survivors(own, inj.seen, p)),
              multiset(StepDrops(cfg, inj, step, arrivals)), multiset(d.released), multiset(Envelopes(d.inj.pending)));
  }

  lemma Rebalance<T>(own: multiset<T>, waiting: multiset<T>, kept: multiset<T>, drops: multiset<T>, released: multiset<T>, left: multiset<T>)
    requires own == kept + drops && waiting + kept == released + left
    ensures own + waiting == drops + released + left
  {
    assert own + waiting == drops + (waiting + kept);
  }
}
