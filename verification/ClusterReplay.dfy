/** Every node of a cluster run has recorded a run of its own, which replays without the others. */
module ClusterReplay {
  import opened Base
  import opened Events
  import opened Interp
  import opened Faults
  import opened InjectorSpec
  import opened Node
  import opened RecordSpec
  import opened ReplaySpec
  import opened RecordReplay
  import opened Wire
  import opened ClusterRun
  import opened ClusterVerified

  lemma {:induction false} StepsOfPrefix(cfg: Config, r: RecState, arrivals: seq<seq<WireEnvelope>>, more: seq<seq<WireEnvelope>>, n: nat)
    requires n <= |arrivals| && |arrivals + more| <= U64_MAX
    ensures RecordSteps(cfg, r, arrivals + more, n) == RecordSteps(cfg, r, arrivals, n)
  {
    hide RecordStep;
    if n > 0 { StepsOfPrefix(cfg, r, arrivals, more, n - 1); }
  }

  /** What has arrived at a node, step by step, makes the node's state and trace a record run. */
  ghost predicate Recorded(m: Member, nr: NodeRun, arrivals: seq<seq<WireEnvelope>>) {
    && |arrivals| == nr.steps && nr.cfg == m.cfg
    && Record(m.cfg, m.settings, arrivals) == Ok(RecMove(nr.r, nr.events))
  }

  lemma RecordMore(m: Member, nr: NodeRun, arrivals: seq<seq<WireEnvelope>>, next: seq<WireEnvelope>, move: RecMove)
    requires Recorded(m, nr, arrivals) && nr.steps < U64_MAX
    requires RecordStep(nr.cfg, nr.r, nr.steps, next) == Ok(move)
    ensures Recorded(m, NodeRun(nr.cfg, move.state, nr.steps + 1, nr.events + move.events), arrivals + [next])
  {
    hide RecordStep;
    hide Startup;
    var boot := Startup(m.cfg).value;
    var r0 := RecState(boot.sys, [], NewInjector(m.settings));
    var all := arrivals + [next];
    StepsOfPrefix(m.cfg, r0, arrivals, [next], |arrivals|);
    assert all[|arrivals|] == next;
    var looped := RecordSteps(m.cfg, r0, arrivals, |arrivals|).value;
    assert RecordSteps(m.cfg, r0, all, |all|) == Ok(RecMove(move.state, looped.events + move.events));
    assert boot.events + (looped.events + move.events) == nr.events + move.events;
  }

  lemma StartRecorded(m: Member)
    requires Startup(m.cfg).Ok?
    ensures Recorded(m, StartedNode(m), [])
  {
    hide Startup;
    var boot := Startup(m.cfg).value;
    assert boot.events + [] == boot.events;
  }

  /** At every moment of a cluster run, each node's trace is one it would have recorded alone, had its
      channel yielded the same envelopes. */
  lemma {:induction false} NodesRecord(setup: map<Uuid, Member>, schedule: seq<ClusterMove>, end: Cluster, i: Uuid)
    returns (arrivals: seq<seq<WireEnvelope>>)
    requires SetupOk(setup) && RunCluster(StartOf(setup), schedule) == Some(end) && i in setup
    ensures i in end.nodes && Recorded(setup[i], end.nodes[i], arrivals)
  {
    hide RecordStep;
    hide StepWire;
    hide Startup;
    hide Recorded;
    hide ValidConfig;
    if schedule == [] {
      arrivals := [];
      StartRecorded(setup[i]);
    } else {
      var mid := RunCluster(StartOf(setup), schedule[..|schedule| - 1]).value;
      var mv := schedule[|schedule| - 1];
      arrivals := NodesRecord(setup, schedule[..|schedule| - 1], mid, i);
      if mv.node == i {
        var nr := mid.nodes[i];
        RecordMore(setup[i], nr, arrivals, mv.arrivals, RecordStep(nr.cfg, nr.r, nr.steps, mv.arrivals).value);
        arrivals := arrivals + [mv.arrivals];
      }
    }
  }

  /** So each node of a cluster can be replayed from its own trace, without the network: replay accepts
      the trace exactly when the node has no message left to deliver, and ends in the node's state. */
  lemma ClusterNodesReplay(setup: map<Uuid, Member>, schedule: seq<ClusterMove>, end: Cluster, i: Uuid, steps: nat)
    returns (arrivals: seq<seq<WireEnvelope>>)
    requires SetupOk(setup) && RunCluster(StartOf(setup), schedule) == Some(end) && i in setup && i in end.nodes
    requires end.nodes[i].steps <= steps
    ensures Recorded(setup[i], end.nodes[i], arrivals)
    ensures end.nodes[i].r.sys.timerCounter < U64_MAX || RecordTellable(setup[i].cfg, setup[i].settings, arrivals) ==>
              var nr := end.nodes[i];
              var replayed := Replay(setup[i].cfg, nr.events, steps);
              && (replayed.Ok? <==> InboxesEmpty(nr.r.sys.actors))
              && (replayed.Ok? ==> Sim(nr.r, replayed.value))
  {
    hide SetupOk;
    hide RunCluster;
    hide Replay;
    hide Record;
    hide StepsNeeded;
    hide RecordTellable;
    arrivals := NodesRecord(setup, schedule, end, i);
    var nr := end.nodes[i];
    if nr.r.sys.timerCounter < U64_MAX || RecordTellable(setup[i].cfg, setup[i].settings, arrivals) {
      RecordThenReplay(setup[i].cfg, setup[i].settings, arrivals, RecMove(nr.r, nr.events), steps);
    }
  }
}
