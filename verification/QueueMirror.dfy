/** The verifier's message queues mirror the runtime's inboxes on every run, clean or not. */
module QueueMirror {
  import opened Base
  import opened Events
  import opened TraceFile
  import opened Interp
  import opened Faults
  import opened InjectorSpec
  import opened Node
  import opened RecordSpec
  import opened ReplaySpec
  import opened RecordReplay
  import opened Queues
  import opened VerifySpec
  import opened VerifyMeaning
  import opened LineageSpec
  import opened HonestNode
  import opened HonestRun

  function ProducedRun(produced: Produced, kinds: seq<EventKind>): Produced
    decreases |kinds|
  {
    if kinds == [] then produced else ProducedRun(ProducedAfter(produced, kinds[0]), kinds[1..])
  }

  lemma {:induction false} ProducedRunAppend(produced: Produced, a: seq<EventKind>, b: seq<EventKind>)
    ensures ProducedRun(produced, a + b) == ProducedRun(ProducedRun(produced, a), b)
    decreases |a|
  {
    hide ProducedAfter;
    if a == [] {
      assert a + b == b;
    } else {
      assert (a + b)[1..] == a[1..] + b;
      ProducedRunAppend(ProducedAfter(produced, a[0]), a[1..], b);
    }
  }

  lemma ProducedCons(produced: Produced, k: EventKind, rest: seq<EventKind>)
    ensures ProducedRun(produced, [k] + rest) == ProducedRun(ProducedAfter(produced, k), rest)
  {
    hide ProducedAfter;
    assert ([k] + rest)[1..] == rest;
  }

  lemma KindProduces(v: VState, at: U64, k: EventKind)
    ensures CheckKind(v, at, k).produced == ProducedAfter(v.produced, k)
  {
    hide LineageProblems;
    hide RecordLineage;
    hide CheckEffects;
    if k.EffectObserved? { assert CheckEffects(v, at, k).produced == v.produced by { EffectsProduceNothing(v, at, k); } }
  }

  lemma EffectsProduceNothing(v: VState, at: U64, k: EventKind)
    requires k.EffectObserved?
    ensures CheckEffects(v, at, k).produced == v.produced
  {
  }

  lemma ProducedStep(v: VState, ev: TraceEvent)
    ensures VStep(v, ev).produced == ProducedAfter(v.produced, ev.kind)
  {
    hide ProducedAfter;
    hide CheckKind;
    hide CheckSeq;
    hide CheckSeed;
    hide CheckEffectDue;
    hide CheckTimerDue;
    var w := CheckSeed(CheckSeq(v, ev), ev);
    NumberingForm(v, ev);
    AnswerForm(w, ev);
    KindProduces(CheckTimerDue(CheckEffectDue(w, ev), ev), ev.seqNo, ev.kind);
  }

  lemma {:induction false} FoldQueues(events: seq<TraceEvent>, n: nat)
    requires n <= |events|
    ensures VFold(events, n).produced == QueuesAt(events, n)
  {
    hide VStep;
    hide ProducedAfter;
    if n > 0 {
      FoldQueues(events, n - 1);
      ProducedStep(VFold(events, n - 1), events[n - 1]);
    }
  }

  /** The queues the verifier holds after a trace file of any length. */
  lemma {:induction false} FileProduces(kinds: seq<EventKind>)
    ensures VFold(StampAll(kinds), |kinds|).produced == ProducedRun(map[], kinds)
  {
    hide ProducedAfter;
    hide VStep;
    hide StampAll;
    if kinds != [] {
      hide VFold;
      var n := |kinds| - 1;
      var front := kinds[..n];
      FileProduces(front);
      assert front + [kinds[n]] == kinds;
      var ev := TraceEvent(SeqNo(n), SEED, kinds[n]);
      StampSnoc(front, kinds[n]);
      FoldSnoc(StampAll(front), ev);
      ProducedStep(VFold(StampAll(front), n), ev);
      ProducedRunAppend(map[], front, [kinds[n]]);
      ProducedCons(ProducedRun(map[], front), kinds[n], []);
    }
  }

  function Inboxes(actors: map<Uuid, Actor>): map<Uuid, seq<Entry>> {
    map a | a in actors :: actors[a].inbox
  }

  /** As many messages wait in the verifier's queues as in the inboxes. */
  ghost predicate SameTotal(actors: map<Uuid, Actor>, produced: Produced) {
    TotalLength(produced) == TotalLength(Inboxes(actors))
  }

  ghost predicate Mirrors(actors: map<Uuid, Actor>, produced: Produced, counted: bool) {
    QueuesMirror(actors, produced) && (counted ==> SameTotal(actors, produced))
  }

  lemma TotalUpdate<K, V>(m: map<K, seq<V>>, k: K, q: seq<V>)
    requires k in m
    ensures TotalLength(m[k := q]) == TotalLength(m) - |m[k]| + |q|
  {
    TotalSplit(m, k);
    TotalSplit(m[k := q], k);
    assert m[k := q] - {k} == m - {k};
  }

  lemma PushMirrors(actors: map<Uuid, Actor>, produced: Produced, to: Uuid, e: Entry, counted: bool)
    requires Mirrors(actors, produced, counted) && (counted ==> to in actors)
    ensures Mirrors(Push(actors, to, e), Enqueue(produced, (to, e.id), e.payload), counted)
  {
    MirrorPush(actors, produced, to, e);
    if counted {
      TotalEnqueue(produced, (to, e.id), e.payload);
      assert Inboxes(Push(actors, to, e)) == Enqueue(Inboxes(actors), to, e);
      TotalEnqueue(Inboxes(actors), to, e);
    }
  }

  lemma PopMirrors(actors: map<Uuid, Actor>, produced: Produced, to: Uuid, counted: bool)
    requires Mirrors(actors, produced, counted) && to in actors && actors[to].inbox != []
    ensures var e := actors[to].inbox[0];
            && QueueOf(produced, (to, e.id)) != [] && produced[(to, e.id)][0] == e.payload
            && Mirrors(actors[to := actors[to].(inbox := actors[to].inbox[1..])], Dequeue(produced, (to, e.id)), counted)
  {
    MirrorPop(actors, produced, to);
    if counted {
      var after := actors[to := actors[to].(inbox := actors[to].inbox[1..])];
      TotalDequeue(produced, (to, actors[to].inbox[0].id));
      assert Inboxes(after) == Inboxes(actors)[to := actors[to].inbox[1..]];
      TotalUpdate(Inboxes(actors), to, actors[to].inbox[1..]);
    }
  }

  lemma StoreMirrors(actors: map<Uuid, Actor>, produced: Produced, to: Uuid, a: Actor, counted: bool)
    requires Mirrors(actors, produced, counted) && to in actors && a.inbox == actors[to].inbox
    ensures Mirrors(actors[to := a], produced, counted)
  {
    var after := actors[to := a];
    forall b: Uuid, id: Uuid | b in after ensures QueueOf(produced, (b, id)) == Project(after[b].inbox, id) {
      assert QueueOf(produced, (b, id)) == Project(actors[b].inbox, id);
    }
    assert Inboxes(after) == Inboxes(actors);
  }

  lemma DispatchMirrors(cfg: Config, s: Sys, produced: Produced, from: Uuid, target: Target, p: Payload, s1: Sys, ev: EventKind, counted: bool)
    requires Mirrors(s.actors, produced, counted) && Dispatch(cfg, s, from, target, p) == Ok((s1, ev))
    ensures Mirrors(s1.actors, ProducedAfter(produced, ev), counted)
  {
    hide Mirrors;
    if target.LocalService? { PushMirrors(s.actors, produced, ev.to, Entry(ev.msgId, p), counted); }
  }

  lemma {:induction false} OutboxMirrors(cfg: Config, s: Sys, produced: Produced, from: Uuid, outbox: seq<Outgoing>, out: Effects, counted: bool)
    requires Mirrors(s.actors, produced, counted) && ProcessOutbox(cfg, s, from, outbox) == Ok(out)
    ensures Mirrors(out.sys.actors, ProducedRun(produced, out.emitted), counted)
    decreases |outbox|
  {
    hide Mirrors;
    hide ProducedAfter;
    hide Dispatch;
    if outbox != [] {
      if outbox[0].delaySteps > 0 {
        var s1 := s.(timerCounter := SatAdd(s.timerCounter, 1));
        OutboxMirrors(cfg, s1, produced, from, outbox[1..], ProcessOutbox(cfg, s1, from, outbox[1..]).value, counted);
      } else {
        var (s1, ev) := Dispatch(cfg, s, from, outbox[0].target, outbox[0].payload).value;
        var rest := ProcessOutbox(cfg, s1, from, outbox[1..]).value;
        DispatchMirrors(cfg, s, produced, from, outbox[0].target, outbox[0].payload, s1, ev, counted);
        OutboxMirrors(cfg, s1, ProducedAfter(produced, ev), from, outbox[1..], rest, counted);
        ProducedCons(produced, ev, rest.emitted);
      }
    }
  }

  lemma {:induction false} QuietProduces(produced: Produced, kinds: seq<EventKind>)
    requires forall k :: k in kinds ==> !k.Send? && !k.NetRecv? && !k.Deliver?
    ensures ProducedRun(produced, kinds) == produced
    decreases |kinds|
  {
    if kinds != [] {
      assert kinds[0] in kinds;
      QuietProduces(produced, kinds[1..]);
    }
  }

  lemma HandleMirrors(cfg: Config, s: Sys, produced: Produced, to: Uuid, e: Entry, h: Effects, counted: bool)
    requires Mirrors(s.actors, produced, counted) && Handle(cfg, s, to, e) == Ok(h)
    ensures Mirrors(h.sys.actors, ProducedRun(produced, h.emitted), counted)
  {
    hide Mirrors;
    hide ExecHandler;
    hide ProcessOutbox;
    hide EffectSeq;
    hide ProducedRun;
    var a := s.actors[to];
    var run := ExecHandler(cfg, Call(a.service, e.id, e.payload.msg), a.store).value;
    var s1 := s.(actors := s.actors[to := a.(store := run.exec.store)]);
    var out := ProcessOutbox(cfg, s1, to, run.exec.outbox).value;
    var k := EffectObserved(cfg.node, to, a.service, e.payload.msg.msgType, e.id, EffectSeq(run.declared), EffectSeq(run.exec.observed));
    var report := [k] + LogEvents(cfg.node, to, run.exec.logs);
    StoreMirrors(s.actors, produced, to, a.(store := run.exec.store), counted);
    LogEmissions(cfg.node, to, run.exec.logs);
    QuietProduces(produced, report);
    OutboxMirrors(cfg, s1, produced, to, run.exec.outbox, out, counted);
    ProducedRunAppend(produced, report, out.emitted);
    assert h.emitted == report + out.emitted;
  }

  /** Inputs of this node only. */
  predicate OwnInput(cfg: Config, ev: EventKind) {
    (ev.Deliver? || ev.NetRecv? || ev.TimerFired?) ==> ev.node == cfg.node
  }

  /** Also, receipts go to actors of this node. */
  predicate ToKnown(actors: set<Uuid>, ev: EventKind) {
    ev.NetRecv? ==> ev.to in actors
  }

  lemma CoreStepMirrors(cfg: Config, c: Core, ev: EventKind, m: Move, produced: Produced, counted: bool)
    requires CoreStep(cfg, c, ev) == Ok(m) && OwnInput(cfg, ev) && Mirrors(c.sys.actors, produced, counted)
    requires counted ==> ToKnown(c.sys.actors.Keys, ev)
    ensures Mirrors(m.core.sys.actors, ProducedRun(produced, [ev] + m.events), counted)
  {
    hide Mirrors;
    hide Handle;
    hide Dispatch;
    hide ProducedRun;
    ProducedCons(produced, ev, m.events);
    if ev.Deliver? {
      var p := Pop(c.sys, ev.to).value;
      PopMirrors(c.sys.actors, produced, ev.to, counted);
      HandleMirrors(cfg, p.sys, Dequeue(produced, (ev.to, ev.msgId)), ev.to, p.entry, Handle(cfg, p.sys, ev.to, p.entry).value, counted);
    } else if ev.TimerFired? {
      var t := c.timers[FindTimer(c.timers, ev.from, ev.timerId)];
      var (s1, sent) := Dispatch(cfg, c.sys, t.from, t.target, t.payload).value;
      DispatchMirrors(cfg, c.sys, produced, t.from, t.target, t.payload, s1, sent, counted);
      assert ProducedAfter(produced, ev) == produced && m.events == [sent] + [];
      ProducedCons(produced, sent, []);
      NothingProduces(ProducedAfter(produced, sent));
    } else {
      NothingProduces(ProducedAfter(produced, ev));
      if ev.NetRecv? { PushMirrors(c.sys.actors, produced, ev.to, Entry(ev.msgId, ev.payload), counted); }
    }
  }

  lemma NothingProduces(produced: Produced)
    ensures ProducedRun(produced, []) == produced
  {
  }

  lemma {:induction false} FollowsMirrors(cfg: Config, c: Core, trace: seq<EventKind>, end: Core, produced: Produced, counted: bool)
    requires Follows(cfg, c, trace) == Ok(end) && Mirrors(c.sys.actors, produced, counted)
    requires forall ev :: ev in trace ==> OwnInput(cfg, ev) && (counted ==> ToKnown(c.sys.actors.Keys, ev))
    ensures Mirrors(end.sys.actors, ProducedRun(produced, trace), counted)
    decreases |trace|
  {
    hide Mirrors;
    hide CoreStep;
    hide OwnInput;
    hide ToKnown;
    hide ProducedAfter;
    if trace != [] {
      var m := CoreStep(cfg, c, trace[0]).value;
      var rest := trace[1..][|m.events|..];
      assert trace[0] in trace;
      CoreStepMirrors(cfg, c, trace[0], m, produced, counted);
      StepKeepsActors(cfg, c, trace[0], m);
      assert trace == [trace[0]] + m.events + rest;
      FollowsMirrors(cfg, m.core, rest, end, ProducedRun(produced, [trace[0]] + m.events), counted);
      ProducedRunAppend(produced, [trace[0]] + m.events, rest);
    }
  }

  // ---- start-up ----

  lemma {:induction false} NewActorsIdle(cfg: Config, n: nat)
    requires n <= |cfg.program.services|
    ensures forall a :: a in BuildActors(cfg, n) ==> BuildActors(cfg, n)[a].inbox == []
  {
    if n > 0 { NewActorsIdle(cfg, n - 1); }
  }

  lemma {:induction false} AllEmptyTotal<K, V>(m: map<K, seq<V>>)
    requires forall k :: k in m ==> m[k] == []
    ensures TotalLength(m) == 0
    decreases |m|
  {
    if m != map[] {
      var k :| k in m;
      TotalSplit(m, k);
      AllEmptyTotal(m - {k});
    }
  }

  lemma {:induction false} BootstrapMirrors(cfg: Config, entry: Uuid, n: nat, b: Boot)
    requires |cfg.program.services| > 0 && Bootstrap(cfg, entry, n) == Ok(b)
    ensures Mirrors(b.sys.actors, ProducedRun(map[], b.events), true)
  {
    hide BootstrapMessage;
    if n == 0 {
      NewActorsIdle(cfg, |cfg.program.services|);
      AllEmptyTotal(Inboxes(b.sys.actors));
    } else {
      hide Mirrors;
      hide ProducedRun;
      var before := Bootstrap(cfg, entry, n - 1).value;
      BootstrapMirrors(cfg, entry, n - 1, before);
      var id := MsgId(cfg.node, before.sys.msgCounter);
      var p := BootstrapMessage(cfg, id, n - 1);
      var sent := Send(cfg.systemActor, entry, id, p);
      PushMirrors(before.sys.actors, ProducedRun(map[], before.events), entry, Entry(id, p), true);
      ProducedRunAppend(map[], before.events, [sent]);
      ProducedCons(ProducedRun(map[], before.events), sent, []);
      NothingProduces(ProducedAfter(ProducedRun(map[], before.events), sent));
    }
  }

  lemma StartupMirrors(cfg: Config, boot: Boot)
    requires Startup(cfg) == Ok(boot)
    ensures Mirrors(boot.sys.actors, ProducedRun(map[], boot.events), true)
  {
    hide Mirrors;
    hide ProducedRun;
    hide Bootstrap;
    var spawns := SpawnEvents(cfg, |cfg.program.services|);
    var b := Bootstrap(cfg, cfg.actorOf[EntryService(cfg)], BootstrapCount(cfg)).value;
    BootstrapMirrors(cfg, cfg.actorOf[EntryService(cfg)], BootstrapCount(cfg), b);
    SpawnsAreNotInputs(cfg, |cfg.program.services|);
    QuietProduces(map[], spawns);
    ProducedRunAppend(map[], spawns, b.events);
  }

  // ---- whole runs ----

  /** An input event stands at a block boundary: what precedes it is itself a run of the machine. */
  lemma {:induction false} SplitAtInput(cfg: Config, c: Core, pre: seq<EventKind>, d: EventKind, post: seq<EventKind>, end: Core)
    requires Follows(cfg, c, pre + [d] + post) == Ok(end) && IsInput(d)
    ensures Follows(cfg, c, pre).Ok?
    ensures Follows(cfg, Follows(cfg, c, pre).value, [d] + post) == Ok(end)
    decreases |pre|
  {
    hide CoreStep;
    var trace := pre + [d] + post;
    if pre == [] {
      assert trace == [d] + post;
    } else {
      var m := CoreStep(cfg, c, pre[0]).value;
      EmittedAreEmissions(cfg, c, pre[0]);
      assert trace[1..] == pre[1..] + [d] + post;
      assert trace[1..][|pre| - 1] == d;
      if |m.events| > |pre| - 1 {
        assert false;
      }
      assert m.events == trace[1..][..|m.events|] == pre[1..][..|m.events|];
      assert trace[1..][|m.events|..] == pre[1..][|m.events|..] + [d] + post;
      SplitAtInput(cfg, m.core, pre[1..][|m.events|..], d, post, end);
    }
  }

  /** First in, first out: on any trace the machine follows, whatever the network delivers and even
      when two nodes minted the same message id, the payload the verifier's queues yield at a Deliver
      is the payload the runtime pops there. */
  lemma VerifierSeesPoppedPayload(cfg: Config, boot: Boot, pre: seq<EventKind>, to: Uuid, id: Uuid, post: seq<EventKind>, end: Core)
    requires Startup(cfg) == Ok(boot)
    requires Follows(cfg, Core(boot.sys, []), pre + [Deliver(cfg.node, to, id)] + post) == Ok(end)
    requires forall ev :: ev in pre ==> OwnInput(cfg, ev)
    ensures var before := Follows(cfg, Core(boot.sys, []), pre);
            && before.Ok? && to in before.value.sys.actors && before.value.sys.actors[to].inbox != []
            && var entry := before.value.sys.actors[to].inbox[0];
               var seen := VFold(StampAll(boot.events + pre), |boot.events + pre|).produced;
               && entry.id == id && QueueOf(seen, (to, id)) != [] && seen[(to, id)][0] == entry.payload
  {
    hide Mirrors;
    hide Handle;
    hide ProducedRun;
    var c := Core(boot.sys, []);
    var d := Deliver(cfg.node, to, id);
    SplitAtInput(cfg, c, pre, d, post, end);
    var mid := Follows(cfg, c, pre).value;
    assert CoreStep(cfg, mid, d).Ok? by { assert ([d] + post)[0] == d; }
    StartupMirrors(cfg, boot);
    assert Mirrors(boot.sys.actors, ProducedRun(map[], boot.events), false) by { CountForgotten(boot.sys.actors, ProducedRun(map[], boot.events)); }
    FollowsMirrors(cfg, c, pre, mid, ProducedRun(map[], boot.events), false);
    FileProduces(boot.events + pre);
    ProducedRunAppend(map[], boot.events, pre);
    PopMirrors(mid.sys.actors, ProducedRun(map[], boot.events + pre), to, false);
  }

  lemma CountForgotten(actors: map<Uuid, Actor>, produced: Produced)
    requires Mirrors(actors, produced, true)
    ensures Mirrors(actors, produced, false)
  {
  }
}
