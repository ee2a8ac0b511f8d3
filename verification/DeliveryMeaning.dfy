/** What one delivery and one step of a recording node do: the events they make, in their order, and
    what they leave in the actors. */
module DeliveryMeaning {
  import opened Base
  import opened Sorting
  import opened Events
  import opened Lang
  import opened Interp
  import opened ActionMeaning
  import opened InjectorSpec
  import opened Node
  import opened RecordSpec
  import opened RecordReplay
  import opened VerifySpec
  import opened HonestRun
  import opened RecordTrace
  import opened TimerTiming

  // ---- the outbox ----

  /** The messages of an outbox that are to be sent at once. */
  function AtOnce(outbox: seq<Outgoing>): seq<Outgoing> {
    if outbox == [] then []
    else (if outbox[0].delaySteps == 0 then [outbox[0]] else []) + AtOnce(outbox[1..])
  }

  /** Services, stores and the messages already waiting stay as they are. */
  ghost predicate OnlyReceive(before: map<Uuid, Actor>, after: map<Uuid, Actor>) {
    && after.Keys == before.Keys
    && forall a :: a in before ==>
         after[a].service == before[a].service && after[a].store == before[a].store && before[a].inbox <= after[a].inbox
  }

  lemma DispatchReceives(cfg: Config, s: Sys, from: Uuid, target: Target, p: Payload)
    requires Dispatch(cfg, s, from, target, p).Ok?
    ensures OnlyReceive(s.actors, Dispatch(cfg, s, from, target, p).value.0.actors)
  {
  }

  /** Each message that is to be sent at once has its event, in order, and sending changes inboxes only. */
  lemma {:induction false} OutboxSent(cfg: Config, s: Sys, from: Uuid, outbox: seq<Outgoing>, out: Effects)
    requires ProcessOutbox(cfg, s, from, outbox) == Ok(out)
    ensures OnlyReceive(s.actors, out.sys.actors)
    ensures |out.emitted| == |AtOnce(outbox)|
    ensures forall i :: 0 <= i < |out.emitted| ==>
              Conveys(cfg, out.emitted[i], from, AtOnce(outbox)[i].target, AtOnce(outbox)[i].payload)
    decreases |outbox|
  {
    hide Dispatch;
    hide Conveys;
    hide OnlyReceive;
    if outbox == [] {
      NothingReceived(s.actors);
    } else if outbox[0].delaySteps > 0 {
      var s1 := s.(timerCounter := SatAdd(s.timerCounter, 1));
      OutboxSent(cfg, s1, from, outbox[1..], ProcessOutbox(cfg, s1, from, outbox[1..]).value);
      assert AtOnce(outbox) == AtOnce(outbox[1..]);
    } else {
      var d := Dispatch(cfg, s, from, outbox[0].target, outbox[0].payload).value;
      var rest := ProcessOutbox(cfg, d.0, from, outbox[1..]).value;
      DispatchConveys(cfg, s, from, outbox[0].target, outbox[0].payload, d.0, d.1);
      DispatchReceives(cfg, s, from, outbox[0].target, outbox[0].payload);
      OutboxSent(cfg, d.0, from, outbox[1..], rest);
      ReceivesJoin(s.actors, d.0.actors, rest.sys.actors);
      assert AtOnce(outbox) == [outbox[0]] + AtOnce(outbox[1..]) && out.emitted == [d.1] + rest.emitted;
    }
  }

  lemma NothingReceived(actors: map<Uuid, Actor>)
    ensures OnlyReceive(actors, actors)
  {
  }

  lemma ReceivesJoin(a: map<Uuid, Actor>, b: map<Uuid, Actor>, c: map<Uuid, Actor>)
    requires OnlyReceive(a, b) && OnlyReceive(b, c)
    ensures OnlyReceive(a, c)
  {
  }

  lemma {:induction false} LogsWritten(node: Uuid, from: Uuid, logs: seq<LogEmission>)
    ensures forall i :: 0 <= i < |logs| ==> LogEvents(node, from, logs)[i] == LogLine(node, from, logs[i].service, logs[i].text)
  {
    if logs != [] { LogsWritten(node, from, logs[1..]); }
  }

  // ---- one delivery ----

  /** A delivery runs the actor's handler on its store and keeps the new one; other actors keep theirs.
      It reports the effects, then each log line, then each message sent at once, in order. */
  lemma DeliveryMeans(cfg: Config, s: Sys, to: Uuid, e: Entry, h: Effects)
    requires Handle(cfg, s, to, e) == Ok(h)
    ensures to in s.actors && e.payload.Message?
    ensures ExecHandler(cfg, Call(s.actors[to].service, e.id, e.payload.msg), s.actors[to].store).Ok?
    ensures var a := s.actors[to];
            var run := ExecHandler(cfg, Call(a.service, e.id, e.payload.msg), a.store).value;
            && OnlyReceive(s.actors[to := a.(store := run.exec.store)], h.sys.actors)
            && |h.emitted| == 1 + |run.exec.logs| + |AtOnce(run.exec.outbox)|
            && h.emitted[0] == EffectObserved(cfg.node, to, a.service, e.payload.msg.msgType, e.id,
                                              EffectSeq(run.declared), EffectSeq(run.exec.observed))
            && (forall i :: 0 <= i < |run.exec.logs| ==>
                  h.emitted[1 + i] == LogLine(cfg.node, to, run.exec.logs[i].service, run.exec.logs[i].text))
            && (forall i :: 0 <= i < |AtOnce(run.exec.outbox)| ==>
                  Conveys(cfg, h.emitted[1 + |run.exec.logs| + i], to, AtOnce(run.exec.outbox)[i].target, AtOnce(run.exec.outbox)[i].payload))
  {
    hide ExecHandler;
    hide ProcessOutbox;
    hide EffectSeq;
    hide OnlyReceive;
    hide Conveys;
    hide AtOnce;
    hide LogEvents;
    var a := s.actors[to];
    var run := ExecHandler(cfg, Call(a.service, e.id, e.payload.msg), a.store).value;
    var s1 := s.(actors := s.actors[to := a.(store := run.exec.store)]);
    var out := ProcessOutbox(cfg, s1, to, run.exec.outbox).value;
    OutboxSent(cfg, s1, to, run.exec.outbox, out);
    LogsWritten(cfg.node, to, run.exec.logs);
    var seen := EffectObserved(cfg.node, to, a.service, e.payload.msg.msgType, e.id, EffectSeq(run.declared), EffectSeq(run.exec.observed));
    var logs := LogEvents(cfg.node, to, run.exec.logs);
    assert h.emitted == [seen] + (logs + out.emitted);
    assert forall i :: 0 <= i < |logs| ==> h.emitted[1 + i] == logs[i];
    assert forall i :: 0 <= i < |out.emitted| ==> h.emitted[1 + |logs| + i] == out.emitted[i];
  }

  // ---- answering the sender ----

  lemma {:induction false} OutboxGrows(cfg: Config, call: Call, a: Action, x: Exec)
    requires ExecAction(cfg, call, a, x).Ok?
    ensures x.outbox <= ExecAction(cfg, call, a, x).value.outbox
    decreases a
  {
    if SendsToNodes(a) || SendsLocally(a) {
      SendingMeans(cfg, call, a, x);
    } else if a.IfStateEq? && x.store[a.key] == a.value {
      OutboxGrows(cfg, call, a.thenAction, x.(observed := x.observed + {StateRead}));
    }
  }

  lemma {:induction false} OutboxGrowsAlong(cfg: Config, call: Call, actions: seq<Action>, x: Exec)
    requires ExecActions(cfg, call, actions, x).Ok?
    ensures x.outbox <= ExecActions(cfg, call, actions, x).value.outbox
    decreases |actions|
  {
    hide ExecAction;
    if actions != [] {
      OutboxGrows(cfg, call, actions[0], x);
      OutboxGrowsAlong(cfg, call, actions[1..], ExecAction(cfg, call, actions[0], x).value);
    }
  }

  /** A message of this type that goes to this other node at once. */
  predicate GoesAtOnce(o: Outgoing, node: Uuid, service: string, message: string) {
    o.delaySteps == 0 && o.target == RemoteService(node, service) && o.payload.Message? && o.payload.msg.msgType == message
  }

  lemma {:induction false} AnswerInOutbox(cfg: Config, call: Call, actions: seq<Action>, k: nat, x: Exec, n: Uuid) returns (o: Outgoing)
    requires k < |actions| && actions[k].SendRemoteAction? && actions[k].target == Sender
    requires call.incoming.fromNode.Parsed() == Some(n) && n != cfg.node
    requires ExecActions(cfg, call, actions, x).Ok?
    ensures o in ExecActions(cfg, call, actions, x).value.outbox
    ensures GoesAtOnce(o, n, actions[k].service, actions[k].message)
    decreases |actions|
  {
    hide ExecAction;
    var y := ExecAction(cfg, call, actions[0], x).value;
    if k == 0 {
      SendingMeans(cfg, call, actions[0], x);
      OutboxGrowsAlong(cfg, call, actions[1..], y);
      o := y.outbox[|x.outbox|..][0];
      assert o in y.outbox[|x.outbox|..] && o in y.outbox;
    } else {
      o := AnswerInOutbox(cfg, call, actions[1..], k - 1, y, n);
    }
  }

  lemma {:induction false} SentAtOnce(outbox: seq<Outgoing>, o: Outgoing) returns (i: nat)
    requires o in outbox && o.delaySteps == 0
    ensures i < |AtOnce(outbox)| && AtOnce(outbox)[i] == o
  {
    if o == outbox[0] {
      i := 0;
    } else {
      var j := SentAtOnce(outbox[1..], o);
      i := if outbox[0].delaySteps == 0 then j + 1 else j;
    }
  }

  /** This event sends a message of this type from this actor to another node. */
  predicate AnswersTo(cfg: Config, ev: EventKind, from: Uuid, node: Uuid, message: string) {
    ev.NetSend? && ev.node == cfg.node && ev.toNode == node && ev.from == from && ev.payload.Message? && ev.payload.msg.msgType == message
  }

  /** When the handler of a delivered message from another node sends to `sender`, one of the events
      right after the delivery is a NetSend to that node with the answer. */
  lemma AnswerSent(cfg: Config, s: Sys, to: Uuid, e: Entry, h: Effects, k: nat, n: Uuid) returns (i: nat)
    requires Handle(cfg, s, to, e) == Ok(h)
    requires var key := (s.actors[to].service, e.payload.msg.msgType);
             && key in cfg.program.handlers && k < |cfg.program.handlers[key].actions|
             && cfg.program.handlers[key].actions[k].SendRemoteAction? && cfg.program.handlers[key].actions[k].target == Sender
    requires e.payload.msg.fromNode.Parsed() == Some(n) && n != cfg.node
    ensures i < |h.emitted|
    ensures AnswersTo(cfg, h.emitted[i], to, n, cfg.program.handlers[(s.actors[to].service, e.payload.msg.msgType)].actions[k].message)
  {
    hide EffectSeq;
    hide ExecActions;
    hide ProcessOutbox;
    hide OnlyReceive;
    hide AtOnce;
    DeliveryMeans(cfg, s, to, e, h);
    var a := s.actors[to];
    var call := Call(a.service, e.id, e.payload.msg);
    var plan := cfg.program.handlers[(a.service, e.payload.msg.msgType)];
    var x := ExecHandler(cfg, call, a.store).value.exec;
    var o := AnswerInOutbox(cfg, call, plan.actions, k, Exec(a.store, [], [], {}), n);
    var j := SentAtOnce(x.outbox, o);
    i := 1 + |x.logs| + j;
  }

  // ---- one step ----

  /** The delivery a step makes: the actor and the message at the head of its inbox. */
  datatype Delivery = Delivery(to: Uuid, entry: Entry, before: Sys)

  function StepDelivery(cfg: Config, r: RecState, step: U64, arrivals: seq<WireEnvelope>): Option<Delivery> {
    match FireDue(cfg, DrainStep(cfg, r, step, arrivals).state, step)
    case Err(_) => None
    case Ok(f) =>
      match LeastReady(f.state.sys.actors)
      case None => None
      case Some(to) =>
        match Pop(f.state.sys, to)
        case Err(_) => None
        case Ok(p) => Some(Delivery(to, p.entry, p.sys))
  }

  /** The delivery goes to the least actor that has a message once the step's receipts and firings are in,
      and takes the one that has waited longest. */
  lemma LeastServed(cfg: Config, r: RecState, step: U64, arrivals: seq<WireEnvelope>, f: RecMove, d: Delivery)
    requires FireDue(cfg, DrainStep(cfg, r, step, arrivals).state, step) == Ok(f)
    requires StepDelivery(cfg, r, step, arrivals) == Some(d)
    ensures d.to in f.state.sys.actors && f.state.sys.actors[d.to].inbox != [] && d.entry == f.state.sys.actors[d.to].inbox[0]
    ensures forall a :: a in f.state.sys.actors && f.state.sys.actors[a].inbox != [] ==> d.to <= a
    ensures d.before == f.state.sys.(actors := f.state.sys.actors[d.to :=
              f.state.sys.actors[d.to].(inbox := f.state.sys.actors[d.to].inbox[1..])])
  {
    hide DrainStep;
    hide FireDue;
    var actors := f.state.sys.actors;
    var ready := ReadyActors(actors);
    assert forall a :: a in actors && actors[a].inbox != [] ==> a in ready;
  }

  predicate FromNetwork(ev: EventKind) {
    ev.NetRecv? || ev.FaultInjected? || ev.FaultPolicyEvent?
  }

  /** A step is network events, then firings, then at most one delivery with what it reports. */
  lemma StepParts(cfg: Config, r: RecState, step: U64, arrivals: seq<WireEnvelope>, m: RecMove)
    returns (network: seq<EventKind>, fired: seq<EventKind>, delivered: seq<EventKind>)
    requires RecordStep(cfg, r, step, arrivals) == Ok(m) && HoldsOwn(r.inj, cfg.node)
    ensures m.events == network + fired + delivered
    ensures forall ev :: ev in network ==> FromNetwork(ev)
    ensures forall ev :: ev in fired ==> ev.TimerFired? || IsSend(ev)
    ensures Due(r.timers, step) == [] ==> fired == []
    ensures match StepDelivery(cfg, r, step, arrivals)
            case None => delivered == [] && InboxesEmpty(m.state.sys.actors)
            case Some(d) =>
              && Handle(cfg, d.before, d.to, d.entry).Ok?
              && delivered == [Deliver(cfg.node, d.to, d.entry.id)] + Handle(cfg, d.before, d.to, d.entry).value.emitted
              && m.state.sys == Handle(cfg, d.before, d.to, d.entry).value.sys
  {
    hide Drain;
    hide FireAll;
    hide Handle;
    hide RecvEvents;
    hide SortBy;
    hide HoldsOwn;
    var d := DrainStep(cfg, r, step, arrivals);
    var due := SortBy(TimerKey, Due(d.state.timers, step));
    var f := FireDue(cfg, d.state, step).value;
    var h := DeliverNext(cfg, f.state, step).value;
    DrainQuiet(r.inj, cfg.node, step, arrivals);
    FiringsLocal(cfg, d.state.sys, due, FireAll(cfg, d.state.sys, due).value);
    NoFirings(cfg, d.state.sys, due);
    network, fired, delivered := d.events, f.events, h.events;
  }

  lemma NoFirings(cfg: Config, s: Sys, due: seq<PendingTimer>)
    requires FireAll(cfg, s, due).Ok?
    ensures due == [] ==> FireAll(cfg, s, due).value.events == []
  {
  }

  /** A handler's answer to the sender of a message from another node, in the trace of the step: a NetSend
      to that node, after the Deliver event of the message. */
  lemma AnswerInTrace(cfg: Config, r: RecState, step: U64, arrivals: seq<WireEnvelope>, m: RecMove, d: Delivery, k: nat, n: Uuid)
    returns (i: nat, j: nat)
    requires RecordStep(cfg, r, step, arrivals) == Ok(m) && HoldsOwn(r.inj, cfg.node)
    requires StepDelivery(cfg, r, step, arrivals) == Some(d) && d.to in d.before.actors && d.entry.payload.Message?
    requires var key := (d.before.actors[d.to].service, d.entry.payload.msg.msgType);
             && key in cfg.program.handlers && k < |cfg.program.handlers[key].actions|
             && cfg.program.handlers[key].actions[k].SendRemoteAction? && cfg.program.handlers[key].actions[k].target == Sender
    requires d.entry.payload.msg.fromNode.Parsed() == Some(n) && n != cfg.node
    ensures i < j < |m.events| && m.events[i] == Deliver(cfg.node, d.to, d.entry.id)
    ensures var key := (d.before.actors[d.to].service, d.entry.payload.msg.msgType);
            AnswersTo(cfg, m.events[j], d.to, n, cfg.program.handlers[key].actions[k].message)
  {
    hide RecordStep;
    hide Handle;
    hide StepDelivery;
    hide HoldsOwn;
    var network, fired, delivered := StepParts(cfg, r, step, arrivals, m);
    var h := Handle(cfg, d.before, d.to, d.entry).value;
    var q := AnswerSent(cfg, d.before, d.to, d.entry, h, k, n);
    i := |network + fired|;
    j := i + 1 + q;
    assert m.events[i] == delivered[0] && m.events[j] == delivered[1 + q];
  }
}
