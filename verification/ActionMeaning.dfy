/** What each action of a handler does, said of its outcome: what is stored, logged and observed, and
    which messages go where. */
module ActionMeaning {
  import opened Base
  import opened Sorting
  import opened Events
  import opened Lang
  import opened Interp

  /** The node an outgoing message is for. */
  function Destination(self: Uuid, o: Outgoing): Uuid {
    match o.target
    case LocalService(_) => self
    case RemoteService(node, _) => node
  }

  /** The message's lineage continues that of the handled message; without one, it starts from there. */
  predicate ContinuesLineage(p: Provenance, call: Call) {
    && p.parentNode == call.incoming.fromNode && p.parentMsgId == Canonical(call.msgId)
    && match call.incoming.provenance
       case Some(prev) =>
         && p.originNode == prev.originNode && p.originService == prev.originService && p.originMsgId == prev.originMsgId
         && p.hops == (if prev.hops == U64_MAX then U64_MAX else prev.hops + 1)
       case None =>
         && p.originNode == call.incoming.fromNode && p.originService == call.incoming.fromService
         && p.originMsgId == Canonical(call.msgId) && p.hops == 1
  }

  /** An outgoing message of this type for this service: written by this node and service, with the
      template rendered on the store as it was, to be sent after this many steps; and never remote
      when it is for this node. */
  predicate Says(cfg: Config, call: Call, store: Store, o: Outgoing, delay: U64, service: string, message: string, template: string) {
    && o.delaySteps == delay
    && o.target.service == service && o.target != RemoteService(cfg.node, service)
    && o.payload.Message?
    && var m := o.payload.msg;
       && m.msgType == message && m.fromNode == Canonical(cfg.node) && m.fromService == call.service
       && m.text == cfg.render(template, cfg.node, call.service, call.incoming, store)
       && m.provenance.Some? && ContinuesLineage(m.provenance.value, call)
  }

  lemma WrittenAs(cfg: Config, call: Call, store: Store, node: Uuid, delay: U64, service: string, message: string, template: string)
    ensures var o := Route(cfg.node, node, delay, service, Outbound(cfg, call, message, template, store));
            Says(cfg, call, store, o, delay, service, message, template) && Destination(cfg.node, o) == node
  {
  }

  lemma {:induction false} RoutesGo(cfg: Config, call: Call, store: Store, nodes: seq<Uuid>, delay: U64, service: string, message: string, template: string)
    ensures var outs := RouteAll(cfg.node, nodes, delay, service, Outbound(cfg, call, message, template, store));
            forall i :: 0 <= i < |nodes| ==>
              Says(cfg, call, store, outs[i], delay, service, message, template) && Destination(cfg.node, outs[i]) == nodes[i]
  {
    hide Route;
    hide Says;
    hide Outbound;
    if nodes != [] {
      WrittenAs(cfg, call, store, nodes[0], delay, service, message, template);
      RoutesGo(cfg, call, store, nodes[1..], delay, service, message, template);
    }
  }

  /** One message, for this node. */
  predicate OneTo(cfg: Config, outs: seq<Outgoing>, node: Uuid) {
    |outs| == 1 && Destination(cfg.node, outs[0]) == node
  }

  /** One message for every peer, in ascending order of their ids. */
  ghost predicate OneToEach(cfg: Config, outs: seq<Outgoing>, peers: set<Uuid>) {
    && (forall n :: n in peers <==> exists i :: 0 <= i < |outs| && Destination(cfg.node, outs[i]) == n)
    && (forall i, j :: 0 <= i < j < |outs| ==> Destination(cfg.node, outs[i]) < Destination(cfg.node, outs[j]))
  }

  /** What an action that names a target adds to the outbox: `sender` one message for the node the handled
      message says it is from, or none if that is no id; `node:` one for the id that is written there,
      or none; `peers` one for each peer in ascending order, or one for this node if it has no peers. */
  ghost predicate GoesTo(cfg: Config, call: Call, target: RemoteTarget, outs: seq<Outgoing>) {
    match target
    case Sender =>
      (match call.incoming.fromNode
       case Canonical(n) => OneTo(cfg, outs, n)
       case Spelled(n, _) => OneTo(cfg, outs, n)
       case NotAnId(_) => outs == [])
    case Node(raw) => if cfg.parseId(raw).Some? then OneTo(cfg, outs, cfg.parseId(raw).value) else outs == []
    case Peers => if cfg.peers == {} then OneTo(cfg, outs, cfg.node) else OneToEach(cfg, outs, cfg.peers)
  }

  lemma TargetsReached(cfg: Config, call: Call, target: RemoteTarget, store: Store, delay: U64, service: string, message: string, template: string)
    ensures var outs := RemoteSends(cfg, call, target, delay, service, Outbound(cfg, call, message, template, store));
            && GoesTo(cfg, call, target, outs)
            && forall o :: o in outs ==> Says(cfg, call, store, o, delay, service, message, template)
  {
    hide Says;
    hide Outbound;
    hide SortedIds;
    hide RouteAll;
    var nodes := TargetNodes(cfg, call, target);
    var outs := RemoteSends(cfg, call, target, delay, service, Outbound(cfg, call, message, template, store));
    RoutesGo(cfg, call, store, nodes, delay, service, message, template);
    assert outs == RouteAll(cfg.node, nodes, delay, service, Outbound(cfg, call, message, template, store)) && |outs| == |nodes|;
    assert forall o :: o in outs ==> exists i :: 0 <= i < |nodes| && outs[i] == o;
    if target.Peers? && cfg.peers != {} {
      SortedIdsAscend(cfg.peers);
      forall n | n in cfg.peers ensures exists i :: 0 <= i < |outs| && Destination(cfg.node, outs[i]) == n {
        var i :| 0 <= i < |nodes| && nodes[i] == n;
        assert Destination(cfg.node, outs[i]) == n;
      }
      forall i | 0 <= i < |outs| ensures Destination(cfg.node, outs[i]) in cfg.peers { assert nodes[i] in nodes; }
      assert OneToEach(cfg, outs, cfg.peers);
    }
  }

  predicate SendsToNodes(a: Action) {
    a.SendRemoteAction? || a.TimerRemoteAction?
  }

  predicate SendsLocally(a: Action) {
    a.SendLocalAction? || a.TimerLocalAction?
  }

  predicate IsTimer(a: Action) {
    a.TimerLocalAction? || a.TimerRemoteAction?
  }

  /** A sending action never fails, stores and logs nothing, and adds messages to the end of the outbox
      that say what it is told to say, where it is told, at once or after its steps. */
  lemma SendingMeans(cfg: Config, call: Call, a: Action, x: Exec)
    requires SendsToNodes(a) || SendsLocally(a)
    ensures ExecAction(cfg, call, a, x).Ok?
    ensures var y := ExecAction(cfg, call, a, x).value;
            var delay := if IsTimer(a) then a.steps else 0;
            && y.store == x.store && y.logs == x.logs && x.outbox <= y.outbox
            && (forall o :: o in y.outbox[|x.outbox|..] ==> Says(cfg, call, x.store, o, delay, a.service, a.message, a.template))
            && (SendsToNodes(a) ==> GoesTo(cfg, call, a.target, y.outbox[|x.outbox|..]))
            && (SendsLocally(a) ==> OneTo(cfg, y.outbox[|x.outbox|..], cfg.node))
            && y.observed == x.observed + {if a.SendLocalAction? then SendLocal else if a.SendRemoteAction? then SendRemote
                                           else if a.TimerLocalAction? then TimerLocal else TimerRemote}
  {
    hide Says;
    hide RemoteSends;
    hide Outbound;
    hide GoesTo;
    var delay := if IsTimer(a) then a.steps else 0;
    var y := ExecAction(cfg, call, a, x).value;
    var added := y.outbox[|x.outbox|..];
    if SendsToNodes(a) {
      TargetsReached(cfg, call, a.target, x.store, delay, a.service, a.message, a.template);
      assert added == RemoteSends(cfg, call, a.target, delay, a.service, Outbound(cfg, call, a.message, a.template, x.store));
    } else {
      WrittenAs(cfg, call, x.store, cfg.node, delay, a.service, a.message, a.template);
      assert added == [Outgoing(LocalService(a.service), Outbound(cfg, call, a.message, a.template, x.store), delay)];
    }
  }

  /** What the other actions do: `log` adds one rendered line; `set` and `inc` change the one declared
      counter they name, within 64 bits; `if` runs its action when the counter has the value, and
      otherwise only has read it. */
  lemma StatefulMeans(cfg: Config, call: Call, a: Action, x: Exec)
    ensures a.LogAction? ==>
              ExecAction(cfg, call, a, x) == Ok(Exec(x.store, x.outbox,
                x.logs + [LogEmission(call.service, cfg.render(a.template, cfg.node, call.service, call.incoming, x.store))],
                x.observed + {Log}))
    ensures a.SetState? ==>
              ExecAction(cfg, call, a, x) ==
                if a.key in x.store then Ok(Exec(x.store[a.key := a.value], x.outbox, x.logs, x.observed + {StateWrite}))
                else Err(UndeclaredState(a.key))
    ensures a.IncState? ==>
              ExecAction(cfg, call, a, x) ==
                if a.key !in x.store then Err(UndeclaredState(a.key))
                else if -0x8000_0000_0000_0000 <= x.store[a.key] + a.delta <= 0x7FFF_FFFF_FFFF_FFFF then
                  Ok(Exec(x.store[a.key := x.store[a.key] + a.delta], x.outbox, x.logs, x.observed + {StateWrite}))
                else Err(StateOverflow(a.key))
    ensures a.IfStateEq? ==>
              var seen := Exec(x.store, x.outbox, x.logs, x.observed + {StateRead});
              ExecAction(cfg, call, a, x) ==
                if a.key !in x.store then Err(UndeclaredState(a.key))
                else if x.store[a.key] == a.value then ExecAction(cfg, call, a.thenAction, seen)
                else Ok(seen)
  {
  }

  /** A handler runs its plan's actions, first to last, from the actor's store and with nothing sent,
      logged or observed; without a handler for the message type nothing happens. */
  lemma HandlerMeans(cfg: Config, call: Call, store: Store)
    ensures var key := (call.service, call.incoming.msgType);
            var start := Exec(store, [], [], {});
            if key !in cfg.program.handlers then ExecHandler(cfg, call, store) == Ok(HandlerRun(start, {}))
            else
              var plan := cfg.program.handlers[key];
              match ExecActions(cfg, call, plan.actions, start)
              case Err(e) => ExecHandler(cfg, call, store) == Err(e)
              case Ok(x) =>
                && ExecHandler(cfg, call, store).Ok? && ExecHandler(cfg, call, store).value.exec == x
                && forall e :: e in ExecHandler(cfg, call, store).value.declared <==> e in plan.declared
  {
  }

  /** Running a list is running its front and then its last action. */
  lemma {:induction false} ActionsInOrder(cfg: Config, call: Call, front: seq<Action>, last: Action, x: Exec)
    ensures ExecActions(cfg, call, [], x) == Ok(x)
    ensures ExecActions(cfg, call, front + [last], x) ==
            match ExecActions(cfg, call, front, x)
            case Err(e) => Err(e)
            case Ok(y) => ExecAction(cfg, call, last, y)
    decreases |front|
  {
    hide ExecAction;
    if front == [] {
      assert front + [last] == [last];
    } else {
      assert (front + [last])[1..] == front[1..] + [last];
      if ExecAction(cfg, call, front[0], x).Ok? {
        ActionsInOrder(cfg, call, front[1..], last, ExecAction(cfg, call, front[0], x).value);
      }
    }
  }
}
