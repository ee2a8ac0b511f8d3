/** The interpreter of handler actions, as functions on values. */
module Interp {
  import opened Base
  import opened Events
  import opened Lang
  import opened Sorting

  datatype Target = LocalService(service: string) | RemoteService(node: Uuid, service: string)
  datatype Outgoing = Outgoing(target: Target, payload: Payload, delaySteps: U64)
  datatype LogEmission = LogEmission(service: string, text: string)

  type Renderer = (string, Uuid, string, RuntimeMessage, Store) -> string

  /** What a node is started with. `render` and `parseId` stand for the template and UUID library
      code, `actorOf` for the name-based actor ids. */
  datatype Config = Config(
    node: Uuid,
    peers: set<Uuid>,
    bootstrapHello: bool,
    bootstrapBurst: U64,
    program: Program,
    actorOf: map<string, Uuid>,
    systemActor: Uuid,
    parseId: string -> Option<Uuid>,
    render: Renderer)

  /** What a handler run reads: who runs it and the message it handles. */
  datatype Call = Call(service: string, msgId: Uuid, incoming: RuntimeMessage)

  /** What a handler run changes. */
  datatype Exec = Exec(store: Store, outbox: seq<Outgoing>, logs: seq<LogEmission>, observed: set<Effect>)

  function NextProvenance(incoming: RuntimeMessage, msgId: Uuid): Provenance {
    match incoming.provenance
    case Some(prev) =>
      Provenance(prev.originNode, prev.originService, prev.originMsgId,
                 incoming.fromNode, Canonical(msgId), SatAdd(prev.hops, 1))
    case None =>
      Provenance(incoming.fromNode, incoming.fromService, Canonical(msgId),
                 incoming.fromNode, Canonical(msgId), 1)
  }

  function Outbound(cfg: Config, call: Call, message: string, template: string, store: Store): Payload {
    Message(RuntimeMessage(
      message,
      Canonical(cfg.node),
      call.service,
      cfg.render(template, cfg.node, call.service, call.incoming, store),
      Some(NextProvenance(call.incoming, call.msgId))))
  }

  /** A send to a node: local when the node is this one. */
  function Route(self: Uuid, node: Uuid, steps: U64, service: string, payload: Payload): Outgoing {
    Outgoing(if node == self then LocalService(service) else RemoteService(node, service), payload, steps)
  }

  function RouteAll(self: Uuid, nodes: seq<Uuid>, steps: U64, service: string, payload: Payload): (r: seq<Outgoing>)
    ensures |r| == |nodes|
  {
    if nodes == [] then []
    else [Route(self, nodes[0], steps, service, payload)] + RouteAll(self, nodes[1..], steps, service, payload)
  }

  function TargetNodes(cfg: Config, call: Call, target: RemoteTarget): seq<Uuid> {
    match target
    case Peers => if cfg.peers == {} then [cfg.node] else SortedIds(cfg.peers)
    case Sender => (match call.incoming.fromNode.Parsed() case Some(n) => [n] case None => [])
    case Node(raw) => (match cfg.parseId(raw) case Some(n) => [n] case None => [])
  }

  function RemoteSends(cfg: Config, call: Call, target: RemoteTarget, steps: U64, service: string, payload: Payload): seq<Outgoing>
  {
    RouteAll(cfg.node, TargetNodes(cfg, call, target), steps, service, payload)
  }

  function ExecAction(cfg: Config, call: Call, a: Action, x: Exec): Result<Exec> {
    match a
    case LogAction(template) =>
      Ok(x.(observed := x.observed + {Log},
            logs := x.logs + [LogEmission(call.service, cfg.render(template, cfg.node, call.service, call.incoming, x.store))]))
    case SetState(key, value) =>
      if key in x.store then Ok(x.(observed := x.observed + {StateWrite}, store := x.store[key := value]))
      else Err(UndeclaredState(key))
    case IncState(key, delta) =>
      if key !in x.store then Err(UndeclaredState(key))
      else if I64_MIN <= x.store[key] + delta <= I64_MAX then
        Ok(x.(observed := x.observed + {StateWrite}, store := x.store[key := x.store[key] + delta]))
      else Err(StateOverflow(key))
    case TimerLocalAction(steps, service, message, template) =>
      Ok(x.(observed := x.observed + {TimerLocal},
            outbox := x.outbox + [Outgoing(LocalService(service), Outbound(cfg, call, message, template, x.store), steps)]))
    case TimerRemoteAction(steps, target, service, message, template) =>
      Ok(x.(observed := x.observed + {TimerRemote},
            outbox := x.outbox + RemoteSends(cfg, call, target, steps, service, Outbound(cfg, call, message, template, x.store))))
    case SendLocalAction(service, message, template) =>
      Ok(x.(observed := x.observed + {SendLocal},
            outbox := x.outbox + [Outgoing(LocalService(service), Outbound(cfg, call, message, template, x.store), 0)]))
    case SendRemoteAction(target, service, message, template) =>
      Ok(x.(observed := x.observed + {SendRemote},
            outbox := x.outbox + RemoteSends(cfg, call, target, 0, service, Outbound(cfg, call, message, template, x.store))))
    case IfStateEq(key, value, inner) =>
      if key !in x.store then Err(UndeclaredState(key))
      else
        var seen := x.(observed := x.observed + {StateRead});
        if x.store[key] == value then ExecAction(cfg, call, inner, seen) else Ok(seen)
  }

  function ExecActions(cfg: Config, call: Call, actions: seq<Action>, x: Exec): Result<Exec> {
    if actions == [] then Ok(x)
    else
      var x1 :- ExecAction(cfg, call, actions[0], x);
      ExecActions(cfg, call, actions[1..], x1)
  }

  datatype HandlerRun = HandlerRun(exec: Exec, declared: set<Effect>)

  /** `execute_actions`: a message type without a handler runs nothing and declares nothing. */
  function ExecHandler(cfg: Config, call: Call, store: Store): Result<HandlerRun> {
    var key := (call.service, call.incoming.msgType);
    var start := Exec(store, [], [], {});
    if key !in cfg.program.handlers then Ok(HandlerRun(start, {}))
    else
      var plan := cfg.program.handlers[key];
      var x :- ExecActions(cfg, call, plan.actions, start);
      Ok(HandlerRun(x, set e | e in plan.declared))
  }

  const EFFECT_ORDER: seq<Effect> := [Log, StateRead, StateWrite, SendLocal, SendRemote, TimerLocal, TimerRemote]

  function FilterEffects(order: seq<Effect>, s: set<Effect>): (r: seq<Effect>)
    ensures forall e :: e in r <==> e in order && e in s
  {
    if order == [] then []
    else if order[0] in s then [order[0]] + FilterEffects(order[1..], s)
    else FilterEffects(order[1..], s)
  }

  /** The effects of a set in the order a `BTreeSet` yields them. */
  function EffectSeq(s: set<Effect>): seq<Effect> {
    FilterEffects(EFFECT_ORDER, s)
  }

  /** The place of an effect in the order its variants are declared in. */
  function Rank(e: Effect): nat {
    match e
    case Log => 0
    case StateRead => 1
    case StateWrite => 2
    case SendLocal => 3
    case SendRemote => 4
    case TimerLocal => 5
    case TimerRemote => 6
  }

  ghost predicate Ranked(s: seq<Effect>) {
    forall i, j :: 0 <= i < j < |s| ==> Rank(s[i]) < Rank(s[j])
  }

  lemma {:induction false} FilterKeepsRanked(order: seq<Effect>, s: set<Effect>)
    requires Ranked(order)
    ensures Ranked(FilterEffects(order, s))
  {
    if order != [] {
      var rest := FilterEffects(order[1..], s);
      FilterKeepsRanked(order[1..], s);
      assert forall e :: e in order[1..] ==> Rank(order[0]) < Rank(e);
    }
  }

  /** A declared or observed effect list in the trace lists exactly the set's effects, once each and in
      the order of the variants. */
  lemma EffectSeqExact(s: set<Effect>)
    ensures forall e :: e in EffectSeq(s) <==> e in s
    ensures Ranked(EffectSeq(s)) && Distinct(EffectSeq(s))
  {
    FilterKeepsRanked(EFFECT_ORDER, s);
    forall e: Effect ensures e in EFFECT_ORDER {
      match e
      case Log => assert EFFECT_ORDER[0] == e;
      case StateRead => assert EFFECT_ORDER[1] == e;
      case StateWrite => assert EFFECT_ORDER[2] == e;
      case SendLocal => assert EFFECT_ORDER[3] == e;
      case SendRemote => assert EFFECT_ORDER[4] == e;
      case TimerLocal => assert EFFECT_ORDER[5] == e;
      case TimerRemote => assert EFFECT_ORDER[6] == e;
    }
  }
}
