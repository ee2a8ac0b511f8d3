/** Handler execution as the runtime runs it: actions that update the state, the context and the
    observed effects in place. */
module Executor {
  import opened Base
  import opened Sorting
  import opened Events
  import opened Lang
  import opened Interp
  import opened ActionMeaning

  /** What a handler run has asked for so far. */
  class ActorContext {
    const selfNode: Uuid
    var outbox: seq<Outgoing>
    var logs: seq<LogEmission>

    constructor (node: Uuid)
      ensures selfNode == node && outbox == [] && logs == []
    {
      selfNode := node;
      outbox := [];
      logs := [];
    }

    method Log(service: string, text: string)
      modifies this`logs
      ensures logs == old(logs) + [LogEmission(service, text)]
    {
      logs := logs + [LogEmission(service, text)];
    }

    method SendLocalServiceAfter(delay: U64, service: string, payload: Payload)
      modifies this`outbox
      ensures outbox == old(outbox) + [Outgoing(LocalService(service), payload, delay)]
    {
      outbox := outbox + [Outgoing(LocalService(service), payload, delay)];
    }

    method SendRemoteServiceAfter(delay: U64, node: Uuid, service: string, payload: Payload)
      modifies this`outbox
      ensures outbox == old(outbox) + [Outgoing(RemoteService(node, service), payload, delay)]
    {
      outbox := outbox + [Outgoing(RemoteService(node, service), payload, delay)];
    }

    /** Sends to a node: locally when it is this one. */
    method SendToNode(delay: U64, node: Uuid, service: string, payload: Payload)
      modifies this`outbox
      ensures outbox == old(outbox) + [Route(selfNode, node, delay, service, payload)]
    {
      if node == selfNode {
        SendLocalServiceAfter(delay, service, payload);
      } else {
        SendRemoteServiceAfter(delay, node, service, payload);
      }
    }
  }

  lemma {:induction false} RouteAllSnoc(self: Uuid, nodes: seq<Uuid>, n: Uuid, steps: U64, service: string, p: Payload)
    ensures RouteAll(self, nodes + [n], steps, service, p) == RouteAll(self, nodes, steps, service, p) + [Route(self, n, steps, service, p)]
  {
    if nodes != [] {
      assert (nodes + [n])[1..] == nodes[1..] + [n];
      RouteAllSnoc(self, nodes[1..], n, steps, service, p);
    }
  }

  /** `sorted_peer_ids`: the ids of a hash map's keys, sorted, whatever order the map lists them in. */
  method SortedPeerIds(peers: set<Uuid>) returns (ids: seq<Uuid>)
    ensures ids == SortedIds(peers)
  {
    ids := [];
    var rest := peers;
    while rest != {}
      invariant rest <= peers && (forall x :: x in ids <==> x in peers - rest) && Distinct(ids)
      decreases |rest|
    {
      var p :| p in rest;
      DistinctSnoc(ids, p);
      ids := ids + [p];
      rest := rest - {p};
    }
    var listed := ids;
    ids := SortBy(IdKey, listed);
    SortedListing(listed, peers);
  }

  function IdKey(id: Uuid): int { id }

  lemma DistinctSnoc(ids: seq<Uuid>, p: Uuid)
    requires Distinct(ids) && p !in ids
    ensures Distinct(ids + [p])
  {
  }

  /** Sorting any listing of a set gives its ascending enumeration. */
  lemma SortedListing(listed: seq<Uuid>, ids: set<Uuid>)
    requires Distinct(listed) && forall x :: x in listed <==> x in ids
    ensures SortBy(IdKey, listed) == SortedIds(ids)
  {
    var sorted := SortBy(IdKey, listed);
    SortByMultiset(IdKey, listed);
    SortBySorted(IdKey, listed);
    SortedIdsAscend(ids);
    DistinctCounts(listed);
    forall i, j | 0 <= i < j < |sorted| ensures sorted[i] < sorted[j] {
      assert multiset(sorted)[sorted[i]] <= 1;
      if sorted[i] == sorted[j] { CountTwo(sorted, i, j); }
      assert IdKey(sorted[i]) <= IdKey(sorted[j]);
    }
    forall x ensures x in sorted <==> x in ids {
      assert x in multiset(sorted) <==> x in multiset(listed);
    }
    AscendingUnique(sorted, SortedIds(ids));
  }

  lemma {:induction false} DistinctCounts(s: seq<Uuid>)
    requires Distinct(s)
    ensures forall x :: multiset(s)[x] <= 1
  {
    if s != [] {
      var n := |s| - 1;
      assert s == s[..n] + [s[n]];
      forall i, j | 0 <= i < j < n ensures s[..n][i] != s[..n][j] { assert s[i] != s[j]; }
      DistinctCounts(s[..n]);
      assert s[n] !in s[..n];
      assert multiset(s[..n])[s[n]] == 0;
    }
  }

  lemma CountTwo(s: seq<Uuid>, i: nat, j: nat)
    requires i < j < |s| && s[i] == s[j]
    ensures multiset(s)[s[i]] >= 2
  {
    assert s == s[..j] + [s[j]] + s[j + 1..];
    assert s[i] in s[..j];
  }

  lemma {:induction false} AscendingUnique(a: seq<Uuid>, b: seq<Uuid>)
    requires Ascends(a) && Ascends(b) && forall x :: x in a <==> x in b
    ensures a == b
    decreases |a|
  {
    assert b != [] ==> b[0] in b;
    if a == [] {
    } else {
      assert a[0] in b;
      assert b[0] in a;
      assert a[0] == b[0];
      forall x ensures x in a[1..] <==> x in b[1..] {
        if x in a[1..] { var i :| 0 <= i < |a[1..]| && a[1..][i] == x; assert a[i + 1] == x; assert x in b; }
        if x in b[1..] { var i :| 0 <= i < |b[1..]| && b[1..][i] == x; assert b[i + 1] == x; assert x in a; }
      }
      AscendingUnique(a[1..], b[1..]);
    }
  }

  /** Sends to every peer in the order of their ids, or to this node when there are none. */
  method SendToPeers(cfg: Config, ctx: ActorContext, delay: U64, service: string, payload: Payload)
    requires ctx.selfNode == cfg.node
    modifies ctx`outbox
    ensures ctx.outbox == old(ctx.outbox) +
              RouteAll(cfg.node, if cfg.peers == {} then [cfg.node] else SortedIds(cfg.peers), delay, service, payload)
  {
    hide SortedIds;
    hide RouteAll;
    hide Route;
    NoRoutes(cfg.node, delay, service, payload);
    var ids := SortedPeerIds(cfg.peers);
    SortedIdsAscend(cfg.peers);
    if ids == [] {
      assert cfg.peers == {};
      RouteAllSnoc(cfg.node, [], cfg.node, delay, service, payload);
      assert [] + [cfg.node] == [cfg.node];
      ctx.SendToNode(delay, cfg.node, service, payload);
    } else {
      assert ids[0] in ids && ids[0] in cfg.peers;
      for i := 0 to |ids|
        modifies ctx`outbox
        invariant ctx.outbox == old(ctx.outbox) + RouteAll(cfg.node, ids[..i], delay, service, payload)
      {
        RouteAllSnoc(cfg.node, ids[..i], ids[i], delay, service, payload);
        assert ids[..i + 1] == ids[..i] + [ids[i]];
        ctx.SendToNode(delay, ids[i], service, payload);
      }
      assert ids[..|ids|] == ids;
    }
  }

  lemma NoRoutes(self: Uuid, steps: U64, service: string, p: Payload)
    ensures RouteAll(self, [], steps, service, p) == []
  {
  }

  lemma OneRoute(self: Uuid, n: Uuid, steps: U64, service: string, p: Payload)
    ensures RouteAll(self, [n], steps, service, p) == [Route(self, n, steps, service, p)]
  {
  }

  /** Where an action that sends to nodes sends to. */
  method SendRemotely(cfg: Config, call: Call, ctx: ActorContext, target: RemoteTarget, delay: U64, service: string, payload: Payload)
    requires ctx.selfNode == cfg.node
    modifies ctx`outbox
    ensures ctx.outbox == old(ctx.outbox) + RemoteSends(cfg, call, target, delay, service, payload)
  {
    hide SortedIds;
    hide RouteAll;
    hide Route;
    NoRoutes(cfg.node, delay, service, payload);
    match target {
      case Peers =>
        SendToPeers(cfg, ctx, delay, service, payload);
      case Sender =>
        match call.incoming.fromNode.Parsed() {
          case None =>
          case Some(n) =>
            OneRoute(cfg.node, n, delay, service, payload);
            ctx.SendToNode(delay, n, service, payload);
        }
      case Node(raw) =>
        match cfg.parseId(raw) {
          case None =>
          case Some(n) =>
            OneRoute(cfg.node, n, delay, service, payload);
            ctx.SendToNode(delay, n, service, payload);
        }
    }
  }

  /** The outcome of an action as the interpreter's functions give it. */
  ghost predicate Did(before: Exec, cfg: Config, call: Call, a: Action, failed: Option<Error>, after: Exec) {
    match ExecAction(cfg, call, a, before)
    case Ok(x) => failed == None && after == x
    case Err(e) => failed == Some(e)
  }

  function Snapshot(store: Store, ctx: ActorContext, observed: set<Effect>): Exec
    reads ctx
  {
    Exec(store, ctx.outbox, ctx.logs, observed)
  }

  method ExecuteAction(cfg: Config, call: Call, a: Action, state: Store, ctx: ActorContext, seen: set<Effect>)
    returns (failed: Option<Error>, after: Store, observed: set<Effect>)
    requires ctx.selfNode == cfg.node
    modifies ctx
    ensures Did(old(Snapshot(state, ctx, seen)), cfg, call, a, failed, Snapshot(after, ctx, observed))
    decreases a
  {
    failed, after, observed := None, state, seen;
    match a {
      case LogAction(template) =>
        observed := observed + {Log};
        ctx.Log(call.service, cfg.render(template, cfg.node, call.service, call.incoming, after));
      case SetState(key, value) =>
        observed := observed + {StateWrite};
        if key !in after {
          failed := Some(UndeclaredState(key));
          return;
        }
        after := after[key := value];
      case IncState(key, delta) =>
        observed := observed + {StateWrite};
        if key !in after {
          failed := Some(UndeclaredState(key));
          return;
        }
        var sum := after[key] + delta;
        if sum < I64_MIN || sum > I64_MAX {
          failed := Some(StateOverflow(key));
          return;
        }
        after := after[key := sum];
      case TimerLocalAction(steps, service, message, template) =>
        observed := observed + {TimerLocal};
        ctx.SendLocalServiceAfter(steps, service, Outbound(cfg, call, message, template, after));
      case TimerRemoteAction(steps, target, service, message, template) =>
        observed := observed + {TimerRemote};
        SendRemotely(cfg, call, ctx, target, steps, service, Outbound(cfg, call, message, template, after));
      case SendLocalAction(service, message, template) =>
        observed := observed + {SendLocal};
        ctx.SendLocalServiceAfter(0, service, Outbound(cfg, call, message, template, after));
      case SendRemoteAction(target, service, message, template) =>
        observed := observed + {SendRemote};
        SendRemotely(cfg, call, ctx, target, 0, service, Outbound(cfg, call, message, template, after));
      case IfStateEq(key, value, inner) =>
        observed := observed + {StateRead};
        if key !in after {
          failed := Some(UndeclaredState(key));
          return;
        }
        if after[key] == value {
          failed, after, observed := ExecuteAction(cfg, call, inner, after, ctx, observed);
        }
    }
  }

  lemma {:induction false} ExecActionsFail(cfg: Config, call: Call, front: seq<Action>, rest: seq<Action>, x: Exec)
    requires ExecActions(cfg, call, front, x).Err?
    ensures ExecActions(cfg, call, front + rest, x) == ExecActions(cfg, call, front, x)
    decreases |front|
  {
    hide ExecAction;
    assert (front + rest)[1..] == front[1..] + rest;
    if ExecAction(cfg, call, front[0], x).Ok? {
      ExecActionsFail(cfg, call, front[1..], rest, ExecAction(cfg, call, front[0], x).value);
    }
  }

  /** `execute_actions`: runs the handler of a message type, if the service has one. */
  method ExecuteActions(cfg: Config, call: Call, state: Store, ctx: ActorContext)
    returns (failed: Option<Error>, after: Store, declared: set<Effect>, observed: set<Effect>)
    requires ctx.selfNode == cfg.node && ctx.outbox == [] && ctx.logs == []
    modifies ctx
    ensures match ExecHandler(cfg, call, state)
            case Ok(run) => failed == None && declared == run.declared && Snapshot(after, ctx, observed) == run.exec
            case Err(e) => failed == Some(e)
  {
    hide ExecAction;
    failed, after, declared, observed := None, state, {}, {};
    var key := (call.service, call.incoming.msgType);
    if key !in cfg.program.handlers {
      return;
    }
    var plan := cfg.program.handlers[key];
    declared := set e | e in plan.declared;
    ghost var start := Exec(state, [], [], {});
    for i := 0 to |plan.actions|
      modifies ctx
      invariant failed == None
      invariant ExecActions(cfg, call, plan.actions[..i], start) == Ok(Snapshot(after, ctx, observed))
    {
      ActionsInOrder(cfg, call, plan.actions[..i], plan.actions[i], start);
      assert plan.actions[..i + 1] == plan.actions[..i] + [plan.actions[i]];
      failed, after, observed := ExecuteAction(cfg, call, plan.actions[i], after, ctx, observed);
      if failed != None {
        ExecActionsFail(cfg, call, plan.actions[..i + 1], plan.actions[i + 1..], start);
        assert plan.actions[..i + 1] + plan.actions[i + 1..] == plan.actions;
        return;
      }
    }
    assert plan.actions[..|plan.actions|] == plan.actions;
  }
}
