/** Handlers of loaded programs do not go wrong, and their declared effects say what they may do. */
module LangSound {
  import opened Base
  import opened Events
  import opened Lang
  import opened Sorting
  import opened Interp
  import opened Node

  /** The message a handler sends in answer to `call`: from this node and service, its provenance
      one hop after the handled message. */
  predicate AnswersCall(cfg: Config, call: Call, p: Payload) {
    && p.Message?
    && p.msg.fromNode == Canonical(cfg.node)
    && p.msg.fromService == call.service
    && p.msg.provenance == Some(NextProvenance(call.incoming, call.msgId))
  }

  ghost predicate GoodSends(cfg: Config, call: Call, services: set<string>, outs: seq<Outgoing>) {
    forall o :: o in outs ==> o.target.service in services && AnswersCall(cfg, call, o.payload)
  }

  lemma {:induction false} RouteAllGood(cfg: Config, call: Call, nodes: seq<Uuid>, steps: U64, service: string, p: Payload, services: set<string>)
    requires service in services && AnswersCall(cfg, call, p)
    ensures GoodSends(cfg, call, services, RouteAll(cfg.node, nodes, steps, service, p))
  {
    if nodes != [] { RouteAllGood(cfg, call, nodes[1..], steps, service, p, services); }
  }

  const SENDING: set<Effect> := {SendLocal, SendRemote, TimerLocal, TimerRemote}

  /** What running validated code may do to the state of a run. */
  ghost predicate Contained(cfg: Config, call: Call, may: set<Effect>, services: set<string>, x: Exec, y: Exec) {
    && y.store.Keys == x.store.Keys
    && x.observed <= y.observed <= x.observed + may
    && (StateRead !in may ==> y.observed == x.observed + may)
    && (StateWrite !in may ==> y.store == x.store)
    && (Log !in may ==> y.logs == x.logs)
    && (may !! SENDING ==> y.outbox == x.outbox)
    && x.outbox <= y.outbox
    && GoodSends(cfg, call, services, y.outbox[|x.outbox|..])
  }

  predicate OnlyOverflow<T>(r: Result<T>) {
    r.Err? ==> r.error.StateOverflow?
  }

  lemma {:induction false} ExecActionSound(cfg: Config, call: Call, a: Action, x: Exec, services: set<string>)
    requires ValidateAction(a, x.store.Keys, services, cfg.parseId).Ok?
    ensures OnlyOverflow(ExecAction(cfg, call, a, x))
    ensures ExecAction(cfg, call, a, x).Ok? ==>
              Contained(cfg, call, ActionEffects(a), services, x, ExecAction(cfg, call, a, x).value)
    decreases a
  {
    match a
    case TimerRemoteAction(steps, target, service, message, template) =>
      RouteAllGood(cfg, call, TargetNodes(cfg, call, target), steps, service,
                   Outbound(cfg, call, message, template, x.store), services);
    case SendRemoteAction(target, service, message, template) =>
      RouteAllGood(cfg, call, TargetNodes(cfg, call, target), 0, service,
                   Outbound(cfg, call, message, template, x.store), services);
    case IfStateEq(key, value, inner) =>
      ExecActionSound(cfg, call, inner, x.(observed := x.observed + {StateRead}), services);
    case _ =>
  }

  lemma ContainedJoins(cfg: Config, call: Call, may: set<Effect>, more: set<Effect>, services: set<string>, x: Exec, y: Exec, z: Exec)
    requires Contained(cfg, call, may, services, x, y) && Contained(cfg, call, more, services, y, z)
    ensures Contained(cfg, call, may + more, services, x, z)
  {
    assert z.outbox[|x.outbox|..] == y.outbox[|x.outbox|..] + z.outbox[|y.outbox|..];
  }

  lemma {:induction false} ExecActionsSound(cfg: Config, call: Call, actions: seq<Action>, x: Exec, services: set<string>)
    requires ValidateActions(actions, x.store.Keys, services, cfg.parseId).Ok?
    ensures OnlyOverflow(ExecActions(cfg, call, actions, x))
    ensures ExecActions(cfg, call, actions, x).Ok? ==>
              Contained(cfg, call, InferEffects(actions), services, x, ExecActions(cfg, call, actions, x).value)
    decreases |actions|
  {
    hide ExecAction;
    hide Contained;
    hide ValidateAction;
    if actions == [] {
      NothingDone(cfg, call, services, x);
    } else {
      ExecActionSound(cfg, call, actions[0], x, services);
      if ExecAction(cfg, call, actions[0], x).Ok? {
        var y := ExecAction(cfg, call, actions[0], x).value;
        assert y.store.Keys == x.store.Keys by { StoreKept(cfg, call, ActionEffects(actions[0]), services, x, y); }
        ExecActionsSound(cfg, call, actions[1..], y, services);
        if ExecActions(cfg, call, actions[1..], y).Ok? {
          ContainedJoins(cfg, call, ActionEffects(actions[0]), InferEffects(actions[1..]), services, x, y,
                         ExecActions(cfg, call, actions[1..], y).value);
        }
      }
    }
  }

  lemma NothingDone(cfg: Config, call: Call, services: set<string>, x: Exec)
    ensures Contained(cfg, call, {}, services, x, x)
  {
  }

  lemma StoreKept(cfg: Config, call: Call, may: set<Effect>, services: set<string>, x: Exec, y: Exec)
    requires Contained(cfg, call, may, services, x, y)
    ensures y.store.Keys == x.store.Keys
  {
  }

  /** Effect soundness of a loaded program: a handler run on a store with the service's declared keys
      fails only when a counter leaves the 64-bit range; otherwise it observes no effect it did not
      declare, and all it declared when it never reads state; what it did not declare it did not do;
      and whatever it sends goes to a service of the program and continues the handled message's
      provenance. */
  lemma LoadedHandlersSound(cfg: Config, call: Call, store: Store)
    requires Loaded(cfg.program, cfg.parseId)
    requires call.service in cfg.program.initialState && store.Keys == cfg.program.initialState[call.service].Keys
    ensures OnlyOverflow(ExecHandler(cfg, call, store))
    ensures ExecHandler(cfg, call, store).Ok? ==>
              var run := ExecHandler(cfg, call, store).value;
              Contained(cfg, call, run.declared, ServiceNames(cfg.program.services), Exec(store, [], [], {}), run.exec)
  {
    var key := (call.service, call.incoming.msgType);
    var start := Exec(store, [], [], {});
    if key in cfg.program.handlers {
      assert HandlerOk(cfg.program, key, cfg.parseId);
      ExecActionsSound(cfg, call, cfg.program.handlers[key].actions, start, ServiceNames(cfg.program.services));
    } else {
      NothingDone(cfg, call, ServiceNames(cfg.program.services), start);
    }
  }

  /** Every service of the program has a running actor with that service's declared state keys. */
  ghost predicate ActorsOk(cfg: Config, actors: map<Uuid, Actor>) {
    && (forall s :: s in cfg.actorOf ==> cfg.actorOf[s] in actors)
    && (forall a :: a in actors ==>
          actors[a].service in cfg.program.initialState
          && actors[a].store.Keys == cfg.program.initialState[actors[a].service].Keys)
  }

  lemma HandlerSends(cfg: Config, call: Call, store: Store, run: HandlerRun)
    requires Loaded(cfg.program, cfg.parseId)
    requires call.service in cfg.program.initialState && store.Keys == cfg.program.initialState[call.service].Keys
    requires ExecHandler(cfg, call, store) == Ok(run)
    ensures run.exec.store.Keys == store.Keys && run.exec.observed <= run.declared
    ensures GoodSends(cfg, call, ServiceNames(cfg.program.services), run.exec.outbox)
  {
    LoadedHandlersSound(cfg, call, store);
    assert run.exec.outbox[0..] == run.exec.outbox;
  }
}
