/** The service language after parsing: declarations, and what `load_program` demands of them. */
module Lang {
  import opened Base
  import opened Events

  datatype RemoteTarget = Peers | Sender | Node(raw: string)

  datatype Action =
    | LogAction(template: string)
    | SetState(key: string, value: I64)
    | IncState(key: string, delta: I64)
    | TimerLocalAction(steps: U64, service: string, message: string, template: string)
    | TimerRemoteAction(steps: U64, target: RemoteTarget, service: string, message: string, template: string)
    | SendLocalAction(service: string, message: string, template: string)
    | SendRemoteAction(target: RemoteTarget, service: string, message: string, template: string)
    | IfStateEq(key: string, value: I64, thenAction: Action)

  datatype StateDecl = StateDecl(name: string, initial: I64)
  datatype HandlerDecl = HandlerDecl(on: string, effects: seq<Effect>, actions: seq<Action>)
  datatype ServiceDecl = ServiceDecl(name: string, states: seq<StateDecl>, handlers: seq<HandlerDecl>)
  datatype Module = Module(services: seq<ServiceDecl>)

  type Store = map<string, I64>

  datatype HandlerPlan = HandlerPlan(actions: seq<Action>, declared: seq<Effect>)

  datatype Program = Program(
    services: seq<string>,
    initialState: map<string, Store>,
    handlers: map<(string, string), HandlerPlan>)

  /** The effects an action may have: `infer_action_effects`. */
  function ActionEffects(a: Action): set<Effect> {
    match a
    case LogAction(_) => {Log}
    case SetState(_, _) => {StateWrite}
    case IncState(_, _) => {StateWrite}
    case TimerLocalAction(_, _, _, _) => {TimerLocal}
    case TimerRemoteAction(_, _, _, _, _) => {TimerRemote}
    case SendLocalAction(_, _, _) => {SendLocal}
    case SendRemoteAction(_, _, _, _) => {SendRemote}
    case IfStateEq(_, _, inner) => {StateRead} + ActionEffects(inner)
  }

  function InferEffects(actions: seq<Action>): set<Effect> {
    if actions == [] then {} else ActionEffects(actions[0]) + InferEffects(actions[1..])
  }

  /** `validate_action`: the checks in source order, so that the first failing one is reported. */
  function ValidateAction(a: Action, keys: set<string>, services: set<string>,
                          parseId: string -> Option<Uuid>): Result<()>
  {
    match a
    case LogAction(_) => Ok(())
    case SetState(key, _) => if key in keys then Ok(()) else Err(UndeclaredState(key))
    case IncState(key, _) => if key in keys then Ok(()) else Err(UndeclaredState(key))
    case TimerLocalAction(steps, service, _, _) =>
      if service !in services then Err(UnknownService(service))
      else if steps == 0 then Err(ZeroTimerSteps)
      else Ok(())
    case TimerRemoteAction(steps, target, service, _, _) =>
      if service !in services then Err(UnknownService(service))
      else if steps == 0 then Err(ZeroTimerSteps)
      else ValidateTarget(target, parseId)
    case SendLocalAction(service, _, _) =>
      if service in services then Ok(()) else Err(UnknownService(service))
    case SendRemoteAction(target, service, _, _) =>
      if service !in services then Err(UnknownService(service)) else ValidateTarget(target, parseId)
    case IfStateEq(key, _, inner) =>
      if key in keys then ValidateAction(inner, keys, services, parseId) else Err(UndeclaredState(key))
  }

  function ValidateTarget(t: RemoteTarget, parseId: string -> Option<Uuid>): Result<()> {
    if t.Node? && parseId(t.raw).None? then Err(InvalidNodeTarget(t.raw)) else Ok(())
  }

  function ValidateActions(actions: seq<Action>, keys: set<string>, services: set<string>,
                           parseId: string -> Option<Uuid>): Result<()>
  {
    if actions == [] then Ok(())
    else
      var _ :- ValidateAction(actions[0], keys, services, parseId);
      ValidateActions(actions[1..], keys, services, parseId)
  }

  function ServiceNames(services: seq<string>): set<string> {
    set s | s in services
  }

  /** What a program has to satisfy to be loaded: services are named once, every service has a
      store, every handler belongs to a service, passes validation, and declares exactly the
      effects its actions may have. */
  ghost predicate Loaded(p: Program, parseId: string -> Option<Uuid>) {
    && (forall i, j :: 0 <= i < j < |p.services| ==> p.services[i] != p.services[j])
    && p.initialState.Keys == ServiceNames(p.services)
    && (forall k :: k in p.handlers ==> HandlerOk(p, k, parseId))
  }

  ghost predicate HandlerOk(p: Program, k: (string, string), parseId: string -> Option<Uuid>)
    requires k in p.handlers
  {
    && k.0 in p.initialState
    && ValidateActions(p.handlers[k].actions, p.initialState[k.0].Keys, ServiceNames(p.services), parseId).Ok?
    && InferEffects(p.handlers[k].actions) == (set e | e in p.handlers[k].declared)
  }
}
