/** What loading demands of a handler, and what it says when it refuses a module. */
module LoaderMeaning {
  import opened Base
  import opened Events
  import opened Lang
  import opened Loader

  /** What an action does once the conditions around it hold. */
  function Innermost(a: Action): Action {
    match a
    case IfStateEq(_, _, inner) => Innermost(inner)
    case _ => a
  }

  /** The state keys an action names: those it tests on the way and the one it changes. */
  function KeysNamed(a: Action): set<string> {
    match a
    case IfStateEq(key, _, inner) => {key} + KeysNamed(inner)
    case SetState(key, _) => {key}
    case IncState(key, _) => {key}
    case _ => {}
  }

  predicate NamesService(a: Action, service: string) {
    match Innermost(a)
    case SendLocalAction(s, _, _) => s == service
    case SendRemoteAction(_, s, _, _) => s == service
    case TimerLocalAction(_, s, _, _) => s == service
    case TimerRemoteAction(_, _, s, _, _) => s == service
    case _ => false
  }

  predicate TimesAtOnce(a: Action) {
    match Innermost(a)
    case TimerLocalAction(steps, _, _, _) => steps == 0
    case TimerRemoteAction(steps, _, _, _, _) => steps == 0
    case _ => false
  }

  predicate NamesNode(a: Action, raw: string) {
    match Innermost(a)
    case SendRemoteAction(Node(r), _, _, _) => r == raw
    case TimerRemoteAction(_, Node(r), _, _, _) => r == raw
    case _ => false
  }

  /** An action passes validation if and only if the keys it names are declared, the service it sends to
      exists, its timer waits at least one step, and the node it names is a UUID. */
  lemma {:induction false} ValidMeans(a: Action, keys: set<string>, services: set<string>, parseId: string -> Option<Uuid>)
    ensures ValidateAction(a, keys, services, parseId).Ok? <==>
            && KeysNamed(a) <= keys
            && (forall s :: NamesService(a, s) ==> s in services)
            && !TimesAtOnce(a)
            && (forall raw :: NamesNode(a, raw) ==> parseId(raw).Some?)
    decreases a
  {
    match a
    case IfStateEq(key, _, inner) =>
      ValidMeans(inner, keys, services, parseId);
      assert forall s :: NamesService(a, s) <==> NamesService(inner, s);
      assert forall raw :: NamesNode(a, raw) <==> NamesNode(inner, raw);
    case SendLocalAction(service, _, _) => assert NamesService(a, service);
    case SendRemoteAction(target, service, _, _) =>
      assert NamesService(a, service);
      if target.Node? { assert NamesNode(a, target.raw); }
    case TimerLocalAction(_, service, _, _) => assert NamesService(a, service);
    case TimerRemoteAction(_, target, service, _, _) =>
      assert NamesService(a, service);
      if target.Node? { assert NamesNode(a, target.raw); }
    case _ =>
  }

  /** The complaint about a refused action fits it. */
  predicate ActionFault(a: Action, keys: set<string>, services: set<string>, parseId: string -> Option<Uuid>, e: Error) {
    match e
    case UndeclaredState(key) => key in KeysNamed(a) && key !in keys
    case UnknownService(service) => NamesService(a, service) && service !in services
    case ZeroTimerSteps => TimesAtOnce(a)
    case InvalidNodeTarget(raw) => NamesNode(a, raw) && parseId(raw).None?
    case _ => false
  }

  lemma {:induction false} InvalidMeans(a: Action, keys: set<string>, services: set<string>, parseId: string -> Option<Uuid>)
    requires ValidateAction(a, keys, services, parseId).Err?
    ensures ActionFault(a, keys, services, parseId, ValidateAction(a, keys, services, parseId).error)
    decreases a
  {
    if a.IfStateEq? && a.key in keys { InvalidMeans(a.thenAction, keys, services, parseId); }
  }

  /** The effects of an action: a test reads the state, and each other action has the effect it is named
      after. */
  lemma {:induction false} EffectsMean(a: Action, e: Effect)
    ensures e in ActionEffects(a) <==>
            match e
            case Log => Innermost(a).LogAction?
            case StateRead => a.IfStateEq?
            case StateWrite => Innermost(a).SetState? || Innermost(a).IncState?
            case SendLocal => Innermost(a).SendLocalAction?
            case SendRemote => Innermost(a).SendRemoteAction?
            case TimerLocal => Innermost(a).TimerLocalAction?
            case TimerRemote => Innermost(a).TimerRemoteAction?
    decreases a
  {
    if a.IfStateEq? {
      EffectsMean(a.thenAction, e);
      InnermostIsNoTest(a.thenAction);
    }
  }

  lemma {:induction false} InnermostIsNoTest(a: Action)
    ensures !Innermost(a).IfStateEq?
    decreases a
  {
    if a.IfStateEq? { InnermostIsNoTest(a.thenAction); }
  }

  lemma {:induction false} InferredMeans(actions: seq<Action>, e: Effect)
    ensures e in InferEffects(actions) <==> exists i :: 0 <= i < |actions| && e in ActionEffects(actions[i])
    decreases |actions|
  {
    hide ActionEffects;
    if actions != [] {
      InferredMeans(actions[1..], e);
      assert forall i :: 0 <= i < |actions[1..]| ==> actions[1..][i] == actions[i + 1];
      if i :| 0 <= i < |actions| && e in ActionEffects(actions[i]) {
        assert i > 0 ==> actions[i] == actions[1..][i - 1];
      }
    }
  }

  lemma {:induction false} AllValid(actions: seq<Action>, keys: set<string>, services: set<string>, parseId: string -> Option<Uuid>)
    ensures ValidateActions(actions, keys, services, parseId).Ok? <==>
            forall i :: 0 <= i < |actions| ==> ValidateAction(actions[i], keys, services, parseId).Ok?
    decreases |actions|
  {
    hide ValidateAction;
    if actions != [] {
      AllValid(actions[1..], keys, services, parseId);
      assert forall i :: 0 <= i < |actions[1..]| ==> actions[1..][i] == actions[i + 1];
      if forall i :: 0 <= i < |actions[1..]| ==> ValidateAction(actions[1..][i], keys, services, parseId).Ok? {
        forall i | 0 < i < |actions| ensures ValidateAction(actions[i], keys, services, parseId).Ok? {
          assert actions[i] == actions[1..][i - 1];
        }
      }
    }
  }

  /** A handler of a program is accepted if and only if each of its actions passes validation and it
      declares an effect exactly when one of them has it. */
  lemma HandlerOkMeans(p: Program, key: (string, string), parseId: string -> Option<Uuid>)
    requires key in p.handlers && key.0 in p.initialState
    ensures HandlerOk(p, key, parseId) <==>
            && (forall i :: 0 <= i < |p.handlers[key].actions| ==>
                  ValidateAction(p.handlers[key].actions[i], p.initialState[key.0].Keys, ServiceNames(p.services), parseId).Ok?)
            && (forall e :: e in p.handlers[key].declared <==>
                  exists i :: 0 <= i < |p.handlers[key].actions| && e in ActionEffects(p.handlers[key].actions[i]))
  {
    hide ValidateAction;
    hide ActionEffects;
    var actions, declared := p.handlers[key].actions, p.handlers[key].declared;
    AllValid(actions, p.initialState[key.0].Keys, ServiceNames(p.services), parseId);
    forall e ensures e in InferEffects(actions) <==> exists i :: 0 <= i < |actions| && e in ActionEffects(actions[i]) {
      InferredMeans(actions, e);
    }
    assert InferEffects(actions) == (set e | e in declared) <==> forall e :: e in InferEffects(actions) <==> e in declared;
  }
}
