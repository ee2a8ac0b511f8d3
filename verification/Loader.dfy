/** Loading a parsed module: which modules are accepted, and the program they give. */
module Loader {
  import opened Base
  import opened Events
  import opened Lang

  // ---- the program of a module ----

  function InitialStore(states: seq<StateDecl>): Store {
    if states == [] then map[]
    else
      var last := states[|states| - 1];
      InitialStore(states[..|states| - 1])[last.name := last.initial]
  }

  function PlanAt(plans: map<(string, string), HandlerPlan>, key: (string, string)): HandlerPlan {
    if key in plans then plans[key] else HandlerPlan([], [])
  }

  /** A handler for a message type that has one already adds its actions and replaces the effects. */
  function AddHandler(plans: map<(string, string), HandlerPlan>, service: string, h: HandlerDecl): map<(string, string), HandlerPlan> {
    var key := (service, h.on);
    plans[key := HandlerPlan(PlanAt(plans, key).actions + h.actions, h.effects)]
  }

  function AddHandlers(plans: map<(string, string), HandlerPlan>, service: string, hs: seq<HandlerDecl>): map<(string, string), HandlerPlan> {
    if hs == [] then plans
    else AddHandler(AddHandlers(plans, service, hs[..|hs| - 1]), service, hs[|hs| - 1])
  }

  function ProgramOf(services: seq<ServiceDecl>): Program {
    if services == [] then Program([], map[], map[])
    else
      var last := services[|services| - 1];
      var p := ProgramOf(services[..|services| - 1]);
      Program(p.services + [last.name], p.initialState[last.name := InitialStore(last.states)],
              AddHandlers(p.handlers, last.name, last.handlers))
  }

  // ---- what is demanded of a module ----

  ghost predicate StatesOnce(states: seq<StateDecl>) {
    forall i, j :: 0 <= i < j < |states| ==> states[i].name != states[j].name
  }

  /** Of several handlers for one message type only the last one declares effects. */
  ghost predicate EffectsOnce(hs: seq<HandlerDecl>) {
    forall i, j :: 0 <= i < j < |hs| && hs[i].on == hs[j].on ==> hs[i].effects == []
  }

  ghost predicate ServicesFit(services: seq<ServiceDecl>) {
    && (forall i, j :: 0 <= i < j < |services| ==> services[i].name != services[j].name)
    && (forall i :: 0 <= i < |services| ==> StatesOnce(services[i].states) && EffectsOnce(services[i].handlers))
  }

  /** Names are used once, effects declared once, and every handler passes validation and declares
      exactly the effects its actions may have. */
  ghost predicate Loadable(m: Module, parseId: string -> Option<Uuid>) {
    && ServicesFit(m.services)
    && (forall k :: k in ProgramOf(m.services).handlers ==> HandlerOk(ProgramOf(m.services), k, parseId))
  }

  // ---- what the program is ----

  /** The actions of all handlers of a list for one message type, in order; and the last one's effects. */
  function ActionsFor(hs: seq<HandlerDecl>, on: string): seq<Action> {
    if hs == [] then []
    else ActionsFor(hs[..|hs| - 1], on) + if hs[|hs| - 1].on == on then hs[|hs| - 1].actions else []
  }

  function EffectsFor(hs: seq<HandlerDecl>, on: string): seq<Effect> {
    if hs == [] then []
    else if hs[|hs| - 1].on == on then hs[|hs| - 1].effects
    else EffectsFor(hs[..|hs| - 1], on)
  }

  predicate Handles(hs: seq<HandlerDecl>, on: string) {
    exists i :: 0 <= i < |hs| && hs[i].on == on
  }

  lemma HandlesSnoc(front: seq<HandlerDecl>, h: HandlerDecl, on: string)
    ensures Handles(front + [h], on) <==> Handles(front, on) || h.on == on
  {
    var all := front + [h];
    if Handles(front, on) {
      var i :| 0 <= i < |front| && front[i].on == on;
      assert all[i].on == on;
    }
    if h.on == on { assert all[|front|].on == on; }
    if Handles(all, on) && h.on != on {
      var i :| 0 <= i < |all| && all[i].on == on;
      assert front[i].on == on;
    }
  }

  lemma {:induction false} AddedHandlers(plans: map<(string, string), HandlerPlan>, service: string, hs: seq<HandlerDecl>, key: (string, string))
    requires forall k :: k in plans ==> k.0 != service
    ensures var after := AddHandlers(plans, service, hs);
            if key.0 != service then (key in after <==> key in plans) && (key in plans ==> after[key] == plans[key])
            else (key in after <==> Handles(hs, key.1))
                 && (key in after ==> after[key] == HandlerPlan(ActionsFor(hs, key.1), EffectsFor(hs, key.1)))
                 && (key !in after ==> ActionsFor(hs, key.1) == [] && EffectsFor(hs, key.1) == [])
  {
    if hs != [] {
      var front := hs[..|hs| - 1];
      AddedHandlers(plans, service, front, key);
      assert hs == front + [hs[|hs| - 1]];
      HandlesSnoc(front, hs[|hs| - 1], key.1);
    }
  }

  lemma {:induction false} ProgramParts(services: seq<ServiceDecl>)
    requires forall i, j :: 0 <= i < j < |services| ==> services[i].name != services[j].name
    ensures var p := ProgramOf(services);
            && |p.services| == |services| && (forall i :: 0 <= i < |services| ==> p.services[i] == services[i].name)
            && p.initialState.Keys == ServiceNames(p.services)
            && (forall k :: k in p.handlers ==> k.0 in p.initialState)
    decreases |services|, 0
  {
    if services != [] {
      var front := services[..|services| - 1];
      var last := services[|services| - 1];
      var p := ProgramOf(front);
      ProgramParts(front);
      assert ServiceNames(p.services + [last.name]) == ServiceNames(p.services) + {last.name};
      forall k | k in ProgramOf(services).handlers ensures k.0 in ProgramOf(services).initialState {
        if k.0 != last.name {
          NotThere(front, last.name);
          AddedHandlers(p.handlers, last.name, last.handlers, k);
        }
      }
    }
  }

  lemma NotThere(services: seq<ServiceDecl>, name: string)
    requires forall i, j :: 0 <= i < j < |services| ==> services[i].name != services[j].name
    requires forall i :: 0 <= i < |services| ==> services[i].name != name
    ensures forall k :: k in ProgramOf(services).handlers ==> k.0 != name
    decreases |services|, 1
  {
    ProgramParts(services);
    var p := ProgramOf(services);
    forall k | k in p.handlers ensures k.0 != name {
      assert k.0 in ServiceNames(p.services);
      var i :| 0 <= i < |p.services| && p.services[i] == k.0;
      assert services[i].name == k.0;
    }
  }

  lemma {:induction false} StoreKeys(states: seq<StateDecl>, name: string)
    ensures name in InitialStore(states) <==> exists i :: 0 <= i < |states| && states[i].name == name
  {
    if states != [] {
      var n := |states| - 1;
      StoreKeys(states[..n], name);
      if i :| 0 <= i < n && states[..n][i].name == name { assert states[i].name == name; }
      if i :| 0 <= i < |states| && states[i].name == name && i < n { assert states[..n][i].name == name; }
    }
  }

  lemma {:induction false} StoreValue(states: seq<StateDecl>, i: nat)
    requires StatesOnce(states) && i < |states|
    ensures states[i].name in InitialStore(states) && InitialStore(states)[states[i].name] == states[i].initial
  {
    var front := states[..|states| - 1];
    if i < |states| - 1 {
      assert forall a, b :: 0 <= a < b < |front| ==> front[a].name != front[b].name;
      StoreValue(front, i);
    }
  }

  /** A store holds the declared initial values, and nothing that is not declared. */
  ghost predicate HoldsInitially(store: Store, states: seq<StateDecl>) {
    && (forall i :: 0 <= i < |states| ==> states[i].name in store && store[states[i].name] == states[i].initial)
    && (forall name :: name in store ==> exists i :: 0 <= i < |states| && states[i].name == name)
  }

  lemma StoreMeans(states: seq<StateDecl>)
    requires StatesOnce(states)
    ensures HoldsInitially(InitialStore(states), states)
  {
    forall i | 0 <= i < |states|
      ensures states[i].name in InitialStore(states) && InitialStore(states)[states[i].name] == states[i].initial
    {
      StoreValue(states, i);
    }
    forall name | name in InitialStore(states) ensures exists i :: 0 <= i < |states| && states[i].name == name {
      StoreKeys(states, name);
    }
  }

  /** The program holds, for each service of the module, its own declared initial state and its own
      handlers, merged per message type. */
  lemma {:induction false} ProgramMeans(services: seq<ServiceDecl>, i: nat, on: string)
    requires forall a, b :: 0 <= a < b < |services| ==> services[a].name != services[b].name
    requires i < |services|
    ensures var p := ProgramOf(services);
            var s := services[i];
            && s.name in p.initialState && p.initialState[s.name] == InitialStore(s.states)
            && (StatesOnce(s.states) ==> HoldsInitially(p.initialState[s.name], s.states))
            && ((s.name, on) in p.handlers <==> Handles(s.handlers, on))
            && ((s.name, on) in p.handlers ==>
                  p.handlers[(s.name, on)] == HandlerPlan(ActionsFor(s.handlers, on), EffectsFor(s.handlers, on)))
  {
    hide HoldsInitially;
    var front := services[..|services| - 1];
    var last := services[|services| - 1];
    NotThere(front, last.name);
    AddedHandlers(ProgramOf(front).handlers, last.name, last.handlers, (services[i].name, on));
    if StatesOnce(services[i].states) { StoreMeans(services[i].states); }
    if i < |services| - 1 {
      assert front[i] == services[i];
      ProgramMeans(front, i, on);
    }
  }

  /** What loading accepts is what the interpreter's guarantees ask for. */
  lemma LoadableIsLoaded(m: Module, parseId: string -> Option<Uuid>)
    requires Loadable(m, parseId)
    ensures Loaded(ProgramOf(m.services), parseId)
  {
    ProgramParts(m.services);
  }

  // ---- what is said when a module is refused ----

  /** The first state whose name has been declared before is reported. */
  ghost predicate StateFault(states: seq<StateDecl>, e: Error) {
    exists j ::
      && 0 <= j < |states| && StatesOnce(states[..j]) && e == DuplicateState(states[j].name)
      && exists i :: 0 <= i < j && states[i].name == states[j].name
  }

  /** The first handler for a message type that has declared effects before is reported. */
  ghost predicate HandlerListFault(service: string, hs: seq<HandlerDecl>, e: Error) {
    exists j ::
      && 0 <= j < |hs| && EffectsOnce(hs[..j]) && e == DuplicateHandler(service, hs[j].on)
      && exists i :: 0 <= i < j && hs[i].on == hs[j].on && hs[i].effects != []
  }

  /** The first service that does not fit is reported: for its name, its states, or its handlers. */
  ghost predicate ServicesFault(services: seq<ServiceDecl>, e: Error) {
    exists n :: 0 <= n < |services| && ServicesFit(services[..n]) && ServiceFault(services, n, e)
  }

  ghost predicate ServiceFault(services: seq<ServiceDecl>, n: nat, e: Error)
    requires n < |services|
  {
    var s := services[n];
    if exists i :: 0 <= i < n && services[i].name == s.name then e == DuplicateService(s.name)
    else if !StatesOnce(s.states) then StateFault(s.states, e)
    else HandlerListFault(s.name, s.handlers, e)
  }

  /** The first action that fails validation is reported, and otherwise the wrong declaration of effects. */
  ghost predicate HandlerFault(p: Program, key: (string, string), parseId: string -> Option<Uuid>, e: Error)
    requires key in p.handlers && key.0 in p.initialState
  {
    var actions, keys, services := p.handlers[key].actions, p.initialState[key.0].Keys, ServiceNames(p.services);
    if ValidateActions(actions, keys, services, parseId).Ok? then e == EffectMismatch(key.0, key.1)
    else
      exists i ::
        && 0 <= i < |actions| && ValidateActions(actions[..i], keys, services, parseId).Ok?
        && ValidateAction(actions[i], keys, services, parseId) == Err(e)
  }

  /** A module is refused for its services, or else for some handler. */
  ghost predicate ModuleFault(m: Module, parseId: string -> Option<Uuid>, e: Error) {
    if !ServicesFit(m.services) then ServicesFault(m.services, e)
    else
      var p := ProgramOf(m.services);
      exists key :: key in p.handlers && key.0 in p.initialState && HandlerFault(p, key, parseId, e)
  }

  // ---- loading ----

  lemma StatesOnceMore(front: seq<StateDecl>, d: StateDecl)
    ensures StatesOnce(front + [d]) <==> StatesOnce(front) && d.name !in InitialStore(front)
  {
    StoreKeys(front, d.name);
    var all := front + [d];
    if StatesOnce(all) {
      forall i, j | 0 <= i < j < |front| ensures front[i].name != front[j].name { assert all[i].name != all[j].name; }
      forall i | 0 <= i < |front| ensures front[i].name != d.name { assert all[i].name != all[|front|].name; }
    }
  }

  /** The states of one service; a name declared twice is refused. */
  method LoadStates(states: seq<StateDecl>) returns (r: Result<Store>)
    ensures r.Ok? <==> StatesOnce(states)
    ensures r.Ok? ==> r.value == InitialStore(states)
    ensures r.Err? ==> StateFault(states, r.error)
  {
    var store: Store := map[];
    for i := 0 to |states|
      invariant StatesOnce(states[..i]) && store == InitialStore(states[..i])
    {
      assert states[..i + 1] == states[..i] + [states[i]];
      assert states[..i + 1][..i] == states[..i];
      StatesOnceMore(states[..i], states[i]);
      if states[i].name in store {
        StateTwice(states, i);
        return Err(DuplicateState(states[i].name));
      }
      store := store[states[i].name := states[i].initial];
    }
    assert states[..|states|] == states;
    r := Ok(store);
  }

  lemma StateTwice(states: seq<StateDecl>, i: nat)
    requires i < |states| && StatesOnce(states[..i]) && states[i].name in InitialStore(states[..i])
    ensures !StatesOnce(states) && StateFault(states, DuplicateState(states[i].name))
  {
    StoreKeys(states[..i], states[i].name);
    var k :| 0 <= k < i && states[..i][k].name == states[i].name;
    assert states[k].name == states[i].name;
  }

  lemma {:induction false} EffectsDeclared(hs: seq<HandlerDecl>, on: string)
    requires EffectsOnce(hs)
    ensures EffectsFor(hs, on) != [] <==> exists i :: 0 <= i < |hs| && hs[i].on == on && hs[i].effects != []
  {
    if hs != [] {
      var n := |hs| - 1;
      var front := hs[..n];
      forall i, j | 0 <= i < j < |front| && front[i].on == front[j].on ensures front[i].effects == [] { assert hs[i].on == hs[j].on; }
      EffectsDeclared(front, on);
      if hs[n].on == on {
        forall i | 0 <= i < n && hs[i].on == on ensures hs[i].effects == [] { assert hs[i].on == hs[n].on; }
      } else {
        if i :| 0 <= i < n && front[i].on == on && front[i].effects != [] { assert hs[i].on == on && hs[i].effects != []; }
        if i :| 0 <= i < |hs| && hs[i].on == on && hs[i].effects != [] { assert front[i].on == on; }
      }
    }
  }

  lemma EffectsOnceMore(front: seq<HandlerDecl>, h: HandlerDecl)
    requires EffectsOnce(front)
    ensures EffectsOnce(front + [h]) <==> EffectsFor(front, h.on) == []
  {
    EffectsDeclared(front, h.on);
    var all := front + [h];
    if EffectsOnce(all) {
      forall i | 0 <= i < |front| && front[i].on == h.on ensures front[i].effects == [] {
        assert all[i].on == all[|front|].on;
      }
    }
  }

  lemma EffectsTwice(service: string, hs: seq<HandlerDecl>, i: nat)
    requires i < |hs| && EffectsOnce(hs[..i]) && EffectsFor(hs[..i], hs[i].on) != []
    ensures !EffectsOnce(hs) && HandlerListFault(service, hs, DuplicateHandler(service, hs[i].on))
  {
    EffectsDeclared(hs[..i], hs[i].on);
    var k :| 0 <= k < i && hs[..i][k].on == hs[i].on && hs[..i][k].effects != [];
    assert hs[k].on == hs[i].on && hs[k].effects != [];
  }

  /** The handlers of one service; effects declared twice for a message type are refused. */
  method LoadHandlers(plans: map<(string, string), HandlerPlan>, service: string, hs: seq<HandlerDecl>)
    returns (r: Result<map<(string, string), HandlerPlan>>)
    requires forall k :: k in plans ==> k.0 != service
    ensures r.Ok? <==> EffectsOnce(hs)
    ensures r.Ok? ==> r.value == AddHandlers(plans, service, hs)
    ensures r.Err? ==> HandlerListFault(service, hs, r.error)
  {
    var all := plans;
    for i := 0 to |hs|
      invariant EffectsOnce(hs[..i]) && all == AddHandlers(plans, service, hs[..i])
    {
      var h := hs[i];
      assert hs[..i + 1] == hs[..i] + [h];
      assert hs[..i + 1][..i] == hs[..i];
      EffectsOnceMore(hs[..i], h);
      AddedHandlers(plans, service, hs[..i], (service, h.on));
      var plan := PlanAt(all, (service, h.on));
      if plan.declared != [] {
        EffectsTwice(service, hs, i);
        return Err(DuplicateHandler(service, h.on));
      }
      all := all[(service, h.on) := HandlerPlan(plan.actions + h.actions, h.effects)];
    }
    assert hs[..|hs|] == hs;
    r := Ok(all);
  }

  lemma {:induction false} InferSnoc(front: seq<Action>, a: Action)
    ensures InferEffects(front + [a]) == InferEffects(front) + ActionEffects(a)
  {
    if front == [] {
      assert [a][1..] == [];
    } else {
      assert (front + [a])[1..] == front[1..] + [a];
      InferSnoc(front[1..], a);
    }
  }

  /** `infer_effects`. */
  method InferHandlerEffects(actions: seq<Action>) returns (out: set<Effect>)
    ensures out == InferEffects(actions)
  {
    out := {};
    for i := 0 to |actions|
      invariant out == InferEffects(actions[..i])
    {
      assert actions[..i + 1] == actions[..i] + [actions[i]];
      InferSnoc(actions[..i], actions[i]);
      out := InferActionEffects(actions[i], out);
    }
    assert actions[..|actions|] == actions;
  }

  method InferActionEffects(a: Action, before: set<Effect>) returns (out: set<Effect>)
    ensures out == before + ActionEffects(a)
    decreases a
  {
    match a {
      case LogAction(_) => out := before + {Log};
      case SetState(_, _) => out := before + {StateWrite};
      case IncState(_, _) => out := before + {StateWrite};
      case TimerLocalAction(_, _, _, _) => out := before + {TimerLocal};
      case TimerRemoteAction(_, _, _, _, _) => out := before + {TimerRemote};
      case SendLocalAction(_, _, _) => out := before + {SendLocal};
      case SendRemoteAction(_, _, _, _) => out := before + {SendRemote};
      case IfStateEq(_, _, inner) =>
        out := before + {StateRead};
        out := InferActionEffects(inner, out);
    }
  }

  lemma {:induction false} ValidateSnoc(front: seq<Action>, a: Action, keys: set<string>, services: set<string>, parseId: string -> Option<Uuid>)
    requires ValidateActions(front, keys, services, parseId).Ok?
    ensures ValidateActions(front + [a], keys, services, parseId) == ValidateAction(a, keys, services, parseId)
  {
    if front == [] {
      assert [a][1..] == [] && front + [a] == [a];
      var v := ValidateAction(a, keys, services, parseId);
      assert v.Ok? ==> v.value == ();
    } else {
      assert (front + [a])[1..] == front[1..] + [a];
      ValidateSnoc(front[1..], a, keys, services, parseId);
    }
  }

  lemma {:induction false} ValidateFails(front: seq<Action>, rest: seq<Action>, keys: set<string>, services: set<string>, parseId: string -> Option<Uuid>)
    requires ValidateActions(front, keys, services, parseId).Err?
    ensures ValidateActions(front + rest, keys, services, parseId) == ValidateActions(front, keys, services, parseId)
  {
    assert (front + rest)[1..] == front[1..] + rest;
    if ValidateAction(front[0], keys, services, parseId).Ok? { ValidateFails(front[1..], rest, keys, services, parseId); }
  }

  lemma CheckFails(p: Program, key: (string, string), parseId: string -> Option<Uuid>, i: nat)
    requires key in p.handlers && key.0 in p.initialState && i < |p.handlers[key].actions|
    requires var plan := p.handlers[key];
             var keys, services := p.initialState[key.0].Keys, ServiceNames(p.services);
             && ValidateActions(plan.actions[..i], keys, services, parseId).Ok?
             && ValidateAction(plan.actions[i], keys, services, parseId).Err?
    ensures !HandlerOk(p, key, parseId)
    ensures var keys, services := p.initialState[key.0].Keys, ServiceNames(p.services);
            HandlerFault(p, key, parseId, ValidateAction(p.handlers[key].actions[i], keys, services, parseId).error)
  {
    hide ValidateAction;
    var actions, keys, services := p.handlers[key].actions, p.initialState[key.0].Keys, ServiceNames(p.services);
    assert actions[..i + 1] == actions[..i] + [actions[i]];
    ValidateSnoc(actions[..i], actions[i], keys, services, parseId);
    assert actions[..i + 1] + actions[i + 1..] == actions;
    ValidateFails(actions[..i + 1], actions[i + 1..], keys, services, parseId);
  }

  /** Checks one handler of an assembled program. */
  method CheckHandler(p: Program, key: (string, string), parseId: string -> Option<Uuid>) returns (r: Result<()>)
    requires key in p.handlers && key.0 in p.initialState
    ensures r.Ok? <==> HandlerOk(p, key, parseId)
    ensures r.Err? ==> HandlerFault(p, key, parseId, r.error)
  {
    hide ValidateAction;
    var plan := p.handlers[key];
    var keys, services := p.initialState[key.0].Keys, ServiceNames(p.services);
    for i := 0 to |plan.actions|
      invariant ValidateActions(plan.actions[..i], keys, services, parseId).Ok?
    {
      ValidateSnoc(plan.actions[..i], plan.actions[i], keys, services, parseId);
      assert plan.actions[..i + 1] == plan.actions[..i] + [plan.actions[i]];
      var v := ValidateAction(plan.actions[i], keys, services, parseId);
      if v.Err? {
        CheckFails(p, key, parseId, i);
        return v;
      }
    }
    assert plan.actions[..|plan.actions|] == plan.actions;
    var inferred := InferHandlerEffects(plan.actions);
    var declared := set e | e in plan.declared;
    if inferred != declared {
      return Err(EffectMismatch(key.0, key.1));
    }
    r := Ok(());
  }

  lemma NamesSoFar(services: seq<ServiceDecl>, i: nat, seen: set<string>)
    requires i < |services| && ServicesFit(services[..i]) && seen == ServiceNames(ProgramOf(services[..i]).services)
    ensures ServicesFit(services[..i + 1]) <==>
              services[i].name !in seen && StatesOnce(services[i].states) && EffectsOnce(services[i].handlers)
    ensures services[i].name in seen <==> exists a :: 0 <= a < i && services[a].name == services[i].name
    ensures services[i].name !in seen ==> forall k :: k in ProgramOf(services[..i]).handlers ==> k.0 != services[i].name
  {
    var front := services[..i];
    var all := services[..i + 1];
    ProgramParts(front);
    assert forall a :: 0 <= a < i ==> all[a] == front[a] && front[a] == services[a];
    assert services[i].name in seen <==> exists a :: 0 <= a < i && front[a].name == services[i].name by {
      if services[i].name in seen {
        var a :| 0 <= a < |ProgramOf(front).services| && ProgramOf(front).services[a] == services[i].name;
        assert front[a].name == services[i].name;
      }
      if a :| 0 <= a < i && front[a].name == services[i].name { assert ProgramOf(front).services[a] in ProgramOf(front).services; }
    }
    if services[i].name !in seen {
      NotThere(front, services[i].name);
    }
    if ServicesFit(all) {
      forall a | 0 <= a < i ensures front[a].name != services[i].name { assert all[a].name != all[i].name; }
      assert StatesOnce(all[i].states) && EffectsOnce(all[i].handlers);
    }
  }

  lemma NotFitting(services: seq<ServiceDecl>, n: nat)
    requires n <= |services| && !ServicesFit(services[..n])
    ensures !ServicesFit(services)
  {
    var front := services[..n];
    if ServicesFit(services) {
      forall i, j | 0 <= i < j < |front| ensures front[i].name != front[j].name { assert services[i].name != services[j].name; }
      forall i | 0 <= i < |front| ensures StatesOnce(front[i].states) && EffectsOnce(front[i].handlers) {
        assert StatesOnce(services[i].states);
      }
    }
  }

  /** Assembles the program of a module, service by service. */
  method Assemble(services: seq<ServiceDecl>) returns (r: Result<Program>)
    ensures r.Ok? <==> ServicesFit(services)
    ensures r.Ok? ==> r.value == ProgramOf(services)
    ensures r.Err? ==> ServicesFault(services, r.error)
  {
    hide StatesOnce;
    hide EffectsOnce;
    hide StateFault;
    hide HandlerListFault;
    var names: seq<string> := [];
    var seen: set<string> := {};
    var stores: map<string, Store> := map[];
    var plans: map<(string, string), HandlerPlan> := map[];
    for i := 0 to |services|
      invariant ServicesFit(services[..i])
      invariant Program(names, stores, plans) == ProgramOf(services[..i])
      invariant seen == ServiceNames(names)
    {
      var s := services[i];
      assert services[..i + 1][..i] == services[..i];
      NamesSoFar(services, i, seen);
      if !(s.name !in seen) {
        NotFitting(services, i + 1);
        return Err(DuplicateService(s.name));
      }
      var store := LoadStates(s.states);
      if store.Err? {
        NotFitting(services, i + 1);
        return Err(store.error);
      }
      var all := LoadHandlers(plans, s.name, s.handlers);
      if all.Err? {
        NotFitting(services, i + 1);
        return Err(all.error);
      }
      seen := seen + {s.name};
      names := names + [s.name];
      stores := stores[s.name := store.value];
      plans := all.value;
    }
    assert services[..|services|] == services;
    r := Ok(Program(names, stores, plans));
  }

  /** `load_program` after parsing: succeeds on exactly the loadable modules, with their program. */
  method LoadProgram(m: Module, parseId: string -> Option<Uuid>) returns (r: Result<Program>)
    ensures r.Ok? <==> Loadable(m, parseId)
    ensures r.Ok? ==> r.value == ProgramOf(m.services) && Loaded(r.value, parseId)
    ensures r.Err? ==> ModuleFault(m, parseId, r.error)
  {
    hide ServicesFit;
    hide ServicesFault;
    hide HandlerFault;
    hide ProgramOf;
    hide HandlerOk;
    var assembled := Assemble(m.services);
    if assembled.Err? {
      return assembled;
    }
    var p := assembled.value;
    assert forall k :: k in p.handlers ==> k.0 in p.initialState by { FitParts(m.services); }
    var rest := p.handlers.Keys;
    while rest != {}
      invariant rest <= p.handlers.Keys
      invariant forall k :: k in p.handlers && k !in rest ==> HandlerOk(p, k, parseId)
      decreases |rest|
    {
      var key :| key in rest;
      rest := rest - {key};
      var checked := CheckHandler(p, key, parseId);
      if checked.Err? {
        return Err(checked.error);
      }
    }
    LoadableIsLoaded(m, parseId);
    r := Ok(p);
  }

  lemma FitParts(services: seq<ServiceDecl>)
    requires ServicesFit(services)
    ensures forall k :: k in ProgramOf(services).handlers ==> k.0 in ProgramOf(services).initialState
  {
    ProgramParts(services);
  }
}
