/** The Lean kernel's semantics of actions, and the interpreter as a refinement of it. */
module LeanRefine {
  import opened Base
  import opened Events
  import opened Lang
  import opened Interp

  /** The kernel's store: an association list in which the first entry for a key counts. */
  type LeanStore = seq<(string, int)>

  function LookupState(s: LeanStore, key: string): int {
    if s == [] then 0 else if s[0].0 == key then s[0].1 else LookupState(s[1..], key)
  }

  function SetLean(s: LeanStore, key: string, value: int): LeanStore {
    if s == [] then [(key, value)]
    else if s[0].0 == key then [(key, value)] + s[1..]
    else [s[0]] + SetLean(s[1..], key, value)
  }

  datatype LeanMessage = LeanMessage(fromService: string, msgType: string, text: string)
  datatype LeanState = LeanState(store: LeanStore, outbox: seq<(string, LeanMessage)>)

  datatype LeanAction =
    | LLog(template: string)
    | LSet(key: string, value: int)
    | LInc(key: string, delta: int)
    | LSendLocal(service: string, msgType: string, template: string)
    | LIfStateEq(key: string, value: int, thenAction: LeanAction)

  function ApplyAction(self: string, a: LeanAction, st: LeanState): LeanState {
    match a
    case LLog(_) => st
    case LSet(key, value) => st.(store := SetLean(st.store, key, value))
    case LInc(key, delta) => st.(store := SetLean(st.store, key, LookupState(st.store, key) + delta))
    case LSendLocal(target, msgType, template) =>
      st.(outbox := st.outbox + [(target, LeanMessage(self, msgType, template))])
    case LIfStateEq(key, value, inner) =>
      if LookupState(st.store, key) == value then ApplyAction(self, inner, st) else st
  }

  function ApplyActions(self: string, actions: seq<LeanAction>, st: LeanState): LeanState {
    if actions == [] then st else ApplyActions(self, actions[1..], ApplyAction(self, actions[0], st))
  }

  // ---- the shared fragment ----

  /** The kernel has logs, counters, local sends and conditions, but no timers and no remote sends. */
  predicate Shared(a: Action) {
    match a
    case LogAction(_) => true
    case SetState(_, _) => true
    case IncState(_, _) => true
    case SendLocalAction(_, _, _) => true
    case IfStateEq(_, _, inner) => Shared(inner)
    case _ => false
  }

  function ToLean(a: Action): LeanAction
    requires Shared(a)
  {
    match a
    case LogAction(template) => LLog(template)
    case SetState(key, value) => LSet(key, value)
    case IncState(key, delta) => LInc(key, delta)
    case SendLocalAction(service, message, template) => LSendLocal(service, message, template)
    case IfStateEq(key, value, inner) => LIfStateEq(key, value, ToLean(inner))
  }

  function ToLeanAll(actions: seq<Action>): seq<LeanAction>
    requires forall a :: a in actions ==> Shared(a)
  {
    if actions == [] then [] else [ToLean(actions[0])] + ToLeanAll(actions[1..])
  }

  ghost predicate StoresAgree(store: Store, lean: LeanStore) {
    forall k :: k in store ==> store[k] == LookupState(lean, k)
  }

  /** A local message of the runtime and of the kernel agree in target, sender and type. */
  predicate SendsAgree(o: Outgoing, l: (string, LeanMessage)) {
    && o.target == LocalService(l.0) && o.delaySteps == 0
    && o.payload.Message? && o.payload.msg.fromService == l.1.fromService && o.payload.msg.msgType == l.1.msgType
  }

  ghost predicate OutboxesAgree(outbox: seq<Outgoing>, lean: seq<(string, LeanMessage)>) {
    |outbox| == |lean| && forall i :: 0 <= i < |outbox| ==> SendsAgree(outbox[i], lean[i])
  }

  ghost predicate Agree(x: Exec, st: LeanState) {
    StoresAgree(x.store, st.store) && OutboxesAgree(x.outbox, st.outbox)
  }

  lemma {:induction false} LookupSet(s: LeanStore, key: string, value: int, k: string)
    ensures LookupState(SetLean(s, key, value), k) == if k == key then value else LookupState(s, k)
  {
    if s != [] {
      if s[0].0 == key {
        assert SetLean(s, key, value)[1..] == s[1..];
      } else {
        LookupSet(s[1..], key, value, k);
        assert SetLean(s, key, value)[1..] == SetLean(s[1..], key, value);
      }
    }
  }

  lemma SetAgrees(store: Store, lean: LeanStore, key: string, value: I64)
    requires StoresAgree(store, lean)
    ensures StoresAgree(store[key := value], SetLean(lean, key, value))
  {
    forall k | k in store[key := value] ensures store[key := value][k] == LookupState(SetLean(lean, key, value), k) {
      LookupSet(lean, key, value, k);
    }
  }

  lemma {:induction false} ActionRefines(cfg: Config, call: Call, a: Action, x: Exec, st: LeanState)
    requires Shared(a) && Agree(x, st) && ExecAction(cfg, call, a, x).Ok?
    ensures Agree(ExecAction(cfg, call, a, x).value, ApplyAction(call.service, ToLean(a), st))
    decreases a
  {
    match a
    case SetState(key, value) => SetAgrees(x.store, st.store, key, value);
    case IncState(key, delta) => SetAgrees(x.store, st.store, key, x.store[key] + delta);
    case IfStateEq(key, value, inner) =>
      if x.store[key] == value {
        ActionRefines(cfg, call, inner, x.(observed := x.observed + {StateRead}), st);
      }
    case _ =>
  }

  /** The interpreter refines the kernel: on the shared fragment, whenever the runtime runs an action
      list without error, the kernel's run from an agreeing state agrees with it on every declared
      key and message by message in the outbox. The runtime errs here only on an undeclared key or
      on leaving the 64-bit range, which the kernel's unbounded integers never do. */
  lemma {:induction false} InterpreterRefinesKernel(cfg: Config, call: Call, actions: seq<Action>, x: Exec, st: LeanState)
    requires forall a :: a in actions ==> Shared(a)
    requires Agree(x, st) && ExecActions(cfg, call, actions, x).Ok?
    ensures Agree(ExecActions(cfg, call, actions, x).value, ApplyActions(call.service, ToLeanAll(actions), st))
    decreases |actions|
  {
    hide Agree;
    hide ExecAction;
    hide ApplyAction;
    if actions != [] {
      assert actions[0] in actions;
      ActionRefines(cfg, call, actions[0], x, st);
      InterpreterRefinesKernel(cfg, call, actions[1..], ExecAction(cfg, call, actions[0], x).value,
                               ApplyAction(call.service, ToLean(actions[0]), st));
      assert ToLeanAll(actions)[1..] == ToLeanAll(actions[1..]);
    }
  }

  // ---- when the runtime's counters suffice ----

  /** The kernel's values of these keys fit 64 bits. */
  ghost predicate InRange(keys: set<string>, s: LeanStore) {
    forall k :: k in keys ==> I64_MIN <= LookupState(s, k) <= I64_MAX
  }

  lemma AgreeInRange(x: Exec, st: LeanState)
    requires Agree(x, st)
    ensures InRange(x.store.Keys, st.store)
  {
    forall k | k in x.store.Keys ensures I64_MIN <= LookupState(st.store, k) <= I64_MAX {
      assert x.store[k] == LookupState(st.store, k);
    }
  }

  /** On declared keys an action fails exactly when it takes a counter of the kernel out of range. */
  lemma {:induction false} ActionSucceeds(cfg: Config, call: Call, a: Action, x: Exec, st: LeanState, services: set<string>)
    requires Shared(a) && Agree(x, st) && ValidateAction(a, x.store.Keys, services, cfg.parseId).Ok?
    ensures ExecAction(cfg, call, a, x).Ok? <==> InRange(x.store.Keys, ApplyAction(call.service, ToLean(a), st).store)
    ensures ExecAction(cfg, call, a, x).Ok? ==> ExecAction(cfg, call, a, x).value.store.Keys == x.store.Keys
    decreases a
  {
    hide InRange;
    if ExecAction(cfg, call, a, x).Ok? {
      ActionRefines(cfg, call, a, x, st);
      AgreeInRange(ExecAction(cfg, call, a, x).value, ApplyAction(call.service, ToLean(a), st));
    }
    match a
    case SetState(key, value) => assert x.store[key := value].Keys == x.store.Keys;
    case IncState(key, delta) =>
      var after := LookupState(st.store, key) + delta;
      if I64_MIN <= after <= I64_MAX {
        assert x.store[key := after].Keys == x.store.Keys;
      } else {
        OutOfRange(x.store.Keys, st.store, key, after);
      }
    case IfStateEq(key, value, inner) =>
      if x.store[key] == value {
        ActionSucceeds(cfg, call, inner, x.(observed := x.observed + {StateRead}), st, services);
      }
    case _ =>
  }

  lemma OutOfRange(keys: set<string>, s: LeanStore, key: string, value: int)
    requires key in keys && !(I64_MIN <= value <= I64_MAX)
    ensures !InRange(keys, SetLean(s, key, value))
  {
    LookupSet(s, key, value, key);
  }

  /** The kernel's states on the way through the list: those of the rest, behind the first. */
  lemma PrefixStates(self: string, actions: seq<LeanAction>, st: LeanState, k: nat)
    requires 0 < k <= |actions|
    ensures ApplyActions(self, actions[..k], st) == ApplyActions(self, actions[1..][..k - 1], ApplyAction(self, actions[0], st))
  {
    assert actions[..k][1..] == actions[1..][..k - 1];
  }

  /** On declared keys the runtime runs an action list exactly when the kernel's counters fit 64 bits in
      every state on the way. */
  lemma {:induction false} SucceedsInRange(cfg: Config, call: Call, actions: seq<Action>, x: Exec, st: LeanState, services: set<string>)
    requires (forall a :: a in actions ==> Shared(a)) && Agree(x, st)
    requires ValidateActions(actions, x.store.Keys, services, cfg.parseId).Ok?
    ensures |ToLeanAll(actions)| == |actions|
    ensures ExecActions(cfg, call, actions, x).Ok? <==>
            forall k :: 0 <= k <= |actions| ==>
              InRange(x.store.Keys, ApplyActions(call.service, ToLeanAll(actions)[..k], st).store)
    decreases |actions|
  {
    hide Agree;
    hide ExecAction;
    hide ApplyAction;
    hide InRange;
    hide ValidateAction;
    var self, keys, lean := call.service, x.store.Keys, ToLeanAll(actions);
    AgreeInRange(x, st);
    assert ApplyActions(self, lean[..0], st) == st;
    if actions != [] {
      assert actions[0] in actions;
      var st1 := ApplyAction(self, ToLean(actions[0]), st);
      ActionSucceeds(cfg, call, actions[0], x, st, services);
      assert lean[0] == ToLean(actions[0]) && lean[1..] == ToLeanAll(actions[1..]);
      LeanLength(actions);
      forall k | 0 < k <= |actions| ensures ApplyActions(self, lean[..k], st) == ApplyActions(self, lean[1..][..k - 1], st1) {
        PrefixStates(self, lean, st, k);
      }
      assert ApplyActions(self, lean[..1], st) == st1 by { assert lean[1..][..0] == []; }
      if ExecAction(cfg, call, actions[0], x).Ok? {
        var y := ExecAction(cfg, call, actions[0], x).value;
        ActionRefines(cfg, call, actions[0], x, st);
        SucceedsInRange(cfg, call, actions[1..], y, st1, services);
        SameStates(self, keys, lean, st, st1);
      }
    }
  }

  lemma {:induction false} LeanLength(actions: seq<Action>)
    requires forall a :: a in actions ==> Shared(a)
    ensures |ToLeanAll(actions)| == |actions|
  {
    if actions != [] { LeanLength(actions[1..]); }
  }

  lemma SameStates(self: string, keys: set<string>, lean: seq<LeanAction>, st: LeanState, st1: LeanState)
    requires lean != [] && st1 == ApplyAction(self, lean[0], st) && InRange(keys, st.store)
    ensures (forall k :: 0 <= k <= |lean| ==> InRange(keys, ApplyActions(self, lean[..k], st).store))
       <==> (forall k :: 0 <= k <= |lean| - 1 ==> InRange(keys, ApplyActions(self, lean[1..][..k], st1).store))
  {
    hide InRange;
    hide ApplyAction;
    forall k | 0 < k <= |lean| ensures ApplyActions(self, lean[..k], st) == ApplyActions(self, lean[1..][..k - 1], st1) {
      PrefixStates(self, lean, st, k);
    }
    forall k | 0 <= k < |lean| ensures ApplyActions(self, lean[1..][..k], st1) == ApplyActions(self, lean[..k + 1], st) {
      PrefixStates(self, lean, st, k + 1);
    }
    assert ApplyActions(self, lean[..0], st) == st;
  }
}
