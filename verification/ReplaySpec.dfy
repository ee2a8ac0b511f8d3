/** Replay as functions on the rest of the trace, and what replay accepts: exactly the traces of
    the event-driven machine that leave no message undelivered. */
module ReplaySpec {
  import opened Base
  import opened Events
  import opened Interp
  import opened Node

  /** Where `next_replay_delivery` stops: at a Deliver of this node, or at the end of the trace. */
  datatype Advance = Advance(delivery: Option<EventKind>, core: Core, rest: seq<EventKind>)

  predicate OwnDeliver(cfg: Config, ev: EventKind) {
    ev.Deliver? && ev.node == cfg.node
  }

  function NextDelivery(cfg: Config, c: Core, rem: seq<EventKind>): Result<Advance>
    decreases |rem|
  {
    if rem == [] then Ok(Advance(None, c, []))
    else if OwnDeliver(cfg, rem[0]) then Ok(Advance(Some(rem[0]), c, rem[1..]))
    else if !IsInput(rem[0]) then Err(UnexpectedEmission)
    else
      var m :- CoreStep(cfg, c, rem[0]);
      // Only a fired timer emits here, and it emits one event.
      if m.events != [] && |rem| == 1 then Err(TraceEnded)
      else if m.events <= rem[1..] then NextDelivery(cfg, m.core, rem[1..][|m.events|..])
      else Err(EmissionMismatch)
  }

  /** `drain_replay_inbound`: network and fault events up to the first other event. */
  function DrainInbound(cfg: Config, actors: map<Uuid, Actor>, rem: seq<EventKind>): (map<Uuid, Actor>, seq<EventKind>)
    decreases |rem|
  {
    if rem == [] then (actors, [])
    else match rem[0]
      case NetRecv(node, _, to, id, payload) =>
        DrainInbound(cfg, if node == cfg.node then Push(actors, to, Entry(id, payload)) else actors, rem[1..])
      case FaultInjected(_, _, _, _, _) => DrainInbound(cfg, actors, rem[1..])
      case FaultPolicyEvent(_, _, _, _, _) => DrainInbound(cfg, actors, rem[1..])
      case _ => (actors, rem)
  }

  /** `verify_replay_emits`: the trace continues with exactly the expected events, and the event
      after them is not one more handler emission. */
  function VerifyEmits(rem: seq<EventKind>, expected: seq<EventKind>): Result<seq<EventKind>> {
    if expected <= rem then
      if |rem| > |expected| && IsHandlerEmission(rem[|expected|]) then Err(UnexpectedEmission)
      else Ok(rem[|expected|..])
    else Err(EmissionMismatch)
  }

  /** The step loop and the checks after it, with `steps` iterations left. */
  function ReplaySteps(cfg: Config, c: Core, rem: seq<EventKind>, steps: nat): Result<Core>
    decreases steps
  {
    if steps == 0 then
      if rem != [] then Err(StoppedEarly)
      else if InboxesEmpty(c.sys.actors) then Ok(c)
      else Err(UndeliveredInbox)
    else
      var (actors, rem1) := DrainInbound(cfg, c.sys.actors, rem);
      var adv :- NextDelivery(cfg, c.(sys := c.sys.(actors := actors)), rem1);
      match adv.delivery
      case None => if InboxesEmpty(adv.core.sys.actors) then Ok(adv.core) else Err(UndeliveredInbox)
      case Some(d) =>
        var m :- CoreStep(cfg, adv.core, d);
        var rem2 :- VerifyEmits(adv.rest, m.events);
        ReplaySteps(cfg, m.core, rem2, steps - 1)
  }

  /** A whole replay run over a trace. */
  function Replay(cfg: Config, trace: seq<EventKind>, steps: nat): Result<Core> {
    var boot :- Startup(cfg);
    var rem :- VerifyEmits(trace, boot.events);
    ReplaySteps(cfg, Core(boot.sys, []), rem, steps)
  }

  function Inputs(trace: seq<EventKind>): (r: seq<EventKind>)
    ensures forall ev :: ev in r <==> ev in trace && IsInput(ev)
  {
    if trace == [] then []
    else if IsInput(trace[0]) then [trace[0]] + Inputs(trace[1..])
    else Inputs(trace[1..])
  }

  /** How many step-loop iterations a trace keeps busy: one for each delivery to this node, and one
      more when other input follows the last of them. */
  function StepsNeeded(cfg: Config, trace: seq<EventKind>): nat {
    if trace == [] then 0
    else
      var rest := StepsNeeded(cfg, trace[1..]);
      if OwnDeliver(cfg, trace[0]) then 1 + rest
      else if IsInput(trace[0]) && rest == 0 then 1
      else rest
  }

  lemma {:induction false} DrainThenNext(cfg: Config, c: Core, rem: seq<EventKind>)
    ensures var (actors, rem1) := DrainInbound(cfg, c.sys.actors, rem);
            NextDelivery(cfg, c.(sys := c.sys.(actors := actors)), rem1) == NextDelivery(cfg, c, rem)
    decreases |rem|
  {
    if rem != [] && (rem[0].NetRecv? || rem[0].FaultInjected? || rem[0].FaultPolicyEvent?) {
      var m := CoreStep(cfg, c, rem[0]).value;
      assert rem[1..][|m.events|..] == rem[1..];
      DrainThenNext(cfg, m.core, rem[1..]);
    }
  }

  lemma {:induction false} EmittedAreEmissions(cfg: Config, c: Core, ev: EventKind)
    requires CoreStep(cfg, c, ev).Ok?
    ensures forall e :: e in CoreStep(cfg, c, ev).value.events ==> IsHandlerEmission(e) && !IsInput(e)
    ensures IsInput(ev)
  {
    if OwnDeliver(cfg, ev) {
      var p := Pop(c.sys, ev.to).value;
      var a := p.sys.actors[ev.to];
      var run := ExecHandler(cfg, Call(a.service, p.entry.id, p.entry.payload.msg), a.store).value;
      OutboxEmissions(cfg, p.sys.(actors := p.sys.actors[ev.to := a.(store := run.exec.store)]), ev.to, run.exec.outbox);
      LogEmissions(cfg.node, ev.to, run.exec.logs);
    }
  }

  lemma {:induction false} OutboxEmissions(cfg: Config, s: Sys, from: Uuid, outbox: seq<Outgoing>)
    requires ProcessOutbox(cfg, s, from, outbox).Ok?
    ensures forall e :: e in ProcessOutbox(cfg, s, from, outbox).value.emitted ==> IsHandlerEmission(e)
    decreases |outbox|
  {
    if outbox != [] {
      if outbox[0].delaySteps > 0 {
        OutboxEmissions(cfg, s.(timerCounter := SatAdd(s.timerCounter, 1)), from, outbox[1..]);
      } else {
        OutboxEmissions(cfg, Dispatch(cfg, s, from, outbox[0].target, outbox[0].payload).value.0, from, outbox[1..]);
      }
    }
  }

  lemma {:induction false} LogEmissions(node: Uuid, from: Uuid, logs: seq<LogEmission>)
    ensures forall e :: e in LogEvents(node, from, logs) ==> e.LogLine?
  {
    if logs != [] { LogEmissions(node, from, logs[1..]); }
  }

  /** Emissions need no step of their own. */
  lemma {:induction false} StepsSkipEmissions(cfg: Config, em: seq<EventKind>, rest: seq<EventKind>)
    requires forall e :: e in em ==> !IsInput(e)
    ensures StepsNeeded(cfg, em + rest) == StepsNeeded(cfg, rest)
  {
    if em == [] {
      assert em + rest == rest;
    } else {
      assert em[0] in em;
      assert (em + rest)[1..] == em[1..] + rest;
      StepsSkipEmissions(cfg, em[1..], rest);
    }
  }

  /** Advancing to the next delivery follows the machine and uses up no step. */
  lemma {:induction false} NextDeliveryFollows(cfg: Config, c: Core, rem: seq<EventKind>)
    ensures NextDelivery(cfg, c, rem).Err? ==> Follows(cfg, c, rem).Err?
    ensures match NextDelivery(cfg, c, rem)
            case Err(_) => true
            case Ok(Advance(None, c1, rest)) => Follows(cfg, c, rem) == Ok(c1) && StepsNeeded(cfg, rem) <= 1
            case Ok(Advance(Some(d), c1, rest)) =>
              OwnDeliver(cfg, d) && |rest| < |rem|
              && Follows(cfg, c, rem) == Follows(cfg, c1, [d] + rest)
              && StepsNeeded(cfg, rem) == 1 + StepsNeeded(cfg, rest)
    decreases |rem|
  {
    if rem != [] {
      if OwnDeliver(cfg, rem[0]) {
        assert rem == [rem[0]] + rem[1..];
      } else if IsInput(rem[0]) && CoreStep(cfg, c, rem[0]).Ok? {
        var Move(c1, emitted) := CoreStep(cfg, c, rem[0]).value;
        EmittedAreEmissions(cfg, c, rem[0]);
        if emitted <= rem[1..] {
          var rest := rem[1..][|emitted|..];
          NextDeliveryFollows(cfg, c1, rest);
          assert rem[1..] == emitted + rest;
          StepsSkipEmissions(cfg, emitted, rest);
        }
      }
    }
  }

  /** The step loop accepts exactly the traces the machine follows to empty inboxes, given as many
      iterations as the trace needs. */
  lemma {:induction false} ReplayStepsExact(cfg: Config, c: Core, rem: seq<EventKind>, steps: nat)
    ensures ReplaySteps(cfg, c, rem, steps).Ok? <==>
              Follows(cfg, c, rem).Ok? && InboxesEmpty(Follows(cfg, c, rem).value.sys.actors)
              && StepsNeeded(cfg, rem) <= steps
    ensures ReplaySteps(cfg, c, rem, steps).Ok? ==> ReplaySteps(cfg, c, rem, steps) == Follows(cfg, c, rem)
    decreases steps
  {
    hide CoreStep;
    if steps == 0 {
      if rem != [] && Follows(cfg, c, rem).Ok? { EmittedAreEmissions(cfg, c, rem[0]); }
    } else {
      DrainThenNext(cfg, c, rem);
      NextDeliveryFollows(cfg, c, rem);
      match NextDelivery(cfg, c, rem)
      case Err(_) =>
      case Ok(Advance(None, _, _)) =>
      case Ok(Advance(Some(d), c1, rest)) =>
        AfterDelivery(cfg, c1, d, rest);
        if CoreStep(cfg, c1, d).Ok? && VerifyEmits(rest, CoreStep(cfg, c1, d).value.events).Ok? {
          var Move(c2, emitted) := CoreStep(cfg, c1, d).value;
          ReplayStepsExact(cfg, c2, VerifyEmits(rest, emitted).value, steps - 1);
        }
    }
  }

  /** Checking a handler's block against the trace agrees with following the machine. */
  lemma AfterDelivery(cfg: Config, c: Core, d: EventKind, rest: seq<EventKind>)
    requires OwnDeliver(cfg, d)
    ensures CoreStep(cfg, c, d).Err? ==> Follows(cfg, c, [d] + rest).Err?
    ensures CoreStep(cfg, c, d).Ok? ==>
              var m := CoreStep(cfg, c, d).value;
              var checked := VerifyEmits(rest, m.events);
              if checked.Err? then Follows(cfg, c, [d] + rest).Err?
              else Follows(cfg, c, [d] + rest) == Follows(cfg, m.core, checked.value)
                   && StepsNeeded(cfg, rest) == StepsNeeded(cfg, checked.value)
  {
    assert ([d] + rest)[1..] == rest;
    if CoreStep(cfg, c, d).Ok? {
      var Move(c2, emitted) := CoreStep(cfg, c, d).value;
      EmittedAreEmissions(cfg, c, d);
      if emitted <= rest {
        var rest2 := rest[|emitted|..];
        assert rest == emitted + rest2;
        StepsSkipEmissions(cfg, emitted, rest2);
        if rest2 != [] && IsHandlerEmission(rest2[0]) {
          assert Follows(cfg, c2, rest2).Err?;
        }
      }
    }
  }

  lemma {:induction false} InputsOfBlock(em: seq<EventKind>, rest: seq<EventKind>)
    requires forall e :: e in em ==> !IsInput(e)
    ensures Inputs(em + rest) == Inputs(rest)
  {
    if em == [] {
      assert em + rest == rest;
    } else {
      assert em[0] in em;
      assert (em + rest)[1..] == em[1..] + rest;
      InputsOfBlock(em[1..], rest);
    }
  }

  /** One block of a trace: an input, what it emits, and the rest. */
  lemma InputsUnfold(trace: seq<EventKind>, em: seq<EventKind>)
    requires trace != [] && IsInput(trace[0]) && em <= trace[1..]
    requires forall e :: e in em ==> !IsInput(e)
    ensures Inputs(trace) == [trace[0]] + Inputs(trace[1..][|em|..])
    ensures trace == [trace[0]] + em + trace[1..][|em|..]
  {
    assert trace[1..] == em + trace[1..][|em|..];
    InputsOfBlock(em, trace[1..][|em|..]);
  }

  lemma {:induction false} FollowsThenRun(cfg: Config, c: Core, trace: seq<EventKind>)
    requires Follows(cfg, c, trace).Ok?
    ensures Run(cfg, c, Inputs(trace)) == Ok(Move(Follows(cfg, c, trace).value, trace))
    decreases |trace|
  {
    if trace != [] {
      var m := CoreStep(cfg, c, trace[0]).value;
      var rest := trace[1..][|m.events|..];
      EmittedAreEmissions(cfg, c, trace[0]);
      InputsUnfold(trace, m.events);
      FollowsThenRun(cfg, m.core, rest);
      assert Inputs(trace)[1..] == Inputs(rest);
    }
  }

  /** The machine follows an input, its emissions and whatever it follows afterwards. */
  lemma FollowsBlock(cfg: Config, c: Core, ev: EventKind, rest: seq<EventKind>)
    requires CoreStep(cfg, c, ev).Ok?
    ensures var m := CoreStep(cfg, c, ev).value;
            Follows(cfg, c, [ev] + m.events + rest) == Follows(cfg, m.core, rest)
  {
    var m := CoreStep(cfg, c, ev).value;
    var trace := [ev] + m.events + rest;
    assert trace[0] == ev && trace[1..] == m.events + rest;
    assert trace[1..][|m.events|..] == rest;
  }

  lemma {:induction false} RunThenFollows(cfg: Config, c: Core, inputs: seq<EventKind>)
    requires Run(cfg, c, inputs).Ok?
    ensures Follows(cfg, c, Run(cfg, c, inputs).value.events) == Ok(Run(cfg, c, inputs).value.core)
    decreases |inputs|
  {
    if inputs != [] {
      var m := CoreStep(cfg, c, inputs[0]).value;
      RunThenFollows(cfg, m.core, inputs[1..]);
      FollowsBlock(cfg, c, inputs[0], Run(cfg, m.core, inputs[1..]).value.events);
    }
  }

  /** A trace the machine follows is the trace it makes of the trace's own inputs, and conversely. */
  lemma FollowsIsRun(cfg: Config, c: Core, trace: seq<EventKind>, end: Core)
    ensures Follows(cfg, c, trace) == Ok(end) <==> Run(cfg, c, Inputs(trace)) == Ok(Move(end, trace))
  {
    if Follows(cfg, c, trace).Ok? { FollowsThenRun(cfg, c, trace); }
    if Run(cfg, c, Inputs(trace)) == Ok(Move(end, trace)) { RunThenFollows(cfg, c, Inputs(trace)); }
  }

  /** The events of a run that follow its start-up block. */
  function AfterStartup(boot: Boot, trace: seq<EventKind>): seq<EventKind> {
    if boot.events <= trace then trace[|boot.events|..] else []
  }

  /** Checking the start-up block and then stepping is following the machine after that block. */
  lemma ReplayAfterStartup(cfg: Config, trace: seq<EventKind>, steps: nat, boot: Boot)
    requires Startup(cfg) == Ok(boot)
    ensures var rest := AfterStartup(boot, trace); var c := Core(boot.sys, []);
            Replay(cfg, trace, steps) ==
              if boot.events <= trace && Follows(cfg, c, rest).Ok? then ReplaySteps(cfg, c, rest, steps)
              else Replay(cfg, trace, steps)
    ensures Replay(cfg, trace, steps).Ok? ==>
              boot.events <= trace && Follows(cfg, Core(boot.sys, []), AfterStartup(boot, trace)).Ok?
  {
    var c := Core(boot.sys, []);
    if boot.events <= trace {
      var rest := trace[|boot.events|..];
      if rest != [] && IsHandlerEmission(rest[0]) { assert Follows(cfg, c, rest).Err?; }
      ReplayStepsExact(cfg, c, rest, steps);
    }
  }

  /** Replay accepts a trace exactly when it is the start-up block followed by the trace the machine
      makes of the inputs in it, no inbox is left with messages, and the steps suffice. */
  lemma ReplayExact(cfg: Config, trace: seq<EventKind>, steps: nat, end: Core)
    ensures Replay(cfg, trace, steps) == Ok(end) <==>
              && Startup(cfg).Ok?
              && var boot := Startup(cfg).value;
                 var rest := AfterStartup(boot, trace);
                 && boot.events <= trace
                 && Run(cfg, Core(boot.sys, []), Inputs(rest)) == Ok(Move(end, rest))
                 && InboxesEmpty(end.sys.actors)
                 && StepsNeeded(cfg, rest) <= steps
  {
    if Startup(cfg).Ok? {
      var boot := Startup(cfg).value;
      var rest := AfterStartup(boot, trace);
      FollowsIsRun(cfg, Core(boot.sys, []), rest, end);
      ReplayStepsExact(cfg, Core(boot.sys, []), rest, steps);
      ReplayAfterStartup(cfg, trace, steps, boot);
    }
  }

  lemma AcceptedIsRun(cfg: Config, trace: seq<EventKind>, steps: nat)
    requires Replay(cfg, trace, steps).Ok?
    ensures Startup(cfg).Ok?
    ensures Run(cfg, Core(Startup(cfg).value.sys, []), Inputs(trace)).Ok?
    ensures var m := Run(cfg, Core(Startup(cfg).value.sys, []), Inputs(trace)).value;
            trace == Startup(cfg).value.events + m.events && Replay(cfg, trace, steps) == Ok(m.core)
  {
    var boot := Startup(cfg).value;
    var rest := AfterStartup(boot, trace);
    ReplayExact(cfg, trace, steps, Replay(cfg, trace, steps).value);
    StartupHasNoInputs(cfg);
    assert trace == boot.events + rest;
    InputsOfBlock(boot.events, rest);
  }

  /** Replay leaves no freedom in what a node emits: two accepted traces with the same deliveries,
      network receipts, timer firings and fault events are the same trace and end in the same state. */
  lemma ReplayDeterminesTrace(cfg: Config, t1: seq<EventKind>, t2: seq<EventKind>, n1: nat, n2: nat)
    requires Replay(cfg, t1, n1).Ok? && Replay(cfg, t2, n2).Ok?
    requires Inputs(t1) == Inputs(t2)
    ensures t1 == t2 && Replay(cfg, t1, n1) == Replay(cfg, t2, n2)
  {
    AcceptedIsRun(cfg, t1, n1);
    AcceptedIsRun(cfg, t2, n2);
  }

  lemma StartupHasNoInputs(cfg: Config)
    requires Startup(cfg).Ok?
    ensures forall e :: e in Startup(cfg).value.events ==> !IsInput(e)
  {
    SpawnsAreNotInputs(cfg, |cfg.program.services|);
    BootstrapHasNoInputs(cfg, cfg.actorOf[EntryService(cfg)], BootstrapCount(cfg));
  }

  lemma {:induction false} SpawnsAreNotInputs(cfg: Config, n: nat)
    requires n <= |cfg.program.services|
    ensures forall e :: e in SpawnEvents(cfg, n) ==> e.Spawn?
  {
    if n > 0 { SpawnsAreNotInputs(cfg, n - 1); }
  }

  lemma {:induction false} BootstrapHasNoInputs(cfg: Config, entry: Uuid, n: nat)
    requires |cfg.program.services| > 0 && Bootstrap(cfg, entry, n).Ok?
    ensures forall e :: e in Bootstrap(cfg, entry, n).value.events ==> e.Send?
  {
    if n > 0 { BootstrapHasNoInputs(cfg, entry, n - 1); }
  }
}
