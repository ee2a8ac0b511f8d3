/** What a replay does with each event of a trace, and with which error it refuses one. */
module ReplayMeaning {
  import opened Base
  import opened Events
  import opened Interp
  import opened Node
  import opened ReplaySpec

  /** Events of other nodes, and events about faults: a replay passes over them. */
  predicate OfNoConcern(cfg: Config, ev: EventKind) {
    match ev
    case NetRecv(node, _, _, _, _) => node != cfg.node
    case Deliver(node, _, _) => node != cfg.node
    case TimerFired(node, _, _) => node != cfg.node
    case FaultInjected(_, _, _, _, _) => true
    case FaultPolicyEvent(_, _, _, _, _) => true
    case _ => false
  }

  /** With iterations left, the loop goes on as far as the next delivery. */
  lemma SameAdvance(cfg: Config, c1: Core, rem1: seq<EventKind>, c2: Core, rem2: seq<EventKind>, steps: nat)
    requires steps > 0 && NextDelivery(cfg, c1, rem1) == NextDelivery(cfg, c2, rem2)
    ensures ReplaySteps(cfg, c1, rem1, steps) == ReplaySteps(cfg, c2, rem2, steps)
  {
    hide NextDelivery;
    hide CoreStep;
    hide VerifyEmits;
    hide DrainInbound;
    DrainThenNext(cfg, c1, rem1);
    DrainThenNext(cfg, c2, rem2);
  }

  lemma Refused(cfg: Config, c: Core, rem: seq<EventKind>, steps: nat)
    requires steps > 0 && NextDelivery(cfg, c, rem).Err?
    ensures ReplaySteps(cfg, c, rem, steps) == Err(NextDelivery(cfg, c, rem).error)
  {
    hide NextDelivery;
    hide CoreStep;
    hide VerifyEmits;
    hide DrainInbound;
    DrainThenNext(cfg, c, rem);
  }

  lemma HeadAndRest(ev: EventKind, rest: seq<EventKind>)
    ensures ([ev] + rest)[0] == ev && ([ev] + rest)[1..] == rest && |[ev] + rest| == 1 + |rest|
    ensures rest[0..] == rest && [] <= rest
  {
  }

  lemma PassedOver(cfg: Config, c: Core, ev: EventKind, rest: seq<EventKind>, steps: nat)
    requires OfNoConcern(cfg, ev) && steps > 0
    ensures ReplaySteps(cfg, c, [ev] + rest, steps) == ReplaySteps(cfg, c, rest, steps)
  {
    HeadAndRest(ev, rest);
    SameAdvance(cfg, c, [ev] + rest, c, rest, steps);
  }

  /** A message received goes to the end of its actor's inbox, and nowhere if there is no such actor. */
  lemma ReceiptReplayed(cfg: Config, c: Core, ev: EventKind, rest: seq<EventKind>, steps: nat, received: map<Uuid, Actor>)
    requires ev.NetRecv? && ev.node == cfg.node && steps > 0 && received.Keys == c.sys.actors.Keys
    requires forall a :: a in received ==>
               received[a] == if a == ev.to then c.sys.actors[a].(inbox := c.sys.actors[a].inbox + [Entry(ev.msgId, ev.payload)])
                              else c.sys.actors[a]
    ensures ReplaySteps(cfg, c, [ev] + rest, steps) == ReplaySteps(cfg, c.(sys := c.sys.(actors := received)), rest, steps)
  {
    HeadAndRest(ev, rest);
    assert Push(c.sys.actors, ev.to, Entry(ev.msgId, ev.payload)) == received;
    SameAdvance(cfg, c, [ev] + rest, c.(sys := c.sys.(actors := received)), rest, steps);
  }

  /** What only a node itself can make is refused where no input has announced it. */
  lemma EmissionRefused(cfg: Config, c: Core, ev: EventKind, rest: seq<EventKind>, steps: nat)
    requires ev.Spawn? || ev.Send? || ev.NetSend? || ev.LogLine? || ev.EffectObserved?
    requires steps > 0
    ensures ReplaySteps(cfg, c, [ev] + rest, steps) == Err(UnexpectedEmission)
  {
    HeadAndRest(ev, rest);
    Refused(cfg, c, [ev] + rest, steps);
  }

  predicate IsPending(c: Core, i: nat, from: Uuid, id: Uuid) {
    i < |c.timers| && c.timers[i].from == from && c.timers[i].id == id
  }

  /** A firing needs a pending timer with that id and actor. */
  lemma FiringRefused(cfg: Config, c: Core, ev: EventKind, rest: seq<EventKind>, steps: nat)
    requires ev.TimerFired? && ev.node == cfg.node && steps > 0
    requires forall i :: 0 <= i < |c.timers| ==> !IsPending(c, i, ev.from, ev.timerId)
    ensures ReplaySteps(cfg, c, [ev] + rest, steps) == Err(UnknownTimer(ev.timerId))
  {
    HeadAndRest(ev, rest);
    var i := FindTimer(c.timers, ev.from, ev.timerId);
    assert i < |c.timers| ==> IsPending(c, i, ev.from, ev.timerId);
    Refused(cfg, c, [ev] + rest, steps);
  }

  /** The first such timer is taken out and its message sent; the trace has to go on with exactly that
      event. */
  lemma FiringReplayed(cfg: Config, c: Core, ev: EventKind, rest: seq<EventKind>, steps: nat, i: nat)
    requires ev.TimerFired? && ev.node == cfg.node && steps > 0
    requires IsPending(c, i, ev.from, ev.timerId) && forall j :: 0 <= j < i ==> !IsPending(c, j, ev.from, ev.timerId)
    ensures var r, d := ReplaySteps(cfg, c, [ev] + rest, steps), Dispatch(cfg, c.sys, ev.from, c.timers[i].target, c.timers[i].payload);
            if d.Err? then r == Err(d.error)
            else if rest == [] then r == Err(TraceEnded)
            else if rest[0] != d.value.1 then r == Err(EmissionMismatch)
            else r == ReplaySteps(cfg, Core(d.value.0, SwapRemove(c.timers, i)), rest[1..], steps)
  {
    hide Dispatch;
    hide ReplaySteps;
    HeadAndRest(ev, rest);
    var k := FindTimer(c.timers, ev.from, ev.timerId);
    assert k < |c.timers| ==> IsPending(c, k, ev.from, ev.timerId);
    hide FindTimer;
    var d := Dispatch(cfg, c.sys, ev.from, c.timers[i].target, c.timers[i].payload);
    if d.Err? || rest == [] || rest[0] != d.value.1 {
      Refused(cfg, c, [ev] + rest, steps);
    } else {
      assert [d.value.1] <= rest && rest[|[d.value.1]|..] == rest[1..];
      SameAdvance(cfg, c, [ev] + rest, Core(d.value.0, SwapRemove(c.timers, i)), rest[1..], steps);
    }
  }

  /** What a delivery to this node needs, and what it takes from the inbox. */
  lemma DeliveryReplayed(cfg: Config, c: Core, ev: EventKind, rest: seq<EventKind>, steps: nat)
    requires ev.Deliver? && ev.node == cfg.node && steps > 0
    ensures var r := ReplaySteps(cfg, c, [ev] + rest, steps);
            if ev.to !in c.sys.actors then r == Err(ActorMissing(ev.to))
            else if c.sys.actors[ev.to].inbox == [] then r == Err(EmptyInbox(ev.to))
            else
              var a := c.sys.actors[ev.to];
              var head := a.inbox[0];
              if head.id != ev.msgId then r == Err(MsgIdMismatch(ev.msgId, head.id))
              else
                match Handle(cfg, c.sys.(actors := c.sys.actors[ev.to := a.(inbox := a.inbox[1..])]), ev.to, head)
                case Err(e) => r == Err(e)
                case Ok(h) =>
                  if !(h.emitted <= rest) then r == Err(EmissionMismatch)
                  else if |rest| > |h.emitted| && (var next := rest[|h.emitted|]; next.Send? || next.NetSend? || next.LogLine? || next.EffectObserved?)
                  then r == Err(UnexpectedEmission)
                  else r == ReplaySteps(cfg, Core(h.sys, c.timers + Cores(h.timers)), rest[|h.emitted|..], steps - 1)
  {
    hide Handle;
    HeadAndRest(ev, rest);
    DrainThenNext(cfg, c, [ev] + rest);
    assert NextDelivery(cfg, c, [ev] + rest) == Ok(Advance(Some(ev), c, rest));
    DeliveryChecked(cfg, c, [ev] + rest, ev, rest, steps);
  }

  lemma DeliveryChecked(cfg: Config, c: Core, rem: seq<EventKind>, ev: EventKind, rest: seq<EventKind>, steps: nat)
    requires steps > 0 && NextDelivery(cfg, c, rem) == Ok(Advance(Some(ev), c, rest))
    ensures ReplaySteps(cfg, c, rem, steps) ==
            match CoreStep(cfg, c, ev)
            case Err(e) => Err(e)
            case Ok(m) =>
              match VerifyEmits(rest, m.events)
              case Err(e) => Err(e)
              case Ok(rem2) => ReplaySteps(cfg, m.core, rem2, steps - 1)
  {
    hide NextDelivery;
    hide CoreStep;
    hide VerifyEmits;
    hide DrainInbound;
    DrainThenNext(cfg, c, rem);
  }

  /** A replay ends when the trace does, or when its iterations are used up. */
  lemma EndReplayed(cfg: Config, c: Core, rem: seq<EventKind>, steps: nat)
    requires rem == [] || steps == 0
    ensures ReplaySteps(cfg, c, rem, steps) ==
            if rem != [] then Err(StoppedEarly)
            else if exists a :: a in c.sys.actors && c.sys.actors[a].inbox != [] then Err(UndeliveredInbox)
            else Ok(c)
  {
    if steps > 0 { DrainThenNext(cfg, c, rem); }
  }

  /** A trace that the machine can follow is accepted, or refused for one of two reasons: too few
      iterations, which goes first, and messages left over. */
  lemma {:induction false} VerdictOnFollowed(cfg: Config, c: Core, rem: seq<EventKind>, steps: nat, end: Core)
    requires Follows(cfg, c, rem) == Ok(end)
    ensures ReplaySteps(cfg, c, rem, steps) ==
            if StepsNeeded(cfg, rem) > steps then Err(StoppedEarly)
            else if !InboxesEmpty(end.sys.actors) then Err(UndeliveredInbox)
            else Ok(end)
    decreases steps
  {
    hide CoreStep;
    if steps == 0 {
      if rem != [] { EmittedAreEmissions(cfg, c, rem[0]); FollowedNeedsSteps(cfg, c, rem); }
    } else {
      NextDeliveryFollows(cfg, c, rem);
      var adv := NextDelivery(cfg, c, rem).value;
      DrainThenNext(cfg, c, rem);
      if adv.delivery.Some? {
        var d, rest := adv.delivery.value, adv.rest;
        AfterDelivery(cfg, adv.core, d, rest);
        var m := CoreStep(cfg, adv.core, d).value;
        var rem2 := VerifyEmits(rest, m.events).value;
        VerdictOnFollowed(cfg, m.core, rem2, steps - 1, end);
      }
    }
  }

  lemma FollowedNeedsSteps(cfg: Config, c: Core, rem: seq<EventKind>)
    requires rem != [] && Follows(cfg, c, rem).Ok?
    ensures StepsNeeded(cfg, rem) > 0
  {
    EmittedAreEmissions(cfg, c, rem[0]);
  }

  /** A trace that does not begin with the node's start-up is refused at once. */
  lemma StartRefused(cfg: Config, trace: seq<EventKind>, steps: nat, boot: Boot)
    requires Startup(cfg) == Ok(boot)
    ensures !(boot.events <= trace) ==> Replay(cfg, trace, steps) == Err(EmissionMismatch)
    ensures boot.events < trace && (var next := trace[|boot.events|]; next.Send? || next.NetSend? || next.LogLine? || next.EffectObserved?) ==>
              Replay(cfg, trace, steps) == Err(UnexpectedEmission)
    ensures boot.events == trace ==> Replay(cfg, trace, steps) == ReplaySteps(cfg, Core(boot.sys, []), [], steps)
    ensures boot.events < trace && (var next := trace[|boot.events|]; next.Spawn? || IsInput(next)) ==>
              Replay(cfg, trace, steps) == ReplaySteps(cfg, Core(boot.sys, []), trace[|boot.events|..], steps)
  {
    hide ReplaySteps;
    hide Startup;
    assert boot.events == trace ==> trace[|boot.events|..] == [];
  }
}
