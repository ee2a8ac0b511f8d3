/** Record mode as functions: one iteration of the step loop, and a whole run. */
module RecordSpec {
  import opened Base
  import opened Sorting
  import opened Events
  import opened Interp
  import opened Faults
  import opened InjectorSpec
  import opened Node

  datatype PendingTimer = PendingTimer(dueStep: U64, core: TimerCore)

  datatype RecState = RecState(sys: Sys, timers: seq<PendingTimer>, inj: Injector)

  datatype RecMove = RecMove(state: RecState, events: seq<EventKind>)

  function PushAll(actors: map<Uuid, Actor>, envs: seq<WireEnvelope>): map<Uuid, Actor>
    decreases |envs|
  {
    if envs == [] then actors
    else PushAll(Push(actors, envs[0].toActor, Entry(envs[0].msgId, envs[0].payload)), envs[1..])
  }

  function TimerKey(t: PendingTimer): int { t.core.id }

  function Due(ts: seq<PendingTimer>, step: U64): seq<PendingTimer> {
    if ts == [] then []
    else if ts[0].dueStep <= step then [ts[0]] + Due(ts[1..], step)
    else Due(ts[1..], step)
  }

  function NotDue(ts: seq<PendingTimer>, step: U64): seq<PendingTimer> {
    if ts == [] then []
    else if ts[0].dueStep <= step then NotDue(ts[1..], step)
    else [ts[0]] + NotDue(ts[1..], step)
  }

  datatype Fired = Fired(sys: Sys, events: seq<EventKind>)

  function FireAll(cfg: Config, s: Sys, due: seq<PendingTimer>): Result<Fired>
    decreases |due|
  {
    if due == [] then Ok(Fired(s, []))
    else
      var t := due[0].core;
      var (s1, sent) :- Dispatch(cfg, s, t.from, t.target, t.payload);
      var rest :- FireAll(cfg, s1, due[1..]);
      Ok(Fired(rest.sys, [TimerFired(cfg.node, t.from, t.id), sent] + rest.events))
  }

  function ReadyActors(actors: map<Uuid, Actor>): set<Uuid> {
    set a | a in actors && actors[a].inbox != []
  }

  /** The delivery the scheduler picks: all candidates are of this node and there is one per actor,
      so the least one is that of the least actor. */
  function LeastReady(actors: map<Uuid, Actor>): (r: Option<Uuid>)
    ensures r.None? <==> InboxesEmpty(actors)
    ensures r.Some? ==> r.value in actors && actors[r.value].inbox != []
  {
    var ready := ReadyActors(actors);
    if ready == {} then
      assert forall a :: a in actors && actors[a].inbox != [] ==> a in ready;
      None
    else
      LeastExists(ready);
      var least :| IsLeast(least, ready);
      assert least in ready;
      Some(least)
  }

  function Schedule(ts: seq<NewTimer>, step: U64): (r: seq<PendingTimer>)
    ensures |r| == |ts|
  {
    if ts == [] then [] else [PendingTimer(SatAdd(step, ts[0].delay), ts[0].core)] + Schedule(ts[1..], step)
  }

  /** Delivers to the chosen actor, if there is one. */
  function DeliverNext(cfg: Config, r: RecState, step: U64): Result<RecMove> {
    match LeastReady(r.sys.actors)
    case None => Ok(RecMove(r, []))
    case Some(to) =>
      var p :- Pop(r.sys, to);
      var h :- Handle(cfg, p.sys, to, p.entry);
      Ok(RecMove(r.(sys := h.sys, timers := r.timers + Schedule(h.timers, step)),
                 [Deliver(cfg.node, to, p.entry.id)] + h.emitted))
  }

  function FireDue(cfg: Config, r: RecState, step: U64): Result<RecMove> {
    var f :- FireAll(cfg, r.sys, SortBy(TimerKey, Due(r.timers, step)));
    Ok(RecMove(r.(sys := f.sys, timers := NotDue(r.timers, step)), f.events))
  }

  function DrainStep(cfg: Config, r: RecState, step: U64, arrivals: seq<WireEnvelope>): RecMove {
    var d := Drain(r.inj, cfg.node, step, arrivals);
    RecMove(r.(sys := r.sys.(actors := PushAll(r.sys.actors, d.released)), inj := d.inj),
            d.events + RecvEvents(d.released))
  }

  function RecordStep(cfg: Config, r: RecState, step: U64, arrivals: seq<WireEnvelope>): Result<RecMove> {
    var d := DrainStep(cfg, r, step, arrivals);
    var f :- FireDue(cfg, d.state, step);
    var h :- DeliverNext(cfg, f.state, step);
    Ok(RecMove(h.state, d.events + f.events + h.events))
  }

  /** The first `n` steps; `arrivals[k]` is what the inbound channel yields during step k. */
  function RecordSteps(cfg: Config, r: RecState, arrivals: seq<seq<WireEnvelope>>, n: nat): Result<RecMove>
    requires n <= |arrivals| <= U64_MAX
  {
    if n == 0 then Ok(RecMove(r, []))
    else
      var before :- RecordSteps(cfg, r, arrivals, n - 1);
      var m :- RecordStep(cfg, before.state, n - 1, arrivals[n - 1]);
      Ok(RecMove(m.state, before.events + m.events))
  }

  /** A whole record run of `|arrivals|` steps: the final state and the events written. */
  function Record(cfg: Config, settings: Settings, arrivals: seq<seq<WireEnvelope>>): Result<RecMove>
    requires |arrivals| <= U64_MAX
  {
    var boot :- Startup(cfg);
    var m :- RecordSteps(cfg, RecState(boot.sys, [], NewInjector(settings)), arrivals, |arrivals|);
    Ok(RecMove(m.state, boot.events + m.events))
  }
}
