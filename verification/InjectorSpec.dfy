/** The fault injector as functions on values. */
module InjectorSpec {
  import opened Base
  import opened Events
  import opened Faults

  datatype Staged = Staged(env: WireEnvelope, releaseStep: U64)

  datatype Injector = Injector(
    settings: Settings,
    seen: U64,
    active: Policy,
    initialized: bool,
    reorderBuf: seq<Staged>,
    pending: seq<Staged>)

  datatype Moved = Moved(inj: Injector, events: seq<EventKind>)

  function NewInjector(settings: Settings): Injector {
    Injector(settings, 0, PolicyForStep(settings, 0), false, [], [])
  }

  function PolicyEvent(node: Uuid, step: U64, p: Policy): EventKind {
    FaultPolicyEvent(node, step, p.dropEvery, p.delaySteps, p.reorderWindow)
  }

  function FaultEvent(node: Uuid, env: WireEnvelope, action: FaultAction): EventKind {
    FaultInjected(node, env.fromNode, env.toActor, env.msgId, action)
  }

  function ReorderEvents(node: Uuid, chunk: seq<Staged>, window: U64): (r: seq<EventKind>)
    ensures |r| == |chunk|
  {
    if chunk == [] then []
    else [FaultEvent(node, chunk[0].env, Reorder(window))] + ReorderEvents(node, chunk[1..], window)
  }

  function Reverse<T>(s: seq<T>): (r: seq<T>)
    ensures |r| == |s|
  {
    if s == [] then [] else Reverse(s[1..]) + [s[0]]
  }

  /** `flush_chunk`. */
  function FlushChunk(inj: Injector, node: Uuid, window: U64): Moved {
    if inj.reorderBuf == [] then Moved(inj, [])
    else
      var take := if window <= |inj.reorderBuf| then window else |inj.reorderBuf|;
      var chunk := inj.reorderBuf[..take];
      Moved(inj.(reorderBuf := inj.reorderBuf[take..], pending := inj.pending + Reverse(chunk)),
            if take > 1 then ReorderEvents(node, chunk, window) else [])
  }

  function FlushRemainder(inj: Injector, node: Uuid, window: U64): Moved {
    if window <= 1 then Moved(inj, []) else FlushChunk(inj, node, window)
  }

  /** `sync_policy`. */
  function SyncPolicy(inj: Injector, node: Uuid, step: U64): Moved {
    var next := PolicyForStep(inj.settings, step);
    if !inj.initialized then Moved(inj.(active := next, initialized := true), [PolicyEvent(node, step, next)])
    else if next == inj.active then Moved(inj, [])
    else
      var f := FlushRemainder(inj, node, inj.active.reorderWindow);
      Moved(f.inj.(active := next), f.events + [PolicyEvent(node, step, next)])
  }

  /** The loop of `ingest` that flushes full chunks. */
  function FlushFull(inj: Injector, node: Uuid, window: U64): Moved
    requires window > 0
    decreases |inj.reorderBuf|
  {
    if |inj.reorderBuf| < window then Moved(inj, [])
    else
      var f := FlushChunk(inj, node, window);
      var rest := FlushFull(f.inj, node, window);
      Moved(rest.inj, f.events + rest.events)
  }

  predicate DropsNth(p: Policy, n: nat) {
    p.dropEvery.Some? && p.dropEvery.value > 0 && n % p.dropEvery.value == 0
  }

  function WrapInc(n: U64): U64 {
    if n == U64_MAX then 0 else n + 1
  }

  /** `ingest` after its call of `sync_policy`. */
  function Admit(inj: Injector, node: Uuid, step: U64, env: WireEnvelope): Moved {
    var p := inj.active;
    var counted := inj.(seen := WrapInc(inj.seen));
    if DropsNth(p, counted.seen) then Moved(counted, [FaultEvent(node, env, Drop)])
    else
      var staged := Staged(env, SatAdd(step, p.delaySteps));
      var delayed := if p.delaySteps > 0 then [FaultEvent(node, env, Delay(p.delaySteps))] else [];
      if p.reorderWindow <= 1 then Moved(counted.(pending := counted.pending + [staged]), delayed)
      else
        var f := FlushFull(counted.(reorderBuf := counted.reorderBuf + [staged]), node, p.reorderWindow);
        Moved(f.inj, delayed + f.events)
  }

  function Ingest(inj: Injector, node: Uuid, step: U64, env: WireEnvelope): Moved {
    var s := SyncPolicy(inj, node, step);
    var a := Admit(s.inj, node, step, env);
    Moved(a.inj, s.events + a.events)
  }

  /** The arrivals of one step, in order; envelopes for other nodes are ignored. */
  function IngestAll(inj: Injector, node: Uuid, step: U64, arrivals: seq<WireEnvelope>): Moved
    decreases |arrivals|
  {
    if arrivals == [] then Moved(inj, [])
    else
      var last := arrivals[|arrivals| - 1];
      var before := IngestAll(inj, node, step, arrivals[..|arrivals| - 1]);
      if last.toNode != node then before
      else
        var m := Ingest(before.inj, node, step, last);
        Moved(m.inj, before.events + m.events)
  }

  /** How many envelopes at the head of `pending` are due. */
  function DueCount(pending: seq<Staged>, step: U64): (n: nat)
    ensures n <= |pending|
  {
    if pending == [] || pending[0].releaseStep > step then 0 else 1 + DueCount(pending[1..], step)
  }

  function Envelopes(s: seq<Staged>): (r: seq<WireEnvelope>)
    ensures |r| == |s|
  {
    if s == [] then [] else [s[0].env] + Envelopes(s[1..])
  }

  lemma {:induction false} DueCountMeans(pending: seq<Staged>, step: U64)
    ensures var n := DueCount(pending, step);
            && (forall i :: 0 <= i < n ==> pending[i].releaseStep <= step)
            && (n < |pending| ==> pending[n].releaseStep > step)
  {
    if pending != [] && pending[0].releaseStep <= step { DueCountMeans(pending[1..], step); }
  }

  datatype Drained = Drained(inj: Injector, events: seq<EventKind>, released: seq<WireEnvelope>)

  /** One call of `drain_network` up to the release of due envelopes. */
  function Drain(inj: Injector, node: Uuid, step: U64, arrivals: seq<WireEnvelope>): Drained {
    var s := SyncPolicy(inj, node, step);
    var a := IngestAll(s.inj, node, step, arrivals);
    var f := FlushRemainder(a.inj, node, a.inj.active.reorderWindow);
    var due := DueCount(f.inj.pending, step);
    Drained(f.inj.(pending := f.inj.pending[due..]), s.events + a.events + f.events,
            Envelopes(f.inj.pending[..due]))
  }

  function RecvEvents(envs: seq<WireEnvelope>): (r: seq<EventKind>)
    ensures |r| == |envs|
    ensures forall i :: 0 <= i < |envs| ==>
              r[i] == NetRecv(envs[i].toNode, envs[i].fromNode, envs[i].toActor, envs[i].msgId, envs[i].payload)
  {
    if envs == [] then []
    else [NetRecv(envs[0].toNode, envs[0].fromNode, envs[0].toActor, envs[0].msgId, envs[0].payload)] + RecvEvents(envs[1..])
  }
}
