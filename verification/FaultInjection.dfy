/** The fault injector as the runtime runs it: a buffer updated in place that writes the trace. */
module FaultInjection {
  import opened Base
  import opened Events
  import opened TraceFile
  import opened Faults
  import opened InjectorSpec

  lemma {:induction false} PolicyAmongSnoc(base: Policy, front: seq<Phase>, p: Phase, step: U64)
    ensures PolicyAmong(base, front + [p], step) == if IsActive(p, step) then p.policy else PolicyAmong(base, front, step)
  {
    assert (front + [p])[..|front|] == front;
  }

  /** `policy_for_step`: the last active phase in the list wins. */
  method FindPolicy(s: Settings, step: U64) returns (p: Policy)
    ensures p == PolicyForStep(s, step)
  {
    p := s.base;
    for i := 0 to |s.phases|
      invariant p == PolicyAmong(s.base, s.phases[..i], step)
    {
      PolicyAmongSnoc(s.base, s.phases[..i], s.phases[i], step);
      assert s.phases[..i + 1] == s.phases[..i] + [s.phases[i]];
      if IsActive(s.phases[i], step) {
        p := s.phases[i].policy;
      }
    }
    assert s.phases[..|s.phases|] == s.phases;
  }

  lemma ReverseShort<T>(s: seq<T>)
    requires |s| <= 1
    ensures Reverse(s) == s
  {
    if s != [] { assert Reverse(s[1..]) == []; }
  }

  lemma NoReorderEvents(node: Uuid, s: seq<Staged>, window: U64)
    ensures ReorderEvents(node, s[..0], window) == []
  {
  }

  lemma {:induction false} ReorderEventsSnoc(node: Uuid, s: seq<Staged>, x: Staged, window: U64)
    ensures ReorderEvents(node, s + [x], window) == ReorderEvents(node, s, window) + [FaultEvent(node, x.env, Reorder(window))]
  {
    if s != [] {
      assert (s + [x])[1..] == s[1..] + [x];
      ReorderEventsSnoc(node, s[1..], x, window);
    }
  }

  lemma FlushShrinks(inj: Injector, node: Uuid, window: U64)
    requires 0 < window <= |inj.reorderBuf|
    ensures |InjectorSpec.FlushChunk(inj, node, window).inj.reorderBuf| < |inj.reorderBuf|
    ensures InjectorSpec.FlushChunk(inj, node, window).inj.active == inj.active
    ensures InjectorSpec.FlushChunk(inj, node, window).inj.settings == inj.settings
  {
  }

  class FaultInjector {
    const settings: Settings
    var seenInbound: U64
    var activePolicy: Policy
    var policyInitialized: bool
    var reorderBuf: seq<Staged>
    var pending: seq<Staged>

    /** The injector's state as a value. */
    function State(): Injector
      reads this
    {
      Injector(settings, seenInbound, activePolicy, policyInitialized, reorderBuf, pending)
    }

    constructor (s: Settings)
      ensures State() == NewInjector(s)
    {
      var p := FindPolicy(s, 0);
      settings := s;
      seenInbound := 0;
      activePolicy := p;
      policyInitialized := false;
      reorderBuf := [];
      pending := [];
    }

    method RecordPolicyEvent(node: Uuid, step: U64, w: TraceWriter)
      requires w.Valid()
      modifies w
      ensures w.Valid() && w.kinds == old(w.kinds) + [PolicyEvent(node, step, activePolicy)]
    {
      w.RecordEvent(FaultPolicyEvent(node, step, activePolicy.dropEvery, activePolicy.delaySteps, activePolicy.reorderWindow));
    }

    method FlushChunk(node: Uuid, window: U64, w: TraceWriter)
      requires w.Valid()
      modifies this`reorderBuf, this`pending, w
      ensures w.Valid()
      ensures var m := InjectorSpec.FlushChunk(old(State()), node, window);
              State() == m.inj && w.kinds == old(w.kinds) + m.events
    {
      hide StampAll;
      hide SeqNo;
      hide Reverse;
      hide ReorderEvents;
      if reorderBuf == [] {
        return;
      }
      var take := if window <= |reorderBuf| then window else |reorderBuf|;
      var chunk := reorderBuf[..take];
      reorderBuf := reorderBuf[take..];
      if |chunk| > 1 {
        NoReorderEvents(node, chunk, window);
        for i := 0 to |chunk|
          modifies w
          invariant w.Valid() && w.kinds == old(w.kinds) + ReorderEvents(node, chunk[..i], window)
        {
          ReorderEventsSnoc(node, chunk[..i], chunk[i], window);
          assert chunk[..i + 1] == chunk[..i] + [chunk[i]];
          w.RecordEvent(FaultInjected(node, chunk[i].env.fromNode, chunk[i].env.toActor, chunk[i].env.msgId, Reorder(window)));
        }
        assert chunk[..|chunk|] == chunk;
        chunk := Reverse(chunk);
      } else {
        ReverseShort(chunk);
      }
      for i := 0 to |chunk|
        modifies this`pending
        invariant pending == old(pending) + chunk[..i]
      {
        pending := pending + [chunk[i]];
      }
      assert chunk[..|chunk|] == chunk;
    }

    method FlushRemainderWithWindow(node: Uuid, window: U64, w: TraceWriter)
      requires w.Valid()
      modifies this`reorderBuf, this`pending, w
      ensures w.Valid()
      ensures var m := InjectorSpec.FlushRemainder(old(State()), node, window);
              State() == m.inj && w.kinds == old(w.kinds) + m.events
    {
      if window <= 1 {
        return;
      }
      if reorderBuf == [] {
        return;
      }
      FlushChunk(node, window, w);
    }

    method FlushRemainder(node: Uuid, w: TraceWriter)
      requires w.Valid()
      modifies this`reorderBuf, this`pending, w
      ensures w.Valid()
      ensures var m := InjectorSpec.FlushRemainder(old(State()), node, old(activePolicy.reorderWindow));
              State() == m.inj && w.kinds == old(w.kinds) + m.events
    {
      FlushRemainderWithWindow(node, activePolicy.reorderWindow, w);
    }

    method SyncPolicy(node: Uuid, step: U64, w: TraceWriter)
      requires w.Valid()
      modifies this, w
      ensures w.Valid()
      ensures var m := InjectorSpec.SyncPolicy(old(State()), node, step);
              State() == m.inj && w.kinds == old(w.kinds) + m.events
    {
      var next := FindPolicy(settings, step);
      if !policyInitialized {
        activePolicy := next;
        policyInitialized := true;
        RecordPolicyEvent(node, step, w);
        return;
      }
      if next == activePolicy {
        return;
      }
      FlushRemainderWithWindow(node, activePolicy.reorderWindow, w);
      activePolicy := next;
      RecordPolicyEvent(node, step, w);
    }

    /** The loop at the end of `ingest`. */
    method FlushFullChunks(node: Uuid, w: TraceWriter)
      requires w.Valid() && activePolicy.reorderWindow > 1
      modifies this`reorderBuf, this`pending, w
      ensures w.Valid()
      ensures var m := FlushFull(old(State()), node, old(activePolicy.reorderWindow));
              State() == m.inj && w.kinds == old(w.kinds) + m.events
    {
      hide StampAll;
      hide SeqNo;
      hide InjectorSpec.FlushChunk;
      while |reorderBuf| >= activePolicy.reorderWindow
        invariant w.Valid()
        invariant FlushFull(old(State()), node, activePolicy.reorderWindow).inj == FlushFull(State(), node, activePolicy.reorderWindow).inj
        invariant old(w.kinds) + FlushFull(old(State()), node, activePolicy.reorderWindow).events
                  == w.kinds + FlushFull(State(), node, activePolicy.reorderWindow).events
        decreases |reorderBuf|
      {
        FlushShrinks(State(), node, activePolicy.reorderWindow);
        FlushChunk(node, activePolicy.reorderWindow, w);
      }
    }

    method Ingest(env: WireEnvelope, step: U64, node: Uuid, w: TraceWriter)
      requires w.Valid()
      modifies this, w
      ensures w.Valid()
      ensures var m := InjectorSpec.Ingest(old(State()), node, step, env);
              State() == m.inj && w.kinds == old(w.kinds) + m.events
    {
      hide StampAll;
      hide SeqNo;
      hide InjectorSpec.SyncPolicy;
      hide InjectorSpec.Admit;
      SyncPolicy(node, step, w);
      Admit(env, step, node, w);
    }

    /** `ingest` under the policy of the step: drops the envelope, or stages it. */
    method Admit(env: WireEnvelope, step: U64, node: Uuid, w: TraceWriter)
      requires w.Valid()
      modifies this, w
      ensures w.Valid()
      ensures var m := InjectorSpec.Admit(old(State()), node, step, env);
              State() == m.inj && w.kinds == old(w.kinds) + m.events
    {
      hide StampAll;
      hide SeqNo;
      hide FlushFull;
      seenInbound := if seenInbound == U64_MAX then 0 else seenInbound + 1;
      if activePolicy.dropEvery.Some? && activePolicy.dropEvery.value > 0 && seenInbound % activePolicy.dropEvery.value == 0 {
        w.RecordEvent(FaultInjected(node, env.fromNode, env.toActor, env.msgId, Drop));
        return;
      }
      var staged := Staged(env, SatAdd(step, activePolicy.delaySteps));
      if activePolicy.delaySteps > 0 {
        w.RecordEvent(FaultInjected(node, env.fromNode, env.toActor, env.msgId, Delay(activePolicy.delaySteps)));
      }
      if activePolicy.reorderWindow <= 1 {
        pending := pending + [staged];
        return;
      }
      reorderBuf := reorderBuf + [staged];
      FlushFullChunks(node, w);
    }

    /** Takes the due envelopes off the head of the queue. */
    method ReleaseDue(step: U64) returns (out: seq<WireEnvelope>)
      modifies this`pending
      ensures var due := DueCount(old(pending), step);
              pending == old(pending)[due..] && out == Envelopes(old(pending)[..due])
    {
      out := [];
      while pending != [] && pending[0].releaseStep <= step
        invariant DueCount(old(pending), step) == |out| + DueCount(pending, step)
        invariant |out| <= |old(pending)| && pending == old(pending)[|out|..]
        invariant out == Envelopes(old(pending)[..|out|])
        decreases |pending|
      {
        EnvelopesSnoc(old(pending)[..|out|], pending[0]);
        assert old(pending)[..|out| + 1] == old(pending)[..|out|] + [pending[0]];
        out := out + [pending[0].env];
        pending := pending[1..];
      }
    }
  }

  lemma {:induction false} EnvelopesSnoc(s: seq<Staged>, x: Staged)
    ensures Envelopes(s + [x]) == Envelopes(s) + [x.env]
  {
    if s != [] {
      assert (s + [x])[1..] == s[1..] + [x];
      EnvelopesSnoc(s[1..], x);
    }
  }
}
