/** Everything the fault injector writes to the trace, event by event. */
module InjectorEvents {
  import opened Base
  import opened Events
  import opened Faults
  import opened InjectorSpec
  import opened InjectorProps

  /** One FaultInjected event for each envelope, in order. */
  function Injected(node: Uuid, envs: seq<WireEnvelope>, action: FaultAction): seq<EventKind> {
    seq(|envs|, i requires 0 <= i < |envs| => FaultInjected(node, envs[i].fromNode, envs[i].toActor, envs[i].msgId, action))
  }

  /** The `k`-th envelope accepted after `seen` others is dropped. */
  predicate DropsAt(p: Policy, seen: U64, k: nat) {
    p.dropEvery.Some? && p.dropEvery.value > 0 && (seen + k) % (U64_MAX + 1) % p.dropEvery.value == 0
  }

  /** The envelopes among `own` that are not dropped. */
  function Kept(own: seq<WireEnvelope>, seen: U64, p: Policy): seq<WireEnvelope> {
    if own == [] then []
    else Kept(own[..|own| - 1], seen, p) + if DropsAt(p, seen, |own|) then [] else [own[|own| - 1]]
  }

  /** What the arrivals of a step make the injector write: for each one either a Drop, or its Delay if the
      policy has one and, whenever as many have been kept as the window is wide, a Reorder for each of them. */
  function ArrivalEvents(node: Uuid, own: seq<WireEnvelope>, seen: U64, p: Policy): seq<EventKind> {
    if own == [] then []
    else
      var front, e := own[..|own| - 1], own[|own| - 1];
      ArrivalEvents(node, front, seen, p) +
      if DropsAt(p, seen, |own|) then Injected(node, [e], Drop)
      else
        var kept, w := Kept(front, seen, p) + [e], p.reorderWindow;
        (if p.delaySteps > 0 then Injected(node, [e], Delay(p.delaySteps)) else [])
        + if w > 1 && |kept| % w == 0 then Injected(node, LastOf(kept, w), Reorder(w)) else []
  }

  function LastOf<T>(s: seq<T>, n: nat): seq<T> {
    if n <= |s| then s[|s| - n..] else s
  }

  lemma {:induction false} KeptSurvive(own: seq<WireEnvelope>, seen: U64, p: Policy)
    ensures Kept(own, seen, p) == Survivors(own, seen, p)
    decreases |own|
  {
    if own != [] { KeptSurvive(own[..|own| - 1], seen, p); }
  }

  lemma {:induction false} TailIs<T>(s: seq<T>, w: nat)
    requires w > 0
    ensures Tail(s, w) == LastOf(s, |s| % w) && |Tail(s, w)| == |s| % w
    decreases |s|
  {
    if |s| >= w {
      TailIs(s[w..], w);
      ModLess(|s|, w);
    } else {
      assert |s| % w == |s|;
    }
  }

  lemma ModLess(n: nat, w: nat)
    requires 0 < w <= n
    ensures (n - w) % w == n % w && n % w <= n - w
  {
    assert n % w < w;
    ModShift(n, w);
    if n - w < w { assert (n - w) % w == n - w; }
  }

  lemma ModShift(n: nat, w: nat)
    requires 0 < w <= n
    ensures (n - w) % w == n % w
  {
    var q, r := n / w, n % w;
    assert n - w == w * (q - 1) + r by { assert n == w * q + r; }
    QuotientIs(n - w, w, q - 1, r);
  }

  lemma {:induction false} StageAt(envs: seq<WireEnvelope>, releaseStep: U64, i: nat)
    requires i < |envs|
    ensures Stage(envs, releaseStep)[i] == Staged(envs[i], releaseStep)
    decreases |envs|
  {
    if i > 0 { StageAt(envs[1..], releaseStep, i - 1); }
  }

  lemma {:induction false} ReorderedEvents(node: Uuid, chunk: seq<Staged>, envs: seq<WireEnvelope>, w: U64)
    requires |chunk| == |envs| && forall i :: 0 <= i < |chunk| ==> chunk[i].env == envs[i]
    ensures ReorderEvents(node, chunk, w) == Injected(node, envs, Reorder(w))
    decreases |chunk|
  {
    if chunk != [] {
      assert forall i :: 0 <= i < |chunk[1..]| ==> chunk[1..][i] == chunk[i + 1] && envs[1..][i] == envs[i + 1];
      ReorderedEvents(node, chunk[1..], envs[1..], w);
      var all, rest := Injected(node, envs, Reorder(w)), Injected(node, envs[1..], Reorder(w));
      assert forall i :: 0 < i < |envs| ==> all[i] == rest[i - 1];
      assert all == [all[0]] + rest;
    }
  }

  /** The buffered rest of what has been kept, as it is staged. */
  lemma TailEnvelopes(kept: seq<WireEnvelope>, release: U64, w: nat)
    requires w > 1
    ensures var t, last := Tail(Stage(kept, release), w), LastOf(kept, |kept| % w);
            |t| == |last| == |kept| % w && forall i :: 0 <= i < |t| ==> t[i].env == last[i]
  {
    TailIs(Stage(kept, release), w);
    var m := |kept| - |kept| % w;
    assert |kept| % w <= |kept| by { if |kept| >= w { ModLess(|kept|, w); } }
    forall i | m <= i < |kept| ensures Stage(kept, release)[i].env == kept[i] { StageAt(kept, release, i); }
  }

  lemma AdmitTells(start: Injector, node: Uuid, own: seq<WireEnvelope>, e: WireEnvelope, step: U64)
    requires Settled(start)
    ensures ArrivalEvents(node, own + [e], start.seen, start.active) ==
            ArrivalEvents(node, own, start.seen, start.active) + Admit(MidDrain(start, own, step), node, step, e).events
  {
    hide MidDrain;
    hide Admit;
    hide Kept;
    hide DropsAt;
    hide Injected;
    assert (own + [e])[..|own|] == own;
    if DropsAt(start.active, start.seen, |own| + 1) {
      DropTells(start, node, own, e, step);
    } else {
      KeepTells(start, node, own, e, step);
    }
  }

  lemma DropTells(start: Injector, node: Uuid, own: seq<WireEnvelope>, e: WireEnvelope, step: U64)
    requires DropsAt(start.active, start.seen, |own| + 1)
    ensures Admit(MidDrain(start, own, step), node, step, e).events == Injected(node, [e], Drop)
  {
    hide DropsAt;
    hide DropsNth;
    hide WrapAdd;
    hide WrapInc;
    hide FullChunks;
    hide Tail;
    hide Survivors;
    hide Stage;
    DropsSame(start, own);
  }

  lemma KeepTells(start: Injector, node: Uuid, own: seq<WireEnvelope>, e: WireEnvelope, step: U64)
    requires Settled(start) && !DropsAt(start.active, start.seen, |own| + 1)
    ensures var p := start.active;
            var kept, w := Kept(own, start.seen, p) + [e], p.reorderWindow;
            Admit(MidDrain(start, own, step), node, step, e).events ==
              (if p.delaySteps > 0 then Injected(node, [e], Delay(p.delaySteps)) else [])
              + if w > 1 && |kept| % w == 0 then Injected(node, LastOf(kept, w), Reorder(w)) else []
  {
    hide DropsAt;
    hide DropsNth;
    hide WrapAdd;
    hide WrapInc;
    hide FullChunks;
    hide FlushFull;
    hide Tail;
    hide Survivors;
    hide Kept;
    hide Stage;
    hide LastOf;
    var p := start.active;
    var inj, x := MidDrain(start, own, step), Staged(e, SatAdd(step, p.delaySteps));
    DropsSame(start, own);
    if p.reorderWindow > 1 {
      ChunkTells(start, node, own, e, step, inj.(seen := WrapInc(inj.seen), reorderBuf := inj.reorderBuf + [x]));
    }
  }

  lemma ChunkTells(start: Injector, node: Uuid, own: seq<WireEnvelope>, e: WireEnvelope, step: U64, grown: Injector)
    requires Settled(start) && start.active.reorderWindow > 1
    requires var release := SatAdd(step, start.active.delaySteps);
             grown.reorderBuf == MidDrain(start, own, step).reorderBuf + [Staged(e, release)]
    ensures var w, kept := start.active.reorderWindow, Kept(own, start.seen, start.active) + [e];
            FlushFull(grown, node, w).events == if |kept| % w == 0 then Injected(node, LastOf(kept, w), Reorder(w)) else []
  {
    hide WrapAdd;
    hide FullChunks;
    hide FlushFull;
    hide Tail;
    hide Survivors;
    hide Kept;
    hide Stage;
    hide Injected;
    var w, release := start.active.reorderWindow, SatAdd(step, start.active.delaySteps);
    var kept := Kept(own, start.seen, start.active);
    KeptSurvive(own, start.seen, start.active);
    TailEnvelopes(kept, release, w);
    FlushFullEvents(grown, node, w);
    NextRemainder(|kept|, w);
    if |grown.reorderBuf| == w {
      assert LastOf(kept + [e], w) == LastOf(kept, w - 1) + [e];
      ReorderedEvents(node, grown.reorderBuf, LastOf(kept + [e], w), w);
    }
  }

  lemma DropsSame(start: Injector, own: seq<WireEnvelope>)
    ensures DropsNth(start.active, WrapInc(WrapAdd(start.seen, |own|))) <==> DropsAt(start.active, start.seen, |own| + 1)
  {
    WrapAddNext(start.seen, |own|);
  }

  lemma NextRemainder(n: nat, w: nat)
    requires w > 1
    ensures (n + 1) % w == 0 <==> n % w == w - 1
  {
    var q, r := n / w, n % w;
    assert n == w * q + r;
    if r == w - 1 {
      assert n + 1 == w * (q + 1) + 0;
      QuotientIs(n + 1, w, q + 1, 0);
    } else {
      QuotientIs(n + 1, w, q, r + 1);
    }
  }

  lemma {:induction false} IngestTells(start: Injector, node: Uuid, step: U64, arrivals: seq<WireEnvelope>)
    requires Settled(start) && start.initialized && start.active == PolicyForStep(start.settings, step)
    ensures IngestAll(start, node, step, arrivals).events == ArrivalEvents(node, Own(node, arrivals), start.seen, start.active)
    decreases |arrivals|
  {
    hide Admit;
    hide ArrivalEvents;
    if arrivals == [] {
      NothingTold(start, node);
    } else {
      var front, last := arrivals[..|arrivals| - 1], arrivals[|arrivals| - 1];
      IngestTells(start, node, step, front);
      IngestAllForm(start, node, step, front);
      if last.toNode == node {
        AdmitTells(start, node, Own(node, front), last, step);
        var a := Admit(MidDrain(start, Own(node, front), step), node, step, last);
        assert Ingest(MidDrain(start, Own(node, front), step), node, step, last).events == [] + a.events == a.events;
      } else {
        assert Own(node, arrivals) == Own(node, front);
      }
    }
  }

  lemma NothingTold(start: Injector, node: Uuid)
    ensures ArrivalEvents(node, [], start.seen, start.active) == []
  {
  }

  /** All that one drain writes before the envelopes it releases: the policy if it is a new one, what the
      arrivals make it write, and a Reorder for each envelope of a last chunk of more than one. */
  lemma DrainTells(inj: Injector, node: Uuid, step: U64, arrivals: seq<WireEnvelope>)
    requires Settled(inj)
    ensures var p := PolicyForStep(inj.settings, step);
            var own := Own(node, arrivals);
            var kept, w := Kept(own, inj.seen, p), p.reorderWindow;
            Drain(inj, node, step, arrivals).events ==
              (if inj.initialized && inj.active == p then []
               else [FaultPolicyEvent(node, step, p.dropEvery, p.delaySteps, p.reorderWindow)])
              + ArrivalEvents(node, own, inj.seen, p)
              + if w > 1 && |kept| % w > 1 then Injected(node, LastOf(kept, |kept| % w), Reorder(w)) else []
  {
    hide IngestAll;
    hide PolicyForStep;
    hide FullChunks;
    hide Survivors;
    hide Kept;
    hide ArrivalEvents;
    hide Stage;
    hide Tail;
    hide LastOf;
    hide ReorderEvents;
    var p, own := PolicyForStep(inj.settings, step), Own(node, arrivals);
    var w, release := p.reorderWindow, SatAdd(step, p.delaySteps);
    SyncSettled(inj, node, step);
    var synced := SyncPolicy(inj, node, step).inj;
    IngestTells(synced, node, step, arrivals);
    IngestAllForm(synced, node, step, arrivals);
    KeptSurvive(own, inj.seen, p);
    if w > 1 {
      var kept := Kept(own, inj.seen, p);
      ReorderedSplits(Stage(kept, release), w);
      TailEnvelopes(kept, release, w);
      var tail := Tail(Stage(kept, release), w);
      assert tail[..|tail|] == tail;
      if |tail| > 1 { ReorderedEvents(node, tail, LastOf(kept, |kept| % w), w); }
    }
  }

  /** A change of policy first lets out the next chunk of what is buffered, reversed and reported under the
      old window; then the new policy is announced. The first announcement and an unchanged policy let
      nothing out. */
  lemma SyncTells(inj: Injector, node: Uuid, step: U64)
    ensures var p := PolicyForStep(inj.settings, step);
            var s, w := SyncPolicy(inj, node, step), inj.active.reorderWindow;
            var out := if inj.initialized && p != inj.active && w > 1 then inj.reorderBuf[..if w <= |inj.reorderBuf| then w else |inj.reorderBuf|]
                       else [];
            && s.inj == inj.(active := p, initialized := true, pending := s.inj.pending, reorderBuf := inj.reorderBuf[|out|..])
            && s.inj.pending == inj.pending + Reverse(out)
            && s.events == (if |out| > 1 then Injected(node, Envelopes(out), Reorder(w)) else [])
                           + if inj.initialized && p == inj.active then []
                             else [FaultPolicyEvent(node, step, p.dropEvery, p.delaySteps, p.reorderWindow)]
  {
    hide PolicyForStep;
    hide ReorderEvents;
    var p, w := PolicyForStep(inj.settings, step), inj.active.reorderWindow;
    assert inj.pending + [] == inj.pending && inj.reorderBuf[0..] == inj.reorderBuf;
    if inj.initialized && p != inj.active && w > 1 {
      var out := inj.reorderBuf[..if w <= |inj.reorderBuf| then w else |inj.reorderBuf|];
      EnvelopesAre(out);
      ReorderedEvents(node, out, Envelopes(out), w);
    }
  }

  lemma {:induction false} EnvelopesAre(s: seq<Staged>)
    ensures forall i :: 0 <= i < |s| ==> Envelopes(s)[i] == s[i].env
  {
    if s != [] {
      EnvelopesAre(s[1..]);
      assert forall i :: 0 < i < |s| ==> s[i] == s[1..][i - 1] && Envelopes(s)[i] == Envelopes(s[1..])[i - 1];
    }
  }

  /** A phase covers the steps between its bounds, the bounds included; one without an end covers all later ones. */
  predicate Covers(p: Phase, step: U64) {
    p.start <= step && (p.end.None? || step <= p.end.value)
  }

  /** The policy of a step is that of the last phase in the list that covers it, and the base policy if
      none does. */
  lemma {:induction false} PolicyMeans(s: Settings, step: U64, last: Option<nat>)
    requires last.Some? ==> last.value < |s.phases| && Covers(s.phases[last.value], step)
    requires forall j :: (if last.Some? then last.value else -1) < j < |s.phases| ==> !Covers(s.phases[j], step)
    ensures PolicyForStep(s, step) == if last.Some? then s.phases[last.value].policy else s.base
    decreases |s.phases|
  {
    if s.phases != [] {
      var n, front := |s.phases| - 1, s.phases[..|s.phases| - 1];
      assert Covers(s.phases[n], step) == IsActive(s.phases[n], step);
      if !Covers(s.phases[n], step) { PolicyMeans(s.(phases := front), step, last); }
    }
  }
}
