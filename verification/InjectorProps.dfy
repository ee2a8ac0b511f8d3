/** What the fault injector does to a whole run of arrivals: the order envelopes enter its queue,
    which are dropped, and when each is released. */
module InjectorProps {
  import opened Base
  import opened Events
  import opened Faults
  import opened InjectorSpec

  function Own(node: Uuid, arrivals: seq<WireEnvelope>): seq<WireEnvelope> {
    if arrivals == [] then []
    else
      var last := arrivals[|arrivals| - 1];
      Own(node, arrivals[..|arrivals| - 1]) + if last.toNode == node then [last] else []
  }

  /** `seen_inbound` after `k` more envelopes. */
  function WrapAdd(seen: U64, k: nat): U64 {
    (seen + k) % (U64_MAX + 1)
  }

  function Survivors(own: seq<WireEnvelope>, seen: U64, p: Policy): seq<WireEnvelope> {
    if own == [] then []
    else
      Survivors(own[..|own| - 1], seen, p) +
      if DropsNth(p, WrapAdd(seen, |own|)) then [] else [own[|own| - 1]]
  }

  function Dropped(own: seq<WireEnvelope>, seen: U64, p: Policy): seq<WireEnvelope> {
    if own == [] then []
    else
      Dropped(own[..|own| - 1], seen, p) +
      if DropsNth(p, WrapAdd(seen, |own|)) then [own[|own| - 1]] else []
  }

  function Stage(envs: seq<WireEnvelope>, releaseStep: U64): (r: seq<Staged>)
    ensures |r| == |envs|
  {
    if envs == [] then [] else [Staged(envs[0], releaseStep)] + Stage(envs[1..], releaseStep)
  }

  // ---- reordering in chunks ----

  /** The chunks of `w` that are full, each reversed. */
  function FullChunks<T>(s: seq<T>, w: nat): seq<T>
    requires w > 0
    decreases |s|
  {
    if |s| < w then [] else Reverse(s[..w]) + FullChunks(s[w..], w)
  }

  /** What the last, shorter chunk holds. */
  function Tail<T>(s: seq<T>, w: nat): seq<T>
    requires w > 0
    decreases |s|
  {
    if |s| < w then s else Tail(s[w..], w)
  }

  /** Every chunk of `w` reversed, the last shorter one included; a window of 0 or 1 leaves the order. */
  function Reordered<T>(s: seq<T>, w: nat): seq<T>
    decreases |s|
  {
    if w <= 1 then s
    else if |s| < w then Reverse(s)
    else Reverse(s[..w]) + Reordered(s[w..], w)
  }

  lemma {:induction false} ReorderedSplits<T>(s: seq<T>, w: nat)
    requires w > 1
    ensures Reordered(s, w) == FullChunks(s, w) + Reverse(Tail(s, w))
    ensures |Tail(s, w)| < w
    decreases |s|
  {
    if |s| >= w {
      ReorderedSplits(s[w..], w);
      assert Reverse(s[..w]) + FullChunks(s[w..], w) + Reverse(Tail(s[w..], w))
          == Reverse(s[..w]) + (FullChunks(s[w..], w) + Reverse(Tail(s[w..], w)));
    }
  }

  /** One more arrival either joins the last chunk or completes it. */
  lemma {:induction false} ArrivalJoinsChunk<T>(s: seq<T>, x: T, w: nat)
    requires w > 1
    ensures |Tail(s, w)| < w
    ensures |Tail(s, w)| + 1 < w ==>
              Tail(s + [x], w) == Tail(s, w) + [x] && FullChunks(s + [x], w) == FullChunks(s, w)
    ensures |Tail(s, w)| + 1 == w ==>
              Tail(s + [x], w) == [] && FullChunks(s + [x], w) == FullChunks(s, w) + Reverse(Tail(s, w) + [x])
    decreases |s|
  {
    if |s| >= w {
      assert (s + [x])[..w] == s[..w] && (s + [x])[w..] == s[w..] + [x];
      ArrivalJoinsChunk(s[w..], x, w);
      if |Tail(s, w)| + 1 == w {
        assert Reverse(s[..w]) + FullChunks(s[w..], w) + Reverse(Tail(s, w) + [x])
            == Reverse(s[..w]) + (FullChunks(s[w..], w) + Reverse(Tail(s, w) + [x]));
      }
    } else if |s| + 1 == w {
      assert (s + [x])[..w] == s + [x] && (s + [x])[w..] == [];
      assert Reverse(s + [x]) + [] == [] + Reverse(s + [x]);
    }
  }

  /** Where the i-th of n arrivals ends up. */
  function Position(i: nat, n: nat, w: nat): (j: nat)
    requires i < n
    ensures j < n
    decreases n
  {
    if w <= 1 then i
    else if n < w then n - 1 - i
    else if i < w then w - 1 - i
    else w + Position(i - w, n - w, w)
  }

  lemma {:induction false} ReverseAt<T>(s: seq<T>, i: nat)
    requires i < |s|
    ensures Reverse(s)[|s| - 1 - i] == s[i]
  {
    if i > 0 { ReverseAt(s[1..], i - 1); }
  }

  lemma {:induction false} PositionInverse(i: nat, n: nat, w: nat)
    requires i < n
    ensures Position(Position(i, n, w), n, w) == i
    ensures Position(i, n, w) == i || (Position(i, n, w) < i + w && i < Position(i, n, w) + w)
    decreases n
  {
    if w > 1 && n >= w && i >= w { PositionInverse(i - w, n - w, w); }
  }

  lemma {:induction false} ReorderedAt<T>(s: seq<T>, w: nat, i: nat)
    requires i < |s|
    ensures |Reordered(s, w)| == |s|
    ensures Reordered(s, w)[Position(i, |s|, w)] == s[i]
    decreases |s|
  {
    ReorderedLength(s, w);
    if w > 1 {
      if |s| < w {
        ReverseAt(s, i);
      } else if i < w {
        ReverseAt(s[..w], i);
        assert Reordered(s, w)[w - 1 - i] == Reverse(s[..w])[w - 1 - i];
      } else {
        ReorderedAt(s[w..], w, i - w);
        ReorderedLength(s[w..], w);
        var j := Position(i - w, |s| - w, w);
        assert Reordered(s, w)[w + j] == Reordered(s[w..], w)[j];
      }
    }
  }

  /** Reordering is a permutation that is its own inverse and moves nothing by a window or more. */
  lemma ReorderMovesLittle<T>(s: seq<T>, w: nat, i: nat)
    requires i < |s|
    ensures |Reordered(s, w)| == |s|
    ensures Reordered(s, w)[Position(i, |s|, w)] == s[i]
    ensures Position(Position(i, |s|, w), |s|, w) == i
    ensures Position(i, |s|, w) == i || (Position(i, |s|, w) < i + w && i < Position(i, |s|, w) + w)
  {
    ReorderedAt(s, w, i);
    PositionInverse(i, |s|, w);
  }

  lemma {:induction false} ReorderedLength<T>(s: seq<T>, w: nat)
    ensures |Reordered(s, w)| == |s|
    decreases |s|
  {
    if w > 1 && |s| >= w { ReorderedLength(s[w..], w); }
  }

  lemma {:induction false} ReverseMultiset<T>(s: seq<T>)
    ensures multiset(Reverse(s)) == multiset(s)
  {
    if s != [] {
      ReverseMultiset(s[1..]);
      assert s == [s[0]] + s[1..];
    }
  }

  lemma {:induction false} ReorderedMultiset<T>(s: seq<T>, w: nat)
    ensures multiset(Reordered(s, w)) == multiset(s)
    decreases |s|
  {
    if w > 1 {
      if |s| < w {
        ReverseMultiset(s);
      } else {
        ReverseMultiset(s[..w]);
        ReorderedMultiset(s[w..], w);
        assert s == s[..w] + s[w..];
      }
    }
  }

  // ---- one drain ----

  /** Between drains the reorder buffer is empty, so a policy change strands nothing. */
  predicate Settled(inj: Injector) {
    inj.reorderBuf == []
  }

  lemma SyncSettled(inj: Injector, node: Uuid, step: U64)
    requires Settled(inj)
    ensures SyncPolicy(inj, node, step).inj == inj.(active := PolicyForStep(inj.settings, step), initialized := true)
    ensures SyncPolicy(inj, node, step).events ==
            if inj.initialized && inj.active == PolicyForStep(inj.settings, step) then []
            else [PolicyEvent(node, step, PolicyForStep(inj.settings, step))]
  {
  }

  /** The injector in the middle of a drain that has let `own` in. */
  function MidDrain(start: Injector, own: seq<WireEnvelope>, step: U64): Injector {
    var p := start.active;
    var staged := Stage(Survivors(own, start.seen, p), SatAdd(step, p.delaySteps));
    if p.reorderWindow <= 1 then
      start.(seen := WrapAdd(start.seen, |own|), pending := start.pending + staged)
    else
      start.(seen := WrapAdd(start.seen, |own|),
             pending := start.pending + FullChunks(staged, p.reorderWindow),
             reorderBuf := Tail(staged, p.reorderWindow))
  }

  lemma FlushFullOnce(inj: Injector, node: Uuid, w: U64)
    requires w > 1 && |inj.reorderBuf| <= w
    ensures FlushFull(inj, node, w).inj ==
            if |inj.reorderBuf| < w then inj
            else inj.(reorderBuf := [], pending := inj.pending + Reverse(inj.reorderBuf))
  {
    if |inj.reorderBuf| == w {
      assert inj.reorderBuf[..w] == inj.reorderBuf && inj.reorderBuf[w..] == [];
      var f := FlushChunk(inj, node, w).inj;
      assert FlushFull(f, node, w).inj == f;
    }
  }

  lemma {:induction false} StageAppend(envs: seq<WireEnvelope>, e: WireEnvelope, releaseStep: U64)
    ensures Stage(envs + [e], releaseStep) == Stage(envs, releaseStep) + [Staged(e, releaseStep)]
  {
    if envs != [] {
      assert (envs + [e])[1..] == envs[1..] + [e];
      StageAppend(envs[1..], e, releaseStep);
    }
  }

  lemma WrapAddNext(seen: U64, k: nat)
    ensures WrapInc(WrapAdd(seen, k)) == WrapAdd(seen, k + 1)
  {
  }

  lemma AdmitDropped(start: Injector, node: Uuid, own: seq<WireEnvelope>, e: WireEnvelope, step: U64)
    requires DropsNth(start.active, WrapAdd(start.seen, |own| + 1))
    ensures Admit(MidDrain(start, own, step), node, step, e).inj == MidDrain(start, own + [e], step)
  {
    hide DropsNth;
    hide WrapAdd;
    hide WrapInc;
    hide FullChunks;
    hide Tail;
    hide Stage;
    assert (own + [e])[..|own|] == own;
    WrapAddNext(start.seen, |own|);
    assert Survivors(own, start.seen, start.active) + [] == Survivors(own, start.seen, start.active);
    assert Survivors(own + [e], start.seen, start.active) == Survivors(own, start.seen, start.active);
  }

  lemma SurvivorsKept(own: seq<WireEnvelope>, e: WireEnvelope, seen: U64, p: Policy, releaseStep: U64)
    requires !DropsNth(p, WrapAdd(seen, |own| + 1))
    ensures Stage(Survivors(own + [e], seen, p), releaseStep)
         == Stage(Survivors(own, seen, p), releaseStep) + [Staged(e, releaseStep)]
  {
    assert (own + [e])[..|own|] == own;
    StageAppend(Survivors(own, seen, p), e, releaseStep);
  }

  lemma AdmitQueued(start: Injector, node: Uuid, own: seq<WireEnvelope>, e: WireEnvelope, step: U64)
    requires !DropsNth(start.active, WrapAdd(start.seen, |own| + 1)) && start.active.reorderWindow <= 1
    ensures Admit(MidDrain(start, own, step), node, step, e).inj == MidDrain(start, own + [e], step)
  {
    var release := SatAdd(step, start.active.delaySteps);
    WrapAddNext(start.seen, |own|);
    SurvivorsKept(own, e, start.seen, start.active, release);
    var staged := Stage(Survivors(own, start.seen, start.active), release);
    assert start.pending + staged + [Staged(e, release)] == start.pending + (staged + [Staged(e, release)]);
  }

  lemma AdmitBuffered(start: Injector, node: Uuid, own: seq<WireEnvelope>, e: WireEnvelope, step: U64)
    requires !DropsNth(start.active, WrapAdd(start.seen, |own| + 1)) && start.active.reorderWindow > 1
    ensures Admit(MidDrain(start, own, step), node, step, e).inj == MidDrain(start, own + [e], step)
  {
    hide FlushFull;
    hide Survivors;
    var w := start.active.reorderWindow;
    var release := SatAdd(step, start.active.delaySteps);
    var inj := MidDrain(start, own, step);
    WrapAddNext(start.seen, |own|);
    SurvivorsKept(own, e, start.seen, start.active, release);
    var staged := Stage(Survivors(own, start.seen, start.active), release);
    var x := Staged(e, release);
    ArrivalJoinsChunk(staged, x, w);
    FlushFullOnce(inj.(seen := WrapInc(inj.seen), reorderBuf := inj.reorderBuf + [x]), node, w);
    var chunk := Reverse(Tail(staged, w) + [x]);
    assert start.pending + FullChunks(staged, w) + chunk == start.pending + (FullChunks(staged, w) + chunk);
  }

  /** Letting one more envelope in keeps the mid-drain form. */
  lemma AdmitKeepsForm(start: Injector, node: Uuid, own: seq<WireEnvelope>, e: WireEnvelope, step: U64)
    ensures Admit(MidDrain(start, own, step), node, step, e).inj == MidDrain(start, own + [e], step)
  {
    if DropsNth(start.active, WrapAdd(start.seen, |own| + 1)) {
      AdmitDropped(start, node, own, e, step);
    } else if start.active.reorderWindow <= 1 {
      AdmitQueued(start, node, own, e, step);
    } else {
      AdmitBuffered(start, node, own, e, step);
    }
  }

  lemma {:induction false} IngestAllForm(start: Injector, node: Uuid, step: U64, arrivals: seq<WireEnvelope>)
    requires Settled(start) && start.initialized && start.active == PolicyForStep(start.settings, step)
    ensures IngestAll(start, node, step, arrivals).inj == MidDrain(start, Own(node, arrivals), step)
    decreases |arrivals|
  {
    if arrivals == [] {
      assert start.pending + [] == start.pending;
      assert WrapAdd(start.seen, 0) == start.seen;
    } else {
      var front := arrivals[..|arrivals| - 1];
      var last := arrivals[|arrivals| - 1];
      IngestAllForm(start, node, step, front);
      if last.toNode == node {
        AdmitKeepsForm(start, node, Own(node, front), last, step);
      } else {
        assert Own(node, arrivals) == Own(node, front);
      }
    }
  }

  /** What one drain appends to the queue of envelopes to release. */
  function Entering(inj: Injector, node: Uuid, step: U64, arrivals: seq<WireEnvelope>): seq<Staged> {
    var p := PolicyForStep(inj.settings, step);
    Reordered(Stage(Survivors(Own(node, arrivals), inj.seen, p), SatAdd(step, p.delaySteps)), p.reorderWindow)
  }

  lemma FlushesWholeBuffer(inj: Injector, node: Uuid, w: U64)
    requires w > 1 && |inj.reorderBuf| <= w
    ensures FlushRemainder(inj, node, w).inj == inj.(reorderBuf := [], pending := inj.pending + Reverse(inj.reorderBuf))
  {
    assert inj.reorderBuf[..|inj.reorderBuf|] == inj.reorderBuf;
    if inj.reorderBuf == [] {
      assert inj.pending + Reverse(inj.reorderBuf) == inj.pending;
    }
  }

  /** Flushing the last chunk completes the reordering. */
  lemma RemainderForm(start: Injector, node: Uuid, own: seq<WireEnvelope>, step: U64)
    requires Settled(start)
    ensures FlushRemainder(MidDrain(start, own, step), node, start.active.reorderWindow).inj ==
            start.(seen := WrapAdd(start.seen, |own|),
                   pending := start.pending
                     + Reordered(Stage(Survivors(own, start.seen, start.active), SatAdd(step, start.active.delaySteps)),
                                 start.active.reorderWindow))
  {
    hide Survivors;
    hide WrapAdd;
    hide Stage;
    hide FlushChunk;
    hide FullChunks;
    hide Tail;
    hide Reverse;
    hide PolicyForStep;
    hide Reordered;
    var w := start.active.reorderWindow;
    var mid := MidDrain(start, own, step);
    var staged := Stage(Survivors(own, start.seen, start.active), SatAdd(step, start.active.delaySteps));
    if w > 1 {
      ReorderedSplits(staged, w);
      FlushesWholeBuffer(mid, node, w);
      var full, tail := FullChunks(staged, w), Reverse(Tail(staged, w));
      assert start.pending + full + tail == start.pending + (full + tail);
    } else {
      assert Reordered(staged, w) == staged by { NarrowWindow(staged, w); }
    }
  }

  lemma NarrowWindow<T>(s: seq<T>, w: nat)
    requires w <= 1
    ensures Reordered(s, w) == s
  {
  }

  /** The closed form of a drain: survivors enter in reversed chunks of the step's window, then the
      due head of the queue leaves. Nothing stays in the reorder buffer. */
  lemma DrainClosedForm(inj: Injector, node: Uuid, step: U64, arrivals: seq<WireEnvelope>)
    requires Settled(inj)
    ensures var queue := inj.pending + Entering(inj, node, step, arrivals);
            var due := DueCount(queue, step);
            && Drain(inj, node, step, arrivals).inj
                 == Injector(inj.settings, WrapAdd(inj.seen, |Own(node, arrivals)|),
                             PolicyForStep(inj.settings, step), true, [], queue[due..])
            && Drain(inj, node, step, arrivals).released == Envelopes(queue[..due])
  {
    hide FlushRemainder;
    hide IngestAll;
    hide PolicyForStep;
    SyncSettled(inj, node, step);
    var start := SyncPolicy(inj, node, step).inj;
    IngestAllForm(start, node, step, arrivals);
    RemainderForm(start, node, Own(node, arrivals), step);
  }

  // ---- a run of drains at steps 0, 1, 2, ... ----

  /** The injector before step `n`. */
  function InjectorAt(settings: Settings, node: Uuid, arrivals: seq<seq<WireEnvelope>>, n: nat): Injector
    requires n <= |arrivals| <= U64_MAX
  {
    if n == 0 then NewInjector(settings)
    else Drain(InjectorAt(settings, node, arrivals, n - 1), node, n - 1, arrivals[n - 1]).inj
  }

  function ReleasedDuring(settings: Settings, node: Uuid, arrivals: seq<seq<WireEnvelope>>, step: nat): seq<WireEnvelope>
    requires step < |arrivals| <= U64_MAX
  {
    Drain(InjectorAt(settings, node, arrivals, step), node, step, arrivals[step]).released
  }

  function ReleasedBefore(settings: Settings, node: Uuid, arrivals: seq<seq<WireEnvelope>>, n: nat): seq<WireEnvelope>
    requires n <= |arrivals| <= U64_MAX
  {
    if n == 0 then [] else ReleasedBefore(settings, node, arrivals, n - 1) + ReleasedDuring(settings, node, arrivals, n - 1)
  }

  function EventsBefore(settings: Settings, node: Uuid, arrivals: seq<seq<WireEnvelope>>, n: nat): seq<EventKind>
    requires n <= |arrivals| <= U64_MAX
  {
    if n == 0 then []
    else EventsBefore(settings, node, arrivals, n - 1)
         + Drain(InjectorAt(settings, node, arrivals, n - 1), node, n - 1, arrivals[n - 1]).events
  }

  /** All envelopes addressed to the node before step `n`, in order of arrival. */
  function Accepted(node: Uuid, arrivals: seq<seq<WireEnvelope>>, n: nat): seq<WireEnvelope>
    requires n <= |arrivals|
  {
    if n == 0 then [] else Accepted(node, arrivals, n - 1) + Own(node, arrivals[n - 1])
  }

  function SeenAt(node: Uuid, arrivals: seq<seq<WireEnvelope>>, n: nat): U64
    requires n <= |arrivals|
  {
    WrapAdd(0, |Accepted(node, arrivals, n)|)
  }

  function EnteringAt(settings: Settings, node: Uuid, arrivals: seq<seq<WireEnvelope>>, step: nat): seq<Staged>
    requires step < |arrivals| <= U64_MAX
  {
    var p := PolicyForStep(settings, step);
    Reordered(Stage(Survivors(Own(node, arrivals[step]), SeenAt(node, arrivals, step), p), SatAdd(step, p.delaySteps)),
              p.reorderWindow)
  }

  /** Everything that entered the queue before step `n`, in queue order. */
  function QueueAt(settings: Settings, node: Uuid, arrivals: seq<seq<WireEnvelope>>, n: nat): seq<Staged>
    requires n <= |arrivals| <= U64_MAX
  {
    if n == 0 then [] else QueueAt(settings, node, arrivals, n - 1) + EnteringAt(settings, node, arrivals, n - 1)
  }

  /** How much of the queue has left before step `n`: its longest prefix due by then. */
  function LeftBefore(settings: Settings, node: Uuid, arrivals: seq<seq<WireEnvelope>>, n: nat): nat
    requires n <= |arrivals| <= U64_MAX
  {
    if n == 0 then 0 else DueCount(QueueAt(settings, node, arrivals, n), n - 1)
  }

  lemma {:induction false} DueAfterDue(q: seq<Staged>, more: seq<Staged>, k: nat, step: U64)
    requires k <= |q| && forall i :: 0 <= i < k ==> q[i].releaseStep <= step
    ensures DueCount(q + more, step) == k + DueCount(q[k..] + more, step)
  {
    if k > 0 {
      DueAfterDue(q[1..], more, k - 1, step);
      assert (q + more)[1..] == q[1..] + more;
      assert q[1..][k - 1..] == q[k..];
    } else {
      assert q[0..] == q;
    }
  }

  lemma {:induction false} EnvelopesAppend(a: seq<Staged>, b: seq<Staged>)
    ensures Envelopes(a + b) == Envelopes(a) + Envelopes(b)
  {
    if a == [] {
      assert a + b == b;
    } else {
      assert (a + b)[1..] == a[1..] + b;
      EnvelopesAppend(a[1..], b);
    }
  }

  /** One more drain: the due part of what is pending leaves, behind what left before. */
  lemma QueueGrows(q: seq<Staged>, more: seq<Staged>, left: nat, step: U64)
    requires left <= |q| && forall i :: 0 <= i < left ==> q[i].releaseStep <= step
    ensures var due := DueCount(q[left..] + more, step);
            var all := DueCount(q + more, step);
            && (q[left..] + more)[due..] == (q + more)[all..]
            && Envelopes((q + more)[..all]) == Envelopes(q[..left]) + Envelopes((q[left..] + more)[..due])
  {
    DueAfterDue(q, more, left, step);
    var due := DueCount(q[left..] + more, step);
    assert (q + more)[..left + due] == q[..left] + (q[left..] + more)[..due];
    EnvelopesAppend(q[..left], (q[left..] + more)[..due]);
  }

  ghost predicate QueueFormAt(settings: Settings, node: Uuid, arrivals: seq<seq<WireEnvelope>>, n: nat)
    requires n <= |arrivals| <= U64_MAX
  {
    var inj := InjectorAt(settings, node, arrivals, n);
    var queue := QueueAt(settings, node, arrivals, n);
    var left := LeftBefore(settings, node, arrivals, n);
    && inj.reorderBuf == [] && inj.settings == settings && inj.seen == SeenAt(node, arrivals, n)
    && (n > 0 ==> inj.initialized && inj.active == PolicyForStep(settings, n - 1))
    && left <= |queue| && inj.pending == queue[left..]
    && ReleasedBefore(settings, node, arrivals, n) == Envelopes(queue[..left])
  }

  /** Release timing for any policy phases: before step n exactly the longest prefix of the queue
      whose release steps have all come has left, in queue order; the rest is still pending. What this
      means for each envelope, `LeavesInStep` says. The reorder buffer is empty between steps, so a policy change strands nothing. */
  lemma {:induction false} QueueForm(settings: Settings, node: Uuid, arrivals: seq<seq<WireEnvelope>>, n: nat)
    requires n <= |arrivals| <= U64_MAX
    ensures QueueFormAt(settings, node, arrivals, n)
  {
    if n > 0 {
      QueueForm(settings, node, arrivals, n - 1);
      QueueFormStep(settings, node, arrivals, n);
    }
  }

  lemma InjectorNext(settings: Settings, node: Uuid, arrivals: seq<seq<WireEnvelope>>, n: nat)
    requires 0 < n <= |arrivals| <= U64_MAX
    requires Settled(InjectorAt(settings, node, arrivals, n - 1))
    ensures var inj := InjectorAt(settings, node, arrivals, n - 1);
            var queue := inj.pending + Entering(inj, node, n - 1, arrivals[n - 1]);
            var due := DueCount(queue, n - 1);
            && InjectorAt(settings, node, arrivals, n)
                 == Injector(inj.settings, WrapAdd(inj.seen, |Own(node, arrivals[n - 1])|),
                             PolicyForStep(inj.settings, n - 1), true, [], queue[due..])
            && ReleasedBefore(settings, node, arrivals, n)
                 == ReleasedBefore(settings, node, arrivals, n - 1) + Envelopes(queue[..due])
  {
    hide Drain;
    hide Entering;
    hide PolicyForStep;
    DrainClosedForm(InjectorAt(settings, node, arrivals, n - 1), node, n - 1, arrivals[n - 1]);
  }

  lemma QueueFormStep(settings: Settings, node: Uuid, arrivals: seq<seq<WireEnvelope>>, n: nat)
    requires 0 < n <= |arrivals| <= U64_MAX && QueueFormAt(settings, node, arrivals, n - 1)
    ensures QueueFormAt(settings, node, arrivals, n)
  {
    hide InjectorAt;
    hide ReleasedBefore;
    hide PolicyForStep;
    hide SeenAt;
    hide WrapAdd;
    hide Own;
    hide Reordered;
    hide Envelopes;
    var inj := InjectorAt(settings, node, arrivals, n - 1);
    var q := QueueAt(settings, node, arrivals, n - 1);
    InjectorNext(settings, node, arrivals, n);
    if n > 1 { DueCountMeans(q, n - 2); }
    assert Entering(inj, node, n - 1, arrivals[n - 1]) == EnteringAt(settings, node, arrivals, n - 1);
    QueueGrows(q, EnteringAt(settings, node, arrivals, n - 1), LeftBefore(settings, node, arrivals, n - 1), n - 1);
    SeenGrows(node, arrivals, n);
  }

  lemma SeenGrows(node: Uuid, arrivals: seq<seq<WireEnvelope>>, n: nat)
    requires 0 < n <= |arrivals|
    ensures SeenAt(node, arrivals, n) == WrapAdd(SeenAt(node, arrivals, n - 1), |Own(node, arrivals[n - 1])|)
  {
  }

  // ---- conservation ----

  function DroppedBefore(settings: Settings, node: Uuid, arrivals: seq<seq<WireEnvelope>>, n: nat): seq<WireEnvelope>
    requires n <= |arrivals| <= U64_MAX
  {
    if n == 0 then []
    else DroppedBefore(settings, node, arrivals, n - 1)
         + Dropped(Own(node, arrivals[n - 1]), SeenAt(node, arrivals, n - 1), PolicyForStep(settings, n - 1))
  }

  lemma LastKeptOrDropped(own: seq<WireEnvelope>, seen: U64, p: Policy)
    requires own != []
    ensures var front, last := own[..|own| - 1], [own[|own| - 1]];
            && own == front + last
            && (|| (Survivors(own, seen, p) == Survivors(front, seen, p) && Dropped(own, seen, p) == Dropped(front, seen, p) + last)
                || (Survivors(own, seen, p) == Survivors(front, seen, p) + last && Dropped(own, seen, p) == Dropped(front, seen, p)))
  {
    hide DropsNth;
    hide WrapAdd;
    var front := own[..|own| - 1];
    assert Survivors(front, seen, p) + [] == Survivors(front, seen, p);
    assert Dropped(front, seen, p) + [] == Dropped(front, seen, p);
  }

  lemma {:induction false} KeptOrDropped(own: seq<WireEnvelope>, seen: U64, p: Policy)
    ensures multiset(own) == multiset(Survivors(own, seen, p)) + multiset(Dropped(own, seen, p))
  {
    if own != [] {
      hide Survivors;
      hide Dropped;
      KeptOrDropped(own[..|own| - 1], seen, p);
      LastKeptOrDropped(own, seen, p);
    }
  }

  lemma {:induction false} EnvelopesOfStage(envs: seq<WireEnvelope>, releaseStep: U64)
    ensures Envelopes(Stage(envs, releaseStep)) == envs
  {
    if envs != [] { EnvelopesOfStage(envs[1..], releaseStep); }
  }

  lemma {:induction false} EnvelopesOfReverse(s: seq<Staged>)
    ensures Envelopes(Reverse(s)) == Reverse(Envelopes(s))
  {
    if s != [] {
      EnvelopesOfReverse(s[1..]);
      EnvelopesAppend(Reverse(s[1..]), [s[0]]);
    }
  }

  lemma EnvelopesSlices(s: seq<Staged>, w: nat)
    requires w <= |s|
    ensures Envelopes(s[..w]) == Envelopes(s)[..w] && Envelopes(s[w..]) == Envelopes(s)[w..]
  {
    assert s == s[..w] + s[w..];
    EnvelopesAppend(s[..w], s[w..]);
  }

  lemma {:induction false} EnvelopesOfReordered(s: seq<Staged>, w: nat)
    ensures Envelopes(Reordered(s, w)) == Reordered(Envelopes(s), w)
    decreases |s|
  {
    if w > 1 {
      if |s| < w {
        EnvelopesOfReverse(s);
      } else {
        EnvelopesSlices(s, w);
        EnvelopesOfReverse(s[..w]);
        EnvelopesOfReordered(s[w..], w);
        EnvelopesAppend(Reverse(s[..w]), Reordered(s[w..], w));
      }
    }
  }

  /** The envelopes that enter the queue at a step are the step's survivors. */
  lemma EnteringHoldsSurvivors(kept: seq<WireEnvelope>, releaseStep: U64, w: nat)
    ensures multiset(Envelopes(Reordered(Stage(kept, releaseStep), w))) == multiset(kept)
  {
    EnvelopesOfReordered(Stage(kept, releaseStep), w);
    EnvelopesOfStage(kept, releaseStep);
    ReorderedMultiset(kept, w);
  }

  lemma {:induction false} QueueHoldsSurvivors(settings: Settings, node: Uuid, arrivals: seq<seq<WireEnvelope>>, n: nat)
    requires n <= |arrivals| <= U64_MAX
    ensures multiset(Accepted(node, arrivals, n)) ==
            multiset(DroppedBefore(settings, node, arrivals, n))
            + multiset(Envelopes(QueueAt(settings, node, arrivals, n)))
  {
    hide Survivors;
    hide Dropped;
    hide Reordered;
    hide Stage;
    hide PolicyForStep;
    hide Own;
    hide Envelopes;
    if n == 0 {
      EnvelopesOfStage([], 0);
      assert Stage([], 0) == [];
    } else {
      QueueHoldsSurvivors(settings, node, arrivals, n - 1);
      var p := PolicyForStep(settings, n - 1);
      var own := Own(node, arrivals[n - 1]);
      var seen := SeenAt(node, arrivals, n - 1);
      KeptOrDropped(own, seen, p);
      EnteringHoldsSurvivors(Survivors(own, seen, p), SatAdd(n - 1, p.delaySteps), p.reorderWindow);
      EnvelopesAppend(QueueAt(settings, node, arrivals, n - 1), EnteringAt(settings, node, arrivals, n - 1));
    }
  }

  /** Conservation, under any policy changes: of the envelopes addressed to the node, each one was
      dropped, released, or is still pending. */
  lemma Conservation(settings: Settings, node: Uuid, arrivals: seq<seq<WireEnvelope>>, n: nat)
    requires n <= |arrivals| <= U64_MAX
    ensures multiset(Accepted(node, arrivals, n)) ==
            multiset(DroppedBefore(settings, node, arrivals, n))
            + multiset(ReleasedBefore(settings, node, arrivals, n))
            + multiset(Envelopes(InjectorAt(settings, node, arrivals, n).pending))
  {
    hide QueueAt;
    hide InjectorAt;
    hide LeftBefore;
    hide ReleasedBefore;
    hide SeenAt;
    hide Envelopes;
    hide Accepted;
    hide DroppedBefore;
    QueueHoldsSurvivors(settings, node, arrivals, n);
    QueueForm(settings, node, arrivals, n);
    SplitQueue(QueueAt(settings, node, arrivals, n), LeftBefore(settings, node, arrivals, n));
  }

  /** What is released in a step was accepted in it or before. */
  lemma ReleasedWereAccepted(settings: Settings, node: Uuid, arrivals: seq<seq<WireEnvelope>>, n: nat)
    requires 0 < n <= |arrivals| <= U64_MAX
    ensures forall e :: e in ReleasedDuring(settings, node, arrivals, n - 1) ==> e in Accepted(node, arrivals, n)
    ensures forall e :: e in Accepted(node, arrivals, n - 1) ==> e in Accepted(node, arrivals, n)
  {
    hide ReleasedDuring;
    hide InjectorAt;
    hide DroppedBefore;
    hide Own;
    Conservation(settings, node, arrivals, n);
    forall e | e in ReleasedDuring(settings, node, arrivals, n - 1) ensures e in Accepted(node, arrivals, n) {
      assert e in multiset(ReleasedBefore(settings, node, arrivals, n));
      assert e in multiset(Accepted(node, arrivals, n));
    }
  }

  lemma SplitQueue(queue: seq<Staged>, left: nat)
    requires left <= |queue|
    ensures multiset(Envelopes(queue)) == multiset(Envelopes(queue[..left])) + multiset(Envelopes(queue[left..]))
  {
    assert queue == queue[..left] + queue[left..];
    EnvelopesAppend(queue[..left], queue[left..]);
  }

  // ---- a constant policy ----

  lemma DivStep(m: nat, d: nat)
    requires m > 0 && d > 0
    ensures m / d == (m - 1) / d + (if m % d == 0 then 1 else 0)
  {
    var q, r := m / d, m % d;
    assert m == q * d + r;
    if r == 0 {
      assert m - 1 == (q - 1) * d + (d - 1);
      QuotientIs(m - 1, d, q - 1, d - 1);
    } else {
      QuotientIs(m - 1, d, q, r - 1);
    }
  }

  lemma QuotientIs(m: nat, d: nat, q: int, r: nat)
    requires d > 0 && r < d && m == q * d + r
    ensures m / d == q
  {
    var q2, r2 := m / d, m % d;
    assert m == q2 * d + r2 && 0 <= r2 < d;
    assert (q - q2) * d == q * d - q2 * d == r2 - r;
    if q > q2 { AtLeastOnce(q - q2, d); }
    if q < q2 { AtLeastOnce(q2 - q, d); }
  }

  lemma AtLeastOnce(a: int, d: nat)
    requires a >= 1
    ensures a * d >= d
  {
    assert a * d == d + (a - 1) * d;
  }

  lemma {:induction false} DroppedOf(own: seq<WireEnvelope>, seen: U64, p: Policy)
    requires p.dropEvery.Some? && p.dropEvery.value > 0 && seen + |own| <= U64_MAX
    ensures |Dropped(own, seen, p)| == (seen + |own|) / p.dropEvery.value - seen / p.dropEvery.value
  {
    hide DropsNth;
    if own != [] {
      DroppedOf(own[..|own| - 1], seen, p);
      assert WrapAdd(seen, |own|) == seen + |own|;
      DropsMultiple(p, seen + |own|);
    }
  }

  lemma DropsMultiple(p: Policy, n: nat)
    requires p.dropEvery.Some? && p.dropEvery.value > 0 && n > 0
    ensures n / p.dropEvery.value == (n - 1) / p.dropEvery.value + (if DropsNth(p, n) then 1 else 0)
  {
    DivStep(n, p.dropEvery.value);
  }

  /** While every step's policy drops each d-th envelope, whatever else changes, exactly every d-th of
      the node's arrivals is dropped. */
  lemma {:induction false} DropsEveryNth(settings: Settings, node: Uuid, arrivals: seq<seq<WireEnvelope>>, n: nat, d: U64)
    requires n <= |arrivals| <= U64_MAX && d > 0
    requires forall s: nat :: s < n ==> PolicyForStep(settings, s).dropEvery == Some(d)
    requires |Accepted(node, arrivals, n)| <= U64_MAX
    ensures |DroppedBefore(settings, node, arrivals, n)| == |Accepted(node, arrivals, n)| / d
  {
    hide Dropped;
    hide Own;
    hide PolicyForStep;
    hide SeenAt;
    if n > 0 {
      DropsEveryNth(settings, node, arrivals, n - 1, d);
      DroppedNext(settings, node, arrivals, n - 1, d);
    } else {
      assert 0 / d == 0;
    }
  }

  lemma DroppedNext(settings: Settings, node: Uuid, arrivals: seq<seq<WireEnvelope>>, n: nat, d: U64)
    requires n < |arrivals| <= U64_MAX && d > 0 && PolicyForStep(settings, n).dropEvery == Some(d)
    requires |Accepted(node, arrivals, n)| + |Own(node, arrivals[n])| <= U64_MAX
    ensures |Dropped(Own(node, arrivals[n]), SeenAt(node, arrivals, n), PolicyForStep(settings, n))| ==
            (|Accepted(node, arrivals, n)| + |Own(node, arrivals[n])|) / d - |Accepted(node, arrivals, n)| / d
  {
    hide Dropped;
    hide Own;
    hide PolicyForStep;
    hide Accepted;
    DroppedOf(Own(node, arrivals[n]), |Accepted(node, arrivals, n)|, PolicyForStep(settings, n));
  }

  lemma {:induction false} DueOfBlock(more: seq<Staged>, releaseStep: U64, step: U64)
    requires forall s :: s in more ==> s.releaseStep == releaseStep
    ensures DueCount(more, step) == if releaseStep <= step then |more| else 0
  {
    if more != [] {
      assert more[0] in more;
      DueOfBlock(more[1..], releaseStep, step);
    }
  }

  lemma {:induction false} DueBlocked(q: seq<Staged>, more: seq<Staged>, step: U64)
    requires DueCount(q, step) < |q|
    ensures DueCount(q + more, step) == DueCount(q, step)
  {
    if q[0].releaseStep <= step {
      assert (q + more)[1..] == q[1..] + more;
      DueBlocked(q[1..], more, step);
    }
  }

  lemma {:induction false} StagedTogether(envs: seq<WireEnvelope>, releaseStep: U64, w: nat)
    ensures forall s :: s in Reordered(Stage(envs, releaseStep), w) ==> s.releaseStep == releaseStep
  {
    var staged := Stage(envs, releaseStep);
    ReorderedMultiset(staged, w);
    forall s | s in Reordered(staged, w) ensures s.releaseStep == releaseStep {
      assert s in multiset(Reordered(staged, w));
      assert s in staged;
      StageReleases(envs, releaseStep);
    }
  }

  lemma {:induction false} StageReleases(envs: seq<WireEnvelope>, releaseStep: U64)
    ensures forall s :: s in Stage(envs, releaseStep) ==> s.releaseStep == releaseStep
  {
    if envs != [] { StageReleases(envs[1..], releaseStep); }
  }

  /** Every policy in force before step `n` delays by `d`; its window and its drops may change. */
  ghost predicate SteadyDelay(settings: Settings, d: U64, n: nat)
    requires n <= U64_MAX
  {
    forall s: nat :: s < n ==> PolicyForStep(settings, s).delaySteps == d
  }

  /** All that enters in a step is to be released in the same step. */
  lemma EnterTogether(settings: Settings, node: Uuid, arrivals: seq<seq<WireEnvelope>>, step: nat)
    requires step < |arrivals| <= U64_MAX
    ensures forall s :: s in EnteringAt(settings, node, arrivals, step) ==>
              s.releaseStep == SatAdd(step, PolicyForStep(settings, step).delaySteps)
  {
    var p := PolicyForStep(settings, step);
    StagedTogether(Survivors(Own(node, arrivals[step]), SeenAt(node, arrivals, step), p), SatAdd(step, p.delaySteps), p.reorderWindow);
  }

  /** With a constant delay, what is due at a step is what entered at least the delay earlier. */
  lemma {:induction false} DueUnderConstantDelay(settings: Settings, node: Uuid, arrivals: seq<seq<WireEnvelope>>, m: nat, step: nat, d: U64)
    requires m <= |arrivals| <= U64_MAX && step < |arrivals| && SteadyDelay(settings, d, m)
    ensures var ripe := if step < d then 0 else if step - d + 1 < m then step - d + 1 else m;
            DueCount(QueueAt(settings, node, arrivals, m), step) == |QueueAt(settings, node, arrivals, ripe)|
  {
    hide EnteringAt;
    hide PolicyForStep;
    hide DueCount;
    if m > 0 {
      DueUnderConstantDelay(settings, node, arrivals, m - 1, step, d);
      EnterTogether(settings, node, arrivals, m - 1);
      BlockJoins(QueueAt(settings, node, arrivals, m - 1), EnteringAt(settings, node, arrivals, m - 1), SatAdd(m - 1, d), step);
    } else {
      NoneDue(step);
    }
  }

  lemma NoneDue(step: U64)
    ensures DueCount([], step) == 0
  {
  }

  /** What enters together is due together, once all that is ahead is. */
  lemma BlockJoins(q: seq<Staged>, more: seq<Staged>, releaseStep: U64, step: U64)
    requires forall s :: s in more ==> s.releaseStep == releaseStep
    ensures DueCount(q + more, step) ==
            if DueCount(q, step) < |q| then DueCount(q, step) else |q| + if releaseStep <= step then |more| else 0
  {
    hide DueCount;
    DueOfBlock(more, releaseStep, step);
    if DueCount(q, step) < |q| {
      DueBlocked(q, more, step);
    } else {
      DueCountMeans(q, step);
      DueAfterDue(q, more, |q|, step);
      assert q[|q|..] + more == more;
    }
  }

  lemma {:induction false} QueuePrefix(settings: Settings, node: Uuid, arrivals: seq<seq<WireEnvelope>>, m: nat, n: nat)
    requires m <= n <= |arrivals| <= U64_MAX
    ensures QueueAt(settings, node, arrivals, m) <= QueueAt(settings, node, arrivals, n)
    decreases n - m
  {
    if m < n { QueuePrefix(settings, node, arrivals, m, n - 1); }
  }

  /** How many steps' worth of arrivals have left before step `n` under a constant delay. */
  function Ripe(n: nat, d: nat): nat {
    if n < d then 0 else n - d
  }

  lemma ReleasedUnderConstantDelay(settings: Settings, node: Uuid, arrivals: seq<seq<WireEnvelope>>, n: nat, d: U64)
    requires n <= |arrivals| <= U64_MAX && SteadyDelay(settings, d, n)
    ensures ReleasedBefore(settings, node, arrivals, n) == Envelopes(QueueAt(settings, node, arrivals, Ripe(n, d)))
  {
    hide InjectorAt;
    hide ReleasedBefore;
    hide Envelopes;
    hide PolicyForStep;
    hide EnteringAt;
    QueueForm(settings, node, arrivals, n);
    var ripe := QueueAt(settings, node, arrivals, Ripe(n, d));
    if n > 0 { DueUnderConstantDelay(settings, node, arrivals, n, n - 1, d); }
    QueuePrefix(settings, node, arrivals, Ripe(n, d), n);
    assert LeftBefore(settings, node, arrivals, n) == |ripe|;
    assert QueueAt(settings, node, arrivals, n)[..|ripe|] == ripe;
  }

  /** While every step's policy delays by `d`, windows and drops free to change, every surviving envelope
      is released exactly `d` steps after its arrival: a step releases the survivors that arrived that
      many steps earlier, in their reordered order, and nothing else. */
  lemma ExactDelay(settings: Settings, node: Uuid, arrivals: seq<seq<WireEnvelope>>, step: nat, d: U64)
    requires step < |arrivals| <= U64_MAX && SteadyDelay(settings, d, step + 1)
    ensures ReleasedDuring(settings, node, arrivals, step) ==
            if step < d then [] else Envelopes(EnteringAt(settings, node, arrivals, step - d))
  {
    hide InjectorAt;
    hide Drain;
    hide Envelopes;
    hide EnteringAt;
    hide ReleasedDuring;
    hide PolicyForStep;
    ReleasedUnderConstantDelay(settings, node, arrivals, step, d);
    ReleasedUnderConstantDelay(settings, node, arrivals, step + 1, d);
    var before := ReleasedBefore(settings, node, arrivals, step);
    assert ReleasedBefore(settings, node, arrivals, step + 1)[|before|..] == ReleasedDuring(settings, node, arrivals, step);
    if step >= d {
      EnvelopesAppend(QueueAt(settings, node, arrivals, step - d), EnteringAt(settings, node, arrivals, step - d));
      assert (before + Envelopes(EnteringAt(settings, node, arrivals, step - d)))[|before|..]
          == Envelopes(EnteringAt(settings, node, arrivals, step - d));
    }
  }

  ghost predicate SortedByRelease(q: seq<Staged>) {
    forall i, j :: 0 <= i < j < |q| ==> q[i].releaseStep <= q[j].releaseStep
  }

  lemma {:induction false} QueueSorted(settings: Settings, node: Uuid, arrivals: seq<seq<WireEnvelope>>, n: nat, d: U64)
    requires n <= |arrivals| <= U64_MAX && SteadyDelay(settings, d, n)
    ensures SortedByRelease(QueueAt(settings, node, arrivals, n))
    ensures forall s :: s in QueueAt(settings, node, arrivals, n) ==> n > 0 && s.releaseStep <= SatAdd(n - 1, d)
  {
    hide EnteringAt;
    hide PolicyForStep;
    if n > 0 {
      QueueSorted(settings, node, arrivals, n - 1, d);
      EnterTogether(settings, node, arrivals, n - 1);
      var q, more := QueueAt(settings, node, arrivals, n - 1), EnteringAt(settings, node, arrivals, n - 1);
      assert forall i :: 0 <= i < |q| ==> q[i] in q;
      assert forall i :: 0 <= i < |more| ==> more[i] in more;
    }
  }

  /** While every step's policy delays by the same number of steps, what is pending is sorted by release
      step, so nothing ever waits for an envelope ahead of it. */
  lemma PendingSorted(settings: Settings, node: Uuid, arrivals: seq<seq<WireEnvelope>>, n: nat, d: U64)
    requires n <= |arrivals| <= U64_MAX && SteadyDelay(settings, d, n)
    ensures SortedByRelease(InjectorAt(settings, node, arrivals, n).pending)
  {
    hide InjectorAt;
    hide ReleasedBefore;
    hide QueueAt;
    hide LeftBefore;
    hide PolicyForStep;
    QueueForm(settings, node, arrivals, n);
    QueueSorted(settings, node, arrivals, n, d);
  }

  // ---- when each envelope leaves, under any policies ----

  /** The greatest release step among the first `i + 1` entries of the queue. */
  function LatestAhead(q: seq<Staged>, i: nat): (r: U64)
    requires i < |q|
    ensures forall j :: 0 <= j <= i ==> q[j].releaseStep <= r
    ensures exists j :: 0 <= j <= i && q[j].releaseStep == r
  {
    if i == 0 || LatestAhead(q, i - 1) <= q[i].releaseStep then q[i].releaseStep else LatestAhead(q, i - 1)
  }

  /** What enters the queue from step `n` on is not released earlier. */
  lemma {:induction false} LateEntries(settings: Settings, node: Uuid, arrivals: seq<seq<WireEnvelope>>, n: nat, m: nat, i: nat)
    requires n <= m <= |arrivals| <= U64_MAX
    requires |QueueAt(settings, node, arrivals, n)| <= i < |QueueAt(settings, node, arrivals, m)|
    ensures QueueAt(settings, node, arrivals, m)[i].releaseStep >= n
    decreases m
  {
    hide EnteringAt;
    hide PolicyForStep;
    var before := QueueAt(settings, node, arrivals, m - 1);
    if i < |before| {
      LateEntries(settings, node, arrivals, n, m - 1, i);
    } else {
      EnterTogether(settings, node, arrivals, m - 1);
      var more := EnteringAt(settings, node, arrivals, m - 1);
      assert more[i - |before|] in more;
    }
  }

  /** Before step `n` the i-th entry of the queue has left if and only if the run has reached its own
      release step and those of everything ahead of it. */
  lemma HasLeft(settings: Settings, node: Uuid, arrivals: seq<seq<WireEnvelope>>, m: nat, n: nat, i: nat)
    requires m <= |arrivals| <= U64_MAX && 0 < n <= |arrivals| && i < |QueueAt(settings, node, arrivals, m)|
    ensures var q := QueueAt(settings, node, arrivals, m);
            && (i < LeftBefore(settings, node, arrivals, n) <==> forall j :: 0 <= j <= i ==> q[j].releaseStep <= n - 1)
            && (i < LeftBefore(settings, node, arrivals, n) <==> LatestAhead(q, i) <= n - 1)
  {
    hide QueueAt;
    var q, now := QueueAt(settings, node, arrivals, m), QueueAt(settings, node, arrivals, n);
    DueCountMeans(now, n - 1);
    if m <= n {
      QueuePrefix(settings, node, arrivals, m, n);
      assert forall j :: 0 <= j < |q| ==> q[j] == now[j];
    } else {
      QueuePrefix(settings, node, arrivals, n, m);
      assert forall j :: 0 <= j < |now| ==> q[j] == now[j];
      if i >= |now| { LateEntries(settings, node, arrivals, n, m, i); }
    }
  }

  /** Release timing under any policy changes: of all that enters the queue in a run, a step releases
      exactly the stretch of entries whose own release step, or one of those ahead, is that step and
      the latest of them; so each envelope leaves once, at the first step that reaches its own release
      step and those of everything ahead of it. */
  lemma LeavesInStep(settings: Settings, node: Uuid, arrivals: seq<seq<WireEnvelope>>, n: nat, step: nat)
    requires step < n <= |arrivals| <= U64_MAX
    ensures var q := QueueAt(settings, node, arrivals, n);
            var lo, hi := LeftBefore(settings, node, arrivals, step), LeftBefore(settings, node, arrivals, step + 1);
            && lo <= hi <= |q| && ReleasedDuring(settings, node, arrivals, step) == Envelopes(q[lo..hi])
            && forall i :: 0 <= i < |q| ==> (lo <= i < hi <==> LatestAhead(q, i) == step)
  {
    hide QueueAt;
    hide LeftBefore;
    hide LatestAhead;
    hide InjectorAt;
    hide ReleasedDuring;
    hide PolicyForStep;
    var q := QueueAt(settings, node, arrivals, n);
    var lo, hi := LeftBefore(settings, node, arrivals, step), LeftBefore(settings, node, arrivals, step + 1);
    ReleasedStretch(settings, node, arrivals, n, step);
    forall i | 0 <= i < |q| ensures lo <= i < hi <==> LatestAhead(q, i) == step {
      HasLeft(settings, node, arrivals, n, step + 1, i);
      if step > 0 { HasLeft(settings, node, arrivals, n, step, i); } else { NothingLeftYet(settings, node, arrivals); }
    }
  }

  lemma NothingLeftYet(settings: Settings, node: Uuid, arrivals: seq<seq<WireEnvelope>>)
    requires |arrivals| <= U64_MAX
    ensures LeftBefore(settings, node, arrivals, 0) == 0
  {
  }

  lemma ReleasedStretch(settings: Settings, node: Uuid, arrivals: seq<seq<WireEnvelope>>, n: nat, step: nat)
    requires step < n <= |arrivals| <= U64_MAX
    ensures var q := QueueAt(settings, node, arrivals, n);
            var lo, hi := LeftBefore(settings, node, arrivals, step), LeftBefore(settings, node, arrivals, step + 1);
            lo <= hi <= |q| && ReleasedDuring(settings, node, arrivals, step) == Envelopes(q[lo..hi])
  {
    hide QueueAt;
    hide LeftBefore;
    hide InjectorAt;
    hide ReleasedDuring;
    hide PolicyForStep;
    hide SeenAt;
    hide Envelopes;
    var q := QueueAt(settings, node, arrivals, n);
    var lo, hi := LeftBefore(settings, node, arrivals, step), LeftBefore(settings, node, arrivals, step + 1);
    QueueForm(settings, node, arrivals, step);
    QueueForm(settings, node, arrivals, step + 1);
    QueuePrefix(settings, node, arrivals, step, n);
    QueuePrefix(settings, node, arrivals, step + 1, n);
    var before, after := ReleasedBefore(settings, node, arrivals, step), ReleasedBefore(settings, node, arrivals, step + 1);
    assert before == Envelopes(q[..lo]) by { assert QueueAt(settings, node, arrivals, step)[..lo] == q[..lo]; }
    assert after == Envelopes(q[..hi]) by { assert QueueAt(settings, node, arrivals, step + 1)[..hi] == q[..hi]; }
    assert after == before + ReleasedDuring(settings, node, arrivals, step);
    assert q[..hi][..lo] == q[..lo] && q[..hi] == q[..lo] + q[lo..hi];
    EnvelopesAppend(q[..lo], q[lo..hi]);
    assert (before + Envelopes(q[lo..hi]))[|before|..] == Envelopes(q[lo..hi]);
  }

  // ---- the fault evidence in the trace ----

  function Reorders(evs: seq<EventKind>): seq<EventKind> {
    if evs == [] then []
    else (if evs[0].FaultInjected? && evs[0].action.Reorder? then [evs[0]] else []) + Reorders(evs[1..])
  }

  function Drops(evs: seq<EventKind>): seq<EventKind> {
    if evs == [] then []
    else (if evs[0].FaultInjected? && evs[0].action.Drop? then [evs[0]] else []) + Drops(evs[1..])
  }

  function DropEvents(node: Uuid, envs: seq<WireEnvelope>): seq<EventKind> {
    if envs == [] then []
    else DropEvents(node, envs[..|envs| - 1]) + [FaultEvent(node, envs[|envs| - 1], Drop)]
  }

  lemma {:induction false} ReordersOfBoth(a: seq<EventKind>, b: seq<EventKind>)
    ensures Reorders(a + b) == Reorders(a) + Reorders(b)
  {
    if a == [] {
      assert a + b == b;
    } else {
      assert (a + b)[1..] == a[1..] + b && (a + b)[0] == a[0];
      ReordersOfBoth(a[1..], b);
    }
  }

  lemma {:induction false} DropsOfBoth(a: seq<EventKind>, b: seq<EventKind>)
    ensures Drops(a + b) == Drops(a) + Drops(b)
  {
    if a == [] {
      assert a + b == b;
    } else {
      assert (a + b)[1..] == a[1..] + b && (a + b)[0] == a[0];
      DropsOfBoth(a[1..], b);
    }
  }

  lemma EvidenceAppends(a: seq<EventKind>, b: seq<EventKind>)
    ensures Reorders(a + b) == Reorders(a) + Reorders(b)
    ensures Drops(a + b) == Drops(a) + Drops(b)
  {
    ReordersOfBoth(a, b);
    DropsOfBoth(a, b);
  }

  lemma {:induction false} ReorderEventsEvidence(node: Uuid, chunk: seq<Staged>, w: U64)
    ensures Reorders(ReorderEvents(node, chunk, w)) == ReorderEvents(node, chunk, w)
    ensures Drops(ReorderEvents(node, chunk, w)) == []
  {
    if chunk != [] { ReorderEventsEvidence(node, chunk[1..], w); }
  }

  lemma {:induction false} ReorderEventsAppend(node: Uuid, a: seq<Staged>, b: seq<Staged>, w: U64)
    ensures ReorderEvents(node, a + b, w) == ReorderEvents(node, a, w) + ReorderEvents(node, b, w)
  {
    if a == [] {
      assert a + b == b;
    } else {
      assert (a + b)[1..] == a[1..] + b;
      ReorderEventsAppend(node, a[1..], b, w);
    }
  }

  /** The part of the arrivals that a drain reverses: all of it but a last chunk of one. */
  function Shuffled<T>(s: seq<T>, w: nat): seq<T>
    decreases |s|
  {
    if w <= 1 then []
    else if |s| < w then if |s| > 1 then s else []
    else s[..w] + Shuffled(s[w..], w)
  }

  function FullPart<T>(s: seq<T>, w: nat): seq<T>
    requires w > 0
    decreases |s|
  {
    if |s| < w then [] else s[..w] + FullPart(s[w..], w)
  }

  lemma {:induction false} ShuffledSplits<T>(s: seq<T>, w: nat)
    requires w > 1
    ensures Shuffled(s, w) == FullPart(s, w) + if |Tail(s, w)| > 1 then Tail(s, w) else []
    decreases |s|
  {
    if |s| >= w {
      ShuffledSplits(s[w..], w);
      var t := if |Tail(s, w)| > 1 then Tail(s, w) else [];
      assert s[..w] + FullPart(s[w..], w) + t == s[..w] + (FullPart(s[w..], w) + t);
    }
  }

  lemma {:induction false} ArrivalJoinsPart<T>(s: seq<T>, x: T, w: nat)
    requires w > 1
    ensures |Tail(s, w)| + 1 < w ==> FullPart(s + [x], w) == FullPart(s, w)
    ensures |Tail(s, w)| + 1 == w ==> FullPart(s + [x], w) == FullPart(s, w) + (Tail(s, w) + [x])
    decreases |s|
  {
    if |s| >= w {
      assert (s + [x])[..w] == s[..w] && (s + [x])[w..] == s[w..] + [x];
      ArrivalJoinsPart(s[w..], x, w);
      if |Tail(s, w)| + 1 == w {
        assert s[..w] + FullPart(s[w..], w) + (Tail(s, w) + [x]) == s[..w] + (FullPart(s[w..], w) + (Tail(s, w) + [x]));
      }
    } else if |s| + 1 == w {
      assert (s + [x])[..w] == s + [x] && (s + [x])[w..] == [];
    }
  }

  /** The fault evidence a drain has written after letting `own` in. */
  ghost predicate EvidenceSoFar(start: Injector, node: Uuid, step: U64, own: seq<WireEnvelope>, evs: seq<EventKind>) {
    var p := start.active;
    var staged := Stage(Survivors(own, start.seen, p), SatAdd(step, p.delaySteps));
    && Drops(evs) == DropEvents(node, Dropped(own, start.seen, p))
    && Reorders(evs) == if p.reorderWindow <= 1 then [] else ReorderEvents(node, FullPart(staged, p.reorderWindow), p.reorderWindow)
  }

  lemma FlushFullEvents(inj: Injector, node: Uuid, w: U64)
    requires w > 1 && |inj.reorderBuf| <= w
    ensures FlushFull(inj, node, w).events ==
            if |inj.reorderBuf| < w then [] else ReorderEvents(node, inj.reorderBuf, w)
  {
    if |inj.reorderBuf| == w {
      assert inj.reorderBuf[..w] == inj.reorderBuf && inj.reorderBuf[w..] == [];
      var f := FlushChunk(inj, node, w);
      assert FlushFull(f.inj, node, w).events == [];
      assert f.events + [] == f.events;
    }
  }

  /** What letting one envelope in writes: one Drop, or an optional Delay and a completed chunk. */
  lemma AdmitEvidence(start: Injector, node: Uuid, own: seq<WireEnvelope>, e: WireEnvelope, step: U64)
    ensures var inj := MidDrain(start, own, step);
            var p := start.active;
            var evs := Admit(inj, node, step, e).events;
            var tail := inj.reorderBuf + [Staged(e, SatAdd(step, p.delaySteps))];
            if DropsNth(p, WrapAdd(start.seen, |own| + 1)) then
              Drops(evs) == [FaultEvent(node, e, Drop)] && Reorders(evs) == []
            else
              Drops(evs) == [] && Reorders(evs) ==
                if p.reorderWindow <= 1 || |inj.reorderBuf| + 1 != p.reorderWindow then Reorders([])
                else ReorderEvents(node, tail, p.reorderWindow)
    requires Settled(start)
  {
    hide Survivors;
    hide Stage;
    hide FullChunks;
    hide DropsNth;
    hide WrapAdd;
    hide FlushFull;
    hide ReorderEvents;
    var p := start.active;
    var w := p.reorderWindow;
    var inj := MidDrain(start, own, step);
    WrapAddNext(start.seen, |own|);
    if !DropsNth(p, WrapAdd(start.seen, |own| + 1)) && w > 1 {
      var x := Staged(e, SatAdd(step, p.delaySteps));
      ReorderedSplits(Stage(Survivors(own, start.seen, p), SatAdd(step, p.delaySteps)), w);
      var grown := inj.(seen := WrapInc(inj.seen), reorderBuf := inj.reorderBuf + [x]);
      FlushFullEvents(grown, node, w);
      ReorderEventsEvidence(node, grown.reorderBuf, w);
      var delayed := if p.delaySteps > 0 then [FaultEvent(node, e, Delay(p.delaySteps))] else [];
      EvidenceAppends(delayed, FlushFull(grown, node, w).events);
    }
  }

  lemma DroppedAppend(own: seq<WireEnvelope>, e: WireEnvelope, seen: U64, p: Policy, node: Uuid)
    ensures DropEvents(node, Dropped(own + [e], seen, p)) == DropEvents(node, Dropped(own, seen, p))
              + if DropsNth(p, WrapAdd(seen, |own| + 1)) then [FaultEvent(node, e, Drop)] else []
  {
    hide DropsNth;
    hide WrapAdd;
    assert (own + [e])[..|own|] == own;
    var before := Dropped(own, seen, p);
    assert (before + [e])[..|before|] == before;
    assert before + [] == before;
  }

  lemma EvidenceStep(start: Injector, node: Uuid, own: seq<WireEnvelope>, e: WireEnvelope, step: U64, evs: seq<EventKind>)
    requires Settled(start) && EvidenceSoFar(start, node, step, own, evs)
    ensures EvidenceSoFar(start, node, step, own + [e], evs + Admit(MidDrain(start, own, step), node, step, e).events)
  {
    hide Admit;
    hide DropsNth;
    hide WrapAdd;
    hide Survivors;
    hide Dropped;
    hide FullChunks;
    hide FullPart;
    var p := start.active;
    var w := p.reorderWindow;
    var release := SatAdd(step, p.delaySteps);
    var staged := Stage(Survivors(own, start.seen, p), release);
    AdmitEvidence(start, node, own, e, step);
    EvidenceAppends(evs, Admit(MidDrain(start, own, step), node, step, e).events);
    DroppedAppend(own, e, start.seen, p, node);
    if DropsNth(p, WrapAdd(start.seen, |own| + 1)) {
      SurvivorsDropped(own, e, start.seen, p);
    } else {
      SurvivorsKept(own, e, start.seen, p, release);
      if w > 1 {
        var x := Staged(e, release);
        ReorderedSplits(staged, w);
        ArrivalJoinsPart(staged, x, w);
        ReorderEventsAppend(node, FullPart(staged, w), Tail(staged, w) + [x], w);
      }
    }
  }

  lemma SurvivorsDropped(own: seq<WireEnvelope>, e: WireEnvelope, seen: U64, p: Policy)
    requires DropsNth(p, WrapAdd(seen, |own| + 1))
    ensures Survivors(own + [e], seen, p) == Survivors(own, seen, p)
  {
    assert (own + [e])[..|own|] == own;
  }

  lemma {:induction false} IngestAllEvidence(start: Injector, node: Uuid, step: U64, arrivals: seq<WireEnvelope>)
    requires Settled(start) && start.initialized && start.active == PolicyForStep(start.settings, step)
    ensures EvidenceSoFar(start, node, step, Own(node, arrivals), IngestAll(start, node, step, arrivals).events)
    decreases |arrivals|
  {
    hide Admit;
    hide EvidenceSoFar;
    if arrivals == [] {
      NoEvidenceYet(start, node, step);
    } else {
      var front := arrivals[..|arrivals| - 1];
      var last := arrivals[|arrivals| - 1];
      IngestAllEvidence(start, node, step, front);
      IngestAllForm(start, node, step, front);
      if last.toNode == node {
        EvidenceStep(start, node, Own(node, front), last, step, IngestAll(start, node, step, front).events);
        var a := Admit(MidDrain(start, Own(node, front), step), node, step, last);
        assert Ingest(MidDrain(start, Own(node, front), step), node, step, last).events == [] + a.events == a.events;
      } else {
        assert Own(node, arrivals) == Own(node, front);
      }
    }
  }

  lemma NoEvidenceYet(start: Injector, node: Uuid, step: U64)
    ensures EvidenceSoFar(start, node, step, [], [])
  {
  }

  /** The evidence one drain leaves in the trace: exactly the dropped envelopes have a Drop event, in
      order, and exactly those reversed in a chunk of more than one have a Reorder event, in order. */
  lemma DrainEvidence(inj: Injector, node: Uuid, step: U64, arrivals: seq<WireEnvelope>)
    requires Settled(inj)
    ensures var p := PolicyForStep(inj.settings, step);
            var own := Own(node, arrivals);
            var staged := Stage(Survivors(own, inj.seen, p), SatAdd(step, p.delaySteps));
            var evs := Drain(inj, node, step, arrivals).events;
            && Drops(evs) == DropEvents(node, Dropped(own, inj.seen, p))
            && Reorders(evs) == ReorderEvents(node, Shuffled(staged, p.reorderWindow), p.reorderWindow)
  {
    hide IngestAll;
    hide PolicyForStep;
    hide FlushRemainder;
    hide FullChunks;
    hide Survivors;
    hide Dropped;
    var p := PolicyForStep(inj.settings, step);
    var own := Own(node, arrivals);
    SyncSettled(inj, node, step);
    var synced := SyncPolicy(inj, node, step);
    IngestAllEvidence(synced.inj, node, step, arrivals);
    IngestAllForm(synced.inj, node, step, arrivals);
    var a := IngestAll(synced.inj, node, step, arrivals);
    var f := FlushRemainder(a.inj, node, p.reorderWindow).events;
    RemainderEvidence(synced.inj, node, own, step);
    EvidenceAppends(synced.events, a.events);
    EvidenceAppends(synced.events + a.events, f);
    assert Drops(synced.events) == [] && Reorders(synced.events) == [];
    assert [] + Drops(a.events) == Drops(a.events) && [] + Reorders(a.events) == Reorders(a.events);
  }

  lemma RemainderEvidence(start: Injector, node: Uuid, own: seq<WireEnvelope>, step: U64)
    requires Settled(start)
    ensures var w := start.active.reorderWindow;
            var staged := Stage(Survivors(own, start.seen, start.active), SatAdd(step, start.active.delaySteps));
            var evs := FlushRemainder(MidDrain(start, own, step), node, w).events;
            && Drops(evs) == []
            && ReorderEvents(node, Shuffled(staged, w), w)
                 == (if w <= 1 then [] else ReorderEvents(node, FullPart(staged, w), w)) + Reorders(evs)
  {
    hide Survivors;
    hide FullChunks;
    hide Stage;
    hide WrapAdd;
    var w := start.active.reorderWindow;
    var staged := Stage(Survivors(own, start.seen, start.active), SatAdd(step, start.active.delaySteps));
    if w > 1 {
      ReorderedSplits(staged, w);
      ShuffledSplits(staged, w);
      var tail := Tail(staged, w);
      assert tail[..|tail|] == tail;
      ReorderEventsEvidence(node, tail, w);
      ReorderEventsAppend(node, FullPart(staged, w), if |tail| > 1 then tail else [], w);
    }
  }

  // ---- policy evidence ----

  function LatestPolicy(evs: seq<EventKind>): Option<EventKind> {
    if evs == [] then None
    else if evs[|evs| - 1].FaultPolicyEvent? then Some(evs[|evs| - 1])
    else LatestPolicy(evs[..|evs| - 1])
  }

  lemma {:induction false} LatestOf(a: seq<EventKind>, b: seq<EventKind>)
    ensures LatestPolicy(a + b) == if LatestPolicy(b).Some? then LatestPolicy(b) else LatestPolicy(a)
  {
    if b == [] {
      assert a + b == a;
    } else {
      assert (a + b)[..|a + b| - 1] == a + b[..|b| - 1];
      LatestOf(a, b[..|b| - 1]);
    }
  }

  ghost predicate NoPolicyEvents(evs: seq<EventKind>) {
    forall e :: e in evs ==> e.FaultInjected?
  }

  lemma {:induction false} NoneLatest(evs: seq<EventKind>)
    requires NoPolicyEvents(evs)
    ensures LatestPolicy(evs) == None
  {
    if evs != [] {
      assert evs[|evs| - 1] in evs;
      NoneLatest(evs[..|evs| - 1]);
    }
  }

  lemma {:induction false} ReorderEventsNoPolicy(node: Uuid, chunk: seq<Staged>, w: U64)
    ensures NoPolicyEvents(ReorderEvents(node, chunk, w))
  {
    if chunk != [] { ReorderEventsNoPolicy(node, chunk[1..], w); }
  }

  lemma {:induction false} FlushFullNoPolicy(inj: Injector, node: Uuid, w: U64)
    requires w > 0
    ensures NoPolicyEvents(FlushFull(inj, node, w).events)
    decreases |inj.reorderBuf|
  {
    if |inj.reorderBuf| >= w {
      ReorderEventsNoPolicy(node, inj.reorderBuf[..w], w);
      FlushFullNoPolicy(FlushChunk(inj, node, w).inj, node, w);
    }
  }

  lemma {:induction false} IngestAllNoPolicy(start: Injector, node: Uuid, step: U64, arrivals: seq<WireEnvelope>)
    requires Settled(start) && start.initialized && start.active == PolicyForStep(start.settings, step)
    ensures NoPolicyEvents(IngestAll(start, node, step, arrivals).events)
    decreases |arrivals|
  {
    if arrivals != [] {
      var front := arrivals[..|arrivals| - 1];
      var last := arrivals[|arrivals| - 1];
      IngestAllNoPolicy(start, node, step, front);
      IngestAllForm(start, node, step, front);
      if last.toNode == node {
        AdmitNoPolicy(MidDrain(start, Own(node, front), step), node, step, last);
      }
    }
  }

  lemma AdmitNoPolicy(inj: Injector, node: Uuid, step: U64, e: WireEnvelope)
    ensures NoPolicyEvents(Admit(inj, node, step, e).events)
  {
    var p := inj.active;
    if p.reorderWindow > 1 {
      var x := Staged(e, SatAdd(step, p.delaySteps));
      FlushFullNoPolicy(inj.(seen := WrapInc(inj.seen), reorderBuf := inj.reorderBuf + [x]), node, p.reorderWindow);
    }
  }

  lemma DrainPolicyEvents(inj: Injector, node: Uuid, step: U64, arrivals: seq<WireEnvelope>)
    requires Settled(inj)
    ensures LatestPolicy(Drain(inj, node, step, arrivals).events) ==
            if inj.initialized && inj.active == PolicyForStep(inj.settings, step) then None
            else Some(PolicyEvent(node, step, PolicyForStep(inj.settings, step)))
  {
    hide IngestAll;
    hide PolicyForStep;
    SyncSettled(inj, node, step);
    var synced := SyncPolicy(inj, node, step);
    IngestAllNoPolicy(synced.inj, node, step, arrivals);
    var a := IngestAll(synced.inj, node, step, arrivals);
    var f := FlushRemainder(a.inj, node, a.inj.active.reorderWindow);
    RemainderNoPolicy(a.inj, node);
    NoneLatest(a.events);
    NoneLatest(f.events);
    LatestOf(synced.events, a.events);
    LatestOf(synced.events + a.events, f.events);
  }

  lemma RemainderNoPolicy(inj: Injector, node: Uuid)
    ensures NoPolicyEvents(FlushRemainder(inj, node, inj.active.reorderWindow).events)
  {
    var w := inj.active.reorderWindow;
    if inj.reorderBuf != [] {
      ReorderEventsNoPolicy(node, inj.reorderBuf[..if w <= |inj.reorderBuf| then w else |inj.reorderBuf|], w);
    }
  }

  predicate Announces(ev: Option<EventKind>, node: Uuid, p: Policy) {
    ev.Some? && ev.value.FaultPolicyEvent? && ev.value == PolicyEvent(node, ev.value.step, p)
  }

  /** After every step the latest FaultPolicy event in the trace announces the policy of that step. */
  lemma {:induction false} PolicyEvidence(settings: Settings, node: Uuid, arrivals: seq<seq<WireEnvelope>>, n: nat)
    requires 0 < n <= |arrivals| <= U64_MAX
    ensures Announces(LatestPolicy(EventsBefore(settings, node, arrivals, n)), node, PolicyForStep(settings, n - 1))
  {
    hide PolicyForStep;
    hide Drain;
    hide InjectorAt;
    var inj := InjectorAt(settings, node, arrivals, n - 1);
    QueueForm(settings, node, arrivals, n - 1);
    DrainPolicyEvents(inj, node, n - 1, arrivals[n - 1]);
    LatestOf(EventsBefore(settings, node, arrivals, n - 1), Drain(inj, node, n - 1, arrivals[n - 1]).events);
    if n > 1 {
      PolicyEvidence(settings, node, arrivals, n - 1);
    } else {
      assert !inj.initialized by { FirstInjector(settings, node, arrivals); }
    }
  }

  lemma FirstInjector(settings: Settings, node: Uuid, arrivals: seq<seq<WireEnvelope>>)
    requires |arrivals| <= U64_MAX
    ensures InjectorAt(settings, node, arrivals, 0) == NewInjector(settings)
  {
  }
}
