/** Fault policies and the phases that override them. */
module Faults {
  import opened Base
  import opened Sorting

  datatype Policy = Policy(dropEvery: Option<U64>, delaySteps: U64, reorderWindow: U64)

  datatype Phase = Phase(start: U64, end: Option<U64>, policy: Policy)

  datatype Settings = Settings(base: Policy, phases: seq<Phase>)

  predicate IsActive(p: Phase, step: U64) {
    p.start <= step && (p.end.Some? ==> step <= p.end.value)
  }

  /** The policy of the last active phase, or the base policy. */
  function PolicyForStep(s: Settings, step: U64): Policy {
    PolicyAmong(s.base, s.phases, step)
  }

  function PolicyAmong(base: Policy, phases: seq<Phase>, step: U64): Policy {
    if phases == [] then base
    else
      var last := phases[|phases| - 1];
      if IsActive(last, step) then last.policy else PolicyAmong(base, phases[..|phases| - 1], step)
  }

  ghost predicate NonEmpty(p: Phase) {
    exists step: U64 :: IsActive(p, step)
  }

  ghost predicate Disjoint(p: Phase, q: Phase) {
    forall step: U64 :: !(IsActive(p, step) && IsActive(q, step))
  }

  /** The documented demand on a list of phases. */
  ghost predicate PhasesOk(phases: seq<Phase>) {
    && (forall i :: 0 <= i < |phases| ==> NonEmpty(phases[i]))
    && (forall i, j :: 0 <= i < j < |phases| ==> Disjoint(phases[i], phases[j]))
  }

  function PhaseStart(p: Phase): int { p.start }

  lemma NonEmptyMeans(p: Phase)
    ensures NonEmpty(p) <==> (p.end.Some? ==> p.start <= p.end.value)
  {
    if p.end.Some? ==> p.start <= p.end.value { assert IsActive(p, p.start); }
  }

  /** Whether this phase may directly follow that one in start order. */
  predicate MayFollow(prev: Phase, next: Phase) {
    prev.end.Some? && prev.end.value < next.start
  }

  /** In start order, disjoint neighbours are what makes all phases disjoint. */
  lemma FollowsMeans(prev: Phase, next: Phase)
    requires prev.start <= next.start && NonEmpty(next)
    ensures MayFollow(prev, next) <==> Disjoint(prev, next)
  {
    NonEmptyMeans(next);
    if !MayFollow(prev, next) {
      assert IsActive(prev, next.start) && IsActive(next, next.start);
    }
  }

  /** The loop of `sort_and_validate_phases` over phases already sorted by start step. */
  method ValidateSorted(phases: seq<Phase>) returns (r: Result<()>)
    requires SortedBy(PhaseStart, phases)
    ensures r.Ok? <==> PhasesOk(phases)
  {
    var prevEnd: Option<U64> := None;
    for idx := 0 to |phases|
      invariant idx > 0 ==> prevEnd == phases[idx - 1].end
      invariant idx == 0 ==> prevEnd == None
      invariant forall i :: 0 <= i < idx ==> NonEmpty(phases[i])
      invariant forall i :: 0 <= i < idx - 1 ==> MayFollow(phases[i], phases[i + 1])
    {
      var phase := phases[idx];
      NonEmptyMeans(phase);
      if phase.end.Some? && phase.end.value < phase.start { return Err(EmptyPhase); }
      if idx > 0 { FollowsMeans(phases[idx - 1], phase); }
      if prevEnd.Some? && phase.start <= prevEnd.value { return Err(OverlappingPhases); }
      if prevEnd.None? && idx > 0 { return Err(OpenPhaseNotLast); }
      prevEnd := phase.end;
    }
    ChainDisjoint(phases);
    r := Ok(());
  }

  lemma ChainDisjoint(phases: seq<Phase>)
    requires SortedBy(PhaseStart, phases)
    requires forall i :: 0 <= i < |phases| ==> NonEmpty(phases[i])
    requires forall i :: 0 <= i < |phases| - 1 ==> MayFollow(phases[i], phases[i + 1])
    ensures PhasesOk(phases)
  {
    forall i, j | 0 <= i < j < |phases| ensures Disjoint(phases[i], phases[j]) {
      assert MayFollow(phases[i], phases[i + 1]);
      assert PhaseStart(phases[i + 1]) <= PhaseStart(phases[j]);
    }
  }

  /** `sort_and_validate_phases`: succeeds exactly when every phase covers some step and no two
      cover the same step, whatever order they were given in. */
  method SortAndValidatePhases(s: Settings) returns (r: Result<Settings>)
    ensures r.Ok? <==> PhasesOk(s.phases)
    ensures r.Ok? ==> r.value.base == s.base && SortedBy(PhaseStart, r.value.phases)
                      && multiset(r.value.phases) == multiset(s.phases)
                      && forall step: U64 :: PolicyForStep(r.value, step) == PolicyForStep(s, step)
  {
    var sorted := SortBy(PhaseStart, s.phases);
    SortByMultiset(PhaseStart, s.phases);
    SortBySorted(PhaseStart, s.phases);
    if PhasesOk(s.phases) { PhasesOkPermuted(s.phases, sorted); }
    if PhasesOk(sorted) { PhasesOkPermuted(sorted, s.phases); }
    var checked := ValidateSorted(sorted);
    if checked.Err? { return Err(checked.error); }
    forall step: U64 ensures PolicyForStep(Settings(s.base, sorted), step) == PolicyForStep(s, step) {
      LookupPermuted(s.base, sorted, s.phases, step);
    }
    r := Ok(Settings(s.base, sorted));
  }

  lemma {:induction false} TwoPlaces(a: seq<Phase>, i: nat, j: nat)
    requires i < j < |a| && a[i] == a[j]
    ensures multiset(a)[a[i]] >= 2
  {
    assert a == a[..j] + [a[j]] + a[j + 1..];
    assert a[..j][i] == a[i];
  }

  lemma {:induction false} OnePlace(a: seq<Phase>, p: Phase)
    requires multiset(a)[p] >= 2
    ensures exists i, j :: 0 <= i < j < |a| && a[i] == p && a[j] == p
  {
    assert p in multiset(a);
    var i :| 0 <= i < |a| && a[i] == p;
    assert a == a[..i] + [p] + a[i + 1..];
    assert p in a[..i] || p in a[i + 1..];
    if p in a[..i] {
      var k :| 0 <= k < i && a[..i][k] == p;
      assert a[k] == p && k < i;
    } else {
      var k :| 0 <= k < |a| - i - 1 && a[i + 1..][k] == p;
      assert a[i + 1 + k] == p;
    }
  }

  /** The demand on phases does not depend on the order they are listed in. */
  lemma PhasesOkPermuted(a: seq<Phase>, b: seq<Phase>)
    requires multiset(a) == multiset(b) && PhasesOk(a)
    ensures PhasesOk(b)
  {
    forall i | 0 <= i < |b| ensures NonEmpty(b[i]) {
      assert b[i] in multiset(b);
      assert b[i] in a;
    }
    forall i, j | 0 <= i < j < |b| ensures Disjoint(b[i], b[j]) {
      if b[i] == b[j] {
        TwoPlaces(b, i, j);
        OnePlace(a, b[i]);
      } else {
        assert b[i] in multiset(b) && b[j] in multiset(b);
        var k :| 0 <= k < |a| && a[k] == b[i];
        var m :| 0 <= m < |a| && a[m] == b[j];
        assert k < m || m < k;
      }
    }
  }

  lemma {:induction false} LookupWitness(base: Policy, phases: seq<Phase>, step: U64)
    ensures (exists p :: p in phases && IsActive(p, step) && PolicyAmong(base, phases, step) == p.policy)
            || ((forall p :: p in phases ==> !IsActive(p, step)) && PolicyAmong(base, phases, step) == base)
  {
    if phases != [] {
      var last := phases[|phases| - 1];
      var front := phases[..|phases| - 1];
      assert phases == front + [last];
      if !IsActive(last, step) { LookupWitness(base, front, step); }
    }
  }

  /** With disjoint phases at most one is active at a step, so the last-wins lookup is the same in
      every order. */
  lemma LookupPermuted(base: Policy, a: seq<Phase>, b: seq<Phase>, step: U64)
    requires PhasesOk(a) && multiset(a) == multiset(b)
    ensures PolicyAmong(base, a, step) == PolicyAmong(base, b, step)
  {
    LookupWitness(base, a, step);
    LookupWitness(base, b, step);
    forall p ensures p in a <==> p in b {
      assert p in multiset(a) <==> p in multiset(b);
    }
    forall p, q | p in a && q in a && IsActive(p, step) && IsActive(q, step) ensures p == q {
      AtMostOneActive(a, p, q, step);
    }
  }

  lemma AtMostOneActive(phases: seq<Phase>, p: Phase, q: Phase, step: U64)
    requires PhasesOk(phases) && p in phases && q in phases && IsActive(p, step) && IsActive(q, step)
    ensures p == q
  {
    var i :| 0 <= i < |phases| && phases[i] == p;
    var j :| 0 <= j < |phases| && phases[j] == q;
    assert !Disjoint(p, q) && !Disjoint(q, p);
    assert i == j;
  }
}
