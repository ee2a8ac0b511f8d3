/** The trace file a recording node writes. */
module TraceFile {
  import opened Base
  import opened Events

  /** The seed every run writes. */
  const SEED: U64 := 12345

  /** The number of the n-th event: a 64-bit counter that wraps around. */
  function SeqNo(n: nat): (r: U64)
    ensures n <= U64_MAX ==> r == n
  {
    n % (U64_MAX + 1)
  }

  /** The trace file of a run: its events numbered in order, all with the run's seed. */
  function StampAll(kinds: seq<EventKind>): (r: seq<TraceEvent>)
    ensures |r| == |kinds|
  {
    if kinds == [] then []
    else
      var n := |kinds| - 1;
      StampAll(kinds[..n]) + [TraceEvent(SeqNo(n), SEED, kinds[n])]
  }

  /** Each event of the file has its place as its number, modulo 2^64, and the seed 12345. */
  lemma {:induction false} StampAt(kinds: seq<EventKind>, i: nat)
    requires i < |kinds|
    ensures StampAll(kinds)[i] == TraceEvent(i % 0x1_0000_0000_0000_0000, 12345, kinds[i])
    decreases |kinds|
  {
    if i < |kinds| - 1 { StampAt(kinds[..|kinds| - 1], i); }
  }

  lemma StampSnoc(front: seq<EventKind>, k: EventKind)
    ensures StampAll(front + [k]) == StampAll(front) + [TraceEvent(SeqNo(|front|), SEED, k)]
  {
    hide SeqNo;
    var all := front + [k];
    assert all[..|front|] == front && all[|front|] == k;
  }

  lemma NextNumber(n: nat)
    ensures SeqNo(n + 1) == if SeqNo(n) == U64_MAX then 0 else SeqNo(n) + 1
  {
    var q, r := n / (U64_MAX + 1), n % (U64_MAX + 1);
    assert n == q * (U64_MAX + 1) + r;
    if r == U64_MAX {
      assert n + 1 == (q + 1) * (U64_MAX + 1) + 0;
    } else {
      assert n + 1 == q * (U64_MAX + 1) + (r + 1);
    }
  }

  /** Writes events as they happen, under consecutive numbers. */
  class TraceWriter {
    var file: seq<TraceEvent>
    var next: U64
    ghost var kinds: seq<EventKind>

    ghost predicate Valid()
      reads this
    {
      file == StampAll(kinds) && next == SeqNo(|kinds|)
    }

    constructor ()
      ensures Valid() && kinds == []
    {
      file := [];
      next := 0;
      kinds := [];
    }

    method RecordEvent(k: EventKind)
      requires Valid()
      modifies this
      ensures Valid() && kinds == old(kinds) + [k]
    {
      StampSnoc(kinds, k);
      NextNumber(|kinds|);
      file := file + [TraceEvent(next, SEED, k)];
      next := if next == U64_MAX then 0 else next + 1;
      kinds := kinds + [k];
    }
  }
}
