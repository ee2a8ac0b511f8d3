/** Maps from keys to first-in first-out queues. */
module Queues {
  /** The queue at a key; a missing key stands for an empty queue. */
  function QueueOf<K, V>(m: map<K, seq<V>>, k: K): seq<V> {
    if k in m then m[k] else []
  }

  /** `entry(k).or_default().push(v)`. */
  function Enqueue<K, V>(m: map<K, seq<V>>, k: K, v: V): map<K, seq<V>> {
    m[k := QueueOf(m, k) + [v]]
  }

  /** Removes the head of a queue, and the queue with it when it becomes empty. */
  function Dequeue<K, V>(m: map<K, seq<V>>, k: K): map<K, seq<V>>
    requires k in m && m[k] != []
  {
    if |m[k]| == 1 then m - {k} else m[k := m[k][1..]]
  }

  /** The number of entries in all queues together. */
  ghost function TotalLength<K, V>(m: map<K, seq<V>>): nat
    decreases |m|
  {
    if m == map[] then 0
    else
      var k :| k in m;
      |m[k]| + TotalLength(m - {k})
  }

  lemma {:induction false} TotalSplit<K, V>(m: map<K, seq<V>>, k: K)
    requires k in m
    ensures TotalLength(m) == |m[k]| + TotalLength(m - {k})
    decreases |m|
  {
    var c :| c in m && TotalLength(m) == |m[c]| + TotalLength(m - {c});
    if c != k {
      TotalSplit(m - {c}, k);
      TotalSplit(m - {k}, c);
      assert m - {c} - {k} == m - {k} - {c};
    }
  }

  lemma TotalEnqueue<K, V>(m: map<K, seq<V>>, k: K, v: V)
    ensures TotalLength(Enqueue(m, k, v)) == TotalLength(m) + 1
  {
    var m1 := Enqueue(m, k, v);
    TotalSplit(m1, k);
    assert m1 - {k} == m - {k};
    if k in m { TotalSplit(m, k); } else { assert m - {k} == m; }
  }

  lemma TotalDequeue<K, V>(m: map<K, seq<V>>, k: K)
    requires k in m && m[k] != []
    ensures TotalLength(Dequeue(m, k)) == TotalLength(m) - 1
  {
    TotalSplit(m, k);
    if |m[k]| > 1 {
      var m1 := Dequeue(m, k);
      TotalSplit(m1, k);
      assert m1 - {k} == m - {k};
    }
  }

  /** Adding up the queue lengths key by key gives the total, in whatever order the keys come. */
  method SumLengths<K, V>(m: map<K, seq<V>>) returns (n: nat)
    ensures n == TotalLength(m)
  {
    n := 0;
    var rest := m;
    while rest != map[]
      invariant n + TotalLength(rest) == TotalLength(m)
      decreases |rest|
    {
      var k :| k in rest;
      TotalSplit(rest, k);
      n := n + |rest[k]|;
      rest := rest - {k};
    }
  }
}
