/** The deterministic scheduler of record mode. */
module Scheduler {
  import opened Base
  import opened Sorting
  import opened Events
  import opened Node
  import opened RecordSpec

  datatype PendingDelivery = PendingDelivery(node: Uuid, to: Uuid, msgId: Uuid)

  /** The sort key: node, actor and message id as the digits of one number. */
  function DeliveryKey(d: PendingDelivery): int {
    (d.node * UUID_COUNT + d.to) * UUID_COUNT + d.msgId
  }

  predicate NotAfter(a: PendingDelivery, b: PendingDelivery) {
    a.node < b.node || (a.node == b.node && (a.to < b.to || (a.to == b.to && a.msgId <= b.msgId)))
  }

  lemma KeyOrder(a: PendingDelivery, b: PendingDelivery)
    ensures DeliveryKey(a) <= DeliveryKey(b) <==> NotAfter(a, b)
    ensures DeliveryKey(a) == DeliveryKey(b) ==> a == b
  {
  }

  /** `choose_next_deterministic`: sorts the candidates and takes the first. */
  function ChooseNext(pending: seq<PendingDelivery>): Option<PendingDelivery> {
    if pending == [] then None
    else
      var sorted := SortBy(DeliveryKey, pending);
      Some(sorted[0])
  }

  /** The choice is a candidate, and no candidate comes before it. */
  lemma ChoosesLeast(pending: seq<PendingDelivery>)
    requires pending != []
    ensures ChooseNext(pending).Some? && ChooseNext(pending).value in pending
    ensures forall d :: d in pending ==> NotAfter(ChooseNext(pending).value, d)
  {
    var sorted := SortBy(DeliveryKey, pending);
    SortByMultiset(DeliveryKey, pending);
    SortBySorted(DeliveryKey, pending);
    assert sorted[0] in multiset(sorted);
    forall d | d in pending ensures NotAfter(sorted[0], d) {
      assert d in multiset(sorted);
      var i :| 0 <= i < |sorted| && sorted[i] == d;
      KeyOrder(sorted[0], d);
    }
  }

  /** The order in which the candidates are listed, which a hash map decides, makes no difference. */
  lemma ChoiceIgnoresOrder(a: seq<PendingDelivery>, b: seq<PendingDelivery>)
    requires multiset(a) == multiset(b)
    ensures ChooseNext(a) == ChooseNext(b)
  {
    assert |a| == |multiset(a)| == |multiset(b)| == |b|;
    hide ChooseNext;
    hide SortBy;
    if a == [] {
      assert b == [];
    } else {
      ChoosesLeast(a);
      ChoosesLeast(b);
      var x, y := ChooseNext(a).value, ChooseNext(b).value;
      assert x in multiset(b) && y in multiset(a);
      assert NotAfter(y, x) && NotAfter(x, y);
    }
  }

  /** The candidates of a node: the head of every non-empty inbox. */
  ghost predicate IsCandidate(node: Uuid, actors: map<Uuid, Actor>, d: PendingDelivery) {
    d.to in actors && actors[d.to].inbox != [] && d == PendingDelivery(node, d.to, actors[d.to].inbox[0].id)
  }

  /** A node's candidates, however listed, make the scheduler pick the least actor with a message. */
  lemma ChoosesLeastActor(node: Uuid, actors: map<Uuid, Actor>, pending: seq<PendingDelivery>)
    requires forall d :: d in pending <==> IsCandidate(node, actors, d)
    ensures match LeastReady(actors)
            case None => ChooseNext(pending) == None
            case Some(to) => ChooseNext(pending) == Some(PendingDelivery(node, to, actors[to].inbox[0].id))
  {
    if pending == [] {
      forall a | a in actors ensures actors[a].inbox == [] {
        if actors[a].inbox != [] {
          assert IsCandidate(node, actors, PendingDelivery(node, a, actors[a].inbox[0].id));
          assert false;
        }
      }
    } else {
      ChoosesLeast(pending);
      var d := ChooseNext(pending).value;
      assert IsCandidate(node, actors, d);
      var to := LeastReady(actors).value;
      assert IsCandidate(node, actors, PendingDelivery(node, to, actors[to].inbox[0].id));
      LeastReadyLeast(actors, d.to);
    }
  }

  lemma LeastReadyLeast(actors: map<Uuid, Actor>, a: Uuid)
    requires a in actors && actors[a].inbox != []
    ensures LeastReady(actors).Some? && LeastReady(actors).value <= a
  {
    assert a in ReadyActors(actors);
  }
}
