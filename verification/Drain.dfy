// Draining the priority queue, and building one from a map of items.

module Draining {
  import opened Prelude
  import opened Pods
  import opened HeapOrder
  import opened RawQueue
  import opened PriorityQueues

  /** Nothing in `out` is beaten by a pod after it, nor by one still queued. */
  ghost predicate Ranked(less: Compare, out: seq<V1Pod>, rest: map<Key, V1Pod>) {
    && (forall i, j :: 0 <= i < j < |out| ==> !less(out[j].info, out[i].info))
    && (forall i, k :: 0 <= i < |out| && k in rest ==> !less(rest[k].info, out[i].info))
  }

  /** The pods of `all` are in `out` or still in `rest`, none in both. */
  ghost predicate Split(all: map<Key, V1Pod>, out: seq<V1Pod>, rest: map<Key, V1Pod>) {
    && |out| + |rest| == |all|
    && forall k :: k in all ==> (k in rest && rest[k] == all[k]) || all[k] in out
  }

  lemma SplitStep(all: map<Key, V1Pod>, out: seq<V1Pod>, rest: map<Key, V1Pod>, key: Key)
    requires Split(all, out, rest) && key in rest && key in all
    ensures Split(all, out + [rest[key]], rest - {key})
  {
    var less := rest - {key};
    assert rest.Keys == less.Keys + {key};
    assert |rest| == |rest.Keys| && |less| == |less.Keys|;
    forall k | k in all ensures (k in less && less[k] == all[k]) || all[k] in out + [rest[key]] {
      if !(k in rest && rest[k] == all[k]) { assert all[k] in out; }
    }
  }

  lemma RankedStep(less: Compare, out: seq<V1Pod>, rest: map<Key, V1Pod>, key: Key)
    requires Ranked(less, out, rest) && key in rest
    requires forall k :: k in rest ==> !less(rest[k].info, rest[key].info)
    ensures Ranked(less, out + [rest[key]], rest - {key})
  {
    var more := out + [rest[key]];
    forall i, j | 0 <= i < j < |more| ensures !less(more[j].info, more[i].info) {
      if j == |out| { assert !less(rest[key].info, out[i].info); }
    }
  }

  function Infos(pods: seq<V1Pod>): seq<PodInfo> {
    seq(|pods|, i requires 0 <= i < |pods| => pods[i].info)
  }

  /** THEOREM.  Drained pods of a queue with the default comparator come by nonincreasing priority, and the
      oldest first among equal priorities; with the other comparator, by nonincreasing memory request. */
  lemma RankedMeans(out: seq<V1Pod>)
    ensures Ranked(DefaultComparator, out, map[]) <==> ByPriorityAndAge(Infos(out))
    ensures Ranked(ResourceRequestComparator, out, map[]) <==> ByMemory(Infos(out))
  {
    OrdersMean(Infos(out));
    assert forall i :: 0 <= i < |out| ==> Infos(out)[i] == out[i].info;
  }

  /** Pops until the queue is empty: every pod comes out once, and no later pod beats an earlier one. */
  method Drain(q: PriorityQueue) returns (out: seq<V1Pod>)
    requires q.Valid()
    modifies q.inner
    ensures q.Valid() && q.Contents() == map[]
    ensures |out| == |old(q.Contents())|
    ensures forall k :: k in old(q.Contents()) ==> old(q.Contents())[k] in out
    ensures StrictWeakOrder(q.inner.comparator) ==> Ranked(q.inner.comparator, out, map[])
    ensures q.inner.comparator == DefaultComparator ==> ByPriorityAndAge(Infos(out))
    ensures q.inner.comparator == ResourceRequestComparator ==> ByMemory(Infos(out))
  {
    out := [];
    ghost var all := q.Contents();
    while true
      invariant q.Valid() && Split(all, out, q.Contents()) && q.Contents().Keys <= all.Keys
      invariant StrictWeakOrder(q.inner.comparator) ==> Ranked(q.inner.comparator, out, q.Contents())
      decreases |q.Contents()|
    {
      ghost var rest := q.Contents();
      var pod, err := q.Pop();
      if err != NoError {
        break;
      }
      SplitStep(all, out, rest, PodKey(pod.value.info).value);
      if StrictWeakOrder(q.inner.comparator) {
        RankedStep(q.inner.comparator, out, rest, PodKey(pod.value.info).value);
      }
      out := out + [pod.value];
    }
    ComparatorsAreStrictWeakOrders();
    RankedMeans(out);
  }

  /** `newWithItems`: a queue over the items, from their keys in some iteration order. */
  method NewWithItems(items: map<Key, Item>, keys: seq<Key>, comparator: Compare) returns (q: PriorityQueue)
    requires Renumbered(Raw(items, keys))
    ensures fresh(q) && fresh(q.inner) && q.inner.comparator == comparator
    ensures q.Contents() == Raw(items, keys).Contents() && q.inner.View().Indexable()
    ensures StrictWeakOrder(comparator) ==> Heap(comparator, q.inner.View().Infos())
    ensures var h := Raw(items, keys);
      q.inner.View().Valid() <==>
        forall p :: 0 <= p < |keys| && p !in InitMoves(comparator, h.Infos(), |keys| / 2) ==> items[keys[p]].index == p
    ensures q.inner.View().Valid() ==> q.Valid()
  {
    ghost var h := Raw(items, keys);
    q := new PriorityQueue(comparator);
    q.inner.items, q.inner.keys := items, keys;
    q.inner.Init();
    InitFacts(comparator, h, |keys| / 2);
    SamePodsContents(h, q.inner.View());
    if StrictWeakOrder(comparator) { ReorderFacts(comparator, h); }
    ReorderValidIff(comparator, h);
  }
}
