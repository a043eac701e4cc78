// The priority queue object (pkg/queue/priority_queue.go), with container/heap's loops.

module PriorityQueues {
  import opened Prelude
  import opened Pods
  import opened HeapOrder
  import opened RawQueue

  class RawPriorityQueue {
    var items: map<Key, Item>
    var keys: seq<Key>
    const comparator: Compare

    function View(): Raw
      reads this
    {
      Raw(items, keys)
    }

    /** Valid, and in heap order whenever the comparator is a strict weak order. */
    ghost predicate Valid()
      reads this
    {
      View().Valid() && (StrictWeakOrder(comparator) ==> Heap(comparator, View().Infos()))
    }

    constructor (items: map<Key, Item>, keys: seq<Key>, comparator: Compare)
      ensures View() == Raw(items, keys) && this.comparator == comparator
    {
      this.items, this.keys, this.comparator := items, keys, comparator;
    }

    method Swap(i: int, j: int)
      requires View().Indexable() && 0 <= i < |keys| && 0 <= j < |keys|
      modifies this
      ensures View() == old(View()).Swap(i, j)
    {
      keys := keys[i := keys[j]][j := keys[i]];
      items := items[keys[i] := items[keys[i]].(index := i)];
      items := items[keys[j] := items[keys[j]].(index := j)];
    }

    method Append(key: Key, pod: V1Pod)
      requires View().Indexable()
      modifies this
      ensures View() == old(View()).Append(key, pod)
    {
      items := items[key := Item(pod, |items|)];
      keys := keys + [key];
    }

    method DropLast() returns (pod: V1Pod)
      requires View().Indexable() && keys != []
      modifies this
      ensures View() == old(View()).DropLast() && pod == old(items[keys[|keys| - 1]].pod)
    {
      var key := keys[|keys| - 1];
      pod := items[key].pod;
      items := items - {key};
      keys := keys[..|keys| - 1];
    }

    // ----- container/heap -----

    method Down(i0: int, n: int) returns (moved: bool)
      requires View().Indexable() && 0 <= i0 < |keys| && 0 <= n <= |keys|
      modifies this
      ensures View() == old(View()).Down(comparator, n, i0)
      ensures moved == (old(View()).BetterChild(comparator, n, i0) != i0)
    {
      hide Raw.Swap, Raw.Less;
      var i := i0;
      while true
        invariant View().Indexable() && i0 <= i < |keys| && n <= |keys|
        invariant View().Down(comparator, n, i) == old(View()).Down(comparator, n, i0)
        invariant if i == i0 then View() == old(View()) else old(View()).BetterChild(comparator, n, i0) != i0
        decreases |keys| - i
      {
        var j1 := 2 * i + 1;
        if j1 >= n {
          break;
        }
        var j := j1;
        if j1 + 1 < n && View().Less(comparator, j1 + 1, j1) {
          j := j1 + 1;
        }
        if !View().Less(comparator, j, i) {
          break;
        }
        Swap(i, j);
        i := j;
      }
      moved := i > i0;
    }

    method Up(j0: int)
      requires View().Indexable() && 0 <= j0 < |keys|
      modifies this
      ensures View() == old(View()).Up(comparator, j0)
    {
      var j := j0;
      while true
        invariant View().Indexable() && 0 <= j < |keys|
        invariant View().Up(comparator, j) == old(View()).Up(comparator, j0)
        decreases j
      {
        var i := if j == 0 then 0 else (j - 1) / 2;   // Go's (j-1)/2 truncates to 0
        if i == j || !View().Less(comparator, j, i) {
          break;
        }
        Swap(i, j);
        j := i;
      }
    }

    method Fix(i: int)
      requires View().Indexable() && 0 <= i < |keys|
      modifies this
      ensures View() == old(View()).Settle(comparator, |old(keys)|, i)
    {
      var moved := Down(i, |keys|);
      if !moved {
        Up(i);
      }
    }

    method Remove(i: int) returns (pod: V1Pod)
      requires View().Indexable() && 0 <= i < |keys|
      modifies this
      ensures View() == old(View()).ToEnd(comparator, i).DropLast()
      ensures var e := old(View()).ToEnd(comparator, i); pod == e.items[e.keys[|e.keys| - 1]].pod
    {
      var n := |keys| - 1;
      if n != i {
        Swap(i, n);
        var moved := Down(i, n);
        if !moved {
          Up(i);
        }
      }
      pod := DropLast();
    }

    method Init()
      requires View().Indexable()
      modifies this
      ensures View() == old(View()).Init(comparator, |old(keys)| / 2)
    {
      hide Raw.Down;
      var i := |keys| / 2;
      while i > 0
        invariant View().Indexable() && 0 <= i <= |keys|
        invariant View().Init(comparator, i) == old(View()).Init(comparator, |old(keys)| / 2)
      {
        i := i - 1;
        var _ := Down(i, |keys|);
      }
    }

    /** `heap.Push`. */
    method HeapPush(key: Key, pod: V1Pod)
      requires View().Indexable()
      modifies this
      ensures View() == old(View()).Push(comparator, key, pod)
    {
      Append(key, pod);
      Up(|keys| - 1);
    }

    /** `heap.Pop`. */
    method HeapPop() returns (pod: V1Pod)
      requires View().Valid() && keys != []
      modifies this
      ensures View() == old(View()).ToEnd(comparator, 0).DropLast()
      ensures var e := old(View()).ToEnd(comparator, 0); pod == e.items[e.keys[|e.keys| - 1]].pod
    {
      PopIsRemoval(comparator, View());
      hide Raw.Swap, Raw.Down, Raw.ToEnd, Raw.Valid;
      var n := |keys| - 1;
      Swap(0, n);
      var moved := Down(0, n);
      pod := DropLast();
    }
  }

  type Nominations = map<string, map<Key, V1Pod>>

  /** `delete(nominatedPods[node], key)`. */
  function Without(m: Nominations, node: string, key: Key): Nominations {
    if node in m then m[node := m[node] - {key}] else m
  }

  class PriorityQueue {
    const inner: RawPriorityQueue
    var nominatedPods: Nominations

    ghost predicate Valid()
      reads this, inner
    {
      inner.Valid()
    }

    /** The queued pods by key. */
    ghost function Contents(): map<Key, V1Pod>
      reads this, inner
    {
      inner.View().Contents()
    }

    /** The key in front. */
    ghost function First(): Option<Key>
      reads this, inner
    {
      if inner.keys == [] then None else Some(inner.keys[0])
    }

    /** No pod of `m` beats the one at `key`. */
    ghost predicate Best(m: map<Key, V1Pod>, key: Key)
      reads this
    {
      key in m && (StrictWeakOrder(inner.comparator) ==>
        forall k :: k in m ==> !inner.comparator(m[k].info, m[key].info))
    }

    ghost predicate FrontOf(m: map<Key, V1Pod>, pod: Option<V1Pod>)
      reads this
    {
      && pod.Some? && PodKey(pod.value.info).Some?
      && Best(m, PodKey(pod.value.info).value) && m[PodKey(pod.value.info).value] == pod.value
    }

    /** `NewPriorityQueueWithComparator`. */
    constructor (comparator: Compare)
      ensures Valid() && Contents() == map[] && nominatedPods == map[] && inner.comparator == comparator
      ensures fresh(inner)
    {
      inner := new RawPriorityQueue(map[], [], comparator);
      nominatedPods := map[];
    }

    method Push(pod: V1Pod) returns (err: QueueError)
      requires Valid()
      modifies inner
      ensures PodKey(pod.info).None? ==> err == ErrInvalidName && inner.View() == old(inner.View())
      ensures PodKey(pod.info).Some? ==> var key := PodKey(pod.info).value;
        && err == NoError
        && Contents() == old(Contents())[key := pod]
        && (inner.View().Valid() <==> key !in old(Contents()))
        && (key !in old(Contents()) ==> Valid())
    {
      if PodKey(pod.info).None? {
        return ErrInvalidName;
      }
      var key := PodKey(pod.info).value;
      PushKeepsValid(inner.View(), key, pod);
      inner.HeapPush(key, pod);
      err := NoError;
    }

    lemma PushKeepsValid(h: Raw, key: Key, pod: V1Pod)
      requires h.Valid() && (StrictWeakOrder(inner.comparator) ==> Heap(inner.comparator, h.Infos()))
      requires PodKey(pod.info) == Some(key)
      ensures var r := h.Push(inner.comparator, key, pod);
        && r.Contents() == h.Contents()[key := pod]
        && (r.Valid() <==> key !in h.items)
        && (key !in h.items && StrictWeakOrder(inner.comparator) ==> Heap(inner.comparator, r.Infos()))
    {
      if key in h.items {
        PushStale(inner.comparator, h, key, pod);
        AppendContents(h, key, pod);
        UpFacts(inner.comparator, h.Append(key, pod), |h.keys|);
        SamePodsContents(h.Append(key, pod), h.Push(inner.comparator, key, pod));
      } else {
        PushFresh(inner.comparator, h, key, pod);
        if StrictWeakOrder(inner.comparator) { PushKeepsHeap(inner.comparator, h.Infos(), pod.info); }
      }
    }

    /** The first key is the best one. */
    lemma FirstKeyIsBest()
      requires Valid() && inner.keys != []
      ensures Best(Contents(), inner.keys[0])
    {
      var h := inner.View();
      if StrictWeakOrder(inner.comparator) {
        forall k | k in Contents() ensures !inner.comparator(Contents()[k].info, Contents()[h.keys[0]].info) {
          FirstIsBest(inner.comparator, h.Infos(), h.items[k].index);
        }
      }
    }

    method Front() returns (pod: Option<V1Pod>, err: QueueError)
      requires Valid()
      ensures Contents() == map[] ==> pod.None? && err == ErrEmptyQueue
      ensures Contents() != map[] ==> err == NoError && FrontOf(Contents(), pod) && PodKey(pod.value.info) == First()
    {
      if |inner.keys| == 0 {
        return None, ErrEmptyQueue;
      }
      FirstKeyIsBest();
      assert inner.keys[0] in Contents();
      return Some(inner.items[inner.keys[0]].pod), NoError;
    }

    method Pop() returns (pod: Option<V1Pod>, err: QueueError)
      requires Valid()
      modifies inner
      ensures Valid()
      ensures old(Contents()) == map[] ==> pod.None? && err == ErrEmptyQueue && Contents() == map[]
      ensures old(Contents()) != map[] ==> err == NoError && FrontOf(old(Contents()), pod) && PodKey(pod.value.info) == old(First())
      ensures old(Contents()) != map[] ==> Contents() == old(Contents()) - {PodKey(pod.value.info).value}
    {
      if |inner.keys| == 0 {
        return None, ErrEmptyQueue;
      }
      FirstKeyIsBest();
      ghost var h := inner.View();
      assert h.keys[0] in h.Contents();
      var p := inner.HeapPop();
      RemoveKeepsValid(h, 0);
      assert h.ToEnd(inner.comparator, 0).Contents()[h.keys[0]] == p;
      return Some(p), NoError;
    }

    lemma RemoveKeepsValid(h: Raw, i: nat)
      requires h.Valid() && (StrictWeakOrder(inner.comparator) ==> Heap(inner.comparator, h.Infos())) && i < |h.keys|
      ensures var e := h.ToEnd(inner.comparator, i); var r := e.DropLast();
        && e.Contents() == h.Contents() && |e.keys| == |h.keys| && e.keys[|h.keys| - 1] == h.keys[i]
        && r.Valid() && r.Contents() == h.Contents() - {h.keys[i]}
        && (StrictWeakOrder(inner.comparator) ==> Heap(inner.comparator, r.Infos()))
    {
      RemoveFacts(inner.comparator, h, i);
      if StrictWeakOrder(inner.comparator) { RemoveKeepsHeap(inner.comparator, h.Infos(), i); }
    }

    /** `heap.Remove` of a key's position, then deletion of the key's item. */
    method RemoveKey(key: Key)
      requires Valid() && key in inner.items
      modifies inner
      ensures Valid() && Contents() == old(Contents()) - {key}
    {
      ghost var h := inner.View();
      var _ := inner.Remove(inner.items[key].index);
      RemoveKeepsValid(h, h.items[key].index);
      ghost var r := inner.View();
      assert key !in r.Contents();
      assert r.items - {key} == r.items;
      inner.items := inner.items - {key};
      assert inner.View() == r;
    }

    method Delete(podNamespace: string, podName: string) returns (ok: bool)
      requires Valid()
      modifies this, inner
      modifies if PodKeyFromNames(podNamespace, podName) in inner.items
               then {inner.items[PodKeyFromNames(podNamespace, podName)].pod} else {}
      ensures Valid()
      ensures var key := PodKeyFromNames(podNamespace, podName);
        && ok == (key in old(Contents()))
        && Contents() == old(Contents()) - {key}
        && (!ok ==> nominatedPods == old(nominatedPods))
        && (ok ==> var pod := old(Contents())[key];
              pod.nominatedNode == "" && nominatedPods == Without(old(nominatedPods), old(pod.nominatedNode), key))
    {
      var key := PodKeyFromNames(podNamespace, podName);
      ok := key in inner.items;
      if ok {
        var pod := inner.items[key].pod;
        var node := pod.nominatedNode;
        pod.nominatedNode := "";
        nominatedPods := Without(nominatedPods, node, key);
        RemoveKey(key);
      } else {
        assert Contents() == old(Contents()) - {key};
      }
    }

    method Update(podNamespace: string, podName: string, newPod: V1Pod) returns (err: QueueError)
      requires Valid()
      modifies inner
      ensures Valid()
      ensures var key := PodKeyFromNames(podNamespace, podName);
        && err == (if PodKey(newPod.info).None? then ErrInvalidName
                   else if PodKey(newPod.info) != Some(key) then ErrDifferentNames
                   else if key !in old(Contents()) then ErrNoMatchingPod else NoError)
        && Contents() == if err == NoError then old(Contents())[key := newPod] else old(Contents())
    {
      var keyOrig, keyNew := PodKeyFromNames(podNamespace, podName), PodKey(newPod.info);
      if keyNew.None? {
        return ErrInvalidName;
      }
      if keyOrig != keyNew.value {
        return ErrDifferentNames;
      }
      if keyOrig !in inner.items {
        return ErrNoMatchingPod;
      }
      ghost var h := inner.View();
      inner.items := inner.items[keyOrig := inner.items[keyOrig].(pod := newPod)];
      inner.Fix(inner.items[keyOrig].index);
      UpdateFacts(inner.comparator, h, keyOrig, newPod);
      if StrictWeakOrder(inner.comparator) {
        FixKeepsHeap(inner.comparator, h.Infos(), h.items[keyOrig].index, newPod.info);
      }
      err := NoError;
    }

    // ----- Nomination -----

    method RemoveNominatedNode(pod: V1Pod) returns (err: QueueError)
      modifies this, pod
      ensures err == (if old(pod.nominatedNode) != "" && PodKey(pod.info).None? then ErrInvalidName else NoError)
      ensures err == NoError ==> pod.nominatedNode == ""
      ensures err == NoError ==> nominatedPods == Cleared(old(nominatedPods), old(pod.nominatedNode), PodKey(pod.info))
      ensures err != NoError ==> pod.nominatedNode == old(pod.nominatedNode) && nominatedPods == old(nominatedPods)
    {
      var nodeName := pod.nominatedNode;
      if nodeName == "" {
        return NoError;
      }
      var key := PodKey(pod.info);
      if key.None? {
        return ErrInvalidName;
      }
      pod.nominatedNode := "";
      nominatedPods := Without(nominatedPods, nodeName, key.value);
      err := NoError;
    }

    method UpdateNominatedNode(pod: V1Pod, nodeName: string) returns (err: QueueError)
      modifies this, pod
      ensures err == (if PodKey(pod.info).None? then ErrInvalidName else NoError)
      ensures err == NoError ==> pod.nominatedNode == nodeName
      ensures err == NoError ==>
        var cleared := Cleared(old(nominatedPods), old(pod.nominatedNode), PodKey(pod.info));
        nominatedPods == Nominate(cleared, nodeName, PodKey(pod.info).value, pod)
      ensures err != NoError ==> nominatedPods == old(nominatedPods)
      ensures err != NoError ==> pod.nominatedNode == if old(pod.nominatedNode) == "" then nodeName else old(pod.nominatedNode)
    {
      err := RemoveNominatedNode(pod);
      if err != NoError {
        return;
      }
      pod.nominatedNode := nodeName;
      var key := PodKey(pod.info);
      if key.None? {
        return ErrInvalidName;
      }
      if nodeName !in nominatedPods {
        nominatedPods := nominatedPods[nodeName := map[]];
      }
      nominatedPods := nominatedPods[nodeName := nominatedPods[nodeName][key.value := pod]];
    }
  }

  function Cleared(m: Nominations, node: string, key: Option<Key>): (c: Nominations)
    ensures key.Some? ==> forall n, k ::
      Entry(c, n, k) == if node != "" && n == node && k == key.value then None else Entry(m, n, k)
  {
    if node == "" || key.None? then m else Without(m, node, key.value)
  }

  function Nominate(m: Nominations, node: string, key: Key, pod: V1Pod): (r: Nominations)
    ensures forall n, k :: Entry(r, n, k) == if n == node && k == key then Some(pod) else Entry(m, n, k)
  {
    var at: map<Key, V1Pod> := if node in m then m[node] else map[];
    m[node := at[key := pod]]
  }

  /** The pod nominated under `key` at `node`. */
  function Entry(m: Nominations, node: string, key: Key): Option<V1Pod> {
    if node in m && key in m[node] then Some(m[node][key]) else None
  }

  /** Given every pod object's NominatedNodeName: a pod entered at a node is entered under its own key,
      and its status names that node. */
  ghost predicate NominationsAgree(m: Nominations, status: map<V1Pod, string>) {
    forall n, k :: Entry(m, n, k).Some? ==> var p := Entry(m, n, k).value;
      n != "" && p in status && status[p] == n && PodKey(p.info) == Some(k)
  }

  /** A queued key that is nominated anywhere is nominated with the queued object. */
  ghost predicate QueueAgrees(m: Nominations, contents: map<Key, V1Pod>) {
    forall n, k :: Entry(m, n, k).Some? && k in contents ==> Entry(m, n, k).value == contents[k]
  }

  ghost predicate IsNominated(m: Nominations, key: Key) {
    exists n :: Entry(m, n, key).Some?
  }

  /** Clearing a pod's nomination removes the object everywhere. */
  lemma ClearingAgrees(m: Nominations, status: map<V1Pod, string>, pod: V1Pod)
    requires NominationsAgree(m, status) && pod in status && PodKey(pod.info).Some?
    ensures var c := Cleared(m, status[pod], PodKey(pod.info));
      NominationsAgree(c, status[pod := ""]) && forall n, k :: Entry(c, n, k) != Some(pod)
  {
    var c := Cleared(m, status[pod], PodKey(pod.info));
    forall n, k ensures Entry(c, n, k) != Some(pod) {
      assert Entry(m, n, k) == Some(pod) ==> n == status[pod] && n != "" && Some(k) == PodKey(pod.info);
    }
  }

  lemma NominatingAgrees(m: Nominations, status: map<V1Pod, string>, pod: V1Pod, node: string)
    requires NominationsAgree(m, status) && pod in status && PodKey(pod.info).Some? && node != ""
    ensures var c := Cleared(m, status[pod], PodKey(pod.info));
      NominationsAgree(Nominate(c, node, PodKey(pod.info).value, pod), status[pod := node])
  {
    var c := Cleared(m, status[pod], PodKey(pod.info));
    ClearingAgrees(m, status, pod);
    var r := Nominate(c, node, PodKey(pod.info).value, pod);
    forall n, k | Entry(r, n, k).Some? && !(n == node && Some(k) == PodKey(pod.info))
      ensures Entry(r, n, k) == Entry(c, n, k) != Some(pod) {}
  }

  /** After `Delete` the key is nominated nowhere, if queue and nominations agreed. */
  lemma DeleteClearsNomination(m: Nominations, status: map<V1Pod, string>, contents: map<Key, V1Pod>, key: Key)
    requires NominationsAgree(m, status) && QueueAgrees(m, contents)
    requires key in contents && contents[key] in status
    ensures !IsNominated(Without(m, status[contents[key]], key), key)
  {
    var node := status[contents[key]];
    var c := Without(m, node, key);
    forall n ensures Entry(c, n, key).None? {
      assert Entry(m, n, key).Some? ==> Entry(m, n, key).value == contents[key] && n == node;
    }
  }

  /** `Update` leaves the old object nominated: queue and nominations still agree if and only if the key
      was not nominated or the object is the same. */
  lemma UpdateAgreesIff(m: Nominations, contents: map<Key, V1Pod>, key: Key, newPod: V1Pod)
    requires QueueAgrees(m, contents) && key in contents
    ensures QueueAgrees(m, contents[key := newPod]) <==> (newPod == contents[key] || !IsNominated(m, key))
  {
    if newPod != contents[key] && IsNominated(m, key) {
      var n :| Entry(m, n, key).Some?;
      assert Entry(m, n, key).value == contents[key];
    }
  }
}
