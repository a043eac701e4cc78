// The FIFO queue with lazy deletion (pkg/queue/fifo.go): `Delete` removes a pod from the map only, and
// leaves its key's slot in the slice behind.

module FifoOrder {
  import opened Prelude
  import opened Pods

  /** The queued keys in the order they will be popped: the first slot of each key that has a pod. */
  function Live(slots: seq<Key>, keys: set<Key>): seq<Key> {
    if slots == [] then []
    else if slots[0] in keys then [slots[0]] + Live(slots[1..], keys - {slots[0]})
    else Live(slots[1..], keys)
  }

  function Remove(s: seq<Key>, k: Key): seq<Key> {
    if s == [] then [] else (if s[0] == k then [] else [s[0]]) + Remove(s[1..], k)
  }

  /** Live lists exactly the keys that have both a pod and a slot, once each. */
  lemma {:induction false} LiveMembers(slots: seq<Key>, keys: set<Key>)
    ensures forall k :: k in Live(slots, keys) <==> k in keys && k in slots
    ensures Distinct(Live(slots, keys))
    ensures |Live(slots, keys)| <= |slots|
  {
    if slots != [] {
      LiveMembers(slots[1..], keys - {slots[0]});
      LiveMembers(slots[1..], keys);
      assert forall k :: k in slots <==> k == slots[0] || k in slots[1..];
    }
  }

  /** Only keys with slots matter. */
  lemma {:induction false} LiveSame(slots: seq<Key>, a: set<Key>, b: set<Key>)
    requires forall k :: k in slots ==> (k in a <==> k in b)
    ensures Live(slots, a) == Live(slots, b)
  {
    if slots != [] {
      if slots[0] in a {
        LiveSame(slots[1..], a - {slots[0]}, b - {slots[0]});
      } else {
        LiveSame(slots[1..], a, b);
      }
    }
  }

  lemma {:induction false} LiveConcat(a: seq<Key>, b: seq<Key>, keys: set<Key>)
    ensures Live(a + b, keys) == Live(a, keys) + Live(b, keys - (set k | k in a))
  {
    if a == [] {
      assert a + b == b && keys - (set k | k in a) == keys;
    } else {
      assert (a + b)[1..] == a[1..] + b;
      var rest := if a[0] in keys then keys - {a[0]} else keys;
      LiveConcat(a[1..], b, rest);
      assert rest - (set k | k in a[1..]) == keys - (set k | k in a);
    }
  }

  /** `Delete` takes one key out and keeps the order of the others. */
  lemma {:induction false} LiveDelete(slots: seq<Key>, keys: set<Key>, k: Key)
    ensures Live(slots, keys - {k}) == Remove(Live(slots, keys), k)
  {
    if slots != [] {
      var h := slots[0];
      if h in keys {
        LiveDelete(slots[1..], keys - {h}, k);
        assert keys - {h} - {k} == keys - {k} - {h};
        if h == k { assert keys - {h} - {k} == keys - {k}; }
      } else {
        LiveDelete(slots[1..], keys, k);
      }
    }
  }

  function FirstSlot(slots: seq<Key>, k: Key): (i: nat)
    ensures i <= |slots|
    ensures k !in slots[..i]
    ensures i < |slots| ==> slots[i] == k
  {
    if slots == [] || slots[0] == k then 0 else
      var i := 1 + FirstSlot(slots[1..], k);
      assert slots[..i] == [slots[0]] + slots[1..][..i - 1];
      i
  }

  /** A key that has no slot goes to the end. */
  lemma LivePushFresh(slots: seq<Key>, keys: set<Key>, k: Key)
    requires k !in slots
    ensures Live(slots + [k], keys + {k}) == Live(slots, keys) + [k]
  {
    LiveConcat(slots, [k], keys + {k});
    LiveSame(slots, keys + {k}, keys);
    var rest := keys + {k} - (set l | l in slots);
    assert [k][1..] == [];
  }

  /** A key that has a slot takes its first one: before the live keys that only come later. */
  lemma LivePushStale(slots: seq<Key>, keys: set<Key>, k: Key)
    requires k in slots && k !in keys
    ensures var i := FirstSlot(slots, k); var before := slots[..i];
      Live(slots + [k], keys + {k})
        == Live(before, keys) + [k] + Live(slots[i + 1..], keys - (set l | l in before))
  {
    var i := FirstSlot(slots, k);
    var before, after := slots[..i], slots[i + 1..] + [k];
    assert i < |slots|;
    assert slots + [k] == before + ([k] + after);
    LiveConcat(before, [k] + after, keys + {k});
    LiveSame(before, keys + {k}, keys);
    var rest := keys + {k} - (set l | l in before);
    assert ([k] + after)[1..] == after;
    assert rest - {k} == keys - (set l | l in before);
    LiveConcat(slots[i + 1..], [k], rest - {k});
    assert [k][1..] == [];
  }

  /** Before a stale slot, then after it, the live keys are those of the whole. */
  lemma LiveSplit(slots: seq<Key>, keys: set<Key>, k: Key)
    requires k in slots && k !in keys
    ensures var i := FirstSlot(slots, k); var before := slots[..i];
      Live(slots, keys) == Live(before, keys) + Live(slots[i + 1..], keys - (set l | l in before))
  {
    var i := FirstSlot(slots, k);
    assert slots == slots[..i] + ([k] + slots[i + 1..]);
    LiveConcat(slots[..i], [k] + slots[i + 1..], keys);
    assert ([k] + slots[i + 1..])[1..] == slots[i + 1..];
  }

  /** THEOREM.  Pushing puts the key last if and only if it was not queued and every queued key comes
      before its first stale slot, if it has one. */
  lemma PushAppendsIff(slots: seq<Key>, keys: set<Key>, k: Key)
    requires forall l :: l in keys ==> l in slots
    ensures Live(slots + [k], keys + {k}) == Live(slots, keys) + [k] <==>
      k !in keys && (k in slots ==> forall l :: l in keys ==> l in slots[..FirstSlot(slots, k)])
  {
    if k in keys {
      assert keys + {k} == keys && [k][1..] == [];
      LiveConcat(slots, [k], keys);
    } else if k !in slots {
      LivePushFresh(slots, keys, k);
    } else {
      var i := FirstSlot(slots, k);
      var rest := keys - (set l | l in slots[..i]);
      LivePushStale(slots, keys, k);
      LiveSplit(slots, keys, k);
      LiveMembers(slots[i + 1..], rest);
      var tail := Live(slots[i + 1..], rest);
      if tail == [] {
        forall l | l in keys ensures l in slots[..i] {
          assert slots == slots[..i] + [k] + slots[i + 1..];
        }
      } else {
        assert tail[0] in rest && tail[0] != k;
        assert (Live(slots[..i], keys) + [k] + tail)[|Live(slots[..i], keys)|] == k;
        assert (Live(slots[..i], keys) + tail + [k])[|Live(slots[..i], keys)|] == tail[0];
      }
    }
  }

  /** Slots without repeats that are all live are the order. */
  lemma {:induction false} LiveAll(slots: seq<Key>, keys: set<Key>)
    requires Distinct(slots) && forall k :: k in slots ==> k in keys
    ensures Live(slots, keys) == slots
  {
    if slots != [] {
      assert forall k :: k in slots[1..] ==> k in slots && k != slots[0];
      LiveAll(slots[1..], keys - {slots[0]});
    }
  }

  /** `Len` counts the slots: it is the number of queued pods if and only if there is no other slot. */
  lemma {:induction false} LenIsCountIff(slots: seq<Key>, keys: set<Key>)
    ensures |slots| == |Live(slots, keys)| <==> slots == Live(slots, keys)
    ensures |Live(slots, keys)| <= |slots|
  {
    if slots != [] {
      LenIsCountIff(slots[1..], keys - {slots[0]});
      LenIsCountIff(slots[1..], keys);
      assert slots == [slots[0]] + slots[1..];
    }
  }
}

module Fifo {
  import opened Prelude
  import opened Pods
  import opened FifoOrder

  class FIFOQueue {
    var pods: map<Key, V1Pod>
    var queue: seq<Key>

    /** Every key with a pod has a slot, and pods are stored under their own keys. */
    ghost predicate Valid()
      reads this
    {
      forall k :: k in pods ==> k in queue && PodKey(pods[k].info) == Some(k)
    }

    /** The queued keys in popping order. */
    ghost function Order(): seq<Key>
      reads this
    {
      Live(queue, pods.Keys)
    }

    constructor ()
      ensures Valid() && Order() == [] && pods == map[] && queue == []
    {
      pods, queue := map[], [];
    }

    method Push(pod: V1Pod) returns (err: QueueError)
      requires Valid()
      modifies this
      ensures Valid()
      ensures PodKey(pod.info).None? ==> err == ErrInvalidName && pods == old(pods) && queue == old(queue)
      ensures PodKey(pod.info).Some? ==> var key := PodKey(pod.info).value;
        && err == NoError && pods == old(pods)[key := pod] && queue == old(queue) + [key]
        && (key !in old(queue) ==> Order() == old(Order()) + [key])
        && (key in old(pods) ==> Order() == old(Order()))
    {
      var key := PodKey(pod.info);
      if key.None? {
        return ErrInvalidName;
      }
      pods := pods[key.value := pod];
      queue := queue + [key.value];
      err := NoError;
      assert pods.Keys == old(pods).Keys + {key.value};
      if key.value !in old(queue) {
        LivePushFresh(old(queue), old(pods).Keys, key.value);
      } else if key.value in old(pods) {
        assert pods.Keys == old(pods).Keys;
        LiveConcat(old(queue), [key.value], pods.Keys);
        assert [key.value][1..] == [];
      }
    }

    method Pop() returns (pod: Option<V1Pod>, err: QueueError)
      requires Valid()
      modifies this
      ensures Valid()
      ensures old(Order()) == [] ==> pod.None? && err == ErrEmptyQueue && pods == old(pods) && Order() == []
      ensures old(Order()) != [] ==> var key := old(Order())[0];
        && err == NoError && key in old(pods) && pod == Some(old(pods)[key])
        && pods == old(pods) - {key} && Order() == old(Order())[1..]
      ensures old(queue) == old(Order()) ==> queue == Order()
    {
      while |queue| > 0
        invariant Valid() && pods == old(pods) && Order() == old(Order())
        invariant old(queue) == old(Order()) ==> queue == old(queue)
        decreases |queue|
      {
        var key := queue[0];
        LenIsCountIff(queue[1..], pods.Keys);
        queue := queue[1..];
        if key in pods {
          pod := Some(pods[key]);
          pods := pods - {key};
          assert pods.Keys == old(pods).Keys - {key};
          return pod, NoError;
        }
      }
      return None, ErrEmptyQueue;
    }

    method Front() returns (pod: Option<V1Pod>, err: QueueError)
      requires Valid()
      modifies this
      ensures Valid() && pods == old(pods) && Order() == old(Order())
      ensures Order() == [] ==> pod.None? && err == ErrEmptyQueue
      ensures Order() != [] ==> err == NoError && Order()[0] in pods && pod == Some(pods[Order()[0]])
      ensures old(queue) == old(Order()) ==> queue == old(queue)
    {
      while |queue| > 0
        invariant Valid() && pods == old(pods) && Order() == old(Order())
        invariant old(queue) == old(Order()) ==> queue == old(queue)
        decreases |queue|
      {
        var key := queue[0];
        if key in pods {
          return Some(pods[key]), NoError;
        }
        LenIsCountIff(queue[1..], pods.Keys);
        queue := queue[1..];
      }
      return None, ErrEmptyQueue;
    }

    method Delete(podNamespace: string, podName: string) returns (ok: bool)
      requires Valid()
      modifies this
      ensures var key := PodKeyFromNames(podNamespace, podName);
        && Valid() && ok == (key in old(pods)) && pods == old(pods) - {key} && queue == old(queue)
        && Order() == Remove(old(Order()), key)
    {
      var key := PodKeyFromNames(podNamespace, podName);
      ok := key in pods;
      pods := pods - {key};
      LiveDelete(queue, old(pods).Keys, key);
      assert pods.Keys == old(pods).Keys - {key};
    }

    method Update(podNamespace: string, podName: string, newPod: V1Pod) returns (err: QueueError)
      requires Valid()
      modifies this
      ensures Valid() && Order() == old(Order()) && queue == old(queue)
      ensures var key := PodKeyFromNames(podNamespace, podName);
        && err == (if PodKey(newPod.info).None? then ErrInvalidName
                   else if PodKey(newPod.info) != Some(key) then ErrDifferentNames
                   else if key !in old(pods) then ErrNoMatchingPod else NoError)
        && pods == if err == NoError then old(pods)[key := newPod] else old(pods)
    {
      var keyOrig, keyNew := PodKeyFromNames(podNamespace, podName), PodKey(newPod.info);
      if keyNew.None? {
        return ErrInvalidName;
      }
      if keyOrig != keyNew.value {
        return ErrDifferentNames;
      }
      if keyOrig !in pods {
        return ErrNoMatchingPod;
      }
      pods := pods[keyOrig := newPod];
      assert pods.Keys == old(pods).Keys;
      err := NoError;
    }

    method Len() returns (n: nat)
      ensures n == |queue|
    {
      n := |queue|;
    }
  }
}
