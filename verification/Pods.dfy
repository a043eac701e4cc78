// Pod manifests as the queues and the scheduler see them (v1.Pod; pkg/util/util.go).

module Prelude {
  datatype Option<+T> = None | Some(value: T)

  ghost predicate Distinct<T>(s: seq<T>) {
    forall i, j :: 0 <= i < j < |s| ==> s[i] != s[j]
  }

  lemma {:induction false} DistinctCounts<T(!new)>(s: seq<T>)
    ensures Distinct(s) <==> forall k :: multiset(s)[k] <= 1
  {
    if s != [] {
      var n := |s| - 1;
      assert s == s[..n] + [s[n]];
      DistinctCounts(s[..n]);
      if Distinct(s) {
        assert s[n] !in s[..n];
        assert s[n] !in multiset(s[..n]);
      } else if Distinct(s[..n]) {
        assert s[n] in s[..n];
        assert s[n] in multiset(s[..n]);
        assert multiset(s)[s[n]] >= 2;
      } else {
        var k :| multiset(s[..n])[k] > 1;
        assert multiset(s)[k] > 1;
      }
    }
  }
}

module Pods {
  import opened Prelude

  /** The part of a manifest that the queues and the scheduler read and never write.  `timestamp` is what
      `podTimestamp` returns, `cpu` and `memory` are the requests.  The simulator sets a pod's UID to its
      name. */
  datatype PodInfo = PodInfo(namespace: string, name: string, priority: int, timestamp: int, cpu: int, memory: int)

  class V1Pod {
    const info: PodInfo
    var nominatedNode: string   // Status.NominatedNodeName

    constructor (info: PodInfo, nominatedNode: string)
      ensures this.info == info && this.nominatedNode == nominatedNode
    {
      this.info, this.nominatedNode := info, nominatedNode;
    }
  }

  /** The key "namespace/name", as the pair of its parts. */
  datatype Key = Key(namespace: string, name: string)

  function PodKeyFromNames(namespace: string, name: string): Key {
    Key(namespace, name)
  }

  /** None for an empty namespace or name. */
  function PodKey(info: PodInfo): Option<Key> {
    if info.namespace == "" || info.name == "" then None else Some(PodKeyFromNames(info.namespace, info.name))
  }

  datatype QueueError = NoError | ErrEmptyQueue | ErrDifferentNames | ErrNoMatchingPod | ErrInvalidName
}
