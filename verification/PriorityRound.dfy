// A scheduling round in keep-scheduling mode over the priority queue (`Schedule` in
// pkg/scheduler/generic_scheduler.go).

module PriorityRounds {
  import opened Prelude
  import opened Pods
  import opened HeapOrder
  import opened PriorityQueues
  import opened Victims
  import opened Scheduling
  import opened Fifo
  import opened FifoOrder
  import opened Rounds

  type PodMap = map<Key, V1Pod>

  // ----- A round whose order is only known as the queue yields it -----

  /** Whatever pods come after those visited, the round comes to what has been done so far and the rest. */
  ghost predicate Reached(
    cfg: Config, nodes: seq<string>, all: map<Key, PodInfo>, timeout: nat, st0: RoundState,
    visited: seq<Key>, binds: seq<Bound>, failed: seq<Key>, st: RoundState)
  {
    && InPlace(cfg) && Known(nodes, st0.infos) && Known(nodes, st.infos)
    && forall rest: seq<Key> :: (forall k :: k in visited + rest ==> k in all) ==>
         SoFar(cfg, nodes, all, timeout, Round(cfg, nodes, all, visited + rest, st0, 0, timeout), binds, failed, rest, st)
  }

  lemma ReachedStart(cfg: Config, nodes: seq<string>, all: map<Key, PodInfo>, timeout: nat, st0: RoundState)
    requires InPlace(cfg) && Known(nodes, st0.infos)
    ensures Reached(cfg, nodes, all, timeout, st0, [], [], [], st0)
  {
    forall rest: seq<Key> | forall k :: k in [] + rest ==> k in all
      ensures SoFar(cfg, nodes, all, timeout, Round(cfg, nodes, all, [] + rest, st0, 0, timeout), [], [], rest, st0)
    {
      assert [] + rest == rest;
    }
  }

  lemma ReachedStep(
    cfg: Config, nodes: seq<string>, all: map<Key, PodInfo>, timeout: nat, st0: RoundState,
    visited: seq<Key>, binds: seq<Bound>, failed: seq<Key>, st: RoundState, k: Key)
    requires Reached(cfg, nodes, all, timeout, st0, visited, binds, failed, st) && k in all && |failed| <= timeout
    ensures var d := DecideFor(cfg, all[k], nodes, st);
      Reached(cfg, nodes, all, timeout, st0, visited + [k],
              if d.Host? then binds + [Bound(k, d.name)] else binds,
              if d.Host? then failed else failed + [k],
              if d.Host? then Account(st, all[k], d.name) else st)
  {
    hide SoFar, Round;
    var d := DecideFor(cfg, all[k], nodes, st);
    var binds' := if d.Host? then binds + [Bound(k, d.name)] else binds;
    var failed' := if d.Host? then failed else failed + [k];
    var st' := if d.Host? then Account(st, all[k], d.name) else st;
    forall rest: seq<Key> | forall l :: l in visited + [k] + rest ==> l in all
      ensures SoFar(cfg, nodes, all, timeout, Round(cfg, nodes, all, visited + [k] + rest, st0, 0, timeout), binds', failed', rest, st')
    {
      assert visited + [k] + rest == visited + ([k] + rest);
      SoFarStep(cfg, nodes, all, timeout, Round(cfg, nodes, all, visited + ([k] + rest), st0, 0, timeout), binds, failed, [k] + rest, st);
      assert ([k] + rest)[1..] == rest;
    }
  }

  lemma ReachedEnd(
    cfg: Config, nodes: seq<string>, all: map<Key, PodInfo>, timeout: nat, st0: RoundState,
    visited: seq<Key>, binds: seq<Bound>, failed: seq<Key>, st: RoundState, rest: seq<Key>)
    requires Reached(cfg, nodes, all, timeout, st0, visited, binds, failed, st)
    requires (forall k :: k in visited + rest ==> k in all) && (rest == [] || |failed| > timeout)
    ensures Round(cfg, nodes, all, visited + rest, st0, 0, timeout) == RoundResult(binds, failed, rest, st)
  {
    SoFarEnd(cfg, nodes, all, timeout, Round(cfg, nodes, all, visited + rest, st0, 0, timeout), binds, failed, rest, st);
  }

  // ----- The order -----

  /** The visited pods, each once, and those left, of all; none visited was beaten by one after it. */
  ghost predicate Visiting(less: Compare, all: PodMap, visited: seq<Key>, left: PodMap) {
    && Distinct(visited) && (forall k :: k in visited ==> k in all) && left == all - (set k | k in visited)
    && (StrictWeakOrder(less) ==>
          && (forall i, j :: 0 <= i < j < |visited| ==> !less(all[visited[j]].info, all[visited[i]].info))
          && forall i, k :: 0 <= i < |visited| && k in left ==> !less(left[k].info, all[visited[i]].info))
  }

  lemma VisitingStep(less: Compare, all: PodMap, visited: seq<Key>, left: PodMap, k: Key)
    requires Visiting(less, all, visited, left) && k in left
    requires StrictWeakOrder(less) ==> forall l :: l in left ==> !less(left[l].info, left[k].info)
    ensures k in all && left[k] == all[k] && k !in visited
    ensures Visiting(less, all, visited + [k], left - {k})
  {
  }

  ghost function Listing(keys: set<Key>): (s: seq<Key>)
    ensures Distinct(s) && forall k :: k in s <==> k in keys
  {
    if keys == {} then [] else
      var k :| k in keys;
      var rest := Listing(keys - {k});
      [k] + rest
  }

  /** No pod visited in the first `n` places is beaten by one that comes later. */
  ghost predicate BestFirst(less: Compare, all: PodMap, order: seq<Key>, n: nat) {
    StrictWeakOrder(less) ==>
      forall i, j :: 0 <= i < n && i < j < |order| && order[i] in all && order[j] in all ==>
        !less(all[order[j]].info, all[order[i]].info)
  }

  /** With the default comparator the pods visited come by nonincreasing priority, and the oldest first
      among equal priorities; none that is not visited has more. */
  lemma VisitedByPriority(all: PodMap, order: seq<Key>, n: nat)
    requires BestFirst(DefaultComparator, all, order, n) && forall k :: k in order ==> k in all
    ensures forall i, j :: 0 <= i < n && i < j < |order| ==>
      var a, b := all[order[i]].info, all[order[j]].info;
      a.priority >= b.priority && (a.priority == b.priority ==> a.timestamp <= b.timestamp)
  {
    ComparatorsAreStrictWeakOrders();
  }

  lemma VisitingEnds(less: Compare, all: PodMap, visited: seq<Key>, left: PodMap)
    requires Visiting(less, all, visited, left)
    ensures var order := visited + Listing(left.Keys);
      Distinct(order) && (forall k :: k in order <==> k in all) && BestFirst(less, all, order, |visited|)
  {
    var rest := Listing(left.Keys);
    var order := visited + rest;
    forall i | |visited| <= i < |order| ensures order[i] in left && order[i] in all && order[i] !in visited && left[order[i]] == all[order[i]] {
      assert rest[i - |visited|] in rest;
    }
    forall i, j | 0 <= i < j < |order| ensures order[i] != order[j] {
      if i >= |visited| { assert rest[i - |visited|] != rest[j - |visited|]; }
    }
    forall k ensures k in order <==> k in all {
      assert k in order <==> k in visited || k in rest;
    }
  }

  // ----- The round -----

  /** The results in the course of a round. */
  ghost predicate SoMuch(
    less: Compare, cfg: Config, nodes: seq<string>, all: PodMap, timeout: nat, st0: RoundState,
    events: seq<BindEvent>, binds: seq<Bound>, failed: seq<Key>, visited: seq<Key>, left: PodMap, st: RoundState)
  {
    && (forall k :: k in all ==> PodKey(all[k].info) == Some(k))
    && Visiting(less, all, visited, left)
    && (forall k :: k in failed ==> k in visited) && |visited| == |binds| + |failed|
    && Reached(cfg, nodes, Manifests(all), timeout, st0, visited, binds, failed, st)
    && EventsOf(events, binds, all)
  }

  lemma SoMuchMeans(
    less: Compare, cfg: Config, nodes: seq<string>, all: PodMap, timeout: nat, st0: RoundState,
    events: seq<BindEvent>, binds: seq<Bound>, failed: seq<Key>, visited: seq<Key>, left: PodMap, st: RoundState)
    requires SoMuch(less, cfg, nodes, all, timeout, st0, events, binds, failed, visited, left, st)
    ensures InPlace(cfg) && Known(nodes, st.infos)
    ensures forall k :: k in left ==> k in all && left[k] == all[k] && PodKey(all[k].info) == Some(k) && k !in failed
  {
  }

  lemma SoMuchStep(
    less: Compare, cfg: Config, nodes: seq<string>, all: PodMap, timeout: nat, st0: RoundState,
    events: seq<BindEvent>, binds: seq<Bound>, failed: seq<Key>, visited: seq<Key>, left: PodMap, st: RoundState, key: Key)
    requires SoMuch(less, cfg, nodes, all, timeout, st0, events, binds, failed, visited, left, st)
    requires key in left && |failed| <= timeout
    requires StrictWeakOrder(less) ==> forall l :: l in left ==> !less(left[l].info, left[key].info)
    ensures InPlace(cfg) && Known(nodes, st.infos) && key in all
    ensures var d := DecideFor(cfg, all[key].info, nodes, st);
      SoMuch(less, cfg, nodes, all, timeout, st0,
             if d.Host? then events + [BindEvent(all[key], d.name)] else events,
             if d.Host? then binds + [Bound(key, d.name)] else binds,
             if d.Host? then failed else failed + [key],
             visited + [key], left - {key}, if d.Host? then Account(st, all[key].info, d.name) else st)
  {
    SoMuchMeans(less, cfg, nodes, all, timeout, st0, events, binds, failed, visited, left, st);
    hide Reached, EventsOf, Visiting;
    VisitingStep(less, all, visited, left, key);
    ReachedStep(cfg, nodes, Manifests(all), timeout, st0, visited, binds, failed, st, key);
    var d := DecideFor(cfg, all[key].info, nodes, st);
    EventsMore(events, binds, all, key, if d.Host? then d.name else "");
  }

  /** The queues and the results in the course of a round. */
  ghost predicate InPriorityRound(
    sched: GenericScheduler, q: PriorityQueue, nodes: seq<string>, all: PodMap, timeout: nat, st0: RoundState,
    events: seq<BindEvent>, binds: seq<Bound>, visited: seq<Key>, infos: Infos)
    reads sched, sched.failQueue, q, q.inner
  {
    && q.Valid() && q.nominatedPods == map[]
    && Holds(sched.failQueue.queue, sched.failQueue.pods, sched.failQueue.queue, all)
    && SoMuch(q.inner.comparator, sched.cfg, nodes, all, timeout, st0, events, binds, sched.failQueue.queue, visited,
              q.Contents(), RoundState(infos, sched.cache))
  }

  /** Take the front pod out of the queue, and its nomination with it if it is bound. */
  method TakeBest(q: PriorityQueue, ghost all: PodMap, bind: bool) returns (pod: V1Pod)
    requires q.Valid() && q.Contents() != map[] && q.nominatedPods == map[]
    requires forall k :: k in q.Contents() ==> k in all && q.Contents()[k] == all[k]
    modifies q, q.inner, all.Values
    ensures q.Valid() && q.nominatedPods == map[] && old(q.First()).Some?
    ensures old(q.First()).value in old(q.Contents()) && pod == old(q.Contents())[old(q.First()).value]
    ensures q.Contents() == old(q.Contents()) - {old(q.First()).value}
  {
    hide RawPriorityQueue.Valid;
    var p, _ := q.Pop();
    pod := p.value;
    assert pod in all.Values;
    if bind {
      var _ := q.RemoveNominatedNode(pod);
    }
  }

  /** The front pod is bound: charge the node, take the pod out, and show it on the node. */
  method BindBest(sched: GenericScheduler, q: PriorityQueue, ghost all: PodMap, infos: Infos, info: PodInfo, host: string) returns (infos': Infos)
    requires q.Valid() && q.Contents() != map[] && q.nominatedPods == map[] && host in infos
    requires forall k :: k in q.Contents() ==> k in all && q.Contents()[k] == all[k]
    modifies sched`cache, q, q.inner, all.Values
    ensures q.Valid() && q.nominatedPods == map[] && old(q.First()).Some?
    ensures var key := old(q.First()).value; key in old(q.Contents()) && q.Contents() == old(q.Contents()) - {key}
    ensures RoundState(infos', sched.cache) == Account(RoundState(infos, old(sched.cache)), info, host)
  {
    hide PriorityQueue.Valid, PriorityQueue.Contents, PriorityQueue.First;
    sched.cache := Charge(sched.cache, infos, info, host);
    var _ := TakeBest(q, all, true);
    var nodeInfo := infos[host];
    infos' := infos[host := nodeInfo.(pods := nodeInfo.pods + {info})];
  }

  /** The front pod fails: it goes to the fail queue. */
  method FailBest(sched: GenericScheduler, q: PriorityQueue, ghost all: PodMap, pod: V1Pod)
    requires q.Valid() && q.Contents() != map[] && q.nominatedPods == map[]
    requires forall k :: k in q.Contents() ==> k in all && q.Contents()[k] == all[k]
    requires q.First().Some? && PodKey(pod.info) == q.First() && q.First().value in q.Contents() && pod == all[q.First().value]
    requires q.First().value !in sched.failQueue.queue
    requires Holds(sched.failQueue.queue, sched.failQueue.pods, sched.failQueue.queue, all)
    modifies sched.failQueue, q, q.inner, all.Values
    ensures q.Valid() && q.nominatedPods == map[]
    ensures var key := old(q.First()).value;
      && q.Contents() == old(q.Contents()) - {key}
      && sched.failQueue.queue == old(sched.failQueue.queue) + [key]
      && Holds(sched.failQueue.queue, sched.failQueue.pods, sched.failQueue.queue, all)
  {
    hide Holds, Live, PriorityQueue.Valid, PriorityQueue.Contents, PriorityQueue.First;
    PutLast(sched.failQueue, pod, sched.failQueue.queue, all);
    var _ := TakeBest(q, all, false);
  }

  /** The scheduler's part of a turn, on the best pod queued. */
  method VisitFront(sched: GenericScheduler, q: PriorityQueue, ghost all: PodMap, nodes: seq<string>, infos: Infos, w: Interleaving)
    returns (event: Option<BindEvent>, infos': Infos)
    requires q.Valid() && q.Contents() != map[] && q.nominatedPods == map[]
    requires forall k :: k in q.Contents() ==> k in all && q.Contents()[k] == all[k] && PodKey(all[k].info) == Some(k)
    requires forall k :: k in q.Contents() ==> k !in sched.failQueue.queue
    requires Holds(sched.failQueue.queue, sched.failQueue.pods, sched.failQueue.queue, all)
    requires InPlace(sched.cfg) && Known(nodes, infos) && Complete(w, sched.cfg, nodes)
    modifies sched, sched.failQueue, q, q.inner, all.Values
    ensures q.Valid() && q.nominatedPods == map[] && old(q.First()).Some?
    ensures var key := old(q.First()).value; key in old(q.Contents()) && q.Contents() == old(q.Contents()) - {key}
    ensures var key := old(q.First()).value; var st := RoundState(infos, old(sched.cache)); var d := DecideFor(sched.cfg, all[key].info, nodes, st);
      && event == (if d.Host? then Some(BindEvent(all[key], d.name)) else None)
      && RoundState(infos', sched.cache) == (if d.Host? then Account(st, all[key].info, d.name) else st)
      && sched.failQueue.queue == (if d.Host? then old(sched.failQueue.queue) else old(sched.failQueue.queue) + [key])
      && Holds(sched.failQueue.queue, sched.failQueue.pods, sched.failQueue.queue, all)
  {
    hide Holds, Live, PriorityQueue.Valid, PriorityQueue.Contents, PriorityQueue.First;
    var front, _ := q.Front();
    var pod := front.value;
    var info := pod.info;
    assert pod == all[q.First().value];
    var d := ScheduleOne(sched.cfg, info, nodes, infos, sched.cache, NoNominated(), w);
    DecidedIsKnown(sched.cfg, info, nodes, infos, sched.cache, NoNominated());
    if d.Host? {
      infos' := BindBest(sched, q, all, infos, info, d.name);
      event := Some(BindEvent(pod, d.name));
    } else {
      FailBest(sched, q, all, pod);
      event, infos' := None, infos;
    }
  }

  /** One turn of the main loop. */
  method VisitBest(
    sched: GenericScheduler, q: PriorityQueue, nodes: seq<string>, ghost all: PodMap, ghost timeout: nat, ghost st0: RoundState,
    events: seq<BindEvent>, ghost binds: seq<Bound>, ghost visited: seq<Key>, infos: Infos, w: Interleaving)
    returns (events': seq<BindEvent>, ghost binds': seq<Bound>, ghost visited': seq<Key>, infos': Infos)
    requires InPriorityRound(sched, q, nodes, all, timeout, st0, events, binds, visited, infos)
    requires q.Contents() != map[] && |sched.failQueue.queue| <= timeout && Complete(w, sched.cfg, nodes)
    modifies sched, sched.failQueue, q, q.inner, all.Values
    ensures InPriorityRound(sched, q, nodes, all, timeout, st0, events', binds', visited', infos')
    ensures |q.Contents()| < |old(q.Contents())|
  {
    hide SoMuch, Holds, Live, InPlace, Known, Complete, PriorityQueue.Valid, PriorityQueue.Contents, PriorityQueue.First;
    ghost var st, fails, left := RoundState(infos, sched.cache), sched.failQueue.queue, q.Contents();
    SoMuchMeans(q.inner.comparator, sched.cfg, nodes, all, timeout, st0, events, binds, fails, visited, left, st);
    FrontIsBest(q);
    ghost var key := q.First().value;
    SoMuchStep(q.inner.comparator, sched.cfg, nodes, all, timeout, st0, events, binds, fails, visited, left, st, key);
    var event;
    event, infos' := VisitFront(sched, q, all, nodes, infos, w);
    events' := if event.Some? then events + [event.value] else events;
    binds' := if event.Some? then binds + [Bound(key, event.value.host)] else binds;
    visited' := visited + [key];
    SmallerMap(left, key);
  }

  lemma SmallerMap(m: PodMap, k: Key)
    requires k in m
    ensures |m - {k}| < |m|
  {
    assert (m - {k}).Keys == m.Keys - {k};
  }

  lemma FrontIsBest(q: PriorityQueue)
    requires q.Valid() && q.Contents() != map[]
    ensures q.First().Some? && q.Best(q.Contents(), q.First().value)
    ensures q.First().value in q.Contents()
  {
    assert q.inner.keys != [];
    q.FirstKeyIsBest();
  }

  /** The round's main loop. */
  method VisitAll(
    sched: GenericScheduler, q: PriorityQueue, nodes: seq<string>, ghost all: PodMap, infos: Infos, timeout: nat, ws: nat -> Interleaving)
    returns (events: seq<BindEvent>, ghost binds: seq<Bound>, ghost visited: seq<Key>, infos': Infos)
    requires q.Valid() && q.nominatedPods == map[] && all == q.Contents()
    requires sched.failQueue.queue == [] && sched.failQueue.pods == map[]
    requires InPlace(sched.cfg) && Known(nodes, infos) && forall i :: Complete(ws(i), sched.cfg, nodes)
    modifies sched, sched.failQueue, q, q.inner, all.Values
    ensures InPriorityRound(sched, q, nodes, all, timeout, RoundState(infos, old(sched.cache)), events, binds, visited, infos')
    ensures q.Contents() == map[] || |sched.failQueue.queue| > timeout
  {
    hide InPriorityRound, InPlace, Known, Complete, PriorityQueue.Valid, PriorityQueue.Contents, PriorityQueue.First;
    ghost var st0 := RoundState(infos, sched.cache);
    RoundStarts(sched, q, nodes, all, timeout, infos);
    events, binds, visited, infos' := [], [], [], infos;
    var n, len := 0, 0;
    while len <= timeout
      invariant InPriorityRound(sched, q, nodes, all, timeout, st0, events, binds, visited, infos')
      invariant len == |sched.failQueue.queue|
      decreases |q.Contents()|
    {
      var empty := QueueEmpty(sched, q, nodes, all, timeout, st0, events, binds, visited, infos');
      if empty {
        break;
      }
      events, binds, visited, infos' := VisitBest(sched, q, nodes, all, timeout, st0, events, binds, visited, infos', ws(n));
      n := n + 1;
      len := sched.failQueue.Len();
    }
  }

  method QueueEmpty(
    sched: GenericScheduler, q: PriorityQueue, nodes: seq<string>, ghost all: PodMap, ghost timeout: nat, ghost st0: RoundState,
    ghost events: seq<BindEvent>, ghost binds: seq<Bound>, ghost visited: seq<Key>, ghost infos: Infos) returns (empty: bool)
    requires InPriorityRound(sched, q, nodes, all, timeout, st0, events, binds, visited, infos)
    ensures empty <==> q.Contents() == map[]
  {
    var _, err := q.Front();
    empty := err != NoError;
  }

  lemma RoundStarts(sched: GenericScheduler, q: PriorityQueue, nodes: seq<string>, all: PodMap, timeout: nat, infos: Infos)
    requires q.Valid() && q.nominatedPods == map[] && all == q.Contents()
    requires sched.failQueue.queue == [] && sched.failQueue.pods == map[]
    requires InPlace(sched.cfg) && Known(nodes, infos)
    ensures InPriorityRound(sched, q, nodes, all, timeout, RoundState(infos, sched.cache), [], [], [], infos)
  {
    ReachedStart(sched.cfg, nodes, Manifests(all), timeout, RoundState(infos, sched.cache));
    HoldsNone(all);
  }

  /** The contents when `left` of the failed pods have not been put back, and the others have. */
  ghost predicate PutBack(contents: PodMap, all: PodMap, base: PodMap, failed: seq<Key>, left: seq<Key>) {
    && Distinct(left) && (forall k :: k in left ==> k in failed) && (forall k :: k in failed ==> k in all && k !in base)
    && contents == base + Restored(all - (set k | k in left), failed)
  }

  lemma PutBackStep(contents: PodMap, all: PodMap, base: PodMap, failed: seq<Key>, left: seq<Key>)
    requires PutBack(contents, all, base, failed, left) && left != []
    ensures left[0] in all && left[0] !in contents
    ensures PutBack(contents[left[0] := all[left[0]]], all, base, failed, left[1..])
  {
    assert forall k :: k in left <==> k == left[0] || k in left[1..];
    assert left[0] !in left[1..];
  }

  /** Pop a failed pod. */
  method PopFailed(from: FIFOQueue, ghost left: seq<Key>, ghost all: PodMap) returns (pod: Option<V1Pod>)
    requires from.queue == left && Holds(from.queue, from.pods, left, all) && (left != [] ==> left[0] in all)
    modifies from
    ensures left == [] <==> pod.None?
    ensures left != [] ==> pod == Some(all[left[0]]) && from.queue == left[1..] && Holds(from.queue, from.pods, left[1..], all)
    ensures left == [] ==> from.queue == [] && from.pods == old(from.pods) == map[]
  {
    HoldsKeys(from.queue, from.pods, left, all);
    var err;
    pod, err := from.Pop();
  }

  /** One turn of the requeueing loop. */
  method PutBackOne(sched: GenericScheduler, q: PriorityQueue, ghost all: PodMap, ghost base: PodMap, ghost failed: seq<Key>, ghost left: seq<Key>)
    returns (more: bool)
    requires q.Valid() && PutBack(q.Contents(), all, base, failed, left) && forall k :: k in all ==> PodKey(all[k].info) == Some(k)
    requires sched.failQueue.queue == left && Holds(left, sched.failQueue.pods, left, all)
    modifies sched.failQueue, q.inner
    ensures q.Valid() && more == (left != [])
    ensures more ==>
      && PutBack(q.Contents(), all, base, failed, left[1..])
      && sched.failQueue.queue == left[1..] && Holds(left[1..], sched.failQueue.pods, left[1..], all)
    ensures !more ==> q.Contents() == old(q.Contents()) && sched.failQueue.queue == [] && sched.failQueue.pods == map[]
  {
    if left != [] { PutBackStep(q.Contents(), all, base, failed, left); }
    hide PutBack, Holds, PriorityQueue.Valid, PriorityQueue.Contents, PriorityQueue.First;
    var pod := PopFailed(sched.failQueue, left, all);
    more := pod.Some?;
    if more {
      var _ := q.Push(pod.value);
    }
  }

  /** Put the failed pods back. */
  method PutBackAll(sched: GenericScheduler, q: PriorityQueue, ghost all: PodMap, ghost failed: seq<Key>)
    requires q.Valid() && PutBack(q.Contents(), all, q.Contents(), failed, failed) && forall k :: k in all ==> PodKey(all[k].info) == Some(k)
    requires sched.failQueue.queue == failed && Holds(failed, sched.failQueue.pods, failed, all)
    modifies sched.failQueue, q.inner
    ensures q.Valid() && sched.failQueue.queue == [] && sched.failQueue.pods == map[]
    ensures PutBack(q.Contents(), all, old(q.Contents()), failed, [])
  {
    hide PutBack, Holds, PriorityQueue.Valid, PriorityQueue.Contents, PriorityQueue.First;
    HoldsNone(all);
    ghost var left := failed;
    var more := true;
    while more
      invariant q.Valid() && PutBack(q.Contents(), all, old(q.Contents()), failed, left)
      invariant sched.failQueue.queue == left && Holds(left, sched.failQueue.pods, left, all)
      invariant !more ==> left == [] && sched.failQueue.pods == map[]
      decreases more, |left|
    {
      more := PutBackOne(sched, q, all, old(q.Contents()), failed, left);
      if more { left := left[1..]; }
    }
  }

  /** What is not bound is what was left and what failed. */
  lemma KeptAll(less: Compare, all: PodMap, order: seq<Key>, bound: seq<Key>, visited: seq<Key>, left: PodMap, failed: seq<Key>, rest: seq<Key>, contents: PodMap)
    requires Visiting(less, all, visited, left) && PutBack(contents, all, left, failed, [])
    requires (forall k :: k in rest <==> k in left) && (forall k :: k in order <==> k in all)
    requires forall k :: k in rest + failed <==> k in order && k !in bound
    ensures contents == all - (set k | k in bound)
  {
    forall k ensures k in left || k in failed <==> k in all && k !in bound {
      assert k in rest + failed <==> k in rest || k in failed;
    }
  }

  /** The main loop, and what it means. */
  method VisitToEnd(
    sched: GenericScheduler, q: PriorityQueue, ghost all: PodMap, nodes: seq<string>, infos: Infos, timeout: nat, ws: nat -> Interleaving)
    returns (events: seq<BindEvent>, ghost binds: seq<Bound>, ghost rest: seq<Key>, ghost left: PodMap, ghost visited: seq<Key>, infos': Infos)
    requires q.Valid() && q.nominatedPods == map[] && all == q.Contents()
    requires sched.failQueue.queue == [] && sched.failQueue.pods == map[]
    requires InPlace(sched.cfg) && Known(nodes, infos) && forall i :: Complete(ws(i), sched.cfg, nodes)
    modifies sched, sched.failQueue, q, q.inner, all.Values
    ensures q.Valid() && left == q.Contents() && (forall k :: k in rest <==> k in left)
    ensures var failed, order := sched.failQueue.queue, visited + rest;
      && Distinct(order) && (forall k :: k in order <==> k in all)
      && BestFirst(q.inner.comparator, all, order, |binds| + |failed|)
      && Round(sched.cfg, nodes, Manifests(all), order, RoundState(infos, old(sched.cache)), 0, timeout)
           == RoundResult(binds, failed, rest, RoundState(infos', sched.cache))
      && EventsOf(events, binds, all) && Visiting(q.inner.comparator, all, visited, left)
      && Holds(failed, sched.failQueue.pods, failed, all) && PutBack(left, all, left, failed, failed)
      && (forall k :: k in all ==> PodKey(all[k].info) == Some(k))
      && forall k :: k in rest + failed <==> k in order && k !in Keys(binds)
  {
    hide Reached, InPriorityRound, Holds, EventsOf, Round, Visiting, PutBack, BestFirst, InPlace, Known, Complete,
      PriorityQueue.Valid, PriorityQueue.Contents, PriorityQueue.First;
    ghost var st0 := RoundState(infos, sched.cache);
    events, binds, visited, infos' := VisitAll(sched, q, nodes, all, infos, timeout, ws);
    left, rest := q.Contents(), Listing(q.Contents().Keys);
    RoundEnds(sched, q, nodes, all, timeout, st0, events, binds, visited, infos');
  }

  /** THEOREM.  A round over the priority queue binds as the round does over the pods in some order in which
      no pod visited is beaten by a later one; every other pod stays queued, the queue is valid again, and
      the fail queue is empty. */
  method ScheduleByPriority(
    sched: GenericScheduler, q: PriorityQueue, ghost all: PodMap, nodes: seq<string>, infos: Infos, timeout: nat, ws: nat -> Interleaving)
    returns (events: seq<BindEvent>, ghost order: seq<Key>, infos': Infos)
    requires q.Valid() && q.nominatedPods == map[] && all == q.Contents()
    requires sched.failQueue.queue == [] && sched.failQueue.pods == map[]
    requires InPlace(sched.cfg) && Known(nodes, infos) && forall i :: Complete(ws(i), sched.cfg, nodes)
    modifies sched, sched.failQueue, q, q.inner, all.Values
    ensures q.Valid() && sched.failQueue.queue == [] && sched.failQueue.pods == map[]
    ensures Distinct(order) && forall k :: k in order <==> k in all
    ensures var r := Round(sched.cfg, nodes, Manifests(all), order, RoundState(infos, old(sched.cache)), 0, timeout);
      && BestFirst(q.inner.comparator, all, order, |r.binds| + |r.failed|)
      && EventsOf(events, r.binds, all) && RoundState(infos', sched.cache) == r.state
      && q.Contents() == all - (set k | k in Keys(r.binds))
    ensures FilledBy(infos, infos', events)
  {
    hide Reached, InPriorityRound, Holds, EventsOf, Round, Visiting, PutBack, BestFirst, InPlace, Known, Complete,
      FilledBy, PriorityQueue.Valid, PriorityQueue.Contents, PriorityQueue.First;
    ghost var binds, rest, left, visited;
    events, binds, rest, left, visited, infos' := VisitToEnd(sched, q, all, nodes, infos, timeout, ws);
    order := visited + rest;
    ghost var failed := sched.failQueue.queue;
    RoundFillsBy(sched.cfg, nodes, all, order, RoundState(infos, old(sched.cache)), timeout, events);
    PutBackAll(sched, q, all, failed);
    KeptAll(q.inner.comparator, all, order, Keys(binds), visited, left, failed, rest, q.Contents());
  }

  lemma RoundEnds(
    sched: GenericScheduler, q: PriorityQueue, nodes: seq<string>, all: PodMap, timeout: nat, st0: RoundState,
    events: seq<BindEvent>, binds: seq<Bound>, visited: seq<Key>, infos: Infos)
    requires InPriorityRound(sched, q, nodes, all, timeout, st0, events, binds, visited, infos)
    requires q.Contents() == map[] || |sched.failQueue.queue| > timeout
    ensures var failed, rest := sched.failQueue.queue, Listing(q.Contents().Keys); var order := visited + rest;
      && InPlace(sched.cfg) && Known(nodes, st0.infos) && Distinct(order) && (forall k :: k in order <==> k in all)
      && BestFirst(q.inner.comparator, all, order, |binds| + |failed|)
      && Round(sched.cfg, nodes, Manifests(all), order, st0, 0, timeout) == RoundResult(binds, failed, rest, RoundState(infos, sched.cache))
      && EventsOf(events, binds, all) && Visiting(q.inner.comparator, all, visited, q.Contents())
      && q.Valid() && Holds(failed, sched.failQueue.pods, failed, all) && PutBack(q.Contents(), all, q.Contents(), failed, failed)
      && (forall k :: k in all ==> PodKey(all[k].info) == Some(k))
      && forall k :: k in rest + failed <==> k in order && k !in Keys(binds)
  {
    var left, failed, rest := q.Contents(), sched.failQueue.queue, Listing(q.Contents().Keys);
    var st := RoundState(infos, sched.cache);
    VisitingEnds(q.inner.comparator, all, visited, left);
    if q.Contents() == map[] { assert rest == []; }
    ReachedEnd(sched.cfg, nodes, Manifests(all), timeout, st0, visited, binds, failed, st, rest);
    RoundPartitions(sched.cfg, nodes, Manifests(all), visited + rest, st0, timeout);
    HoldsKeys(failed, sched.failQueue.pods, failed, all);
    FailedNotLeft(q.inner.comparator, all, visited, left, failed);
  }

  lemma FailedNotLeft(less: Compare, all: PodMap, visited: seq<Key>, left: PodMap, failed: seq<Key>)
    requires Visiting(less, all, visited, left) && Distinct(failed) && forall k :: k in failed ==> k in visited
    ensures PutBack(left, all, left, failed, failed)
  {
    assert Restored(all - (set k | k in failed), failed) == map[];
  }
}
