// A scheduling round in keep-scheduling mode (`Schedule` in pkg/scheduler/generic_scheduler.go) over a
// FIFO queue: failed pods wait in a second queue and are put back at the end.

module Rounds {
  import opened Prelude
  import opened Pods
  import opened Victims
  import opened Allocation
  import opened Scheduling
  import opened Scores = ParallelScores
  import opened FifoOrder
  import opened Fifo

  /** The state a round changes: the scheduler's view of the nodes, and NodeMetricsCache. */
  datatype RoundState = RoundState(infos: Infos, cache: Cache)

  datatype Bound = Bound(key: Key, host: string)

  datatype RoundResult = RoundResult(binds: seq<Bound>, failed: seq<Key>, rest: seq<Key>, state: RoundState)

  function NoNominated(): string -> seq<PodInfo> {
    n => []
  }

  /** The reductions of the prioritizers work in place on their rows. */
  ghost predicate InPlace(cfg: Config) {
    forall pod, infos :: ReductionsInPlace(Plugins(cfg, pod, infos))
  }

  function Charge(cache: Cache, infos: Infos, pod: PodInfo, host: string): Cache
    requires host in infos
  {
    if host in cache then
      var m := cache[host];
      cache[host := m.(usage := Amounts(m.usage.cpu + pod.cpu, m.usage.mem + pod.memory))]
    else
      cache[host := NodeMetrics(Amounts(pod.cpu, pod.memory), Amounts(infos[host].cpu, infos[host].memory))]
  }

  /** Account for a pod bound in this round. */
  function Account(st: RoundState, pod: PodInfo, host: string): (r: RoundState)
    requires host in st.infos
    ensures r.infos.Keys == st.infos.Keys
  {
    var info := st.infos[host];
    RoundState(st.infos[host := info.(pods := info.pods + {pod})], Charge(st.cache, st.infos, pod, host))
  }

  ghost predicate Known(nodes: seq<string>, infos: Infos) {
    forall n :: n in nodes ==> n in infos
  }

  lemma {:induction false} ExtendAllKnown(es: seq<Extender>, pod: PodInfo, nodes: seq<string>, infos: Infos, cache: Cache)
    requires Known(nodes, infos)
    ensures ExtendAll(es, pod, nodes, infos, cache).Some? ==> Known(ExtendAll(es, pod, nodes, infos, cache).value, infos)
    decreases es
  {
    if es != [] && nodes != [] {
      var r := Extend(es[0], pod, nodes, infos, cache);
      if r.Some? { ExtendAllKnown(es[1..], pod, r.value, infos, cache); }
    }
  }

  /** The host decided on came through all filters. */
  lemma DecidedIsFiltered(cfg: Config, pod: PodInfo, nodes: seq<string>, infos: Infos, cache: Cache, nominated: string -> seq<PodInfo>)
    requires ReductionsInPlace(Plugins(cfg, pod, infos))
    ensures var d := Decide(cfg, pod, nodes, infos, cache, nominated); var f := Filtered(cfg, pod, nodes, infos, cache, nominated);
      d.Host? ==> f.Some? && d.name in f.value
  {
  }

  lemma DecidedIsKnown(cfg: Config, pod: PodInfo, nodes: seq<string>, infos: Infos, cache: Cache, nominated: string -> seq<PodInfo>)
    requires ReductionsInPlace(Plugins(cfg, pod, infos)) && Known(nodes, infos)
    ensures var d := Decide(cfg, pod, nodes, infos, cache, nominated); d.Host? ==> d.name in infos
  {
    DecidedIsFiltered(cfg, pod, nodes, infos, cache, nominated);
    var outcome := Outcome(cfg, pod, infos, nominated);
    Filter.PassingMembers(nodes, outcome);
    ExtendAllKnown(cfg.extenders, pod, if cfg.preds == [] then nodes else Filter.Passing(nodes, outcome), infos, cache);
  }

  ghost function DecideFor(cfg: Config, pod: PodInfo, nodes: seq<string>, st: RoundState): (d: Decision)
    requires InPlace(cfg) && Known(nodes, st.infos)
    ensures d.Host? ==> d.name in st.infos
  {
    DecidedIsKnown(cfg, pod, nodes, st.infos, st.cache, NoNominated());
    Decide(cfg, pod, nodes, st.infos, st.cache, NoNominated())
  }

  /** A round over the pods `todo` in order, when `fails` have failed already. */
  ghost function Round(cfg: Config, nodes: seq<string>, pods: map<Key, PodInfo>, todo: seq<Key>, st: RoundState, fails: nat, timeout: nat): RoundResult
    requires InPlace(cfg) && Known(nodes, st.infos) && forall k :: k in todo ==> k in pods
    decreases |todo|
  {
    if todo == [] then RoundResult([], [], [], st) else
      var d := DecideFor(cfg, pods[todo[0]], nodes, st);
      if d.Host? then
        var r := Round(cfg, nodes, pods, todo[1..], Account(st, pods[todo[0]], d.name), fails, timeout);
        r.(binds := [Bound(todo[0], d.name)] + r.binds)
      else if fails + 1 > timeout then RoundResult([], [todo[0]], todo[1..], st)
      else
        var r := Round(cfg, nodes, pods, todo[1..], st, fails + 1, timeout);
        r.(failed := [todo[0]] + r.failed)
  }

  function Keys(binds: seq<Bound>): seq<Key> {
    if binds == [] then [] else [binds[0].key] + Keys(binds[1..])
  }

  lemma {:induction false} KeysIndex(binds: seq<Bound>)
    ensures |Keys(binds)| == |binds|
    ensures forall i :: 0 <= i < |binds| ==> Keys(binds)[i] == binds[i].key
  {
    if binds != [] { KeysIndex(binds[1..]); }
  }

  /** `a` is what remains of `b` after leaving some elements out. */
  ghost predicate Subsequence(a: seq<Key>, b: seq<Key>)
    decreases |b|
  {
    a == [] || (b != [] && ((a[0] == b[0] && Subsequence(a[1..], b[1..])) || Subsequence(a, b[1..])))
  }

  /** THEOREM (conservation).  Every pod taken up ends up bound, failed or not visited, exactly once. */
  lemma {:induction false} RoundConserves(cfg: Config, nodes: seq<string>, pods: map<Key, PodInfo>, todo: seq<Key>, st: RoundState, fails: nat, timeout: nat)
    requires InPlace(cfg) && Known(nodes, st.infos) && forall k :: k in todo ==> k in pods
    ensures var r := Round(cfg, nodes, pods, todo, st, fails, timeout);
      multiset(Keys(r.binds)) + multiset(r.failed) + multiset(r.rest) == multiset(todo)
    decreases |todo|
  {
    if todo != [] {
      assert todo == [todo[0]] + todo[1..];
      var d := DecideFor(cfg, pods[todo[0]], nodes, st);
      if d.Host? {
        RoundConserves(cfg, nodes, pods, todo[1..], Account(st, pods[todo[0]], d.name), fails, timeout);
        var r := Round(cfg, nodes, pods, todo, st, fails, timeout);
        assert Keys(r.binds) == [todo[0]] + Keys(r.binds[1..]);
      } else if fails + 1 <= timeout {
        RoundConserves(cfg, nodes, pods, todo[1..], st, fails + 1, timeout);
      }
    }
  }

  ghost predicate KeepsOrder(r: RoundResult, todo: seq<Key>, fails: nat, timeout: nat) {
    && Subsequence(r.failed, todo) && |r.rest| <= |todo| && r.rest == todo[|todo| - |r.rest|..]
    && |r.failed| + fails <= timeout + 1
    && (r.rest != [] ==> |r.failed| + fails == timeout + 1)
  }

  /** THEOREM (order and bound).  Failed pods keep their order; the pods not visited are the tail of the
      queue; at most one more pod than the timeout fails, and exactly that many if any is not visited. */
  lemma {:induction false} RoundKeepsOrder(cfg: Config, nodes: seq<string>, pods: map<Key, PodInfo>, todo: seq<Key>, st: RoundState, fails: nat, timeout: nat)
    requires InPlace(cfg) && Known(nodes, st.infos) && (forall k :: k in todo ==> k in pods) && fails <= timeout
    ensures KeepsOrder(Round(cfg, nodes, pods, todo, st, fails, timeout), todo, fails, timeout)
    decreases |todo|
  {
    if todo != [] {
      var d := DecideFor(cfg, pods[todo[0]], nodes, st);
      if d.Host? {
        RoundKeepsOrder(cfg, nodes, pods, todo[1..], Account(st, pods[todo[0]], d.name), fails, timeout);
      } else if fails + 1 <= timeout {
        RoundKeepsOrder(cfg, nodes, pods, todo[1..], st, fails + 1, timeout);
      }
    }
  }

  lemma PartsOfDistinct(a: seq<Key>, b: seq<Key>, whole: seq<Key>)
    requires multiset(a) + multiset(b) == multiset(whole) && Distinct(whole)
    ensures Distinct(a) && Distinct(b) && forall k :: k in b <==> k in whole && k !in a
  {
    DistinctCounts(whole);
    DistinctCounts(a);
    DistinctCounts(b);
    forall k ensures multiset(a)[k] + multiset(b)[k] == multiset(whole)[k] <= 1 {
      assert (multiset(a) + multiset(b))[k] == multiset(whole)[k];
    }
    forall k ensures k in b <==> k in whole && k !in a {
      assert k in whole <==> k in multiset(whole);
      assert k in a <==> k in multiset(a);
      assert k in b <==> k in multiset(b);
    }
  }

  /** When the queue lists each key once, a pod stays pending if and only if it was not bound, and no pod
      is bound or kept twice. */
  lemma RoundPartitions(cfg: Config, nodes: seq<string>, pods: map<Key, PodInfo>, todo: seq<Key>, st: RoundState, timeout: nat)
    requires InPlace(cfg) && Known(nodes, st.infos) && (forall k :: k in todo ==> k in pods) && Distinct(todo)
    ensures var r := Round(cfg, nodes, pods, todo, st, 0, timeout);
      && Distinct(Keys(r.binds)) && Distinct(r.rest + r.failed)
      && forall k :: k in r.rest + r.failed <==> k in todo && k !in Keys(r.binds)
  {
    var r := Round(cfg, nodes, pods, todo, st, 0, timeout);
    RoundConserves(cfg, nodes, pods, todo, st, 0, timeout);
    assert multiset(r.rest + r.failed) == multiset(r.rest) + multiset(r.failed);
    PartsOfDistinct(Keys(r.binds), r.rest + r.failed, todo);
  }

  // ----- What a round makes of the nodes -----

  /** The manifests bound to a node. */
  ghost function BoundOn(pods: map<Key, PodInfo>, binds: seq<Bound>, node: string): set<PodInfo> {
    set i | 0 <= i < |binds| && binds[i].host == node && binds[i].key in pods :: pods[binds[i].key]
  }

  /** The node with more pods. */
  function Plus(info: NodeInfo, more: set<PodInfo>): NodeInfo {
    info.(pods := info.pods + more)
  }

  /** Every node has the pods it had and the ones bound to it, and is otherwise the same. */
  ghost predicate Filled(before: Infos, after: Infos, pods: map<Key, PodInfo>, binds: seq<Bound>) {
    && after.Keys == before.Keys
    && forall n :: n in before ==> after[n] == Plus(before[n], BoundOn(pods, binds, n))
  }

  lemma BoundOnCons(pods: map<Key, PodInfo>, b: Bound, binds: seq<Bound>, node: string)
    requires b.key in pods
    ensures BoundOn(pods, [b] + binds, node) == (if b.host == node then {pods[b.key]} else {}) + BoundOn(pods, binds, node)
  {
    var all := [b] + binds;
    forall p | p in BoundOn(pods, binds, node) ensures p in BoundOn(pods, all, node) {
      var i :| 0 <= i < |binds| && binds[i].host == node && binds[i].key in pods && pods[binds[i].key] == p;
      assert all[i + 1] == binds[i];
    }
    if b.host == node { assert all[0] == b; }
  }

  lemma FilledStep(pods: map<Key, PodInfo>, st: RoundState, r: RoundResult, key: Key, host: string)
    requires key in pods && host in st.infos && Filled(Account(st, pods[key], host).infos, r.state.infos, pods, r.binds)
    ensures Filled(st.infos, r.state.infos, pods, [Bound(key, host)] + r.binds)
  {
    forall n | n in st.infos ensures r.state.infos[n] == Plus(st.infos[n], BoundOn(pods, [Bound(key, host)] + r.binds, n)) {
      BoundOnCons(pods, Bound(key, host), r.binds, n);
    }
  }

  /** THEOREM.  After a round every node has exactly the pods it had and the ones bound to it. */
  lemma {:induction false} RoundFills(cfg: Config, nodes: seq<string>, pods: map<Key, PodInfo>, todo: seq<Key>, st: RoundState, fails: nat, timeout: nat)
    requires InPlace(cfg) && Known(nodes, st.infos) && forall k :: k in todo ==> k in pods
    ensures var r := Round(cfg, nodes, pods, todo, st, fails, timeout); Filled(st.infos, r.state.infos, pods, r.binds)
    decreases |todo|
  {
    if todo != [] {
      var d := DecideFor(cfg, pods[todo[0]], nodes, st);
      if d.Host? {
        var next := Account(st, pods[todo[0]], d.name);
        RoundFills(cfg, nodes, pods, todo[1..], next, fails, timeout);
        FilledStep(pods, st, Round(cfg, nodes, pods, todo[1..], next, fails, timeout), todo[0], d.name);
      } else if fails + 1 <= timeout {
        RoundFills(cfg, nodes, pods, todo[1..], st, fails + 1, timeout);
      }
    }
  }

  /** What has been done and what is left to do add up to the whole round; nothing is left to do when
      more pods failed than the timeout allows. */
  ghost predicate SoFar(
    cfg: Config, nodes: seq<string>, all: map<Key, PodInfo>, timeout: nat, total: RoundResult,
    binds: seq<Bound>, failed: seq<Key>, todo: seq<Key>, st: RoundState)
  {
    && InPlace(cfg) && Known(nodes, st.infos) && (forall k :: k in todo ==> k in all)
    && if |failed| > timeout then total == RoundResult(binds, failed, todo, st) else
         var r := Round(cfg, nodes, all, todo, st, |failed|, timeout);
         total == RoundResult(binds + r.binds, failed + r.failed, r.rest, r.state)
  }

  lemma SoFarStart(cfg: Config, nodes: seq<string>, all: map<Key, V1Pod>, timeout: nat, todo: seq<Key>, st: RoundState)
    requires InPlace(cfg) && Known(nodes, st.infos) && forall k :: k in todo ==> k in all
    ensures EventsOf([], [], all)
    ensures SoFar(cfg, nodes, Manifests(all), timeout, Round(cfg, nodes, Manifests(all), todo, st, 0, timeout), [], [], todo, st)
  {
  }

  lemma SoFarStep(
    cfg: Config, nodes: seq<string>, all: map<Key, PodInfo>, timeout: nat, total: RoundResult,
    binds: seq<Bound>, failed: seq<Key>, todo: seq<Key>, st: RoundState)
    requires SoFar(cfg, nodes, all, timeout, total, binds, failed, todo, st) && todo != [] && |failed| <= timeout
    ensures var d := DecideFor(cfg, all[todo[0]], nodes, st);
      SoFar(cfg, nodes, all, timeout, total,
            if d.Host? then binds + [Bound(todo[0], d.name)] else binds,
            if d.Host? then failed else failed + [todo[0]],
            todo[1..],
            if d.Host? then Account(st, all[todo[0]], d.name) else st)
  {
    var d := DecideFor(cfg, all[todo[0]], nodes, st);
    if d.Host? {
      var r := Round(cfg, nodes, all, todo[1..], Account(st, all[todo[0]], d.name), |failed|, timeout);
      assert binds + ([Bound(todo[0], d.name)] + r.binds) == binds + [Bound(todo[0], d.name)] + r.binds;
    } else if |failed| + 1 <= timeout {
      var r := Round(cfg, nodes, all, todo[1..], st, |failed| + 1, timeout);
      assert failed + ([todo[0]] + r.failed) == failed + [todo[0]] + r.failed;
    } else {
      assert binds + [] == binds;
    }
  }

  lemma SoFarHead(
    cfg: Config, nodes: seq<string>, all: map<Key, PodInfo>, timeout: nat, total: RoundResult,
    binds: seq<Bound>, failed: seq<Key>, todo: seq<Key>, st: RoundState)
    requires SoFar(cfg, nodes, all, timeout, total, binds, failed, todo, st) && todo != []
    ensures InPlace(cfg) && Known(nodes, st.infos) && todo[0] in all
  {
  }

  lemma SoFarEnd(
    cfg: Config, nodes: seq<string>, all: map<Key, PodInfo>, timeout: nat, total: RoundResult,
    binds: seq<Bound>, failed: seq<Key>, todo: seq<Key>, st: RoundState)
    requires SoFar(cfg, nodes, all, timeout, total, binds, failed, todo, st) && (todo == [] || |failed| > timeout)
    ensures total == RoundResult(binds, failed, todo, st)
  {
  }

  // ----- The scheduler object -----

  datatype BindEvent = BindEvent(pod: V1Pod, host: string)

  function Manifests(pods: map<Key, V1Pod>): map<Key, PodInfo> {
    map k | k in pods :: pods[k].info
  }

  /** The events are the round's bindings, carrying the queued pods. */
  ghost predicate EventsOf(events: seq<BindEvent>, binds: seq<Bound>, pods: map<Key, V1Pod>) {
    && |events| == |binds|
    && forall i :: 0 <= i < |binds| ==> binds[i].key in pods && events[i] == BindEvent(pods[binds[i].key], binds[i].host)
  }

  /** Every node has the pods it had and the ones the events bind to it, and is otherwise the same. */
  ghost predicate FilledBy(before: Infos, after: Infos, events: seq<BindEvent>) {
    && after.Keys == before.Keys
    && forall n :: n in before ==> after[n] == Plus(before[n], set e | e in events && e.host == n :: e.pod.info)
  }

  lemma EventsFill(before: Infos, after: Infos, pods: map<Key, V1Pod>, binds: seq<Bound>, events: seq<BindEvent>)
    requires Filled(before, after, Manifests(pods), binds) && EventsOf(events, binds, pods)
    ensures FilledBy(before, after, events)
  {
    forall n | n in before ensures BoundOn(Manifests(pods), binds, n) == set e | e in events && e.host == n :: e.pod.info {
      forall p ensures p in BoundOn(Manifests(pods), binds, n) <==> p in set e | e in events && e.host == n :: e.pod.info {
        if p in BoundOn(Manifests(pods), binds, n) {
          var i :| 0 <= i < |binds| && binds[i].host == n && binds[i].key in pods && pods[binds[i].key].info == p;
          assert events[i] in events;
        }
      }
    }
  }

  lemma RoundFillsBy(cfg: Config, nodes: seq<string>, pods: map<Key, V1Pod>, order: seq<Key>, st: RoundState, timeout: nat, events: seq<BindEvent>)
    requires InPlace(cfg) && Known(nodes, st.infos) && forall k :: k in order ==> k in pods
    requires EventsOf(events, Round(cfg, nodes, Manifests(pods), order, st, 0, timeout).binds, pods)
    ensures FilledBy(st.infos, Round(cfg, nodes, Manifests(pods), order, st, 0, timeout).state.infos, events)
  {
    hide Round, Filled, FilledBy, EventsOf;
    var r := Round(cfg, nodes, Manifests(pods), order, st, 0, timeout);
    RoundFills(cfg, nodes, Manifests(pods), order, st, 0, timeout);
    EventsFill(st.infos, r.state.infos, pods, r.binds, events);
  }

  lemma EventsMore(events: seq<BindEvent>, binds: seq<Bound>, pods: map<Key, V1Pod>, key: Key, host: string)
    requires EventsOf(events, binds, pods) && key in pods
    ensures EventsOf(events + [BindEvent(pods[key], host)], binds + [Bound(key, host)], pods)
  {
  }

  class GenericScheduler {
    const cfg: Config
    const failQueue: FIFOQueue
    var cache: Cache   // NodeMetricsCache

    constructor (cfg: Config, cache: Cache)
      ensures this.cfg == cfg && this.cache == cache && fresh(failQueue)
      ensures failQueue.Valid() && failQueue.queue == [] && failQueue.pods == map[]
    {
      this.cfg, this.cache := cfg, cache;
      failQueue := new FIFOQueue();
    }

    /** One turn of the main loop, on the pod in front. */
    method VisitFront(pending: FIFOQueue, ghost todo: seq<Key>, ghost all: map<Key, V1Pod>, nodes: seq<string>, infos: Infos, w: Interleaving)
      returns (event: Option<BindEvent>, infos': Infos)
      requires pending != failQueue && todo != [] && Holds(pending.queue, pending.pods, todo, all)
      requires Holds(failQueue.queue, failQueue.pods, failQueue.queue, all) && todo[0] !in failQueue.queue && todo[0] in all
      requires InPlace(cfg) && Known(nodes, infos) && Complete(w, cfg, nodes)
      modifies this, pending, failQueue
      ensures Holds(pending.queue, pending.pods, todo[1..], all)
      ensures old(pending.queue) == todo ==> pending.queue == todo[1..]
      ensures var d := DecideFor(cfg, all[todo[0]].info, nodes, RoundState(infos, old(cache)));
        && event == (if d.Host? then Some(BindEvent(all[todo[0]], d.name)) else None)
        && RoundState(infos', cache) ==
             (if d.Host? then Account(RoundState(infos, old(cache)), all[todo[0]].info, d.name) else RoundState(infos, old(cache)))
        && failQueue.queue == (if d.Host? then old(failQueue.queue) else old(failQueue.queue) + [todo[0]])
        && Holds(failQueue.queue, failQueue.pods, failQueue.queue, all)
    {
      var pod := PeekFront(pending, todo, all);
      var info := pod.info;
      var d := ScheduleOne(cfg, info, nodes, infos, cache, NoNominated(), w);
      DecidedIsKnown(cfg, info, nodes, infos, cache, NoNominated());
      if d.Host? {
        cache := Charge(cache, infos, info, d.name);
        var _ := TakeFront(pending, todo, all);
        var nodeInfo := infos[d.name];
        infos' := infos[d.name := nodeInfo.(pods := nodeInfo.pods + {info})];
        event := Some(BindEvent(pod, d.name));
      } else {
        PutLast(failQueue, pod, failQueue.queue, all);
        var _ := TakeFront(pending, todo, all);
        event, infos' := None, infos;
      }
    }

    /** The two queues and the results in the course of a round over the pods `all`. */
    ghost predicate InRound(
      pending: FIFOQueue, nodes: seq<string>, all: map<Key, V1Pod>, timeout: nat, total: RoundResult,
      events: seq<BindEvent>, binds: seq<Bound>, todo: seq<Key>, infos: Infos)
      reads this, pending, failQueue
    {
      && Holds(pending.queue, pending.pods, todo, all) && Holds(failQueue.queue, failQueue.pods, failQueue.queue, all)
      && SoFar(cfg, nodes, Manifests(all), timeout, total, binds, failQueue.queue, todo, RoundState(infos, cache))
      && EventsOf(events, binds, all)
      && Distinct(todo) && forall k :: k in failQueue.queue ==> k !in todo
    }

    /** `VisitFront` with its result recorded. */
    method Turn(
      pending: FIFOQueue, nodes: seq<string>, ghost all: map<Key, V1Pod>, ghost timeout: nat, ghost total: RoundResult,
      events: seq<BindEvent>, ghost binds: seq<Bound>, ghost todo: seq<Key>, infos: Infos, w: Interleaving)
      returns (events': seq<BindEvent>, ghost binds': seq<Bound>, infos': Infos)
      requires pending != failQueue && InRound(pending, nodes, all, timeout, total, events, binds, todo, infos)
      requires todo != [] && |failQueue.queue| <= timeout && Complete(w, cfg, nodes)
      modifies this, pending, failQueue
      ensures InRound(pending, nodes, all, timeout, total, events', binds', todo[1..], infos')
      ensures old(pending.queue) == todo ==> pending.queue == todo[1..]
    {
      hide SoFar, EventsOf, Live;
      SoFarHead(cfg, nodes, Manifests(all), timeout, total, binds, failQueue.queue, todo, RoundState(infos, cache));
      SoFarStep(cfg, nodes, Manifests(all), timeout, total, binds, failQueue.queue, todo, RoundState(infos, cache));
      assert forall k :: k in todo[1..] ==> k in todo && k != todo[0];
      ghost var d := DecideFor(cfg, all[todo[0]].info, nodes, RoundState(infos, cache));
      EventsMore(events, binds, all, todo[0], if d.Host? then d.name else "");
      var event;
      event, infos' := VisitFront(pending, todo, all, nodes, infos, w);
      events' := if event.Some? then events + [event.value] else events;
      binds' := if event.Some? then binds + [Bound(todo[0], event.value.host)] else binds;
    }

    /** The round's main loop: leaves the failed pods in the fail queue. */
    method VisitPending(pending: FIFOQueue, ghost order: seq<Key>, ghost pods: map<Key, V1Pod>, nodes: seq<string>, infos: Infos, timeout: nat, ws: nat -> Interleaving)
      returns (events: seq<BindEvent>, infos': Infos)
      requires pending != failQueue && Holds(pending.queue, pending.pods, order, pods) && forall k :: k in order ==> k in pods
      requires failQueue.queue == [] && failQueue.pods == map[]
      requires InPlace(cfg) && Known(nodes, infos) && forall i :: Complete(ws(i), cfg, nodes)
      modifies this, pending, failQueue
      ensures var r := Round(cfg, nodes, Manifests(pods), order, RoundState(infos, old(cache)), 0, timeout);
        && EventsOf(events, r.binds, pods) && RoundState(infos', cache) == r.state
        && Holds(pending.queue, pending.pods, r.rest, pods)
        && failQueue.queue == r.failed && Holds(failQueue.queue, failQueue.pods, r.failed, pods)
        && (old(pending.queue) == order ==> pending.queue == r.rest)
    {
      hide SoFar, EventsOf, Holds, Live;
      events, infos' := [], infos;
      ghost var binds: seq<Bound> := [];
      ghost var total := Round(cfg, nodes, Manifests(pods), order, RoundState(infos, cache), 0, timeout);
      ghost var todo := order;
      SoFarStart(cfg, nodes, pods, timeout, order, RoundState(infos, cache));
      HoldsKeys(pending.queue, pending.pods, order, pods);
      HoldsNone(pods);
      var n, len := 0, 0;
      while len <= timeout
        invariant InRound(pending, nodes, pods, timeout, total, events, binds, todo, infos')
        invariant len == |failQueue.queue|
        invariant old(pending.queue) == order ==> pending.queue == todo
        decreases |todo|
      {
        var empty := IsEmpty(pending, todo, pods);
        if empty {
          break;
        }
        events, binds, infos' := Turn(pending, nodes, pods, timeout, total, events, binds, todo, infos', ws(n));
        n := n + 1;
        todo := todo[1..];
        len := failQueue.Len();
      }
      SoFarEnd(cfg, nodes, Manifests(pods), timeout, total, binds, failQueue.queue, todo, RoundState(infos', cache));
    }

    /** The two queues when `done` of the failed pods have been put back and `left` have not. */
    ghost predicate Requeueing(
      pending: FIFOQueue, all: map<Key, V1Pod>, base: map<Key, V1Pod>, slots: seq<Key>,
      done: seq<Key>, left: seq<Key>)
      reads pending, failQueue
    {
      && pending.Valid() && pending.queue == slots + done && pending.pods == base + Restored(all, done)
      && failQueue.queue == left && Holds(failQueue.queue, failQueue.pods, left, all)
      && forall k :: k in left ==> k in all
    }

    /** One turn of the requeueing loop; false when there is nothing left. */
    method RequeueOne(
      pending: FIFOQueue, ghost all: map<Key, V1Pod>, ghost base: map<Key, V1Pod>, ghost slots: seq<Key>,
      ghost done: seq<Key>, ghost left: seq<Key>) returns (more: bool)
      requires pending != failQueue && Requeueing(pending, all, base, slots, done, left)
      modifies pending, failQueue
      ensures more <==> left != []
      ensures more ==> Requeueing(pending, all, base, slots, done + [left[0]], left[1..])
      ensures !more ==> Requeueing(pending, all, base, slots, done, []) && failQueue.pods == map[]
    {
      if left != [] { RestoredMore(base, all, done, left[0]); }
      HoldsKeys(failQueue.queue, failQueue.pods, left, all);
      more := MoveOne(failQueue, pending, left, all);
    }

    /** Put the failed pods back. */
    method Requeue(pending: FIFOQueue, ghost failed: seq<Key>, ghost all: map<Key, V1Pod>)
      requires pending != failQueue && pending.Valid()
      requires failQueue.queue == failed && Holds(failQueue.queue, failQueue.pods, failed, all)
      requires forall k :: k in failed ==> k in all
      modifies pending, failQueue
      ensures failQueue.queue == [] && failQueue.pods == map[]
      ensures pending.Valid() && pending.queue == old(pending.queue) + failed
      ensures pending.pods == old(pending.pods) + Restored(all, failed)
    {
      ghost var base, slots := pending.pods, pending.queue;
      ghost var done: seq<Key>, left := [], failed;
      assert base + Restored(all, []) == base;
      var more := true;
      while more
        invariant Requeueing(pending, all, base, slots, done, left) && Split(done, left, failed)
        invariant !more ==> left == [] && failQueue.pods == map[]
        decreases more, |left|
      {
        more := RequeueOne(pending, all, base, slots, done, left);
        if more {
          ShiftOne(done, left, failed);
          done, left := done + [left[0]], left[1..];
        }
      }
      assert done == failed;
    }

    /** THEOREM.  `Schedule` binds as the round does, keeps every other pending pod, and leaves the fail
        queue empty; a stale-free queue ends with the pods not visited, then the failed ones in order. */
    method Schedule(pending: FIFOQueue, ghost order: seq<Key>, ghost pods: map<Key, V1Pod>, nodes: seq<string>, infos: Infos, timeout: nat, ws: nat -> Interleaving)
      returns (events: seq<BindEvent>, infos': Infos)
      requires pending != failQueue && pending.Valid() && pods == pending.pods && order == pending.Order()
      requires failQueue.queue == [] && failQueue.pods == map[]
      requires InPlace(cfg) && Known(nodes, infos) && forall i :: Complete(ws(i), cfg, nodes)
      modifies this, pending, failQueue
      ensures pending.Valid() && failQueue.queue == [] && failQueue.pods == map[]
      ensures forall k :: k in pods <==> k in order
      ensures var r := Round(cfg, nodes, Manifests(pods), order, RoundState(infos, old(cache)), 0, timeout);
        && EventsOf(events, r.binds, pods) && RoundState(infos', cache) == r.state
        && pending.pods == pods - (set k | k in Keys(r.binds))
        && (old(pending.queue) == order ==> pending.queue == pending.Order() == r.rest + r.failed)
      ensures FilledBy(infos, infos', events)
    {
      hide FilledBy, Round, EventsOf, InPlace, Known, Complete;
      LiveMembers(pending.queue, pending.pods.Keys);
      ghost var r := Round(cfg, nodes, Manifests(pods), order, RoundState(infos, cache), 0, timeout);
      RoundPartitions(cfg, nodes, Manifests(pods), order, RoundState(infos, cache), timeout);
      events, infos' := VisitPending(pending, order, pods, nodes, infos, timeout, ws);
      RoundFillsBy(cfg, nodes, pods, order, RoundState(infos, old(cache)), timeout, events);
      KeptPods(pods, order, Keys(r.binds), r.rest, r.failed, pending.pods, pending.queue);
      assert forall k :: k in r.failed ==> k in r.rest + r.failed;
      Requeue(pending, r.failed, pods);
      if old(pending.queue) == order { LiveAll(pending.queue, pending.pods.Keys); }
    }
  }

  // ----- Queues holding given pods in a given order -----

  /** Pop from one queue and push to the other, unless the first is empty. */
  method MoveOne(from: FIFOQueue, to: FIFOQueue, ghost left: seq<Key>, ghost all: map<Key, V1Pod>) returns (more: bool)
    requires from != to && to.Valid() && from.queue == left && Holds(from.queue, from.pods, left, all)
    requires left != [] ==> left[0] in all
    modifies from, to
    ensures more <==> left != []
    ensures more ==> from.queue == left[1..] && Holds(from.queue, from.pods, left[1..], all)
    ensures more ==> to.queue == old(to.queue) + [left[0]] && to.pods == old(to.pods)[left[0] := all[left[0]]]
    ensures !more ==> from.queue == [] && from.pods == old(from.pods) && to.queue == old(to.queue) && to.pods == old(to.pods)
    ensures to.Valid()
  {
    var pod, err := from.Pop();
    more := err == NoError;
    if more {
      Append(to, pod.value, left[0]);
    }
  }

  function Restored(all: map<Key, V1Pod>, keys: seq<Key>): map<Key, V1Pod> {
    map k | k in all && k in keys :: all[k]
  }

  lemma RestoredMore(base: map<Key, V1Pod>, all: map<Key, V1Pod>, keys: seq<Key>, k: Key)
    requires k in all
    ensures base + Restored(all, keys + [k]) == (base + Restored(all, keys))[k := all[k]]
  {
  }

  ghost predicate Split(done: seq<Key>, left: seq<Key>, whole: seq<Key>) {
    done + left == whole
  }

  lemma ShiftOne(done: seq<Key>, left: seq<Key>, whole: seq<Key>)
    requires Split(done, left, whole) && left != []
    ensures Split(done + [left[0]], left[1..], whole)
  {
    assert (done + [left[0]]) + left[1..] == done + left;
  }

  /** What was not visited and what failed are together everything that was not bound. */
  lemma KeptPods(all: map<Key, V1Pod>, order: seq<Key>, bound: seq<Key>, rest: seq<Key>, failed: seq<Key>, left: map<Key, V1Pod>, slots: seq<Key>)
    requires (forall k :: k in all <==> k in order) && Holds(slots, left, rest, all)
    requires forall k :: k in rest + failed <==> k in order && k !in bound
    ensures left + Restored(all, failed) == all - (set k | k in bound)
  {
    HoldsKeys(slots, left, rest, all);
    forall k ensures k in rest || k in failed <==> k in all && k !in bound { assert k in rest + failed <==> k in rest || k in failed; }
  }

  /** `Push`, without regard to the popping order. */
  method Append(q: FIFOQueue, pod: V1Pod, ghost key: Key)
    requires q.Valid() && PodKey(pod.info) == Some(key)
    modifies q
    ensures q.Valid() && q.queue == old(q.queue) + [key] && q.pods == old(q.pods)[key := pod]
  {
    var _ := q.Push(pod);
  }

  /** The slots and pods of a queue that holds the pods of these keys of `all`, in this order. */
  ghost predicate Holds(slots: seq<Key>, pods: map<Key, V1Pod>, order: seq<Key>, all: map<Key, V1Pod>) {
    && Live(slots, pods.Keys) == order
    && (forall k :: k in pods ==> k in slots && PodKey(pods[k].info) == Some(k) && k in all && pods[k] == all[k])
  }

  lemma HoldsNone(all: map<Key, V1Pod>)
    ensures Holds([], map[], [], all)
  {
  }

  lemma HoldsKeys(slots: seq<Key>, pods: map<Key, V1Pod>, order: seq<Key>, all: map<Key, V1Pod>)
    requires Holds(slots, pods, order, all)
    ensures (forall k :: k in pods <==> k in order) && Distinct(order)
  {
    LiveMembers(slots, pods.Keys);
  }

  method IsEmpty(q: FIFOQueue, ghost order: seq<Key>, ghost all: map<Key, V1Pod>) returns (empty: bool)
    requires Holds(q.queue, q.pods, order, all)
    modifies q
    ensures empty <==> order == []
    ensures Holds(q.queue, q.pods, order, all) && (old(q.queue) == order ==> q.queue == order)
  {
    var _, err := q.Front();
    empty := err != NoError;
  }

  method PeekFront(q: FIFOQueue, ghost order: seq<Key>, ghost all: map<Key, V1Pod>) returns (pod: V1Pod)
    requires Holds(q.queue, q.pods, order, all) && order != [] && order[0] in all
    modifies q
    ensures pod == all[order[0]] && PodKey(pod.info) == Some(order[0])
    ensures Holds(q.queue, q.pods, order, all) && (old(q.queue) == order ==> q.queue == order)
  {
    var p, _ := q.Front();
    pod := p.value;
  }

  method TakeFront(q: FIFOQueue, ghost order: seq<Key>, ghost all: map<Key, V1Pod>) returns (pod: V1Pod)
    requires Holds(q.queue, q.pods, order, all) && order != [] && order[0] in all
    modifies q
    ensures pod == all[order[0]] && PodKey(pod.info) == Some(order[0])
    ensures Holds(q.queue, q.pods, order[1..], all) && (old(q.queue) == order ==> q.queue == order[1..])
  {
    var p, _ := q.Pop();
    pod := p.value;
  }

  method PutLast(q: FIFOQueue, pod: V1Pod, ghost order: seq<Key>, ghost all: map<Key, V1Pod>)
    requires Holds(q.queue, q.pods, order, all) && PodKey(pod.info).Some?
    requires var key := PodKey(pod.info).value; key in all && all[key] == pod && key !in q.queue
    modifies q
    ensures var key := PodKey(pod.info).value; Holds(q.queue, q.pods, order + [key], all) && q.queue == old(q.queue) + [key]
  {
    var _ := q.Push(pod);
  }
}
