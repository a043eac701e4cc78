// A node and its pods (pkg/node/node.go): its totals, and why garbage collection never changes them.

module Nodes {
  import opened Prelude
  import opened Pods
  import opened SimPod
  import opened PodLifecycle

  /** A pod on a node as a value: its manifest, its fields, its file and the chunk size. */
  datatype Held = Held(info: PodInfo, state: State, file: seq<Phase>, chunk: nat)

  type PodMap = map<Key, Held>

  ghost predicate Windows(m: PodMap) {
    forall k :: k in m ==> Window(m[k].state, m[k].file)
  }

  // ----- What the node's methods do to the values -----

  function QueryOne(h: Held, clock: int): Held
    requires Window(h.state, h.file)
  {
    h.(state := SimPod.Query(h.state, h.file, h.chunk, clock))
  }

  /** Every pod asked for its usage. */
  function QueryAll(m: PodMap, clock: int): (r: PodMap)
    requires Windows(m)
    ensures r.Keys == m.Keys
  {
    map k | k in m :: QueryOne(m[k], clock)
  }

  function DeleteOne(m: PodMap, key: Key, clock: int): PodMap {
    if key in m then m[key := m[key].(state := Kill(m[key].state, clock))] else m
  }

  function Collect(m: PodMap, clock: int): PodMap {
    map k | k in m && !Finished(m[k].state, clock) :: m[k]
  }

  /** The pods that run or terminate: counts and totals are taken over these. */
  function Active(m: PodMap, clock: int): PodMap {
    map k | k in m && m[k].state.UsesResources(clock) :: m[k]
  }

  // ----- Runs -----

  datatype NodeOp =
    | Ask(clock: int)
    | Remove(clock: int, key: Key)
    | Place(clock: int, key: Key, info: PodInfo, file: seq<Phase>, fromFile: bool, chunk: nat, grace: int)
    | GC(clock: int)

  function Apply(m: PodMap, op: NodeOp): (r: PodMap)
    requires Windows(m) && (op.Place? ==> op.chunk >= 1)
    ensures Windows(r)
  {
    match op
    case Ask(c) => QueriesKeepWindows(m, c); QueryAll(m, c)
    case Remove(c, k) => DeleteOne(m, k, c)
    case Place(c, k, info, file, fromFile, chunk, grace) =>
      NewWindow(file, fromFile, chunk, c, Ok, grace);
      m[k := Held(info, New(file, fromFile, chunk, c, Ok, grace), file, chunk)]
    case GC(c) => Collect(m, c)
  }

  lemma QueriesKeepWindows(m: PodMap, clock: int)
    requires Windows(m)
    ensures Windows(QueryAll(m, clock))
  {
    forall k | k in m ensures Window(QueryAll(m, clock)[k].state, m[k].file) {
      QueryWindow(m[k].state, m[k].file, m[k].chunk, clock);
    }
  }

  ghost predicate InClockOrder(now: int, ops: seq<NodeOp>) {
    && (forall i :: 0 <= i < |ops| ==> now <= ops[i].clock && (ops[i].Place? ==> ops[i].chunk >= 1))
    && forall i, j :: 0 <= i <= j < |ops| ==> ops[i].clock <= ops[j].clock
  }

  /** The node after the operations, with or without its garbage collections. */
  function Run(m: PodMap, now: int, ops: seq<NodeOp>, collecting: bool): (r: PodMap)
    requires Windows(m) && InClockOrder(now, ops)
    ensures Windows(r)
    decreases |ops|
  {
    if ops == [] then m else
      Run(if ops[0].GC? && !collecting then m else Apply(m, ops[0]), ops[0].clock, ops[1..], collecting)
  }

  /** `a` is `b` without some finished pods. */
  ghost predicate Trimmed(a: PodMap, b: PodMap, now: int) {
    && (forall k :: k in a ==> k in b && a[k] == b[k])
    && (forall k :: k in b && k !in a ==> Finished(b[k].state, now))
  }

  /** A finished pod ignores queries and deletions. */
  lemma FinishedIsInert(s: State, file: seq<Phase>, chunk: nat, now: int, clock: int)
    requires Window(s, file) && Finished(s, now) && now <= clock
    ensures Finished(s, clock) && SimPod.Query(s, file, chunk, clock) == s && Kill(s, clock) == s
    ensures !s.UsesResources(clock)
  {
  }

  lemma TrimmedLater(a: PodMap, b: PodMap, now: int, clock: int)
    requires Windows(b) && Trimmed(a, b, now) && now <= clock
    ensures Trimmed(a, b, clock)
    ensures forall k :: k in b && k !in a ==> Kill(b[k].state, clock) == b[k].state && QueryOne(b[k], clock) == b[k]
  {
    hide SimPod.Query, Kill;
    forall k | k in b && k !in a
      ensures Finished(b[k].state, clock) && Kill(b[k].state, clock) == b[k].state && QueryOne(b[k], clock) == b[k]
    {
      FinishedIsInert(b[k].state, b[k].file, b[k].chunk, now, clock);
    }
  }

  lemma TrimmedAsk(a: PodMap, b: PodMap, clock: int)
    requires Windows(a) && Windows(b) && Trimmed(a, b, clock)
    requires forall k :: k in b && k !in a ==> QueryOne(b[k], clock) == b[k]
    ensures Trimmed(QueryAll(a, clock), QueryAll(b, clock), clock)
  {
    hide QueryOne, Finished;
  }

  lemma TrimmedRemove(a: PodMap, b: PodMap, key: Key, clock: int)
    requires Trimmed(a, b, clock) && forall k :: k in b && k !in a ==> Kill(b[k].state, clock) == b[k].state
    ensures Trimmed(DeleteOne(a, key, clock), DeleteOne(b, key, clock), clock)
  {
    hide Kill, Finished;
  }

  lemma TrimmedStep(a: PodMap, b: PodMap, now: int, op: NodeOp)
    requires Windows(a) && Windows(b) && Trimmed(a, b, now) && now <= op.clock && (op.Place? ==> op.chunk >= 1)
    ensures op.GC? ==> Trimmed(Apply(a, op), b, op.clock)
    ensures !op.GC? ==> Trimmed(Apply(a, op), Apply(b, op), op.clock)
  {
    TrimmedLater(a, b, now, op.clock);
    hide Window, QueryOne, QueryAll, DeleteOne, Collect, Kill, New, Finished, Trimmed;
    match op
    case Ask(c) => TrimmedAsk(a, b, c);
    case Remove(c, k) => TrimmedRemove(a, b, k, c);
    case Place(c, k, info, file, fromFile, chunk, grace) =>
      TrimmedPlace(a, b, k, Held(info, New(file, fromFile, chunk, c, Ok, grace), file, chunk), c);
    case GC(c) => TrimmedCollect(a, b, c);
  }

  lemma TrimmedPlace(a: PodMap, b: PodMap, key: Key, h: Held, clock: int)
    requires Trimmed(a, b, clock)
    ensures Trimmed(a[key := h], b[key := h], clock)
  {
    hide Finished;
  }

  lemma TrimmedCollect(a: PodMap, b: PodMap, clock: int)
    requires Trimmed(a, b, clock)
    ensures Trimmed(Collect(a, clock), b, clock)
  {
    hide Finished;
  }

  /** THEOREM.  Collecting garbage at any times or never makes no difference to the pods that run or
      terminate at any later clock, hence to no count and no total. */
  lemma {:induction false} CollectionUnobserved(a: PodMap, b: PodMap, now: int, ops: seq<NodeOp>, clock: int)
    requires Windows(a) && Windows(b) && Trimmed(a, b, now) && InClockOrder(now, ops) && now <= clock
    requires ops != [] ==> ops[|ops| - 1].clock <= clock
    ensures Active(Run(a, now, ops, true), clock) == Active(Run(b, now, ops, false), clock)
    decreases |ops|
  {
    if ops == [] {
      forall k | k in b && k !in a ensures !b[k].state.UsesResources(clock) {
        FinishedIsInert(b[k].state, b[k].file, b[k].chunk, now, clock);
      }
    } else {
      TrimmedStep(a, b, now, ops[0]);
      CollectionUnobserved(Apply(a, ops[0]), if ops[0].GC? then b else Apply(b, ops[0]), ops[0].clock, ops[1..], clock);
    }
  }

  // ----- Totals over the active pods -----

  ghost function Sum(m: map<Key, int>): int
    decreases m.Keys
  {
    if m.Keys == {} then 0 else
      var k :| k in m;
      m[k] + Sum(m - {k})
  }

  /** The sum does not depend on the order of the map. */
  lemma {:induction false} SumRemove(m: map<Key, int>, k: Key)
    requires k in m
    ensures Sum(m) == m[k] + Sum(m - {k})
    decreases m.Keys
  {
    var j :| j in m && Sum(m) == m[j] + Sum(m - {j});
    if j != k {
      SumRemove(m - {j}, k);
      SumRemove(m - {k}, j);
      assert m - {j} - {k} == m - {k} - {j};
    }
  }

  function Weights(m: PodMap, f: Held -> int): map<Key, int> {
    map k | k in m :: f(m[k])
  }

  /** The total of `f` over the pods that run or terminate. */
  ghost function Total(m: PodMap, clock: int, f: Held -> int): int {
    Sum(Weights(Active(m, clock), f))
  }

  function Among(m: PodMap, keys: set<Key>): PodMap {
    map k | k in m && k in keys :: m[k]
  }

  lemma ActiveStep(m: PodMap, keys: set<Key>, k: Key, clock: int)
    requires k in m && k in keys
    ensures Active(Among(m, keys - {k}), clock) == Active(Among(m, keys), clock) - {k}
    ensures k in Active(Among(m, keys), clock) <==> m[k].state.UsesResources(clock)
  {
  }

  lemma WeightsStep(m: PodMap, k: Key, f: Held -> int)
    requires k in m
    ensures Sum(Weights(m, f)) == Sum(Weights(m - {k}, f)) + f(m[k])
  {
    SumRemove(Weights(m, f), k);
    assert Weights(m, f) - {k} == Weights(m - {k}, f);
  }

  /** One pod more or less. */
  lemma TotalStep(m: PodMap, keys: set<Key>, k: Key, clock: int, f: Held -> int)
    requires k in m && k in keys
    ensures Total(Among(m, keys), clock, f) == Total(Among(m, keys - {k}), clock, f) + (if m[k].state.UsesResources(clock) then f(m[k]) else 0)
  {
    ActiveStep(m, keys, k, clock);
    var all := Active(Among(m, keys), clock);
    if k in all {
      WeightsStep(all, k, f);
    } else {
      assert all - {k} == all;
    }
  }

  function Running(clock: int): Held -> int { (h: Held) => Count(h.state.IsRunning(clock)) }
  function Terminating(clock: int): Held -> int { (h: Held) => Count(h.state.IsTerminating(clock)) }
  const RequestedCpu: Held -> int := (h: Held) => h.info.cpu
  const RequestedMemory: Held -> int := (h: Held) => h.info.memory

  lemma {:induction false} SumOfCounts(m: map<Key, int>)
    requires forall k :: k in m ==> m[k] >= 0
    ensures Sum(m) >= 0
    decreases m.Keys
  {
    if m.Keys != {} {
      var k :| k in m && Sum(m) == m[k] + Sum(m - {k});
      SumOfCounts(m - {k});
    }
  }

  lemma CountsOne(m: PodMap, clock: int, k: Key, f: Held -> int)
    requires (forall j :: j in m ==> f(m[j]) >= 0) && k in Active(m, clock)
    ensures Total(m, clock, f) >= f(m[k])
  {
    var w := Weights(Active(m, clock), f);
    SumRemove(w, k);
    SumOfCounts(w - {k});
  }

  /** The number of running and terminating pods is positive exactly when there is one. */
  lemma PodsNumPositive(m: PodMap, clock: int)
    ensures Total(m, clock, Running(clock)) + Total(m, clock, Terminating(clock)) > 0 <==> Active(m, clock) != map[]
  {
    SumOfCounts(Weights(Active(m, clock), Running(clock)));
    SumOfCounts(Weights(Active(m, clock), Terminating(clock)));
    if Active(m, clock) != map[] {
      var k :| k in Active(m, clock);
      CountsOne(m, clock, k, Running(clock));
      CountsOne(m, clock, k, Terminating(clock));
    }
  }

  function Amount(list: ResourceList, name: string): int { if name in list then list[name] else 0 }

  /** How much of a resource a pod reports that it uses. */
  function Using(clock: int, name: string): Held -> int {
    (h: Held) => match Read(h.state, clock) case Usage(list) => Amount(list, name) case Panic => 0
  }

  function ResourceListSum(a: ResourceList, b: ResourceList): (r: ResourceList)
    ensures forall name :: Amount(r, name) == Amount(a, name) + Amount(b, name)
  {
    map name | name in a.Keys + b.Keys :: Amount(a, name) + Amount(b, name)
  }

  /** COROLLARY.  No count and no total, of requests or of usage, tells whether garbage was collected. */
  lemma TotalsUnobserved(a: PodMap, b: PodMap, now: int, ops: seq<NodeOp>, clock: int, f: Held -> int)
    requires Windows(a) && Windows(b) && Trimmed(a, b, now) && InClockOrder(now, ops) && now <= clock
    requires ops != [] ==> ops[|ops| - 1].clock <= clock
    ensures Total(Run(a, now, ops, true), clock, f) == Total(Run(b, now, ops, false), clock, f)
  {
    CollectionUnobserved(a, b, now, ops, clock);
  }

  // ----- The node object -----

  datatype NodeReport = NodeReport(running: int, terminating: int, failed: int, cpu: int, memory: int, usage: ResourceList)

  ghost predicate SoundAt(h: Held, now: int) {
    h.chunk >= 1 && Sound(h.state, h.file, now)
  }

  lemma QuerySound(h: Held, now: int, clock: int)
    requires SoundAt(h, now) && now <= clock
    ensures SoundAt(QueryOne(h, clock), clock) && Read(h.state, clock).Usage?
  {
    SoundStep(h.state, h.file, h.chunk, now, Query(clock));
    ReadsOwnPhase(h.state, h.file, now, clock);
  }

  /** Every pod is under its own key and sound. */
  ghost predicate AllSound(m: PodMap, now: int) {
    forall k :: k in m ==> PodKey(m[k].info) == Some(k) && SoundAt(m[k], now)
  }

  lemma QueriesKeepSound(m: PodMap, now: int, clock: int)
    requires AllSound(m, now) && now <= clock
    ensures Windows(m) && AllSound(QueryAll(m, clock), clock)
  {
    forall k | k in m ensures SoundAt(QueryOne(m[k], clock), clock) {
      QuerySound(m[k], now, clock);
    }
  }

  lemma SoundLater(h: Held, now: int, clock: int)
    requires SoundAt(h, now) && now <= clock
    ensures SoundAt(h, clock)
  {
  }

  /** Asking the pods again at this clock changes nothing. */
  ghost predicate Settled(m: PodMap, clock: int) {
    Windows(m) && QueryAll(m, clock) == m
  }

  lemma AskedTwice(h: Held, now: int, clock: int)
    requires SoundAt(h, now) && now <= clock
    ensures var r := QueryOne(h, clock); r.file == h.file && Window(r.state, r.file) && QueryOne(r, clock) == r
  {
    QueryWindow(h.state, h.file, h.chunk, clock);
    RepeatedQueriesAgree(h.state, h.file, h.chunk, clock);
  }

  lemma QueriesSettle(m: PodMap, now: int, clock: int)
    requires AllSound(m, now) && now <= clock
    ensures Windows(m) && Settled(QueryAll(m, clock), clock)
  {
    QueriesKeepSound(m, now, clock);
    hide SoundAt, QueryOne, Window, Settled;
    var q := QueryAll(m, clock);
    forall k | k in q ensures Window(q[k].state, q[k].file) && QueryOne(q[k], clock) == q[k] {
      AskedTwice(m[k], now, clock);
    }
    SettledOneByOne(q, clock);
  }

  lemma SettledOneByOne(q: PodMap, clock: int)
    requires forall k :: k in q ==> Window(q[k].state, q[k].file) && QueryOne(q[k], clock) == q[k]
    ensures Settled(q, clock)
  {
    hide QueryOne, Window;
  }

  /** A sound pod that has been asked uses resources as before, and reports the same. */
  lemma AskedUsesAlike(h: Held, clock: int)
    requires SoundAt(h, clock)
    ensures var r := QueryOne(h, clock);
      r.state.UsesResources(clock) == h.state.UsesResources(clock) && Read(r.state, clock) == Read(h.state, clock)
  {
    RepeatedQueriesAgree(h.state, h.file, h.chunk, clock);
    QueryTotal(h.state, h.file, h.chunk, clock);
  }

  /** Asking the pods leaves what they use together. */
  lemma TotalAsked(m: PodMap, clock: int, name: string)
    requires AllSound(m, clock) && Windows(m)
    ensures Total(QueryAll(m, clock), clock, Using(clock, name)) == Total(m, clock, Using(clock, name))
  {
    hide SoundAt, Window, Read, State.UsesResources;
    var q, f := QueryAll(m, clock), Using(clock, name);
    forall k | k in m
      ensures q[k].state.UsesResources(clock) == m[k].state.UsesResources(clock) && Read(q[k].state, clock) == Read(m[k].state, clock)
    {
      AskedUsesAlike(m[k], clock);
    }
    assert Weights(Active(q, clock), f) == Weights(Active(m, clock), f);
  }

  /** Collecting leaves the pods that use anything. */
  lemma ActiveCollected(m: PodMap, clock: int)
    ensures Active(Collect(m, clock), clock) == Active(m, clock)
  {
  }

  lemma CollectingKeepsSettled(m: PodMap, now: int, clock: int)
    requires Settled(m, clock)
    ensures Settled(Collect(m, now), clock)
  {
    var c := Collect(m, now);
    forall k | k in c ensures QueryOne(c[k], clock) == c[k] {
      assert QueryAll(m, clock)[k] == m[k];
    }
  }

  lemma PartlyStep(m: PodMap, keys: set<Key>, k: Key, clock: int)
    requires Windows(m) && k in m && k in keys
    ensures Partly(m, keys, clock)[k := QueryOne(m[k], clock)] == Partly(m, keys - {k}, clock)
  {
  }

  lemma PartlyEnds(m: PodMap, clock: int)
    requires Windows(m)
    ensures Partly(m, m.Keys, clock) == m && Partly(m, {}, clock) == QueryAll(m, clock)
  {
  }

  /** A resource list with one pod's usage added, if it uses any. */
  function Added(total: ResourceList, h: Held, clock: int): ResourceList {
    match Read(h.state, clock)
    case Usage(list) => if h.state.UsesResources(clock) then ResourceListSum(total, list) else total
    case Panic => total
  }

  /** What has been added up while the pods of `todo` are still to be asked. */
  ghost predicate AddedUp(total: ResourceList, m: PodMap, todo: set<Key>, clock: int) {
    forall name :: Amount(total, name) + Total(Among(m, todo), clock, Using(clock, name)) == Total(m, clock, Using(clock, name))
  }

  lemma AddOne(total: ResourceList, m: PodMap, todo: set<Key>, k: Key, clock: int)
    requires AddedUp(total, m, todo, clock) && k in m && k in todo
    ensures AddedUp(Added(total, m[k], clock), m, todo - {k}, clock)
  {
    forall name { TotalStep(m, todo, k, clock, Using(clock, name)); }
  }

  lemma AddedAll(total: ResourceList, m: PodMap, clock: int)
    requires AddedUp(total, m, {}, clock)
    ensures forall name :: Amount(total, name) == Total(m, clock, Using(clock, name))
  {
    assert Active(Among(m, {}), clock) == map[];
  }

  /** The pods of `keys` not asked yet, the others asked. */
  function Partly(m: PodMap, keys: set<Key>, clock: int): (r: PodMap)
    requires Windows(m)
  {
    map k | k in m :: if k in keys then m[k] else QueryOne(m[k], clock)
  }

  ghost function Value(p: Pod): Held
    reads p
  {
    Held(p.info, p.View(), p.file, p.chunk)
  }

  /** The pods and the sum when those of `todo` are still to be asked. */
  ghost predicate Asking(v: PodMap, total: ResourceList, m: PodMap, todo: set<Key>, clock: int) {
    Windows(m) && todo <= m.Keys && v == Partly(m, todo, clock) && AddedUp(total, m, todo, clock)
  }

  lemma AskingStarts(m: PodMap, now: int, clock: int)
    requires AllSound(m, now) && now <= clock
    ensures Asking(m, map[], m, m.Keys, clock)
  {
    QueriesKeepSound(m, now, clock);
    PartlyEnds(m, clock);
    assert Among(m, m.Keys) == m;
  }

  lemma AskingStep(v: PodMap, total: ResourceList, m: PodMap, todo: set<Key>, k: Key, now: int, clock: int)
    requires Asking(v, total, m, todo, clock) && k in todo && AllSound(m, now) && now <= clock
    ensures k in v && SoundAt(v[k], now) && Window(v[k].state, v[k].file)
    ensures Asking(v[k := QueryOne(v[k], clock)], Added(total, v[k], clock), m, todo - {k}, clock)
  {
    PartlyStep(m, todo, k, clock);
    AddOne(total, m, todo, k, clock);
  }

  lemma AskingEnds(v: PodMap, total: ResourceList, m: PodMap, clock: int)
    requires Asking(v, total, m, {}, clock)
    ensures Windows(m) && v == QueryAll(m, clock)
    ensures forall name :: Amount(total, name) == Total(m, clock, Using(clock, name))
  {
    PartlyEnds(m, clock);
    AddedAll(total, m, clock);
  }

  /** One pod's part in the total usage; it does not panic. */
  method AskPod(p: Pod, total: ResourceList, clock: int, ghost now: int) returns (total': ResourceList)
    requires SoundAt(Value(p), now) && now <= clock
    modifies p
    ensures Window(old(Value(p)).state, p.file) && Value(p) == QueryOne(old(Value(p)), clock)
    ensures total' == Added(total, old(Value(p)), clock)
  {
    QuerySound(Value(p), now, clock);
    total' := total;
    if p.View().IsRunning(clock) || p.View().IsTerminating(clock) {
      var usage := p.ResourceUsage(clock);
      total' := ResourceListSum(total, usage.list);
    }
  }

  class Node {
    const name: string
    const cpu: int      // Allocatable
    const memory: int
    const podSlots: int
    var pods: map<Key, Pod>

    ghost function View(): (m: PodMap)
      reads this, pods.Values
      ensures m.Keys == pods.Keys
    {
      map k | k in pods :: Value(pods[k])
    }

    constructor (name: string, cpu: int, memory: int, podSlots: int)
      ensures this.name == name && pods == map[]
    {
      this.name, this.cpu, this.memory, this.podSlots, pods := name, cpu, memory, podSlots, map[];
    }

    method RunningPodsNum(clock: int) returns (num: int)
      ensures num == Total(View(), clock, Running(clock))
    {
      num := 0;
      var todo := pods.Keys;
      assert Among(View(), todo) == View();
      while todo != {}
        invariant todo <= pods.Keys
        invariant num + Total(Among(View(), todo), clock, Running(clock)) == Total(View(), clock, Running(clock))
      {
        var k :| k in todo;
        TotalStep(View(), todo, k, clock, Running(clock));
        if pods[k].View().IsRunning(clock) { num := num + 1; }
        todo := todo - {k};
      }
    }

    method TerminatingPodsNum(clock: int) returns (num: int)
      ensures num == Total(View(), clock, Terminating(clock))
    {
      num := 0;
      var todo := pods.Keys;
      assert Among(View(), todo) == View();
      while todo != {}
        invariant todo <= pods.Keys
        invariant num + Total(Among(View(), todo), clock, Terminating(clock)) == Total(View(), clock, Terminating(clock))
      {
        var k :| k in todo;
        TotalStep(View(), todo, k, clock, Terminating(clock));
        if pods[k].View().IsTerminating(clock) { num := num + 1; }
        todo := todo - {k};
      }
    }

    method PodsNum(clock: int) returns (num: int)
      ensures num == Total(View(), clock, Running(clock)) + Total(View(), clock, Terminating(clock))
    {
      var r := RunningPodsNum(clock);
      var t := TerminatingPodsNum(clock);
      num := r + t;
    }

    /** No pod ever fails to start: `BindPod` overwrites its capacity verdict. */
    method BindingFailedPodsNum(ghost now: int) returns (num: int)
      requires AllSound(View(), now)
      ensures num == 0
    {
      num := 0;
      var todo := pods.Keys;
      while todo != {}
        invariant todo <= pods.Keys && num == 0
      {
        var k :| k in todo;
        assert SoundAt(View()[k], now);
        if pods[k].View().HasFailedToStart() { num := num + 1; }
        todo := todo - {k};
      }
    }

    /** The manifests that the scheduler is shown. */
    method RunningAndTerminatingPods(clock: int) returns (manifests: set<PodInfo>)
      ensures manifests == set k | k in Active(View(), clock) :: View()[k].info
    {
      manifests := {};
      var todo := pods.Keys;
      while todo != {}
        invariant todo <= pods.Keys
        invariant manifests == set k | k in Active(View(), clock) && k !in todo :: View()[k].info
      {
        var k :| k in todo;
        var p := pods[k];
        if p.View().IsRunning(clock) || p.View().IsTerminating(clock) {
          manifests := manifests + {p.info};
        }
        todo := todo - {k};
      }
    }

    method TotalResourceRequest(clock: int) returns (cpu: int, memory: int)
      ensures cpu == Total(View(), clock, RequestedCpu) && memory == Total(View(), clock, RequestedMemory)
    {
      cpu, memory := 0, 0;
      var todo := pods.Keys;
      assert Among(View(), todo) == View();
      while todo != {}
        invariant todo <= pods.Keys
        invariant cpu + Total(Among(View(), todo), clock, RequestedCpu) == Total(View(), clock, RequestedCpu)
        invariant memory + Total(Among(View(), todo), clock, RequestedMemory) == Total(View(), clock, RequestedMemory)
      {
        var k :| k in todo;
        TotalStep(View(), todo, k, clock, RequestedCpu);
        TotalStep(View(), todo, k, clock, RequestedMemory);
        var p := pods[k];
        if p.View().IsRunning(clock) || p.View().IsTerminating(clock) {
          cpu, memory := cpu + p.info.cpu, memory + p.info.memory;
        }
        todo := todo - {k};
      }
    }

    ghost predicate Keyed()
      reads this, pods.Values
    {
      forall k :: k in pods ==> PodKey(pods[k].info) == Some(k)
    }

    /** Pods under different keys are different objects. */
    twostate lemma OthersUnchanged(k: Key)
      requires old(Keyed()) && k in pods && pods == old(pods)
      requires forall p :: p in pods.Values && p != pods[k] ==> Value(p) == old(Value(p))
      ensures View() == old(View())[k := Value(pods[k])]
    {
    }

    method AskKey(k: Key, total: ResourceList, clock: int, ghost now: int) returns (total': ResourceList)
      requires k in pods && Keyed() && SoundAt(View()[k], now) && now <= clock
      modifies pods[k]
      ensures Keyed() && Window(old(View())[k].state, old(View())[k].file)
      ensures View() == old(View())[k := QueryOne(old(View())[k], clock)]
      ensures total' == Added(total, old(View())[k], clock)
    {
      total' := AskPod(pods[k], total, clock, now);
      OthersUnchanged(k);
    }

    /** Asks every running or terminating pod; none of them panics. */
    method TotalResourceUsage(clock: int, ghost now: int) returns (total: ResourceList)
      requires Keyed() && AllSound(View(), now) && now <= clock
      modifies pods.Values
      ensures pods == old(pods) && Keyed() && Windows(old(View())) && View() == QueryAll(old(View()), clock)
      ensures forall name :: Amount(total, name) == Total(old(View()), clock, Using(clock, name))
    {
      ghost var m := View();
      total := map[];
      var todo := pods.Keys;
      AskingStarts(m, now, clock);
      while todo != {}
        invariant todo <= pods.Keys && Keyed() && Asking(View(), total, m, todo, clock)
      {
        var k :| k in todo;
        AskingStep(View(), total, m, todo, k, now, clock);
        total := AskKey(k, total, clock, now);
        todo := todo - {k};
      }
      AskingEnds(View(), total, m, clock);
    }

    /** The new pod starts whatever the capacity check says; an invalid name changes nothing. */
    method BindPod(clock: int, pod: PodInfo, file: seq<Phase>, fromFile: bool, chunk: nat, grace: int)
      returns (err: QueueError, bound: Option<Pod>)
      modifies this
      ensures err == (if PodKey(pod).None? then ErrInvalidName else NoError)
      ensures err != NoError ==> bound.None? && pods == old(pods)
      ensures err == NoError ==> bound.Some? && fresh(bound.value) && pods == old(pods)[PodKey(pod).value := bound.value]
      ensures err == NoError ==> Value(bound.value) == Held(pod, New(file, fromFile, chunk, clock, Ok, grace), file, chunk)
      ensures err == NoError ==>
        && bound.value.node == name && bound.value.info == pod && bound.value.file == file && bound.value.chunk == chunk
        && bound.value.boundAt == clock && bound.value.grace == grace && bound.value.status == Ok
    {
      if PodKey(pod).None? {
        return ErrInvalidName, None;
      }
      var cpuNow, memoryNow := TotalResourceRequest(clock);
      var running := RunningPodsNum(clock);
      var status;
      if !(cpu >= cpuNow + pod.cpu && memory >= memoryNow + pod.memory) || running >= podSlots {
        status := OverCapacity;
      } else {
        status := Ok;
      }
      status := Ok;
      var p := new Pod(pod, file, fromFile, chunk, clock, status, grace, name);
      pods := pods[PodKey(pod).value := p];
      err, bound := NoError, Some(p);
    }

    method DeletePod(clock: int, namespace: string, podName: string) returns (found: bool)
      requires Keyed()
      modifies if PodKeyFromNames(namespace, podName) in pods then {pods[PodKeyFromNames(namespace, podName)]} else {}
      ensures found <==> PodKeyFromNames(namespace, podName) in pods
      ensures found ==> pods[PodKeyFromNames(namespace, podName)].View() == Kill(old(pods[PodKeyFromNames(namespace, podName)].View()), clock)
      ensures pods == old(pods) && Keyed() && View() == DeleteOne(old(View()), PodKeyFromNames(namespace, podName), clock)
    {
      var key := PodKeyFromNames(namespace, podName);
      found := key in pods;
      if found {
        pods[key].Delete(clock);
      }
    }

    method GCTerminatedPods(clock: int)
      modifies this
      ensures View() == Collect(old(View()), clock)
      ensures forall k :: k in pods ==> k in old(pods) && pods[k] == old(pods)[k]
    {
      var todo := pods.Keys;
      while todo != {}
        invariant todo <= old(pods).Keys
        invariant pods == map k | k in old(pods) && (k in todo || !Finished(old(pods)[k].View(), clock)) :: old(pods)[k]
      {
        var k :| k in todo;
        if pods[k].View().IsTerminated(clock) || pods[k].View().IsDeleted(clock) {
          pods := pods - {k};
        }
        todo := todo - {k};
      }
    }

    method Metrics(clock: int, ghost now: int) returns (r: NodeReport)
      requires Keyed() && AllSound(View(), now) && now <= clock
      modifies pods.Values
      ensures pods == old(pods) && Keyed() && Windows(old(View())) && View() == QueryAll(old(View()), clock)
      ensures IsMetrics(r, old(View()), clock) && AllSound(View(), clock)
    {
      hide SoundAt, Total, QueryAll, IsMetrics;
      QueriesKeepSound(View(), now, clock);
      var running, terminating, failed := Counts(clock, now);
      assert View() == old(View());
      r := Sums(running, terminating, failed, clock, now);
    }

    method Counts(clock: int, ghost now: int) returns (running: int, terminating: int, failed: int)
      requires AllSound(View(), now)
      ensures AreCounts(running, terminating, View(), clock) && failed == 0
    {
      hide Sound, Total;
      running := RunningPodsNum(clock);
      assert View() == old(View());
      terminating := TerminatingPodsNum(clock);
      assert View() == old(View());
      failed := BindingFailedPodsNum(now);
      assert View() == old(View());
    }

    /** The resource totals, and with the given counts the metrics. */
    method Sums(running: int, terminating: int, failed: int, clock: int, ghost now: int) returns (r: NodeReport)
      requires Keyed() && AllSound(View(), now) && now <= clock
      requires AreCounts(running, terminating, View(), clock) && failed == 0
      modifies pods.Values
      ensures pods == old(pods) && Keyed() && Windows(old(View())) && View() == QueryAll(old(View()), clock)
      ensures IsMetrics(r, old(View()), clock)
    {
      var cpu, memory := TotalResourceRequest(clock);
      assert View() == old(View());
      var usage := TotalResourceUsage(clock, now);
      r := NodeReport(running, terminating, failed, cpu, memory, usage);
    }
  }

  ghost predicate AreCounts(running: int, terminating: int, m: PodMap, clock: int) {
    running == Total(m, clock, Running(clock)) && terminating == Total(m, clock, Terminating(clock))
  }

  /** The metrics of a node with these pods; no pod has failed to start. */
  ghost predicate IsMetrics(r: NodeReport, m: PodMap, clock: int) {
    && AreCounts(r.running, r.terminating, m, clock) && r.failed == 0
    && r.cpu == Total(m, clock, RequestedCpu) && r.memory == Total(m, clock, RequestedMemory)
    && forall name :: Amount(r.usage, name) == Total(m, clock, Using(clock, name))
  }
}
