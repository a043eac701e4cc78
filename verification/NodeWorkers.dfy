// The workers of `BuildMetrics` (pkg/metrics/metrics.go:266-308), locked access by locked access.

module NodeWorkers {
  import opened Prelude
  import opened Arithmetic
  import opened Allocation
  import opened FairShare
  import opened NodeJobs
  import opened Workers

  // ----- One worker's program -----

  /** What a worker does between two switches: at most one access to what the workers share. */
  datatype Act =
    | Enter(key: string)
    | Begin(kind: Kind)
    | Fetch(key: string)
    | Grant(kind: Kind, key: string)
    | Top(kind: Kind, key: string)
    | Tally
    | AddUp(key: string)
    | AddQos
    | AddNum
    | PutTotal

  /** A worker's variables: the entry it read, what is left of capacity and demand, and its results. */
  datatype Local = Local(curr: PodMetrics, c: int, d: int, qos: int, total: Amounts)

  /** What the workers share: `podsMetrics`, `podQoses`, `numPods` and the total allocation of each node in
      `nodesMetrics`. */
  type Board = Built

  const ZERO: PodMetrics := PodMetrics(Amounts(0, 0), Amounts(0, 0), Amounts(0, 0))
  const START: Local := Local(ZERO, 0, 0, 0, Amounts(0, 0))
  const EMPTY: Board := Built(map[], 0, 0, map[])

  predicate Overloaded(j: NodeJob, k: Kind) {
    WhichSharePolicy(j.demand.Get(k), j.request.Get(k), j.capacity.Get(k)) > 0
  }

  function Entry(t: Table, key: string): PodMetrics {
    if key in t then t[key] else ZERO
  }

  function Plus(a: Amounts, b: Amounts): Amounts {
    Amounts(a.cpu + b.cpu, a.mem + b.mem)
  }

  function Do(j: NodeJob, a: Act, l: Local, b: Board): (Local, Board) {
    match a
    case Enter(key) => (l, b.(table := b.table[key := Entry(j.entries, key)]))
    case Begin(k) => (l.(c := j.capacity.Get(k), d := j.demand.Get(k)), b)
    case Fetch(key) => (l.(curr := Entry(b.table, key)), b)
    case Grant(k, key) =>
      if Overloaded(j, k) && j.demand.Get(k) > 0 then
        var g := GuaranteeOf(l.curr, k, j.capacity.Get(k), j.request.Get(k));
        (l.(c := Wrap64(l.c - g), d := Wrap64(l.d - g)), b.(table := b.table[key := Allocate(l.curr, k, g)]))
      else (l, b)
    case Top(k, key) =>
      if Overloaded(j, k) && l.d > 0 && l.c > 0 then (l, b.(table := b.table[key := WithSpare(l.curr, k, l.c, l.d)])) else (l, b)
    case Tally => (if Satisfied(l.curr) then l.(qos := l.qos + 1) else l, b)
    case AddUp(key) =>
      (l.(total := Plus(l.total, Entry(b.table, key).allocation)), b)
    case AddQos => (l, b.(qos := b.qos + l.qos))
    case AddNum => (l, b.(num := b.num + |j.keys|))
    case PutTotal => (l, b.(totals := b.totals[j.name := l.total]))
  }

  /** The loops over a node's pods, and the body of each.  A loop that the source does not enter takes its
      turns without changing anything. */
  datatype Loop = Entering | Granting(kind: Kind) | Topping(kind: Kind) | Tallying | Adding

  function Body(lp: Loop, key: string): seq<Act> {
    match lp
    case Entering => [Enter(key)]
    case Granting(k) => [Fetch(key), Grant(k, key)]
    case Topping(k) => [Fetch(key), Top(k, key)]
    case Tallying => [Fetch(key), Tally]
    case Adding => [AddUp(key)]
  }

  function Each(lp: Loop, keys: seq<string>): seq<Act> {
    if keys == [] then [] else Each(lp, keys[..|keys| - 1]) + Body(lp, keys[|keys| - 1])
  }

  function Passes(k: Kind, keys: seq<string>): seq<Act> {
    [Begin(k)] + Each(Granting(k), keys) + Each(Topping(k), keys)
  }

  const ENDING: seq<Act> := [AddQos, AddNum, PutTotal]

  function Program(j: NodeJob): seq<Act> {
    Each(Entering, j.keys) + Passes(Cpu, j.keys) + Passes(Mem, j.keys) + Each(Tallying, j.keys) + Each(Adding, j.keys) + ENDING
  }

  // ----- A worker alone -----

  function DoAll(j: NodeJob, acts: seq<Act>, l: Local, b: Board): (Local, Board) {
    if acts == [] then (l, b) else
      var (m, c) := DoAll(j, acts[..|acts| - 1], l, b);
      Do(j, acts[|acts| - 1], m, c)
  }

  lemma {:induction false} DoAllConcat(j: NodeJob, a: seq<Act>, b: seq<Act>, l: Local, v: Board)
    ensures var (m, c) := DoAll(j, a, l, v); DoAll(j, a + b, l, v) == DoAll(j, b, m, c)
  {
    hide Do;
    if b == [] {
      assert a + b == a;
    } else {
      assert (a + b)[..|a + b| - 1] == a + b[..|b| - 1];
      DoAllConcat(j, a, b[..|b| - 1], l, v);
    }
  }

  lemma {:induction false} DoTwo(j: NodeJob, x: Act, y: Act, l: Local, v: Board)
    ensures var (m, c) := Do(j, x, l, v); DoAll(j, [x, y], l, v) == Do(j, y, m, c)
    ensures DoAll(j, [x], l, v) == Do(j, x, l, v)
  {
    hide Do;
    assert [x, y][..1] == [x] && [x][..0] == [];
    assert DoAll(j, [], l, v) == (l, v);
  }

  /** One more turn of a loop. */
  lemma EachStep(j: NodeJob, lp: Loop, keys: seq<string>, l: Local, v: Board)
    requires keys != []
    ensures var key := keys[|keys| - 1]; var (m, c) := DoAll(j, Each(lp, keys[..|keys| - 1]), l, v);
      DoAll(j, Each(lp, keys), l, v) ==
        match lp
        case Entering => Do(j, Enter(key), m, c)
        case Granting(k) => (var (n, d) := Do(j, Fetch(key), m, c); Do(j, Grant(k, key), n, d))
        case Topping(k) => (var (n, d) := Do(j, Fetch(key), m, c); Do(j, Top(k, key), n, d))
        case Tallying => (var (n, d) := Do(j, Fetch(key), m, c); Do(j, Tally, n, d))
        case Adding => Do(j, AddUp(key), m, c)
  {
    hide Do;
    var key := keys[|keys| - 1];
    var (m, c) := DoAll(j, Each(lp, keys[..|keys| - 1]), l, v);
    DoAllConcat(j, Each(lp, keys[..|keys| - 1]), Body(lp, key), l, v);
    match lp
    case Entering => DoTwo(j, Enter(key), Tally, m, c);
    case Granting(k) => DoTwo(j, Fetch(key), Grant(k, key), m, c);
    case Topping(k) => DoTwo(j, Fetch(key), Top(k, key), m, c);
    case Tallying => DoTwo(j, Fetch(key), Tally, m, c);
    case Adding => DoTwo(j, AddUp(key), Tally, m, c);
  }

  /** The entries of some of a node's pods. */
  function EntriesOf(entries: Table, keys: seq<string>): Table {
    map key | key in entries && key in keys :: entries[key]
  }

  lemma EntriesStep(entries: Table, keys: seq<string>)
    requires keys != [] && forall key <- keys :: key in entries
    ensures var key := keys[|keys| - 1]; EntriesOf(entries, keys) == EntriesOf(entries, keys[..|keys| - 1])[key := entries[key]]
  {
    assert forall key :: key in keys <==> key in keys[..|keys| - 1] || key == keys[|keys| - 1];
  }

  /** The first loop enters the pods. */
  lemma {:induction false} AfterEntering(j: NodeJob, keys: seq<string>, l: Local, v: Board)
    requires v.table == map[] && forall key <- keys :: key in j.entries
    ensures DoAll(j, Each(Entering, keys), l, v) == (l, v.(table := EntriesOf(j.entries, keys)))
  {
    if keys != [] {
      AfterEntering(j, keys[..|keys| - 1], l, v);
      EachStep(j, Entering, keys, l, v);
      EntriesStep(j.entries, keys);
    } else {
      assert EntriesOf(j.entries, keys) == map[];
    }
  }

  lemma GrantOne(j: NodeJob, k: Kind, key: string, l: Local, v: Board)
    requires key in v.table
    ensures var (n, d) := Do(j, Fetch(key), l, v);
      var m, g := v.table[key], GuaranteeOf(v.table[key], k, j.capacity.Get(k), j.request.Get(k));
      Do(j, Grant(k, key), n, d) ==
        if Overloaded(j, k) && j.demand.Get(k) > 0 then
          (Local(m, Wrap64(l.c - g), Wrap64(l.d - g), l.qos, l.total), v.(table := v.table[key := Allocate(m, k, g)]))
        else (l.(curr := m), v)
  {
  }

  lemma GuaranteedStep(t: Table, keys: seq<string>, k: Kind, capacity: int, request: int)
    requires Distinct(keys) && keys != [] && forall key <- keys :: key in t
    ensures var init, key := keys[..|keys| - 1], keys[|keys| - 1];
      var u := Guaranteed(t, init, k, capacity, request);
      && key in u && u[key] == t[key]
      && Guaranteed(t, keys, k, capacity, request) == u[key := WithGuarantee(t[key], k, capacity, request)]
  {
    hide GuaranteeOf;
    var init, key := keys[..|keys| - 1], keys[|keys| - 1];
    assert key !in init && forall x :: x in keys <==> x in init || x == key;
  }

  /** The first pass: as the specification has it, if the pass takes place. */
  lemma {:induction false} AfterGranting(j: NodeJob, k: Kind, keys: seq<string>, l: Local, v: Board)
    requires Distinct(keys) && forall key <- keys :: key in v.table
    requires l.c == j.capacity.Get(k) && l.d == j.demand.Get(k) && Int64(l.c) && Int64(l.d)
    ensures var (m, b) := DoAll(j, Each(Granting(k), keys), l, v);
      var on := Overloaded(j, k) && j.demand.Get(k) > 0;
      var granted := if on then SumGuarantees(v.table, keys, k, l.c, j.request.Get(k)) else 0;
      && m == l.(curr := m.curr, c := Wrap64(l.c - granted), d := Wrap64(l.d - granted))
      && b == v.(table := if on then Guaranteed(v.table, keys, k, l.c, j.request.Get(k)) else v.table)
  {
    hide Wrap64, GuaranteeOf, Overloaded, Do, Guaranteed;
    if keys != [] {
      var init, key := keys[..|keys| - 1], keys[|keys| - 1];
      AfterGranting(j, k, init, l, v);
      EachStep(j, Granting(k), keys, l, v);
      var (m, b) := DoAll(j, Each(Granting(k), init), l, v);
      GuaranteedStep(v.table, keys, k, l.c, j.request.Get(k));
      GrantOne(j, k, key, m, b);
      var g := GuaranteeOf(v.table[key], k, l.c, j.request.Get(k));
      WrapMinus(l.c - SumGuarantees(v.table, init, k, l.c, j.request.Get(k)), g);
      WrapMinus(l.d - SumGuarantees(v.table, init, k, l.c, j.request.Get(k)), g);
    } else {
      GuaranteedKeys(v.table, keys, k, l.c, j.request.Get(k));
    }
  }

  lemma TopOne(j: NodeJob, k: Kind, key: string, l: Local, v: Board)
    requires key in v.table
    ensures var (n, d) := Do(j, Fetch(key), l, v); var m := v.table[key];
      Do(j, Top(k, key), n, d) == (l.(curr := m),
        if Overloaded(j, k) && l.d > 0 && l.c > 0 then v.(table := v.table[key := WithSpare(m, k, l.c, l.d)]) else v)
  {
    hide WithSpare, Overloaded;
  }

  lemma SparedStep(t: Table, keys: seq<string>, k: Kind, c: int, d: int)
    requires Distinct(keys) && keys != [] && d > 0 && forall key <- keys :: key in t
    ensures var init, key := keys[..|keys| - 1], keys[|keys| - 1];
      var u := Spared(t, init, k, c, d);
      key in u && u[key] == t[key] && Spared(t, keys, k, c, d) == u[key := WithSpare(t[key], k, c, d)]
  {
    hide WithSpare;
    var init, key := keys[..|keys| - 1], keys[|keys| - 1];
    assert key !in init && forall x :: x in keys <==> x in init || x == key;
  }

  /** The second pass. */
  lemma {:induction false} AfterTopping(j: NodeJob, k: Kind, keys: seq<string>, l: Local, v: Board)
    requires Distinct(keys) && forall key <- keys :: key in v.table
    ensures var (m, b) := DoAll(j, Each(Topping(k), keys), l, v);
      && m == l.(curr := m.curr)
      && b == v.(table := if Overloaded(j, k) && l.d > 0 && l.c > 0 then Spared(v.table, keys, k, l.c, l.d) else v.table)
  {
    hide WithSpare, Overloaded, Do;
    if keys != [] {
      var init, key := keys[..|keys| - 1], keys[|keys| - 1];
      AfterTopping(j, k, init, l, v);
      EachStep(j, Topping(k), keys, l, v);
      var (m, b) := DoAll(j, Each(Topping(k), init), l, v);
      if l.d > 0 { SparedStep(v.table, keys, k, l.c, l.d); }
      TopOne(j, k, key, m, b);
    } else {
      assert l.d > 0 ==> Spared(v.table, keys, k, l.c, l.d) == v.table;
    }
  }

  /** The two passes, one after the other, are what the specification says of each pod. */
  lemma PassesAreShared(t: Table, keys: seq<string>, k: Kind, capacity: int, demand: int, request: int)
    requires (forall key <- keys :: key in t) && Int64(capacity) && Int64(demand)
    ensures var on := WhichSharePolicy(demand, request, capacity) > 0;
      var granted := if on && demand > 0 then SumGuarantees(t, keys, k, capacity, request) else 0;
      var c, d := Wrap64(capacity - granted), Wrap64(demand - granted);
      var u := if on && demand > 0 then Guaranteed(t, keys, k, capacity, request) else t;
      Shared(t, keys, k, capacity, demand, request) == if on && d > 0 && c > 0 then Spared(u, keys, k, c, d) else u
  {
    hide GuaranteeOf, Spare;
  }

  lemma {:induction false} AfterPasses(j: NodeJob, k: Kind, l: Local, v: Board)
    requires Distinct(j.keys) && (forall key <- j.keys :: key in v.table) && Int64(j.capacity.Get(k)) && Int64(j.demand.Get(k))
    ensures var (m, b) := DoAll(j, Passes(k, j.keys), l, v);
      && m == l.(curr := m.curr, c := m.c, d := m.d)
      && b == v.(table := Shared(v.table, j.keys, k, j.capacity.Get(k), j.demand.Get(k), j.request.Get(k)))
  {
    hide Do, DoAll, Each, Guaranteed, Spared, Shared, SumGuarantees, WhichSharePolicy, Wrap64;
    var l0 := l.(c := j.capacity.Get(k), d := j.demand.Get(k));
    DoTwo(j, Begin(k), Tally, l, v);
    DoBegin(j, k, l, v);
    DoAllConcat(j, [Begin(k)], Each(Granting(k), j.keys), l, v);
    AfterGranting(j, k, j.keys, l0, v);
    var (m, b) := DoAll(j, Each(Granting(k), j.keys), l0, v);
    DoAllConcat(j, [Begin(k)] + Each(Granting(k), j.keys), Each(Topping(k), j.keys), l, v);
    GuaranteedKeys(v.table, j.keys, k, j.capacity.Get(k), j.request.Get(k));
    AfterTopping(j, k, j.keys, m, b);
    PassesAreShared(v.table, j.keys, k, j.capacity.Get(k), j.demand.Get(k), j.request.Get(k));
  }

  lemma DoBegin(j: NodeJob, k: Kind, l: Local, v: Board)
    ensures Do(j, Begin(k), l, v) == (l.(c := j.capacity.Get(k), d := j.demand.Get(k)), v)
  {
  }

  lemma GuaranteedKeys(t: Table, keys: seq<string>, k: Kind, capacity: int, request: int)
    ensures Guaranteed(t, keys, k, capacity, request).Keys == t.Keys
    ensures keys == [] ==> Guaranteed(t, keys, k, capacity, request) == t
  {
  }

  lemma {:induction false} AfterTallying(j: NodeJob, keys: seq<string>, l: Local, v: Board)
    requires forall key <- keys :: key in v.table
    ensures var (m, b) := DoAll(j, Each(Tallying, keys), l, v);
      m == l.(curr := m.curr, qos := l.qos + CountSatisfied(v.table, keys)) && b == v
  {
    hide Satisfied;
    if keys != [] {
      AfterTallying(j, keys[..|keys| - 1], l, v);
      EachStep(j, Tallying, keys, l, v);
    }
  }

  lemma {:induction false} AfterAdding(j: NodeJob, keys: seq<string>, l: Local, v: Board)
    requires forall key <- keys :: key in v.table
    ensures DoAll(j, Each(Adding, keys), l, v) == (l.(total := Plus(l.total, Allocated(v.table, keys))), v)
  {
    hide Do;
    if keys != [] {
      AfterAdding(j, keys[..|keys| - 1], l, v);
      EachStep(j, Adding, keys, l, v);
      DoAdd(j, keys[|keys| - 1], DoAll(j, Each(Adding, keys[..|keys| - 1]), l, v).0, v);
    }
  }

  lemma DoAdd(j: NodeJob, key: string, l: Local, v: Board)
    ensures Do(j, AddUp(key), l, v) == (l.(total := Plus(l.total, Entry(v.table, key).allocation)), v)
  {
  }

  lemma AfterEnding(j: NodeJob, l: Local, v: Board)
    ensures DoAll(j, ENDING, l, v) == (l, Built(v.table, v.qos + l.qos, v.num + |j.keys|, v.totals[j.name := l.total]))
  {
    assert ENDING == [AddQos, AddNum] + [PutTotal];
    DoAllConcat(j, [AddQos, AddNum], [PutTotal], l, v);
    DoTwo(j, AddQos, AddNum, l, v);
    var (m, b) := DoAll(j, [AddQos, AddNum], l, v);
    DoTwo(j, PutTotal, Tally, m, b);
  }

  /** What the source takes for granted of one node: the keys of its pods are those of a map, and its
      capacity and demand are int64s. */
  ghost predicate Proper(j: NodeJob) {
    && j.Valid() && Distinct(j.keys)
    && forall k: Kind :: Int64(j.capacity.Get(k)) && Int64(j.demand.Get(k))
  }

  /** The board and the worker's variables after its first `n` accesses, when it works alone. */
  function Solo(j: NodeJob, n: nat): (Local, Board)
    requires n <= |Program(j)|
  {
    DoAll(j, Program(j)[..n], START, EMPTY)
  }

  lemma AllEntries(j: NodeJob)
    requires j.Valid()
    ensures EntriesOf(j.entries, j.keys) == j.entries == map[] + j.entries
  {
  }

  /** Where the passes lead from the node's own entries. */
  lemma AfterBoth(j: NodeJob, l: Local)
    requires Proper(j)
    ensures var (m, b) := DoAll(j, Passes(Cpu, j.keys) + Passes(Mem, j.keys), l, EMPTY.(table := j.entries));
      m == l.(curr := m.curr, c := m.c, d := m.d) && b == EMPTY.(table := Own(j))
  {
    hide Do, Shared, Passes;
    var v := EMPTY.(table := j.entries);
    DoAllConcat(j, Passes(Cpu, j.keys), Passes(Mem, j.keys), l, v);
    assert Int64(j.capacity.Get(Cpu)) && Int64(j.demand.Get(Cpu)) && Int64(j.capacity.Get(Mem)) && Int64(j.demand.Get(Mem));
    AfterPasses(j, Cpu, l, v);
    var (m, b) := DoAll(j, Passes(Cpu, j.keys), l, v);
    AfterPasses(j, Mem, m, b);
    AllEntries(j);
  }

  /** THEOREM.  Alone, a worker ends with its node's pods as `NodeJob` says, and reports the number of
      satisfied pods, the number of pods and the total allocation that it should. */
  lemma SoloIs(j: NodeJob)
    requires Proper(j)
    ensures Solo(j, |Program(j)|).1 == Built(Own(j), OwnQos(j), OwnSize(j), map[j.name := Allocated(Own(j), j.keys)])
  {
    hide Do, Each, Passes, CountSatisfied, SharedBoth;
    assert Program(j)[..|Program(j)|] == Program(j);
    JobIsLocal(j, map[]);
    var e, p, t, a := Each(Entering, j.keys), Passes(Cpu, j.keys) + Passes(Mem, j.keys), Each(Tallying, j.keys), Each(Adding, j.keys);
    assert Program(j) == e + p + t + a + ENDING;
    DoAllConcat(j, e + p + t + a, ENDING, START, EMPTY);
    DoAllConcat(j, e + p + t, a, START, EMPTY);
    DoAllConcat(j, e + p, t, START, EMPTY);
    DoAllConcat(j, e, p, START, EMPTY);
    AfterEntering(j, j.keys, START, EMPTY);
    AllEntries(j);
    AfterBoth(j, START);
    var (m, b) := DoAll(j, p, START, EMPTY.(table := j.entries));
    AfterTallying(j, j.keys, m, b);
    var (n, _) := DoAll(j, t, m, b);
    AfterAdding(j, j.keys, n, b);
    var (q, _) := DoAll(j, a, n, b);
    AfterEnding(j, q, b);
  }

  // ----- A worker touches only what is its node's -----

  ghost predicate Same<K, V>(keys: set<K>, t: map<K, V>, u: map<K, V>) {
    forall k :: k in keys ==> (k in t <==> k in u) && (k in t ==> t[k] == u[k])
  }

  predicate OwnAct(j: NodeJob, a: Act) {
    match a
    case Enter(key) => key in j.entries
    case Fetch(key) => key in j.entries
    case Grant(_, key) => key in j.entries
    case Top(_, key) => key in j.entries
    case AddUp(key) => key in j.entries
    case _ => true
  }

  lemma {:induction false} EachOwn(j: NodeJob, lp: Loop, keys: seq<string>)
    requires forall key <- keys :: key in j.entries
    ensures forall a :: a in Each(lp, keys) ==> OwnAct(j, a)
  {
    if keys != [] { EachOwn(j, lp, keys[..|keys| - 1]); }
  }

  lemma ProgramOwn(j: NodeJob, n: nat)
    requires j.Valid() && n < |Program(j)|
    ensures OwnAct(j, Program(j)[n])
  {
    EachOwn(j, Entering, j.keys);
    EachOwn(j, Granting(Cpu), j.keys);
    EachOwn(j, Topping(Cpu), j.keys);
    EachOwn(j, Granting(Mem), j.keys);
    EachOwn(j, Topping(Mem), j.keys);
    EachOwn(j, Tallying, j.keys);
    EachOwn(j, Adding, j.keys);
    hide Each, OwnAct;
    assert Program(j)[n] in Program(j);
    assert OwnAct(j, Begin(Cpu)) && OwnAct(j, Begin(Mem)) by { BeginsOwn(j); }
    assert OwnAct(j, AddQos) && OwnAct(j, AddNum) && OwnAct(j, PutTotal) by { BeginsOwn(j); }
  }

  lemma BeginsOwn(j: NodeJob)
    ensures OwnAct(j, Begin(Cpu)) && OwnAct(j, Begin(Mem)) && OwnAct(j, AddQos) && OwnAct(j, AddNum) && OwnAct(j, PutTotal)
  {
  }

  /** Two boards that agree on what is the node's. */
  ghost predicate AgreeOn(j: NodeJob, b: Board, v: Board) {
    Same(j.entries.Keys, b.table, v.table) && Same({j.name}, b.totals, v.totals)
  }

  /** A board with nothing changed that is another node's. */
  ghost predicate OthersKept(j: NodeJob, b: Board, c: Board) {
    && (forall key :: key !in j.entries ==> (key in c.table <==> key in b.table) && (key in b.table ==> c.table[key] == b.table[key]))
    && (forall n :: n != j.name ==> (n in c.totals <==> n in b.totals) && (n in b.totals ==> c.totals[n] == b.totals[n]))
  }

  /** An access does the same on two boards that agree on what is the node's, and leaves the rest. */
  lemma DoLocal(j: NodeJob, a: Act, l: Local, b: Board, v: Board)
    requires OwnAct(j, a) && AgreeOn(j, b, v)
    ensures var (m, c) := Do(j, a, l, b); var (n, d) := Do(j, a, l, v);
      && m == n && AgreeOn(j, c, d) && OthersKept(j, b, c)
      && c.qos - b.qos == d.qos - v.qos && c.num - b.num == d.num - v.num
  {
    hide WithSpare, GuaranteeOf, Satisfied, Overloaded;
  }

  // ----- All workers at once -----

  datatype State = State(board: Board, locals: seq<Local>, pcs: seq<nat>)

  ghost predicate Fits(jobs: seq<NodeJob>, s: State) {
    && |s.locals| == |s.pcs| == |jobs|
    && forall i :: 0 <= i < |jobs| ==> s.pcs[i] <= |Program(jobs[i])|
  }

  function Initial(jobs: seq<NodeJob>): State {
    State(EMPTY, seq(|jobs|, i => START), seq(|jobs|, i => 0))
  }

  /** Worker `i` makes its next access, if it has any left. */
  function Step(jobs: seq<NodeJob>, s: State, i: nat): (r: State)
    requires |s.locals| == |s.pcs| == |jobs|
    ensures |r.locals| == |r.pcs| == |jobs|
  {
    if i < |jobs| && s.pcs[i] < |Program(jobs[i])| then
      var (l, b) := Do(jobs[i], Program(jobs[i])[s.pcs[i]], s.locals[i], s.board);
      State(b, s.locals[i := l], s.pcs[i := s.pcs[i] + 1])
    else s
  }

  function RunAll(jobs: seq<NodeJob>, s: State, sched: seq<nat>): (r: State)
    requires |s.locals| == |s.pcs| == |jobs|
    ensures |r.locals| == |r.pcs| == |jobs|
    decreases |sched|
  {
    if sched == [] then s else RunAll(jobs, Step(jobs, s, sched[0]), sched[1..])
  }

  /** What the workers would have reported, each alone. */
  function Reported(jobs: seq<NodeJob>, pcs: seq<nat>, f: Board -> int): int
    requires |pcs| == |jobs| && forall i :: 0 <= i < |jobs| ==> pcs[i] <= |Program(jobs[i])|
  {
    if jobs == [] then 0 else
      var n := |jobs| - 1;
      Reported(jobs[..n], pcs[..n], f) + f(Solo(jobs[n], pcs[n]).1)
  }

  const QOS: Board -> int := (b: Board) => b.qos
  const NUM: Board -> int := (b: Board) => b.num

  /** Every worker's variables, and what is its node's of the board, are as if it had worked alone; the
      counters are the sums of what each would have counted; nothing else is on the board. */
  ghost predicate Inv(jobs: seq<NodeJob>, s: State) {
    Fits(jobs, s) && AllAsAlone(jobs, s) && Counted(jobs, s) && NothingElse(jobs, s.board)
  }

  ghost predicate AllAsAlone(jobs: seq<NodeJob>, s: State)
    requires Fits(jobs, s)
  {
    forall i :: 0 <= i < |jobs| ==> AsAlone(jobs[i], s.pcs[i], s.locals[i], s.board)
  }

  ghost predicate Counted(jobs: seq<NodeJob>, s: State)
    requires Fits(jobs, s)
  {
    s.board.qos == Reported(jobs, s.pcs, QOS) && s.board.num == Reported(jobs, s.pcs, NUM)
  }

  ghost predicate NothingElse(jobs: seq<NodeJob>, b: Board) {
    && (forall key :: key in b.table ==> exists i :: 0 <= i < |jobs| && key in jobs[i].entries)
    && (forall n :: n in b.totals ==> exists i :: 0 <= i < |jobs| && jobs[i].name == n)
  }

  ghost predicate AsAlone(j: NodeJob, n: nat, l: Local, b: Board)
    requires n <= |Program(j)|
  {
    l == Solo(j, n).0 && AgreeOn(j, b, Solo(j, n).1)
  }

  lemma SoloStep(j: NodeJob, n: nat)
    requires n < |Program(j)|
    ensures var (l, b) := Solo(j, n); Solo(j, n + 1) == Do(j, Program(j)[n], l, b)
  {
    hide Do, Program;
    assert Program(j)[..n + 1][..n] == Program(j)[..n];
  }

  lemma {:induction false} ReportedStep(jobs: seq<NodeJob>, pcs: seq<nat>, i: nat, f: Board -> int)
    requires |pcs| == |jobs| && (forall k :: 0 <= k < |jobs| ==> pcs[k] <= |Program(jobs[k])|)
    requires i < |jobs| && pcs[i] < |Program(jobs[i])|
    ensures Reported(jobs, pcs[i := pcs[i] + 1], f)
         == Reported(jobs, pcs, f) + f(Solo(jobs[i], pcs[i] + 1).1) - f(Solo(jobs[i], pcs[i]).1)
    decreases |jobs|
  {
    hide Program, Solo;
    var n := |jobs| - 1;
    if i < n {
      ReportedStep(jobs[..n], pcs[..n], i, f);
      assert pcs[i := pcs[i] + 1][..n] == pcs[..n][i := pcs[i] + 1];
    } else {
      assert pcs[i := pcs[i] + 1][..n] == pcs[..n];
    }
  }

  /** The other workers are as they were. */
  lemma OtherAsAlone(j: NodeJob, k: NodeJob, n: nat, l: Local, b: Board, c: Board)
    requires n <= |Program(k)| && AsAlone(k, n, l, b) && OthersKept(j, b, c)
    requires j.entries.Keys !! k.entries.Keys && j.name != k.name
    ensures AsAlone(k, n, l, c)
  {
    hide Program, Solo;
  }

  lemma StaysClean(jobs: seq<NodeJob>, i: nat, b: Board, c: Board)
    requires i < |jobs| && NothingElse(jobs, b) && OthersKept(jobs[i], b, c)
    ensures NothingElse(jobs, c)
  {
    forall key | key in c.table ensures exists i :: 0 <= i < |jobs| && key in jobs[i].entries {
      assert key in b.table || key in jobs[i].entries;
    }
    forall n | n in c.totals ensures exists i :: 0 <= i < |jobs| && jobs[i].name == n {
      assert n in b.totals || n == jobs[i].name;
    }
  }

  /** One access of worker `i`, against the same access of the worker alone. */
  lemma {:induction false} StepOwn(jobs: seq<NodeJob>, s: State, i: nat)
    requires Fits(jobs, s) && i < |jobs| && jobs[i].Valid() && s.pcs[i] < |Program(jobs[i])|
    requires AsAlone(jobs[i], s.pcs[i], s.locals[i], s.board)
    ensures var j, n, r := jobs[i], s.pcs[i], Step(jobs, s, i);
      && r.pcs == s.pcs[i := n + 1] && r.locals == s.locals[i := r.locals[i]] && OthersKept(j, s.board, r.board)
      && AsAlone(j, n + 1, r.locals[i], r.board)
      && r.board.qos - s.board.qos == Solo(j, n + 1).1.qos - Solo(j, n).1.qos
      && r.board.num - s.board.num == Solo(j, n + 1).1.num - Solo(j, n).1.num
  {
    hide Do, Program, Solo, AgreeOn, OwnAct, OthersKept;
    var j, n := jobs[i], s.pcs[i];
    ProgramOwn(j, n);
    DoLocal(j, Program(j)[n], s.locals[i], s.board, Solo(j, n).1);
    SoloStep(j, n);
  }

  /** One access of one worker keeps the invariant. */
  lemma StepInv(jobs: seq<NodeJob>, s: State, i: nat)
    requires Apart(jobs) && Inv(jobs, s)
    ensures Inv(jobs, Step(jobs, s, i))
  {
    hide Do, Program, Solo, AsAlone, OthersKept, NothingElse, Reported;
    if i < |jobs| && s.pcs[i] < |Program(jobs[i])| {
      StepOwn(jobs, s, i);
      hide Step;
      var r := Step(jobs, s, i);
      StaysClean(jobs, i, s.board, r.board);
      ReportedStep(jobs, s.pcs, i, QOS);
      ReportedStep(jobs, s.pcs, i, NUM);
      forall k | 0 <= k < |jobs| && k != i ensures AsAlone(jobs[k], r.pcs[k], r.locals[k], r.board) {
        assert i < k || k < i;
        OtherAsAlone(jobs[i], jobs[k], s.pcs[k], s.locals[k], s.board, r.board);
      }
    }
  }

  lemma {:induction false} ReportedStart(jobs: seq<NodeJob>, pcs: seq<nat>, f: Board -> int)
    requires |pcs| == |jobs| && (forall k :: 0 <= k < |jobs| ==> pcs[k] == 0) && f(EMPTY) == 0
    ensures Reported(jobs, pcs, f) == 0
    decreases |jobs|
  {
    hide Program;
    if jobs != [] {
      var n := |jobs| - 1;
      ReportedStart(jobs[..n], pcs[..n], f);
      SoloStart(jobs[n]);
    }
  }

  lemma SoloStart(j: NodeJob)
    ensures Solo(j, 0) == (START, EMPTY)
  {
  }

  lemma InitialInv(jobs: seq<NodeJob>)
    ensures Inv(jobs, Initial(jobs))
  {
    hide Program, Solo;
    var s := Initial(jobs);
    ReportedStart(jobs, s.pcs, QOS);
    ReportedStart(jobs, s.pcs, NUM);
    forall i | 0 <= i < |jobs| ensures AsAlone(jobs[i], s.pcs[i], s.locals[i], s.board) {
      SoloStart(jobs[i]);
    }
  }

  lemma {:induction false} RunInv(jobs: seq<NodeJob>, s: State, sched: seq<nat>)
    requires Apart(jobs) && |s.locals| == |s.pcs| == |jobs| && Inv(jobs, s)
    ensures Inv(jobs, RunAll(jobs, s, sched))
    decreases |sched|
  {
    hide Inv, Step;
    if sched != [] {
      StepInv(jobs, s, sched[0]);
      RunInv(jobs, Step(jobs, s, sched[0]), sched[1..]);
    }
  }

  /** A worker that is given as many turns as it has accesses is done. */
  lemma {:induction false} TurnsFinish(jobs: seq<NodeJob>, s: State, sched: seq<nat>, i: nat)
    requires Fits(jobs, s) && i < |jobs|
    ensures Fits(jobs, RunAll(jobs, s, sched))
    ensures s.pcs[i] + Turns(sched, i) >= |Program(jobs[i])| ==> RunAll(jobs, s, sched).pcs[i] == |Program(jobs[i])|
    decreases |sched|
  {
    hide Program, Do;
    if sched != [] { TurnsFinish(jobs, Step(jobs, s, sched[0]), sched[1..], i); }
  }

  // ----- The end -----

  ghost predicate AllDone(jobs: seq<NodeJob>, s: State) {
    Fits(jobs, s) && forall i :: 0 <= i < |jobs| ==> s.pcs[i] == |Program(jobs[i])|
  }

  lemma {:induction false} ReportedEnd(jobs: seq<NodeJob>, pcs: seq<nat>)
    requires |pcs| == |jobs| && forall i :: 0 <= i < |jobs| ==> pcs[i] == |Program(jobs[i])| && Proper(jobs[i])
    ensures Reported(jobs, pcs, QOS) == SumBy(jobs, OwnQos) && Reported(jobs, pcs, NUM) == SumBy(jobs, OwnSize)
    decreases |jobs|
  {
    hide Program, Solo, OwnQos;
    if jobs != [] {
      var n := |jobs| - 1;
      ReportedEnd(jobs[..n], pcs[..n]);
      SoloIs(jobs[n]);
    }
  }

  /** The board in the end, as far as it is about node `j`. */
  ghost predicate Finished(j: NodeJob, b: Board)
    requires j.Valid()
  {
    && Own(j).Keys == j.entries.Keys && (forall key :: key in j.entries ==> key in b.table && b.table[key] == Own(j)[key])
    && j.name in b.totals && b.totals[j.name] == Allocated(Own(j), j.keys)
  }

  ghost predicate EachFinished(jobs: seq<NodeJob>, b: Board) {
    NothingElse(jobs, b) && forall j :: j in jobs ==> j.Valid() && Finished(j, b)
  }

  /** A worker that is done has finished its node. */
  lemma DoneIs(j: NodeJob, l: Local, b: Board)
    requires Proper(j)
    ensures AsAlone(j, |Program(j)|, l, b) ==> Finished(j, b)
  {
    hide Program, Solo, SharedBoth, Allocated;
    SoloIs(j);
    JobIsLocal(j, map[]);
  }

  lemma AllFinished(jobs: seq<NodeJob>, s: State)
    requires forall j :: j in jobs ==> Proper(j)
    ensures Inv(jobs, s) && AllDone(jobs, s) ==> EachFinished(jobs, s.board)
  {
    hide Program, Solo, Own, Allocated, Reported, AsAlone, NothingElse, Finished;
    if Inv(jobs, s) && AllDone(jobs, s) {
      forall j | j in jobs ensures j.Valid() && Finished(j, s.board) {
        var i :| 0 <= i < |jobs| && jobs[i] == j;
        DoneIs(j, s.locals[i], s.board);
      }
    }
  }

  lemma FinishedPod(j: NodeJob, b: Board, key: string)
    requires j.Valid() && Finished(j, b) && key in j.entries
    ensures key in b.table && key in Own(j) && b.table[key] == Own(j)[key]
  {
    hide Own, Allocated;
    assert key in j.entries.Keys;
  }

  lemma FinishedEntered(jobs: seq<NodeJob>, b: Board)
    requires EachFinished(jobs, b)
    ensures (forall j :: j in jobs ==> j.Valid()) && Entered(jobs, map[], b.table)
  {
    hide Own, Finished;
    forall key | key in b.table ensures exists j :: j in jobs && key in j.entries {
      var i :| 0 <= i < |jobs| && key in jobs[i].entries;
      assert jobs[i] in jobs;
    }
    forall j, key | j in jobs && key in j.entries ensures key in b.table && key in Own(j) && b.table[key] == Own(j)[key] {
      FinishedPod(j, b, key);
    }
  }

  lemma FinishedTotalled(jobs: seq<NodeJob>, b: Board)
    requires EachFinished(jobs, b)
    ensures (forall j :: j in jobs ==> j.Valid()) && Totalled(jobs, b.totals)
  {
    hide Own, Allocated;
    forall n | n in b.totals ensures exists j :: j in jobs && j.name == n {
      var i :| 0 <= i < |jobs| && jobs[i].name == n;
      assert jobs[i] in jobs;
    }
  }

  lemma DoneCounted(jobs: seq<NodeJob>, s: State)
    requires forall j :: j in jobs ==> Proper(j)
    ensures Inv(jobs, s) && AllDone(jobs, s) ==> s.board.qos == SumBy(jobs, OwnQos) && s.board.num == SumBy(jobs, OwnSize)
  {
    hide Program, Proper, AsAlone, OwnQos, OwnSize, Reported;
    if Inv(jobs, s) && AllDone(jobs, s) {
      assert forall i :: 0 <= i < |jobs| ==> jobs[i] in jobs;
      ReportedEnd(jobs, s.pcs);
    }
  }

  /** THEOREM.  However the single accesses of the workers of any number of nodes interleave, once all of
      them are done the shared maps and counters are what the nodes make one after the other. */
  lemma {:induction false} WorkersBuild(jobs: seq<NodeJob>, sched: seq<nat>)
    requires Apart(jobs) && forall j :: j in jobs ==> Proper(j)
    requires forall i: nat :: i < |jobs| ==> Turns(sched, i) >= |Program(jobs[i])|
    ensures RunAll(jobs, Initial(jobs), sched).board == Build(jobs, map[])
  {
    hide Program, Inv, Proper, Entered, Totalled, RunAll, EachFinished;
    var s := RunAll(jobs, Initial(jobs), sched);
    InitialInv(jobs);
    RunInv(jobs, Initial(jobs), sched);
    forall i: nat | i < |jobs| ensures s.pcs[i] == |Program(jobs[i])| { TurnsFinish(jobs, Initial(jobs), sched, i); }
    AllFinished(jobs, s);
    FinishedEntered(jobs, s.board);
    FinishedTotalled(jobs, s.board);
    DoneCounted(jobs, s);
    BuildIs(jobs, map[]);
    EnteredOnce(jobs, jobs, map[], s.board.table, Build(jobs, map[]).table);
    TotalledOnce(jobs, jobs, s.board.totals, Build(jobs, map[]).totals);
  }

  /** THEOREM.  Nor does it matter in which order the nodes are handed to the workers. */
  lemma {:induction false} WorkersAgree(a: seq<NodeJob>, b: seq<NodeJob>, sched: seq<nat>, other: seq<nat>)
    requires Apart(a) && Apart(b) && multiset(a) == multiset(b) && forall j :: j in a ==> Proper(j)
    requires forall i: nat :: i < |a| ==> Turns(sched, i) >= |Program(a[i])|
    requires forall i: nat :: i < |b| ==> Turns(other, i) >= |Program(b[i])|
    ensures RunAll(a, Initial(a), sched).board == RunAll(b, Initial(b), other).board
  {
    hide Program, Proper, RunAll, Build;
    SameJobs(a, b);
    WorkersBuild(a, sched);
    WorkersBuild(b, other);
    BuildDeterministic(a, b, map[]);
  }
}
