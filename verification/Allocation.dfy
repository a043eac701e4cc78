// The fair-share allocator of one node (`allocate`, and the per-node part of `BuildMetrics`, in
// pkg/metrics/metrics.go): guaranteed shares proportional to request, then the spare capacity in
// proportion to unmet demand, all in integer division.

module Allocation {
  import opened Prelude
  import opened Arithmetic

  datatype Kind = Cpu | Mem

  datatype Amounts = Amounts(cpu: int, mem: int)
  {
    function Get(k: Kind): int {
      if k == Cpu then cpu else mem
    }

    function Set(k: Kind, v: int): (r: Amounts)
      ensures forall j :: r.Get(j) == if j == k then v else Get(j)
    {
      if k == Cpu then Amounts(v, mem) else Amounts(cpu, v)
    }
  }

  datatype PodMetrics = PodMetrics(request: Amounts, usage: Amounts, allocation: Amounts)

  type Table = map<string, PodMetrics>

  /** `whichSharePolicy`. */
  function WhichSharePolicy(demand: int, request: int, capacity: int): int {
    if demand > capacity && request <= capacity then 1
    else if demand > capacity && request > capacity then 2
    else 0
  }

  /** The guaranteed share of one pod: its request's part of the capacity, at most its request and its
      usage.  The product is an int64. */
  function Guarantee(capacity: int, request: int, req: int, use: int): int {
    if request > 0 then Min(use, Min(TruncDiv(Wrap64(capacity * req), request), req)) else 0
  }

  /** The spare share of one pod whose unmet demand is `extra`.  The CPU pass multiplies int64s; the
      memory pass multiplies floating-point numbers, taken here as exact. */
  function Spare(k: Kind, c: int, d: int, extra: int): int
    requires d > 0
  {
    var product := if k == Cpu then Wrap64(c * extra) else c * extra;
    Min(TruncDiv(product, d), extra)
  }

  // ----- What the two passes make of the table -----

  function GuaranteeOf(m: PodMetrics, k: Kind, capacity: int, request: int): int {
    Guarantee(capacity, request, m.request.Get(k), m.usage.Get(k))
  }

  function Allocate(m: PodMetrics, k: Kind, v: int): PodMetrics {
    m.(allocation := m.allocation.Set(k, v))
  }

  function WithGuarantee(m: PodMetrics, k: Kind, capacity: int, request: int): PodMetrics {
    Allocate(m, k, GuaranteeOf(m, k, capacity, request))
  }

  function WithSpare(m: PodMetrics, k: Kind, c: int, d: int): PodMetrics
    requires d > 0
  {
    Allocate(m, k, Wrap64(m.allocation.Get(k) + Spare(k, c, d, Max(Wrap64(m.usage.Get(k) - m.allocation.Get(k)), 0))))
  }

  function SumGuarantees(t: Table, keys: seq<string>, k: Kind, capacity: int, request: int): int {
    SumBy(keys, key => if key in t then GuaranteeOf(t[key], k, capacity, request) else 0)
  }

  /** One pod after both passes, given the sum of all guaranteed shares of its node.  What is left of
      capacity and demand is held in int64s. */
  function Share(m: PodMetrics, k: Kind, capacity: int, demand: int, request: int, granted: int): PodMetrics {
    if WhichSharePolicy(demand, request, capacity) == 0 then m else
      var g := if demand > 0 then WithGuarantee(m, k, capacity, request) else m;
      var c := if demand > 0 then Wrap64(capacity - granted) else capacity;
      var d := if demand > 0 then Wrap64(demand - granted) else demand;
      if d > 0 && c > 0 then WithSpare(g, k, c, d) else g
  }

  function Shared(t: Table, keys: seq<string>, k: Kind, capacity: int, demand: int, request: int): (r: Table)
    requires forall key <- keys :: key in t
    ensures r.Keys == t.Keys
  {
    var granted := SumGuarantees(t, keys, k, capacity, request);
    map key | key in t :: if key in keys then Share(t[key], k, capacity, demand, request, granted) else t[key]
  }

  /** The table after the first pass, and after the second. */
  function Guaranteed(t: Table, keys: seq<string>, k: Kind, capacity: int, request: int): Table {
    map key | key in t :: if key in keys then WithGuarantee(t[key], k, capacity, request) else t[key]
  }

  function Spared(t: Table, keys: seq<string>, k: Kind, c: int, d: int): Table
    requires d > 0
  {
    map key | key in t :: if key in keys then WithSpare(t[key], k, c, d) else t[key]
  }

  predicate Satisfied(m: PodMetrics) {
    && (m.usage.cpu <= m.allocation.cpu || m.allocation.cpu >= m.request.cpu)
    && (m.usage.mem <= m.allocation.mem || m.allocation.mem >= m.request.mem)
  }

  function CountSatisfied(t: Table, keys: seq<string>): int {
    SumBy(keys, key => if key in t && Satisfied(t[key]) then 1 else 0)
  }

  /** A pod has less of a resource than it uses, and less than it requests. */
  predicate Short(m: PodMetrics, k: Kind) {
    m.allocation.Get(k) < m.usage.Get(k) && m.allocation.Get(k) < m.request.Get(k)
  }

  /** The listed pods that are short of CPU or of memory. */
  function ShortPods(t: Table, keys: seq<string>): set<string> {
    set key | key in keys && key in t && (Short(t[key], Cpu) || Short(t[key], Mem))
  }

  /** Exactly the pods short of neither resource are counted. */
  lemma {:induction false} CountIsRest(t: Table, keys: seq<string>)
    requires Distinct(keys) && forall key <- keys :: key in t
    ensures CountSatisfied(t, keys) == |keys| - |ShortPods(t, keys)|
  {
    hide Satisfied, Short, ShortPods;
    if keys != [] {
      CountIsRest(t, keys[..|keys| - 1]);
      ShortPodsStep(t, keys);
    } else {
      NoneShort(t);
    }
  }

  lemma NoneShort(t: Table)
    ensures ShortPods(t, []) == {}
  {
  }

  lemma ShortPodsStep(t: Table, keys: seq<string>)
    requires Distinct(keys) && keys != [] && forall key <- keys :: key in t
    ensures var init, last := keys[..|keys| - 1], keys[|keys| - 1];
      |ShortPods(t, keys)| == |ShortPods(t, init)| + if Satisfied(t[last]) then 0 else 1
  {
    var init, last := keys[..|keys| - 1], keys[|keys| - 1];
    assert Satisfied(t[last]) <==> !Short(t[last], Cpu) && !Short(t[last], Mem);
    hide Satisfied, Short;
    assert last !in init && forall key :: key in keys <==> key in init || key == last;
    assert ShortPods(t, keys) == ShortPods(t, init) + if Satisfied(t[last]) then {} else {last};
  }

  /** The shared `podsMetrics` map. */
  class PodsMetrics {
    var pods: Table

    constructor ()
      ensures pods == map[]
    {
      pods := map[];
    }

    /** The first pass for one resource; returns what it leaves of capacity and demand. */
    method GuaranteePass(keys: seq<string>, k: Kind, C: int, D: int, R: int) returns (c: int, d: int)
      requires Distinct(keys) && forall key <- keys :: key in pods
      requires Int64(C) && Int64(D)
      modifies this
      ensures pods == Guaranteed(old(pods), keys, k, C, R)
      ensures c == Wrap64(C - SumGuarantees(old(pods), keys, k, C, R))
      ensures d == Wrap64(D - SumGuarantees(old(pods), keys, k, C, R))
    {
      hide Wrap64, TruncDiv;
      ghost var t := pods;
      c, d := C, D;
      for i := 0 to |keys|
        invariant pods == Guaranteed(t, keys[..i], k, C, R)
        invariant c == Wrap64(C - SumGuarantees(t, keys[..i], k, C, R))
        invariant d == Wrap64(D - SumGuarantees(t, keys[..i], k, C, R))
      {
        assert keys[..i + 1] == keys[..i] + [keys[i]];
        assert keys[i] !in keys[..i];
        var curr := pods[keys[i]];
        var guarantee := 0;
        if R > 0 {
          guarantee := Min(TruncDiv(Wrap64(C * curr.request.Get(k)), R), curr.request.Get(k));
          guarantee := Min(curr.usage.Get(k), guarantee);
        }
        ghost var granted := SumGuarantees(t, keys[..i], k, C, R);
        WrapMinus(C - granted, guarantee);
        WrapMinus(D - granted, guarantee);
        assert C - granted - guarantee == C - SumGuarantees(t, keys[..i + 1], k, C, R);
        c, d := Wrap64(c - guarantee), Wrap64(d - guarantee);
        pods := pods[keys[i] := Allocate(curr, k, guarantee)];
      }
      assert keys[..|keys|] == keys;
    }

    /** The second pass for one resource. */
    method SparePass(keys: seq<string>, k: Kind, C: int, D: int)
      requires Distinct(keys) && (forall key <- keys :: key in pods) && D > 0
      modifies this
      ensures pods == Spared(old(pods), keys, k, C, D)
    {
      ghost var t := pods;
      for i := 0 to |keys|
        invariant pods == Spared(t, keys[..i], k, C, D)
      {
        assert keys[..i + 1] == keys[..i] + [keys[i]];
        assert keys[i] !in keys[..i];
        var curr := pods[keys[i]];
        var extra := Max(Wrap64(curr.usage.Get(k) - curr.allocation.Get(k)), 0);
        var more := Spare(k, C, D, extra);
        pods := pods[keys[i] := Allocate(curr, k, Wrap64(curr.allocation.Get(k) + more))];
      }
      assert keys[..|keys|] == keys;
    }

    /** Both passes for one resource. */
    method AllocateKind(keys: seq<string>, k: Kind, capacity: int, demand: int, request: int)
      requires Distinct(keys) && forall key <- keys :: key in pods
      requires Int64(capacity) && Int64(demand)
      modifies this
      ensures pods == Shared(old(pods), keys, k, capacity, demand, request)
    {
      hide GuaranteeOf, Spare, Wrap64;
      var c, d := capacity, demand;
      if WhichSharePolicy(demand, request, capacity) > 0 {
        if d > 0 {
          c, d := GuaranteePass(keys, k, c, d, request);
        }
        if d > 0 && c > 0 {
          SparePass(keys, k, c, d);
        }
      }
    }

    /** `allocate`: CPU, then memory, then the number of satisfied pods and of pods. */
    method AllocateNode(keys: seq<string>, capacity: Amounts, demand: Amounts, request: Amounts)
      returns (qos: int, num: nat)
      requires Distinct(keys) && forall key <- keys :: key in pods
      requires Int64(capacity.cpu) && Int64(capacity.mem) && Int64(demand.cpu) && Int64(demand.mem)
      modifies this
      ensures pods == SharedBoth(old(pods), keys, capacity, demand, request)
      ensures qos == CountSatisfied(pods, keys) && num == |keys|
      ensures qos == num - |ShortPods(pods, keys)|
    {
      if |keys| == 0 {
        return 0, 0;
      }
      hide Shared, Satisfied, ShortPods;
      AllocateKind(keys, Cpu, capacity.cpu, demand.cpu, request.cpu);
      AllocateKind(keys, Mem, capacity.mem, demand.mem, request.mem);
      qos := 0;
      for i := 0 to |keys|
        invariant qos == CountSatisfied(pods, keys[..i])
      {
        assert keys[..i + 1][..i] == keys[..i];
        if Satisfied(pods[keys[i]]) {
          qos := qos + 1;
        }
      }
      assert keys[..|keys|] == keys;
      num := |keys|;
      CountIsRest(pods, keys);
    }
  }

  function SharedBoth(t: Table, keys: seq<string>, capacity: Amounts, demand: Amounts, request: Amounts): Table
    requires forall key <- keys :: key in t
  {
    var u := Shared(t, keys, Cpu, capacity.cpu, demand.cpu, request.cpu);
    Shared(u, keys, Mem, capacity.mem, demand.mem, request.mem)
  }
}
