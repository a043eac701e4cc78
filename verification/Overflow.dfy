// Where the memory products overflow (pkg/metrics/metrics.go:150-198): exactly when a pod keeps its share,
// and its satisfaction, whatever the other pods of its node do, and a node whose memory is not conserved.

module Overflow {
  import opened Prelude
  import opened Arithmetic
  import opened Allocation
  import opened FairShare

  /** In every overloaded node with this capacity and total request that lists a pod with metrics `m`, the
      pod ends with at least `least` of memory. */
  ghost predicate AlwaysGets(m: PodMetrics, capacity: int, request: int, least: int) {
    forall t: Table, keys: seq<string>, active: set<string>, demand: int, key: string ::
      NodeTotals(t, keys, active, Mem, capacity, demand, request) && demand > capacity && Distinct(keys) && key in keys && t[key] == m ==>
        least <= Shared(t, keys, Mem, capacity, demand, request)[key].allocation.mem
  }

  /** The same, for counting as satisfied in memory. */
  ghost predicate AlwaysSatisfied(m: PodMetrics, capacity: int, request: int) {
    forall t: Table, keys: seq<string>, active: set<string>, demand: int, key: string ::
      NodeTotals(t, keys, active, Mem, capacity, demand, request) && demand > capacity && Distinct(keys) && key in keys && t[key] == m ==>
        var a := Shared(t, keys, Mem, capacity, demand, request)[key].allocation.mem; m.usage.mem <= a || a >= m.request.mem
  }

  /** The metrics of a pod that can be on a node with this total request. */
  predicate Listed(m: PodMetrics, request: int) {
    && 0 <= m.request.mem <= request < TWO63
    && 0 <= m.usage.mem < TWO63 && m.allocation.mem == m.usage.mem
  }

  // ----- A node that leaves a pod just its guarantee -----

  function Uses(req: int, use: int): PodMetrics {
    PodMetrics(Amounts(0, req), Amounts(0, use), Amounts(0, use))
  }

  /** Beside a pod, one that requests the rest of the total and uses nothing, one that requests nothing and
      brings the demand to 2^63 - 1, and two that were deleted, each of which requests `r`. */
  function Starved(m: PodMetrics, request: int, r: int): Table {
    map["a" := m, "b" := Uses(request - m.request.mem, 0), "c" := Uses(0, TWO63 - 1 - m.usage.mem),
        "d" := Uses(r, 0), "e" := Uses(r, 0)]
  }

  const FIVE: seq<string> := ["a", "b", "c", "d", "e"]
  const THREE: set<string> := {"a", "b", "c"}

  /** What is granted on that node. */
  function StarvedGrants(m: PodMetrics, capacity: int, request: int, r: int): int {
    GuaranteeOf(m, Mem, capacity, request) + Guarantee(capacity, request, request - m.request.mem, 0)
      + 2 * Guarantee(capacity, request, r, 0)
  }

  lemma SumFive(s: seq<string>, f: string -> int)
    requires |s| == 5
    ensures SumBy(s, f) == f(s[0]) + f(s[1]) + f(s[2]) + f(s[3]) + f(s[4])
  {
    assert s == [s[0], s[1]] + ([s[2], s[3]] + [s[4]]);
    SumByConcat([s[0], s[1]], [s[2], s[3]] + [s[4]], f);
    SumByConcat([s[2], s[3]], [s[4]], f);
    SumPair(s[0], s[1], f);
    SumPair(s[2], s[3], f);
    assert SumBy([s[4]], f) == SumBy([], f) + f(s[4]);
  }

  lemma StarvedTotals(m: PodMetrics, capacity: int, request: int, r: int)
    requires Listed(m, request) && 0 <= capacity < TWO63 && 0 <= r < TWO63
    ensures NodeTotals(Starved(m, request, r), FIVE, THREE, Mem, capacity, TWO63 - 1, request)
    ensures SumGuarantees(Starved(m, request, r), FIVE, Mem, capacity, request) == StarvedGrants(m, capacity, request, r)
  {
    hide Guarantee, SumBy;
    StarvedSums(m, request, r);
    StarvedGranted(m, capacity, request, r);
  }

  lemma StarvedSums(m: PodMetrics, request: int, r: int)
    ensures var t := Starved(m, request, r);
      SumUsage(t, FIVE, Mem) == TWO63 - 1 && SumRequests(t, FIVE, THREE, Mem) == request
  {
    var t := Starved(m, request, r);
    SumFive(FIVE, key => if key in t then t[key].usage.Get(Mem) else 0);
    SumFive(FIVE, key => if key in t && key in THREE then t[key].request.Get(Mem) else 0);
  }

  lemma StarvedGranted(m: PodMetrics, capacity: int, request: int, r: int)
    requires m.usage.mem < TWO63
    ensures SumGuarantees(Starved(m, request, r), FIVE, Mem, capacity, request) == StarvedGrants(m, capacity, request, r)
  {
    var t := Starved(m, request, r);
    NoRequestNoShare(capacity, request, TWO63 - 1 - m.usage.mem);
    hide Guarantee;
    SumFive(FIVE, key => if key in t then GuaranteeOf(t[key], Mem, capacity, request) else 0);
  }

  lemma NoRequestNoShare(capacity: int, request: int, use: int)
    requires use >= 0
    ensures Guarantee(capacity, request, 0, use) == 0
  {
    assert capacity * 0 == 0;
  }

  /** If less than nothing is granted there, the running demand wraps around, the second pass is skipped and
      the pod ends with its guarantee. */
  lemma StarvedLeavesGuarantee(m: PodMetrics, capacity: int, request: int, r: int)
    requires Listed(m, request) && 0 <= capacity < TWO63 - 1 && 0 <= r < TWO63
    ensures var t := Starved(m, request, r); var demand := TWO63 - 1;
      && demand > capacity && NodeTotals(t, FIVE, THREE, Mem, capacity, demand, request) && Distinct(FIVE) && "a" in FIVE && t["a"] == m
      && (-TWO63 <= StarvedGrants(m, capacity, request, r) < 0 ==>
            Shared(t, FIVE, Mem, capacity, demand, request)["a"].allocation.mem == GuaranteeOf(m, Mem, capacity, request))
  {
    hide Guarantee, SumGuarantees, Share;
    StarvedTotals(m, capacity, request, r);
    assert FIVE[0] == "a";
    if -TWO63 <= StarvedGrants(m, capacity, request, r) < 0 {
      SharedSkipped(m, Mem, capacity, TWO63 - 1, request, StarvedGrants(m, capacity, request, r));
    }
  }

  /** A product that wraps around needs a total request of two at least. */
  lemma WrappedRequest(req: int, capacity: int, request: int)
    requires 0 <= req <= request < TWO63 && 0 <= capacity < TWO63 && capacity * req >= TWO63
    ensures request >= 2 && capacity >= 2
  {
    if request <= 1 { MulMonotone(req, 1, capacity); }
    if capacity <= 1 { MulMonotone(capacity, 1, req); }
  }

  /** What the pod and the one that requests the rest are granted, scaled by the total request. */
  lemma FirstTwo(m: PodMetrics, capacity: int, request: int)
    requires Listed(m, request) && 0 <= capacity < TWO63 && request > 0
    ensures var g := GuaranteeOf(m, Mem, capacity, request); var b := Guarantee(capacity, request, request - m.request.mem, 0);
      b <= 0 && -TWO64 <= request * (g + b) < TWO63
  {
    var g, b := GuaranteeOf(m, Mem, capacity, request), Guarantee(capacity, request, request - m.request.mem, 0);
    GuaranteeAbove(capacity, request, m.request.mem, m.usage.mem);
    GuaranteeAbove(capacity, request, request - m.request.mem, 0);
    Distribute(request, g, b);
    MulMonotone(b, 0, request);
    MulMonotone(g, TruncDiv(Wrap64(capacity * m.request.mem), request), request);
    TruncBelow(Wrap64(capacity * m.request.mem), TWO63 - 1, request);
  }

  /** Scaling down by two or more. */
  lemma HalfAtLeast(x: int, request: int)
    requires request >= 2 && request * x >= -TWO64
    ensures x >= -TWO63
  {
    if x < -TWO63 { MulMonotone(2, request, -x); }
  }

  lemma StarvedByTwo(m: PodMetrics, capacity: int, request: int)
    requires Listed(m, request) && 0 <= capacity < TWO63 && request >= 2
    ensures StarvedGrants(m, capacity, request, 0) >= -TWO63
  {
    NoRequestNoShare(capacity, request, 0);
    FirstTwo(m, capacity, request);
    HalfAtLeast(StarvedGrants(m, capacity, request, 0), request);
  }

  /** The least request whose product with the capacity wraps around. */
  function Deep(capacity: int): int
    requires capacity > 0
  {
    (TWO63 + capacity - 1) / capacity
  }

  lemma DeepGuarantee(capacity: int, request: int)
    requires 2 <= capacity <= TWO63 / 8 && 2 <= request <= TWO63 / 8
    ensures 0 <= Deep(capacity) < TWO63
    ensures var h := Guarantee(capacity, request, Deep(capacity), 0); -TWO63 <= request * h < capacity + request - TWO63
  {
    hide Wrap64, Deep, Guarantee;
    DeepWraps(capacity);
    GuaranteeAbove(capacity, request, Deep(capacity), 0);
    NegativeShare(capacity, request, Deep(capacity));
  }

  lemma DeepWraps(capacity: int)
    requires 2 <= capacity <= TWO63 / 8
    ensures 0 <= Deep(capacity) < TWO63 && Wrap64(capacity * Deep(capacity)) < capacity - TWO63
  {
    hide Wrap64;
    var r := Deep(capacity);
    DivBounds(TWO63 + capacity - 1, capacity);
    DivNonneg(TWO63 + capacity - 1, capacity);
    if r >= TWO63 { MulMonotone(TWO63, r, capacity); }
  }

  lemma NegativeShare(capacity: int, request: int, req: int)
    requires request > 0 && req >= 0 && Wrap64(capacity * req) < 0
    ensures request * Guarantee(capacity, request, req, 0) < Wrap64(capacity * req) + request
  {
    var w := Wrap64(capacity * req);
    hide Wrap64;
    DivBounds(-w, request);
    DivNonneg(-w, request);
  }

  /** Whatever the first two are granted, two deleted pods take the sum below zero. */
  lemma StarvedByFour(m: PodMetrics, capacity: int, request: int)
    requires Listed(m, request) && 2 <= capacity <= TWO63 / 8 && 2 <= request <= TWO63 / 8
    ensures 0 <= Deep(capacity) < TWO63
    ensures StarvedGrants(m, capacity, request, 0) >= 0 ==> -TWO63 <= StarvedGrants(m, capacity, request, Deep(capacity)) < 0
  {
    NoRequestNoShare(capacity, request, 0);
    FirstTwo(m, capacity, request);
    DeepGuarantee(capacity, request);
    var first, h := StarvedGrants(m, capacity, request, 0), Guarantee(capacity, request, Deep(capacity), 0);
    if first >= 0 { BelowZero(first, h, capacity, request); }
  }

  lemma BelowZero(first: int, h: int, capacity: int, request: int)
    requires 0 <= capacity <= TWO63 / 8 && 2 <= request <= TWO63 / 8 && first >= 0
    requires request * first < TWO63 && -TWO63 <= request * h < capacity + request - TWO63
    ensures -TWO63 <= first + 2 * h < 0
  {
    Distribute(request, first, 2 * h);
    assert request * (2 * h) == 2 * (request * h);
    if first + 2 * h >= 0 { MulNonneg(request, first + 2 * h); }
    HalfAtLeast(2 * h, request);
  }

  /** For any pod there is such a node. */
  lemma CanBeLeftGuarantee(m: PodMetrics, capacity: int, request: int) returns (r: int)
    requires Listed(m, request) && 2 <= capacity <= TWO63 / 8 && 2 <= request <= TWO63 / 8
    ensures 0 <= r < TWO63 && -TWO63 <= StarvedGrants(m, capacity, request, r) < 0
  {
    if StarvedGrants(m, capacity, request, 0) < 0 {
      StarvedByTwo(m, capacity, request);
      r := 0;
    } else {
      StarvedByFour(m, capacity, request);
      r := Deep(capacity);
    }
  }

  // ----- The exact conditions -----

  /** THEOREM (isolation, for memory).  On nodes of up to 2^60 bytes, a pod gets at least its exact
      guaranteed share, whatever the other pods of the node request and use, if and only if its wrapped
      product is large enough for it.  (`FairShare.EachPod` has the one half for all sizes.) */
  lemma AlwaysGetsShareIff(m: PodMetrics, capacity: int, request: int)
    requires Listed(m, request) && 0 <= capacity <= TWO63 / 8 && 0 < request <= TWO63 / 8
    ensures AlwaysGets(m, capacity, request, PodFloor(m, Mem, capacity, request)) <==> PodReaches(m, Mem, capacity, request)
  {
    hide Shared, Share;
    if PodReaches(m, Mem, capacity, request) {
      forall t: Table, keys: seq<string>, active: set<string>, demand: int, key: string |
        NodeTotals(t, keys, active, Mem, capacity, demand, request) && demand > capacity && Distinct(keys) && key in keys && t[key] == m
        ensures PodFloor(m, Mem, capacity, request) <= Shared(t, keys, Mem, capacity, demand, request)[key].allocation.mem
      {
        EachPod(t, keys, active, Mem, capacity, demand, request, key);
      }
    } else {
      if capacity * m.request.mem < TWO63 { FittingReaches(capacity, request, m.request.mem, m.usage.mem); }
      WrappedRequest(m.request.mem, capacity, request);
      var r := CanBeLeftGuarantee(m, capacity, request);
      StarvedLeavesGuarantee(m, capacity, request, r);
      GuaranteeBelow(capacity, request, m.request.mem, m.usage.mem);
      GuaranteeExactIff(capacity, request, m.request.mem, m.usage.mem);
    }
  }

  /** A nonnegative allocation is kept, whatever the other pods do, if and only if the wrapped product is
      above minus the total request. */
  lemma AlwaysNonnegativeIff(m: PodMetrics, capacity: int, request: int)
    requires Listed(m, request) && 0 <= capacity < TWO63 - 1 && request > 0
    ensures AlwaysGets(m, capacity, request, 0) <==> Wrap64(capacity * m.request.mem) > -request
  {
    hide Share, SumGuarantees, Guarantee;
    GuaranteeNonnegativeIff(capacity, request, m.request.mem, m.usage.mem);
    if Wrap64(capacity * m.request.mem) > -request {
      forall t: Table, keys: seq<string>, active: set<string>, demand: int, key: string |
        NodeTotals(t, keys, active, Mem, capacity, demand, request) && demand > capacity && Distinct(keys) && key in keys && t[key] == m
        ensures 0 <= Shared(t, keys, Mem, capacity, demand, request)[key].allocation.mem
      {
        GrantedWithinCapacity(t, keys, active, Mem, capacity, demand, request);
        SharedBetween(m, Mem, capacity, demand, request, SumGuarantees(t, keys, Mem, capacity, request));
        assert Shared(t, keys, Mem, capacity, demand, request)[key] == Share(m, Mem, capacity, demand, request, SumGuarantees(t, keys, Mem, capacity, request));
      }
    } else {
      MulNonneg(capacity, m.request.mem);
      WrappedRequest(m.request.mem, capacity, request);
      FirstTwo(m, capacity, request);
      NoRequestNoShare(capacity, request, 0);
      StarvedByTwo(m, capacity, request);
      StarvedLeavesGuarantee(m, capacity, request, 0);
    }
  }

  /** THEOREM (QoS, for memory).  When the total request fits the capacity, on nodes of up to 2^60 bytes, a
      pod is satisfied in memory, whatever the other pods do, if and only if its wrapped product is large
      enough for its share. */
  lemma AlwaysSatisfiedIff(m: PodMetrics, capacity: int, request: int)
    requires Listed(m, request) && 0 < request <= capacity <= TWO63 / 8
    ensures AlwaysSatisfied(m, capacity, request) <==> PodReaches(m, Mem, capacity, request)
  {
    FloorWhenFitting(capacity, request, m.request.mem, m.usage.mem);
    AlwaysGetsShareIff(m, capacity, request);
    SatisfiedIsGetting(m, capacity, request);
  }

  lemma SatisfiedIsGetting(m: PodMetrics, capacity: int, request: int)
    ensures AlwaysSatisfied(m, capacity, request) <==> AlwaysGets(m, capacity, request, Min(m.usage.mem, m.request.mem))
  {
    hide Shared;
  }

  /** 320 GiB, of which 64 GiB are requested.  A pod that requests 64 MiB less one byte and uses 1 TiB falls
      four bytes short of it on some node, and is not satisfied there. */
  lemma JustShort()
    ensures var m := Uses(0x3ff_ffff, 0x100_0000_0000); var capacity := 0x50_0000_0000; var request := 0x10_0000_0000;
      && PodFloor(m, Mem, capacity, request) == m.request.mem
      && GuaranteeOf(m, Mem, capacity, request) == m.request.mem - 4
      && !AlwaysGets(m, capacity, request, m.request.mem) && !AlwaysSatisfied(m, capacity, request)
  {
    hide AlwaysGets, AlwaysSatisfied;
    var m, capacity, request := Uses(0x3ff_ffff, 0x100_0000_0000), 0x50_0000_0000, 0x10_0000_0000;
    assert capacity * m.request.mem == TWO64 + 0x4000_0000_0000_0000 - capacity;
    assert Wrap64(capacity * m.request.mem) == 0x4000_0000_0000_0000 - capacity;
    assert (0x4000_0000_0000_0000 - capacity) / request == m.request.mem - 4;
    FloorWhenFitting(capacity, request, m.request.mem, m.usage.mem);
    AlwaysGetsShareIff(m, capacity, request);
    AlwaysSatisfiedIff(m, capacity, request);
    GuaranteeExactIff(capacity, request, m.request.mem, m.usage.mem);
  }

  // ----- Nodes on which it goes wrong -----

  const GIB: int := 0x4000_0000

  /** 4 GiB.  Pod `a` requests 2 GiB and uses 5 GiB, pod `b` requests nothing and uses 32 GiB. */
  function Crowded(): Table {
    map["a" := PodMetrics(Amounts(0, 2 * GIB), Amounts(0, 5 * GIB), Amounts(0, 5 * GIB)),
        "b" := PodMetrics(Amounts(0, 0), Amounts(0, 32 * GIB), Amounts(0, 32 * GIB))]
  }

  /** The guarantee of pod `a` wraps around to minus 4 GiB. */
  lemma NegativeGuarantee()
    ensures Guarantee(4 * GIB, 2 * GIB, 2 * GIB, 5 * GIB) == -4 * GIB
  {
    assert 4 * GIB * (2 * GIB) == TWO63;
    assert Wrap64(TWO63) == -TWO63 && TWO63 / (2 * GIB) == 4 * GIB;
  }

  /** The requests fit, and yet `a` is allocated a negative amount of memory and is not satisfied. */
  lemma OverflowTakesAway()
    ensures var t := Crowded(); var keys := ["a", "b"];
      var u := SharedBoth(t, keys, Amounts(0, 4 * GIB), Amounts(0, 37 * GIB), Amounts(0, 2 * GIB));
      && NodeTotals(t, keys, {"a", "b"}, Cpu, 0, 0, 0) && ProductsFit(t, keys, Cpu, 0)
      && NodeTotals(t, keys, {"a", "b"}, Mem, 4 * GIB, 37 * GIB, 2 * GIB)
      && u["a"].allocation.mem < 0 && !Satisfied(u["a"])
  {
    var t, keys, active := Crowded(), ["a", "b"], {"a", "b"};
    hide Share, Spare, Guarantee, Satisfied, SumGuarantees;
    CrowdedTotals(Cpu);
    CrowdedTotals(Mem);
    CrowdedShare();
    CpuKept();
  }

  /** Nothing is to be shared of the CPU. */
  lemma CpuKept()
    ensures Shared(Crowded(), ["a", "b"], Cpu, 0, 0, 0) == Crowded()
  {
  }

  lemma CrowdedShare()
    ensures var m := Share(Crowded()["a"], Mem, 4 * GIB, 37 * GIB, 2 * GIB, -4 * GIB); m.allocation.mem < 0 && !Satisfied(m)
  {
    var m := Crowded()["a"];
    NegativeGuarantee();
    SharedPod(m, Mem, 4 * GIB, 37 * GIB, 2 * GIB, -4 * GIB);
    SpareExact(Mem, 8 * GIB, 41 * GIB, 9 * GIB);
    MulCancelStrict(Spare(Mem, 8 * GIB, 41 * GIB, 9 * GIB), 2 * GIB, 41 * GIB);
  }

  lemma CrowdedTotals(k: Kind)
    ensures var t := Crowded();
      && (k == Cpu ==> NodeTotals(t, ["a", "b"], {"a", "b"}, k, 0, 0, 0))
      && (k == Mem ==> NodeTotals(t, ["a", "b"], {"a", "b"}, k, 4 * GIB, 37 * GIB, 2 * GIB))
      && (k == Mem ==> SumGuarantees(t, ["a", "b"], k, 4 * GIB, 2 * GIB) == -4 * GIB)
  {
    var t, active := Crowded(), {"a", "b"};
    SumPair("a", "b", key => if key in t then t[key].usage.Get(k) else 0);
    SumPair("a", "b", key => if key in t && key in active then t[key].request.Get(k) else 0);
    SumPair("a", "b", key => if key in t then GuaranteeOf(t[key], k, 4 * GIB, 2 * GIB) else 0);
    NegativeGuarantee();
  }

  /** 1 GiB.  Pod `a` requests one byte and uses 2 GiB; pod `b` is deleted but still listed, requested 8 GiB
      and uses nothing. */
  function Lingering(): Table {
    map["a" := Uses(1, 2 * GIB), "b" := Uses(8 * GIB, 0)]
  }

  /** The guarantee of pod `b` wraps around to -2^63, the running demand past 2^63, and the allocations
      total 1 - 2^63: memory is not conserved. */
  lemma NotConserved()
    ensures var t := Lingering(); var keys := ["a", "b"]; var u := Shared(t, keys, Mem, GIB, 2 * GIB, 1);
      && NodeTotals(t, keys, {"a"}, Mem, GIB, 2 * GIB, 1) && Distinct(keys)
      && SumAllocations(u, keys, Mem) == 1 - TWO63 && !Conserved(u, keys, Mem, GIB)
  {
    hide Shared;
    var t, keys, active := Lingering(), ["a", "b"], {"a"};
    SumPair("a", "b", key => if key in t then t[key].usage.Get(Mem) else 0);
    SumPair("a", "b", key => if key in t && key in active then t[key].request.Get(Mem) else 0);
    SumPair("a", "b", key => if key in t then GuaranteeOf(t[key], Mem, GIB, 1) else 0);
    LingeringGuarantees();
    SkippedSums(t, keys, active, GIB, 2 * GIB, 1);
  }

  lemma LingeringGuarantees()
    ensures Guarantee(GIB, 1, 1, 2 * GIB) == 1 && Guarantee(GIB, 1, 8 * GIB, 0) == -TWO63
  {
    assert GIB * (8 * GIB) == TWO63 && GIB * 1 == GIB;
    assert Wrap64(TWO63) == -TWO63;
  }
}
