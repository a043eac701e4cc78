// What the two passes promise: conservation, a floor under every pod, the QoS theorem, and where int64s spoil it.

module FairShare {
  import opened Arithmetic
  import opened Allocation

  // ----- A node's totals -----

  function SumUsage(t: Table, keys: seq<string>, k: Kind): int {
    SumBy(keys, key => if key in t then t[key].usage.Get(k) else 0)
  }

  /** The requests of those keys that are in `active`. */
  function SumRequests(t: Table, keys: seq<string>, active: set<string>, k: Kind): int {
    SumBy(keys, key => if key in t && key in active then t[key].request.Get(k) else 0)
  }

  /** `keys` are the pods listed for a node, `active` those of them that run or terminate.  A node's
      demand and request are sums over the active pods; the others use nothing.  A pod's allocation
      starts out as its usage.  All of these are int64s. */
  ghost predicate NodeTotals(t: Table, keys: seq<string>, active: set<string>, k: Kind, capacity: int, demand: int, request: int) {
    && 0 <= capacity < TWO63 && demand < TWO63 && request < TWO63
    && (forall key <- keys :: key in t)
    && (forall key <- keys :: 0 <= t[key].request.Get(k) < TWO63 && 0 <= t[key].usage.Get(k) < TWO63)
    && (forall key <- keys :: t[key].allocation.Get(k) == t[key].usage.Get(k))
    && (forall key <- keys :: key !in active ==> t[key].usage.Get(k) == 0)
    && demand == SumUsage(t, keys, k)
    && request == SumRequests(t, keys, active, k)
  }

  /** The products of the CPU passes fit an int64.  Nothing is asked of the memory products: those of the
      first pass may wrap around, and the second pass multiplies floating-point numbers. */
  ghost predicate ProductsFit(t: Table, keys: seq<string>, k: Kind, capacity: int) {
    k == Cpu ==> forall key <- keys :: key in t ==>
      capacity * t[key].request.Get(k) < TWO63 && capacity * t[key].usage.Get(k) < TWO63
  }

  function SumAllocations(t: Table, keys: seq<string>, k: Kind): int {
    SumBy(keys, key => if key in t then t[key].allocation.Get(k) else 0)
  }

  // ----- The guaranteed shares -----

  /** What a guaranteed share should be at least, without wrap-around. */
  function Floor(capacity: int, request: int, req: int, use: int): int {
    if request > 0 then Min(use, Min(capacity * req / request, req)) else 0
  }

  /** The wrapped product is large enough for the whole guaranteed share. */
  predicate Reaches(capacity: int, request: int, req: int, use: int) {
    var floor, w := Floor(capacity, request, req, use), Wrap64(capacity * req);
    request > 0 ==> if floor > 0 then w >= request * floor else w > -request
  }

  lemma FloorNonneg(capacity: int, request: int, req: int, use: int)
    requires capacity >= 0 && req >= 0 && use >= 0
    ensures Floor(capacity, request, req, use) >= 0
  {
    if request > 0 {
      MulNonneg(capacity, req);
      DivNonneg(capacity * req, request);
    }
  }

  /** Whatever the product wraps to, the computed guarantee is at most the exact share. */
  lemma GuaranteeBelow(capacity: int, request: int, req: int, use: int)
    requires capacity >= 0 && req >= 0 && use >= 0 && request > 0
    ensures request * Guarantee(capacity, request, req, use) <= capacity * req
    ensures Guarantee(capacity, request, req, use) <= Floor(capacity, request, req, use) <= use
  {
    MulNonneg(capacity, req);
    DivNonneg(capacity * req, request);
    WrapBelow(capacity * req);
    ShareOfProduct(Wrap64(capacity * req), capacity * req, request, Guarantee(capacity, request, req, use));
  }

  /** And it is never far below zero. */
  lemma GuaranteeAbove(capacity: int, request: int, req: int, use: int)
    requires req >= 0 && use >= 0
    ensures request > 0 ==> request * Guarantee(capacity, request, req, use) >= -TWO63
    ensures Guarantee(capacity, request, req, use) >= -TWO63
  {
    if request > 0 {
      TruncAbove(Wrap64(capacity * req), request);
      if Guarantee(capacity, request, req, use) < -TWO63 {
        MulMonotone(1, request, -Guarantee(capacity, request, req, use));
      } else {
        MulNonneg(request, Min(use, req));
      }
    }
  }

  lemma ShareOfProduct(w: int, x: int, request: int, g: int)
    requires request > 0 && w <= x && x >= 0 && g <= TruncDiv(w, request)
    ensures request * g <= x && TruncDiv(w, request) <= x / request
  {
    hide TruncDiv;
    var share := TruncDiv(w, request);
    TruncBelow(w, x, request);
    MulMonotone(g, share, request);
    DivBounds(x, request);
    assert request * (x / request) + request == request * (x / request + 1);
    MulCancelStrict(share, x / request + 1, request);
  }

  /** A product that fits gives the exact share. */
  lemma FittingReaches(capacity: int, request: int, req: int, use: int)
    requires capacity >= 0 && req >= 0 && use >= 0 && capacity * req < TWO63
    ensures Reaches(capacity, request, req, use)
  {
    MulNonneg(capacity, req);
    FloorNonneg(capacity, request, req, use);
    if request > 0 {
      DivBounds(capacity * req, request);
      MulMonotone(Floor(capacity, request, req, use), capacity * req / request, request);
    }
  }

  /** The computed guarantee is the exact share if and only if the wrapped product is large enough. */
  lemma GuaranteeExactIff(capacity: int, request: int, req: int, use: int)
    requires capacity >= 0 && req >= 0 && use >= 0
    ensures Guarantee(capacity, request, req, use) == Floor(capacity, request, req, use)
      <==> Reaches(capacity, request, req, use)
  {
    if request > 0 {
      FloorNonneg(capacity, request, req, use);
      GuaranteeBelow(capacity, request, req, use);
      TruncReaches(Wrap64(capacity * req), request, Floor(capacity, request, req, use));
    }
  }

  /** The computed guarantee is nonnegative if and only if the wrapped product is above minus the total
      request. */
  lemma GuaranteeNonnegativeIff(capacity: int, request: int, req: int, use: int)
    requires capacity >= 0 && req >= 0 && use >= 0 && request > 0
    ensures Guarantee(capacity, request, req, use) >= 0 <==> Wrap64(capacity * req) > -request
  {
    TruncReaches(Wrap64(capacity * req), request, 0);
  }

  predicate PodReaches(m: PodMetrics, k: Kind, capacity: int, request: int) {
    Reaches(capacity, request, m.request.Get(k), m.usage.Get(k))
  }

  function PodFloor(m: PodMetrics, k: Kind, capacity: int, request: int): int {
    Floor(capacity, request, m.request.Get(k), m.usage.Get(k))
  }

  /** The shares granted, scaled by the total request, stay under the scaled capacity. */
  lemma {:induction false} GrantedBound(t: Table, keys: seq<string>, active: set<string>, k: Kind, capacity: int, request: int)
    requires capacity >= 0 && request > 0
    requires forall key <- keys :: key in t && t[key].request.Get(k) >= 0 && t[key].usage.Get(k) >= 0
    requires forall key <- keys :: key !in active ==> t[key].usage.Get(k) == 0
    ensures request * SumGuarantees(t, keys, k, capacity, request) <= capacity * SumRequests(t, keys, active, k)
  {
    if keys != [] {
      var init, last := keys[..|keys| - 1], keys[|keys| - 1];
      GrantedBound(t, init, active, k, capacity, request);
      var g, req := GuaranteeOf(t[last], k, capacity, request), t[last].request.Get(k);
      GuaranteeBelow(capacity, request, req, t[last].usage.Get(k));
      Distribute(request, SumGuarantees(t, init, k, capacity, request), g);
      if last in active {
        Distribute(capacity, SumRequests(t, init, active, k), req);
      } else {
        MulMonotone(g, 0, request);
      }
    }
  }

  lemma Distribute(a: int, b: int, c: int)
    ensures a * (b + c) == a * b + a * c
  {
  }

  lemma {:induction false} CpuGrantedNonneg(t: Table, keys: seq<string>, capacity: int, request: int)
    requires capacity >= 0 && ProductsFit(t, keys, Cpu, capacity)
    requires forall key <- keys :: key in t && t[key].request.Get(Cpu) >= 0 && t[key].usage.Get(Cpu) >= 0
    ensures SumGuarantees(t, keys, Cpu, capacity, request) >= 0
  {
    if keys != [] {
      CpuGrantedNonneg(t, keys[..|keys| - 1], capacity, request);
      CpuGuarantee(t[keys[|keys| - 1]], capacity, request);
    }
  }

  lemma CpuGuarantee(m: PodMetrics, capacity: int, request: int)
    requires capacity >= 0 && m.request.cpu >= 0 && m.usage.cpu >= 0 && capacity * m.request.cpu < TWO63
    ensures GuaranteeOf(m, Cpu, capacity, request) == PodFloor(m, Cpu, capacity, request) >= 0
  {
    FittingReaches(capacity, request, m.request.cpu, m.usage.cpu);
    GuaranteeExactIff(capacity, request, m.request.cpu, m.usage.cpu);
    FloorNonneg(capacity, request, m.request.cpu, m.usage.cpu);
  }

  /** The guaranteed shares never exceed the capacity, even where their products overflow. */
  lemma GrantedWithinCapacity(t: Table, keys: seq<string>, active: set<string>, k: Kind, capacity: int, demand: int, request: int)
    requires NodeTotals(t, keys, active, k, capacity, demand, request) && ProductsFit(t, keys, k, capacity)
    ensures SumGuarantees(t, keys, k, capacity, request) <= capacity
    ensures k == Cpu ==> SumGuarantees(t, keys, k, capacity, request) >= 0
  {
    if k == Cpu { CpuGrantedNonneg(t, keys, capacity, request); }
    if request > 0 {
      GrantedBound(t, keys, active, k, capacity, request);
      assert capacity * request == request * capacity;
      MulCancel(SumGuarantees(t, keys, k, capacity, request), capacity, request);
    } else {
      NoRequestNoGrant(t, keys, k, capacity, request);
    }
  }

  lemma {:induction false} NoRequestNoGrant(t: Table, keys: seq<string>, k: Kind, capacity: int, request: int)
    requires (forall key <- keys :: key in t) && request <= 0
    ensures SumGuarantees(t, keys, k, capacity, request) == 0
  {
    if keys != [] { NoRequestNoGrant(t, keys[..|keys| - 1], k, capacity, request); }
  }

  // ----- The spare shares -----

  lemma SpareExact(k: Kind, c: int, d: int, extra: int)
    requires 0 < c < d && extra >= 0 && (k == Cpu ==> c * extra < TWO63)
    ensures Spare(k, c, d, extra) == c * extra / d
    ensures 0 <= Spare(k, c, d, extra) <= extra
    ensures c * extra - d < d * Spare(k, c, d, extra) <= c * extra
  {
    MulNonneg(c, extra);
    ShareBelow(c, extra, d);
    DivBounds(c * extra, d);
  }

  /** What both passes of a node need: the shares granted are within the capacity, and the second CPU
      pass does not overflow. */
  ghost predicate Passable(m: PodMetrics, k: Kind, capacity: int, demand: int, granted: int) {
    && 0 <= capacity < demand < TWO63 && granted <= capacity
    && 0 <= m.request.Get(k) < TWO63 && 0 <= m.usage.Get(k) < TWO63
    && (k == Cpu ==> granted >= 0 && capacity * m.request.Get(k) < TWO63 && capacity * m.usage.Get(k) < TWO63)
  }

  /** What a pod's guaranteed share leaves of its usage. */
  function Unmet(m: PodMetrics, k: Kind, capacity: int, request: int): int {
    m.usage.Get(k) - GuaranteeOf(m, k, capacity, request)
  }

  lemma UnmetNonneg(m: PodMetrics, k: Kind, capacity: int, request: int)
    requires capacity >= 0 && m.request.Get(k) >= 0 && m.usage.Get(k) >= 0
    ensures Unmet(m, k, capacity, request) >= 0
    ensures k == Cpu && capacity * m.request.Get(k) < TWO63 ==> Unmet(m, k, capacity, request) <= m.usage.Get(k)
  {
    if request > 0 { GuaranteeBelow(capacity, request, m.request.Get(k), m.usage.Get(k)); }
    if k == Cpu && capacity * m.request.Get(k) < TWO63 { CpuGuarantee(m, capacity, request); }
  }

  /** A part of the unmet demand no larger than all of it keeps the second CPU product small. */
  lemma CpuProductFits(m: PodMetrics, capacity: int, demand: int, request: int, granted: int, c: int)
    requires Passable(m, Cpu, capacity, demand, granted) && 0 <= c <= capacity
    ensures 0 <= Unmet(m, Cpu, capacity, request) < TWO63
    ensures c * Unmet(m, Cpu, capacity, request) < TWO63
  {
    UnmetNonneg(m, Cpu, capacity, request);
    MulMonotone(c, capacity, Unmet(m, Cpu, capacity, request));
    MulMonotone(Unmet(m, Cpu, capacity, request), m.usage.cpu, capacity);
  }

  /** One pod of an overloaded node after both passes, where the running demand stays an int64. */
  lemma SharedPod(m: PodMetrics, k: Kind, capacity: int, demand: int, request: int, granted: int)
    requires Passable(m, k, capacity, demand, granted)
    requires demand - granted < TWO63 && (granted == capacity || Unmet(m, k, capacity, request) < TWO63)
    ensures var g := GuaranteeOf(m, k, capacity, request); var c := capacity - granted; var d := demand - granted;
      var extra := Unmet(m, k, capacity, request);
      && extra >= 0
      && (c > 0 && k == Cpu ==> c * extra < TWO63)
      && Share(m, k, capacity, demand, request, granted)
           == Allocate(m, k, if c > 0 then g + Spare(k, c, d, extra) else g)
  {
    hide Wrap64, Spare, Guarantee;
    UnmetNonneg(m, k, capacity, request);
    GuaranteeAbove(capacity, request, m.request.Get(k), m.usage.Get(k));
    var c, d, extra := capacity - granted, demand - granted, Unmet(m, k, capacity, request);
    if c > 0 {
      if k == Cpu { CpuProductFits(m, capacity, demand, request, granted, c); }
      SpareExact(k, c, d, extra);
    }
  }

  /** Where the running demand wraps around to a negative number, the second pass is skipped. */
  lemma SharedSkipped(m: PodMetrics, k: Kind, capacity: int, demand: int, request: int, granted: int)
    requires capacity < demand && demand > 0 && TWO63 <= demand - granted < TWO64
    ensures Share(m, k, capacity, demand, request, granted) == Allocate(m, k, GuaranteeOf(m, k, capacity, request))
  {
  }

  /** For all sizes, and whatever the running differences wrap to: the second pass takes nothing away, and
      no pod gets more than it uses. */
  lemma SharedBetween(m: PodMetrics, k: Kind, capacity: int, demand: int, request: int, granted: int)
    requires Passable(m, k, capacity, demand, granted)
    ensures GuaranteeOf(m, k, capacity, request)
      <= Share(m, k, capacity, demand, request, granted).allocation.Get(k) <= m.usage.Get(k)
  {
    hide Wrap64, Spare, Guarantee;
    UnmetNonneg(m, k, capacity, request);
    GuaranteeAbove(capacity, request, m.request.Get(k), m.usage.Get(k));
    var c, d, extra := Wrap64(capacity - granted), Wrap64(demand - granted), Max(Wrap64(Unmet(m, k, capacity, request)), 0);
    WrapBelow(Unmet(m, k, capacity, request));
    if d > 0 && c > 0 {
      if k == Cpu { CpuProductFits(m, capacity, demand, request, granted, c); }
      SpareBetween(k, c, d, extra);
    }
  }

  lemma SpareBetween(k: Kind, c: int, d: int, extra: int)
    requires c > 0 && d > 0 && extra >= 0 && (k == Cpu ==> c * extra < TWO63)
    ensures 0 <= Spare(k, c, d, extra) <= extra
  {
    MulNonneg(c, extra);
    DivNonneg(c * extra, d);
  }

  ghost predicate AllPassable(t: Table, keys: seq<string>, k: Kind, capacity: int, demand: int, granted: int) {
    forall key <- keys :: key in t && Passable(t[key], k, capacity, demand, granted)
  }

  lemma {:induction false} UnmetAtMostTotal(t: Table, keys: seq<string>, k: Kind, capacity: int, request: int, key: string)
    requires capacity >= 0 && forall key <- keys :: key in t && t[key].request.Get(k) >= 0 && t[key].usage.Get(k) >= 0
    ensures var total := SumUsage(t, keys, k) - SumGuarantees(t, keys, k, capacity, request);
      total >= 0 && (key in keys ==> Unmet(t[key], k, capacity, request) <= total)
  {
    if keys != [] {
      var init, last := keys[..|keys| - 1], keys[|keys| - 1];
      UnmetAtMostTotal(t, init, k, capacity, request, key);
      UnmetNonneg(t[last], k, capacity, request);
      assert key in keys ==> key in init || key == last;
    }
  }

  /** The sums over a node after both passes, scaled by the unmet demand. */
  lemma {:induction false} SpareSums(t: Table, keys: seq<string>, k: Kind, capacity: int, demand: int, request: int, granted: int, u: Table)
    requires demand > capacity > granted && AllPassable(t, keys, k, capacity, demand, granted)
    requires demand - granted < TWO63 && forall key <- keys :: Unmet(t[key], k, capacity, request) < TWO63
    requires forall key <- keys :: key in u && u[key] == Share(t[key], k, capacity, demand, request, granted)
    ensures var c := capacity - granted; var d := demand - granted;
      var unmet := SumUsage(t, keys, k) - SumGuarantees(t, keys, k, capacity, request);
      var spare := SumAllocations(u, keys, k) - SumGuarantees(t, keys, k, capacity, request);
      d * spare <= c * unmet && c * unmet - d * |keys| <= d * spare
      && (keys != [] ==> c * unmet - d * |keys| < d * spare)
  {
    hide Share, GuaranteeOf, Spare;
    if keys != [] {
      var init, last := keys[..|keys| - 1], keys[|keys| - 1];
      SpareSums(t, init, k, capacity, demand, request, granted, u);
      var c, d := capacity - granted, demand - granted;
      var g := GuaranteeOf(t[last], k, capacity, request);
      var extra := Unmet(t[last], k, capacity, request);
      SharedPod(t[last], k, capacity, demand, request, granted);
      SpareExact(k, c, d, extra);
      Distribute(d, SumAllocations(u, init, k) - SumGuarantees(t, init, k, capacity, request), Spare(k, c, d, extra));
      Distribute(c, SumUsage(t, init, k) - SumGuarantees(t, init, k, capacity, request), extra);
      Distribute(d, |init|, 1);
    }
  }

  lemma {:induction false} GuaranteeSums(t: Table, keys: seq<string>, k: Kind, capacity: int, request: int, u: Table)
    requires forall key <- keys :: key in t && key in u && u[key].allocation.Get(k) == GuaranteeOf(t[key], k, capacity, request)
    ensures SumAllocations(u, keys, k) == SumGuarantees(t, keys, k, capacity, request)
  {
    if keys != [] { GuaranteeSums(t, keys[..|keys| - 1], k, capacity, request, u); }
  }

  /** The allocations of the node total at most its capacity, and rounding loses less than one unit for
      each pod. */
  ghost predicate Conserved(u: Table, keys: seq<string>, k: Kind, capacity: int) {
    capacity - |keys| < SumAllocations(u, keys, k) <= capacity
  }

  /** THEOREM (conservation).  On an overloaded node the pods get at most the capacity together, and
      rounding loses less than one unit for each of them; for memory, whether or not products overflow,
      as long as what is left of the demand after the guaranteed shares fits an int64. */
  lemma Conservation(t: Table, keys: seq<string>, active: set<string>, k: Kind, capacity: int, demand: int, request: int)
    requires NodeTotals(t, keys, active, k, capacity, demand, request) && ProductsFit(t, keys, k, capacity)
    requires demand > capacity && (k == Cpu || demand - SumGuarantees(t, keys, k, capacity, request) < TWO63)
    ensures Conserved(Shared(t, keys, k, capacity, demand, request), keys, k, capacity)
  {
    var granted := SumGuarantees(t, keys, k, capacity, request);
    var u := Shared(t, keys, k, capacity, demand, request);
    GrantedWithinCapacity(t, keys, active, k, capacity, demand, request);
    assert keys != [];
    forall key <- keys ensures Unmet(t[key], k, capacity, request) < TWO63 {
      UnmetAtMostTotal(t, keys, k, capacity, request, key);
    }
    if granted == capacity {
      forall key <- keys { SharedPod(t[key], k, capacity, demand, request, granted); }
      GuaranteeSums(t, keys, k, capacity, request, u);
    } else {
      SpareSums(t, keys, k, capacity, demand, request, granted, u);
      var c, d, spare := capacity - granted, demand - granted, SumAllocations(u, keys, k) - granted;
      assert c * d == d * c;
      MulCancel(spare, c, d);
      Distribute(d, c, -|keys|);
      assert d * -|keys| == -(d * |keys|);
      MulCancelStrict(c - |keys|, spare, d);
    }
  }

  /** Where what is left of the demand wraps around once, the second pass is skipped: the pods end with
      their guaranteed shares, and the capacity is conserved only if those all but use it up. */
  lemma SkippedSums(t: Table, keys: seq<string>, active: set<string>, capacity: int, demand: int, request: int)
    requires NodeTotals(t, keys, active, Mem, capacity, demand, request) && demand > capacity
    requires TWO63 <= demand - SumGuarantees(t, keys, Mem, capacity, request) < TWO64
    ensures SumAllocations(Shared(t, keys, Mem, capacity, demand, request), keys, Mem) == SumGuarantees(t, keys, Mem, capacity, request)
  {
    var granted := SumGuarantees(t, keys, Mem, capacity, request);
    forall key <- keys { SharedSkipped(t[key], Mem, capacity, demand, request, granted); }
    GuaranteeSums(t, keys, Mem, capacity, request, Shared(t, keys, Mem, capacity, demand, request));
  }

  /** THEOREM (when memory is conserved).  Unless what is left of the demand wraps around twice
      (`LeftAtMost`), conservation holds if and only if it does not wrap around at all or the guaranteed
      shares come within a unit a pod of the capacity. */
  lemma ConservationIff(t: Table, keys: seq<string>, active: set<string>, capacity: int, demand: int, request: int)
    requires NodeTotals(t, keys, active, Mem, capacity, demand, request) && demand > capacity
    requires demand - SumGuarantees(t, keys, Mem, capacity, request) < TWO64
    ensures var granted := SumGuarantees(t, keys, Mem, capacity, request);
      var u := Shared(t, keys, Mem, capacity, demand, request);
      Conserved(u, keys, Mem, capacity) <==> demand - granted < TWO63 || capacity - granted < |keys|
  {
    GrantedWithinCapacity(t, keys, active, Mem, capacity, demand, request);
    if demand - SumGuarantees(t, keys, Mem, capacity, request) < TWO63 {
      Conservation(t, keys, active, Mem, capacity, demand, request);
    } else {
      SkippedSums(t, keys, active, capacity, demand, request);
    }
  }

  /** How far below zero the guaranteed shares of a node can go together. */
  lemma {:induction false} GrantedAbove(t: Table, keys: seq<string>, k: Kind, capacity: int, request: int)
    requires request > 0 && forall key <- keys :: key in t && t[key].request.Get(k) >= 0 && t[key].usage.Get(k) >= 0
    ensures request * SumGuarantees(t, keys, k, capacity, request) >= -(|keys| * TWO63)
  {
    hide Guarantee;
    if keys != [] {
      var init, last := keys[..|keys| - 1], keys[|keys| - 1];
      GrantedAbove(t, init, k, capacity, request);
      GuaranteeAbove(capacity, request, t[last].request.Get(k), t[last].usage.Get(k));
      Distribute(request, SumGuarantees(t, init, k, capacity, request), GuaranteeOf(t[last], k, capacity, request));
    }
  }

  /** With `n` bytes of total request for each listed pod, or none at all, the guaranteed shares together are
      at least -2^63 / n. */
  lemma LeftAtMost(t: Table, keys: seq<string>, active: set<string>, capacity: int, demand: int, request: int, n: nat)
    requires NodeTotals(t, keys, active, Mem, capacity, demand, request)
    requires n > 0 && (request <= 0 || request >= n * |keys|)
    ensures n * SumGuarantees(t, keys, Mem, capacity, request) >= -TWO63
  {
    if request <= 0 {
      NoRequestNoGrant(t, keys, Mem, capacity, request);
    } else {
      GrantedAbove(t, keys, Mem, capacity, request);
      var granted := SumGuarantees(t, keys, Mem, capacity, request);
      if n * granted < -TWO63 { ScaledApart(n, |keys|, request, granted); }
    }
  }

  lemma ScaledApart(n: nat, size: nat, request: int, granted: int)
    requires n > 0 && request > 0 && request >= n * size && n * granted < -TWO63
    ensures request * granted < -(size * TWO63)
  {
    MulMonotone(n * granted, -TWO63 - 1, request);
    assert n * (request * granted) == request * (n * granted);
    MulMonotone(n * size, request, TWO63);
    assert n * (size * TWO63) == n * size * TWO63;
    assert n * (request * granted) < -(n * (size * TWO63));
    assert n * -(size * TWO63) == -(n * (size * TWO63));
    MulCancelStrict(request * granted, -(size * TWO63), n);
  }

  /** THEOREM (conservation of memory, by sizes alone).  A demand below 2^62 bytes, and two bytes of total
      request for each listed pod or none at all, are enough. */
  lemma MemoryConserved(t: Table, keys: seq<string>, active: set<string>, capacity: int, demand: int, request: int)
    requires NodeTotals(t, keys, active, Mem, capacity, demand, request)
    requires capacity < demand < TWO63 / 2 && (request == 0 || request >= 2 * |keys|)
    ensures Conserved(Shared(t, keys, Mem, capacity, demand, request), keys, Mem, capacity)
  {
    LeftAtMost(t, keys, active, capacity, demand, request, 2);
    Conservation(t, keys, active, Mem, capacity, demand, request);
  }

  // ----- Each pod -----

  /** THEOREM (isolation).  Whatever the others use, a pod of an overloaded node gets no more than it
      uses, and at least its exact guaranteed share if its wrapped product is large enough for it. */
  lemma EachPod(t: Table, keys: seq<string>, active: set<string>, k: Kind, capacity: int, demand: int, request: int, key: string)
    requires NodeTotals(t, keys, active, k, capacity, demand, request) && ProductsFit(t, keys, k, capacity)
    requires demand > capacity && key in keys
    ensures var m := Shared(t, keys, k, capacity, demand, request)[key];
      && m.allocation.Get(k) <= t[key].usage.Get(k)
      && (k == Cpu || PodReaches(t[key], k, capacity, request) ==>
            0 <= PodFloor(t[key], k, capacity, request) <= m.allocation.Get(k))
  {
    GrantedWithinCapacity(t, keys, active, k, capacity, demand, request);
    var granted := SumGuarantees(t, keys, k, capacity, request);
    var m := t[key];
    SharedBetween(m, k, capacity, demand, request, granted);
    FloorNonneg(capacity, request, m.request.Get(k), m.usage.Get(k));
    if k == Cpu { FittingReaches(capacity, request, m.request.Get(k), m.usage.Get(k)); }
    GuaranteeExactIff(capacity, request, m.request.Get(k), m.usage.Get(k));
  }

  lemma {:induction false} RequestAtMostTotal(t: Table, keys: seq<string>, active: set<string>, k: Kind, key: string)
    requires forall key <- keys :: key in t && t[key].request.Get(k) >= 0
    ensures SumRequests(t, keys, active, k) >= 0
    ensures key in keys && key in active ==> t[key].request.Get(k) <= SumRequests(t, keys, active, k)
  {
    if keys != [] {
      RequestAtMostTotal(t, keys[..|keys| - 1], active, k, key);
      assert key in keys ==> key in keys[..|keys| - 1] || key == keys[|keys| - 1];
    }
  }

  /** When the total request fits, the exact share is the usage or the request. */
  lemma FloorWhenFitting(capacity: int, request: int, req: int, use: int)
    requires 0 < request <= capacity && req >= 0 && use >= 0
    ensures Floor(capacity, request, req, use) == Min(use, req)
  {
    ShareAbove(capacity, req, request);
  }

  /** A resource whose total request fits the capacity is enough for every pod or for its request, if the
      pod's product is large enough. */
  lemma RequestMet(t: Table, keys: seq<string>, active: set<string>, k: Kind, capacity: int, demand: int, request: int, key: string)
    requires NodeTotals(t, keys, active, k, capacity, demand, request) && ProductsFit(t, keys, k, capacity)
    requires request <= capacity && key in keys
    requires k == Cpu || demand <= capacity || PodReaches(t[key], k, capacity, request)
    ensures var m := Shared(t, keys, k, capacity, demand, request)[key];
      m.usage.Get(k) <= m.allocation.Get(k) || m.allocation.Get(k) >= m.request.Get(k)
  {
    if demand > capacity {
      EachPod(t, keys, active, k, capacity, demand, request, key);
      RequestAtMostTotal(t, keys, active, k, key);
      if request > 0 { FloorWhenFitting(capacity, request, t[key].request.Get(k), t[key].usage.Get(k)); }
    }
  }

  /** Allocating one resource leaves the other as it was. */
  lemma OtherKindKept(t: Table, keys: seq<string>, k: Kind, j: Kind, capacity: int, demand: int, request: int, key: string)
    requires (forall key <- keys :: key in t) && key in t && j != k
    ensures var m := Shared(t, keys, k, capacity, demand, request)[key];
      m.request == t[key].request && m.usage == t[key].usage && m.allocation.Get(j) == t[key].allocation.Get(j)
  {
  }

  lemma {:induction false} TotalsKept(t: Table, u: Table, keys: seq<string>, active: set<string>, k: Kind)
    requires forall key <- keys :: key in t && key in u && u[key].request == t[key].request && u[key].usage == t[key].usage
    ensures SumUsage(u, keys, k) == SumUsage(t, keys, k)
    ensures SumRequests(u, keys, active, k) == SumRequests(t, keys, active, k)
  {
    if keys != [] { TotalsKept(t, u, keys[..|keys| - 1], active, k); }
  }

  /** THEOREM (QoS).  If the requests on a node fit its capacity in both resources, and on overload no
      memory product falls short, every listed pod counts as satisfied, however large the demand. */
  lemma RequestsFitAllSatisfied(t: Table, keys: seq<string>, active: set<string>, capacity: Amounts, demand: Amounts, request: Amounts)
    requires NodeTotals(t, keys, active, Cpu, capacity.cpu, demand.cpu, request.cpu) && ProductsFit(t, keys, Cpu, capacity.cpu)
    requires NodeTotals(t, keys, active, Mem, capacity.mem, demand.mem, request.mem)
    requires demand.mem <= capacity.mem || forall key <- keys :: PodReaches(t[key], Mem, capacity.mem, request.mem)
    requires request.cpu <= capacity.cpu && request.mem <= capacity.mem
    ensures var u := SharedBoth(t, keys, capacity, demand, request);
      CountSatisfied(u, keys) == |keys|
  {
    var u := Shared(t, keys, Cpu, capacity.cpu, demand.cpu, request.cpu);
    var v := SharedBoth(t, keys, capacity, demand, request);
    forall key | key in t ensures u[key].request == t[key].request && u[key].usage == t[key].usage
      && u[key].allocation.mem == t[key].allocation.mem
    {
      OtherKindKept(t, keys, Cpu, Mem, capacity.cpu, demand.cpu, request.cpu, key);
    }
    TotalsKept(t, u, keys, active, Mem);
    forall key | key in keys ensures Satisfied(v[key]) {
      RequestMet(t, keys, active, Cpu, capacity.cpu, demand.cpu, request.cpu, key);
      RequestMet(u, keys, active, Mem, capacity.mem, demand.mem, request.mem, key);
      OtherKindKept(u, keys, Mem, Cpu, capacity.mem, demand.mem, request.mem, key);
    }
    AllCounted(v, keys);
  }

  lemma {:induction false} AllCounted(t: Table, keys: seq<string>)
    requires forall key <- keys :: key in t && Satisfied(t[key])
    ensures CountSatisfied(t, keys) == |keys|
  {
    if keys != [] { AllCounted(t, keys[..|keys| - 1]); }
  }

  // ----- Order and concurrency -----

  lemma SameMembers(a: seq<string>, b: seq<string>, key: string)
    requires multiset(a) == multiset(b)
    ensures key in a <==> key in b
  {
    assert key in a <==> key in multiset(a);
    assert key in b <==> key in multiset(b);
  }

  lemma SharedPermuted(t: Table, a: seq<string>, b: seq<string>, k: Kind, capacity: int, demand: int, request: int)
    requires (forall key <- a :: key in t) && (forall key <- b :: key in t) && multiset(a) == multiset(b)
    ensures Shared(t, a, k, capacity, demand, request) == Shared(t, b, k, capacity, demand, request)
  {
    SumByPermuted(a, b, key => if key in t then GuaranteeOf(t[key], k, capacity, request) else 0);
    forall key | key in t ensures key in a <==> key in b { SameMembers(a, b, key); }
  }

  /** THEOREM.  The order in which a node's pods are listed affects neither an allocation nor the number
      of satisfied pods nor the total allocated. */
  lemma OrderIrrelevant(t: Table, a: seq<string>, b: seq<string>, capacity: Amounts, demand: Amounts, request: Amounts)
    requires (forall key <- a :: key in t) && (forall key <- b :: key in t) && multiset(a) == multiset(b)
    ensures var u, v := SharedBoth(t, a, capacity, demand, request), SharedBoth(t, b, capacity, demand, request);
      u == v && CountSatisfied(u, a) == CountSatisfied(v, b)
      && SumAllocations(u, a, Cpu) == SumAllocations(v, b, Cpu) && SumAllocations(u, a, Mem) == SumAllocations(v, b, Mem)
  {
    SharedPermuted(t, a, b, Cpu, capacity.cpu, demand.cpu, request.cpu);
    var w := Shared(t, a, Cpu, capacity.cpu, demand.cpu, request.cpu);
    SharedPermuted(w, a, b, Mem, capacity.mem, demand.mem, request.mem);
    var u := SharedBoth(t, a, capacity, demand, request);
    SumByPermuted(a, b, key => if key in u && Satisfied(u[key]) then 1 else 0);
    SumByPermuted(a, b, key => if key in u then u[key].allocation.Get(Cpu) else 0);
    SumByPermuted(a, b, key => if key in u then u[key].allocation.Get(Mem) else 0);
  }
}
