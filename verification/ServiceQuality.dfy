// Which pods the quality of service leaves out: the converse of the theorem that satisfies them all.

module ServiceQuality {
  import opened Prelude
  import opened Arithmetic
  import opened Allocation
  import opened FairShare
  import opened NodeJobs
  import opened NodeWorkers
  import opened Workers

  // ----- One node -----

  /** What the listed pods would have to get so that none is short. */
  function SumNeeds(t: Table, keys: seq<string>, k: Kind): int {
    SumBy(keys, key => if key in t then Min(t[key].usage.Get(k), t[key].request.Get(k)) else 0)
  }

  /** The pods of an overloaded node never get more than its capacity together, unless what is left of a
      memory demand wraps around twice. */
  lemma AtMostCapacity(t: Table, keys: seq<string>, active: set<string>, k: Kind, capacity: int, demand: int, request: int)
    requires NodeTotals(t, keys, active, k, capacity, demand, request) && ProductsFit(t, keys, k, capacity) && demand > capacity
    requires k == Cpu || demand - SumGuarantees(t, keys, k, capacity, request) < TWO64
    ensures SumAllocations(Shared(t, keys, k, capacity, demand, request), keys, k) <= capacity
  {
    hide Shared;
    if k == Cpu || demand - SumGuarantees(t, keys, k, capacity, request) < TWO63 {
      Conservation(t, keys, active, k, capacity, demand, request);
    } else {
      SkippedSums(t, keys, active, capacity, demand, request);
      GrantedWithinCapacity(t, keys, active, Mem, capacity, demand, request);
    }
  }

  lemma {:induction false} NeedsAtMost(t: Table, v: Table, keys: seq<string>, k: Kind)
    requires forall key <- keys :: key in t && key in v && !Short(v[key], k)
    requires forall key <- keys :: v[key].usage == t[key].usage && v[key].request == t[key].request
    ensures SumNeeds(t, keys, k) <= SumAllocations(v, keys, k)
    ensures SumNeeds(t, keys, k) <= SumUsage(t, keys, k)
  {
    if keys != [] { NeedsAtMost(t, v, keys[..|keys| - 1], k); }
  }

  /** Sharing one resource leaves what concerns the other. */
  lemma OtherTotals(t: Table, keys: seq<string>, active: set<string>, capacity: Amounts, demand: Amounts, request: Amounts)
    requires (forall key <- keys :: key in t) && NodeTotals(t, keys, active, Mem, capacity.mem, demand.mem, request.mem)
    ensures var u := Shared(t, keys, Cpu, capacity.cpu, demand.cpu, request.cpu);
      && NodeTotals(u, keys, active, Mem, capacity.mem, demand.mem, request.mem)
      && SumGuarantees(u, keys, Mem, capacity.mem, request.mem) == SumGuarantees(t, keys, Mem, capacity.mem, request.mem)
  {
    var u := Shared(t, keys, Cpu, capacity.cpu, demand.cpu, request.cpu);
    forall key | key in t ensures u[key].request == t[key].request && u[key].usage == t[key].usage
      && u[key].allocation.mem == t[key].allocation.mem
    {
      OtherKindKept(t, keys, Cpu, Mem, capacity.cpu, demand.cpu, request.cpu, key);
    }
    TotalsKept(t, u, keys, active, Mem);
    SumByEqual(keys, key => if key in u then GuaranteeOf(u[key], Mem, capacity.mem, request.mem) else 0,
                     key => if key in t then GuaranteeOf(t[key], Mem, capacity.mem, request.mem) else 0);
  }

  /** A pod keeps its usage and its request, and one resource's allocation while the other is shared. */
  lemma BothKept(t: Table, keys: seq<string>, capacity: Amounts, demand: Amounts, request: Amounts, key: string)
    requires (forall key <- keys :: key in t) && key in t
    ensures var u := Shared(t, keys, Cpu, capacity.cpu, demand.cpu, request.cpu); var v := SharedBoth(t, keys, capacity, demand, request);
      && v[key].usage == t[key].usage && v[key].request == t[key].request
      && v[key].allocation.cpu == u[key].allocation.cpu
  {
    var u := Shared(t, keys, Cpu, capacity.cpu, demand.cpu, request.cpu);
    OtherKindKept(t, keys, Cpu, Mem, capacity.cpu, demand.cpu, request.cpu, key);
    OtherKindKept(u, keys, Mem, Cpu, capacity.mem, demand.mem, request.mem, key);
  }

  /** What all pods of a node get of one resource in the end is within the capacity. */
  lemma BothAtMostCapacity(t: Table, keys: seq<string>, active: set<string>, k: Kind, capacity: Amounts, demand: Amounts, request: Amounts)
    requires NodeTotals(t, keys, active, Cpu, capacity.cpu, demand.cpu, request.cpu) && ProductsFit(t, keys, Cpu, capacity.cpu)
    requires NodeTotals(t, keys, active, Mem, capacity.mem, demand.mem, request.mem)
    requires k == Cpu || demand.mem - SumGuarantees(t, keys, Mem, capacity.mem, request.mem) < TWO64
    requires demand.Get(k) > capacity.Get(k)
    ensures SumAllocations(SharedBoth(t, keys, capacity, demand, request), keys, k) <= capacity.Get(k)
  {
    hide Shared;
    var u, v := Shared(t, keys, Cpu, capacity.cpu, demand.cpu, request.cpu), SharedBoth(t, keys, capacity, demand, request);
    OtherTotals(t, keys, active, capacity, demand, request);
    if k == Cpu {
      AtMostCapacity(t, keys, active, Cpu, capacity.cpu, demand.cpu, request.cpu);
      forall key | key in t ensures v[key].allocation.cpu == u[key].allocation.cpu { BothKept(t, keys, capacity, demand, request, key); }
      SumByEqual(keys, key => if key in v then v[key].allocation.Get(Cpu) else 0, key => if key in u then u[key].allocation.Get(Cpu) else 0);
    } else {
      AtMostCapacity(u, keys, active, Mem, capacity.mem, demand.mem, request.mem);
    }
  }

  /** THEOREM (QoS, the converse).  If in either resource the pods of a node together need more than its
      capacity, each its usage or its request, then some pod is short and not all count as satisfied. */
  lemma OverbookedIsSeen(t: Table, keys: seq<string>, active: set<string>, k: Kind, capacity: Amounts, demand: Amounts, request: Amounts)
    requires Distinct(keys) && SumNeeds(t, keys, k) > capacity.Get(k)
    requires NodeTotals(t, keys, active, Cpu, capacity.cpu, demand.cpu, request.cpu) && ProductsFit(t, keys, Cpu, capacity.cpu)
    requires NodeTotals(t, keys, active, Mem, capacity.mem, demand.mem, request.mem)
    requires k == Cpu || demand.mem - SumGuarantees(t, keys, Mem, capacity.mem, request.mem) < TWO64
    ensures var v := SharedBoth(t, keys, capacity, demand, request);
      && (exists key :: key in keys && Short(v[key], k))
      && CountSatisfied(v, keys) < |keys|
  {
    hide SharedBoth, CountSatisfied, SumNeeds, SumAllocations, SumUsage;
    var v := SharedBoth(t, keys, capacity, demand, request);
    assert (forall key <- keys :: key in t) && demand.Get(k) == SumUsage(t, keys, k);
    SharedKeys(t, keys, capacity, demand, request);
    forall key | key in t ensures v[key].usage == t[key].usage && v[key].request == t[key].request {
      BothKept(t, keys, capacity, demand, request, key);
    }
    NeedsAtMostUsage(t, keys, k);
    BothAtMostCapacity(t, keys, active, k, capacity, demand, request);
    if forall key :: key in keys ==> !Short(v[key], k) { NeedsAtMost(t, v, keys, k); }
    var key :| key in keys && Short(v[key], k);
    CountIsRest(v, keys);
    assert key in ShortPods(v, keys);
  }

  lemma SharedKeys(t: Table, keys: seq<string>, capacity: Amounts, demand: Amounts, request: Amounts)
    requires forall key <- keys :: key in t
    ensures SharedBoth(t, keys, capacity, demand, request).Keys == t.Keys
  {
  }

  lemma {:induction false} NeedsAtMostUsage(t: Table, keys: seq<string>, k: Kind)
    ensures SumNeeds(t, keys, k) <= SumUsage(t, keys, k)
  {
    if keys != [] { NeedsAtMostUsage(t, keys[..|keys| - 1], k); }
  }

  /** In each resource separately: a pod that stops being short raises the count by one. */
  lemma ShortCostsOne(t: Table, keys: seq<string>, key: string, k: Kind, better: PodMetrics)
    requires Distinct(keys) && (forall key <- keys :: key in t) && key in keys
    requires Short(t[key], k) && !Short(better, Cpu) && !Short(better, Mem)
    ensures CountSatisfied(t[key := better], keys) == CountSatisfied(t, keys) + 1
  {
    CountIsRest(t, keys);
    CountIsRest(t[key := better], keys);
    assert ShortPods(t, keys) == ShortPods(t[key := better], keys) + {key};
  }

  // ----- Between two pods -----

  /** What a pod gets on top of its guaranteed share. */
  function Extra(t: Table, keys: seq<string>, k: Kind, capacity: int, demand: int, request: int, key: string): int
    requires (forall key <- keys :: key in t) && key in t
  {
    Shared(t, keys, k, capacity, demand, request)[key].allocation.Get(k) - GuaranteeOf(t[key], k, capacity, request)
  }

  /** THEOREM (fairness).  What is left of an overloaded node's capacity goes to its pods in proportion to
      what their guaranteed shares leave of their usage, to within one unit. */
  lemma SpareInProportion(
    t: Table, keys: seq<string>, active: set<string>, k: Kind, capacity: int, demand: int, request: int, a: string, b: string)
    requires NodeTotals(t, keys, active, k, capacity, demand, request) && ProductsFit(t, keys, k, capacity)
    requires demand > capacity && (k == Cpu || demand - SumGuarantees(t, keys, k, capacity, request) < TWO63)
    requires a in keys && b in keys
    ensures Extra(t, keys, k, capacity, demand, request, a) * Unmet(t[b], k, capacity, request)
         <= (Extra(t, keys, k, capacity, demand, request, b) + 1) * Unmet(t[a], k, capacity, request)
  {
    var granted := SumGuarantees(t, keys, k, capacity, request);
    GrantedWithinCapacity(t, keys, active, k, capacity, demand, request);
    ExtraIs(t, keys, k, capacity, demand, request, a);
    ExtraIs(t, keys, k, capacity, demand, request, b);
    InProportion(capacity - granted, demand - granted,
      Extra(t, keys, k, capacity, demand, request, a), Unmet(t[a], k, capacity, request),
      Extra(t, keys, k, capacity, demand, request, b), Unmet(t[b], k, capacity, request));
  }

  lemma ExtraIs(t: Table, keys: seq<string>, k: Kind, capacity: int, demand: int, request: int, key: string)
    requires AllPassable(t, keys, k, capacity, demand, SumGuarantees(t, keys, k, capacity, request)) && key in keys
    requires demand == SumUsage(t, keys, k)
    requires demand - SumGuarantees(t, keys, k, capacity, request) < TWO63
    ensures var granted := SumGuarantees(t, keys, k, capacity, request);
      var c, d, e, s := capacity - granted, demand - granted, Unmet(t[key], k, capacity, request), Extra(t, keys, k, capacity, demand, request, key);
      c * e - d < d * s <= c * e && e >= 0
  {
    hide Spare, GuaranteeOf, Unmet, Extra, AllPassable, SumGuarantees, SumUsage;
    ExtraValue(t, keys, k, capacity, demand, request, key);
    var granted := SumGuarantees(t, keys, k, capacity, request);
    if capacity > granted {
      SpareExact(k, capacity - granted, demand - granted, Unmet(t[key], k, capacity, request));
    } else {
      assert (capacity - granted) * Unmet(t[key], k, capacity, request) == 0 && (demand - granted) * 0 == 0;
    }
  }

  lemma ExtraValue(t: Table, keys: seq<string>, k: Kind, capacity: int, demand: int, request: int, key: string)
    requires AllPassable(t, keys, k, capacity, demand, SumGuarantees(t, keys, k, capacity, request)) && key in keys
    requires demand == SumUsage(t, keys, k)
    requires demand - SumGuarantees(t, keys, k, capacity, request) < TWO63
    ensures key in t && forall key <- keys :: key in t
    ensures var granted := SumGuarantees(t, keys, k, capacity, request);
      var c, d, e := capacity - granted, demand - granted, Unmet(t[key], k, capacity, request);
      && 0 <= c < d && e >= 0 && (c > 0 && k == Cpu ==> c * e < TWO63)
      && Extra(t, keys, k, capacity, demand, request, key) == if c > 0 then Spare(k, c, d, e) else 0
  {
    hide Spare, Guarantee;
    UnmetAtMostTotal(t, keys, k, capacity, request, key);
    SharedPod(t[key], k, capacity, demand, request, SumGuarantees(t, keys, k, capacity, request));
  }

  lemma InProportion(c: int, d: int, x: int, ex: int, y: int, ey: int)
    requires d > 0 && ex >= 0 && ey >= 0 && d * x <= c * ex && c * ey - d < d * y
    ensures x * ey <= (y + 1) * ex
  {
    MulMonotone(d * x, c * ex, ey);
    assert d * (y + 1) == d * y + d;
    MulMonotone(c * ey, d * (y + 1), ex);
    assert d * (x * ey) == d * x * ey && c * ex * ey == c * ey * ex && d * (y + 1) * ex == d * ((y + 1) * ex);
    MulCancel(x * ey, (y + 1) * ex, d);
  }

  /** A node that is not overloaded leaves every pod what it uses. */
  lemma EnoughForAll(t: Table, keys: seq<string>, active: set<string>, capacity: Amounts, demand: Amounts, request: Amounts)
    requires Distinct(keys) && demand.cpu <= capacity.cpu && demand.mem <= capacity.mem
    requires NodeTotals(t, keys, active, Cpu, capacity.cpu, demand.cpu, request.cpu)
    requires NodeTotals(t, keys, active, Mem, capacity.mem, demand.mem, request.mem)
    ensures var v := SharedBoth(t, keys, capacity, demand, request);
      (forall key :: key in keys ==> v[key].allocation == t[key].usage) && CountSatisfied(v, keys) == |keys|
  {
    var v := SharedBoth(t, keys, capacity, demand, request);
    assert v == t;
    CountIsRest(v, keys);
    assert ShortPods(v, keys) == {};
  }

  // ----- All nodes -----

  /** The pods of a table that are short of CPU or of memory. */
  function ShortIn(t: Table): set<string> {
    set key | key in t && (Short(t[key], Cpu) || Short(t[key], Mem))
  }

  lemma OwnShort(j: NodeJob)
    requires Proper(j)
    ensures OwnQos(j) == OwnSize(j) - |ShortIn(Own(j))|
  {
    hide SharedBoth;
    JobIsLocal(j, map[]);
    assert forall key <- j.keys :: key in j.entries.Keys;
    CountIsRest(Own(j), j.keys);
    assert ShortPods(Own(j), j.keys) == ShortIn(Own(j));
  }

  /** The last node adds its own short pods. */
  lemma ShortStep(jobs: seq<NodeJob>)
    requires Apart(jobs) && jobs != []
    ensures var init, last := jobs[..|jobs| - 1], jobs[|jobs| - 1];
      |ShortIn(Build(jobs, map[]).table)| == |ShortIn(Build(init, map[]).table)| + |ShortIn(Own(last))|
  {
    hide SharedBoth, CountSatisfied, Allocated, ShortIn, Totalled;
    var init, last := jobs[..|jobs| - 1], jobs[|jobs| - 1];
    ApartFront(jobs);
    BuildIs(init, map[]);
    var before := Build(init, map[]).table;
    JobIsLocal(last, before);
    forall key | key in before ensures key !in Own(last) {
      var j :| j in init && key in j.entries;
      assert key in j.entries.Keys;
    }
    ShortTogether(before, Own(last));
  }

  lemma {:induction false} BuildShort(jobs: seq<NodeJob>)
    requires Apart(jobs) && forall j :: j in jobs ==> Proper(j)
    ensures SumBy(jobs, OwnQos) == SumBy(jobs, OwnSize) - |ShortIn(Build(jobs, map[]).table)|
  {
    hide Own, OwnQos, OwnSize, ShortIn, Proper;
    if jobs != [] {
      var init, last := jobs[..|jobs| - 1], jobs[|jobs| - 1];
      ApartFront(jobs);
      BuildShort(init);
      assert last in jobs;
      OwnShort(last);
      ShortStep(jobs);
    } else {
      NothingShort();
    }
  }

  lemma NothingShort()
    ensures ShortIn(map[]) == {}
  {
  }

  lemma ShortTogether(a: Table, b: Table)
    requires a.Keys !! b.Keys
    ensures |ShortIn(a + b)| == |ShortIn(a)| + |ShortIn(b)|
  {
    assert ShortIn(a + b) == ShortIn(a) + ShortIn(b) && ShortIn(a) !! ShortIn(b);
  }

  /** THEOREM.  However the workers of the nodes interleave, the quality of service they add up is the number
      of pods less those that are short of CPU or of memory in the shared table. */
  lemma WorkersLeaveOutShort(jobs: seq<NodeJob>, sched: seq<nat>)
    requires Apart(jobs) && forall j :: j in jobs ==> Proper(j)
    requires forall i: nat :: i < |jobs| ==> Turns(sched, i) >= |Program(jobs[i])|
    ensures var b := RunAll(jobs, Initial(jobs), sched).board; b.qos == b.num - |ShortIn(b.table)|
  {
    hide Program, RunAll, Build, Proper, ShortIn;
    WorkersBuild(jobs, sched);
    BuildIs(jobs, map[]);
    BuildShort(jobs);
  }
}
