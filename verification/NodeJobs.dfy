// The per-node part of `BuildMetrics` (pkg/metrics/metrics.go:266-308), one whole node after another.
//
// Every node has a worker that enters the node's pods into the shared `podsMetrics` map, shares the node's
// capacity among them, and adds the node's satisfied pods and its number of pods to shared counters.  A
// worker reads and writes nothing of another node's, so the order of the nodes makes no difference.  This
// is the reference for the workers themselves, whose single accesses interleave (NodeWorkers).

module NodeJobs {
  import opened Arithmetic
  import opened Allocation
  import opened FairShare

  /** One node's part of `BuildMetrics`: enter the node's pods, then allocate. */
  datatype NodeJob = NodeJob(name: string, entries: Table, keys: seq<string>, capacity: Amounts, demand: Amounts, request: Amounts)
  {
    ghost predicate Valid() {
      forall key :: key in keys <==> key in entries
    }

    function Perform(t: Table): Table
      requires Valid()
    {
      SharedBoth(t + entries, keys, capacity, demand, request)
    }
  }

  /** A node's job leaves the table as it does on its own entries alone. */
  lemma JobIsLocal(j: NodeJob, t: Table)
    requires j.Valid()
    ensures j.Perform(t) == t + j.Perform(map[])
    ensures j.Perform(map[]).Keys == j.entries.Keys
  {
    var a, b := t + j.entries, j.entries;
    assert map[] + j.entries == b;
    SharedIsLocal(j, Cpu, a, b, t);
    var u, v := Shared(a, j.keys, Cpu, j.capacity.cpu, j.demand.cpu, j.request.cpu),
                Shared(b, j.keys, Cpu, j.capacity.cpu, j.demand.cpu, j.request.cpu);
    SharedIsLocal(j, Mem, u, v, t);
  }

  lemma GrantedOnOwn(keys: seq<string>, k: Kind, a: Table, b: Table, capacity: int, request: int)
    requires forall key <- keys :: key in a && key in b && a[key] == b[key]
    ensures SumGuarantees(a, keys, k, capacity, request) == SumGuarantees(b, keys, k, capacity, request)
  {
    SumByEqual(keys, key => if key in a then GuaranteeOf(a[key], k, capacity, request) else 0,
                     key => if key in b then GuaranteeOf(b[key], k, capacity, request) else 0);
  }

  lemma SharedIsLocal(j: NodeJob, k: Kind, a: Table, b: Table, t: Table)
    requires j.Valid() && a == t + b && b.Keys == j.entries.Keys
    ensures Shared(a, j.keys, k, j.capacity.Get(k), j.demand.Get(k), j.request.Get(k))
         == t + Shared(b, j.keys, k, j.capacity.Get(k), j.demand.Get(k), j.request.Get(k))
  {
    hide Share, SumGuarantees;
    GrantedOnOwn(j.keys, k, a, b, j.capacity.Get(k), j.request.Get(k));
  }

  lemma CountOnOwn(keys: seq<string>, u: Table, v: Table)
    requires forall key <- keys :: key in u && key in v && u[key] == v[key]
    ensures CountSatisfied(u, keys) == CountSatisfied(v, keys)
  {
    SumByEqual(keys, key => if key in u && Satisfied(u[key]) then 1 else 0,
                     key => if key in v && Satisfied(v[key]) then 1 else 0);
  }

  // ----- Any number of nodes, in any order -----

  /** Every job is valid, nodes have different names, and no pod is on two nodes. */
  ghost predicate Apart(jobs: seq<NodeJob>) {
    && (forall i :: 0 <= i < |jobs| ==> jobs[i].Valid())
    && forall i, j :: 0 <= i < j < |jobs| ==> jobs[i].entries.Keys !! jobs[j].entries.Keys && jobs[i].name != jobs[j].name
  }

  /** After the jobs one after another: the shared map, the satisfied pods counted, the pods counted, and
      what each worker adds up as its node's allocation. */
  datatype Built = Built(table: Table, qos: int, num: int, totals: map<string, Amounts>)

  function Allocated(t: Table, keys: seq<string>): Amounts {
    Amounts(SumAllocations(t, keys, Cpu), SumAllocations(t, keys, Mem))
  }

  function Build(jobs: seq<NodeJob>, t: Table): Built
    requires forall j <- jobs :: j.Valid()
  {
    if jobs == [] then Built(t, 0, 0, map[]) else
      var before, j := Build(jobs[..|jobs| - 1], t), jobs[|jobs| - 1];
      var after := j.Perform(before.table);
      Built(after, before.qos + CountSatisfied(after, j.keys), before.num + |j.keys|,
            before.totals[j.name := Allocated(after, j.keys)])
  }

  /** What a job's pods make of themselves. */
  function Own(j: NodeJob): Table
    requires j.Valid()
  {
    j.Perform(map[])
  }

  ghost function OwnQos(j: NodeJob): int {
    if j.Valid() then CountSatisfied(Own(j), j.keys) else 0
  }

  function OwnSize(j: NodeJob): int { |j.keys| }

  /** `r` is `t` with every job's own pods entered. */
  ghost predicate Entered(jobs: seq<NodeJob>, t: Table, r: Table)
    requires forall j <- jobs :: j.Valid()
  {
    && (forall key :: key in r <==> key in t || exists j :: j in jobs && key in j.entries)
    && (forall j, key :: j in jobs && key in j.entries ==> key in r && key in Own(j) && r[key] == Own(j)[key])
    && (forall key :: key in t && (forall j :: j in jobs ==> key !in j.entries) ==> key in r && r[key] == t[key])
  }

  /** Every node has the total that its own pods make. */
  ghost predicate Totalled(jobs: seq<NodeJob>, m: map<string, Amounts>)
    requires forall j <- jobs :: j.Valid()
  {
    && (forall n :: n in m <==> exists j :: j in jobs && j.name == n)
    && forall j :: j in jobs ==> j.name in m && m[j.name] == Allocated(Own(j), j.keys)
  }

  lemma ApartFront(jobs: seq<NodeJob>)
    requires Apart(jobs) && jobs != []
    ensures Apart(jobs[..|jobs| - 1])
    ensures forall j :: j in jobs[..|jobs| - 1] ==> j.entries.Keys !! jobs[|jobs| - 1].entries.Keys && j.name != jobs[|jobs| - 1].name
  {
  }

  lemma EnteredStep(jobs: seq<NodeJob>, t: Table, r: Table)
    requires Apart(jobs) && jobs != [] && Entered(jobs[..|jobs| - 1], t, r)
    ensures var last := jobs[|jobs| - 1]; Entered(jobs, t, r + Own(last))
  {
    var init, last := jobs[..|jobs| - 1], jobs[|jobs| - 1];
    ApartFront(jobs);
    JobIsLocal(last, map[]);
    assert forall j :: j in jobs <==> j in init || j == last;
  }

  lemma TotalledStep(jobs: seq<NodeJob>, m: map<string, Amounts>)
    requires Apart(jobs) && jobs != [] && Totalled(jobs[..|jobs| - 1], m)
    ensures var last := jobs[|jobs| - 1]; Totalled(jobs, m[last.name := Allocated(Own(last), last.keys)])
  {
    hide SumAllocations, SharedBoth;
    var init, last := jobs[..|jobs| - 1], jobs[|jobs| - 1];
    ApartFront(jobs);
    assert forall j :: j in jobs <==> j in init || j == last;
  }

  /** A node has the same allocation added up, and the same pods counted as satisfied, whichever nodes went
      before it. */
  lemma JobKept(j: NodeJob, t: Table)
    requires j.Valid()
    ensures Allocated(j.Perform(t), j.keys) == Allocated(Own(j), j.keys) && CountSatisfied(j.Perform(t), j.keys) == OwnQos(j)
  {
    JobIsLocal(j, t);
    var u, v := j.Perform(t), Own(j);
    CountOnOwn(j.keys, u, v);
    forall k {
      SumByEqual(j.keys, key => if key in u then u[key].allocation.Get(k) else 0,
                         key => if key in v then v[key].allocation.Get(k) else 0);
    }
    assert SumAllocations(u, j.keys, Cpu) == SumAllocations(v, j.keys, Cpu);
    assert SumAllocations(u, j.keys, Mem) == SumAllocations(v, j.keys, Mem);
  }

  /** Each job leaves the shared map, and counts, as it would alone. */
  lemma {:induction false} BuildIs(jobs: seq<NodeJob>, t: Table)
    requires Apart(jobs)
    ensures var b := Build(jobs, t);
      Entered(jobs, t, b.table) && Totalled(jobs, b.totals) && b.qos == SumBy(jobs, OwnQos) && b.num == SumBy(jobs, OwnSize)
  {
    hide Entered, Totalled, CountSatisfied, Allocated;
    if jobs == [] {
      BuildNone(t);
    } else {
      var init, last := jobs[..|jobs| - 1], jobs[|jobs| - 1];
      ApartFront(jobs);
      BuildIs(init, t);
      var before := Build(init, t);
      JobIsLocal(last, before.table);
      JobKept(last, before.table);
      EnteredStep(jobs, t, before.table);
      TotalledStep(jobs, before.totals);
    }
  }

  lemma BuildNone(t: Table)
    ensures Entered([], t, t) && Totalled([], map[])
  {
  }

  lemma EnteredOnce(a: seq<NodeJob>, b: seq<NodeJob>, t: Table, r: Table, s: Table)
    requires (forall j <- a :: j.Valid()) && (forall j <- b :: j.Valid()) && forall j :: j in a <==> j in b
    requires Entered(a, t, r) && Entered(b, t, s)
    ensures r == s
  {
    forall key | key in r ensures r[key] == s[key] {
      if exists j :: j in a && key in j.entries {
        var j :| j in a && key in j.entries;
        assert r[key] == Own(j)[key] == s[key];
      }
    }
  }

  lemma TotalledOnce(a: seq<NodeJob>, b: seq<NodeJob>, m: map<string, Amounts>, n: map<string, Amounts>)
    requires (forall j <- a :: j.Valid()) && (forall j <- b :: j.Valid()) && forall j :: j in a <==> j in b
    requires Totalled(a, m) && Totalled(b, n)
    ensures m == n
  {
  }

  lemma SameJobs(a: seq<NodeJob>, b: seq<NodeJob>)
    requires multiset(a) == multiset(b)
    ensures forall j :: j in a <==> j in b
  {
    forall j ensures j in a <==> j in b {
      assert j in a <==> j in multiset(a);
      assert j in b <==> j in multiset(b);
    }
  }

  /** THEOREM.  In whatever order any number of nodes are taken, the shared map, the quality of service and
      the number of pods are the same, and so is every node's total allocation. */
  lemma BuildDeterministic(a: seq<NodeJob>, b: seq<NodeJob>, t: Table)
    requires Apart(a) && Apart(b) && multiset(a) == multiset(b)
    ensures Build(a, t) == Build(b, t)
  {
    SameJobs(a, b);
    BuildIs(a, t);
    BuildIs(b, t);
    SumByPermuted(a, b, OwnQos);
    SumByPermuted(a, b, OwnSize);
    TotalledOnce(a, b, Build(a, t).totals, Build(b, t).totals);
    EnteredOnce(a, b, t, Build(a, t).table, Build(b, t).table);
  }
}
