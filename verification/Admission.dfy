// Admission by estimated usage: the penalty and the estimate (pkg/scheduler/scheduler.go), the resource
// filter (experiments/extender.go), and what they guarantee over a whole round.

module Admission {
  import opened Arithmetic
  import opened Prelude
  import opened Pods
  import opened Victims
  import opened Allocation
  import opened Scheduling
  import opened Rounds

  // ----- The estimate -----

  const MAX_PENALTY: real := 3.0
  const MIN_PENALTY: real := 1.1
  const PENALTY_UPDATE: real := 0.99

  function MinReal(a: real, b: real): real {
    if a < b then a else b
  }

  function MaxReal(a: real, b: real): real {
    if a > b then a else b
  }

  /** Penalty rule 5 on (PredictionPenalty, penaltyUpdated). */
  function UpdatePenalty(penalty: real, updated: bool, prevQoS: real, qos: real, target: real): (real, bool) {
    if qos < target then
      if updated || qos < prevQoS * 0.99 then (MinReal(penalty + (penalty - 1.0), MAX_PENALTY), false) else (penalty, updated)
    else if qos > target then (MaxReal(penalty * PENALTY_UPDATE, MIN_PENALTY), true)
    else (penalty, updated)
  }

  /** `usage * int64(penalty * 100) / 100`. */
  function Scale(usage: int, penalty: real): int {
    TruncDiv(usage * (penalty * 100.0).Floor, 100)
  }

  /** The metrics of a node, zero for a node the metrics do not list. */
  function MeasuredOf(metrics: map<string, NodeMetrics>, node: string): NodeMetrics {
    if node in metrics then metrics[node] else NodeMetrics(Amounts(0, 0), Amounts(0, 0))
  }

  function EstimateOf(m: NodeMetrics, penalty: real): NodeMetrics {
    m.(usage := Amounts(Scale(m.usage.cpu, penalty), Scale(m.usage.mem, penalty)))
  }

  /** The package's global variables. */
  class Estimator {
    const target: real
    var penalty: real
    var updated: bool
    var prevQoS: real

    constructor (target: real, penalty: real)
      ensures this.target == target && this.penalty == penalty && !updated && prevQoS == 1.0
    {
      this.target, this.penalty, updated, prevQoS := target, penalty, false, 1.0;
    }

    /** `Estimate`. */
    method Estimate(nodeNames: seq<string>, metrics: map<string, NodeMetrics>, qos: real) returns (cache: Cache)
      modifies this
      ensures (penalty, updated) == UpdatePenalty(old(penalty), old(updated), old(prevQoS), qos, target) && prevQoS == qos
      ensures qos < target && 1.0 <= old(penalty) <= MAX_PENALTY ==> old(penalty) <= penalty <= MAX_PENALTY
      ensures qos < target && (old(updated) || qos < 0.99 * old(prevQoS)) && 1.0 < old(penalty) < MAX_PENALTY ==> old(penalty) < penalty
      ensures qos > target && MIN_PENALTY < old(penalty) ==> MIN_PENALTY <= penalty < old(penalty)
      ensures qos > target && 0.0 <= old(penalty) <= MIN_PENALTY ==> penalty == MIN_PENALTY
      ensures qos == target ==> penalty == old(penalty) && updated == old(updated)
      ensures cache == map n | n in nodeNames :: EstimateOf(MeasuredOf(metrics, n), penalty)
    {
      if qos < target {
        if updated || qos < prevQoS * 0.99 {
          penalty := penalty + (penalty - 1.0);
          penalty := MinReal(penalty, MAX_PENALTY);
          updated := false;
        }
      } else if qos > target {
        penalty := MaxReal(penalty * PENALTY_UPDATE, MIN_PENALTY);
        updated := true;
      }
      prevQoS := qos;
      cache := map[];
      for i := 0 to |nodeNames|
        invariant cache == map n | n in nodeNames[..i] :: EstimateOf(MeasuredOf(metrics, n), penalty)
      {
        assert nodeNames[..i + 1] == nodeNames[..i] + [nodeNames[i]];
        var m := MeasuredOf(metrics, nodeNames[i]);
        var usage := Amounts(Scale(m.usage.cpu, penalty), Scale(m.usage.mem, penalty));
        cache := cache[nodeNames[i] := NodeMetrics(usage, m.allocatable)];
      }
      assert nodeNames[..|nodeNames|] == nodeNames;
    }
  }

  /** One tick's quality of service, and the penalty after any number of ticks. */
  function Penalty(penalty: real, updated: bool, prevQoS: real, target: real, qoses: seq<real>): real
    decreases qoses
  {
    if qoses == [] then penalty else
      var (p, u) := UpdatePenalty(penalty, updated, prevQoS, qoses[0], target);
      Penalty(p, u, qoses[0], target, qoses[1..])
  }

  /** THEOREM.  Whatever the quality of service does, a penalty that starts in [1, 3] stays there, and one
      that starts in [1.1, 3] stays there. */
  lemma {:induction false} PenaltyStaysInRange(penalty: real, updated: bool, prevQoS: real, target: real, qoses: seq<real>)
    requires 1.0 <= penalty <= MAX_PENALTY
    ensures 1.0 <= Penalty(penalty, updated, prevQoS, target, qoses) <= MAX_PENALTY
    ensures MIN_PENALTY <= penalty ==> MIN_PENALTY <= Penalty(penalty, updated, prevQoS, target, qoses)
    decreases qoses
  {
    if qoses != [] {
      var (p, u) := UpdatePenalty(penalty, updated, prevQoS, qoses[0], target);
      PenaltyStaysInRange(p, u, qoses[0], target, qoses[1..]);
    }
  }

  /** Which way one tick moves the penalty: a quality of service below the target never lowers it, and
      raises it if it was lowered last or the quality fell by more than a hundredth; one above the target
      never raises a penalty of at least 1.1, and lowers any above; at the target nothing changes. */
  lemma PenaltyMoves(penalty: real, updated: bool, prevQoS: real, target: real, qos: real)
    requires 1.0 <= penalty <= MAX_PENALTY
    ensures var p := Penalty(penalty, updated, prevQoS, target, [qos]);
      && (qos < target ==> penalty <= p)
      && (qos < target && (updated || qos < 0.99 * prevQoS) && 1.0 < penalty < MAX_PENALTY ==> penalty < p)
      && (qos > target && penalty >= MIN_PENALTY ==> p <= penalty)
      && (qos > target && penalty > MIN_PENALTY ==> p < penalty)
      && (qos == target ==> p == penalty)
  {
    var (p, u) := UpdatePenalty(penalty, updated, prevQoS, qos, target);
    assert Penalty(p, u, qos, target, []) == p;
  }

  /** After a tick above the target, one below it raises the penalty by what it was above 1. */
  lemma PenaltyRises(penalty: real, updated: bool, prevQoS: real, target: real, above: real, below: real)
    requires 1.0 <= penalty <= MAX_PENALTY && above > target > below
    ensures var p := Penalty(penalty, updated, prevQoS, target, [above]);
      Penalty(penalty, updated, prevQoS, target, [above, below]) == MinReal(p + (p - 1.0), MAX_PENALTY) > p
  {
    var (p, u) := UpdatePenalty(penalty, updated, prevQoS, above, target);
    assert [above, below][1..] == [below] && [above][1..] == [] && [below][1..] == [];
    assert Penalty(p, u, above, target, []) == p;
    var (r, v) := UpdatePenalty(p, u, above, below, target);
    assert Penalty(r, v, below, target, []) == r;
  }

  /** It is raised once: while the quality stays where it is, nothing more happens. */
  lemma PenaltyRaisedOnce(penalty: real, updated: bool, prevQoS: real, target: real, below: real)
    requires 0.0 <= below < target && (updated || below < prevQoS * 0.99)
    ensures Penalty(penalty, updated, prevQoS, target, [below, below]) == Penalty(penalty, updated, prevQoS, target, [below])
  {
    var (p, u) := UpdatePenalty(penalty, updated, prevQoS, below, target);
    assert [below, below][1..] == [below] && [below][1..] == [];
    assert Penalty(p, u, below, target, [below]) == p by {
      var (r, v) := UpdatePenalty(p, u, below, below, target);
      assert Penalty(r, v, below, target, []) == r;
    }
    assert Penalty(p, u, below, target, []) == p;
  }

  /** THEOREM.  As long as the quality of service stays above the target, the penalty falls by at least
      0.011 a tick until it is 1.1, and stays there: after `n` ticks from `penalty` with 0.011 n at least
      penalty - 1.1, and so after 173 ticks from anywhere in its range. */
  lemma {:induction false} PenaltySettles(penalty: real, updated: bool, prevQoS: real, target: real, qoses: seq<real>)
    requires 1.0 <= penalty <= MAX_PENALTY && forall i :: 0 <= i < |qoses| ==> qoses[i] > target
    requires |qoses| > 0 && |qoses| as real * 0.011 >= penalty - MIN_PENALTY
    ensures Penalty(penalty, updated, prevQoS, target, qoses) == MIN_PENALTY
    decreases qoses
  {
    var (p, u) := UpdatePenalty(penalty, updated, prevQoS, qoses[0], target);
    if |qoses| > 1 {
      PenaltySettles(p, u, qoses[0], target, qoses[1..]);
    } else {
      assert Penalty(p, u, qoses[0], target, []) == p;
    }
  }

  /** A penalty of at least 1 never estimates below what was measured. */
  lemma EstimateAboveMeasured(usage: int, penalty: real)
    requires usage >= 0 && penalty >= 1.0
    ensures Scale(usage, penalty) >= usage
  {
    var f := (penalty * 100.0).Floor;
    assert f >= 100;
    ShareAbove(f, usage, 100);
    assert f * usage == usage * f;
  }

  /** Nor does it estimate more than the penalty allows, in hundredths rounded down. */
  lemma EstimateAtMostScaled(usage: int, penalty: real)
    requires usage >= 0 && penalty >= 1.0
    ensures 100 * Scale(usage, penalty) <= usage * (100.0 * penalty).Floor < 100 * Scale(usage, penalty) + 100
  {
    var f := (penalty * 100.0).Floor;
    assert f == (100.0 * penalty).Floor;
    MulNonneg(usage, f);
    DivBounds(usage * f, 100);
  }

  // ----- The resource filter -----

  /** The node has room for the pod by its estimate, or no estimate is cached. */
  predicate Admits(cache: Cache, pod: PodInfo, node: string) {
    node in cache ==>
      && cache[node].allocatable.cpu - cache[node].usage.cpu - pod.cpu >= 0
      && cache[node].allocatable.mem - cache[node].usage.mem - pod.memory >= 0
  }

  /** The admitted nodes in order.  The empty name marks a refused slot, so a node of that name is lost. */
  function Admitted(pod: PodInfo, names: seq<string>, cache: Cache): seq<string> {
    if names == [] then [] else
      var n := names[|names| - 1];
      Admitted(pod, names[..|names| - 1], cache) + if n != "" && Admits(cache, pod, n) then [n] else []
  }

  /** `filterFitResource`: workers fill the slots in whatever order `sched` says, then the index loop
      collects the names. */
  method FilterFitResource(pod: PodInfo, names: seq<string>, cache: Cache, sched: seq<nat>) returns (r: ExtenderResult)
    requires (forall k :: 0 <= k < |sched| ==> sched[k] < |names|) && forall i: nat :: i < |names| ==> i in sched
    ensures r == ExtenderResult(Admitted(pod, names, cache), false)
    ensures forall n :: n in r.names <==> n in names && n != "" && HasRoom(cache, pod, n)
  {
    AdmittedAreAdmitted(pod, names, cache);
    var filtered := new string[|names|];
    for k := 0 to |sched|
      invariant forall i: nat :: i < |names| && i in sched[..k] ==> filtered[i] == if Admits(cache, pod, names[i]) then names[i] else ""
    {
      assert sched[..k + 1] == sched[..k] + [sched[k]];
      var i := sched[k];
      if names[i] in cache {
        var usage, capacity := cache[names[i]].usage, cache[names[i]].allocatable;
        if capacity.cpu - usage.cpu - pod.cpu < 0 || capacity.mem - usage.mem - pod.memory < 0 {
          filtered[i] := "";
        } else {
          filtered[i] := names[i];
        }
      } else {
        filtered[i] := names[i];
      }
    }
    assert sched[..|sched|] == sched;
    var nodeNames: seq<string> := [];
    for i := 0 to |names|
      invariant nodeNames == Admitted(pod, names[..i], cache)
    {
      assert names[..i + 1][..i] == names[..i];
      if filtered[i] != "" {
        nodeNames := nodeNames + [filtered[i]];
      }
    }
    assert names[..|names|] == names;
    r := ExtenderResult(nodeNames, false);
  }

  /** The estimated usage with the pod's requests is within the allocatable amounts, if there is an estimate. */
  ghost predicate HasRoom(cache: Cache, pod: PodInfo, n: string) {
    n !in cache ||
    (cache[n].usage.cpu + pod.cpu <= cache[n].allocatable.cpu && cache[n].usage.mem + pod.memory <= cache[n].allocatable.mem)
  }

  /** Exactly the nodes with room, and a name, are admitted. */
  lemma {:induction false} AdmittedAreAdmitted(pod: PodInfo, names: seq<string>, cache: Cache)
    ensures forall n :: n in Admitted(pod, names, cache) <==> n in names && n != "" && HasRoom(cache, pod, n)
    ensures forall n :: Admits(cache, pod, n) <==> HasRoom(cache, pod, n)
  {
    if names != [] {
      AdmittedAreAdmitted(pod, names[..|names| - 1], cache);
      assert forall n :: n in names <==> n in names[..|names| - 1] || n == names[|names| - 1];
    }
  }

  /** The admitted nodes keep their order. */
  lemma {:induction false} AdmittedSplits(pod: PodInfo, a: seq<string>, b: seq<string>, cache: Cache)
    ensures Admitted(pod, a + b, cache) == Admitted(pod, a, cache) + Admitted(pod, b, cache)
  {
    if b == [] {
      assert a + b == a;
    } else {
      AdmittedSplits(pod, a, b[..|b| - 1], cache);
      assert (a + b)[..|a + b| - 1] == a + b[..|b| - 1];
    }
  }

  // ----- Configurations with the filter -----

  /** An extender that names admitted nodes only. */
  ghost predicate Guards(e: Extender) {
    e.filter.Some? && forall pod, names, cache, n :: n in e.filter.value(pod, names, cache).names ==> Admits(cache, pod, n)
  }

  /** An extender that names no node it was not given. */
  ghost predicate Narrows(e: Extender) {
    e.filter.Some? ==> forall pod, names, cache, n :: n in e.filter.value(pod, names, cache).names ==> n in names
  }

  ghost predicate AllNarrow(es: seq<Extender>) {
    forall e :: e in es ==> Narrows(e)
  }

  /** One extender guards, and none after it adds nodes. */
  ghost predicate Guarded(es: seq<Extender>) {
    es != [] && ((Guards(es[0]) && AllNarrow(es[1..])) || Guarded(es[1..]))
  }

  /** `filterFitResource` as an extender. */
  function FitResource(weight: int, ignorable: bool): Extender {
    Extender(Some((pod, names, cache) => ExtenderResult(Admitted(pod, names, cache), false)), None, weight, ignorable)
  }

  lemma FitResourceGuards(weight: int, ignorable: bool)
    ensures Guards(FitResource(weight, ignorable)) && Narrows(FitResource(weight, ignorable))
    ensures Guarded([FitResource(weight, ignorable)])
  {
    forall pod, names, cache
      ensures forall n :: n in Admitted(pod, names, cache) <==> n in names && n != "" && Admits(cache, pod, n)
    {
      AdmittedAreAdmitted(pod, names, cache);
    }
  }

  lemma {:induction false} NarrowKeepsAdmitted(es: seq<Extender>, pod: PodInfo, nodes: seq<string>, infos: Infos, cache: Cache)
    requires AllNarrow(es) && ExtendAll(es, pod, nodes, infos, cache).Some?
    ensures forall n :: n in ExtendAll(es, pod, nodes, infos, cache).value ==> n in nodes
    decreases es
  {
    if es != [] && nodes != [] {
      assert es[0] in es && forall e :: e in es[1..] ==> e in es;
      NarrowKeepsAdmitted(es[1..], pod, Extend(es[0], pod, nodes, infos, cache).value, infos, cache);
    }
  }

  lemma {:induction false} GuardedAdmits(es: seq<Extender>, pod: PodInfo, nodes: seq<string>, infos: Infos, cache: Cache)
    requires Guarded(es) && ExtendAll(es, pod, nodes, infos, cache).Some?
    ensures forall n :: n in ExtendAll(es, pod, nodes, infos, cache).value ==> Admits(cache, pod, n)
    decreases es
  {
    if nodes != [] {
      var r := Extend(es[0], pod, nodes, infos, cache).value;
      if Guards(es[0]) && AllNarrow(es[1..]) {
        NarrowKeepsAdmitted(es[1..], pod, r, infos, cache);
      } else {
        GuardedAdmits(es[1..], pod, r, infos, cache);
      }
    }
  }

  /** The host chosen for a pod has room for it by its estimate. */
  lemma DecidedIsAdmitted(cfg: Config, pod: PodInfo, nodes: seq<string>, st: RoundState)
    requires InPlace(cfg) && Known(nodes, st.infos) && Guarded(cfg.extenders)
    ensures var d := DecideFor(cfg, pod, nodes, st); d.Host? ==> Admits(st.cache, pod, d.name)
  {
    DecidedIsFiltered(cfg, pod, nodes, st.infos, st.cache, NoNominated());
    var outcome := Outcome(cfg, pod, st.infos, NoNominated());
    var first := if cfg.preds == [] then nodes else Filter.Passing(nodes, outcome);
    if DecideFor(cfg, pod, nodes, st).Host? {
      GuardedAdmits(cfg.extenders, pod, first, st.infos, st.cache);
    }
  }

  // ----- A whole round -----

  /** The requests bound to a node. */
  function RequestsBoundTo(pods: map<Key, PodInfo>, binds: seq<Bound>, node: string): Amounts
    requires forall b :: b in binds ==> b.key in pods
  {
    if binds == [] then Amounts(0, 0) else
      var rest := RequestsBoundTo(pods, binds[1..], node);
      if binds[0].host == node then
        Amounts(rest.cpu + pods[binds[0].key].cpu, rest.mem + pods[binds[0].key].memory)
      else rest
  }

  ghost predicate Receives(binds: seq<Bound>, node: string) {
    exists i :: 0 <= i < |binds| && binds[i].host == node
  }

  /** The books on one node after some bindings: charged with exactly their requests, and within its
      allocatable amounts if it received any. */
  ghost predicate Balanced(before: NodeMetrics, after: NodeMetrics, bound: Amounts, receives: bool) {
    && after.allocatable == before.allocatable
    && after.usage == Amounts(before.usage.cpu + bound.cpu, before.usage.mem + bound.mem)
    && (receives ==> after.usage.cpu <= after.allocatable.cpu && after.usage.mem <= after.allocatable.mem)
  }

  lemma BindKeysKnown(cfg: Config, nodes: seq<string>, pods: map<Key, PodInfo>, todo: seq<Key>, st: RoundState, fails: nat, timeout: nat)
    requires InPlace(cfg) && Known(nodes, st.infos) && forall k :: k in todo ==> k in pods
    ensures forall b :: b in Round(cfg, nodes, pods, todo, st, fails, timeout).binds ==> b.key in pods
    decreases |todo|
  {
    if todo != [] {
      var d := DecideFor(cfg, pods[todo[0]], nodes, st);
      if d.Host? {
        BindKeysKnown(cfg, nodes, pods, todo[1..], Account(st, pods[todo[0]], d.name), fails, timeout);
      } else if fails + 1 <= timeout {
        BindKeysKnown(cfg, nodes, pods, todo[1..], st, fails + 1, timeout);
      }
    }
  }

  /** Charging an admitting node, then balanced books, are balanced books for both. */
  lemma ChargeThenBalanced(before: NodeMetrics, middle: NodeMetrics, after: NodeMetrics, pod: PodInfo, rest: Amounts, more: bool)
    requires middle == before.(usage := Amounts(before.usage.cpu + pod.cpu, before.usage.mem + pod.memory))
    requires before.allocatable.cpu - before.usage.cpu - pod.cpu >= 0 && before.allocatable.mem - before.usage.mem - pod.memory >= 0
    requires Balanced(middle, after, rest, more) && (!more ==> rest == Amounts(0, 0))
    ensures Balanced(before, after, Amounts(rest.cpu + pod.cpu, rest.mem + pod.memory), true)
  {
  }

  lemma {:induction false} NothingBound(pods: map<Key, PodInfo>, binds: seq<Bound>, node: string)
    requires (forall b :: b in binds ==> b.key in pods) && !Receives(binds, node)
    ensures RequestsBoundTo(pods, binds, node) == Amounts(0, 0)
  {
    if binds != [] {
      assert binds[0].host != node;
      assert forall i :: 0 <= i < |binds[1..]| ==> binds[1..][i] == binds[i + 1];
      NothingBound(pods, binds[1..], node);
    }
  }

  lemma ReceivesCons(b: Bound, binds: seq<Bound>, node: string)
    ensures Receives([b] + binds, node) <==> b.host == node || Receives(binds, node)
  {
    var all := [b] + binds;
    if Receives(binds, node) {
      var i :| 0 <= i < |binds| && binds[i].host == node;
      assert all[i + 1].host == node;
    }
    if b.host == node { assert all[0].host == node; }
  }

  /** THEOREM.  With an extender that admits by estimated usage, every node cached at the start of a round
      ends it charged with exactly the requests bound to it, and within its allocatable CPU and memory if
      any pod was bound to it. */
  lemma {:induction false} RoundStaysWithinEstimates(cfg: Config, nodes: seq<string>, pods: map<Key, PodInfo>, todo: seq<Key>, st: RoundState, fails: nat, timeout: nat, node: string)
    requires InPlace(cfg) && Known(nodes, st.infos) && (forall k :: k in todo ==> k in pods)
    requires Guarded(cfg.extenders) && node in st.cache
    ensures var r := Round(cfg, nodes, pods, todo, st, fails, timeout);
      && (forall b :: b in r.binds ==> b.key in pods) && node in r.state.cache
      && Balanced(st.cache[node], r.state.cache[node], RequestsBoundTo(pods, r.binds, node), Receives(r.binds, node))
    decreases |todo|
  {
    BindKeysKnown(cfg, nodes, pods, todo, st, fails, timeout);
    if todo != [] {
      var pod := pods[todo[0]];
      var d := DecideFor(cfg, pod, nodes, st);
      if d.Host? {
        var next := Account(st, pod, d.name);
        DecidedIsAdmitted(cfg, pod, nodes, st);
        RoundStaysWithinEstimates(cfg, nodes, pods, todo[1..], next, fails, timeout, node);
        BindBalanced(pods, st, next, Round(cfg, nodes, pods, todo[1..], next, fails, timeout), todo[0], d.name, node);
      } else if fails + 1 <= timeout {
        RoundStaysWithinEstimates(cfg, nodes, pods, todo[1..], st, fails + 1, timeout, node);
      }
    }
  }

  lemma BindBalanced(pods: map<Key, PodInfo>, st: RoundState, next: RoundState, r: RoundResult, key: Key, host: string, node: string)
    requires key in pods && host in st.infos && next == Account(st, pods[key], host)
    requires node in st.cache && node in next.cache && node in r.state.cache && Admits(st.cache, pods[key], host)
    requires forall b :: b in r.binds ==> b.key in pods
    requires Balanced(next.cache[node], r.state.cache[node], RequestsBoundTo(pods, r.binds, node), Receives(r.binds, node))
    ensures var binds := [Bound(key, host)] + r.binds;
      && (forall b :: b in binds ==> b.key in pods)
      && Balanced(st.cache[node], r.state.cache[node], RequestsBoundTo(pods, binds, node), Receives(binds, node))
  {
    var binds := [Bound(key, host)] + r.binds;
    assert binds[1..] == r.binds;
    ReceivesCons(Bound(key, host), r.binds, node);
    if !Receives(r.binds, node) { NothingBound(pods, r.binds, node); }
    if host == node {
      ChargeThenBalanced(st.cache[node], next.cache[node], r.state.cache[node], pods[key], RequestsBoundTo(pods, r.binds, node), Receives(r.binds, node));
    }
  }

  ghost predicate ReceivesTwice(binds: seq<Bound>, node: string) {
    exists i, j :: 0 <= i < j < |binds| && binds[i].host == binds[j].host == node
  }

  lemma ReceivesTwiceCons(b: Bound, binds: seq<Bound>, node: string)
    ensures ReceivesTwice([b] + binds, node) ==> if b.host == node then Receives(binds, node) else ReceivesTwice(binds, node)
  {
    var all := [b] + binds;
    if ReceivesTwice(all, node) {
      var i, j :| 0 <= i < j < |all| && all[i].host == all[j].host == node;
      assert binds[j - 1].host == node;
      if b.host != node { assert binds[i - 1].host == node; }
    }
  }

  /** The books on a node that was not cached: it is entered when it receives its first pod, which no
      estimate stands against, and charged with exactly what is bound to it; from its second pod on it is
      within its capacity. */
  ghost predicate Opened(before: RoundState, after: RoundState, node: string, bound: Amounts, binds: seq<Bound>) {
    && (!Receives(binds, node) ==> node !in after.cache)
    && (Receives(binds, node) ==>
          && node in before.infos && node in after.cache
          && after.cache[node] == NodeMetrics(bound, Amounts(before.infos[node].cpu, before.infos[node].memory)))
    && (ReceivesTwice(binds, node) ==> bound.cpu <= before.infos[node].cpu && bound.mem <= before.infos[node].memory)
  }

  /** THEOREM.  With an extender that admits by estimated usage, a node that was not cached at the start of a
      round keeps the requests bound to it in the round within its capacity if it receives two pods or
      more. */
  lemma {:induction false} UncachedStaysWithin(cfg: Config, nodes: seq<string>, pods: map<Key, PodInfo>, todo: seq<Key>, st: RoundState, fails: nat, timeout: nat, node: string)
    requires InPlace(cfg) && Known(nodes, st.infos) && (forall k :: k in todo ==> k in pods)
    requires Guarded(cfg.extenders) && node !in st.cache
    ensures var r := Round(cfg, nodes, pods, todo, st, fails, timeout);
      && (forall b :: b in r.binds ==> b.key in pods)
      && Opened(st, r.state, node, RequestsBoundTo(pods, r.binds, node), r.binds)
    decreases |todo|
  {
    BindKeysKnown(cfg, nodes, pods, todo, st, fails, timeout);
    if todo != [] {
      var pod := pods[todo[0]];
      var d := DecideFor(cfg, pod, nodes, st);
      if d.Host? {
        var next := Account(st, pod, d.name);
        var r := Round(cfg, nodes, pods, todo[1..], next, fails, timeout);
        if d.name == node {
          RoundStaysWithinEstimates(cfg, nodes, pods, todo[1..], next, fails, timeout, node);
          OpensNode(pods, st, r, todo[0], node);
        } else {
          UncachedStaysWithin(cfg, nodes, pods, todo[1..], next, fails, timeout, node);
          OpensOther(pods, st, r, todo[0], d.name, node);
        }
      } else if fails + 1 <= timeout {
        UncachedStaysWithin(cfg, nodes, pods, todo[1..], st, fails + 1, timeout, node);
      }
    }
  }

  lemma OpensNode(pods: map<Key, PodInfo>, st: RoundState, r: RoundResult, key: Key, node: string)
    requires key in pods && node in st.infos && node !in st.cache && node in r.state.cache
    requires forall b :: b in r.binds ==> b.key in pods
    requires var next := Account(st, pods[key], node);
      Balanced(next.cache[node], r.state.cache[node], RequestsBoundTo(pods, r.binds, node), Receives(r.binds, node))
    ensures var binds := [Bound(key, node)] + r.binds;
      (forall b :: b in binds ==> b.key in pods) && Opened(st, r.state, node, RequestsBoundTo(pods, binds, node), binds)
  {
    var binds := [Bound(key, node)] + r.binds;
    assert binds[1..] == r.binds;
    ReceivesCons(Bound(key, node), r.binds, node);
    ReceivesTwiceCons(Bound(key, node), r.binds, node);
  }

  lemma OpensOther(pods: map<Key, PodInfo>, st: RoundState, r: RoundResult, key: Key, host: string, node: string)
    requires key in pods && host in st.infos && host != node && forall b :: b in r.binds ==> b.key in pods
    requires Opened(Account(st, pods[key], host), r.state, node, RequestsBoundTo(pods, r.binds, node), r.binds)
    ensures var binds := [Bound(key, host)] + r.binds;
      (forall b :: b in binds ==> b.key in pods) && Opened(st, r.state, node, RequestsBoundTo(pods, binds, node), binds)
  {
    var binds := [Bound(key, host)] + r.binds;
    assert binds[1..] == r.binds;
    ReceivesCons(Bound(key, host), r.binds, node);
    ReceivesTwiceCons(Bound(key, host), r.binds, node);
  }

  /** THEOREM.  If the cache was estimated with a penalty of at least 1, a node that receives a pod keeps
      its last measured usage plus everything bound to it this round within its allocatable amounts. */
  lemma RoundStaysWithinMeasured(cfg: Config, nodes: seq<string>, pods: map<Key, PodInfo>, todo: seq<Key>, st: RoundState, timeout: nat, node: string, measured: NodeMetrics, penalty: real)
    requires InPlace(cfg) && Known(nodes, st.infos) && (forall k :: k in todo ==> k in pods)
    requires Guarded(cfg.extenders) && node in st.cache && st.cache[node] == EstimateOf(measured, penalty)
    requires penalty >= 1.0 && measured.usage.cpu >= 0 && measured.usage.mem >= 0
    ensures var r := Round(cfg, nodes, pods, todo, st, 0, timeout);
      && (forall b :: b in r.binds ==> b.key in pods)
      && (Receives(r.binds, node) ==>
            && measured.usage.cpu + RequestsBoundTo(pods, r.binds, node).cpu <= measured.allocatable.cpu
            && measured.usage.mem + RequestsBoundTo(pods, r.binds, node).mem <= measured.allocatable.mem)
  {
    RoundStaysWithinEstimates(cfg, nodes, pods, todo, st, 0, timeout, node);
    EstimateAboveMeasured(measured.usage.cpu, penalty);
    EstimateAboveMeasured(measured.usage.mem, penalty);
  }

  /** With `filterFitResource` as the extender, and a penalty of at least 1 when the cache was estimated, a
      node that receives pods keeps its last measured usage plus everything bound to it this round within
      its allocatable amounts. */
  lemma FitResourceKeepsMeasured(
    cfg: Config, weight: int, ignorable: bool, nodes: seq<string>, pods: map<Key, PodInfo>, todo: seq<Key>, st: RoundState,
    timeout: nat, node: string, measured: NodeMetrics, penalty: real)
    requires InPlace(cfg) && Known(nodes, st.infos) && (forall k :: k in todo ==> k in pods)
    requires cfg.extenders == [FitResource(weight, ignorable)]
    requires node in st.cache && st.cache[node] == EstimateOf(measured, penalty)
    requires penalty >= 1.0 && measured.usage.cpu >= 0 && measured.usage.mem >= 0
    ensures var r := Round(cfg, nodes, pods, todo, st, 0, timeout);
      && (forall b :: b in r.binds ==> b.key in pods)
      && (Receives(r.binds, node) ==>
            && measured.usage.cpu + RequestsBoundTo(pods, r.binds, node).cpu <= measured.allocatable.cpu
            && measured.usage.mem + RequestsBoundTo(pods, r.binds, node).mem <= measured.allocatable.mem)
  {
    FitResourceGuards(weight, ignorable);
    RoundStaysWithinMeasured(cfg, nodes, pods, todo, st, timeout, node, measured, penalty);
  }
}
