// One scheduling decision (`scheduleOne` with `filter` and `prioritize` in
// pkg/scheduler/generic_scheduler.go, extenders in pkg/scheduler/extender.go).

module Scheduling {
  import opened Prelude
  import opened Pods
  import opened Victims
  import opened Workers
  import opened Allocation
  import Filter = ParallelFilter
  import opened Scores = ParallelScores

  datatype NodeMetrics = NodeMetrics(usage: Amounts, allocatable: Amounts)

  /** NodeMetricsCache: estimated usage of each node, plus what was bound to it since. */
  type Cache = map<string, NodeMetrics>

  type Infos = map<string, NodeInfo>

  datatype ExtenderResult = ExtenderResult(names: seq<string>, error: bool)

  /** An extender that is node-cache capable: it is given node names. */
  datatype Extender = Extender(
    filter: Option<(PodInfo, seq<string>, Cache) -> ExtenderResult>,
    prioritize: Option<(PodInfo, seq<string>, Cache) -> Row>,
    weight: int, ignorable: bool)

  datatype Prioritizer = Prioritizer(
    weight: int, hasFunction: bool, score: (PodInfo, NodeInfo) -> Option<int>,
    reduce: Option<(PodInfo, Infos, Row) -> Option<Row>>)

  datatype Config = Config(preds: seq<FitPredicate>, prioritizers: seq<Prioritizer>, extenders: seq<Extender>)

  datatype Decision = Host(name: string) | NoNodes | FitError | OtherError

  // ----- Filtering -----

  /** `podFitsOnNode` by node name. */
  function Outcome(cfg: Config, pod: PodInfo, infos: Infos, nominated: string -> seq<PodInfo>): Filter.Outcomes {
    n => if n in infos then PodFits(pod, cfg.preds, infos[n], nominated(n)) else Error
  }

  /** One extender's filter: None when it names an unknown node or reports an error it may not ignore. */
  function Extend(e: Extender, pod: PodInfo, nodes: seq<string>, infos: Infos, cache: Cache): Option<seq<string>> {
    if e.filter.None? then Some(nodes) else
      var r := e.filter.value(pod, nodes, cache);
      if (exists n :: n in r.names && n !in infos) || (r.error && !e.ignorable) then None else Some(r.names)
  }

  /** The extenders in turn, until no node is left. */
  function ExtendAll(es: seq<Extender>, pod: PodInfo, nodes: seq<string>, infos: Infos, cache: Cache): Option<seq<string>> {
    if es == [] || nodes == [] then Some(nodes) else
      var r := Extend(es[0], pod, nodes, infos, cache);
      if r.None? then None else ExtendAll(es[1..], pod, r.value, infos, cache)
  }

  /** The nodes passing all predicates and then all extenders, in list order. */
  function Filtered(cfg: Config, pod: PodInfo, nodes: seq<string>, infos: Infos, cache: Cache, nominated: string -> seq<PodInfo>): Option<seq<string>> {
    var outcome := Outcome(cfg, pod, infos, nominated);
    if cfg.preds != [] && exists n :: n in nodes && outcome(n).Error? then None
    else ExtendAll(cfg.extenders, pod, if cfg.preds == [] then nodes else Filter.Passing(nodes, outcome), infos, cache)
  }

  // ----- Scoring -----

  function PluginOf(p: Prioritizer, pod: PodInfo, infos: Infos): Plugin {
    Plugin(p.weight, p.hasFunction,
           n => if n in infos then p.score(pod, infos[n]) else None,
           if p.reduce.Some? then Some(row => p.reduce.value(pod, infos, row)) else None)
  }

  function Plugins(cfg: Config, pod: PodInfo, infos: Infos): seq<Plugin> {
    seq(|cfg.prioritizers|, i requires 0 <= i < |cfg.prioritizers| => PluginOf(cfg.prioritizers[i], pod, infos))
  }

  function Missing(nodes: seq<string>, infos: Infos): set<string> {
    set n | n in nodes && n !in infos
  }

  /** The sum of an extender's weighted scores for a host. */
  function RowScore(row: Row, weight: int, host: string): int {
    if row == [] then 0 else
      RowScore(row[..|row| - 1], weight, host)
      + if row[|row| - 1].host == host then row[|row| - 1].score * weight else 0
  }

  function ExtenderScore(es: seq<Extender>, pod: PodInfo, nodes: seq<string>, cache: Cache, host: string): int {
    if es == [] then 0 else
      var e := es[|es| - 1];
      ExtenderScore(es[..|es| - 1], pod, nodes, cache, host)
      + if e.prioritize.None? then 0 else RowScore(e.prioritize.value(pod, nodes, cache), e.weight, host)
  }

  /** Each filtered node with its weighted sum of plugin and extender scores; every node scores 1 when
      there is nothing to score with. */
  ghost function Prioritized(cfg: Config, pod: PodInfo, nodes: seq<string>, infos: Infos, cache: Cache): (r: Option<Row>)
    requires ReductionsInPlace(Plugins(cfg, pod, infos))
    ensures r.Some? ==> |r.value| == |nodes|
  {
    if cfg.prioritizers == [] && cfg.extenders == [] then
      if Missing(nodes, infos) != {} then None else Some(seq(|nodes|, i requires 0 <= i < |nodes| => HostPriority(nodes[i], 1)))
    else if ScoringErrs(Plugins(cfg, pod, infos), nodes, Missing(nodes, infos)) then None
    else
      var row := PluginScores(Plugins(cfg, pod, infos), nodes, Missing(nodes, infos));
      Some(seq(|nodes|, i requires 0 <= i < |nodes| =>
        HostPriority(row[i].host, row[i].score + ExtenderScore(cfg.extenders, pod, nodes, cache, row[i].host))))
  }

  /** THE SPECIFICATION of one decision: no interleaving, no schedule. */
  ghost function Decide(cfg: Config, pod: PodInfo, nodes: seq<string>, infos: Infos, cache: Cache, nominated: string -> seq<PodInfo>): Decision
    requires ReductionsInPlace(Plugins(cfg, pod, infos))
  {
    if nodes == [] then NoNodes else
      var filtered := Filtered(cfg, pod, nodes, infos, cache, nominated);
      if filtered.None? then OtherError
      else if |filtered.value| == 0 then FitError
      else if |filtered.value| == 1 then Host(filtered.value[0])
      else
        var prios := Prioritized(cfg, pod, filtered.value, infos, cache);
        if prios.None? then OtherError else Host(prios.value[BestIndex(prios.value)].host)
  }

  /** The total score of the `i`th of the filtered nodes. */
  ghost function Score(cfg: Config, pod: PodInfo, nodes: seq<string>, infos: Infos, cache: Cache, i: nat): int
    requires ReductionsInPlace(Plugins(cfg, pod, infos)) && i < |nodes|
  {
    if cfg.prioritizers == [] && cfg.extenders == [] then 1 else
      var plugins := Plugins(cfg, pod, infos);
      Weighted(plugins, ReducedCells(plugins, nodes, Missing(nodes, infos)), i, |plugins|)
      + ExtenderScore(cfg.extenders, pod, nodes, cache, nodes[i])
  }

  /** Node `i` is the last one with the greatest total score. */
  ghost predicate Wins(cfg: Config, pod: PodInfo, nodes: seq<string>, infos: Infos, cache: Cache, i: nat)
    requires ReductionsInPlace(Plugins(cfg, pod, infos))
  {
    && i < |nodes|
    && (forall j: nat :: j < |nodes| ==> Score(cfg, pod, nodes, infos, cache, j) <= Score(cfg, pod, nodes, infos, cache, i))
    && (forall j: nat :: i < j < |nodes| ==> Score(cfg, pod, nodes, infos, cache, j) < Score(cfg, pod, nodes, infos, cache, i))
  }

  lemma PrioritizedAt(cfg: Config, pod: PodInfo, nodes: seq<string>, infos: Infos, cache: Cache, j: nat)
    requires ReductionsInPlace(Plugins(cfg, pod, infos)) && j < |nodes|
    ensures var prios := Prioritized(cfg, pod, nodes, infos, cache);
      prios.Some? ==> prios.value[j] == HostPriority(nodes[j], Score(cfg, pod, nodes, infos, cache, j))
  {
  }

  lemma BestWins(cfg: Config, pod: PodInfo, nodes: seq<string>, infos: Infos, cache: Cache)
    requires ReductionsInPlace(Plugins(cfg, pod, infos)) && nodes != [] && Prioritized(cfg, pod, nodes, infos, cache).Some?
    ensures var prios := Prioritized(cfg, pod, nodes, infos, cache).value; var i := BestIndex(prios);
      Wins(cfg, pod, nodes, infos, cache, i) && prios[i].host == nodes[i]
  {
    hide Prioritized, Score;
    var prios := Prioritized(cfg, pod, nodes, infos, cache).value;
    assert LastBest(prios, BestIndex(prios));
    forall j: nat | j < |nodes| ensures prios[j] == HostPriority(nodes[j], Score(cfg, pod, nodes, infos, cache, j)) {
      PrioritizedAt(cfg, pod, nodes, infos, cache, j);
    }
  }

  /** THEOREM.  A host is found exactly when filtering succeeds and leaves a node, and scoring succeeds if
      it leaves several; the host is then the last of the filtered nodes with the greatest total score. */
  lemma DecisionMeans(cfg: Config, pod: PodInfo, nodes: seq<string>, infos: Infos, cache: Cache, nominated: string -> seq<PodInfo>)
    requires ReductionsInPlace(Plugins(cfg, pod, infos)) && nodes != []
    ensures var d := Decide(cfg, pod, nodes, infos, cache, nominated);
      var f := Filtered(cfg, pod, nodes, infos, cache, nominated);
      && (d.Host? <==> f.Some? && f.value != [] && (|f.value| == 1 || Prioritized(cfg, pod, f.value, infos, cache).Some?))
      && (d == FitError <==> f == Some([]))
      && (d.Host? ==> (exists i: nat :: Wins(cfg, pod, f.value, infos, cache, i) && d.name == f.value[i]))
  {
    hide Prioritized, Score, Filtered;
    var d := Decide(cfg, pod, nodes, infos, cache, nominated);
    var f := Filtered(cfg, pod, nodes, infos, cache, nominated);
    if d.Host? && |f.value| > 1 {
      BestWins(cfg, pod, f.value, infos, cache);
    } else if d.Host? {
      assert Wins(cfg, pod, f.value, infos, cache, 0);
    }
  }

  /** Without extenders, the filtered nodes are the listed ones on which every predicate passes, with the
      nominated pods added and without them; and no node's check may err. */
  lemma FilteredMeans(cfg: Config, pod: PodInfo, nodes: seq<string>, infos: Infos, cache: Cache, nominated: string -> seq<PodInfo>)
    requires GivesReasons(cfg.preds) && cfg.preds != [] && cfg.extenders == []
    ensures var f := Filtered(cfg, pod, nodes, infos, cache, nominated); var outcome := Outcome(cfg, pod, infos, nominated);
      && (f.Some? <==> forall n :: n in nodes ==> n in infos && !outcome(n).Error?)
      && (f.Some? ==> forall n :: n in f.value <==> n in nodes && FitsOn(pod, cfg.preds, infos[n], nominated(n)))
  {
    var outcome := Outcome(cfg, pod, infos, nominated);
    Filter.PassingMembers(nodes, outcome);
    forall n | n in nodes && n in infos
      ensures outcome(n).Fits? <==> FitsOn(pod, cfg.preds, infos[n], nominated(n))
    {
      PodFitsIff(pod, cfg.preds, infos[n], nominated(n));
    }
  }

  // ----- The order of the predicates -----

  /** In what orders the map of predicates is gone through on one node, in the first and the second pass. */
  type Orders = string -> (seq<FitPredicate>, seq<FitPredicate>)

  /** The outcomes when every node draws its own orders. */
  function OutcomeIn(orders: Orders, pod: PodInfo, infos: Infos, nominated: string -> seq<PodInfo>): Filter.Outcomes {
    n => if n in infos then PodFitsIn(pod, orders(n).0, orders(n).1, infos[n], nominated(n)) else Error
  }

  /** On no node do predicates object in different ways. */
  ghost predicate AlwaysOfOneMind(preds: seq<FitPredicate>) {
    forall pod, info :: OfOneMind(pod, preds, info)
  }

  /** Every node goes through all the predicates; in any orders if they are always of one mind. */
  ghost predicate DrawnFrom(orders: Orders, preds: seq<FitPredicate>) {
    || (forall n :: orders(n) == (preds, preds))
    || (AlwaysOfOneMind(preds) && forall n :: multiset(orders(n).0) == multiset(preds) && multiset(orders(n).1) == multiset(preds))
  }

  lemma DrawnAlike(cfg: Config, orders: Orders, pod: PodInfo, infos: Infos, nominated: string -> seq<PodInfo>, n: string)
    requires DrawnFrom(orders, cfg.preds)
    ensures Alike(OutcomeIn(orders, pod, infos, nominated)(n), Outcome(cfg, pod, infos, nominated)(n))
  {
    hide PodFitsIn, OfOneMind;
    if n in infos && AlwaysOfOneMind(cfg.preds) && multiset(orders(n).0) == multiset(cfg.preds) && multiset(orders(n).1) == multiset(cfg.preds) {
      assert OfOneMind(pod, cfg.preds, infos[n]) && OfOneMind(pod, cfg.preds, WithNominated(pod, infos[n], nominated(n)));
      OrdersAgree(pod, cfg.preds, orders(n).0, orders(n).1, infos[n], nominated(n));
    }
  }

  lemma {:induction false} PassingAlike(nodes: seq<string>, a: Filter.Outcomes, b: Filter.Outcomes)
    requires forall n :: Alike(a(n), b(n))
    ensures Filter.Passing(nodes, a) == Filter.Passing(nodes, b)
  {
    if nodes != [] { PassingAlike(nodes[..|nodes| - 1], a, b); }
  }

  /** On `n1` there is no room, and another predicate errs. */
  function NoRoom(pod: PodInfo, info: NodeInfo): PredResult {
    PredResult(info.name != "n1", ["no room"], false)
  }

  function Broken(pod: PodInfo, info: NodeInfo): PredResult {
    PredResult(true, [], info.name == "n1")
  }

  function Two(): Infos {
    map["n1" := NodeInfo("n1", {}, 0, 0), "n2" := NodeInfo("n2", {}, 0, 0)]
  }

  lemma BrokenOutcomes(preds: seq<FitPredicate>, pod: PodInfo, nominated: string -> seq<PodInfo>)
    requires nominated("n1") == nominated("n2") == [] && (preds == [NoRoom, Broken] || preds == [Broken, NoRoom])
    ensures var outcome := Outcome(Config(preds, [], []), pod, Two(), nominated);
      && outcome("n2") == Fits
      && (preds == [NoRoom, Broken] ==> outcome("n1") == Fails(["no room"]))
      && (preds == [Broken, NoRoom] ==> outcome("n1") == Error)
  {
    var one, two := Two()["n1"], Two()["n2"];
    assert one.name == "n1" && two.name == "n2" && "n1" != "n2";
    assert !Objects(NoRoom(pod, two)) && !Objects(Broken(pod, two));
    assert !Objects(preds[0](pod, two)) && !Objects(preds[1](pod, two));
    assert Run(pod, preds, two, 1) == Run(pod, preds, two, 2) == Fits;
    assert preds == [NoRoom, Broken] ==> preds[0](pod, one) == NoRoom(pod, one);
    assert preds == [Broken, NoRoom] ==> preds[0](pod, one) == Broken(pod, one);
  }

  /** Otherwise the decision depends on the order: where one predicate fails with a reason and another one
      errs, either the node is passed over or filtering fails. */
  lemma OrderDecidesFiltering(pod: PodInfo, nominated: string -> seq<PodInfo>)
    requires nominated("n1") == nominated("n2") == []
    ensures Filtered(Config([NoRoom, Broken], [], []), pod, ["n1", "n2"], Two(), map[], nominated) == Some(["n2"])
    ensures Filtered(Config([Broken, NoRoom], [], []), pod, ["n1", "n2"], Two(), map[], nominated) == None
  {
    hide Outcome;
    var nodes := ["n1", "n2"];
    BrokenOutcomes([NoRoom, Broken], pod, nominated);
    BrokenOutcomes([Broken, NoRoom], pod, nominated);
    var a := Outcome(Config([NoRoom, Broken], [], []), pod, Two(), nominated);
    assert nodes[..1] == ["n1"] && nodes[..1][..0] == [];
    assert Filter.Passing(nodes[..1], a) == [];
    assert Filter.Passing(nodes, a) == ["n2"];
    assert forall n :: n in nodes ==> n == "n1" || n == "n2";
    var b := Outcome(Config([Broken, NoRoom], [], []), pod, Two(), nominated);
    assert nodes[0] in nodes && b(nodes[0]).Error?;
  }

  // ----- The methods -----

  /** How the workers of the two parallel phases happen to interleave, and the orders in which the filter
      workers go through the predicates. */
  datatype Interleaving = Interleaving(filter: seq<nat>, orders: Orders, scores: seq<string> -> seq<nat>, reduce: seq<nat>)

  /** Every worker runs to its end. */
  ghost predicate Complete(w: Interleaving, cfg: Config, nodes: seq<string>) {
    && Within(w.filter, |nodes|)
    && (forall i :: 0 <= i < |nodes| ==> Turns(w.filter, i) >= 2)
    && DrawnFrom(w.orders, cfg.preds)
    && (forall ns: seq<string> :: Within(w.scores(ns), |ns|))
    && (forall ns: seq<string>, n: nat :: n < |ns| ==> Turns(w.scores(ns), n) > |cfg.prioritizers|)
    && Within(w.reduce, |cfg.prioritizers|)
    && (forall p: nat :: p < |cfg.prioritizers| ==> p in w.reduce)
  }

  /** `Extender.filter`. */
  method ExtenderFilter(e: Extender, pod: PodInfo, nodes: seq<string>, infos: Infos, cache: Cache) returns (r: Option<seq<string>>)
    ensures r == Extend(e, pod, nodes, infos, cache)
  {
    if e.filter.None? {
      return Some(nodes);
    }
    var result := e.filter.value(pod, nodes, cache);
    var out := [];
    for i := 0 to |result.names|
      invariant out == result.names[..i] && forall n :: n in out ==> n in infos
    {
      if result.names[i] !in infos {
        return None;
      }
      out := out + [result.names[i]];
    }
    assert out == result.names;
    if result.error && !e.ignorable {
      return None;
    }
    r := Some(out);
  }

  /** `GenericScheduler.filter`. */
  method FilterNodes(cfg: Config, pod: PodInfo, nodes: seq<string>, infos: Infos, cache: Cache, nominated: string -> seq<PodInfo>,
                     sched: seq<nat>, orders: Orders)
    returns (r: Option<seq<string>>)
    requires Within(sched, |nodes|) && forall i :: 0 <= i < |nodes| ==> Turns(sched, i) >= 2
    requires DrawnFrom(orders, cfg.preds)
    ensures r == Filtered(cfg, pod, nodes, infos, cache, nominated)
  {
    hide PodFitsIn, DrawnFrom;
    var outcome := OutcomeIn(orders, pod, infos, nominated);
    forall n ensures Alike(outcome(n), Outcome(cfg, pod, infos, nominated)(n)) { DrawnAlike(cfg, orders, pod, infos, nominated, n); }
    PassingAlike(nodes, outcome, Outcome(cfg, pod, infos, nominated));
    var filtered, _, err := Filter.FilterWithPlugins(nodes, outcome, |cfg.preds| == 0, sched);
    if err {
      return None;
    }
    ghost var first := filtered;
    if |filtered| > 0 {
      for k := 0 to |cfg.extenders|
        invariant ExtendAll(cfg.extenders[k..], pod, filtered, infos, cache) == ExtendAll(cfg.extenders, pod, first, infos, cache)
      {
        assert cfg.extenders[k..][1..] == cfg.extenders[k + 1..];
        if |filtered| == 0 {
          break;
        }
        var next := ExtenderFilter(cfg.extenders[k], pod, filtered, infos, cache);
        if next.None? {
          return None;
        }
        filtered := next.value;
      }
    }
    r := Some(filtered);
  }

  /** `Extender.prioritize` of every extender, added up per host and then to the list. */
  method AddExtenderScores(es: seq<Extender>, pod: PodInfo, nodes: seq<string>, cache: Cache, prios: Row) returns (r: Row)
    ensures |r| == |prios|
    ensures forall i :: 0 <= i < |prios| ==>
      r[i] == HostPriority(prios[i].host, prios[i].score + ExtenderScore(es, pod, nodes, cache, prios[i].host))
  {
    var prioMap: map<string, int> := map[];
    for k := 0 to |es|
      invariant forall h :: (if h in prioMap then prioMap[h] else 0) == ExtenderScore(es[..k], pod, nodes, cache, h)
    {
      assert es[..k + 1][..k] == es[..k];
      if es[k].prioritize.Some? {
        var result := es[k].prioritize.value(pod, nodes, cache);
        for j := 0 to |result|
          invariant forall h ::
            (if h in prioMap then prioMap[h] else 0)
              == ExtenderScore(es[..k], pod, nodes, cache, h) + RowScore(result[..j], es[k].weight, h)
        {
          assert result[..j + 1][..j] == result[..j];
          var prio := result[j];
          prioMap := prioMap[prio.host := (if prio.host in prioMap then prioMap[prio.host] else 0) + prio.score * es[k].weight];
        }
        assert result[..|result|] == result;
      }
    }
    assert es[..|es|] == es;
    r := [];
    for i := 0 to |prios|
      invariant |r| == i && forall j :: 0 <= j < i ==>
        r[j] == HostPriority(prios[j].host, prios[j].score + ExtenderScore(es, pod, nodes, cache, prios[j].host))
    {
      r := r + [prios[i].(score := prios[i].score + if prios[i].host in prioMap then prioMap[prios[i].host] else 0)];
    }
  }

  /** `GenericScheduler.prioritize`. */
  method PrioritizeNodes(cfg: Config, pod: PodInfo, nodes: seq<string>, infos: Infos, cache: Cache, scores: seq<nat>, reduce: seq<nat>)
    returns (r: Option<Row>)
    requires ReductionsInPlace(Plugins(cfg, pod, infos))
    requires Within(scores, |nodes|) && forall n: nat :: n < |nodes| ==> Turns(scores, n) > |cfg.prioritizers|
    requires Within(reduce, |cfg.prioritizers|) && forall p: nat :: p < |cfg.prioritizers| ==> p in reduce
    ensures r == Prioritized(cfg, pod, nodes, infos, cache)
  {
    if |cfg.prioritizers| == 0 && |cfg.extenders| == 0 {
      var row: Row := [];
      for i := 0 to |nodes|
        invariant |row| == i && forall j :: 0 <= j < i ==> row[j] == HostPriority(nodes[j], 1) && nodes[j] in infos
      {
        if nodes[i] !in infos {
          assert nodes[i] in Missing(nodes, infos);
          return None;
        }
        row := row + [HostPriority(nodes[i], 1)];
      }
      assert Missing(nodes, infos) == {};
      assert row == Prioritized(cfg, pod, nodes, infos, cache).value;
      return Some(row);
    }
    var row, err := PrioritizeWithPlugins(Plugins(cfg, pod, infos), nodes, Missing(nodes, infos), scores, reduce);
    if err {
      return None;
    }
    if |cfg.extenders| > 0 {
      row := AddExtenderScores(cfg.extenders, pod, nodes, cache, row);
    }
    r := Some(row);
    assert Prioritized(cfg, pod, nodes, infos, cache).Some?;
    assert r.value == Prioritized(cfg, pod, nodes, infos, cache).value;
  }

  /** THEOREM.  `scheduleOne` decides as the specification does under every interleaving of its workers, and
      in whatever orders each of them goes through the predicates if those are always of one mind. */
  method ScheduleOne(cfg: Config, pod: PodInfo, nodes: seq<string>, infos: Infos, cache: Cache, nominated: string -> seq<PodInfo>, w: Interleaving)
    returns (d: Decision)
    requires ReductionsInPlace(Plugins(cfg, pod, infos)) && Complete(w, cfg, nodes)
    ensures d == Decide(cfg, pod, nodes, infos, cache, nominated)
  {
    if |nodes| == 0 {
      return NoNodes;
    }
    var filtered := FilterNodes(cfg, pod, nodes, infos, cache, nominated, w.filter, w.orders);
    if filtered.None? {
      return OtherError;
    }
    if |filtered.value| == 0 {
      return FitError;
    }
    if |filtered.value| == 1 {
      return Host(filtered.value[0]);
    }
    var prios := PrioritizeNodes(cfg, pod, filtered.value, infos, cache, w.scores(filtered.value), w.reduce);
    if prios.None? {
      return OtherError;
    }
    var host := SelectHost(prios.value);
    d := Host(host.value);
  }
}
