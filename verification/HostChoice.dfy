// What scores do to a decision: no better node is passed over, and what weights mean.

module HostChoice {
  import opened Prelude
  import opened Arithmetic
  import opened Pods
  import opened Victims
  import opened ParallelScores
  import opened Scheduling

  // ----- What each scorer gives a node, before anything is weighted or added up -----

  /** A prioritizer's row over the filtered nodes, as its scores and its reduction make it. */
  function MapRow(p: Prioritizer, pod: PodInfo, infos: Infos, nodes: seq<string>): Row {
    seq(|nodes|, i requires 0 <= i < |nodes| =>
      if p.hasFunction || nodes[i] !in infos || p.score(pod, infos[nodes[i]]).None? then ZERO
      else HostPriority(nodes[i], p.score(pod, infos[nodes[i]]).value))
  }

  function FinalRow(p: Prioritizer, pod: PodInfo, infos: Infos, nodes: seq<string>): Row {
    var row := MapRow(p, pod, infos, nodes);
    if p.reduce.Some? && p.reduce.value(pod, infos, row).Some? then p.reduce.value(pod, infos, row).value else row
  }

  /** The prioritizer's score for the `i`th of the nodes. */
  function Mark(p: Prioritizer, pod: PodInfo, infos: Infos, nodes: seq<string>, i: nat): int {
    if i < |FinalRow(p, pod, infos, nodes)| then FinalRow(p, pod, infos, nodes)[i].score else 0
  }

  /** What an extender's answer gives a host, added up if it lists the host more than once. */
  function Given(e: Extender, pod: PodInfo, nodes: seq<string>, cache: Cache, host: string): int {
    if e.prioritize.None? then 0 else
      SumBy(e.prioritize.value(pod, nodes, cache), (h: HostPriority) => if h.host == host then h.score else 0)
  }

  /** Every scorer gives the `j`th node at least what it gives the `i`th. */
  ghost predicate AtLeastAsGood(cfg: Config, pod: PodInfo, nodes: seq<string>, infos: Infos, cache: Cache, j: nat, i: nat)
    requires i < |nodes| && j < |nodes|
  {
    && (forall p :: p in cfg.prioritizers ==> Mark(p, pod, infos, nodes, j) >= Mark(p, pod, infos, nodes, i))
    && (forall e :: e in cfg.extenders ==> Given(e, pod, nodes, cache, nodes[j]) >= Given(e, pod, nodes, cache, nodes[i]))
  }

  /** Some scorer of positive weight gives the `j`th node more than the `i`th. */
  ghost predicate SomewhereBetter(cfg: Config, pod: PodInfo, nodes: seq<string>, infos: Infos, cache: Cache, j: nat, i: nat)
    requires i < |nodes| && j < |nodes|
  {
    || (exists p :: p in cfg.prioritizers && p.weight > 0 && Mark(p, pod, infos, nodes, j) > Mark(p, pod, infos, nodes, i))
    || (exists e :: e in cfg.extenders && e.weight > 0
          && Given(e, pod, nodes, cache, nodes[j]) > Given(e, pod, nodes, cache, nodes[i]))
  }

  ghost predicate NoNegativeWeight(cfg: Config) {
    && (forall p :: p in cfg.prioritizers ==> p.weight >= 0)
    && (forall e :: e in cfg.extenders ==> e.weight >= 0)
  }

  // ----- The rows that are added up -----

  lemma CellIs(p: Prioritizer, pod: PodInfo, infos: Infos, nodes: seq<string>, i: nat)
    requires i < |nodes| && nodes[i] in infos && !CellErrs(PluginOf(p, pod, infos), nodes[i])
    ensures Cell(PluginOf(p, pod, infos), Missing(nodes, infos), nodes[i]) == MapRow(p, pod, infos, nodes)[i]
  {
  }

  lemma RowIs(p: Prioritizer, pod: PodInfo, infos: Infos, nodes: seq<string>, row: Row)
    requires |row| == |nodes| && forall i :: 0 <= i < |nodes| ==> nodes[i] in infos && !CellErrs(PluginOf(p, pod, infos), nodes[i])
    requires forall i :: 0 <= i < |nodes| ==> row[i] == Cell(PluginOf(p, pod, infos), Missing(nodes, infos), nodes[i])
    ensures row == MapRow(p, pod, infos, nodes)
    ensures Reduced(PluginOf(p, pod, infos), row) == FinalRow(p, pod, infos, nodes)
  {
    hide Cell, CellErrs;
    forall i | 0 <= i < |nodes| ensures row[i] == MapRow(p, pod, infos, nodes)[i] { CellIs(p, pod, infos, nodes, i); }
  }

  /** Where scoring succeeds, the rows are those that the scorers make. */
  lemma MarksAre(cfg: Config, pod: PodInfo, nodes: seq<string>, infos: Infos, p: nat)
    requires ReductionsInPlace(Plugins(cfg, pod, infos)) && p < |cfg.prioritizers|
    requires !ScoringErrs(Plugins(cfg, pod, infos), nodes, Missing(nodes, infos))
    ensures var row := ReducedCells(Plugins(cfg, pod, infos), nodes, Missing(nodes, infos))[p];
      && row == FinalRow(cfg.prioritizers[p], pod, infos, nodes) && |row| == |nodes|
      && forall i :: 0 <= i < |nodes| ==> row[i].score == Mark(cfg.prioritizers[p], pod, infos, nodes, i)
  {
    hide Cell, CellErrs, Reduced, PluginOf, FinalRow;
    var plugins, missing := Plugins(cfg, pod, infos), Missing(nodes, infos);
    assert plugins[p] in plugins && plugins[p] == PluginOf(cfg.prioritizers[p], pod, infos);
    forall i | 0 <= i < |nodes| ensures nodes[i] in infos && !CellErrs(plugins[p], nodes[i]) {
      assert nodes[i] in nodes;
    }
    RowIs(cfg.prioritizers[p], pod, infos, nodes, Cells(plugins, nodes, missing)[p]);
  }

  // ----- More from every scorer is more in total -----

  lemma {:induction false} WeightedMonotone(plugins: seq<Plugin>, rows: seq<Row>, j: nat, i: nat, k: nat)
    requires k <= |plugins| == |rows| && forall p :: 0 <= p < |rows| ==> i < |rows[p]| && j < |rows[p]|
    requires forall p :: 0 <= p < k ==> plugins[p].weight >= 0 && rows[p][j].score >= rows[p][i].score
    ensures Weighted(plugins, rows, j, k) >= Weighted(plugins, rows, i, k)
    ensures (exists p :: 0 <= p < k && plugins[p].weight > 0 && rows[p][j].score > rows[p][i].score)
      ==> Weighted(plugins, rows, j, k) > Weighted(plugins, rows, i, k)
  {
    if k > 0 {
      WeightedMonotone(plugins, rows, j, i, k - 1);
      ProductMonotone(rows[k - 1][j].score, rows[k - 1][i].score, plugins[k - 1].weight);
    }
  }

  lemma ProductMonotone(a: int, b: int, w: int)
    requires a >= b && w >= 0
    ensures a * w >= b * w && (a > b && w > 0 ==> a * w > b * w)
  {
    MulMonotone(b, a, w);
    if a > b && w > 0 { MulMonotone(b + 1, a, w); }
  }

  lemma {:induction false} RowScoreIs(row: Row, weight: int, host: string)
    ensures RowScore(row, weight, host) == weight * SumBy(row, (h: HostPriority) => if h.host == host then h.score else 0)
  {
    if row != [] { RowScoreIs(row[..|row| - 1], weight, host); }
  }

  lemma {:induction false} ExtendersMonotone(es: seq<Extender>, pod: PodInfo, nodes: seq<string>, cache: Cache, a: string, b: string)
    requires forall e :: e in es ==> e.weight >= 0 && Given(e, pod, nodes, cache, a) >= Given(e, pod, nodes, cache, b)
    ensures ExtenderScore(es, pod, nodes, cache, a) >= ExtenderScore(es, pod, nodes, cache, b)
    ensures (exists e :: e in es && e.weight > 0 && Given(e, pod, nodes, cache, a) > Given(e, pod, nodes, cache, b))
      ==> ExtenderScore(es, pod, nodes, cache, a) > ExtenderScore(es, pod, nodes, cache, b)
  {
    hide SumBy, RowScore;
    if es != [] {
      var init, e := es[..|es| - 1], es[|es| - 1];
      assert forall x :: x in es <==> x in init || x == e;
      ExtendersMonotone(init, pod, nodes, cache, a, b);
      if e.prioritize.Some? {
        RowScoreIs(e.prioritize.value(pod, nodes, cache), e.weight, a);
        RowScoreIs(e.prioritize.value(pod, nodes, cache), e.weight, b);
        ProductMonotone(Given(e, pod, nodes, cache, a), Given(e, pod, nodes, cache, b), e.weight);
      }
    }
  }

  lemma ScoreMonotone(cfg: Config, pod: PodInfo, nodes: seq<string>, infos: Infos, cache: Cache, j: nat, i: nat)
    requires ReductionsInPlace(Plugins(cfg, pod, infos)) && i < |nodes| && j < |nodes|
    requires NoNegativeWeight(cfg) && AtLeastAsGood(cfg, pod, nodes, infos, cache, j, i)
    requires Prioritized(cfg, pod, nodes, infos, cache).Some?
    ensures Score(cfg, pod, nodes, infos, cache, j) >= Score(cfg, pod, nodes, infos, cache, i)
    ensures SomewhereBetter(cfg, pod, nodes, infos, cache, j, i) ==>
      Score(cfg, pod, nodes, infos, cache, j) > Score(cfg, pod, nodes, infos, cache, i)
  {
    if cfg.prioritizers != [] || cfg.extenders != [] {
      hide Mark, Given, Weighted, ExtenderScore, ScoringErrs, PluginScores, PluginOf;
      var plugins := Plugins(cfg, pod, infos);
      var rows: seq<Row> := ReducedCells(plugins, nodes, Missing(nodes, infos));
      forall p: nat | p < |plugins|
        ensures plugins[p].weight == cfg.prioritizers[p].weight && cfg.prioritizers[p] in cfg.prioritizers && |rows[p]| == |nodes|
        ensures rows[p][j].score == Mark(cfg.prioritizers[p], pod, infos, nodes, j)
        ensures rows[p][i].score == Mark(cfg.prioritizers[p], pod, infos, nodes, i)
      {
        MarksAre(cfg, pod, nodes, infos, p);
        WeightIs(cfg.prioritizers[p], pod, infos);
      }
      WeightedMonotone(plugins, rows, j, i, |plugins|);
      ExtendersMonotone(cfg.extenders, pod, nodes, cache, nodes[j], nodes[i]);
    }
  }

  lemma WeightIs(p: Prioritizer, pod: PodInfo, infos: Infos)
    ensures PluginOf(p, pod, infos).weight == p.weight
  {
  }

  // ----- No better node is passed over -----

  /** Node `i` is not passed over for a worse one, nor for an equal one before it. */
  ghost predicate Undominated(cfg: Config, pod: PodInfo, nodes: seq<string>, infos: Infos, cache: Cache, i: nat) {
    && i < |nodes|
    && forall j: nat :: j < |nodes| && AtLeastAsGood(cfg, pod, nodes, infos, cache, j, i) ==>
         j <= i && !SomewhereBetter(cfg, pod, nodes, infos, cache, j, i)
  }

  /** THEOREM.  With no weight negative, no filtered node scores at least as high as the host with every
      prioritizer and extender and higher with one of positive weight; and of nodes that all score alike
      the last one is the host. */
  lemma HostIsUndominated(cfg: Config, pod: PodInfo, nodes: seq<string>, infos: Infos, cache: Cache, nominated: string -> seq<PodInfo>)
    requires ReductionsInPlace(Plugins(cfg, pod, infos)) && NoNegativeWeight(cfg)
    ensures var d, f := Decide(cfg, pod, nodes, infos, cache, nominated), Filtered(cfg, pod, nodes, infos, cache, nominated);
      d.Host? ==> f.Some? && exists i: nat :: Undominated(cfg, pod, f.value, infos, cache, i) && f.value[i] == d.name
  {
    hide Filtered, AtLeastAsGood, SomewhereBetter, Score, Prioritized;
    var d, f := Decide(cfg, pod, nodes, infos, cache, nominated), Filtered(cfg, pod, nodes, infos, cache, nominated);
    if d.Host? {
      var i := 0;
      if |f.value| > 1 {
        BestWins(cfg, pod, f.value, infos, cache);
        i := BestIndex(Prioritized(cfg, pod, f.value, infos, cache).value);
        forall j: nat | j < |f.value| && AtLeastAsGood(cfg, pod, f.value, infos, cache, j, i)
          ensures j <= i && !SomewhereBetter(cfg, pod, f.value, infos, cache, j, i)
        {
          ScoreMonotone(cfg, pod, f.value, infos, cache, j, i);
        }
      } else {
        OnlyNode(cfg, pod, f.value, infos, cache);
      }
      assert Undominated(cfg, pod, f.value, infos, cache, i);
    }
  }

  lemma OnlyNode(cfg: Config, pod: PodInfo, nodes: seq<string>, infos: Infos, cache: Cache)
    requires |nodes| == 1
    ensures Undominated(cfg, pod, nodes, infos, cache, 0)
  {
  }

  /** No node has a greater mark than node `i`, nor has one after it the same. */
  ghost predicate LastOfBestMark(p: Prioritizer, pod: PodInfo, infos: Infos, nodes: seq<string>, i: nat) {
    && i < |nodes|
    && (forall j: nat :: j < |nodes| ==> Mark(p, pod, infos, nodes, j) <= Mark(p, pod, infos, nodes, i))
    && forall j: nat :: i < j < |nodes| ==> Mark(p, pod, infos, nodes, j) < Mark(p, pod, infos, nodes, i)
  }

  /** With a single prioritizer of positive weight and no extender, the host is the last of the filtered
      nodes with the greatest score. */
  lemma SinglePrioritizer(cfg: Config, pod: PodInfo, nodes: seq<string>, infos: Infos, cache: Cache, nominated: string -> seq<PodInfo>)
    requires ReductionsInPlace(Plugins(cfg, pod, infos)) && |cfg.prioritizers| == 1 && cfg.extenders == []
    requires cfg.prioritizers[0].weight > 0
    ensures var d, f := Decide(cfg, pod, nodes, infos, cache, nominated), Filtered(cfg, pod, nodes, infos, cache, nominated);
      d.Host? ==> f.Some? && exists i: nat :: LastOfBestMark(cfg.prioritizers[0], pod, infos, f.value, i) && f.value[i] == d.name
  {
    hide Filtered, Mark, Given, Decide;
    var d, f := Decide(cfg, pod, nodes, infos, cache, nominated), Filtered(cfg, pod, nodes, infos, cache, nominated);
    HostIsUndominated(cfg, pod, nodes, infos, cache, nominated);
    if d.Host? {
      var i: nat :| Undominated(cfg, pod, f.value, infos, cache, i) && f.value[i] == d.name;
      var p := cfg.prioritizers[0];
      assert p in cfg.prioritizers && forall q :: q in cfg.prioritizers ==> q == p;
      forall j: nat | j < |f.value|
        ensures Mark(p, pod, infos, f.value, j) <= Mark(p, pod, infos, f.value, i)
        ensures Mark(p, pod, infos, f.value, j) == Mark(p, pod, infos, f.value, i) ==> j <= i
      {
        if Mark(p, pod, infos, f.value, j) >= Mark(p, pod, infos, f.value, i) {
          assert AtLeastAsGood(cfg, pod, f.value, infos, cache, j, i);
        }
      }
      assert LastOfBestMark(p, pod, infos, f.value, i);
    }
  }

  // ----- What weights mean -----

  /** The plugins' part of a node's total. */
  function PluginTotal(plugins: seq<Plugin>, nodes: seq<string>, missing: set<string>, n: nat): int
    requires ReductionsInPlace(plugins) && n < |nodes|
  {
    Weighted(plugins, ReducedCells(plugins, nodes, missing), n, |plugins|)
  }

  lemma {:induction false} WeightedPrefix(p: seq<Plugin>, q: seq<Plugin>, rows: seq<Row>, more: seq<Row>, n: nat, k: nat)
    requires k <= |p| == |rows| && |q| == |more| && forall r <- rows + more :: n < |r|
    ensures forall i :: 0 <= i < |rows + more| ==> n < |(rows + more)[i]|
    ensures Weighted(p + q, rows + more, n, k) == Weighted(p, rows, n, k)
  {
    assert forall i :: 0 <= i < |rows + more| ==> (rows + more)[i] in rows + more;
    assert forall i :: 0 <= i < |rows| ==> rows[i] == (rows + more)[i];
    if k > 0 { WeightedPrefix(p, q, rows, more, n, k - 1); }
  }

  lemma {:induction false} WeightedConcat(p: seq<Plugin>, q: seq<Plugin>, rows: seq<Row>, more: seq<Row>, n: nat, k: nat)
    requires |p| == |rows| && k <= |q| == |more| && forall r <- rows + more :: n < |r|
    ensures forall i :: 0 <= i < |rows + more| ==> n < |(rows + more)[i]|
    ensures forall i :: 0 <= i < |more| ==> n < |more[i]|
    ensures forall i :: 0 <= i < |rows| ==> n < |rows[i]|
    ensures Weighted(p + q, rows + more, n, |p| + k) == Weighted(p, rows, n, |p|) + Weighted(q, more, n, k)
  {
    assert forall i :: 0 <= i < |rows + more| ==> (rows + more)[i] in rows + more;
    assert forall i :: 0 <= i < |rows| ==> rows[i] == (rows + more)[i];
    assert forall i :: 0 <= i < |more| ==> more[i] == (rows + more)[|rows| + i];
    if k > 0 {
      WeightedConcat(p, q, rows, more, n, k - 1);
    } else {
      WeightedPrefix(p, q, rows, more, n, |p|);
    }
  }

  lemma InPlaceConcat(p: seq<Plugin>, q: seq<Plugin>)
    ensures ReductionsInPlace(p + q) <==> ReductionsInPlace(p) && ReductionsInPlace(q)
  {
    assert forall x :: x in p + q <==> x in p || x in q;
  }

  lemma TotalConcat(p: seq<Plugin>, q: seq<Plugin>, nodes: seq<string>, missing: set<string>, n: nat)
    requires ReductionsInPlace(p + q) && n < |nodes|
    ensures ReductionsInPlace(p) && ReductionsInPlace(q)
    ensures PluginTotal(p + q, nodes, missing, n) == PluginTotal(p, nodes, missing, n) + PluginTotal(q, nodes, missing, n)
  {
    hide Weighted, ReducedCells, ReductionsInPlace;
    InPlaceConcat(p, q);
    var rows, more := ReducedCells(p, nodes, missing), ReducedCells(q, nodes, missing);
    RowsConcat(p, q, nodes, missing);
    RowsShape(p, nodes, missing);
    RowsShape(q, nodes, missing);
    WeightedConcat(p, q, rows, more, n, |q|);
  }

  lemma RowsShape(p: seq<Plugin>, nodes: seq<string>, missing: set<string>)
    requires ReductionsInPlace(p)
    ensures var rows := ReducedCells(p, nodes, missing); |rows| == |p| && forall r <- rows :: |r| == |nodes|
  {
  }

  lemma RowsConcat(p: seq<Plugin>, q: seq<Plugin>, nodes: seq<string>, missing: set<string>)
    requires ReductionsInPlace(p + q) && ReductionsInPlace(p) && ReductionsInPlace(q)
    ensures ReducedCells(p + q, nodes, missing) == ReducedCells(p, nodes, missing) + ReducedCells(q, nodes, missing)
  {
    hide Cell, Reduced;
    forall i | 0 <= i < |p + q| ensures Cells(p + q, nodes, missing)[i] == (Cells(p, nodes, missing) + Cells(q, nodes, missing))[i] {
    }
  }

  lemma ErrsConcat(p: seq<Plugin>, q: seq<Plugin>, nodes: seq<string>, missing: set<string>)
    ensures ScoringErrs(p + q, nodes, missing) <==> ScoringErrs(p, nodes, missing) || ScoringErrs(q, nodes, missing)
  {
    hide Cell, CellErrs, Reduced, ReduceErrs;
    assert forall x :: x in p + q <==> x in p || x in q;
    var a, b, c := Cells(p, nodes, missing), Cells(q, nodes, missing), Cells(p + q, nodes, missing);
    forall i | 0 <= i < |p + q| ensures c[i] == (a + b)[i] {}
    if i :| 0 <= i < |p| && ReduceErrs(p[i], a[i]) { assert ReduceErrs((p + q)[i], c[i]); }
    if i :| 0 <= i < |q| && ReduceErrs(q[i], b[i]) { assert ReduceErrs((p + q)[|p| + i], c[|p| + i]); }
  }

  // ----- Decisions with the same totals -----

  lemma SameBest(a: Row, b: Row, c: int)
    requires a != [] && |a| == |b| && forall i :: 0 <= i < |a| ==> a[i].host == b[i].host && a[i].score == b[i].score + c
    ensures a[BestIndex(a)].host == b[BestIndex(b)].host
  {
    assert LastBest(a, BestIndex(a)) && LastBest(b, BestIndex(b));
  }

  /** Filtering does not depend on the prioritizers. */
  lemma SameFiltered(a: Config, b: Config, pod: PodInfo, nodes: seq<string>, infos: Infos, cache: Cache, nominated: string -> seq<PodInfo>)
    requires a.preds == b.preds && a.extenders == b.extenders
    ensures Filtered(a, pod, nodes, infos, cache, nominated) == Filtered(b, pod, nodes, infos, cache, nominated)
  {
    hide PodFits;
    var x, y := Outcome(a, pod, infos, nominated), Outcome(b, pod, infos, nominated);
    assert forall n :: x(n) == y(n);
    PassingAlike(nodes, x, y);
  }

  /** Totals that differ by the same amount for all nodes decide alike. */
  lemma SameTotals(a: Config, b: Config, pod: PodInfo, nodes: seq<string>, infos: Infos, cache: Cache, nominated: string -> seq<PodInfo>, c: int)
    requires ReductionsInPlace(Plugins(a, pod, infos)) && ReductionsInPlace(Plugins(b, pod, infos))
    requires Filtered(a, pod, nodes, infos, cache, nominated) == Filtered(b, pod, nodes, infos, cache, nominated)
    requires forall ns: seq<string> :: Prioritized(a, pod, ns, infos, cache).Some? <==> Prioritized(b, pod, ns, infos, cache).Some?
    requires forall ns: seq<string>, i: nat :: i < |ns| ==> Score(a, pod, ns, infos, cache, i) == Score(b, pod, ns, infos, cache, i) + c
    ensures Decide(a, pod, nodes, infos, cache, nominated) == Decide(b, pod, nodes, infos, cache, nominated)
  {
    hide Filtered, Prioritized, Score;
    var f := Filtered(a, pod, nodes, infos, cache, nominated);
    if nodes != [] && f.Some? && |f.value| > 1 && Prioritized(a, pod, f.value, infos, cache).Some? {
      var x, y := Prioritized(a, pod, f.value, infos, cache).value, Prioritized(b, pod, f.value, infos, cache).value;
      forall i: nat | i < |f.value| ensures x[i].host == y[i].host && x[i].score == y[i].score + c {
        PrioritizedAt(a, pod, f.value, infos, cache, i);
        PrioritizedAt(b, pod, f.value, infos, cache, i);
      }
      SameBest(x, y, c);
    }
  }

  /** The prioritizers `z` among the others. */
  function Among(cfg: Config, a: seq<Prioritizer>, z: seq<Prioritizer>, b: seq<Prioritizer>): Config {
    cfg.(prioritizers := a + z + b)
  }

  lemma PluginsAmong(cfg: Config, a: seq<Prioritizer>, z: seq<Prioritizer>, b: seq<Prioritizer>, pod: PodInfo, infos: Infos)
    ensures Plugins(Among(cfg, a, z, b), pod, infos)
      == Plugins(Among(cfg, a, [], []), pod, infos) + Plugins(Among(cfg, [], z, []), pod, infos) + Plugins(Among(cfg, [], [], b), pod, infos)
  {
    hide PluginOf;
  }

  /** What some prioritizers contribute to a node's total. */
  ghost function Share(cfg: Config, z: seq<Prioritizer>, pod: PodInfo, nodes: seq<string>, infos: Infos, i: nat): int
    requires ReductionsInPlace(Plugins(Among(cfg, [], z, []), pod, infos)) && i < |nodes|
  {
    PluginTotal(Plugins(Among(cfg, [], z, []), pod, infos), nodes, Missing(nodes, infos), i)
  }

  ghost predicate Errs(cfg: Config, z: seq<Prioritizer>, pod: PodInfo, nodes: seq<string>, infos: Infos) {
    ScoringErrs(Plugins(Among(cfg, [], z, []), pod, infos), nodes, Missing(nodes, infos))
  }

  /** The score of a node apart from the constant it has when nothing scores. */
  ghost function Total(cfg: Config, pod: PodInfo, nodes: seq<string>, infos: Infos, cache: Cache, i: nat): int
    requires ReductionsInPlace(Plugins(cfg, pod, infos)) && i < |nodes|
  {
    PluginTotal(Plugins(cfg, pod, infos), nodes, Missing(nodes, infos), i) + ExtenderScore(cfg.extenders, pod, nodes, cache, nodes[i])
  }

  lemma ScoreIsTotal(cfg: Config, pod: PodInfo, nodes: seq<string>, infos: Infos, cache: Cache, i: nat)
    requires ReductionsInPlace(Plugins(cfg, pod, infos)) && i < |nodes|
    ensures Score(cfg, pod, nodes, infos, cache, i)
      == Total(cfg, pod, nodes, infos, cache, i) + if cfg.prioritizers == [] && cfg.extenders == [] then 1 else 0
  {
  }

  /** A total is the sum of its parts, and scoring errs if a part does. */
  lemma Parts(cfg: Config, a: seq<Prioritizer>, z: seq<Prioritizer>, b: seq<Prioritizer>, pod: PodInfo, nodes: seq<string>, infos: Infos, cache: Cache, i: nat)
    requires ReductionsInPlace(Plugins(Among(cfg, a, z, b), pod, infos)) && i < |nodes|
    ensures ReductionsInPlace(Plugins(Among(cfg, [], a, []), pod, infos)) && ReductionsInPlace(Plugins(Among(cfg, [], z, []), pod, infos))
      && ReductionsInPlace(Plugins(Among(cfg, [], b, []), pod, infos))
    ensures Total(Among(cfg, a, z, b), pod, nodes, infos, cache, i)
      == Share(cfg, a, pod, nodes, infos, i) + Share(cfg, z, pod, nodes, infos, i) + Share(cfg, b, pod, nodes, infos, i)
         + ExtenderScore(cfg.extenders, pod, nodes, cache, nodes[i])
  {
    hide PluginTotal, Plugins, ReductionsInPlace;
    PluginsAmong(cfg, a, z, b, pod, infos);
    assert Among(cfg, a, [], []) == Among(cfg, [], a, []) && Among(cfg, [], [], b) == Among(cfg, [], b, []);
    var p, q, r := Plugins(Among(cfg, [], a, []), pod, infos), Plugins(Among(cfg, [], z, []), pod, infos), Plugins(Among(cfg, [], b, []), pod, infos);
    TotalConcat(p + q, r, nodes, Missing(nodes, infos), i);
    TotalConcat(p, q, nodes, Missing(nodes, infos), i);
  }

  lemma PartsErr(cfg: Config, a: seq<Prioritizer>, z: seq<Prioritizer>, b: seq<Prioritizer>, pod: PodInfo, nodes: seq<string>, infos: Infos)
    ensures ScoringErrs(Plugins(Among(cfg, a, z, b), pod, infos), nodes, Missing(nodes, infos))
      <==> Errs(cfg, a, pod, nodes, infos) || Errs(cfg, z, pod, nodes, infos) || Errs(cfg, b, pod, nodes, infos)
  {
    hide ScoringErrs, Plugins;
    PluginsAmong(cfg, a, z, b, pod, infos);
    assert Among(cfg, a, [], []) == Among(cfg, [], a, []) && Among(cfg, [], [], b) == Among(cfg, [], b, []);
    var p, q, r := Plugins(Among(cfg, [], a, []), pod, infos), Plugins(Among(cfg, [], z, []), pod, infos), Plugins(Among(cfg, [], b, []), pod, infos);
    ErrsConcat(p + q, r, nodes, Missing(nodes, infos));
    ErrsConcat(p, q, nodes, Missing(nodes, infos));
  }

  // ----- No weight and double weight -----

  /** The prioritizer scores every node the scheduler knows, and its reduction never fails. */
  ghost predicate NeverErrs(z: Prioritizer, pod: PodInfo, infos: Infos) {
    && (z.hasFunction || forall n :: n in infos ==> z.score(pod, infos[n]).Some?)
    && (z.reduce.Some? ==> forall row :: z.reduce.value(pod, infos, row).Some?)
  }

  lemma OneShare(cfg: Config, z: Prioritizer, pod: PodInfo, nodes: seq<string>, infos: Infos, i: nat)
    requires ReductionsInPlace(Plugins(Among(cfg, [], [z], []), pod, infos)) && i < |nodes|
    ensures var row := Reduced(PluginOf(z, pod, infos), Cells([PluginOf(z, pod, infos)], nodes, Missing(nodes, infos))[0]);
      |row| == |nodes| && Share(cfg, [z], pod, nodes, infos, i) == row[i].score * z.weight
  {
    hide Cell, Reduced, PluginOf;
    WeightIs(z, pod, infos);
    assert [] + [z] + [] == [z];
    var plugins := Plugins(Among(cfg, [], [z], []), pod, infos);
    assert plugins == [PluginOf(z, pod, infos)];
    var rows := ReducedCells(plugins, nodes, Missing(nodes, infos));
    assert Weighted(plugins, rows, i, 1) == Weighted(plugins, rows, i, 0) + rows[0][i].score * plugins[0].weight;
  }

  lemma NoShare(cfg: Config, pod: PodInfo, nodes: seq<string>, infos: Infos, i: nat)
    requires i < |nodes|
    ensures ReductionsInPlace(Plugins(Among(cfg, [], [], []), pod, infos)) && Share(cfg, [], pod, nodes, infos, i) == 0
  {
  }

  lemma ErrsIfMissing(cfg: Config, z: seq<Prioritizer>, pod: PodInfo, nodes: seq<string>, infos: Infos)
    ensures Missing(nodes, infos) != {} ==> Errs(cfg, z, pod, nodes, infos)
    ensures z == [] && Errs(cfg, z, pod, nodes, infos) ==> Missing(nodes, infos) != {}
    ensures |z| == 1 && NeverErrs(z[0], pod, infos) && Errs(cfg, z, pod, nodes, infos) ==> Missing(nodes, infos) != {}
  {
    hide Reduced, NeverErrs, PluginOf;
    if Missing(nodes, infos) != {} {
      var n :| n in Missing(nodes, infos);
      assert n in nodes;
    }
    if |z| == 1 && NeverErrs(z[0], pod, infos) && Missing(nodes, infos) == {} {
      assert [] + z + [] == [z[0]];
      OneNeverErrs(z[0], pod, nodes, infos);
      assert Plugins(Among(cfg, [], z, []), pod, infos) == [PluginOf(z[0], pod, infos)];
    }
  }

  lemma OneNeverErrs(z: Prioritizer, pod: PodInfo, nodes: seq<string>, infos: Infos)
    requires NeverErrs(z, pod, infos) && Missing(nodes, infos) == {}
    ensures !ScoringErrs([PluginOf(z, pod, infos)], nodes, {})
  {
    hide Cells;
    var plugin := PluginOf(z, pod, infos);
    forall n | n in nodes ensures !CellErrs(plugin, n) {
      assert n in infos || n in Missing(nodes, infos);
    }
    assert forall p :: p in [plugin] ==> p == plugin;
  }

  /** THEOREM.  A prioritizer of weight 0 that never errs changes no decision. */
  lemma ZeroWeightIsNothing(
    cfg: Config, a: seq<Prioritizer>, z: Prioritizer, b: seq<Prioritizer>, pod: PodInfo, nodes: seq<string>, infos: Infos, cache: Cache,
    nominated: string -> seq<PodInfo>)
    requires ReductionsInPlace(Plugins(Among(cfg, a, [z], b), pod, infos)) && ReductionsInPlace(Plugins(Among(cfg, a, [], b), pod, infos))
    requires z.weight == 0 && NeverErrs(z, pod, infos)
    ensures Decide(Among(cfg, a, [z], b), pod, nodes, infos, cache, nominated)
         == Decide(Among(cfg, a, [], b), pod, nodes, infos, cache, nominated)
  {
    hide ScoringErrs, PluginTotal, Plugins, ReductionsInPlace, NeverErrs, ExtendAll, Outcome, Score, Total, Share, Errs;
    var x, y := Among(cfg, a, [z], b), Among(cfg, a, [], b);
    forall ns: seq<string> ensures Prioritized(x, pod, ns, infos, cache).Some? <==> Prioritized(y, pod, ns, infos, cache).Some? {
      ZeroWeightErrs(cfg, a, z, b, pod, ns, infos, cache);
    }
    var c := if y.prioritizers == [] && y.extenders == [] then -1 else 0;
    forall ns: seq<string>, i: nat | i < |ns|
      ensures Score(x, pod, ns, infos, cache, i) == Score(y, pod, ns, infos, cache, i) + c
    {
      ScoreIsTotal(x, pod, ns, infos, cache, i);
      ScoreIsTotal(y, pod, ns, infos, cache, i);
      Parts(cfg, a, [z], b, pod, ns, infos, cache, i);
      Parts(cfg, a, [], b, pod, ns, infos, cache, i);
      OneShare(cfg, z, pod, ns, infos, i);
      NoShare(cfg, pod, ns, infos, i);
    }
    SameFiltered(x, y, pod, nodes, infos, cache, nominated);
    SameTotals(x, y, pod, nodes, infos, cache, nominated, c);
  }

  lemma ZeroWeightErrs(cfg: Config, a: seq<Prioritizer>, z: Prioritizer, b: seq<Prioritizer>, pod: PodInfo, ns: seq<string>, infos: Infos, cache: Cache)
    requires ReductionsInPlace(Plugins(Among(cfg, a, [z], b), pod, infos)) && ReductionsInPlace(Plugins(Among(cfg, a, [], b), pod, infos))
    requires NeverErrs(z, pod, infos)
    ensures Prioritized(Among(cfg, a, [z], b), pod, ns, infos, cache).Some? <==> Prioritized(Among(cfg, a, [], b), pod, ns, infos, cache).Some?
  {
    hide ScoringErrs, Plugins, ReductionsInPlace, NeverErrs, Errs, PluginScores;
    PartsErr(cfg, a, [z], b, pod, ns, infos);
    PartsErr(cfg, a, [], b, pod, ns, infos);
    ErrsIfMissing(cfg, a, pod, ns, infos);
    ErrsIfMissing(cfg, b, pod, ns, infos);
    ErrsIfMissing(cfg, [], pod, ns, infos);
    ErrsIfMissing(cfg, [z], pod, ns, infos);
  }

  /** Twice the same prioritizer counts like one of twice the weight. */
  lemma TwoShares(cfg: Config, z: Prioritizer, pod: PodInfo, nodes: seq<string>, infos: Infos, i: nat)
    requires ReductionsInPlace(Plugins(Among(cfg, [], [z], []), pod, infos)) && i < |nodes|
    ensures var w := z.(weight := 2 * z.weight);
      && ReductionsInPlace(Plugins(Among(cfg, [], [w], []), pod, infos)) && ReductionsInPlace(Plugins(Among(cfg, [], [z, z], []), pod, infos))
      && Share(cfg, [z, z], pod, nodes, infos, i) == Share(cfg, [w], pod, nodes, infos, i)
  {
    hide PluginTotal;
    var w := z.(weight := 2 * z.weight);
    var p, q := PluginOf(z, pod, infos), PluginOf(w, pod, infos);
    assert Plugins(Among(cfg, [], [z], []), pod, infos) == [p];
    assert Plugins(Among(cfg, [], [w], []), pod, infos) == [q];
    assert Plugins(Among(cfg, [], [z, z], []), pod, infos) == [p] + [p];
    SameRow(z, pod, infos);
    InPlaceConcat([p], [p]);
    TotalConcat([p], [p], nodes, Missing(nodes, infos), i);
    OneShare(cfg, z, pod, nodes, infos, i);
    OneShare(cfg, w, pod, nodes, infos, i);
    assert Cells([p], nodes, Missing(nodes, infos))[0] == Cells([q], nodes, Missing(nodes, infos))[0];
  }

  /** A weight changes neither what a prioritizer scores nor when it errs. */
  lemma SameRow(z: Prioritizer, pod: PodInfo, infos: Infos)
    ensures var p, q := PluginOf(z, pod, infos), PluginOf(z.(weight := 2 * z.weight), pod, infos);
      && (forall row: Row :: Reduced(p, row) == Reduced(q, row) && ReduceErrs(p, row) == ReduceErrs(q, row))
      && forall missing: set<string>, n: string :: Cell(p, missing, n) == Cell(q, missing, n) && CellErrs(p, n) == CellErrs(q, n)
  {
  }

  lemma TwiceErrs(cfg: Config, z: Prioritizer, pod: PodInfo, nodes: seq<string>, infos: Infos)
    ensures Errs(cfg, [z, z], pod, nodes, infos) <==> Errs(cfg, [z.(weight := 2 * z.weight)], pod, nodes, infos)
  {
    var w := z.(weight := 2 * z.weight);
    var p, q, missing := PluginOf(z, pod, infos), PluginOf(w, pod, infos), Missing(nodes, infos);
    assert Plugins(Among(cfg, [], [w], []), pod, infos) == [q];
    assert Plugins(Among(cfg, [], [z, z], []), pod, infos) == [p] + [p];
    SameRow(z, pod, infos);
    ErrsConcat([p], [p], nodes, missing);
    assert Cells([p], nodes, missing)[0] == Cells([q], nodes, missing)[0];
    assert [p][0] == p && [q][0] == q;
  }

  /** THEOREM.  A prioritizer of weight 2w decides like the same prioritizer twice with weight w. */
  lemma DoubleWeightIsTwice(
    cfg: Config, a: seq<Prioritizer>, z: Prioritizer, b: seq<Prioritizer>, pod: PodInfo, nodes: seq<string>, infos: Infos, cache: Cache,
    nominated: string -> seq<PodInfo>)
    requires var w := z.(weight := 2 * z.weight);
      ReductionsInPlace(Plugins(Among(cfg, a, [w], b), pod, infos)) && ReductionsInPlace(Plugins(Among(cfg, a, [z, z], b), pod, infos))
      && ReductionsInPlace(Plugins(Among(cfg, [], [z], []), pod, infos))
    ensures Decide(Among(cfg, a, [z.(weight := 2 * z.weight)], b), pod, nodes, infos, cache, nominated)
         == Decide(Among(cfg, a, [z, z], b), pod, nodes, infos, cache, nominated)
  {
    hide ScoringErrs, PluginScores, PluginTotal, Plugins, ReductionsInPlace, ExtendAll, Outcome, Score, Total, Share, Errs;
    var w := z.(weight := 2 * z.weight);
    var x, y := Among(cfg, a, [w], b), Among(cfg, a, [z, z], b);
    forall ns: seq<string> ensures Prioritized(x, pod, ns, infos, cache).Some? <==> Prioritized(y, pod, ns, infos, cache).Some? {
      PartsErr(cfg, a, [w], b, pod, ns, infos);
      PartsErr(cfg, a, [z, z], b, pod, ns, infos);
      TwiceErrs(cfg, z, pod, ns, infos);
    }
    forall ns: seq<string>, i: nat | i < |ns|
      ensures Score(x, pod, ns, infos, cache, i) == Score(y, pod, ns, infos, cache, i) + 0
    {
      ScoreIsTotal(x, pod, ns, infos, cache, i);
      ScoreIsTotal(y, pod, ns, infos, cache, i);
      Parts(cfg, a, [w], b, pod, ns, infos, cache, i);
      Parts(cfg, a, [z, z], b, pod, ns, infos, cache, i);
      TwoShares(cfg, z, pod, ns, infos, i);
    }
    SameFiltered(x, y, pod, nodes, infos, cache, nominated);
    SameTotals(x, y, pod, nodes, infos, cache, nominated, 0);
  }
}
