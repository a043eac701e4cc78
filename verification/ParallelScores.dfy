// The parallel scoring phases (`prioritizeWithPlugins` in pkg/scheduler/plugin.go) under every
// interleaving, and the choice of a host (`findMaxScores`, `selectHost`).

module ParallelScores {
  import opened Prelude
  import opened Workers

  datatype HostPriority = HostPriority(host: string, score: int)

  type Row = seq<HostPriority>

  /** A prioritizer: a score or an error for each node name, unless it has the deprecated Function; and a
      reduction of its row of scores, None standing for an error. */
  datatype Plugin = Plugin(weight: int, hasFunction: bool, score: string -> Option<int>, reduce: Option<Row -> Option<Row>>)

  const ZERO := HostPriority("", 0)

  /** What the map phase leaves in the cell of a plugin and a node. */
  function Cell(p: Plugin, missing: set<string>, node: string): HostPriority {
    if node in missing || p.hasFunction then ZERO
    else HostPriority(node, if p.score(node).Some? then p.score(node).value else 0)
  }

  predicate CellErrs(p: Plugin, node: string) {
    !p.hasFunction && p.score(node).None?
  }

  // ----- Map phase: one worker per node, writing its column top down -----

  /** `pcs[n]` is 0 before the worker on node `n` looks the node up, then 1 + the next plugin's index. */
  datatype MapState = MapState(rows: seq<Row>, pcs: seq<nat>, errs: nat)

  function MapInit(plugins: seq<Plugin>, nodes: seq<string>): MapState {
    MapState(seq(|plugins|, p => seq(|nodes|, n => ZERO)), seq(|nodes|, n => 0), 0)
  }

  ghost predicate Shape(plugins: seq<Plugin>, nodes: seq<string>, rows: seq<Row>) {
    |rows| == |plugins| && forall p :: 0 <= p < |plugins| ==> |rows[p]| == |nodes|
  }

  function MapStep(plugins: seq<Plugin>, nodes: seq<string>, missing: set<string>, s: MapState, n: nat): MapState
    requires Shape(plugins, nodes, s.rows) && |s.pcs| == |nodes| && n < |nodes|
  {
    var pc, node := s.pcs[n], nodes[n];
    if pc > |plugins| then s
    else if pc == 0 then
      if node in missing then s.(pcs := s.pcs[n := |plugins| + 1], errs := s.errs + 1) else s.(pcs := s.pcs[n := 1])
    else
      var p := plugins[pc - 1];
      s.(pcs := s.pcs[n := pc + 1],
         rows := if p.hasFunction then s.rows else s.rows[pc - 1 := s.rows[pc - 1][n := Cell(p, missing, node)]],
         errs := if CellErrs(p, node) then s.errs + 1 else s.errs)
  }

  /** The worker on a node has met an error by the time its counter is `pc`. */
  ghost predicate ErrBy(plugins: seq<Plugin>, missing: set<string>, node: string, pc: nat) {
    pc > 0 && (node in missing || exists p :: 0 <= p < |plugins| && p < pc - 1 && CellErrs(plugins[p], node))
  }

  ghost predicate MapInv(plugins: seq<Plugin>, nodes: seq<string>, missing: set<string>, s: MapState) {
    && Shape(plugins, nodes, s.rows) && |s.pcs| == |nodes|
    && (forall n :: 0 <= n < |nodes| && nodes[n] in missing ==> s.pcs[n] == 0 || s.pcs[n] == |plugins| + 1)
    && (forall p, n :: 0 <= p < |plugins| && 0 <= n < |nodes| ==>
          s.rows[p][n] == if s.pcs[n] > p + 1 then Cell(plugins[p], missing, nodes[n]) else ZERO)
    && (s.errs > 0 <==> exists n :: 0 <= n < |nodes| && ErrBy(plugins, missing, nodes[n], s.pcs[n]))
  }

  lemma MapStepCells(plugins: seq<Plugin>, nodes: seq<string>, missing: set<string>, s: MapState, i: nat)
    requires MapInv(plugins, nodes, missing, s) && i < |nodes|
    ensures var t := MapStep(plugins, nodes, missing, s, i);
      && Shape(plugins, nodes, t.rows) && |t.pcs| == |nodes|
      && forall p, n :: 0 <= p < |plugins| && 0 <= n < |nodes| ==>
           t.rows[p][n] == if t.pcs[n] > p + 1 then Cell(plugins[p], missing, nodes[n]) else ZERO
  {
  }

  /** After an action a worker has met an error if it had before, or meets one now. */
  lemma ErrByStep(plugins: seq<Plugin>, nodes: seq<string>, missing: set<string>, s: MapState, i: nat)
    requires Shape(plugins, nodes, s.rows) && |s.pcs| == |nodes| && i < |nodes|
    ensures var t := MapStep(plugins, nodes, missing, s, i);
      && |t.pcs| == |nodes| && t.errs >= s.errs
      && (forall n :: 0 <= n < |nodes| && n != i ==> t.pcs[n] == s.pcs[n])
      && (ErrBy(plugins, missing, nodes[i], t.pcs[i]) <==> ErrBy(plugins, missing, nodes[i], s.pcs[i]) || t.errs > s.errs)
  {
    var pc := s.pcs[i];
    if 0 < pc <= |plugins| && CellErrs(plugins[pc - 1], nodes[i]) {
      assert ErrBy(plugins, missing, nodes[i], pc + 1);
    }
  }

  lemma MapStepErrs(plugins: seq<Plugin>, nodes: seq<string>, missing: set<string>, s: MapState, i: nat)
    requires MapInv(plugins, nodes, missing, s) && i < |nodes|
    ensures var t := MapStep(plugins, nodes, missing, s, i);
      && |t.pcs| == |nodes|
      && (t.errs > 0 <==> exists n :: 0 <= n < |nodes| && ErrBy(plugins, missing, nodes[n], t.pcs[n]))
  {
    ErrByStep(plugins, nodes, missing, s, i);
    hide MapStep, ErrBy;
    var t := MapStep(plugins, nodes, missing, s, i);
    forall n | 0 <= n < |nodes| && n != i
      ensures ErrBy(plugins, missing, nodes[n], t.pcs[n]) == ErrBy(plugins, missing, nodes[n], s.pcs[n])
    {
    }
  }

  /** Every atomic action keeps the invariant and advances its own worker only. */
  lemma MapStepInv(plugins: seq<Plugin>, nodes: seq<string>, missing: set<string>, s: MapState, i: nat)
    requires MapInv(plugins, nodes, missing, s) && i < |nodes|
    ensures var t := MapStep(plugins, nodes, missing, s, i);
      && MapInv(plugins, nodes, missing, t)
      && (forall n :: 0 <= n < |nodes| && n != i ==> t.pcs[n] == s.pcs[n])
      && (t.pcs[i] > s.pcs[i] || t.pcs[i] > |plugins|)
  {
    MapStepCells(plugins, nodes, missing, s, i);
    MapStepErrs(plugins, nodes, missing, s, i);
  }

  function MapRun(plugins: seq<Plugin>, nodes: seq<string>, missing: set<string>, s: MapState, sched: seq<nat>): (t: MapState)
    requires MapInv(plugins, nodes, missing, s) && Within(sched, |nodes|)
    ensures MapInv(plugins, nodes, missing, t)
    decreases |sched|
  {
    if sched == [] then s else
      MapStepInv(plugins, nodes, missing, s, sched[0]);
      MapRun(plugins, nodes, missing, MapStep(plugins, nodes, missing, s, sched[0]), sched[1..])
  }

  /** The matrix of cells. */
  function Cells(plugins: seq<Plugin>, nodes: seq<string>, missing: set<string>): (rows: seq<Row>)
    ensures Shape(plugins, nodes, rows)
    ensures forall p, n :: 0 <= p < |plugins| && 0 <= n < |nodes| ==> rows[p][n] == Cell(plugins[p], missing, nodes[n])
  {
    seq(|plugins|, p requires 0 <= p < |plugins| =>
      seq(|nodes|, n requires 0 <= n < |nodes| => Cell(plugins[p], missing, nodes[n])))
  }

  ghost predicate MapErrs(plugins: seq<Plugin>, nodes: seq<string>, missing: set<string>) {
    exists n :: n in nodes && (n in missing || exists p :: p in plugins && CellErrs(p, n))
  }

  lemma ErrByEnd(plugins: seq<Plugin>, missing: set<string>, node: string, pc: nat)
    requires pc > |plugins|
    ensures ErrBy(plugins, missing, node, pc) <==> node in missing || exists p :: p in plugins && CellErrs(p, node)
  {
    if exists p :: p in plugins && CellErrs(p, node) {
      var p :| p in plugins && CellErrs(p, node);
      var i :| 0 <= i < |plugins| && plugins[i] == p;
      assert i < pc - 1 && CellErrs(plugins[i], node);
    }
  }

  ghost predicate MapDone(plugins: seq<Plugin>, s: MapState) {
    forall n :: 0 <= n < |s.pcs| ==> s.pcs[n] > |plugins|
  }

  /** What the invariant says of a finished map phase. */
  lemma MapDoneAgrees(plugins: seq<Plugin>, nodes: seq<string>, missing: set<string>, t: MapState)
    requires MapInv(plugins, nodes, missing, t) && MapDone(plugins, t)
    ensures t.rows == Cells(plugins, nodes, missing) && (t.errs > 0 <==> MapErrs(plugins, nodes, missing))
  {
    var cells := Cells(plugins, nodes, missing);
    forall p | 0 <= p < |plugins| ensures t.rows[p] == cells[p] {
      assert forall n :: 0 <= n < |nodes| ==> t.rows[p][n] == cells[p][n];
    }
    forall n | 0 <= n < |nodes|
      ensures ErrBy(plugins, missing, nodes[n], t.pcs[n])
        <==> nodes[n] in missing || exists p :: p in plugins && CellErrs(p, nodes[n])
    {
      ErrByEnd(plugins, missing, nodes[n], t.pcs[n]);
    }
  }

  /** THEOREM.  Under every interleaving the finished map phase leaves the same matrix, and an error if
      and only if some node is missing or some plugin errs on some node. */
  lemma EveryMapRunAgrees(plugins: seq<Plugin>, nodes: seq<string>, missing: set<string>, sched: seq<nat>)
    requires Within(sched, |nodes|) && MapInv(plugins, nodes, missing, MapInit(plugins, nodes))
    requires MapDone(plugins, MapRun(plugins, nodes, missing, MapInit(plugins, nodes), sched))
    ensures var t := MapRun(plugins, nodes, missing, MapInit(plugins, nodes), sched);
      t.rows == Cells(plugins, nodes, missing) && (t.errs > 0 <==> MapErrs(plugins, nodes, missing))
  {
    MapDoneAgrees(plugins, nodes, missing, MapRun(plugins, nodes, missing, MapInit(plugins, nodes), sched));
  }

  /** A worker is done after one action more than there are plugins, whatever the others do. */
  lemma {:induction false} MapTurnsFinish(plugins: seq<Plugin>, nodes: seq<string>, missing: set<string>, s: MapState, sched: seq<nat>, n: nat)
    requires MapInv(plugins, nodes, missing, s) && Within(sched, |nodes|) && n < |nodes|
    requires s.pcs[n] + Turns(sched, n) > |plugins|
    ensures MapRun(plugins, nodes, missing, s, sched).pcs[n] > |plugins|
    decreases |sched|
  {
    if sched != [] {
      var t := MapStep(plugins, nodes, missing, s, sched[0]);
      MapStepInv(plugins, nodes, missing, s, sched[0]);
      MapTurnsFinish(plugins, nodes, missing, t, sched[1..], n);
    }
  }

  lemma MapStart(plugins: seq<Plugin>, nodes: seq<string>, missing: set<string>)
    ensures MapInv(plugins, nodes, missing, MapInit(plugins, nodes))
  {
  }

  // ----- Reduce phase: one worker per plugin, each on its own row -----

  datatype ReduceState = ReduceState(rows: seq<Row>, done: seq<bool>, errs: nat)

  /** A row after its plugin's reduction; a reduction that errs leaves the row. */
  function Reduced(p: Plugin, row: Row): Row {
    if p.reduce.Some? && p.reduce.value(row).Some? then p.reduce.value(row).value else row
  }

  predicate ReduceErrs(p: Plugin, row: Row) {
    p.reduce.Some? && p.reduce.value(row).None?
  }

  function ReduceStep(plugins: seq<Plugin>, s: ReduceState, p: nat): ReduceState
    requires |s.rows| == |s.done| == |plugins| && p < |plugins|
  {
    if s.done[p] then s else
      s.(rows := s.rows[p := Reduced(plugins[p], s.rows[p])], done := s.done[p := true],
         errs := if ReduceErrs(plugins[p], s.rows[p]) then s.errs + 1 else s.errs)
  }

  ghost predicate ReduceInv(plugins: seq<Plugin>, rows: seq<Row>, s: ReduceState) {
    && |s.rows| == |s.done| == |plugins| == |rows|
    && (forall p :: 0 <= p < |plugins| ==> s.rows[p] == if s.done[p] then Reduced(plugins[p], rows[p]) else rows[p])
    && (s.errs > 0 <==> exists p :: 0 <= p < |plugins| && s.done[p] && ReduceErrs(plugins[p], rows[p]))
  }

  lemma ReduceStepInv(plugins: seq<Plugin>, rows: seq<Row>, s: ReduceState, p: nat)
    requires ReduceInv(plugins, rows, s) && p < |plugins|
    ensures ReduceInv(plugins, rows, ReduceStep(plugins, s, p))
  {
    var t := ReduceStep(plugins, s, p);
    assert forall q :: 0 <= q < |plugins| && s.done[q] ==> t.done[q];
    if !s.done[p] && ReduceErrs(plugins[p], s.rows[p]) { assert t.done[p] && ReduceErrs(plugins[p], rows[p]); }
  }

  function ReduceRun(plugins: seq<Plugin>, rows: seq<Row>, s: ReduceState, sched: seq<nat>): (t: ReduceState)
    requires ReduceInv(plugins, rows, s) && Within(sched, |plugins|)
    ensures ReduceInv(plugins, rows, t)
    ensures forall p :: 0 <= p < |plugins| && (s.done[p] || p in sched) ==> t.done[p]
    decreases |sched|
  {
    if sched == [] then s else
      ReduceStepInv(plugins, rows, s, sched[0]);
      ReduceRun(plugins, rows, ReduceStep(plugins, s, sched[0]), sched[1..])
  }

  // ----- Sums -----

  /** The weighted sum of the first `k` plugins' scores for node `n`. */
  function Weighted(plugins: seq<Plugin>, rows: seq<Row>, n: nat, k: nat): int
    requires k <= |plugins| == |rows| && forall p :: 0 <= p < |rows| ==> n < |rows[p]|
  {
    if k == 0 then 0 else Weighted(plugins, rows, n, k - 1) + rows[k - 1][n].score * plugins[k - 1].weight
  }

  /** Reductions keep the length of their row: they work on the slice in place. */
  ghost predicate ReductionsInPlace(plugins: seq<Plugin>) {
    forall p, row: Row :: p in plugins ==> |Reduced(p, row)| == |row|
  }

  function ReducedCells(plugins: seq<Plugin>, nodes: seq<string>, missing: set<string>): (rows: seq<Row>)
    requires ReductionsInPlace(plugins)
    ensures Shape(plugins, nodes, rows)
  {
    var cells := Cells(plugins, nodes, missing);
    seq(|plugins|, p requires 0 <= p < |plugins| => Reduced(plugins[p], cells[p]))
  }

  ghost predicate ScoringErrs(plugins: seq<Plugin>, nodes: seq<string>, missing: set<string>) {
    || MapErrs(plugins, nodes, missing)
    || exists p :: 0 <= p < |plugins| && ReduceErrs(plugins[p], Cells(plugins, nodes, missing)[p])
  }

  /** Each node with the weighted sum of its reduced scores. */
  function PluginScores(plugins: seq<Plugin>, nodes: seq<string>, missing: set<string>): Row
    requires ReductionsInPlace(plugins)
  {
    var rows := ReducedCells(plugins, nodes, missing);
    seq(|nodes|, n requires 0 <= n < |nodes| => HostPriority(nodes[n], Weighted(plugins, rows, n, |plugins|)))
  }

  /** The final double loop. */
  method SumUp(plugins: seq<Plugin>, nodes: seq<string>, rows: seq<Row>) returns (prioList: Row)
    requires Shape(plugins, nodes, rows)
    ensures |prioList| == |nodes|
    ensures forall n :: 0 <= n < |nodes| ==> prioList[n] == HostPriority(nodes[n], Weighted(plugins, rows, n, |plugins|))
  {
    prioList := [];
    for n := 0 to |nodes|
      invariant |prioList| == n
      invariant forall m :: 0 <= m < n ==> prioList[m] == HostPriority(nodes[m], Weighted(plugins, rows, m, |plugins|))
    {
      prioList := prioList + [HostPriority(nodes[n], 0)];
      for p := 0 to |plugins|
        invariant |prioList| == n + 1 && prioList[n] == HostPriority(nodes[n], Weighted(plugins, rows, n, p))
        invariant forall m :: 0 <= m < n ==> prioList[m] == HostPriority(nodes[m], Weighted(plugins, rows, m, |plugins|))
      {
        prioList := prioList[n := prioList[n].(score := prioList[n].score + rows[p][n].score * plugins[p].weight)];
      }
    }
  }

  /** `prioritizeWithPlugins`, its workers interleaved as the schedules say. */
  method PrioritizeWithPlugins(plugins: seq<Plugin>, nodes: seq<string>, missing: set<string>, mapSched: seq<nat>, reduceSched: seq<nat>)
    returns (prioList: Row, err: bool)
    requires ReductionsInPlace(plugins)
    requires Within(mapSched, |nodes|) && forall n: nat :: n < |nodes| ==> Turns(mapSched, n) > |plugins|
    requires Within(reduceSched, |plugins|) && forall p: nat :: p < |plugins| ==> p in reduceSched
    ensures err <==> ScoringErrs(plugins, nodes, missing)
    ensures !err ==> prioList == PluginScores(plugins, nodes, missing)
    ensures err ==> prioList == []
  {
    MapStart(plugins, nodes, missing);
    forall n: nat | n < |nodes|
      ensures MapRun(plugins, nodes, missing, MapInit(plugins, nodes), mapSched).pcs[n] > |plugins|
    {
      MapTurnsFinish(plugins, nodes, missing, MapInit(plugins, nodes), mapSched, n);
    }
    EveryMapRunAgrees(plugins, nodes, missing, mapSched);
    var t := MapRun(plugins, nodes, missing, MapInit(plugins, nodes), mapSched);
    var r0 := ReduceState(t.rows, seq(|plugins|, p => false), 0);
    assert ReduceInv(plugins, t.rows, r0);
    var r := ReduceRun(plugins, t.rows, r0, reduceSched);
    if t.errs + r.errs != 0 {
      return [], true;
    }
    assert r.rows == ReducedCells(plugins, nodes, missing);
    prioList := SumUp(plugins, nodes, r.rows);
    err := false;
  }

  // ----- selectHost -----

  /** The last index of greatest score. */
  ghost predicate LastBest(prios: Row, i: nat) {
    && i < |prios|
    && (forall j :: 0 <= j < |prios| ==> prios[j].score <= prios[i].score)
    && forall j :: i < j < |prios| ==> prios[j].score < prios[i].score
  }

  function BestIndex(prios: Row): (i: nat)
    requires prios != []
    ensures LastBest(prios, i)
  {
    var n := |prios| - 1;
    if n == 0 then 0 else
      var i := BestIndex(prios[..n]);
      assert LastBest(prios[..n], i);
      if prios[n].score >= prios[i].score then n else i
  }

  /** `findMaxScores`: the indices of greatest score, in order. */
  method FindMaxScores(prios: Row) returns (indexes: seq<nat>)
    requires prios != []
    ensures indexes != [] && LastBest(prios, indexes[|indexes| - 1])
    ensures forall i: nat :: i in indexes <==> i < |prios| && forall j :: 0 <= j < |prios| ==> prios[j].score <= prios[i].score
  {
    indexes := [];
    var maxScore := prios[0].score;
    for idx := 0 to |prios|
      invariant idx == 0 ==> indexes == []
      invariant idx > 0 ==> indexes != []
      invariant forall j :: 0 <= j < idx ==> prios[j].score <= maxScore
      invariant idx == 0 ==> maxScore == prios[0].score
      invariant forall i: nat :: i in indexes <==> i < idx && prios[i].score == maxScore
      invariant forall a, b :: 0 <= a < b < |indexes| ==> indexes[a] < indexes[b]
    {
      assert forall a :: 0 <= a < |indexes| ==> indexes[a] in indexes;
      if prios[idx].score > maxScore {
        maxScore := prios[idx].score;
        indexes := [idx];
      } else if prios[idx].score == maxScore {
        indexes := indexes + [idx];
      }
    }
    var last := indexes[|indexes| - 1];
    assert last in indexes;
    forall j: nat | j in indexes ensures j <= last {
      var a :| 0 <= a < |indexes| && indexes[a] == j;
    }
    assert forall j: nat :: j < |prios| && prios[j].score == maxScore ==> j in indexes;
  }

  /** `selectHost`: no round robin, the last of the best. */
  method SelectHost(prios: Row) returns (host: Option<string>)
    ensures prios == [] ==> host.None?
    ensures prios != [] ==> host == Some(prios[BestIndex(prios)].host)
  {
    if |prios| == 0 {
      return None;
    }
    var maxScores := FindMaxScores(prios);
    host := Some(prios[maxScores[|maxScores| - 1]].host);
  }
}
