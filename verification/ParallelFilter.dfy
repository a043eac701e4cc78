// The parallel predicate phase (`filterWithPlugins` in pkg/scheduler/plugin.go) under every interleaving
// of its workers' atomic actions.

module ParallelFilter {
  import opened Prelude
  import opened Workers
  import opened Victims

  /** Where the worker on one node is: not begun; the shared counter incremented; the counter found too
      large; finished. */
  datatype Pc = Start | Counted | Over | Done

  datatype State = State(
    filtered: seq<Option<string>>, filteredLen: int, errs: nat, failed: map<string, seq<string>>,
    pcs: seq<Pc>, cancelled: bool)

  /** What `podFitsOnNode` answers for each node name; a node without a NodeInfo is an error. */
  type Outcomes = string -> Fit

  function Init(nodes: seq<string>): State {
    State(seq(|nodes|, i => None), 0, 0, map[], seq(|nodes|, i => Start), false)
  }

  /** The next atomic action of the worker on node `i`. */
  function Step(nodes: seq<string>, outcome: Outcomes, s: State, i: nat): State
    requires |s.filtered| == |s.pcs| == |nodes| && i < |nodes|
  {
    match s.pcs[i]
    case Start => (
      match outcome(nodes[i])
      case Error => s.(errs := s.errs + 1, pcs := s.pcs[i := Done])
      case Fails(reasons) => s.(failed := s.failed[nodes[i] := reasons], pcs := s.pcs[i := Done])
      case Fits =>
        var len := s.filteredLen + 1;
        s.(filteredLen := len, cancelled := s.cancelled || len > |nodes|,
           pcs := s.pcs[i := if len > |nodes| then Over else Counted]))
    case Counted => s.(filtered := s.filtered[i := Some(nodes[i])], pcs := s.pcs[i := Done])
    case Over => s.(filteredLen := s.filteredLen - 1, pcs := s.pcs[i := Done])
    case Done => s
  }

  function CountTrue(b: seq<bool>): nat {
    if b == [] then 0 else CountTrue(b[..|b| - 1]) + if b[|b| - 1] then 1 else 0
  }

  lemma {:induction false} CountSet(b: seq<bool>, i: nat)
    requires i < |b| && !b[i]
    ensures CountTrue(b[i := true]) == CountTrue(b) + 1 <= |b|
  {
    var c := b[i := true];
    if i == |b| - 1 {
      assert c[..i] == b[..i];
      CountBound(b[..i]);
    } else {
      assert c[..|b| - 1] == b[..|b| - 1][i := true];
      CountSet(b[..|b| - 1], i);
    }
  }

  lemma {:induction false} CountBound(b: seq<bool>)
    ensures CountTrue(b) <= |b|
  {
    if b != [] { CountBound(b[..|b| - 1]); }
  }

  /** Which nodes have been counted. */
  function CountedFlags(nodes: seq<string>, outcome: Outcomes, pcs: seq<Pc>): (b: seq<bool>)
    requires |pcs| == |nodes|
    ensures |b| == |nodes|
  {
    seq(|nodes|, i requires 0 <= i < |nodes| => pcs[i] != Start && outcome(nodes[i]).Fits?)
  }

  /** The slots and the counter. */
  ghost predicate SlotsInv(nodes: seq<string>, outcome: Outcomes, s: State) {
    && |s.filtered| == |s.pcs| == |nodes| && !s.cancelled
    && (forall i :: 0 <= i < |nodes| ==> s.pcs[i] != Over && (s.pcs[i] == Counted ==> outcome(nodes[i]).Fits?))
    && (forall i :: 0 <= i < |nodes| ==>
          s.filtered[i] == if s.pcs[i] == Done && outcome(nodes[i]).Fits? then Some(nodes[i]) else None)
    && s.filteredLen == CountTrue(CountedFlags(nodes, outcome, s.pcs))
  }

  /** Some worker has finished on a node with this outcome. */
  ghost predicate Finished(nodes: seq<string>, pcs: seq<Pc>, n: string)
    requires |pcs| == |nodes|
  {
    exists i :: 0 <= i < |nodes| && nodes[i] == n && pcs[i] == Done
  }

  /** The error count and the failure reasons. */
  ghost predicate ReportsInv(nodes: seq<string>, outcome: Outcomes, s: State)
    requires |s.pcs| == |nodes|
  {
    && (s.errs > 0 <==> exists n :: Finished(nodes, s.pcs, n) && outcome(n).Error?)
    && (forall n :: n in s.failed <==> Finished(nodes, s.pcs, n) && outcome(n).Fails?)
    && (forall n :: n in s.failed ==> s.failed[n] == outcome(n).reasons)
  }

  ghost predicate Inv(nodes: seq<string>, outcome: Outcomes, s: State) {
    SlotsInv(nodes, outcome, s) && ReportsInv(nodes, outcome, s)
  }

  lemma {:induction false} CountNone(b: seq<bool>)
    requires forall i :: 0 <= i < |b| ==> !b[i]
    ensures CountTrue(b) == 0
  {
    if b != [] { CountNone(b[..|b| - 1]); }
  }

  lemma InitInv(nodes: seq<string>, outcome: Outcomes)
    ensures Inv(nodes, outcome, Init(nodes))
  {
    CountNone(CountedFlags(nodes, outcome, Init(nodes).pcs));
  }

  lemma StepSlots(nodes: seq<string>, outcome: Outcomes, s: State, i: nat)
    requires SlotsInv(nodes, outcome, s) && i < |nodes|
    ensures SlotsInv(nodes, outcome, Step(nodes, outcome, s, i))
  {
    var t := Step(nodes, outcome, s, i);
    var before := CountedFlags(nodes, outcome, s.pcs);
    if s.pcs[i] == Start && outcome(nodes[i]).Fits? {
      CountSet(before, i);
      assert CountedFlags(nodes, outcome, t.pcs) == before[i := true];
    } else {
      assert CountedFlags(nodes, outcome, t.pcs) == before;
    }
  }

  lemma StepFinishes(nodes: seq<string>, pcs: seq<Pc>, i: nat, pc: Pc, n: string)
    requires |pcs| == |nodes| && i < |nodes| && pcs[i] != Done
    ensures Finished(nodes, pcs[i := pc], n) <==> Finished(nodes, pcs, n) || (n == nodes[i] && pc == Done)
  {
    var after := pcs[i := pc];
    if Finished(nodes, pcs, n) {
      var j :| 0 <= j < |nodes| && nodes[j] == n && pcs[j] == Done;
      assert after[j] == Done;
    }
    if n == nodes[i] && pc == Done { assert after[i] == Done; }
  }

  lemma StepReports(nodes: seq<string>, outcome: Outcomes, s: State, i: nat)
    requires SlotsInv(nodes, outcome, s) && ReportsInv(nodes, outcome, s) && i < |nodes|
    ensures ReportsInv(nodes, outcome, Step(nodes, outcome, s, i))
  {
    var t := Step(nodes, outcome, s, i);
    if s.pcs[i] != Done {
      forall n
        ensures Finished(nodes, t.pcs, n) <==> Finished(nodes, s.pcs, n) || (n == nodes[i] && t.pcs[i] == Done)
      {
        StepFinishes(nodes, s.pcs, i, t.pcs[i], n);
      }
      assert s.pcs[i] == Start && outcome(nodes[i]).Error? ==> Finished(nodes, t.pcs, nodes[i]);
    }
  }

  /** Every atomic action keeps the invariant; the counter never passes the number of nodes. */
  lemma StepInv(nodes: seq<string>, outcome: Outcomes, s: State, i: nat)
    requires Inv(nodes, outcome, s) && i < |nodes|
    ensures Inv(nodes, outcome, Step(nodes, outcome, s, i))
  {
    StepSlots(nodes, outcome, s, i);
    StepReports(nodes, outcome, s, i);
  }

  /** A run is a list of which node's worker acts next. */
  function Run(nodes: seq<string>, outcome: Outcomes, s: State, sched: seq<nat>): (t: State)
    requires Inv(nodes, outcome, s) && Within(sched, |nodes|)
    ensures Inv(nodes, outcome, t)
    decreases |sched|
  {
    if sched == [] then s else
      StepInv(nodes, outcome, s, sched[0]);
      Run(nodes, outcome, Step(nodes, outcome, s, sched[0]), sched[1..])
  }

  ghost predicate AllDone(s: State) {
    forall i :: 0 <= i < |s.pcs| ==> s.pcs[i] == Done
  }

  // ----- Every complete run gives the same answer -----

  /** The nodes that fit, in list order. */
  function Passing(nodes: seq<string>, outcome: Outcomes): seq<string> {
    if nodes == [] then [] else
      Passing(nodes[..|nodes| - 1], outcome)
      + if outcome(nodes[|nodes| - 1]).Fits? then [nodes[|nodes| - 1]] else []
  }

  lemma {:induction false} PassingMembers(nodes: seq<string>, outcome: Outcomes)
    ensures forall n :: n in Passing(nodes, outcome) <==> n in nodes && outcome(n).Fits?
  {
    if nodes != [] { PassingMembers(nodes[..|nodes| - 1], outcome); }
  }

  /** The nodes that pass keep their order. */
  lemma {:induction false} PassingSplits(a: seq<string>, b: seq<string>, outcome: Outcomes)
    ensures Passing(a + b, outcome) == Passing(a, outcome) + Passing(b, outcome)
  {
    if b == [] {
      assert a + b == a;
    } else {
      PassingSplits(a, b[..|b| - 1], outcome);
      assert (a + b)[..|a + b| - 1] == a + b[..|b| - 1];
    }
  }

  lemma PassingOne(n: string, outcome: Outcomes)
    ensures Passing([n], outcome) == if outcome(n).Fits? then [n] else []
  {
    assert [n][..0] == [];
  }

  function Somes(slots: seq<Option<string>>): seq<string> {
    if slots == [] then [] else
      Somes(slots[..|slots| - 1]) + if slots[|slots| - 1].Some? then [slots[|slots| - 1].value] else []
  }

  /** The filled slots in order are the passing nodes in order, and the counter counts them. */
  lemma {:induction false} SlotsArePassing(nodes: seq<string>, outcome: Outcomes, slots: seq<Option<string>>, flags: seq<bool>)
    requires |slots| == |nodes| == |flags|
    requires forall i :: 0 <= i < |nodes| ==> slots[i] == if outcome(nodes[i]).Fits? then Some(nodes[i]) else None
    requires forall i :: 0 <= i < |nodes| ==> flags[i] == outcome(nodes[i]).Fits?
    ensures Somes(slots) == Passing(nodes, outcome) && CountTrue(flags) == |Passing(nodes, outcome)|
  {
    if nodes != [] {
      var n := |nodes| - 1;
      SlotsArePassing(nodes[..n], outcome, slots[..n], flags[..n]);
    }
  }

  lemma SlotsDone(nodes: seq<string>, outcome: Outcomes, t: State)
    requires SlotsInv(nodes, outcome, t) && AllDone(t)
    ensures Somes(t.filtered) == Passing(nodes, outcome) && t.filteredLen == |Passing(nodes, outcome)|
  {
    SlotsArePassing(nodes, outcome, t.filtered, CountedFlags(nodes, outcome, t.pcs));
  }

  lemma ReportsDone(nodes: seq<string>, outcome: Outcomes, t: State)
    requires |t.pcs| == |nodes| && ReportsInv(nodes, outcome, t) && AllDone(t)
    ensures t.errs > 0 <==> exists n :: n in nodes && outcome(n).Error?
    ensures t.failed == map n | n in nodes && outcome(n).Fails? :: outcome(n).reasons
  {
    forall n ensures Finished(nodes, t.pcs, n) <==> n in nodes {}
  }

  /** THEOREM.  Under every interleaving, the finished workers leave the passing nodes in their slots,
      their number in the counter, and the reasons of exactly the failing nodes; there is an error if and
      only if some node's check erred. */
  lemma EveryInterleavingAgrees(nodes: seq<string>, outcome: Outcomes, sched: seq<nat>)
    requires Within(sched, |nodes|)
    requires Inv(nodes, outcome, Init(nodes)) && AllDone(Run(nodes, outcome, Init(nodes), sched))
    ensures var t := Run(nodes, outcome, Init(nodes), sched);
      && Somes(t.filtered) == Passing(nodes, outcome) && t.filteredLen == |Passing(nodes, outcome)|
      && (t.errs > 0 <==> exists n :: n in nodes && outcome(n).Error?)
      && t.failed == map n | n in nodes && outcome(n).Fails? :: outcome(n).reasons
  {
    var t := Run(nodes, outcome, Init(nodes), sched);
    SlotsDone(nodes, outcome, t);
    ReportsDone(nodes, outcome, t);
  }

  function Needed(pc: Pc): nat {
    match pc case Start => 2 case Counted => 1 case Over => 1 case Done => 0
  }

  /** Every worker is done after two actions, whatever the others do. */
  lemma {:induction false} TwoTurnsFinish(nodes: seq<string>, outcome: Outcomes, s: State, sched: seq<nat>, i: nat)
    requires Inv(nodes, outcome, s) && Within(sched, |nodes|) && i < |nodes|
    requires Turns(sched, i) >= Needed(s.pcs[i])
    ensures Run(nodes, outcome, s, sched).pcs[i] == Done
    decreases |sched|
  {
    if sched != [] {
      StepInv(nodes, outcome, s, sched[0]);
      TwoTurnsFinish(nodes, outcome, Step(nodes, outcome, s, sched[0]), sched[1..], i);
    }
  }

  // ----- Compaction -----

  /** The index loop that copies the filled slots. */
  method Compact(filtered: seq<Option<string>>, filteredLen: nat) returns (res: array<string>)
    requires filteredLen == |Somes(filtered)|
    ensures res[..] == Somes(filtered)
  {
    res := new string[filteredLen];
    var i, j := 0, 0;
    assert filtered[..|filtered|] == filtered;
    while i < |filtered| && j < filteredLen
      invariant 0 <= i <= |filtered| && j == |Somes(filtered[..i])| <= filteredLen
      invariant res[..j] == Somes(filtered[..i])
      decreases |filtered| - i
    {
      SomesPrefix(filtered, i + 1);
      assert filtered[..i + 1][..i] == filtered[..i];
      if filtered[i].Some? {
        res[j] := filtered[i].value;
        j := j + 1;
      }
      i := i + 1;
    }
    SomesPrefix(filtered, i);
    assert res[..] == res[..j];
  }

  lemma {:induction false} SomesPrefix(slots: seq<Option<string>>, i: nat)
    requires i <= |slots|
    ensures Somes(slots[..i]) <= Somes(slots)
  {
    if i == |slots| {
      assert slots[..i] == slots;
    } else {
      SomesPrefix(slots[..|slots| - 1], i);
      assert slots[..|slots| - 1][..i] == slots[..i];
    }
  }

  /** `filterWithPlugins`, its workers interleaved as `sched` says. */
  method FilterWithPlugins(nodes: seq<string>, outcome: Outcomes, noPredicates: bool, sched: seq<nat>)
    returns (res: seq<string>, failed: map<string, seq<string>>, err: bool)
    requires Within(sched, |nodes|) && forall i :: 0 <= i < |nodes| ==> Turns(sched, i) >= 2
    ensures noPredicates ==> res == nodes && failed == map[] && !err
    ensures !noPredicates ==> (err <==> exists n :: n in nodes && outcome(n).Error?)
    ensures !noPredicates && err ==> res == [] && failed == map[]
    ensures !noPredicates && !err ==>
      res == Passing(nodes, outcome) && failed == map n | n in nodes && outcome(n).Fails? :: outcome(n).reasons
  {
    if noPredicates {
      return nodes, map[], false;
    }
    InitInv(nodes, outcome);
    var s := Init(nodes);
    for k := 0 to |sched|
      invariant Inv(nodes, outcome, s) && Within(sched[k..], |nodes|)
      invariant Run(nodes, outcome, s, sched[k..]) == Run(nodes, outcome, Init(nodes), sched)
    {
      StepInv(nodes, outcome, s, sched[k]);
      assert sched[k..][1..] == sched[k + 1..];
      s := Step(nodes, outcome, s, sched[k]);
    }
    forall i: nat | i < |nodes| ensures s.pcs[i] == Done {
      TwoTurnsFinish(nodes, outcome, Init(nodes), sched, i);
    }
    EveryInterleavingAgrees(nodes, outcome, sched);
    if s.errs > 0 {
      return [], map[], true;
    }
    var a := Compact(s.filtered, s.filteredLen);
    return a[..], s.failed, false;
  }
}
