// The phase cache against the complete phase list, over whole runs of queries.

module PhaseCache {
  // Queries load a chunk at a time and only when the last loaded phase is the current one.  A clock that
  // jumps over that phase finds the pod over before its time.  The main theorem says exactly when this
  // happens; the corollary gives a condition on tick and phase lengths.

  import opened SimPod

  /** A pod bound with status Ok, and the value of LOAD_PHASE_CACHE. */
  datatype Setup = Setup(file: seq<Phase>, fromFile: bool, chunk: nat, boundAt: int, grace: int)

  ghost predicate Queries(p: Setup, clocks: seq<int>) {
    && p.chunk >= 1
    && (forall i :: 0 <= i < |clocks| ==> p.boundAt <= clocks[i])
    && forall i, j :: 0 <= i <= j < |clocks| ==> clocks[i] <= clocks[j]
  }

  /** The pod after being queried at each of the clocks in turn. */
  function After(p: Setup, clocks: seq<int>): (s: State)
    requires p.chunk >= 1
    ensures Window(s, p.file)
  {
    if clocks == [] then
      NewWindow(p.file, p.fromFile, p.chunk, p.boundAt, Ok, p.grace);
      New(p.file, p.fromFile, p.chunk, p.boundAt, Ok, p.grace)
    else
      var s := After(p, clocks[..|clocks| - 1]);
      QueryWindow(s, p.file, p.chunk, clocks[|clocks| - 1]);
      Query(s, p.file, p.chunk, clocks[|clocks| - 1])
  }

  /** The seconds since binding at which the queries fall. */
  function Elapsed(p: Setup, clocks: seq<int>): (xs: seq<int>)
    ensures |xs| == |clocks|
    ensures forall i :: 0 <= i < |xs| ==> xs[i] == Seconds(clocks[i] - p.boundAt)
  {
    seq(|clocks|, i requires 0 <= i < |clocks| => Seconds(clocks[i] - p.boundAt))
  }

  ghost predicate Ascending(xs: seq<int>) {
    && (forall i :: 0 <= i < |xs| ==> 0 <= xs[i])
    && forall i, j :: 0 <= i <= j < |xs| ==> xs[i] <= xs[j]
  }

  ghost predicate InPhase(file: seq<Phase>, k: nat, x: int)
    requires k < |file|
  {
    Prefix(file, k) <= x < Prefix(file, k + 1)
  }

  /** One of the first `i` queries fell in phase `k`. */
  ghost predicate Sampled(file: seq<Phase>, xs: seq<int>, i: nat, k: nat)
    requires i <= |xs| && k < |file|
  {
    exists j :: 0 <= j < i && InPhase(file, k, xs[j])
  }

  /** `b` is a multiple of `k`, by repeated subtraction. */
  predicate Multiple(k: nat, b: nat)
    requires k >= 1
  {
    b == 0 || (b >= k && Multiple(k, b - k))
  }

  lemma {:induction false} NextMultiple(k: nat, a: nat, b: nat)
    requires k >= 1 && Multiple(k, a) && Multiple(k, b) && a < b
    ensures a + k <= b
  {
    if a > 0 { NextMultiple(k, a - k, b - k); }
  }

  /** Phase `b` is the first one of a later chunk. */
  ghost predicate ChunkEnd(p: Setup, b: nat)
    requires p.chunk >= 1
  {
    p.fromFile && 0 < b < |p.file| && Multiple(p.chunk, b)
  }

  ghost predicate AgreesAt(p: Setup, clocks: seq<int>, i: nat)
    requires p.chunk >= 1 && i < |clocks|
  {
    var s := After(p, clocks[..i]);
    && s.IsRunning(clocks[i]) == FullRunning(p.file, clocks[i] - p.boundAt)
    && Read(s, clocks[i]) == Usage(FullUsage(p.file, clocks[i] - p.boundAt))
  }

  ghost predicate AlwaysAgrees(p: Setup, clocks: seq<int>)
    requires p.chunk >= 1
  {
    forall i :: 0 <= i < |clocks| ==> AgreesAt(p, clocks, i)
  }

  /** No query skips the last phase of a chunk while the pod should still run. */
  ghost predicate ChunkEndsSampled(p: Setup, xs: seq<int>)
    requires p.chunk >= 1
  {
    forall i, b: nat :: 0 <= i < |xs| && ChunkEnd(p, b)
      && Prefix(p.file, b) <= xs[i] < Prefix(p.file, |p.file|)
      ==> Sampled(p.file, xs, i, b - 1)
  }

  /** The cached view at one clock is right unless that clock is past the loaded phases and before the
      end of the list. */
  lemma AgreesUnlessOverrun(s: State, file: seq<Phase>, clock: int)
    requires Window(s, file) && s.status == Ok && s.boundAt <= clock
    requires s.currentPhase == 0 || Prefix(file, s.currentPhase) <= Seconds(clock - s.boundAt)
    ensures var x := Seconds(clock - s.boundAt);
      (s.IsRunning(clock) == FullRunning(file, clock - s.boundAt)
       && Read(s, clock) == Usage(FullUsage(file, clock - s.boundAt)))
      <==> !(Prefix(file, s.loadPhase) <= x < Prefix(file, |file|))
    ensures s.IsRunning(clock) <==> Seconds(clock - s.boundAt) < Prefix(file, s.loadPhase)
    ensures s.IsRunning(clock) ==> Seconds(s.Executed(clock)) == Seconds(clock - s.boundAt)
  {
    var x := Seconds(clock - s.boundAt);
    WindowTotal(s, file);
    PrefixMonotone(file, s.loadPhase, |file|);
    if x < Prefix(file, s.loadPhase) { WindowLookup(s, file, x); }
  }

  function NextLoad(load: nat, k: nat, n: nat, chunk: nat): nat {
    if k == load - 1 && load < n then (if load + chunk >= n then n else load + chunk) else load
  }

  /** A query that runs finds its phase, and loads exactly when that phase is the last one loaded. */
  lemma QueryMoves(s: State, file: seq<Phase>, chunk: nat, clock: int)
    requires Window(s, file) && s.status == Ok && s.boundAt <= clock && chunk >= 1
    requires s.currentPhase == 0 || Prefix(file, s.currentPhase) <= Seconds(clock - s.boundAt)
    ensures var t := Query(s, file, chunk, clock);
      var x, k := Seconds(clock - s.boundAt), Covering(file, Seconds(clock - s.boundAt));
      if x < Prefix(file, s.loadPhase)
      then t.status == Ok && t.boundAt == s.boundAt && Window(t, file)
           && t.currentPhase == k < s.loadPhase && t.loadPhase == NextLoad(s.loadPhase, k, |file|, chunk)
      else t == s
  {
    hide Query, Covering, NextLoad;
    AgreesUnlessOverrun(s, file, clock);
    QueryWindow(s, file, chunk, clock);
    if s.IsRunning(clock) {
      WindowLookup(s, file, Seconds(clock - s.boundAt));
      RunningMoves(s, file, chunk, clock);
    } else {
      IdleStays(s, file, chunk, clock);
    }
  }

  lemma IdleStays(s: State, file: seq<Phase>, chunk: nat, clock: int)
    requires s.loadPhase <= |file| && !s.UsesResources(clock)
    ensures Query(s, file, chunk, clock) == s
  {
  }

  /** Where a query leaves a running pod. */
  lemma RunningMoves(s: State, file: seq<Phase>, chunk: nat, clock: int)
    requires s.loadPhase <= |file| && s.IsRunning(clock) && s.currentPhase + |s.spec| == s.loadPhase && s.numPhase == |file|
    requires s.hasFile <==> s.loadPhase < |file|
    ensures var stop := Covering(s.spec, Seconds(s.Executed(clock))); var t := Query(s, file, chunk, clock);
      stop < |s.spec| ==>
        && t.status == Ok && t.boundAt == s.boundAt && t.currentPhase == s.currentPhase + stop
        && t.loadPhase == NextLoad(s.loadPhase, t.currentPhase, |file|, chunk)
  {
  }

  /** What `i` queries have established about the window. */
  ghost predicate Progress(p: Setup, xs: seq<int>, i: nat, cur: nat, load: nat)
    requires p.chunk >= 1 && i <= |xs|
  {
    && load <= |p.file| && cur <= load
    && (cur == 0 || (i > 0 && Prefix(p.file, cur) <= xs[i - 1]))
    && (load < |p.file| ==> ChunkEnd(p, load) && !Sampled(p.file, xs, i, load - 1))
    && forall b: nat :: ChunkEnd(p, b) && b < load ==> Sampled(p.file, xs, i, b - 1)
  }

  /** A query past the loaded phases samples none of them and changes nothing. */
  lemma ProgressIdle(p: Setup, xs: seq<int>, i: nat, cur: nat, load: nat)
    requires p.chunk >= 1 && Ascending(xs) && i < |xs| && Progress(p, xs, i, cur, load)
    requires Prefix(p.file, load) <= xs[i]
    ensures Progress(p, xs, i + 1, cur, load)
  {
    forall b: nat | ChunkEnd(p, b) && b < load ensures Sampled(p.file, xs, i + 1, b - 1) {
      assert Sampled(p.file, xs, i, b - 1);
    }
  }

  lemma ProgressMove(p: Setup, xs: seq<int>, i: nat, cur: nat, load: nat, k: nat)
    requires p.chunk >= 1 && Ascending(xs) && i < |xs| && Progress(p, xs, i, cur, load)
    requires k == Covering(p.file, xs[i]) < load
    ensures Progress(p, xs, i + 1, k, NextLoad(load, k, |p.file|, p.chunk))
  {
    var load' := NextLoad(load, k, |p.file|, p.chunk);
    forall b: nat | ChunkEnd(p, b) && b < load' ensures Sampled(p.file, xs, i + 1, b - 1) {
      if b < load {
        assert Sampled(p.file, xs, i, b - 1);
      } else {
        if b > load { NextMultiple(p.chunk, load, b); }
        assert b == load && InPhase(p.file, load - 1, xs[i]);
      }
    }
    if load < load' < |p.file| {
      assert Multiple(p.chunk, load + p.chunk);
      PrefixMonotone(p.file, load, load' - 1);
    } else if load' == load < |p.file| && InPhase(p.file, load - 1, xs[i]) {
      CoveringIs(p.file, xs[i], load - 1);
    }
  }

  lemma ElapsedAscending(p: Setup, clocks: seq<int>)
    requires Queries(p, clocks)
    ensures Ascending(Elapsed(p, clocks))
  {
  }

  lemma ProgressStart(p: Setup, xs: seq<int>)
    requires p.chunk >= 1
    ensures var s := After(p, []);
      s.status == Ok && s.boundAt == p.boundAt && s.currentPhase == 0 && Progress(p, xs, 0, 0, s.loadPhase)
  {
    assert Multiple(p.chunk, p.chunk);
  }

  /** The next query is not before the current phase. */
  lemma ProgressCurrent(p: Setup, xs: seq<int>, i: nat, cur: nat, load: nat)
    requires p.chunk >= 1 && Ascending(xs) && i < |xs| && Progress(p, xs, i, cur, load)
    ensures cur <= load <= |p.file| && (cur == 0 || Prefix(p.file, cur) <= xs[i])
  {
  }

  lemma {:induction false} ProgressHolds(p: Setup, clocks: seq<int>, i: nat)
    requires Queries(p, clocks) && i <= |clocks|
    ensures var s := After(p, clocks[..i]);
      s.status == Ok && s.boundAt == p.boundAt && Progress(p, Elapsed(p, clocks), i, s.currentPhase, s.loadPhase)
  {
    hide Progress, Query, New, Ascending, NextLoad, Covering;
    var xs := Elapsed(p, clocks);
    if i == 0 {
      assert clocks[..0] == [];
      ProgressStart(p, xs);
    } else {
      ProgressHolds(p, clocks, i - 1);
      assert clocks[..i][..i - 1] == clocks[..i - 1];
      var s := After(p, clocks[..i - 1]);
      ElapsedAscending(p, clocks);
      ProgressCurrent(p, xs, i - 1, s.currentPhase, s.loadPhase);
      QueryMoves(s, p.file, p.chunk, clocks[i - 1]);
      if xs[i - 1] < Prefix(p.file, s.loadPhase) {
        ProgressMove(p, xs, i - 1, s.currentPhase, s.loadPhase, Covering(p.file, xs[i - 1]));
      } else {
        ProgressIdle(p, xs, i - 1, s.currentPhase, s.loadPhase);
      }
    }
  }

  /** Query `i` is answered wrongly exactly when it is past the loaded phases but not past the list. */
  lemma AgreesAtIff(p: Setup, clocks: seq<int>, i: nat)
    requires Queries(p, clocks) && i < |clocks|
    ensures AgreesAt(p, clocks, i) <==>
      !(Prefix(p.file, After(p, clocks[..i]).loadPhase) <= Elapsed(p, clocks)[i] < Prefix(p.file, |p.file|))
  {
    hide Progress, After, Covering, Ascending, FullUsage, Read;
    ProgressHolds(p, clocks, i);
    ElapsedAscending(p, clocks);
    var s := After(p, clocks[..i]);
    ProgressCurrent(p, Elapsed(p, clocks), i, s.currentPhase, s.loadPhase);
    AgreesUnlessOverrun(After(p, clocks[..i]), p.file, clocks[i]);
  }

  /** THEOREM.  The cached pod answers every query as the complete list would if and only if every
      chunk's last phase is sampled before any query beyond it. */
  lemma CacheExactIffChunkEndsSampled(p: Setup, clocks: seq<int>)
    requires Queries(p, clocks)
    ensures AlwaysAgrees(p, clocks) <==> ChunkEndsSampled(p, Elapsed(p, clocks))
  {
    hide AgreesAt, After, Sampled, Window;
    var xs := Elapsed(p, clocks);
    if AlwaysAgrees(p, clocks) {
      forall i, b: nat | 0 <= i < |xs| && ChunkEnd(p, b) && Prefix(p.file, b) <= xs[i] < Prefix(p.file, |p.file|)
        ensures Sampled(p.file, xs, i, b - 1)
      {
        ProgressHolds(p, clocks, i);
        AgreesAtIff(p, clocks, i);
        var load := After(p, clocks[..i]).loadPhase;
        if load <= b { PrefixMonotone(p.file, load, b); }
      }
    }
    if ChunkEndsSampled(p, xs) {
      forall i | 0 <= i < |clocks| ensures AgreesAt(p, clocks, i) {
        ProgressHolds(p, clocks, i);
        AgreesAtIff(p, clocks, i);
      }
    }
  }

  /** Every chunk's last phase lasts at least a second and at least as long as each step of the clock. */
  ghost predicate StepsFit(p: Setup, clocks: seq<int>)
    requires p.chunk >= 1
  {
    forall b: nat :: ChunkEnd(p, b) ==>
      p.file[b - 1].seconds >= 1
      && forall i :: 1 <= i < |clocks| ==> clocks[i] - clocks[i - 1] <= p.file[b - 1].seconds * SECOND
  }

  lemma {:induction false} LastPhaseSampled(p: Setup, clocks: seq<int>, i: nat, b: nat)
    requires Queries(p, clocks) && StepsFit(p, clocks) && i < |clocks| && clocks[0] == p.boundAt
    requires ChunkEnd(p, b) && Prefix(p.file, b) <= Elapsed(p, clocks)[i]
    ensures Sampled(p.file, Elapsed(p, clocks), i, b - 1)
  {
    var xs := Elapsed(p, clocks);
    assert Prefix(p.file, b) == Prefix(p.file, b - 1) + p.file[b - 1].seconds;
    assert i > 0;
    if Prefix(p.file, b) <= xs[i - 1] {
      LastPhaseSampled(p, clocks, i - 1, b);
    } else {
      assert clocks[i] - clocks[i - 1] <= p.file[b - 1].seconds * SECOND;
      assert InPhase(p.file, b - 1, xs[i - 1]);
    }
  }

  /** A clock that starts at the bind time and never steps further than a phase lasts is never wrong. */
  lemma CacheExactForShortSteps(p: Setup, clocks: seq<int>)
    requires Queries(p, clocks) && StepsFit(p, clocks)
    requires clocks != [] ==> clocks[0] == p.boundAt
    ensures AlwaysAgrees(p, clocks)
  {
    CacheExactIffChunkEndsSampled(p, clocks);
    var xs := Elapsed(p, clocks);
    forall i, b: nat | 0 <= i < |xs| && ChunkEnd(p, b) && Prefix(p.file, b) <= xs[i] < Prefix(p.file, |p.file|)
      ensures Sampled(p.file, xs, i, b - 1)
    {
      LastPhaseSampled(p, clocks, i, b);
    }
  }

  /** Three phases of one second, two held at a time, a clock that steps two seconds. */
  function Overrun(): Setup {
    var phase := Phase(1, map["cpu" := 1]);
    Setup([phase, phase, phase], true, 2, 0, 0)
  }

  /** The step over the second phase ends that pod a second early. */
  lemma OverrunEndsEarly()
    ensures var p := Overrun(); var clocks := [0, 2 * SECOND];
      && Queries(p, clocks) && !AlwaysAgrees(p, clocks)
      && After(p, [0]).IsTerminated(2 * SECOND) && FullRunning(p.file, 2 * SECOND)
  {
    var p, clocks := Overrun(), [0, 2 * SECOND];
    assert Prefix(p.file, 0) == 0 && Prefix(p.file, 1) == 1 && Prefix(p.file, 2) == 2 && Prefix(p.file, 3) == 3;
    var s := After(p, []);
    assert s == New(p.file, true, 2, 0, Ok, 0);
    WindowTotal(s, p.file);
    CoveringIs(s.spec, 0, 0);
    assert [0][..0] == [];
    assert After(p, [0]) == s;
    assert !AgreesAt(p, clocks, 1) by { assert clocks[..1] == [0]; }
  }
}
