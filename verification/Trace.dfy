// Turning a usage trace into a pod's phases (ConvertTraceToPod, experiments/utils.go): lines with equal
// usage are merged into one phase, and the trace is cut off at a maximum length.  The expansion of the
// phases, second by second, is what the theorems are about.

module Trace {
  import opened Arithmetic
  import SimPod

  const MICRO_SECONDS: int := 1_000_000

  /** A cell of the file: what Atoi and ParseFloat make of it. */
  datatype Cell = Cell(whole: int, decimal: real)

  type Line = seq<Cell>

  datatype Sample = Sample(cpu: int, memory: int)

  datatype Run = Run(seconds: int, sample: Sample)

  datatype Settings = Settings(cpuFactor: int, memFactor: int, maxLength: int, demandToRequestRatio: real)

  /** Go's conversion of a float to an int. */
  function Truncate(x: real): int {
    if x >= 0.0 then x.Floor else -((-x).Floor)
  }

  // ----- The trace as one sample a second -----

  /** The line's duration in seconds, from whichever columns hold its start and end. */
  function Length(line: Line): int {
    if |line| < 5 then 0
    else if line[1].whole > 1 then TruncDiv(line[1].whole - line[0].whole, MICRO_SECONDS)
    else TruncDiv(line[2].whole - line[4].whole, MICRO_SECONDS)
  }

  function CpuCell(line: Line): real
    requires |line| >= 5
  {
    if line[1].whole > 1 then line[2].decimal else line[0].decimal
  }

  datatype Rate = Rate(cpu: real, memory: real)

  /** A reading above 1 is ignored, and the rate before it is scaled once more. */
  function Scaled(before: real, reading: real, ratio: real): real {
    if reading <= 1.0 then reading * ratio else before * ratio
  }

  /** The scaled rates that the first `n` lines leave behind. */
  function Rates(lines: seq<Line>, n: nat, ratio: real): Rate
    requires n <= |lines|
  {
    if n == 0 then Rate(0.0, 0.0) else
      var before, line := Rates(lines, n - 1, ratio), lines[n - 1];
      if |line| < 5 then before else
        Rate(Scaled(before.cpu, CpuCell(line), ratio), Scaled(before.memory, line[3].decimal, ratio))
  }

  /** A rate in the units of the request. */
  function Amount(rate: real, factor: int): int {
    Truncate(rate * factor as real)
  }

  function SampleOf(lines: seq<Line>, i: nat, s: Settings): Sample
    requires i < |lines|
  {
    var rate := Rates(lines, i + 1, s.demandToRequestRatio);
    Sample(Amount(rate.cpu, s.cpuFactor), Amount(rate.memory, s.memFactor))
  }

  function Repeat(x: Sample, n: int): (r: seq<Sample>)
    ensures |r| == if n > 0 then n else 0
    ensures forall i :: 0 <= i < |r| ==> r[i] == x
  {
    if n > 0 then seq(n, _ => x) else []
  }

  /** The first `n` lines, second by second. */
  function Raw(lines: seq<Line>, n: nat, s: Settings): seq<Sample>
    requires n <= |lines|
  {
    if n == 0 then [] else Raw(lines, n - 1, s) + Repeat(SampleOf(lines, n - 1, s), Length(lines[n - 1]))
  }

  function TotalLength(lines: seq<Line>, n: nat): int
    requires n <= |lines|
  {
    if n == 0 then 0 else TotalLength(lines, n - 1) + Length(lines[n - 1])
  }

  /** Line `i` is read: every line before it is long enough to parse and the maximum is not passed. */
  predicate Reached(lines: seq<Line>, i: nat, s: Settings)
    requires i <= |lines|
  {
    forall j :: 0 <= j < i ==> |lines[j]| >= 5 && TotalLength(lines, j + 1) <= s.maxLength
  }

  predicate Forward(lines: seq<Line>) {
    forall i :: 0 <= i < |lines| ==> Length(lines[i]) >= 0
  }

  // ----- The phases, second by second -----

  function Expand(runs: seq<Run>): seq<Sample> {
    if runs == [] then [] else Expand(runs[..|runs| - 1]) + Repeat(runs[|runs| - 1].sample, runs[|runs| - 1].seconds)
  }

  function Runs(phases: seq<int>, cpu: seq<int>, memory: seq<int>): (r: seq<Run>)
    requires |phases| == |cpu| == |memory|
  {
    seq(|phases|, i requires 0 <= i < |phases| => Run(phases[i], Sample(cpu[i], memory[i])))
  }

  predicate AdjacentDiffer(runs: seq<Run>) {
    forall i :: 0 < i < |runs| ==> runs[i - 1].sample != runs[i].sample
  }

  predicate Durations(runs: seq<Run>) {
    forall i :: 0 <= i < |runs| ==> runs[i].seconds >= 0
  }

  /** One more stretch of `x`: a new run, or a longer last one. */
  function Extend(runs: seq<Run>, x: Sample, n: int): seq<Run> {
    if runs != [] && runs[|runs| - 1].sample == x
    then runs[|runs| - 1 := Run(runs[|runs| - 1].seconds + n, x)]
    else runs + [Run(n, x)]
  }

  lemma ExtendExpands(runs: seq<Run>, x: Sample, n: int)
    requires Durations(runs) && n >= 0
    ensures Durations(Extend(runs, x, n))
    ensures Expand(Extend(runs, x, n)) == Expand(runs) + Repeat(x, n)
  {
    var r := Extend(runs, x, n);
    if runs != [] && runs[|runs| - 1].sample == x {
      assert r[..|r| - 1] == runs[..|runs| - 1];
    } else {
      assert r[..|r| - 1] == runs;
    }
  }

  lemma {:induction false} RawPrefix(lines: seq<Line>, i: nat, n: nat, s: Settings)
    requires i <= n <= |lines| && Forward(lines)
    ensures |Raw(lines, n, s)| == TotalLength(lines, n)
    ensures Raw(lines, i, s) <= Raw(lines, n, s)
    decreases n
  {
    if i < n {
      RawPrefix(lines, i, n - 1, s);
    } else if n > 0 {
      RawPrefix(lines, n - 1, n - 1, s);
    }
  }

  /** The phases stand for the first `maxLength` seconds of the trace. */
  ghost predicate Stands(runs: seq<Run>, lines: seq<Line>, n: nat, s: Settings)
    requires n <= |lines|
  {
    Durations(runs) && Expand(runs) == Raw(lines, n, s)[..Min(Max(s.maxLength, 0), |Raw(lines, n, s)|)]
  }

  lemma CutAppend(runs: seq<Run>, before: seq<Sample>, x: Sample, len: int, room: int)
    requires Durations(runs) && Expand(runs) == before && len >= 0 && room >= 0
    ensures Durations(Extend(runs, x, Min(len, room)))
    ensures Expand(Extend(runs, x, Min(len, room))) == (before + Repeat(x, len))[..Min(|before| + room, |before| + len)]
  {
    ExtendExpands(runs, x, Min(len, room));
  }

  /** One line of the loop, cut short when it passes the maximum. */
  lemma {:induction false} StandsStep(runs: seq<Run>, lines: seq<Line>, i: nat, s: Settings, x: Sample, len: int, total: int)
    requires i < |lines| && Forward(lines) && s.maxLength >= 0 && Stands(runs, lines, i, s)
    requires x == SampleOf(lines, i, s) && len == Length(lines[i]) && total == TotalLength(lines, i) <= s.maxLength
    ensures Stands(Extend(runs, x, Min(len, s.maxLength - total)), lines, i + 1, s)
  {
    hide SampleOf, Length, Extend, Expand;
    RawPrefix(lines, i, i, s);
    var before := Raw(lines, i, s);
    assert before[..|before|] == before;
    assert Raw(lines, i + 1, s) == before + Repeat(x, len);
    CutAppend(runs, before, x, len, s.maxLength - total);
  }

  /** Nothing after the maximum matters. */
  lemma {:induction false} StandsEnd(runs: seq<Run>, lines: seq<Line>, i: nat, s: Settings)
    requires i <= |lines| && Forward(lines) && s.maxLength >= 0 && Stands(runs, lines, i, s)
    requires TotalLength(lines, i) > s.maxLength || i == |lines|
    ensures Stands(runs, lines, |lines|, s)
  {
    RawPrefix(lines, i, |lines|, s);
    RawPrefix(lines, i, i, s);
  }

  lemma RunsExtend(phases: seq<int>, cpu: seq<int>, memory: seq<int>, x: Sample, n: int)
    requires |phases| == |cpu| == |memory|
    ensures var k := |phases| - 1;
            var same := k >= 0 && x.cpu == cpu[k] && x.memory == memory[k];
            Extend(Runs(phases, cpu, memory), x, n) ==
              if same then Runs(phases[k := phases[k] + n], cpu, memory)
              else Runs(phases + [n], cpu + [x.cpu], memory + [x.memory])
  {
  }

  lemma ExtendDiffers(runs: seq<Run>, x: Sample, n: int)
    requires AdjacentDiffer(runs)
    ensures AdjacentDiffer(Extend(runs, x, n))
  {
  }

  /** What the loop has built after `n` lines. */
  ghost predicate Built(phases: seq<int>, cpu: seq<int>, memory: seq<int>, lines: seq<Line>, n: nat, s: Settings)
    requires n <= |lines|
  {
    && |phases| == |cpu| == |memory|
    && AdjacentDiffer(Runs(phases, cpu, memory))
    && (Forward(lines) && s.maxLength >= 0 ==> Stands(Runs(phases, cpu, memory), lines, n, s))
  }

  lemma BuiltStep(phases: seq<int>, cpu: seq<int>, memory: seq<int>, lines: seq<Line>, i: nat, s: Settings,
                  x: Sample, len: int, total: int)
    requires i < |lines| && Built(phases, cpu, memory, lines, i, s)
    requires x == SampleOf(lines, i, s) && total == TotalLength(lines, i)
    requires s.maxLength >= 0 ==> total <= s.maxLength
    requires len == Min(Length(lines[i]), s.maxLength - total)
    ensures var k := |phases| - 1;
            if k >= 0 && x.cpu == cpu[k] && x.memory == memory[k]
            then Built(phases[k := phases[k] + len], cpu, memory, lines, i + 1, s)
            else Built(phases + [len], cpu + [x.cpu], memory + [x.memory], lines, i + 1, s)
  {
    var runs := Runs(phases, cpu, memory);
    if Forward(lines) && s.maxLength >= 0 { StandsStep(runs, lines, i, s, x, Length(lines[i]), total); }
    RunsExtend(phases, cpu, memory, x, len);
    ExtendDiffers(runs, x, len);
  }

  /** One line's duration and usage; `cpu` and `mem` are carried from the lines before. */
  method ReadLine(lines: seq<Line>, i: nat, cpu: real, mem: real, s: Settings)
    returns (newCpu: real, newMem: real, cpuUsage: int, memUsage: int, phaseLen: int)
    requires i < |lines| && |lines[i]| >= 5 && Rate(cpu, mem) == Rates(lines, i, s.demandToRequestRatio)
    ensures Rate(newCpu, newMem) == Rates(lines, i + 1, s.demandToRequestRatio)
    ensures Sample(cpuUsage, memUsage) == SampleOf(lines, i, s) && phaseLen == Length(lines[i])
  {
    hide Amount;
    var line := lines[i];
    var start, end, c, m;
    if line[1].whole > 1 {
      start, end, c, m := line[0].whole, line[1].whole, line[2].decimal, line[3].decimal;
    } else {
      start, end, c, m := line[4].whole, line[2].whole, line[0].decimal, line[3].decimal;
    }
    newCpu, newMem := cpu, mem;
    if c <= 1.0 { newCpu := c; }
    if m <= 1.0 { newMem := m; }
    newCpu, newMem := newCpu * s.demandToRequestRatio, newMem * s.demandToRequestRatio;
    cpuUsage, memUsage := Amount(newCpu, s.cpuFactor), Amount(newMem, s.memFactor);
    phaseLen := TruncDiv(end - start, MICRO_SECONDS);
  }

  /** The loop over the lines after the first.  It fails exactly when it reaches a line too short to
      parse; otherwise its phases are, second by second, the trace up to the maximum length, and no two
      neighbours are equal. */
  method MergeLines(lines: seq<Line>, s: Settings)
    returns (failed: bool, phases: seq<int>, cpuUsages: seq<int>, memUsages: seq<int>)
    ensures |phases| == |cpuUsages| == |memUsages|
    ensures failed <==> exists i :: 0 <= i < |lines| && |lines[i]| < 5 && Reached(lines, i, s)
    ensures AdjacentDiffer(Runs(phases, cpuUsages, memUsages))
    ensures !failed && Forward(lines) && s.maxLength >= 0 ==> Stands(Runs(phases, cpuUsages, memUsages), lines, |lines|, s)
  {
    hide SampleOf, Length, Amount, Scaled;
    phases, cpuUsages, memUsages, failed := [], [], [], false;
    var taskLast, phaseNum, cpu, mem, isStop, i := 0, 0, 0.0, 0.0, false, 0;
    while i < |lines| && !isStop
      invariant 0 <= i <= |lines| && phaseNum == |phases|
      invariant taskLast == TotalLength(lines, i) && Rate(cpu, mem) == Rates(lines, i, s.demandToRequestRatio)
      invariant !isStop ==> Reached(lines, i, s) && (s.maxLength >= 0 ==> taskLast <= s.maxLength)
      invariant isStop ==> i > 0 && Reached(lines, i - 1, s) && |lines[i - 1]| >= 5 && taskLast > s.maxLength
      invariant Built(phases, cpuUsages, memUsages, lines, i, s)
    {
      if |lines[i]| < 5 {
        failed := true;
        return;
      }
      var cpuUsage, memUsage, phaseLen;
      cpu, mem, cpuUsage, memUsage, phaseLen := ReadLine(lines, i, cpu, mem, s);
      ghost var total := taskLast;
      taskLast := taskLast + phaseLen;
      if taskLast > s.maxLength {
        phaseLen := phaseLen - (taskLast - s.maxLength);
        isStop := true;
      }
      BuiltStep(phases, cpuUsages, memUsages, lines, i, s, Sample(cpuUsage, memUsage), phaseLen, total);
      if phaseNum > 0 && cpuUsage == cpuUsages[phaseNum - 1] && memUsage == memUsages[phaseNum - 1] {
        phases := phases[phaseNum - 1 := phases[phaseNum - 1] + phaseLen];
      } else {
        cpuUsages, memUsages, phases := cpuUsages + [cpuUsage], memUsages + [memUsage], phases + [phaseLen];
        phaseNum := phaseNum + 1;
      }
      i := i + 1;
    }
    if Forward(lines) && s.maxLength >= 0 { StandsEnd(Runs(phases, cpuUsages, memUsages), lines, i, s); }
  }

  // ----- What the pod then reports -----

  function Usage(x: Sample): SimPod.ResourceList {
    map["cpu" := x.cpu, "memory" := x.memory]
  }

  /** The pod's phase list. */
  function SimSpec(runs: seq<Run>): (r: seq<SimPod.Phase>)
    requires Durations(runs)
  {
    seq(|runs|, i requires 0 <= i < |runs| => SimPod.Phase(runs[i].seconds, Usage(runs[i].sample)))
  }

  lemma PrefixOfAppend(a: seq<SimPod.Phase>, b: seq<SimPod.Phase>, k: nat)
    requires k <= |a| <= |b| && b[..|a|] == a
    ensures SimPod.Prefix(a, k) == SimPod.Prefix(b, k)
  {
    if k > 0 {
      PrefixOfAppend(a, b, k - 1);
      assert a[k - 1] == b[..|a|][k - 1] == b[k - 1];
    }
  }

  /** Second `x` of the phases is the sample of the phase that covers it. */
  lemma {:induction false} ExpandCovers(runs: seq<Run>, x: nat)
    requires Durations(runs)
    ensures |Expand(runs)| == SimPod.Prefix(SimSpec(runs), |runs|)
    ensures x < |Expand(runs)| ==> exists k | 0 <= k < |runs| ::
      runs[k].sample == Expand(runs)[x] && SimPod.Prefix(SimSpec(runs), k) <= x < SimPod.Prefix(SimSpec(runs), k + 1)
    decreases |runs|
  {
    if runs != [] {
      var init := runs[..|runs| - 1];
      ExpandCovers(init, x);
      assert SimSpec(runs)[..|init|] == SimSpec(init);
      forall k | 0 <= k <= |init| ensures SimPod.Prefix(SimSpec(runs), k) == SimPod.Prefix(SimSpec(init), k) {
        PrefixOfAppend(SimSpec(init), SimSpec(runs), k);
      }
      if x >= |Expand(init)| {
        assert SimPod.Prefix(SimSpec(runs), |init|) == |Expand(init)|;
      } else {
        var k :| 0 <= k < |init| && init[k].sample == Expand(init)[x]
          && SimPod.Prefix(SimSpec(init), k) <= x < SimPod.Prefix(SimSpec(init), k + 1);
        assert runs[k].sample == Expand(runs)[x];
      }
    }
  }

  /** THEOREM.  The pod made from a trace reports, in every second up to the maximum length, the usage
      the trace has in that second; after it the pod has ended. */
  lemma {:induction false} PodFollowsTrace(runs: seq<Run>, lines: seq<Line>, s: Settings, x: nat)
    requires Stands(runs, lines, |lines|, s)
    ensures var raw := Raw(lines, |lines|, s);
            SimPod.FullUsage(SimSpec(runs), x * SimPod.SECOND) ==
              if x < |raw| && x < s.maxLength then Usage(raw[x]) else map[]
  {
    hide Raw, Expand;
    ExpandCovers(runs, x);
    var spec := SimSpec(runs);
    if x < |Expand(runs)| {
      var k :| 0 <= k < |runs| && runs[k].sample == Expand(runs)[x] && SimPod.Prefix(spec, k) <= x < SimPod.Prefix(spec, k + 1);
      SimPod.CoveringIs(spec, x, k);
    }
  }
}
