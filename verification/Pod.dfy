// A simulated pod and its phase cache (pkg/pod/pod.go, pkg/pod/spec.go).

module SimPod {
  // A pod's phases live in a file; only a window of them is held in memory.  `ResourceUsage` drops the
  // phases that are over, folding their seconds into the current one, and appends the next chunk of
  // LOAD_PHASE_CACHE phases when the current phase is the last one loaded.

  import opened Pods

  type ResourceList = map<string, int>

  datatype Phase = Phase(seconds: nat, usage: ResourceList)

  datatype Status = Ok | Deleted | OverCapacity

  /** What `ResourceUsage` does: return a resource list, or reach the line marked unreachable. */
  datatype Reading = Usage(list: ResourceList) | Panic

  // Clocks and durations count nanoseconds, as time.Time and time.Duration do.
  const SECOND: int := 1_000_000_000

  /** Seconds of the first `i` phases. */
  function Prefix(phases: seq<Phase>, i: nat): nat
    requires i <= |phases|
  {
    if i == 0 then 0 else Prefix(phases, i - 1) + phases[i - 1].seconds
  }

  /** `int32(d.Seconds())`: truncation toward zero. */
  function Seconds(d: int): int {
    if d >= 0 then d / SECOND else -((-d) / SECOND)
  }

  /** The first phase, from `i` on, that ends after second `x`. */
  function CoverFrom(phases: seq<Phase>, x: int, i: nat): (k: nat)
    requires i <= |phases|
    ensures i <= k <= |phases|
    ensures forall j :: i < j <= k ==> Prefix(phases, j) <= x
    ensures k < |phases| ==> x < Prefix(phases, k + 1)
    decreases |phases| - i
  {
    if i == |phases| || x < Prefix(phases, i + 1) then i else CoverFrom(phases, x, i + 1)
  }

  function Covering(phases: seq<Phase>, x: int): (k: nat)
    ensures k <= |phases|
    ensures forall j :: 0 < j <= k ==> Prefix(phases, j) <= x
    ensures k < |phases| ==> x < Prefix(phases, k + 1)
  {
    CoverFrom(phases, x, 0)
  }

  // ----- The pod's fields as a value, and what each method does to them -----

  datatype State = State(
    spec: seq<Phase>, status: Status, hasFile: bool, currentPhase: nat, numPhase: nat, loadPhase: nat,
    boundAt: int, grace: int, deletedAt: int)
  {
    function Total(): int {
      Prefix(spec, |spec|) * SECOND
    }

    function Executed(clock: int): int {
      match status
      case Ok => if clock - boundAt < Total() then clock - boundAt else Total()
      case Deleted => deletedAt - boundAt
      case OverCapacity => 0
    }

    predicate IsRunning(clock: int) {
      status == Ok && Executed(clock) < Total()
    }

    predicate IsTerminated(clock: int) {
      status == Ok && Executed(clock) >= Total()
    }

    predicate IsDeleted(clock: int) {
      status == Deleted && clock - deletedAt >= grace * SECOND
    }

    predicate IsTerminating(clock: int) {
      status == Deleted && !IsDeleted(clock)
    }

    predicate HasFailedToStart() {
      status == OverCapacity
    }

    predicate UsesResources(clock: int) {
      IsRunning(clock) || IsTerminating(clock)
    }
  }

  /** `NewPod`: a pod without a path holds all phases, a pod with one the first chunk of its file. */
  function New(file: seq<Phase>, fromFile: bool, chunk: nat, boundAt: int, status: Status, grace: int): State {
    var load := if !fromFile || chunk >= |file| then |file| else chunk;
    State(file[..load], status, load < |file|, 0, |file|, load, boundAt, grace, 0)
  }

  /** `loadPod` and `UpdatePod`: append the next chunk. */
  function Load(s: State, file: seq<Phase>, chunk: nat): State
    requires s.loadPhase <= |file|
  {
    if !s.hasFile then s else
      var load := if s.loadPhase + chunk >= |file| then |file| else s.loadPhase + chunk;
      s.(spec := s.spec + file[s.loadPhase..load], loadPhase := load, hasFile := load < |file|)
  }

  /** Drop the phases before `stop` and fold their seconds into it. */
  function Compact(s: State, stop: nat): State
    requires stop < |s.spec|
  {
    s.(spec := [s.spec[stop].(seconds := Prefix(s.spec, stop + 1))] + s.spec[stop + 1..],
       currentPhase := s.currentPhase + stop)
  }

  /** The pod after `ResourceUsage(clock)`. */
  function Query(s: State, file: seq<Phase>, chunk: nat, clock: int): State
    requires s.loadPhase <= |file|
  {
    var stop := Covering(s.spec, Seconds(s.Executed(clock)));
    if !s.UsesResources(clock) || stop == |s.spec| then s else
      var t := if stop > 0 then Compact(s, stop) else s;
      if t.currentPhase >= t.loadPhase - 1 && t.loadPhase < t.numPhase then Load(t, file, chunk) else t
  }

  /** What `ResourceUsage(clock)` returns. */
  function Read(s: State, clock: int): Reading {
    var stop := Covering(s.spec, Seconds(s.Executed(clock)));
    if !s.UsesResources(clock) then Usage(map[])
    else if stop == |s.spec| then Panic
    else Usage(s.spec[stop].usage)
  }

  /** The pod after `Delete(clock)`. */
  function Kill(s: State, clock: int): State {
    if s.IsTerminated(clock) || s.status == Deleted then s else s.(status := Deleted, deletedAt := clock)
  }

  // ----- The plain reading of the complete phase list -----

  predicate FullRunning(file: seq<Phase>, elapsed: int) {
    elapsed < Prefix(file, |file|) * SECOND
  }

  function FullUsage(file: seq<Phase>, elapsed: int): ResourceList {
    var k := Covering(file, Seconds(elapsed));
    if FullRunning(file, elapsed) && k < |file| then file[k].usage else map[]
  }

  // ----- The window invariant -----

  /** The loaded spec is the window [currentPhase, loadPhase) of the file, and its head carries the
      seconds of everything before it. */
  ghost predicate Window(s: State, file: seq<Phase>) {
    && s.numPhase == |file|
    && s.currentPhase <= s.loadPhase <= |file|
    && |s.spec| == s.loadPhase - s.currentPhase
    && (s.hasFile <==> s.loadPhase < |file|)
    && (file != [] ==> s.currentPhase < s.loadPhase)
    && (s.spec != [] ==> s.spec[0] == Phase(Prefix(file, s.currentPhase + 1), file[s.currentPhase].usage))
    && forall j :: 1 <= j < |s.spec| ==> s.spec[j] == file[s.currentPhase + j]
  }

  lemma {:induction false} PrefixMonotone(phases: seq<Phase>, i: nat, j: nat)
    requires i <= j <= |phases|
    ensures Prefix(phases, i) <= Prefix(phases, j)
    decreases j
  {
    if i < j { PrefixMonotone(phases, i, j - 1); }
  }

  /** Phase boundaries of the window are those of the file. */
  lemma {:induction false} WindowPrefix(s: State, file: seq<Phase>, j: nat)
    requires Window(s, file) && 1 <= j <= |s.spec|
    ensures Prefix(s.spec, j) == Prefix(file, s.currentPhase + j)
  {
    if j > 1 {
      WindowPrefix(s, file, j - 1);
    } else {
      assert Prefix(s.spec, 0) == 0;
    }
  }

  /** A cached pod's total time is that of the loaded part of the file. */
  lemma WindowTotal(s: State, file: seq<Phase>)
    requires Window(s, file)
    ensures s.Total() == Prefix(file, s.loadPhase) * SECOND
  {
    if s.spec != [] { WindowPrefix(s, file, |s.spec|); }
  }

  /** Among the phases of a list, the covering one is unique. */
  lemma CoveringIs(phases: seq<Phase>, x: int, k: nat)
    requires k < |phases| && x < Prefix(phases, k + 1)
    requires k == 0 || Prefix(phases, k) <= x
    ensures Covering(phases, x) == k
  {
    var c := Covering(phases, x);
    if c < k { PrefixMonotone(phases, c + 1, k); }
  }

  /** Looking a second up in the window finds the file's own phase for it, unless the window has
      already moved past it. */
  lemma WindowLookup(s: State, file: seq<Phase>, x: int)
    requires Window(s, file) && 0 <= x < Prefix(file, s.loadPhase)
    requires s.currentPhase == 0 || Prefix(file, s.currentPhase) <= x
    ensures Covering(s.spec, x) < |s.spec|
    ensures s.currentPhase + Covering(s.spec, x) == Covering(file, x)
    ensures s.spec[Covering(s.spec, x)].usage == file[Covering(file, x)].usage
  {
    var stop := Covering(s.spec, x);
    assert s.spec != [];
    WindowPrefix(s, file, |s.spec|);
    assert stop < |s.spec|;
    WindowPrefix(s, file, stop + 1);
    if stop > 0 { WindowPrefix(s, file, stop); }
    CoveringIs(file, x, s.currentPhase + stop);
  }

  lemma NewWindow(file: seq<Phase>, fromFile: bool, chunk: nat, boundAt: int, status: Status, grace: int)
    requires chunk >= 1
    ensures Window(New(file, fromFile, chunk, boundAt, status, grace), file)
  {
    if file != [] { assert Prefix(file, 1) == Prefix(file, 0) + file[0].seconds; }
  }

  lemma CompactWindow(s: State, file: seq<Phase>, stop: nat)
    requires Window(s, file) && stop < |s.spec|
    ensures Window(Compact(s, stop), file)
  {
    WindowPrefix(s, file, stop + 1);
  }

  lemma LoadWindow(s: State, file: seq<Phase>, chunk: nat)
    requires Window(s, file)
    ensures Window(Load(s, file, chunk), file)
  {
  }

  /** The window invariant survives a query at any clock, forward or backward. */
  lemma QueryWindow(s: State, file: seq<Phase>, chunk: nat, clock: int)
    requires Window(s, file)
    ensures Window(Query(s, file, chunk, clock), file)
  {
    var stop := Covering(s.spec, Seconds(s.Executed(clock)));
    if s.UsesResources(clock) && stop < |s.spec| {
      CompactWindow(s, file, stop);
      LoadWindow(s, file, chunk);
      LoadWindow(Compact(s, stop), file, chunk);
    }
  }

  // ----- The pod as the simulator holds it -----

  class Pod {
    const info: PodInfo      // the manifest
    const file: seq<Phase>   // what the file at `path` holds
    const chunk: nat         // LOAD_PHASE_CACHE
    const boundAt: int
    const node: string
    const grace: int         // TerminationGracePeriodSeconds, or its default
    const numPhase: nat

    var spec: seq<Phase>
    var status: Status
    var hasFile: bool        // path != ""
    var currentPhase: nat
    var loadPhase: nat
    var deletedAt: int       // DeletionTimestamp, once set

    function View(): State
      reads this
    {
      State(spec, status, hasFile, currentPhase, numPhase, loadPhase, boundAt, grace, deletedAt)
    }

    constructor (info: PodInfo, file: seq<Phase>, fromFile: bool, chunk: nat, boundAt: int, status: Status, grace: int, node: string)
      ensures View() == New(file, fromFile, chunk, boundAt, status, grace)
      ensures this.info == info && this.file == file && this.chunk == chunk && this.node == node
      ensures this.boundAt == boundAt && this.grace == grace && this.status == status && numPhase == |file|
    {
      this.info, this.file, this.chunk, this.boundAt, this.grace, this.node := info, file, chunk, boundAt, grace, node;
      this.status, this.numPhase, this.currentPhase, this.deletedAt := status, |file|, 0, 0;
      var newLoadPhase, more := chunk, fromFile;
      if !fromFile || newLoadPhase >= |file| {
        newLoadPhase, more := |file|, false;
      }
      this.loadPhase, this.hasFile, this.spec := newLoadPhase, more, file[..newLoadPhase];
    }

    method TotalExecutionDuration() returns (d: int)
      ensures d == View().Total()
    {
      var total := 0;
      for i := 0 to |spec|
        invariant total == Prefix(spec, i)
      {
        total := total + spec[i].seconds;
      }
      d := total * SECOND;
    }

    method LoadPod()
      requires loadPhase <= |file|
      modifies this
      ensures View() == Load(old(View()), file, chunk)
    {
      if hasFile {
        var newLoadPhase, more := loadPhase + chunk, true;
        if newLoadPhase >= |file| {
          newLoadPhase, more := |file|, false;
        }
        spec := spec + file[loadPhase..newLoadPhase];
        loadPhase, hasFile := newLoadPhase, more;
      }
    }

    method ResourceUsage(clock: int) returns (r: Reading)
      requires loadPhase <= |file|
      modifies this
      ensures View() == Query(old(View()), file, chunk, clock)
      ensures r == Read(old(View()), clock)
    {
      hide Load;
      if !View().UsesResources(clock) {
        return Usage(map[]);
      }
      var executedSeconds := Seconds(View().Executed(clock));
      var acc, i, stop := 0, 0, -1;
      while i < |spec| && stop < 0
        invariant 0 <= i <= |spec|
        invariant stop < 0 ==> stop == -1 && acc == Prefix(spec, i) && Covering(spec, executedSeconds) == CoverFrom(spec, executedSeconds, i)
        invariant stop >= 0 ==> stop < |spec| && stop == Covering(spec, executedSeconds) && acc == Prefix(spec, stop + 1)
        decreases |spec| - i, -stop
      {
        acc := acc + spec[i].seconds;
        if executedSeconds < acc {
          stop := i;
        } else {
          i := i + 1;
        }
      }
      if stop < 0 {
        return Panic;
      }
      r := Usage(spec[stop].usage);
      if stop > 0 {
        spec := [spec[stop].(seconds := acc)] + spec[stop + 1..];
        currentPhase := currentPhase + stop;
      }
      if currentPhase >= loadPhase - 1 && loadPhase < numPhase {
        LoadPod();
      }
    }

    method Delete(clock: int)
      modifies this
      ensures View() == Kill(old(View()), clock)
      ensures old(View().IsRunning(clock)) ==> status == Deleted && deletedAt == clock
      ensures !old(View().IsRunning(clock)) && old(status) != OverCapacity ==> View() == old(View())
    {
      if !(View().IsTerminated(clock) || status == Deleted) {
        status, deletedAt := Deleted, clock;
      }
    }
  }
}
