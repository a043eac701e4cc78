// The life of one pod under any interleaving of usage queries and deletions at nondecreasing clocks.

module PodLifecycle {
  import opened SimPod

  datatype Op = Query(clock: int) | Delete(clock: int)

  function Do(s: State, file: seq<Phase>, chunk: nat, op: Op): State
    requires s.loadPhase <= |file|
  {
    match op
    case Query(c) => SimPod.Query(s, file, chunk, c)
    case Delete(c) => Kill(s, c)
  }

  ghost predicate InOrder(now: int, ops: seq<Op>) {
    && (forall i :: 0 <= i < |ops| ==> now <= ops[i].clock)
    && forall i, j :: 0 <= i <= j < |ops| ==> ops[i].clock <= ops[j].clock
  }

  /** The pod after all the operations. */
  function Run(s: State, file: seq<Phase>, chunk: nat, ops: seq<Op>): (t: State)
    requires Window(s, file)
    ensures Window(t, file)
    decreases |ops|
  {
    if ops == [] then s else
      DoWindow(s, file, chunk, ops[0]);
      Run(Do(s, file, chunk, ops[0]), file, chunk, ops[1..])
  }

  lemma DoWindow(s: State, file: seq<Phase>, chunk: nat, op: Op)
    requires Window(s, file)
    ensures Window(Do(s, file, chunk, op), file)
  {
    if op.Query? { QueryWindow(s, file, chunk, op.clock); }
  }

  /** What holds at clock `now` of a pod that was bound with status Ok. */
  ghost predicate Sound(s: State, file: seq<Phase>, now: int) {
    && Window(s, file)
    && s.boundAt <= now
    && (s.status == Ok ==> s.currentPhase == 0 || Prefix(file, s.currentPhase) <= Seconds(now - s.boundAt))
    && (s.status == Deleted ==>
      && s.boundAt <= s.deletedAt <= now
      && s.deletedAt - s.boundAt < s.Total()
      && (s.currentPhase == 0 || Prefix(file, s.currentPhase) <= Seconds(s.deletedAt - s.boundAt)))
    && s.status != OverCapacity
  }

  lemma NewIsSound(file: seq<Phase>, fromFile: bool, chunk: nat, boundAt: int, grace: int)
    requires chunk >= 1
    ensures Sound(New(file, fromFile, chunk, boundAt, Ok, grace), file, boundAt)
  {
    NewWindow(file, fromFile, chunk, boundAt, Ok, grace);
  }

  /** At every later clock, a pod that uses resources reports the phase its own execution time falls in,
      in the complete list; the line marked unreachable is not reached; and a pod counted as running
      would be running by the complete list. */
  lemma ReadsOwnPhase(s: State, file: seq<Phase>, now: int, clock: int)
    requires Sound(s, file, now) && now <= clock
    ensures Read(s, clock).Usage?
    ensures s.UsesResources(clock) ==>
      FullRunning(file, s.Executed(clock)) && Read(s, clock) == Usage(FullUsage(file, s.Executed(clock)))
    ensures s.IsRunning(clock) ==> FullRunning(file, clock - s.boundAt)
    ensures s.UsesResources(clock) ==>
      s.currentPhase + Covering(s.spec, Seconds(s.Executed(clock))) == Covering(file, Seconds(s.Executed(clock)))
  {
    if s.UsesResources(clock) {
      WindowTotal(s, file);
      PrefixMonotone(file, s.loadPhase, |file|);
      WindowLookup(s, file, Seconds(s.Executed(clock)));
    }
  }

  /** Loading never shortens the time a pod will run. */
  lemma QueryTotal(s: State, file: seq<Phase>, chunk: nat, clock: int)
    requires Window(s, file)
    ensures s.Total() <= SimPod.Query(s, file, chunk, clock).Total()
  {
    var t := SimPod.Query(s, file, chunk, clock);
    QueryWindow(s, file, chunk, clock);
    WindowTotal(s, file);
    WindowTotal(t, file);
    PrefixMonotone(file, s.loadPhase, t.loadPhase);
  }

  lemma QuerySoundStep(s: State, file: seq<Phase>, chunk: nat, now: int, clock: int)
    requires Sound(s, file, now) && now <= clock && s.UsesResources(clock)
    ensures Sound(SimPod.Query(s, file, chunk, clock), file, clock)
  {
    QueryWindow(s, file, chunk, clock);
    ReadsOwnPhase(s, file, now, clock);
    QueryTotal(s, file, chunk, clock);
  }

  lemma SoundStep(s: State, file: seq<Phase>, chunk: nat, now: int, op: Op)
    requires Sound(s, file, now) && now <= op.clock
    ensures Sound(Do(s, file, chunk, op), file, op.clock)
  {
    if op.Query? && s.UsesResources(op.clock) {
      QuerySoundStep(s, file, chunk, now, op.clock);
    }
  }

  /** THEOREM.  For all phase lists, chunk sizes, ticks and operations in clock order: a pod bound with
      status Ok may end early but never late, reports no other phase's usage, and never panics. */
  lemma {:induction false} NeverLateNeverWrong(s: State, file: seq<Phase>, chunk: nat, now: int, ops: seq<Op>, clock: int)
    requires Sound(s, file, now) && InOrder(now, ops) && now <= clock
    requires ops != [] ==> ops[|ops| - 1].clock <= clock
    ensures var t := Run(s, file, chunk, ops);
      && Read(t, clock).Usage?
      && (t.IsRunning(clock) ==> FullRunning(file, clock - t.boundAt))
      && (t.UsesResources(clock) ==> Read(t, clock) == Usage(FullUsage(file, t.Executed(clock))))
    decreases |ops|
  {
    if ops == [] {
      ReadsOwnPhase(s, file, now, clock);
    } else {
      SoundStep(s, file, chunk, now, ops[0]);
      NeverLateNeverWrong(Do(s, file, chunk, ops[0]), file, chunk, ops[0].clock, ops[1..], clock);
    }
  }

  /** After a query the second looked up is in the first phase held, which is not the last one loaded. */
  lemma QueryHead(s: State, file: seq<Phase>, chunk: nat, clock: int)
    requires Window(s, file) && chunk >= 1 && s.UsesResources(clock)
    requires Covering(s.spec, Seconds(s.Executed(clock))) < |s.spec|
    ensures var t := SimPod.Query(s, file, chunk, clock); var x := Seconds(s.Executed(clock));
      && t.spec != [] && x < t.spec[0].seconds
      && t.spec[0].usage == s.spec[Covering(s.spec, x)].usage
      && (t.currentPhase < t.loadPhase - 1 || t.loadPhase == t.numPhase)
  {
    var x := Seconds(s.Executed(clock));
    assert Prefix(s.spec, 1) == Prefix(s.spec, 0) + s.spec[0].seconds;
  }

  lemma QueryKeepsElapsed(s: State, file: seq<Phase>, chunk: nat, clock: int)
    requires Window(s, file) && s.UsesResources(clock)
    ensures var t := SimPod.Query(s, file, chunk, clock);
      t.UsesResources(clock) && t.Executed(clock) == s.Executed(clock)
  {
    QueryTotal(s, file, chunk, clock);
  }

  /** A second query at the same clock returns the same and changes nothing. */
  lemma RepeatedQueriesAgree(s: State, file: seq<Phase>, chunk: nat, clock: int)
    requires Window(s, file) && chunk >= 1
    ensures var t := SimPod.Query(s, file, chunk, clock);
      Read(t, clock) == Read(s, clock) && SimPod.Query(t, file, chunk, clock) == t
  {
    if s.UsesResources(clock) && Covering(s.spec, Seconds(s.Executed(clock))) < |s.spec| {
      var t := SimPod.Query(s, file, chunk, clock);
      QueryHead(s, file, chunk, clock);
      QueryKeepsElapsed(s, file, chunk, clock);
      HeadCovers(t.spec, Seconds(s.Executed(clock)));
    }
  }

  lemma HeadCovers(phases: seq<Phase>, x: int)
    requires phases != [] && x < phases[0].seconds
    ensures Covering(phases, x) == 0
  {
    assert Prefix(phases, 1) == Prefix(phases, 0) + phases[0].seconds;
    CoveringIs(phases, x, 0);
  }

  function Count(b: bool): nat { if b then 1 else 0 }

  /** Exactly one of the five lifecycle predicates holds at any clock. */
  lemma ExactlyOnePhase(s: State, clock: int)
    ensures Count(s.IsRunning(clock)) + Count(s.IsTerminated(clock)) + Count(s.IsTerminating(clock))
      + Count(s.IsDeleted(clock)) + Count(s.HasFailedToStart()) == 1
  {
  }

  predicate Finished(s: State, clock: int) {
    s.IsTerminated(clock) || s.IsDeleted(clock)
  }

  /** Terminated and deleted are absorbing: no later query or deletion changes a finished pod. */
  lemma {:induction false} FinishedForever(s: State, file: seq<Phase>, chunk: nat, now: int, ops: seq<Op>, clock: int)
    requires Window(s, file) && Finished(s, now) && InOrder(now, ops) && now <= clock
    ensures Run(s, file, chunk, ops) == s
    ensures s.IsTerminated(now) ==> s.IsTerminated(clock)
    ensures s.IsDeleted(now) ==> s.IsDeleted(clock)
    decreases |ops|
  {
    if ops != [] {
      assert Finished(s, ops[0].clock);
      FinishedForever(s, file, chunk, ops[0].clock, ops[1..], if clock >= ops[0].clock then clock else ops[0].clock);
    }
  }

  // ----- Deletion -----

  /** Deleted at second `c` of the clock, while it ran. */
  ghost predicate Condemned(s: State, file: seq<Phase>, c: int) {
    s.status == Deleted && s.deletedAt == c && Sound(s, file, c)
  }

  /** A condemned pod neither runs nor ends on its own any more.  For its grace period it uses what it used
      when it was deleted; after that it is deleted and uses nothing. */
  lemma CondemnedMeans(s: State, file: seq<Phase>, c: int, clock: int)
    requires Condemned(s, file, c) && c <= clock
    ensures !s.IsRunning(clock) && !s.IsTerminated(clock)
    ensures s.UsesResources(clock) <==> clock - c < s.grace * SECOND
    ensures s.IsDeleted(clock) <==> !s.UsesResources(clock)
    ensures Read(s, clock) == Usage(if clock - c < s.grace * SECOND then FullUsage(file, c - s.boundAt) else map[])
    ensures FullRunning(file, c - s.boundAt)
  {
    WindowTotal(s, file);
    PrefixMonotone(file, s.loadPhase, |file|);
    if s.UsesResources(clock) { ReadsOwnPhase(s, file, c, clock); }
  }

  lemma {:induction false} CondemnedForever(s: State, file: seq<Phase>, chunk: nat, c: int, now: int, ops: seq<Op>)
    requires Condemned(s, file, c) && c <= now && InOrder(now, ops)
    ensures var t := Run(s, file, chunk, ops); Condemned(t, file, c) && t.boundAt == s.boundAt && t.grace == s.grace
    decreases |ops|
  {
    if ops != [] {
      CondemnedStep(s, file, chunk, c, ops[0]);
      CondemnedForever(Do(s, file, chunk, ops[0]), file, chunk, c, ops[0].clock, ops[1..]);
    }
  }

  /** No query and no further deletion changes when and at what usage the pod was deleted. */
  lemma CondemnedStep(s: State, file: seq<Phase>, chunk: nat, c: int, op: Op)
    requires Condemned(s, file, c) && c <= op.clock
    ensures var t := Do(s, file, chunk, op); Condemned(t, file, c) && t.boundAt == s.boundAt && t.grace == s.grace
  {
    if op.Query? && s.UsesResources(op.clock) {
      QueryWindow(s, file, chunk, op.clock);
      ReadsOwnPhase(s, file, c, op.clock);
      QueryTotal(s, file, chunk, op.clock);
    }
  }

  /** A deletion of a running pod takes effect at once. */
  lemma DeletionCondemns(s: State, file: seq<Phase>, chunk: nat, c: int)
    requires Sound(s, file, c) && s.IsRunning(c)
    ensures var t := Do(s, file, chunk, Delete(c)); Condemned(t, file, c) && t.boundAt == s.boundAt && t.grace == s.grace
  {
  }

  lemma RunFrom(s: State, file: seq<Phase>, chunk: nat, op: Op, ops: seq<Op>)
    requires Window(s, file)
    ensures Window(Do(s, file, chunk, op), file)
    ensures Run(s, file, chunk, [op] + ops) == Run(Do(s, file, chunk, op), file, chunk, ops)
  {
    DoWindow(s, file, chunk, op);
    assert ([op] + ops)[1..] == ops;
  }

  /** THEOREM.  A pod that is deleted while it runs is never running or terminated at any later clock,
      whatever queries and deletions follow.  It uses resources exactly until its grace period is over,
      and is deleted from then on; and for the whole grace period it reports the usage that the complete
      list has for the second at which it was deleted. */
  lemma DeletionDeletes(s: State, file: seq<Phase>, chunk: nat, c: int, ops: seq<Op>, clock: int)
    requires Sound(s, file, c) && s.IsRunning(c) && InOrder(c, ops) && c <= clock
    requires ops != [] ==> ops[|ops| - 1].clock <= clock
    ensures var t := Run(s, file, chunk, [Delete(c)] + ops);
      && !t.IsRunning(clock) && !t.IsTerminated(clock)
      && (t.UsesResources(clock) <==> clock - c < s.grace * SECOND)
      && (t.IsDeleted(clock) <==> clock - c >= s.grace * SECOND)
      && Read(t, clock) == Usage(if clock - c < s.grace * SECOND then FullUsage(file, c - s.boundAt) else map[])
  {
    hide Condemned, Run;
    DeletionCondemns(s, file, chunk, c);
    var d := Do(s, file, chunk, Delete(c));
    RunFrom(s, file, chunk, Delete(c), ops);
    CondemnedForever(d, file, chunk, c, c, ops);
    CondemnedMeans(Run(d, file, chunk, ops), file, c, clock);
  }
}
