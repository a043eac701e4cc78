// What a deletion does to a pod on a node, under any operations of the node that follow.

module Deletions {
  import opened Pods
  import opened SimPod
  import opened PodLifecycle
  import opened Nodes

  /** A pod's manifest, file, binding time and grace period, and when it was deleted while it ran. */
  datatype Sentence = Sentence(info: PodInfo, file: seq<Phase>, boundAt: int, grace: int, at: int)
  {
    function Over(): int {
      at + grace * SECOND
    }
  }

  ghost predicate Serves(h: Held, s: Sentence) {
    && h.info == s.info && h.file == s.file && h.state.boundAt == s.boundAt && h.state.grace == s.grace
    && Condemned(h.state, h.file, s.at)
  }

  /** The node has the pod that serves the sentence, or none when the grace period is over. */
  ghost predicate Upheld(m: PodMap, k: Key, s: Sentence, now: int) {
    s.at <= now && if k in m then Serves(m[k], s) else s.Over() <= now
  }

  ghost predicate NotPlaced(k: Key, ops: seq<NodeOp>) {
    forall i :: 0 <= i < |ops| && ops[i].Place? ==> ops[i].key != k
  }

  lemma ServesStep(h: Held, s: Sentence, op: Op)
    requires Serves(h, s) && s.at <= op.clock
    ensures Serves(h.(state := Do(h.state, h.file, h.chunk, op)), s)
  {
    CondemnedStep(h.state, h.file, h.chunk, s.at, op);
  }

  lemma CollectedIff(h: Held, s: Sentence, clock: int)
    requires Serves(h, s) && s.at <= clock
    ensures Finished(h.state, clock) <==> s.Over() <= clock
  {
    CondemnedMeans(h.state, h.file, s.at, clock);
  }

  lemma UpheldStep(m: PodMap, k: Key, s: Sentence, now: int, op: NodeOp)
    requires Windows(m) && Upheld(m, k, s, now) && now <= op.clock && (op.Place? ==> op.chunk >= 1 && op.key != k)
    ensures Upheld(Apply(m, op), k, s, op.clock)
    ensures op.GC? && s.Over() <= op.clock ==> k !in Apply(m, op)
    ensures k !in m ==> k !in Apply(m, op)
  {
    hide Serves, Finished, SimPod.Query, Kill;
    if k in m {
      match op
      case Ask(c) => ServesStep(m[k], s, Query(c));
      case Remove(c, _) => ServesStep(m[k], s, Delete(c));
      case GC(c) => CollectedIff(m[k], s, c);
      case _ =>
    }
  }

  /** A collection after the grace period has happened. */
  ghost predicate CollectedAfter(ops: seq<NodeOp>, over: int) {
    exists i :: 0 <= i < |ops| && ops[i].GC? && over <= ops[i].clock
  }

  lemma {:induction false} UpheldForever(m: PodMap, k: Key, s: Sentence, now: int, ops: seq<NodeOp>, collecting: bool, clock: int)
    requires Windows(m) && Upheld(m, k, s, now) && InClockOrder(now, ops) && NotPlaced(k, ops) && now <= clock
    requires ops != [] ==> ops[|ops| - 1].clock <= clock
    ensures var r := Nodes.Run(m, now, ops, collecting);
      && Upheld(r, k, s, clock)
      && (k !in m || (collecting && CollectedAfter(ops, s.Over())) ==> k !in r)
    decreases |ops|
  {
    hide Upheld, Serves, Apply;
    if ops == [] {
      UpheldLater(m, k, s, now, clock);
    } else {
      var next := if ops[0].GC? && !collecting then m else Apply(m, ops[0]);
      if ops[0].GC? && !collecting {
        UpheldLater(m, k, s, now, ops[0].clock);
      } else {
        UpheldStep(m, k, s, now, ops[0]);
      }
      UpheldForever(next, k, s, ops[0].clock, ops[1..], collecting, clock);
      if CollectedAfter(ops, s.Over()) && !(ops[0].GC? && s.Over() <= ops[0].clock) {
        var i :| 0 <= i < |ops| && ops[i].GC? && s.Over() <= ops[i].clock;
        assert ops[1..][i - 1] == ops[i];
      }
    }
  }

  lemma UpheldLater(m: PodMap, k: Key, s: Sentence, now: int, clock: int)
    requires Upheld(m, k, s, now) && now <= clock
    ensures Upheld(m, k, s, clock)
  {
  }

  lemma UpheldMeans(m: PodMap, k: Key, s: Sentence, clock: int)
    requires Upheld(m, k, s, clock)
    ensures k in Active(m, clock) <==> clock < s.Over()
    ensures clock < s.Over() ==> m[k].info == s.info && Read(m[k].state, clock) == Usage(FullUsage(s.file, s.at - s.boundAt))
  {
    if k in m { CondemnedMeans(m[k].state, m[k].file, s.at, clock); }
  }

  lemma RemoveUpholds(m: PodMap, k: Key, c: int)
    requires k in m && Sound(m[k].state, m[k].file, c) && m[k].state.IsRunning(c)
    ensures Upheld(DeleteOne(m, k, c), k, Sentence(m[k].info, m[k].file, m[k].state.boundAt, m[k].state.grace, c), c)
  {
    DeletionCondemns(m[k].state, m[k].file, m[k].chunk, c);
  }

  /** THEOREM.  A pod deleted at `c` while it runs on a node stays there, counted with the usage of that
      moment, exactly until its grace period is over, whatever else happens on the node; and the first
      collection after that takes it away for good.  The key must not be placed again. */
  lemma DeletedOnNode(m: PodMap, k: Key, c: int, ops: seq<NodeOp>, collecting: bool, clock: int)
    requires Windows(m) && k in m && Sound(m[k].state, m[k].file, c) && m[k].state.IsRunning(c)
    requires InClockOrder(c, [Remove(c, k)] + ops) && NotPlaced(k, ops) && c <= clock && (ops != [] ==> ops[|ops| - 1].clock <= clock)
    ensures var r := Nodes.Run(m, c, [Remove(c, k)] + ops, collecting); var over := c + m[k].state.grace * SECOND;
      && (k in Active(r, clock) <==> clock < over)
      && (clock < over ==> r[k].info == m[k].info && Read(r[k].state, clock) == Usage(FullUsage(m[k].file, c - m[k].state.boundAt)))
      && (collecting && CollectedAfter(ops, over) ==> k !in r)
  {
    hide Upheld, Sound, State.IsRunning, Nodes.Run, Active, FullUsage, Read;
    var s := Sentence(m[k].info, m[k].file, m[k].state.boundAt, m[k].state.grace, c);
    RemoveUpholds(m, k, c);
    NodeRunFrom(m, k, c, ops, collecting);
    UpheldForever(DeleteOne(m, k, c), k, s, c, ops, collecting, clock);
    UpheldMeans(Nodes.Run(DeleteOne(m, k, c), c, ops, collecting), k, s, clock);
  }

  lemma NodeRunFrom(m: PodMap, k: Key, c: int, ops: seq<NodeOp>, collecting: bool)
    requires Windows(m) && InClockOrder(c, [Remove(c, k)] + ops)
    ensures InClockOrder(c, ops) && Windows(DeleteOne(m, k, c))
    ensures Nodes.Run(m, c, [Remove(c, k)] + ops, collecting) == Nodes.Run(DeleteOne(m, k, c), c, ops, collecting)
  {
    var all := [Remove(c, k)] + ops;
    assert all[1..] == ops;
    forall i | 0 <= i < |ops| ensures ops[i] == all[i + 1] {
    }
  }
}
