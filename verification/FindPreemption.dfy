// Finding a node to preempt on (`findPreemption` in pkg/scheduler/generic_scheduler.go, with generic_scheduler_k8s.go).

module FindPreemption {
  import opened Prelude
  import opened Pods
  import opened Victims
  import opened PickNode

  type Infos = map<string, NodeInfo>

  /** What `findPreemption` is given: the nodes listed, the scheduler's view of them, the pods nominated to
      them, the predicates, and which nodes failed for no reason that removing pods cannot resolve. */
  datatype Cluster = Cluster(
    nodes: seq<string>, infos: Infos, nominated: string -> seq<Pod>, preds: seq<FitPredicate>, helps: string -> bool)

  datatype Found =
    | InvalidName
    | Ineligible
    | NoNodesAvailable
    | Hopeless                                                       // the preemptor's own nomination is to be cleared
    | NoRoom
    | Crash                                                          // Pods[0] of an empty list
    | Preempt(node: string, victims: seq<Pod>, toClear: seq<Pod>)

  /** Priorities are int32s, and no node has more pods than an int32 counts. */
  ghost predicate Representable(infos: Infos) {
    forall n :: n in infos ==>
      |infos[n].pods| <= MAX_INT32 && forall p <- infos[n].pods :: -MAX_INT32 - 1 <= p.priority <= MAX_INT32
  }

  /** The preemptor would fit on the node if all pods of lower priority were removed. */
  ghost predicate CanMakeRoom(preemptor: Pod, c: Cluster, n: string) {
    n in c.infos &&
      var rest := set p | p in c.infos[n].pods && p.priority >= preemptor.priority;
      PodFits(preemptor, c.preds, c.infos[n].(pods := rest), c.nominated(n)).Fits?
  }

  ghost predicate Candidate(preemptor: Pod, c: Cluster, n: string) {
    n in c.nodes && c.helps(n) && CanMakeRoom(preemptor, c, n)
  }

  /** The victims on each node among `nodes` on which room can be made. */
  ghost predicate AreCandidates(m: Candidates, preemptor: Pod, c: Cluster, nodes: seq<string>) {
    && (forall n :: n in m <==> n in nodes && CanMakeRoom(preemptor, c, n))
    && forall n :: n in m ==> n in c.infos && SelectionOf(Selected(m[n]), preemptor, c.infos[n], c.nominated(n), c.preds)
  }

  lemma {:induction false} MembersSize(s: seq<Pod>)
    requires Distinct(s)
    ensures |Members(s)| == |s|
  {
    if s != [] {
      var init, last := s[..|s| - 1], s[|s| - 1];
      MembersSize(init);
      assert Members(s) == Members(init) + {last} && last !in Members(init);
    }
  }

  lemma {:induction false} ReprieveNoLonger(fit: set<Pod> -> bool, kept: set<Pod>, s: seq<Pod>)
    ensures |Reprieve(fit, kept, s)| <= |s|
    decreases s
  {
    if s != [] {
      ReprieveNoLonger(fit, kept + {s[0]}, s[1..]);
      ReprieveNoLonger(fit, kept, s[1..]);
    }
  }

  lemma SubsetSize(a: set<Pod>, b: set<Pod>)
    requires a <= b
    ensures |a| <= |b|
  {
    assert b == a + (b - a);
  }

  /** The victims of one node can be ranked in Go's integers. */
  lemma VictimsInRange(victims: seq<Pod>, preemptor: Pod, info: NodeInfo, nominated: seq<Pod>, preds: seq<FitPredicate>)
    requires SelectionOf(Selected(victims), preemptor, info, nominated, preds)
    requires |info.pods| <= MAX_INT32 && forall p <- info.pods :: -MAX_INT32 - 1 <= p.priority <= MAX_INT32
    ensures |victims| <= MAX_INT32 && forall v <- victims :: -MAX_INT32 - 1 <= v.priority <= MAX_INT32
  {
    var fit, lower := FitWith(preemptor, preds, info, nominated), Lower(info.pods, preemptor.priority);
    var s :| Distinct(s) && ByPriority(s) && Members(s) == lower && victims == Reprieve(fit, info.pods - lower, s);
    MembersSize(s);
    SubsetSize(lower, info.pods);
    ReprieveNoLonger(fit, info.pods - lower, s);
    ReprieveMembers(fit, info.pods - lower, s);
    assert forall v :: v in victims ==> v in Members(s);
  }

  lemma CandidatesInRange(m: Candidates, preemptor: Pod, c: Cluster, nodes: seq<string>)
    requires AreCandidates(m, preemptor, c, nodes) && Representable(c.infos)
    ensures InRange(m)
  {
    forall n | n in m ensures |m[n]| <= MAX_INT32 && forall v <- m[n] :: -MAX_INT32 - 1 <= v.priority <= MAX_INT32 {
      VictimsInRange(m[n], preemptor, c.infos[n], c.nominated(n), c.preds);
    }
  }

  /** `selectNodesForPreemption`; `podsOf` is the order in which a node lists its pods. */
  method SelectNodes(preemptor: Pod, c: Cluster, nodes: seq<string>, podsOf: string -> seq<Pod>, draws: string -> Draw, sort: seq<Pod> -> seq<Pod>)
    returns (m: Candidates)
    requires forall n :: n in c.infos ==> Distinct(podsOf(n)) && Members(podsOf(n)) == c.infos[n].pods
    requires (forall n :: DrawnFor(draws(n), c.preds)) && Sorts(sort)
    ensures AreCandidates(m, preemptor, c, nodes)
  {
    m := map[];
    for i := 0 to |nodes|
      invariant AreCandidates(m, preemptor, c, nodes[..i])
    {
      var n := nodes[i];
      assert nodes[..i + 1] == nodes[..i] + [n];
      var info := if n in c.infos then Some(c.infos[n]) else None;
      var selection := SelectVictimsOnNode(preemptor, info, podsOf(n), c.nominated(n), c.preds, draws(n), sort);
      if info.Some? { NotFitIff(selection, preemptor, info.value, c.nominated(n), c.preds); }
      if selection.Selected? {
        m := m[n := selection.victims];
      }
    }
    assert nodes[..|nodes|] == nodes;
  }

  /** `nodesWherePreemptionMightHelp`. */
  method Helpful(nodes: seq<string>, helps: string -> bool) returns (r: seq<string>)
    ensures forall n :: n in r <==> n in nodes && helps(n)
  {
    r := [];
    for i := 0 to |nodes|
      invariant forall n :: n in r <==> n in nodes[..i] && helps(n)
    {
      assert nodes[..i + 1] == nodes[..i] + [nodes[i]];
      if helps(nodes[i]) {
        r := r + [nodes[i]];
      }
    }
    assert nodes[..|nodes|] == nodes;
  }

  method LowerNominated(preemptor: Pod, nominated: seq<Pod>) returns (r: seq<Pod>)
    ensures forall p :: p in r <==> p in nominated && p.priority < preemptor.priority
  {
    r := [];
    for i := 0 to |nominated|
      invariant forall p :: p in r <==> p in nominated[..i] && p.priority < preemptor.priority
    {
      assert nominated[..i + 1] == nominated[..i] + [nominated[i]];
      if nominated[i].priority < preemptor.priority {
        r := r + [nominated[i]];
      }
    }
    assert nominated[..|nominated|] == nominated;
  }

  /** The result in terms of all candidates and the victims on each. */
  ghost predicate Means(r: Found, preemptor: Pod, eligible: bool, c: Cluster, m: Candidates) {
    && (r.InvalidName? <==> PodKey(preemptor).None?)
    && (r.Ineligible? <==> PodKey(preemptor).Some? && !eligible)
    && (r.NoNodesAvailable? <==> PodKey(preemptor).Some? && eligible && c.nodes == [])
    && (r.Hopeless? <==> PodKey(preemptor).Some? && eligible && c.nodes != [] && forall n :: n in c.nodes ==> !c.helps(n))
    && (r.NoRoom? || r.Crash? || r.Preempt? ==>
          && (forall n :: n in m <==> Candidate(preemptor, c, n))
          && (forall n :: n in m ==> n in c.infos && SelectionOf(Selected(m[n]), preemptor, c.infos[n], c.nominated(n), c.preds)))
    && (r.NoRoom? ==> m == map[])
    && (r.Crash? ==> |m| >= 2 && exists n :: n in m && m[n] == [])
    && (r.Preempt? ==>
          && r.node in m && r.victims == m[r.node]
          && (|m| >= 2 ==> forall n :: n in m ==> m[n] != [])
          && (forall n :: n in m ==> NoWorse(RankOf(r.victims), RankOf(m[n])))
          && (forall p :: p in r.toClear <==> p in c.nominated(r.node) && p.priority < preemptor.priority))
  }

  /** `findPreemption`; `orderOf` is the order in which the map of candidates yields its nodes. */
  method Find(preemptor: Pod, eligible: bool, c: Cluster, podsOf: string -> seq<Pod>, draws: string -> Draw,
              sort: seq<Pod> -> seq<Pod>, orderOf: Candidates -> seq<string>)
    returns (r: Found, m: Candidates)
    requires forall n :: n in c.infos ==> Distinct(podsOf(n)) && Members(podsOf(n)) == c.infos[n].pods
    requires (forall n :: DrawnFor(draws(n), c.preds)) && Sorts(sort) && Representable(c.infos)
    requires forall m: Candidates :: |orderOf(m)| == |m| && forall n :: n in m <==> n in orderOf(m)
    ensures Means(r, preemptor, eligible, c, m)
  {
    m := map[];
    if PodKey(preemptor).None? {
      return InvalidName, m;
    }
    if !eligible {
      return Ineligible, m;
    }
    if |c.nodes| == 0 {
      return NoNodesAvailable, m;
    }
    var potential := Helpful(c.nodes, c.helps);
    if |potential| == 0 {
      assert forall n :: n in c.nodes && c.helps(n) ==> n in potential;
      return Hopeless, m;
    }
    assert potential[0] in potential;
    var victims := SelectNodes(preemptor, c, potential, podsOf, draws, sort);
    CandidatesInRange(victims, preemptor, c, potential);
    var picked := PickOneNodeForPreemption(victims, orderOf(victims));
    m := victims;
    match picked
    case NoNode =>
      r := NoRoom;
    case Panic =>
      r := Crash;
    case Node(name) =>
      var toClear := LowerNominated(preemptor, c.nominated(name));
      r := Preempt(name, victims[name], toClear);
  }

  /** The preemptor fits on the node once the victims are gone.  They have lower priority, and come by
      nonincreasing priority; fewer of them would not do, if the predicates give reasons and removing pods
      never makes one fail; and no node on which room could be made has a less important first victim, or
      one as important and victims that add up to less, or to the same with fewer of them. */
  ghost predicate MakesRoom(preemptor: Pod, c: Cluster, m: Candidates, node: string, victims: seq<Pod>) {
    && Candidate(preemptor, c, node)
    && (forall v :: v in victims ==> v in c.infos[node].pods && v.priority < preemptor.priority) && ByPriority(victims)
    && PodFits(preemptor, c.preds, c.infos[node].(pods := c.infos[node].pods - Members(victims)), c.nominated(node)).Fits?
    && (MonotonePredicates(c.preds) ==> forall fewer :: fewer < Members(victims) ==>
          !PodFits(preemptor, c.preds, c.infos[node].(pods := c.infos[node].pods - fewer), c.nominated(node)).Fits?)
    && forall n :: Candidate(preemptor, c, n) ==> n in m && (|m| >= 2 ==> Cheaper(victims, m[n]))
  }

  ghost predicate Cheaper(a: seq<Pod>, b: seq<Pod>) {
    && a != [] && b != [] && a[0].priority <= b[0].priority
    && (a[0].priority == b[0].priority ==> SumPriorities(a) <= SumPriorities(b))
    && (a[0].priority == b[0].priority && SumPriorities(a) == SumPriorities(b) ==> |a| <= |b|)
  }

  /** THEOREM.  A node that is found makes room for the preemptor, at the least cost by rank. */
  lemma PreemptionMakesRoom(r: Found, preemptor: Pod, eligible: bool, c: Cluster, m: Candidates)
    ensures Means(r, preemptor, eligible, c, m) && r.Preempt? ==> MakesRoom(preemptor, c, m, r.node, r.victims)
  {
    if Means(r, preemptor, eligible, c, m) && r.Preempt? {
      SelectionMeans(Selected(r.victims), preemptor, c.infos[r.node], c.nominated(r.node), c.preds);
      forall n | Candidate(preemptor, c, n) && |m| >= 2 ensures Cheaper(r.victims, m[n]) {
        NoWorseMeans(r.victims, m[n]);
      }
    }
  }
}
