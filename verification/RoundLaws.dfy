// What the pods bound earlier in a round mean for the decisions that follow.

module RoundLaws {
  import opened Prelude
  import opened Pods
  import opened Victims
  import opened Allocation
  import opened Scheduling
  import opened Rounds
  import opened Admission
  import Scores = ParallelScores

  // ----- The node a decision sees -----

  /** The host decided on came through the predicates, on the node as it is now. */
  lemma DecidedFits(cfg: Config, pod: PodInfo, nodes: seq<string>, st: RoundState)
    requires InPlace(cfg) && Known(nodes, st.infos) && AllNarrow(cfg.extenders)
    ensures var d := DecideFor(cfg, pod, nodes, st);
      d.Host? ==> d.name in nodes && d.name in st.infos && PodFits(pod, cfg.preds, st.infos[d.name], []).Fits?
  {
    DecidedIsFiltered(cfg, pod, nodes, st.infos, st.cache, NoNominated());
    var outcome := Outcome(cfg, pod, st.infos, NoNominated());
    var first := if cfg.preds == [] then nodes else Filter.Passing(nodes, outcome);
    Filter.PassingMembers(nodes, outcome);
    if DecideFor(cfg, pod, nodes, st).Host? {
      NarrowKeepsAdmitted(cfg.extenders, pod, first, st.infos, st.cache);
    }
  }

  /** The `i`th pod bound passes the predicates on its host as it stands with the pods bound before. */
  ghost predicate FitsInTurn(cfg: Config, nodes: seq<string>, pods: map<Key, PodInfo>, before: Infos, binds: seq<Bound>, i: nat)
    requires i < |binds|
  {
    var b := binds[i];
    b.key in pods && b.host in nodes && b.host in before
    && PodFits(pods[b.key], cfg.preds, Plus(before[b.host], BoundOn(pods, binds[..i], b.host)), []).Fits?
  }

  lemma FitsInTurnCons(cfg: Config, nodes: seq<string>, pods: map<Key, PodInfo>, st: RoundState, key: Key, host: string, binds: seq<Bound>, i: nat)
    requires key in pods && host in st.infos && i < |binds|
    requires FitsInTurn(cfg, nodes, pods, Account(st, pods[key], host).infos, binds, i)
    ensures FitsInTurn(cfg, nodes, pods, st.infos, [Bound(key, host)] + binds, i + 1)
  {
    var b := binds[i];
    BoundOnCons(pods, Bound(key, host), binds[..i], b.host);
    assert ([Bound(key, host)] + binds)[..i + 1] == [Bound(key, host)] + binds[..i];
    assert Plus(Account(st, pods[key], host).infos[b.host], BoundOn(pods, binds[..i], b.host))
        == Plus(st.infos[b.host], BoundOn(pods, ([Bound(key, host)] + binds)[..i + 1], b.host));
  }

  ghost predicate EachInTurn(cfg: Config, nodes: seq<string>, pods: map<Key, PodInfo>, before: Infos, binds: seq<Bound>) {
    forall i: nat :: i < |binds| ==> FitsInTurn(cfg, nodes, pods, before, binds, i)
  }

  /** THEOREM.  Every pod bound in a round passes the predicates on its host as it stands with all earlier
      bindings of the round; given extenders that name no node they were not given. */
  lemma {:induction false} EachFitsInTurn(cfg: Config, nodes: seq<string>, pods: map<Key, PodInfo>, todo: seq<Key>, st: RoundState, fails: nat, timeout: nat)
    requires InPlace(cfg) && Known(nodes, st.infos) && (forall k :: k in todo ==> k in pods) && AllNarrow(cfg.extenders)
    ensures EachInTurn(cfg, nodes, pods, st.infos, Round(cfg, nodes, pods, todo, st, fails, timeout).binds)
    decreases |todo|
  {
    if todo != [] {
      var d := DecideFor(cfg, pods[todo[0]], nodes, st);
      if d.Host? {
        var next := Account(st, pods[todo[0]], d.name);
        EachFitsInTurn(cfg, nodes, pods, todo[1..], next, fails, timeout);
        var binds := Round(cfg, nodes, pods, todo[1..], next, fails, timeout).binds;
        AllFitInTurn(cfg, nodes, pods, st, todo[0], d.name, binds);
      } else if fails + 1 <= timeout {
        EachFitsInTurn(cfg, nodes, pods, todo[1..], st, fails + 1, timeout);
      }
    }
  }

  lemma AllFitInTurn(cfg: Config, nodes: seq<string>, pods: map<Key, PodInfo>, st: RoundState, key: Key, host: string, binds: seq<Bound>)
    requires InPlace(cfg) && Known(nodes, st.infos) && AllNarrow(cfg.extenders)
    requires key in pods && DecideFor(cfg, pods[key], nodes, st) == Host(host)
    requires host in st.infos && EachInTurn(cfg, nodes, pods, Account(st, pods[key], host).infos, binds)
    ensures EachInTurn(cfg, nodes, pods, st.infos, [Bound(key, host)] + binds)
  {
    hide DecideFor, AllNarrow;
    forall i: nat | i < |binds| + 1 ensures FitsInTurn(cfg, nodes, pods, st.infos, [Bound(key, host)] + binds, i) {
      if i == 0 {
        DecidedFits(cfg, pods[key], nodes, st);
        assert Plus(st.infos[host], BoundOn(pods, ([Bound(key, host)] + binds)[..0], host)) == st.infos[host];
      } else {
        FitsInTurnCons(cfg, nodes, pods, st, key, host, binds, i - 1);
      }
    }
  }

  // ----- Why the extenders must narrow -----

  /** With this one extender, whatever the predicates and the nodes, every node that comes through the
      filters passes the predicates. */
  ghost predicate NeverOverrules(e: Extender) {
    forall preds: seq<FitPredicate>, pod, nodes, infos, cache, n ::
      var f := Filtered(Config(preds, [], [e]), pod, nodes, infos, cache, NoNominated());
      Known(nodes, infos) && f.Some? && n in f.value ==> n in infos && PodFits(pod, preds, infos[n], []).Fits?
  }

  /** When its answer is used, the extender names only nodes it was given. */
  ghost predicate NarrowsWhenHeard(e: Extender) {
    e.filter.Some? ==> forall pod, names, cache, n ::
      var r := e.filter.value(pod, names, cache);
      names != [] && (!r.error || e.ignorable) && n in r.names ==> n in names
  }

  lemma NarrowNeverOverrules(e: Extender)
    requires NarrowsWhenHeard(e)
    ensures NeverOverrules(e)
  {
    forall preds: seq<FitPredicate>, pod, nodes, infos, cache, n
      ensures var f := Filtered(Config(preds, [], [e]), pod, nodes, infos, cache, NoNominated());
        Known(nodes, infos) && f.Some? && n in f.value ==> n in infos && PodFits(pod, preds, infos[n], []).Fits?
    {
      if Known(nodes, infos) { NarrowLeavesSay(e, preds, pod, nodes, infos, cache); }
    }
  }

  lemma NarrowLeavesSay(e: Extender, preds: seq<FitPredicate>, pod: PodInfo, nodes: seq<string>, infos: Infos, cache: Cache)
    requires NarrowsWhenHeard(e) && Known(nodes, infos)
    ensures var f := Filtered(Config(preds, [], [e]), pod, nodes, infos, cache, NoNominated());
      f.Some? ==> forall n :: n in f.value ==> n in infos && PodFits(pod, preds, infos[n], []).Fits?
  {
    var cfg := Config(preds, [], [e]);
    var outcome := Outcome(cfg, pod, infos, NoNominated());
    var first := if preds == [] then nodes else Filter.Passing(nodes, outcome);
    Filter.PassingMembers(nodes, outcome);
    assert [e][1..] == [];
    var f := Filtered(cfg, pod, nodes, infos, cache, NoNominated());
    if f.Some? {
      assert f == ExtendAll([e], pod, first, infos, cache);
      assert first == [] || ExtendAll([], pod, Extend(e, pod, first, infos, cache).value, infos, cache) == f;
      forall n | n in f.value ensures n in infos && PodFits(pod, preds, infos[n], []).Fits? {
        assert n in first;
        assert outcome(n) == PodFits(pod, preds, infos[n], []);
      }
    }
  }

  /** Nodes of the given names without pods. */
  function Empties(names: seq<string>): Infos {
    map n | n in names :: NodeInfo(n, {}, 0, 0)
  }

  lemma {:induction false} PassingAll(nodes: seq<string>, outcome: Filter.Outcomes)
    requires forall n :: n in nodes ==> outcome(n).Fits?
    ensures Filter.Passing(nodes, outcome) == nodes
  {
    if nodes != [] { PassingAll(nodes[..|nodes| - 1], outcome); }
  }

  /** A predicate that passes on the nodes of the given names. */
  function Listed(names: seq<string>): FitPredicate {
    (p: PodInfo, info: NodeInfo) => PredResult(info.name in names, ["not listed"], false)
  }

  lemma ListedFits(pod: PodInfo, names: seq<string>, info: NodeInfo)
    ensures PodFits(pod, [Listed(names)], info, []) == if info.name in names then Fits else Fails(["not listed"])
  {
    var preds := [Listed(names)];
    assert preds[0](pod, info) == Listed(names)(pod, info);
    assert Run(pod, preds, info, 1) == Fits;
  }

  lemma WideFiltered(e: Extender, pod: PodInfo, names: seq<string>, cache: Cache)
    requires e.filter.Some? && names != []
    requires var r := e.filter.value(pod, names, cache); !r.error || e.ignorable
    ensures var answer := e.filter.value(pod, names, cache).names;
      Filtered(Config([Listed(names)], [], [e]), pod, names, Empties(names + answer), cache, NoNominated()) == Some(answer)
  {
    hide PodFits, GivesReasons;
    var answer := e.filter.value(pod, names, cache).names;
    var infos := Empties(names + answer);
    var outcome := Outcome(Config([Listed(names)], [], [e]), pod, infos, NoNominated());
    forall m | m in names ensures outcome(m) == Fits {
      ListedFits(pod, names, infos[m]);
    }
    PassingAll(names, outcome);
    WideExtends(e, pod, names, infos, cache);
  }

  lemma WideExtends(e: Extender, pod: PodInfo, names: seq<string>, infos: Infos, cache: Cache)
    requires e.filter.Some? && names != [] && Known(e.filter.value(pod, names, cache).names, infos)
    requires var r := e.filter.value(pod, names, cache); !r.error || e.ignorable
    ensures ExtendAll([e], pod, names, infos, cache) == Some(e.filter.value(pod, names, cache).names)
  {
    assert [e][1..] == [];
  }

  /** A node the extender adds gets through though the predicate refuses it. */
  lemma WideOverrules(e: Extender, pod: PodInfo, names: seq<string>, cache: Cache, n: string)
    requires e.filter.Some? && names != [] && n !in names
    requires var r := e.filter.value(pod, names, cache); n in r.names && (!r.error || e.ignorable)
    ensures !NeverOverrules(e)
  {
    hide Filtered, PodFits;
    var answer := e.filter.value(pod, names, cache).names;
    var infos := Empties(names + answer);
    WideFiltered(e, pod, names, cache);
    ListedFits(pod, names, infos[n]);
    var f := Filtered(Config([Listed(names)], [], [e]), pod, names, infos, cache, NoNominated());
    assert Known(names, infos) && f.Some? && n in f.value;
    assert !PodFits(pod, [Listed(names)], infos[n], []).Fits?;
  }

  /** One extender leaves the predicates their say if and only if it names only nodes it was given whenever
      its answer is used. */
  lemma OverrulesIff(e: Extender)
    ensures NeverOverrules(e) <==> NarrowsWhenHeard(e)
  {
    if NarrowsWhenHeard(e) {
      NarrowNeverOverrules(e);
    } else {
      var pod, names, cache, n :| var r := e.filter.value(pod, names, cache);
        names != [] && (!r.error || e.ignorable) && n in r.names && n !in names;
      WideOverrules(e, pod, names, cache, n);
    }
  }

  // ----- Requests and capacity -----

  /** The sum of the requests of some pods. */
  ghost function Requests(ps: set<PodInfo>): Amounts {
    if ps == {} then Amounts(0, 0) else
      var p :| p in ps;
      var rest := Requests(ps - {p});
      Amounts(p.cpu + rest.cpu, p.memory + rest.mem)
  }

  /** The sum does not depend on the order. */
  lemma {:induction false} RequestsRemove(ps: set<PodInfo>, p: PodInfo)
    requires p in ps
    ensures var rest := Requests(ps - {p}); Requests(ps) == Amounts(p.cpu + rest.cpu, p.memory + rest.mem)
    decreases ps
  {
    var q :| q in ps && var rest := Requests(ps - {q}); Requests(ps) == Amounts(q.cpu + rest.cpu, q.memory + rest.mem);
    if q != p {
      RequestsRemove(ps - {q}, p);
      RequestsRemove(ps - {p}, q);
      assert ps - {q} - {p} == ps - {p} - {q};
    }
  }

  /** The requests of the pods on a node are within its capacity. */
  ghost predicate Uncrowded(info: NodeInfo) {
    Requests(info.pods).cpu <= info.cpu && Requests(info.pods).mem <= info.memory
  }

  /** A predicate that passes only where the node's capacity covers the requests of its pods and of this. */
  ghost predicate NeedsRoom(pred: FitPredicate) {
    forall pod, info :: pred(pod, info).fit && !pred(pod, info).err ==>
      && Requests(info.pods).cpu + pod.cpu <= info.cpu
      && Requests(info.pods).mem + pod.memory <= info.memory
  }

  ghost predicate NonNegative(pod: PodInfo) {
    pod.cpu >= 0 && pod.memory >= 0
  }

  lemma RoomKept(info: NodeInfo, pod: PodInfo)
    requires NonNegative(pod)
    requires Requests(info.pods).cpu + pod.cpu <= info.cpu && Requests(info.pods).mem + pod.memory <= info.memory
    ensures Uncrowded(info) && Uncrowded(Plus(info, {pod}))
  {
    var all := info.pods + {pod};
    if pod in info.pods {
      assert all == info.pods;
    } else {
      RequestsRemove(all, pod);
      assert all - {pod} == info.pods;
    }
  }

  lemma FittingLeavesRoom(cfg: Config, pod: PodInfo, nodes: seq<string>, st: RoundState, pred: FitPredicate)
    requires InPlace(cfg) && Known(nodes, st.infos) && AllNarrow(cfg.extenders)
    requires GivesReasons(cfg.preds) && pred in cfg.preds && NeedsRoom(pred) && NonNegative(pod)
    ensures var d := DecideFor(cfg, pod, nodes, st);
      d.Host? ==> d.name in st.infos && Uncrowded(st.infos[d.name]) && Uncrowded(Plus(st.infos[d.name], {pod}))
  {
    hide AllNarrow, DecideFor, Uncrowded;
    DecidedFits(cfg, pod, nodes, st);
    var d := DecideFor(cfg, pod, nodes, st);
    if d.Host? {
      PodFitsIff(pod, cfg.preds, st.infos[d.name], []);
      var i :| 0 <= i < |cfg.preds| && cfg.preds[i] == pred;
      assert pred(pod, st.infos[d.name]).fit && !pred(pod, st.infos[d.name]).err;
      RoomKept(st.infos[d.name], pod);
    }
  }

  /** THEOREM.  With a predicate that asks for room, a node that receives a pod in a round ends it with the
      requests of all its pods within its capacity, and so does a node that starts so. */
  lemma {:induction false} RoundStaysWithinCapacity(
    cfg: Config, nodes: seq<string>, pods: map<Key, PodInfo>, todo: seq<Key>, st: RoundState, fails: nat, timeout: nat,
    pred: FitPredicate, node: string)
    requires InPlace(cfg) && Known(nodes, st.infos) && (forall k :: k in todo ==> k in pods && NonNegative(pods[k]))
    requires AllNarrow(cfg.extenders) && GivesReasons(cfg.preds) && pred in cfg.preds && NeedsRoom(pred) && node in st.infos
    ensures var r := Round(cfg, nodes, pods, todo, st, fails, timeout);
      node in r.state.infos && (Receives(r.binds, node) || Uncrowded(st.infos[node]) ==> Uncrowded(r.state.infos[node]))
    decreases |todo|
  {
    hide NeedsRoom, GivesReasons, AllNarrow, Uncrowded;
    if todo != [] {
      var pod := pods[todo[0]];
      var d := DecideFor(cfg, pod, nodes, st);
      if d.Host? {
        FittingLeavesRoom(cfg, pod, nodes, st, pred);
        var next := Account(st, pod, d.name);
        RoundStaysWithinCapacity(cfg, nodes, pods, todo[1..], next, fails, timeout, pred, node);
        ReceivesCons(Bound(todo[0], d.name), Round(cfg, nodes, pods, todo[1..], next, fails, timeout).binds, node);
      } else if fails + 1 <= timeout {
        RoundStaysWithinCapacity(cfg, nodes, pods, todo[1..], st, fails + 1, timeout, pred, node);
      }
    }
  }

  /** Pods named by their keys, each once, that are not on the node already: the node ends with the
      requests it had and the requests bound to it. */
  lemma {:induction false} RequestsAdd(pods: map<Key, PodInfo>, binds: seq<Bound>, node: string, base: set<PodInfo>)
    requires (forall b :: b in binds ==> b.key in pods) && forall k :: k in pods ==> PodKey(pods[k]) == Some(k) && pods[k] !in base
    requires Distinct(Keys(binds))
    ensures var bound := RequestsBoundTo(pods, binds, node);
      Requests(base + BoundOn(pods, binds, node)) == Amounts(Requests(base).cpu + bound.cpu, Requests(base).mem + bound.mem)
  {
    if binds == [] {
      assert base + BoundOn(pods, binds, node) == base;
    } else {
      var b, rest := binds[0], binds[1..];
      assert binds == [b] + rest && Keys(rest) == Keys(binds)[1..];
      assert Keys(binds) == [b.key] + Keys(rest);
      HeadOnce(Keys(binds));
      RequestsAdd(pods, rest, node, base);
      BoundOnCons(pods, b, rest, node);
      if b.host == node {
        NotBoundAgain(pods, b.key, rest, node);
        var all := base + BoundOn(pods, binds, node);
        RequestsRemove(all, pods[b.key]);
        assert all - {pods[b.key]} == base + BoundOn(pods, rest, node);
      } else {
        assert BoundOn(pods, binds, node) == BoundOn(pods, rest, node);
      }
    }
  }

  lemma HeadOnce(ks: seq<Key>)
    requires Distinct(ks) && ks != []
    ensures ks[0] !in ks[1..] && Distinct(ks[1..])
  {
  }

  lemma NotBoundAgain(pods: map<Key, PodInfo>, key: Key, binds: seq<Bound>, node: string)
    requires key in pods && key !in Keys(binds) && forall k :: k in pods ==> PodKey(pods[k]) == Some(k)
    ensures pods[key] !in BoundOn(pods, binds, node)
  {
    forall i | 0 <= i < |binds| && binds[i].key in pods ensures pods[binds[i].key] != pods[key] {
      KeysIndex(binds);
      assert Keys(binds)[i] == binds[i].key;
    }
  }

  /** THEOREM.  What a node had and everything bound to it in the round stay together within its capacity,
      if it received anything. */
  lemma BoundWithinCapacity(
    cfg: Config, nodes: seq<string>, pods: map<Key, PodInfo>, todo: seq<Key>, st: RoundState, timeout: nat, pred: FitPredicate, node: string)
    requires InPlace(cfg) && Known(nodes, st.infos) && (forall k :: k in todo ==> k in pods && NonNegative(pods[k])) && Distinct(todo)
    requires AllNarrow(cfg.extenders) && GivesReasons(cfg.preds) && pred in cfg.preds && NeedsRoom(pred) && node in st.infos
    requires forall k :: k in pods ==> PodKey(pods[k]) == Some(k) && pods[k] !in st.infos[node].pods
    ensures var r := Round(cfg, nodes, pods, todo, st, 0, timeout); var had := Requests(st.infos[node].pods);
      && (forall b :: b in r.binds ==> b.key in pods)
      && (Receives(r.binds, node) ==>
            && had.cpu + RequestsBoundTo(pods, r.binds, node).cpu <= st.infos[node].cpu
            && had.mem + RequestsBoundTo(pods, r.binds, node).mem <= st.infos[node].memory)
  {
    hide NeedsRoom, GivesReasons, AllNarrow;
    var r := Round(cfg, nodes, pods, todo, st, 0, timeout);
    BindKeysKnown(cfg, nodes, pods, todo, st, 0, timeout);
    RoundPartitions(cfg, nodes, pods, todo, st, timeout);
    RoundFills(cfg, nodes, pods, todo, st, 0, timeout);
    RoundStaysWithinCapacity(cfg, nodes, pods, todo, st, 0, timeout, pred, node);
    RequestsAdd(pods, r.binds, node, st.infos[node].pods);
  }

  // ----- Pods that fail -----

  ghost predicate NeverErr(preds: seq<FitPredicate>) {
    forall i, pod, info :: 0 <= i < |preds| ==> !preds[i](pod, info).err
  }

  /** The prioritizers do not err on nodes that the scheduler was shown. */
  ghost predicate ScoringWorks(cfg: Config) {
    forall pod, nodes, infos :: Known(nodes, infos) ==> !Scores.ScoringErrs(Plugins(cfg, pod, infos), nodes, Missing(nodes, infos))
  }

  /** A pod for which no host is decided fits nowhere. */
  lemma UndecidedFitsNowhere(cfg: Config, pod: PodInfo, nodes: seq<string>, st: RoundState, n: string)
    requires InPlace(cfg) && Known(nodes, st.infos) && cfg.extenders == [] && n in nodes
    requires GivesReasons(cfg.preds) && NeverErr(cfg.preds) && ScoringWorks(cfg)
    requires !DecideFor(cfg, pod, nodes, st).Host?
    ensures cfg.preds != [] && !FitsOn(pod, cfg.preds, st.infos[n], [])
  {
    hide Prioritized, Filtered, PodFits, Scores.ScoringErrs;
    var f := Filtered(cfg, pod, nodes, st.infos, st.cache, NoNominated());
    DecisionMeans(cfg, pod, nodes, st.infos, st.cache, NoNominated());
    var outcome := Outcome(cfg, pod, st.infos, NoNominated());
    NothingErrs(cfg, pod, nodes, st);
    if f.Some? && f.value != [] { PriorityFound(cfg, pod, f.value, st); }
    assert f == Some([]);
  }

  lemma NothingErrs(cfg: Config, pod: PodInfo, nodes: seq<string>, st: RoundState)
    requires Known(nodes, st.infos) && cfg.extenders == [] && GivesReasons(cfg.preds) && NeverErr(cfg.preds)
    ensures var f := Filtered(cfg, pod, nodes, st.infos, st.cache, NoNominated());
      && f.Some? && (forall n :: n in f.value ==> n in nodes)
      && (cfg.preds == [] ==> f.value == nodes)
      && (cfg.preds != [] ==> forall n :: n in nodes && FitsOn(pod, cfg.preds, st.infos[n], []) ==> n in f.value)
  {
    forall n | n in nodes ensures !Outcome(cfg, pod, st.infos, NoNominated())(n).Error? {
      var _ := RunIs(pod, cfg.preds, st.infos[n], 0);
    }
    if cfg.preds != [] { FilteredMeans(cfg, pod, nodes, st.infos, st.cache, NoNominated()); }
  }

  lemma PriorityFound(cfg: Config, pod: PodInfo, nodes: seq<string>, st: RoundState)
    requires InPlace(cfg) && Known(nodes, st.infos) && cfg.extenders == [] && ScoringWorks(cfg)
    ensures Prioritized(cfg, pod, nodes, st.infos, st.cache).Some?
  {
    assert Missing(nodes, st.infos) == {};
  }

  /** With the first `j` pods bound, the pod fits on no node. */
  ghost predicate FitsNowhere(cfg: Config, nodes: seq<string>, pods: map<Key, PodInfo>, before: Infos, binds: seq<Bound>, pod: PodInfo, j: nat)
    requires j <= |binds|
  {
    forall n :: n in nodes && n in before ==> !FitsOn(pod, cfg.preds, Plus(before[n], BoundOn(pods, binds[..j], n)), [])
  }

  ghost predicate FailsInTurn(cfg: Config, nodes: seq<string>, pods: map<Key, PodInfo>, before: Infos, binds: seq<Bound>, pod: PodInfo) {
    exists j: nat :: j <= |binds| && FitsNowhere(cfg, nodes, pods, before, binds, pod, j)
  }

  lemma FailsInTurnCons(cfg: Config, nodes: seq<string>, pods: map<Key, PodInfo>, st: RoundState, key: Key, host: string, binds: seq<Bound>, pod: PodInfo)
    requires key in pods && host in st.infos && FailsInTurn(cfg, nodes, pods, Account(st, pods[key], host).infos, binds, pod)
    ensures FailsInTurn(cfg, nodes, pods, st.infos, [Bound(key, host)] + binds, pod)
  {
    hide FitsOn;
    var after, all := Account(st, pods[key], host).infos, [Bound(key, host)] + binds;
    var j: nat :| j <= |binds| && FitsNowhere(cfg, nodes, pods, after, binds, pod, j);
    assert all[..j + 1] == [Bound(key, host)] + binds[..j];
    forall n | n in nodes && n in st.infos ensures !FitsOn(pod, cfg.preds, Plus(st.infos[n], BoundOn(pods, all[..j + 1], n)), []) {
      BoundOnCons(pods, Bound(key, host), binds[..j], n);
      assert Plus(after[n], BoundOn(pods, binds[..j], n)) == Plus(st.infos[n], BoundOn(pods, all[..j + 1], n));
    }
    assert FitsNowhere(cfg, nodes, pods, st.infos, all, pod, j + 1);
  }

  lemma FailsAtOnce(cfg: Config, nodes: seq<string>, pods: map<Key, PodInfo>, st: RoundState, binds: seq<Bound>, pod: PodInfo)
    requires InPlace(cfg) && Known(nodes, st.infos) && cfg.extenders == []
    requires GivesReasons(cfg.preds) && NeverErr(cfg.preds) && ScoringWorks(cfg) && !DecideFor(cfg, pod, nodes, st).Host?
    ensures FailsInTurn(cfg, nodes, pods, st.infos, binds, pod)
  {
    hide FitsOn, DecideFor, GivesReasons, NeverErr, ScoringWorks;
    forall n | n in nodes && n in st.infos ensures !FitsOn(pod, cfg.preds, Plus(st.infos[n], BoundOn(pods, binds[..0], n)), []) {
      UndecidedFitsNowhere(cfg, pod, nodes, st, n);
      assert Plus(st.infos[n], BoundOn(pods, binds[..0], n)) == st.infos[n];
    }
    assert FitsNowhere(cfg, nodes, pods, st.infos, binds, pod, 0);
  }

  /** THEOREM.  No pod is failed that could have been bound: without extenders, with predicates that give
      reasons and never err, and with prioritizers that do not err, a pod that fails in the round fits on no
      node as the nodes stand with the pods bound before it. */
  lemma {:induction false} EachFailsInTurn(cfg: Config, nodes: seq<string>, pods: map<Key, PodInfo>, todo: seq<Key>, st: RoundState, fails: nat, timeout: nat)
    requires InPlace(cfg) && Known(nodes, st.infos) && (forall k :: k in todo ==> k in pods) && cfg.extenders == []
    requires GivesReasons(cfg.preds) && NeverErr(cfg.preds) && ScoringWorks(cfg)
    ensures var r := Round(cfg, nodes, pods, todo, st, fails, timeout);
      forall k :: k in r.failed ==> k in pods && FailsInTurn(cfg, nodes, pods, st.infos, r.binds, pods[k])
    decreases |todo|
  {
    hide GivesReasons, NeverErr, ScoringWorks, FailsInTurn;
    if todo != [] {
      var pod := pods[todo[0]];
      var d := DecideFor(cfg, pod, nodes, st);
      if d.Host? {
        EachFailsInTurn(cfg, nodes, pods, todo[1..], Account(st, pod, d.name), fails, timeout);
        var r := Round(cfg, nodes, pods, todo[1..], Account(st, pod, d.name), fails, timeout);
        forall k | k in r.failed ensures FailsInTurn(cfg, nodes, pods, st.infos, [Bound(todo[0], d.name)] + r.binds, pods[k]) {
          FailsInTurnCons(cfg, nodes, pods, st, todo[0], d.name, r.binds, pods[k]);
        }
      } else {
        FailsAtOnce(cfg, nodes, pods, st, Round(cfg, nodes, pods, todo, st, fails, timeout).binds, pod);
        if fails + 1 <= timeout { EachFailsInTurn(cfg, nodes, pods, todo[1..], st, fails + 1, timeout); }
      }
    }
  }

  lemma FillingHelpsNot(pod: PodInfo, preds: seq<FitPredicate>, info: NodeInfo, some: set<PodInfo>, more: set<PodInfo>)
    requires MonotonePredicates(preds) && some <= more && !FitsOn(pod, preds, Plus(info, some), [])
    ensures !FitsOn(pod, preds, Plus(info, more), [])
  {
    var a, b := Plus(info, some), Plus(info, more);
    assert WithNominated(pod, a, []) == a && WithNominated(pod, b, []) == b;
    var i :| 0 <= i < |preds| && !(preds[i](pod, a).fit && !preds[i](pod, a).err);
    assert a.pods <= b.pods && b == a.(pods := b.pods);
  }

  /** If moreover a predicate that passes on a node with more pods passes with fewer, then a pod that fails
      fits on no node at the end of the round either. */
  lemma FailedFitsNowhere(cfg: Config, nodes: seq<string>, pods: map<Key, PodInfo>, todo: seq<Key>, st: RoundState, timeout: nat, k: Key, n: string)
    requires InPlace(cfg) && Known(nodes, st.infos) && (forall k :: k in todo ==> k in pods) && cfg.extenders == []
    requires MonotonePredicates(cfg.preds) && NeverErr(cfg.preds) && ScoringWorks(cfg)
    requires k in Round(cfg, nodes, pods, todo, st, 0, timeout).failed && n in nodes
    ensures var r := Round(cfg, nodes, pods, todo, st, 0, timeout);
      k in pods && n in r.state.infos && !FitsOn(pods[k], cfg.preds, r.state.infos[n], [])
  {
    hide NeverErr, ScoringWorks, FitsOn, Round;
    var r := Round(cfg, nodes, pods, todo, st, 0, timeout);
    EachFailsInTurn(cfg, nodes, pods, todo, st, 0, timeout);
    RoundFills(cfg, nodes, pods, todo, st, 0, timeout);
    var j: nat :| j <= |r.binds| && FitsNowhere(cfg, nodes, pods, st.infos, r.binds, pods[k], j);
    assert n in st.infos;
    BoundOnPrefix(pods, r.binds, j, n);
    FillingHelpsNot(pods[k], cfg.preds, st.infos[n], BoundOn(pods, r.binds[..j], n), BoundOn(pods, r.binds, n));
  }

  lemma BoundOnPrefix(pods: map<Key, PodInfo>, binds: seq<Bound>, j: nat, n: string)
    requires j <= |binds|
    ensures BoundOn(pods, binds[..j], n) <= BoundOn(pods, binds, n)
  {
    forall p | p in BoundOn(pods, binds[..j], n) ensures p in BoundOn(pods, binds, n) {
      var i :| 0 <= i < j && binds[..j][i].host == n && binds[..j][i].key in pods && pods[binds[..j][i].key] == p;
      assert binds[i] == binds[..j][i];
    }
  }

  // ----- Such a predicate, and an example -----

  /** PodFitsResources, by the requests of the pods on the node. */
  ghost function FitsResources(): FitPredicate {
    (pod: PodInfo, info: NodeInfo) =>
      PredResult(Requests(info.pods).cpu + pod.cpu <= info.cpu && Requests(info.pods).mem + pod.memory <= info.memory, ["Insufficient"], false)
  }

  lemma FitsResourcesNeedsRoom()
    ensures NeedsRoom(FitsResources()) && GivesReasons([FitsResources()])
  {
  }

  /** Two pending pods of 600 mCPU and one node of 1000. */
  function Small(name: string): PodInfo {
    PodInfo("default", name, 0, 0, 600, 0)
  }

  function TwoPending(): map<Key, PodInfo> {
    map[Key("default", "a") := Small("a"), Key("default", "b") := Small("b")]
  }

  function OneNode(): RoundState {
    RoundState(map["n1" := NodeInfo("n1", {}, 1000, 1000)], map[])
  }

  lemma DecideOnOne(pod: PodInfo, st: RoundState)
    requires st.infos.Keys == {"n1"}
    ensures var cfg := Config([FitsResources()], [], []);
      InPlace(cfg) && DecideFor(cfg, pod, ["n1"], st) == if FitsResources()(pod, st.infos["n1"]).fit then Host("n1") else FitError
  {
    var cfg := Config([FitsResources()], [], []);
    var outcome := Outcome(cfg, pod, st.infos, NoNominated());
    assert ["n1"][..0] == [];
    assert Filter.Passing(["n1"][..0], outcome) == [];
    var fits := FitsResources()(pod, st.infos["n1"]).fit;
    assert outcome("n1").Fits? <==> fits;
    assert Filter.Passing(["n1"], outcome) == if fits then ["n1"] else [];
    forall n | n in ["n1"] ensures !outcome(n).Error? {
    }
  }

  /** The second of them waits: the node has the first. */
  lemma SecondPodWaits()
    ensures var cfg := Config([FitsResources()], [], []); var a, b := Key("default", "a"), Key("default", "b");
      && InPlace(cfg)
      && var r := Round(cfg, ["n1"], TwoPending(), [a, b], OneNode(), 0, 1); r.binds == [Bound(a, "n1")] && r.failed == [b]
  {
    var cfg := Config([FitsResources()], [], []);
    var a, b := Key("default", "a"), Key("default", "b");
    var st := OneNode();
    RequestsOfOne(Small("a"));
    DecideOnOne(Small("a"), st);
    var next := Account(st, Small("a"), "n1");
    assert next.infos["n1"].pods == {Small("a")};
    DecideOnOne(Small("b"), next);
    assert [a, b][1..] == [b] && [b][1..] == [];
    var last := Round(cfg, ["n1"], TwoPending(), [], next, 1, 1);
    assert Round(cfg, ["n1"], TwoPending(), [b], next, 0, 1) == last.(failed := [b] + last.failed);
  }

  lemma RequestsOfOne(p: PodInfo)
    ensures Requests({p}) == Amounts(p.cpu, p.memory)
  {
    RequestsRemove({p}, p);
  }
}
