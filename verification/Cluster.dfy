// The simulator's main loop (pkg/kubesim.go), with a FIFO queue and the generic scheduler in
// keep-scheduling mode.

module Cluster {
  import opened Prelude
  import opened Pods
  import opened SimPod
  import opened PodLifecycle
  import opened Nodes
  import opened Fifo
  import opened FifoOrder
  import opened Allocation
  import opened Scheduling
  import opened Rounds
  import opened Admission
  import Victims

  // ----- Where the pods are -----

  /** Which pods each node holds, `boundPods`, the keys in the queue, every pod bound so far, and whether
      a pod was submitted under the key of a pod that was on a node. */
  datatype Layout = Layout(
    places: Places, bound: map<Key, Pod>, pending: set<Key>, accepted: set<Pod>,
    reused: bool)

  type Places = map<string, map<Key, Pod>>

  predicate On(places: Places, n: string, k: Key) {
    n in places && k in places[n]
  }

  /** Some node holds a pod under the key. */
  ghost predicate Somewhere(places: Places, key: Key) {
    exists n :: On(places, n, key)
  }

  /** Pods are stored under their own keys, on the node they were bound to. */
  ghost predicate Tidy(l: Layout) {
    && (forall n, k :: On(l.places, n, k) ==>
          var p := l.places[n][k]; p in l.accepted && PodKey(p.info) == Some(k) && p.node == n)
    && (forall k :: k in l.bound ==> l.bound[k] in l.accepted && PodKey(l.bound[k].info) == Some(k))
    && (forall p :: p in l.accepted ==> p.node in l.places)
  }

  /** No key is both pending and on a node; every pod on a node is the `boundPods` entry of its key. */
  ghost predicate OnePlace(l: Layout) {
    && (forall n, k :: On(l.places, n, k) ==> k in l.bound && l.bound[k] == l.places[n][k])
    && (forall n, k :: On(l.places, n, k) ==> k !in l.pending)
  }

  /** Nothing is promised once the name of a pod that is on a node is used again. */
  ghost predicate Good(l: Layout) {
    Tidy(l) && (!l.reused ==> OnePlace(l))
  }

  /** A key is never both pending and on a node, is on at most one node, and `boundPods` has the pod there
      and names that node. */
  ghost predicate EachInOnePlace(l: Layout) {
    && (forall n, k :: On(l.places, n, k) ==>
          k !in l.pending && k in l.bound && l.bound[k] == l.places[n][k] && l.bound[k].node == n)
    && forall m, n, k :: On(l.places, m, k) && On(l.places, n, k) ==> m == n
  }

  lemma GoodIsInOnePlace(l: Layout)
    requires Good(l) && !l.reused
    ensures EachInOnePlace(l)
  {
  }

  ghost function Submitted(l: Layout, key: Key): Layout {
    l.(pending := l.pending + {key}, reused := l.reused || Somewhere(l.places, key))
  }

  function Unqueued(l: Layout, keys: set<Key>): Layout {
    l.(pending := l.pending - keys)
  }

  function BoundTo(l: Layout, key: Key, host: string, p: Pod): Layout
    requires host in l.places
  {
    l.(places := l.places[host := l.places[host][key := p]], bound := l.bound[key := p], accepted := l.accepted + {p})
  }

  ghost predicate Shrunk(l: Layout, l': Layout) {
    && l' == l.(places := l'.places) && l'.places.Keys == l.places.Keys
    && forall n, k :: On(l'.places, n, k) ==> On(l.places, n, k) && l'.places[n][k] == l.places[n][k]
  }

  lemma ShrunkNot(l: Layout)
    ensures Shrunk(l, l)
  {
  }

  lemma ShrunkBoth(a: Layout, b: Layout, c: Layout)
    requires Shrunk(a, b) && Shrunk(b, c)
    ensures Shrunk(a, c)
  {
  }

  /** These keys have left the queue and are not on a node yet. */
  ghost predicate Awaiting(l: Layout, keys: seq<Key>) {
    Distinct(keys) && forall k :: k in keys ==> k !in l.pending && (!l.reused ==> !Somewhere(l.places, k))
  }

  lemma SubmittedGood(l: Layout, key: Key)
    requires Good(l)
    ensures Good(Submitted(l, key))
  {
  }

  /** Submitting a pod keeps every key in one place exactly when no node holds a pod of that name: a name
      used again while its pod is still queued does no harm, nor does that of a pod that has been
      collected, although `boundPods` still has it. */
  lemma SubmittingKeepsOnePlaceIff(l: Layout, key: Key)
    requires Tidy(l) && OnePlace(l)
    ensures OnePlace(Submitted(l, key)) <==> !Somewhere(l.places, key)
  {
    if Somewhere(l.places, key) {
      var n :| On(l.places, n, key);
      assert On(Submitted(l, key).places, n, key);
    }
  }

  /** The same of what a run promises. */
  lemma SubmittingKeepsEachInOnePlaceIff(l: Layout, key: Key)
    requires Tidy(l) && EachInOnePlace(l)
    ensures EachInOnePlace(Submitted(l, key)) <==> !Somewhere(l.places, key)
  {
    if Somewhere(l.places, key) {
      var n :| On(l.places, n, key);
      assert On(Submitted(l, key).places, n, key);
    }
  }

  lemma UnqueuedGood(l: Layout, keys: set<Key>)
    requires Good(l)
    ensures Good(Unqueued(l, keys))
  {
  }

  lemma BoundGood(l: Layout, keys: seq<Key>, host: string, p: Pod)
    requires Good(l) && Awaiting(l, keys) && keys != [] && host in l.places
    requires PodKey(p.info) == Some(keys[0]) && p.node == host
    ensures Good(BoundTo(l, keys[0], host, p)) && Awaiting(BoundTo(l, keys[0], host, p), keys[1..])
  {
    hide Tidy, OnePlace;
    BoundTidy(l, keys[0], host, p);
    if !l.reused { BoundInOnePlace(l, keys[0], host, p); }
    assert forall k :: k in keys[1..] ==> k in keys && k != keys[0];
    forall k | k != keys[0] && Somewhere(BoundTo(l, keys[0], host, p).places, k) ensures Somewhere(l.places, k) {
      BoundElsewhere(l, keys[0], host, p, k);
    }
  }

  lemma BoundElsewhere(l: Layout, key: Key, host: string, p: Pod, k: Key)
    requires host in l.places && k != key && Somewhere(BoundTo(l, key, host, p).places, k)
    ensures Somewhere(l.places, k)
  {
    var n :| On(BoundTo(l, key, host, p).places, n, k);
    assert On(l.places, n, k);
  }

  lemma BoundTidy(l: Layout, key: Key, host: string, p: Pod)
    requires Tidy(l) && host in l.places && PodKey(p.info) == Some(key) && p.node == host
    ensures Tidy(BoundTo(l, key, host, p))
  {
    var l' := BoundTo(l, key, host, p);
    assert forall n, k :: On(l'.places, n, k) ==> (k == key && n == host) || On(l.places, n, k);
  }

  lemma BoundInOnePlace(l: Layout, key: Key, host: string, p: Pod)
    requires OnePlace(l) && host in l.places && key !in l.pending && !Somewhere(l.places, key)
    ensures OnePlace(BoundTo(l, key, host, p))
  {
    var l' := BoundTo(l, key, host, p);
    assert forall n, k :: On(l'.places, n, k) ==> (k == key && n == host) || On(l.places, n, k);
  }

  /** No node gains, loses or exchanges a pod, except under these keys. */
  ghost predicate StandBut(a: Places, b: Places, keys: seq<Key>) {
    && a.Keys == b.Keys
    && forall n, k :: k !in keys ==> (On(b, n, k) <==> On(a, n, k)) && (On(a, n, k) ==> b[n][k] == a[n][k])
  }

  lemma StandStill(a: Places, keys: seq<Key>)
    ensures StandBut(a, a, keys)
  {
  }

  lemma StandBoth(a: Places, b: Places, c: Places, keys: seq<Key>, i: nat)
    requires StandBut(a, b, keys) && i < |keys| && StandBut(b, c, [keys[i]])
    ensures StandBut(a, c, keys)
  {
  }

  lemma BoundStand(l: Layout, key: Key, host: string, p: Pod)
    requires host in l.places
    ensures StandBut(l.places, BoundTo(l, key, host, p).places, [key])
  {
  }

  lemma ShrunkGood(l: Layout, l': Layout)
    requires Good(l) && Shrunk(l, l')
    ensures Good(l')
  {
  }

  lemma LeavesQueue(l: Layout, keys: seq<Key>)
    requires Good(l) && Distinct(keys) && forall k :: k in keys ==> k in l.pending
    ensures var l' := Unqueued(l, set k | k in keys); Good(l') && Awaiting(l', keys)
  {
  }

  // ----- What the scheduler is given and gives back -----

  /** The simulated phases and the grace period that a manifest's annotations describe. */
  datatype PodSpec = PodSpec(file: seq<Phase>, fromFile: bool, grace: int)

  datatype SubmitterEvent =
    | SubmitEvent(pod: V1Pod)
    | DeleteEvent(podNamespace: string, podName: string)
    | UpdateEvent(podNamespace: string, podName: string, newPod: V1Pod)
    | TerminateSubmitterEvent

  /** Every binding names a node that the scheduler was shown. */
  lemma {:induction false} RoundHosts(cfg: Config, nodes: seq<string>, pods: map<Key, PodInfo>, todo: seq<Key>, st: RoundState, fails: nat, timeout: nat, i: nat)
    requires InPlace(cfg) && Known(nodes, st.infos) && forall k :: k in todo ==> k in pods
    ensures var b := Round(cfg, nodes, pods, todo, st, fails, timeout).binds;
      i < |b| ==> b[i].host in st.infos && b[i].key in todo
    decreases |todo|
  {
    if todo != [] {
      var d := DecideFor(cfg, pods[todo[0]], nodes, st);
      if d.Host? {
        if i > 0 { RoundHosts(cfg, nodes, pods, todo[1..], Account(st, pods[todo[0]], d.name), fails, timeout, i - 1); }
      } else if fails + 1 <= timeout {
        RoundHosts(cfg, nodes, pods, todo[1..], st, fails + 1, timeout, i);
      }
    }
  }

  /** The round's bindings concern queued pods and known nodes. */
  lemma BindingsHaveHosts(cfg: Config, nodes: seq<string>, pods: map<Key, PodInfo>, order: seq<Key>, st: RoundState, timeout: nat)
    requires InPlace(cfg) && Known(nodes, st.infos) && forall k :: k in order ==> k in pods
    ensures var b := Round(cfg, nodes, pods, order, st, 0, timeout).binds;
      && |Keys(b)| == |b|
      && forall i :: 0 <= i < |b| ==> b[i].host in st.infos && b[i].key in order && Keys(b)[i] == b[i].key
  {
    var b := Round(cfg, nodes, pods, order, st, 0, timeout).binds;
    KeysIndex(b);
    forall i | 0 <= i < |b| ensures b[i].host in st.infos && b[i].key in order {
      RoundHosts(cfg, nodes, pods, order, st, 0, timeout, i);
    }
  }

  /** The events bind queued pods, each once, to known nodes. */
  ghost predicate AreBindings(events: seq<BindEvent>, keys: seq<Key>, hosts: set<string>) {
    && Distinct(keys) && |events| == |keys|
    && forall i :: 0 <= i < |keys| ==> PodKey(events[i].pod.info) == Some(keys[i]) && events[i].host in hosts
  }

  /** The first `n` bindings have been carried out, and `boundPods` is otherwise as before. */
  ghost predicate OnHosts(before: map<Key, Pod>, bound: map<Key, Pod>, events: seq<BindEvent>, keys: seq<Key>, n: nat) {
    && n <= |keys| == |events|
    && bound.Keys == before.Keys + (set k | k in keys[..n])
    && (forall k :: k in before && k !in keys[..n] ==> bound[k] == before[k])
    && forall j :: 0 <= j < n ==>
      keys[j] in bound && bound[keys[j]].node == events[j].host && bound[keys[j]].info == events[j].pod.info
  }

  lemma OnHostsStep(before: map<Key, Pod>, bound: map<Key, Pod>, events: seq<BindEvent>, keys: seq<Key>, n: nat, p: Pod)
    requires OnHosts(before, bound, events, keys, n) && n < |keys| && Distinct(keys)
    requires p.node == events[n].host && p.info == events[n].pod.info
    ensures OnHosts(before, bound[keys[n] := p], events, keys, n + 1)
  {
    assert keys[..n + 1] == keys[..n] + [keys[n]];
  }

  /** The round's bindings are where they should be. */
  ghost predicate CarriedOut(before: map<Key, Pod>, bound: map<Key, Pod>, plan: seq<Bound>, pods: map<Key, V1Pod>) {
    && bound.Keys == before.Keys + (set k | k in Keys(plan))
    && (forall k :: k in before && k !in Keys(plan) ==> bound[k] == before[k])
    && forall b :: b in plan ==> b.key in bound && b.key in pods && bound[b.key].node == b.host && bound[b.key].info == pods[b.key].info
  }

  lemma OnHostsMeans(before: map<Key, Pod>, bound: map<Key, Pod>, events: seq<BindEvent>, plan: seq<Bound>, pods: map<Key, V1Pod>)
    requires OnHosts(before, bound, events, Keys(plan), |Keys(plan)|) && EventsOf(events, plan, pods)
    ensures CarriedOut(before, bound, plan, pods)
  {
    KeysIndex(plan);
    assert Keys(plan)[..|Keys(plan)|] == Keys(plan);
  }

  lemma RoundBinds(cfg: Config, nodes: seq<string>, pods: map<Key, V1Pod>, order: seq<Key>, st: RoundState, timeout: nat, events: seq<BindEvent>)
    requires InPlace(cfg) && Known(nodes, st.infos) && (forall k :: k in order <==> k in pods) && Distinct(order)
    requires forall k :: k in pods ==> PodKey(pods[k].info) == Some(k)
    requires EventsOf(events, Round(cfg, nodes, Manifests(pods), order, st, 0, timeout).binds, pods)
    ensures var keys := Keys(Round(cfg, nodes, Manifests(pods), order, st, 0, timeout).binds);
      AreBindings(events, keys, st.infos.Keys) && forall k :: k in keys ==> k in pods
  {
    RoundPartitions(cfg, nodes, Manifests(pods), order, st, timeout);
    BindingsHaveHosts(cfg, nodes, Manifests(pods), order, st, timeout);
  }

  /** What an event does to the layout.  A pod without a name is not submitted. */
  ghost function Handled(l: Layout, e: SubmitterEvent): Layout {
    match e
    case SubmitEvent(pod) => (match PodKey(pod.info) case Some(key) => Submitted(l, key) case None => l)
    case DeleteEvent(ns, n) => Unqueued(l, {PodKeyFromNames(ns, n)})
    case UpdateEvent(_, _, _) => l
    case TerminateSubmitterEvent => l
  }

  /** What an event does to the queued pods. */
  function Queued(q: map<Key, V1Pod>, e: SubmitterEvent): map<Key, V1Pod> {
    match e
    case SubmitEvent(pod) => (match PodKey(pod.info) case Some(key) => q[key := pod] case None => q)
    case DeleteEvent(ns, n) => q - {PodKeyFromNames(ns, n)}
    case UpdateEvent(ns, n, newPod) =>
      if Accepted(e) && PodKeyFromNames(ns, n) in q then q[PodKeyFromNames(ns, n) := newPod] else q
    case TerminateSubmitterEvent => q
  }

  /** The key whose bound pod an event deletes: the name of a delete event, unless the queue has it. */
  function DeletedKey(pending: set<Key>, e: SubmitterEvent): Option<Key> {
    match e
    case DeleteEvent(ns, n) => if PodKeyFromNames(ns, n) in pending then None else Some(PodKeyFromNames(ns, n))
    case _ => None
  }

  ghost function HandledAll(l: Layout, events: seq<SubmitterEvent>): Layout {
    if events == [] then l else Handled(HandledAll(l, events[..|events| - 1]), events[|events| - 1])
  }

  /** All events of the submitters in the given order. */
  ghost function HandledBy(l: Layout, order: seq<string>, submit: string -> Option<seq<SubmitterEvent>>): Layout {
    if order == [] then l else
      var before := HandledBy(l, order[..|order| - 1], submit);
      match submit(order[|order| - 1])
      case Some(events) => HandledAll(before, events)
      case None => before
  }

  /** The submitters left after one of them sent these events. */
  function LeftBy(submitters: set<string>, name: string, events: seq<SubmitterEvent>): set<string> {
    if TerminateSubmitterEvent in events then submitters - {name} else submitters
  }

  lemma EventKeepsPlaces(l: Layout, e: SubmitterEvent)
    ensures var h := Handled(l, e);
      && h.places == l.places && h.bound == l.bound && h.accepted == l.accepted
      && forall k :: k in h.pending ==> k in l.pending || Submits([e], k)
  {
    match e
    case SubmitEvent(pod) => assert [e][0] == e;
    case _ =>
  }

  lemma HandledGood(l: Layout, e: SubmitterEvent)
    requires Good(l)
    ensures Good(Handled(l, e))
  {
    match e
    case SubmitEvent(pod) => if PodKey(pod.info).Some? { SubmittedGood(l, PodKey(pod.info).value); }
    case DeleteEvent(ns, n) => UnqueuedGood(l, {PodKeyFromNames(ns, n)});
    case _ =>
  }

  /** Whether the simulator goes on after the event. */
  predicate Accepted(e: SubmitterEvent) {
    match e
    case SubmitEvent(pod) => PodKey(pod.info).Some?
    case UpdateEvent(ns, n, newPod) => PodKey(newPod.info) == Some(PodKeyFromNames(ns, n))
    case _ => true
  }

  predicate AllAccepted(events: Option<seq<SubmitterEvent>>) {
    events.Some? && forall i :: 0 <= i < |events.value| ==> Accepted(events.value[i])
  }

  function Killed(h: Held, clock: int): Held {
    h.(state := Kill(h.state, clock))
  }

  lemma KillSound(h: Held, clock: int)
    requires SoundAt(h, clock)
    ensures SoundAt(Killed(h, clock), clock)
  {
    SoundStep(h.state, h.file, h.chunk, clock, Delete(clock));
  }

  lemma QueryKeepsSentence(h: Held, clock: int)
    requires Window(h.state, h.file)
    ensures var s := QueryOne(h, clock).state; s.status == h.state.status && s.deletedAt == h.state.deletedAt
  {
  }

  lemma KillTwice(h: Held, clock: int)
    ensures Killed(Killed(h, clock), clock) == Killed(h, clock)
  {
  }

  // ----- Deletions over time -----

  /** A pod that was on a node under a key, and was deleted there at a clock while it ran. */
  datatype Deletion = Deletion(node: string, key: Key, pod: Pod, at: int)

  /** The running pods, the deletions that have begun, and the keys in the queue. */
  datatype Fate = Fate(runners: set<Deletion>, deletions: set<Deletion>, pending: set<Key>)

  /** Deletions that have begun go on, unless a pod is bound under one of these keys. */
  ghost predicate GoOn(a: set<Deletion>, b: set<Deletion>, keys: seq<Key>) {
    forall d :: d in a && d.key !in keys ==> d in b
  }

  ghost predicate Submits(es: seq<SubmitterEvent>, key: Key) {
    exists i :: 0 <= i < |es| && es[i].SubmitEvent? && PodKey(es[i].pod.info) == Some(key)
  }

  function DeleteOf(key: Key): SubmitterEvent {
    DeleteEvent(key.namespace, key.name)
  }

  /** Unless a pod is submitted under its name, a running pod is deleted if the events say so and runs on
      if they do not; deletions that have begun go on. */
  ghost predicate Reached(a: Fate, b: Fate, es: seq<SubmitterEvent>) {
    && (forall d :: d in a.runners && !Submits(es, d.key) ==> if DeleteOf(d.key) in es then d in b.deletions else d in b.runners)
    && GoOn(a.deletions, b.deletions, [])
    && forall k :: k !in a.pending && !Submits(es, k) ==> k !in b.pending
  }

  /** A delete event for a key that is not queued deletes the running pod that `boundPods` has for it, and
      touches no pod of another key; other events touch none. */
  ghost predicate DeletesOnly(a: map<Pod, Held>, b: map<Pod, Held>, e: SubmitterEvent, pending: set<Key>, bound: map<Key, Pod>, clock: int) {
    forall p :: p in a && p in b ==>
      if e.DeleteEvent? && PodKey(a[p].info) == Some(PodKeyFromNames(e.podNamespace, e.podName)) then
        var key := PodKeyFromNames(e.podNamespace, e.podName);
        key !in pending && key in bound && bound[key] == p && a[p].state.IsRunning(clock) ==>
          b[p].state.status == Deleted && b[p].state.deletedAt == clock
      else b[p] == a[p]
  }

  /** A deletion that has begun is not begun again or undone. */
  ghost predicate Stands(a: Held, b: Held) {
    a.state.status == Deleted ==> b.state.status == Deleted && b.state.deletedAt == a.state.deletedAt
  }

  ghost predicate AllStand(a: map<Pod, Held>, b: map<Pod, Held>) {
    forall p :: p in a ==> p in b && Stands(a[p], b[p])
  }

  lemma ValuesStand(v: map<Pod, Held>)
    ensures AllStand(v, v)
  {
  }

  /** Of all pods ever bound, only the `boundPods` entry of `key`, if any, is deleted. */
  ghost predicate OnlyDeleted(a: map<Pod, Held>, b: map<Pod, Held>, key: Option<Key>, bound: map<Key, Pod>, clock: int) {
    forall p :: p in a && p in b ==>
      b[p] == if key.Some? && key.value in bound && p == bound[key.value] then Killed(a[p], clock) else a[p]
  }

  /** What an event does to the pods that have been bound. */
  ghost predicate Deletes(a: map<Pod, Held>, b: map<Pod, Held>, e: SubmitterEvent, pending: set<Key>, bound: map<Key, Pod>, clock: int, reused: bool) {
    && AllStand(a, b) && DeletesOnly(a, b, e, pending, bound, clock)
    && (!reused ==> OnlyDeleted(a, b, DeletedKey(pending, e), bound, clock))
  }

  lemma NothingDeleted(v: map<Pod, Held>, e: SubmitterEvent, pending: set<Key>, bound: map<Key, Pod>, clock: int)
    requires e.DeleteEvent? ==> PodKeyFromNames(e.podNamespace, e.podName) in pending
    ensures Deletes(v, v, e, pending, bound, clock, false) && Deletes(v, v, e, pending, bound, clock, true)
  {
  }

  lemma NoEntryDeletes(v: map<Pod, Held>, e: SubmitterEvent, bound: map<Key, Pod>, clock: int, reused: bool)
    requires e.DeleteEvent? && PodKeyFromNames(e.podNamespace, e.podName) !in bound
    ensures Deletes(v, v, e, {}, bound, clock, reused)
  {
  }

  lemma EntryDeletes(a: map<Pod, Held>, b: map<Pod, Held>, e: SubmitterEvent, bound: map<Key, Pod>, clock: int, reused: bool)
    requires e.DeleteEvent? && PodKeyFromNames(e.podNamespace, e.podName) in bound && AllStand(a, b)
    requires var entry := bound[PodKeyFromNames(e.podNamespace, e.podName)]; entry in a && b[entry] == Killed(a[entry], clock)
    requires forall p :: p in a && PodKey(a[p].info) != Some(PodKeyFromNames(e.podNamespace, e.podName)) ==> b[p] == a[p]
    requires !reused ==> forall p :: p in a && p != bound[PodKeyFromNames(e.podNamespace, e.podName)] ==> b[p] == a[p]
    ensures Deletes(a, b, e, {}, bound, clock, reused)
  {
  }

  lemma DeletesWhatever(a: map<Pod, Held>, b: map<Pod, Held>, e: SubmitterEvent, pending: set<Key>, bound: map<Key, Pod>, clock: int, reused: bool)
    requires Deletes(a, b, e, {}, bound, clock, reused)
    requires e.DeleteEvent? ==> PodKeyFromNames(e.podNamespace, e.podName) !in pending
    ensures Deletes(a, b, e, pending, bound, clock, reused)
  {
  }

  lemma ReachedNone(a: Fate)
    ensures Reached(a, a, [])
  {
  }

  lemma ReachedGoesOn(a: Fate, b: Fate, es: seq<SubmitterEvent>)
    requires Reached(a, b, es)
    ensures GoOn(a.deletions, b.deletions, [])
  {
  }

  lemma GoesOnFrom(a: Fate, b: Fate, c: Fate, es: seq<SubmitterEvent>)
    requires Reached(a, b, es) && GoOn(b.deletions, c.deletions, [])
    ensures GoOn(a.deletions, c.deletions, [])
  {
  }

  /** The events of some submitters, one after another. */
  ghost function Sent(order: seq<string>, submit: string -> Option<seq<SubmitterEvent>>): seq<SubmitterEvent> {
    if order == [] then [] else
      Sent(order[..|order| - 1], submit) + EventsFrom(submit, order[|order| - 1])
  }

  function EventsFrom(submit: string -> Option<seq<SubmitterEvent>>, name: string): seq<SubmitterEvent> {
    match submit(name) case Some(es) => es case None => []
  }

  lemma SubmitsEither(es: seq<SubmitterEvent>, fs: seq<SubmitterEvent>, key: Key)
    ensures Submits(es, key) || Submits(fs, key) ==> Submits(es + fs, key)
  {
    if Submits(es, key) {
      var i :| 0 <= i < |es| && es[i].SubmitEvent? && PodKey(es[i].pod.info) == Some(key);
      assert (es + fs)[i] == es[i];
    } else if Submits(fs, key) {
      var i :| 0 <= i < |fs| && fs[i].SubmitEvent? && PodKey(fs[i].pod.info) == Some(key);
      assert (es + fs)[|es| + i] == fs[i];
    }
  }

  lemma SubmitsOneOf(es: seq<SubmitterEvent>, fs: seq<SubmitterEvent>, key: Key)
    requires Submits(es + fs, key)
    ensures Submits(es, key) || Submits(fs, key)
  {
    var all := es + fs;
    var i :| 0 <= i < |all| && all[i].SubmitEvent? && PodKey(all[i].pod.info) == Some(key);
    if i < |es| {
      assert es[i] == all[i];
    } else {
      assert fs[i - |es|] == all[i];
    }
  }

  lemma ReachedBoth(a: Fate, b: Fate, c: Fate, es: seq<SubmitterEvent>, fs: seq<SubmitterEvent>)
    requires Reached(a, b, es) && Reached(b, c, fs)
    ensures Reached(a, c, es + fs)
  {
    hide Submits;
    forall d | d in a.runners && !Submits(es + fs, d.key)
      ensures if DeleteOf(d.key) in es + fs then d in c.deletions else d in c.runners
    {
      SubmitsEither(es, fs, d.key);
    }
    forall k | k !in a.pending && !Submits(es + fs, k) ensures k !in c.pending {
      SubmitsEither(es, fs, k);
    }
  }

  datatype End = Completed | Cancelled | SubmitterFailed

  /** What `Run` can return: ctx.Err(). */
  datatype RunError = ContextDone

  /** No pod runs or terminates. */
  ghost predicate Quiet(m: PodMap, clock: int) {
    Active(m, clock) == map[]
  }

  /** The CPU and memory that the pods of a node use together. */
  ghost function UsageAt(m: PodMap, clock: int): Amounts {
    Amounts(Total(m, clock, Using(clock, "cpu")), Total(m, clock, Using(clock, "memory")))
  }

  function ReportedUsage(r: NodeReport): Amounts {
    Amounts(Amount(r.usage, "cpu"), Amount(r.usage, "memory"))
  }

  /** The node's metrics at a clock, taken by asking each of its pods once. */
  ghost predicate MetricsTaken(before: PodMap, after: PodMap, m: NodeReport, clock: int) {
    && Windows(before) && after == QueryAll(before, clock) && IsMetrics(m, before, clock) && Settled(after, clock)
    && ReportedUsage(m) == UsageAt(after, clock)
  }

  lemma ReportIsUsage(m: PodMap, r: NodeReport, clock: int)
    requires AllSound(m, clock) && Windows(m) && IsMetrics(r, m, clock)
    ensures ReportedUsage(r) == UsageAt(QueryAll(m, clock), clock)
  {
    hide Total, QueryAll, AllSound, Windows, AreCounts;
    TotalAsked(m, clock, "cpu");
    TotalAsked(m, clock, "memory");
  }

  lemma TakenMeans(before: PodMap, after: PodMap, r: NodeReport, clock: int)
    requires MetricsTaken(before, after, r, clock)
    ensures Settled(after, clock) && ReportedUsage(r) == UsageAt(after, clock)
  {
  }

  // ----- What a turn leaves behind -----

  /** A turn's round: its bindings, the pods that were queued, the usage last measured, and `boundPods`
      afterwards; and the pods that ran before the turn, and the deletions that have begun after it. */
  datatype RoundLog = RoundLog(
    binds: seq<Bound>, queued: map<Key, V1Pod>, measured: map<string, NodeMetrics>, bound: map<Key, Pod>,
    runners: set<Deletion>, deletions: set<Deletion>)

  /** A node that receives pods in the round keeps the usage last measured there, plus everything that is
      bound to it, within its allocatable amounts. */
  ghost predicate KeepsMeasured(log: RoundLog, node: string) {
    var m, pods := MeasuredOf(log.measured, node), Manifests(log.queued);
    && (forall b :: b in log.binds ==> b.key in pods)
    && (m.usage.cpu >= 0 && m.usage.mem >= 0 && Receives(log.binds, node) ==>
          && m.usage.cpu + RequestsBoundTo(pods, log.binds, node).cpu <= m.allocatable.cpu
          && m.usage.mem + RequestsBoundTo(pods, log.binds, node).mem <= m.allocatable.mem)
  }

  ghost predicate AllKeepMeasured(log: RoundLog, nodeNames: seq<string>) {
    forall n :: n in nodeNames ==> KeepsMeasured(log, n)
  }

  lemma KeepsMeasuredWhatever(a: RoundLog, b: RoundLog, nodeNames: seq<string>)
    requires b == a.(bound := b.bound, runners := b.runners, deletions := b.deletions)
    ensures AllKeepMeasured(a, nodeNames) <==> AllKeepMeasured(b, nodeNames)
  {
    assert forall n :: KeepsMeasured(a, n) <==> KeepsMeasured(b, n);
  }

  /** The log tells how `boundPods` came about from what it was before the turn. */
  ghost predicate Logs(log: RoundLog, before: map<Key, Pod>, after: map<Key, Pod>) {
    log.bound == after && CarriedOut(before, after, log.binds, log.queued)
  }

  lemma LogsWhatever(a: RoundLog, b: RoundLog, before: map<Key, Pod>, after: map<Key, Pod>)
    requires b == a.(runners := b.runners)
    ensures Logs(a, before, after) <==> Logs(b, before, after)
  {
  }

  /** The log tells which pods ran before the turn and which deletions have begun after it: those that had
      begun and, of the pods that ran, those whose name was sent in a delete event; unless a pod of that
      name was bound, or submitted. */
  ghost predicate DeletesAsAsked(
    log: RoundLog, runners: set<Deletion>, before: set<Deletion>, after: set<Deletion>,
    submitters: set<string>, submit: string -> Option<seq<SubmitterEvent>>)
  {
    log.runners == runners && log.deletions == after && GoOn(before, after, Keys(log.binds)) && Obeys(log, submitters, submit)
  }

  ghost predicate Obeys(log: RoundLog, submitters: set<string>, submit: string -> Option<seq<SubmitterEvent>>) {
    forall d :: d in log.runners && SomeDeletes(submitters, submit, d.key) && !SomeSubmits(submitters, submit, d.key) ==>
      d in log.deletions
  }

  ghost predicate SomeDeletes(submitters: set<string>, submit: string -> Option<seq<SubmitterEvent>>, key: Key) {
    exists name :: name in submitters && DeleteOf(key) in EventsFrom(submit, name)
  }

  ghost predicate SomeSubmits(submitters: set<string>, submit: string -> Option<seq<SubmitterEvent>>, key: Key) {
    exists name :: name in submitters && Submits(EventsFrom(submit, name), key)
  }

  lemma {:induction false} SentSubmits(order: seq<string>, submitters: set<string>, submit: string -> Option<seq<SubmitterEvent>>, key: Key)
    requires (forall n :: n in order ==> n in submitters) && Submits(Sent(order, submit), key)
    ensures SomeSubmits(submitters, submit, key)
  {
    if order != [] {
      var n := |order| - 1;
      SubmitsOneOf(Sent(order[..n], submit), EventsFrom(submit, order[n]), key);
      if Submits(Sent(order[..n], submit), key) { SentSubmits(order[..n], submitters, submit, key); }
    }
  }

  lemma {:induction false} SentHas(order: seq<string>, submit: string -> Option<seq<SubmitterEvent>>, name: string, e: SubmitterEvent)
    requires name in order && e in EventsFrom(submit, name)
    ensures e in Sent(order, submit)
  {
    var n := |order| - 1;
    if order[n] != name {
      assert name in order[..n];
      SentHas(order[..n], submit, name, e);
    }
  }

  lemma TurnDeletes(
    before: Fate, middle: Fate, log: RoundLog, order: seq<string>, submitters: set<string>, submit: string -> Option<seq<SubmitterEvent>>)
    requires (forall n :: n in order <==> n in submitters) && Reached(before, middle, Sent(order, submit))
    requires (forall d :: d in before.runners ==> d.key !in before.pending) && log.runners == before.runners
    requires GoOn(middle.deletions, log.deletions, Keys(log.binds)) && forall k :: k in Keys(log.binds) ==> k in middle.pending
    ensures DeletesAsAsked(log, before.runners, before.deletions, log.deletions, submitters, submit)
  {
    hide Submits, Sent, SomeSubmits, EventsFrom;
    forall d | d in before.runners && SomeDeletes(submitters, submit, d.key) && !SomeSubmits(submitters, submit, d.key)
      ensures d in log.deletions
    {
      var name :| name in submitters && DeleteOf(d.key) in EventsFrom(submit, name);
      SentHas(order, submit, name, DeleteOf(d.key));
      if Submits(Sent(order, submit), d.key) { SentSubmits(order, submitters, submit, d.key); }
    }
  }

  /** No round from the `t`th on binds a pod under the key. */
  ghost predicate NotBoundFrom(logs: seq<RoundLog>, t: nat, key: Key) {
    forall u :: t <= u < |logs| ==> key !in Keys(logs[u].binds)
  }

  /** The deletions asked for in any turn begin in it; and these, and those that had begun before all turns,
      have begun after them, unless a pod is bound under the key later on. */
  ghost predicate CarriedOn(
    before: set<Deletion>, logs: seq<RoundLog>, after: set<Deletion>, submitters: set<string>, submit: nat -> string -> Option<seq<SubmitterEvent>>)
  {
    && (forall t: nat :: t < |logs| ==> Obeys(logs[t], SubmittersAt(submitters, submit, t), submit(t)))
    && (forall t: nat, d :: t < |logs| && d in logs[t].deletions && NotBoundFrom(logs, t + 1, d.key) ==> d in after)
    && (forall d :: d in before && NotBoundFrom(logs, 0, d.key) ==> d in after)
  }

  lemma CarriedOnStep(
    before: set<Deletion>, logs: seq<RoundLog>, middle: set<Deletion>, log: RoundLog, after: set<Deletion>,
    submitters: set<string>, submit: nat -> string -> Option<seq<SubmitterEvent>>)
    requires CarriedOn(before, logs, middle, submitters, submit) && Obeys(log, SubmittersAt(submitters, submit, |logs|), submit(|logs|))
    requires log.deletions == after && GoOn(middle, after, Keys(log.binds))
    ensures CarriedOn(before, logs + [log], after, submitters, submit)
  {
    hide Obeys, SubmittersAt;
    var all := logs + [log];
    forall t: nat, key | t <= |logs| && NotBoundFrom(all, t, key) ensures NotBoundFrom(logs, t, key) && key !in Keys(log.binds) {
      assert all[|logs|] == log;
      assert forall u :: 0 <= u < |logs| ==> all[u] == logs[u];
    }
  }

  /** Every round but the first keeps within the usage measured before it. */
  ghost predicate EachKeepsMeasured(logs: seq<RoundLog>, nodeNames: seq<string>) {
    forall t :: 0 < t < |logs| ==> AllKeepMeasured(logs[t], nodeNames)
  }

  lemma NothingMeasured(nodeNames: seq<string>)
    ensures EachKeepsMeasured([], nodeNames)
  {
  }

  lemma EachKeepsMeasuredStep(logs: seq<RoundLog>, log: RoundLog, nodeNames: seq<string>)
    requires EachKeepsMeasured(logs, nodeNames) && (logs == [] || AllKeepMeasured(log, nodeNames))
    ensures EachKeepsMeasured(logs + [log], nodeNames)
  {
    hide AllKeepMeasured;
  }

  lemma CarriedOnNone(before: set<Deletion>, submitters: set<string>, submit: nat -> string -> Option<seq<SubmitterEvent>>)
    ensures CarriedOn(before, [], before, submitters, submit)
  {
  }

  lemma CarriedOnFrom(
    before: set<Deletion>, first: set<Deletion>, logs: seq<RoundLog>, after: set<Deletion>,
    submitters: set<string>, submit: nat -> string -> Option<seq<SubmitterEvent>>)
    requires GoOn(before, first, []) && CarriedOn(first, logs, after, submitters, submit)
    ensures CarriedOn(before, logs, after, submitters, submit)
  {
    hide Obeys, SubmittersAt, NotBoundFrom;
  }

  lemma CarriedOnEnd(
    before: set<Deletion>, logs: seq<RoundLog>, middle: set<Deletion>, after: set<Deletion>,
    submitters: set<string>, submit: nat -> string -> Option<seq<SubmitterEvent>>)
    requires CarriedOn(before, logs, middle, submitters, submit) && GoOn(middle, after, [])
    ensures CarriedOn(before, logs, after, submitters, submit)
  {
    hide Obeys, SubmittersAt, NotBoundFrom;
  }

  /** The rounds of all turns, one after another. */
  ghost predicate Chained(before: map<Key, Pod>, logs: seq<RoundLog>, after: map<Key, Pod>) {
    if logs == [] then after == before else
      var n := |logs| - 1;
      var middle := if n == 0 then before else logs[n - 1].bound;
      Chained(before, logs[..n], middle) && Logs(logs[n], middle, after)
  }

  lemma ChainedStep(before: map<Key, Pod>, logs: seq<RoundLog>, middle: map<Key, Pod>, log: RoundLog, after: map<Key, Pod>)
    requires Chained(before, logs, middle) && Logs(log, middle, after)
    ensures Chained(before, logs + [log], after)
  {
    assert (logs + [log])[..|logs|] == logs;
  }

  /** A node at the end of a turn: its pods have been asked, and none is finished if metrics were due. */
  ghost predicate TurnEnds(m: PodMap, clock: int, due: bool) {
    Settled(m, clock) && (due ==> forall k :: k in m ==> !Finished(m[k].state, clock))
  }

  lemma CollectedEnds(m: PodMap, clock: int)
    requires Settled(m, clock)
    ensures TurnEnds(Collect(m, clock), clock, true)
  {
    CollectingKeepsSettled(m, clock, clock);
  }

  // ----- The simulator object -----

  class KubeSim {
    const nodes: map<string, Node>
    const nodeNames: seq<string>
    const pendingPods: FIFOQueue
    const scheduler: GenericScheduler
    const estimator: Estimator
    const tick: int
    const metricsTick: int
    const endClock: int
    const chunk: nat                  // LOAD_PHASE_CACHE
    const timeout: nat                // KeepSchedulingTimeout
    const specOf: PodInfo -> PodSpec  // what the manifests' annotations and files say

    var clock: int
    var boundPods: map<Key, Pod>
    var submitters: set<string>
    var measured: map<string, NodeMetrics>   // scheduler.GlobalMetrics, as far as it is about nodes

    ghost var accepted: set<Pod>      // every pod bound so far
    ghost var reused: bool            // a pod was submitted under the name of one that was on a node

    ghost function View(): Layout
      reads `boundPods, `accepted, `reused, nodes.Values, pendingPods
    {
      Layout(map n | n in nodes :: nodes[n].pods, boundPods, pendingPods.pods.Keys, accepted, reused)
    }

    /** The parts fit together, and the scheduler's fail queue is empty between rounds. */
    ghost predicate Wired()
      reads pendingPods, scheduler.failQueue
    {
      && chunk >= 1 && (forall n :: n in nodeNames ==> n in nodes) && (forall n :: n in nodes ==> nodes[n].name == n)
      && pendingPods.Valid() && pendingPods != scheduler.failQueue && InPlace(scheduler.cfg)
      && scheduler.failQueue.queue == [] && scheduler.failQueue.pods == map[]
    }

    /** Every pod ever bound is sound at the present clock. */
    ghost predicate Alive()
      reads `clock, `accepted, accepted
    {
      forall p :: p in accepted ==> SoundAt(Value(p), clock)
    }

    ghost predicate Valid()
      reads `clock, `boundPods, `accepted, `reused, nodes.Values, pendingPods, scheduler.failQueue, accepted
    {
      Wired() && Alive() && Good(View())
    }

    /** What a measurement at a clock says of a node. */
    ghost function NodeAt(n: string, at: int): NodeMetrics
      requires n in nodes
      reads nodes[n], nodes[n].pods.Values
    {
      NodeMetrics(UsageAt(nodes[n].View(), at), Amounts(nodes[n].cpu, nodes[n].memory))
    }

    /** The node metrics are those of a clock, up to collections since. */
    ghost predicate MeasuredAt(at: int)
      reads `measured, nodes.Values, set n, k | n in nodes && k in nodes[n].pods :: nodes[n].pods[k]
    {
      measured.Keys == nodes.Keys && forall n :: n in nodes ==> measured[n] == NodeAt(n, at)
    }

    /** NodeMetricsCache is the estimate from the node metrics. */
    ghost predicate Estimated()
      reads `measured, scheduler`cache, estimator
    {
      scheduler.cache == map n | n in nodeNames :: EstimateOf(MeasuredOf(measured, n), estimator.penalty)
    }

    /** The penalty is in its range, and an extender admits by estimated usage. */
    ghost predicate Careful()
      reads estimator
    {
      1.0 <= estimator.penalty <= MAX_PENALTY && Guarded(scheduler.cfg.extenders)
    }

    lemma EntryIs(key: Key)
      requires Good(View()) && key in boundPods
      ensures boundPods[key] in accepted && PodKey(boundPods[key].info) == Some(key) && boundPods[key].node in nodes
    {
    }

    /** No pod is on two nodes. */
    lemma NodesApart(m: string, n: string)
      requires Good(View()) && m in nodes && n in nodes && m != n
      ensures nodes[m].pods.Values !! nodes[n].pods.Values
    {
      hide Good;
      HeldIs(m);
      HeldIs(n);
    }

    /** What a node holds is its own. */
    lemma HeldIs(n: string)
      requires Good(View()) && n in nodes
      ensures nodes[n].Keyed() && nodes[n].pods.Values <= accepted
      ensures forall k :: k in nodes[n].pods ==> nodes[n].pods[k].node == n
      ensures !reused ==> forall k :: k in nodes[n].pods ==> k in boundPods && boundPods[k] == nodes[n].pods[k]
    {
      assert View().places[n] == nodes[n].pods;
      forall k | k in nodes[n].pods
        ensures PodKey(nodes[n].pods[k].info) == Some(k) && nodes[n].pods[k] in accepted && nodes[n].pods[k].node == n
        ensures !reused ==> k in boundPods && boundPods[k] == nodes[n].pods[k]
      {
        assert On(View().places, n, k);
      }
    }

    constructor (
      nodes: map<string, Node>, nodeNames: seq<string>, queue: FIFOQueue, scheduler: GenericScheduler, estimator: Estimator, submitters: set<string>,
      clock: int, tick: int, metricsTick: int, endClock: int, chunk: nat, timeout: nat, specOf: PodInfo -> PodSpec)
      requires chunk >= 1 && (forall n :: n in nodeNames ==> n in nodes)
      requires forall n :: n in nodes ==> nodes[n].name == n && nodes[n].pods == map[]
      requires queue.Valid() && queue != scheduler.failQueue && InPlace(scheduler.cfg)
      requires scheduler.failQueue.queue == [] && scheduler.failQueue.pods == map[]
      ensures Valid() && !reused && boundPods == map[] && this.submitters == submitters && this.clock == clock
      ensures this.nodes == nodes && this.nodeNames == nodeNames && pendingPods == queue && this.scheduler == scheduler && this.estimator == estimator
      ensures this.tick == tick && this.metricsTick == metricsTick && this.endClock == endClock
    {
      this.nodes, this.nodeNames, this.pendingPods, this.scheduler, this.estimator := nodes, nodeNames, queue, scheduler, estimator;
      this.clock, this.tick, this.metricsTick, this.endClock := clock, tick, metricsTick, endClock;
      this.chunk, this.timeout, this.specOf, this.submitters, this.boundPods := chunk, timeout, specOf, submitters, map[];
      this.accepted, this.reused, this.measured := {}, false, map[];
    }

    // ----- Submitting -----

    ghost function Values(): map<Pod, Held>
      reads `accepted, accepted
    {
      map p | p in accepted :: Value(p)
    }

    /** The pod that `boundPods` has for the key, on whatever node, starts to be deleted; and no other pod
        does, unless a name was used again. */
    method DeletePodFromNode(podNamespace: string, podName: string)
      requires Valid()
      modifies accepted
      ensures Alive()
      ensures var key := PodKeyFromNames(podNamespace, podName);
        && (key in boundPods ==> boundPods[key] in accepted && Value(boundPods[key]) == Killed(old(Value(boundPods[key])), clock))
        && (forall p :: p in accepted && PodKey(p.info) != Some(key) ==> Value(p) == old(Value(p)))
      ensures Deletes(old(Values()), Values(), DeleteEvent(podNamespace, podName), {}, boundPods, clock, reused)
    {
      hide Good, Deletes, Kill, AllStand, SoundAt, KubeSim.Wired, KubeSim.Alive;
      ghost var key, e, values := PodKeyFromNames(podNamespace, podName), DeleteEvent(podNamespace, podName), Values();
      if PodKeyFromNames(podNamespace, podName) !in boundPods {
        NoEntryDeletes(values, e, boundPods, clock, reused);
        return;
      }
      var entry := boundPods[PodKeyFromNames(podNamespace, podName)];
      EntryIs(key);
      HeldIs(entry.node);
      DeleteEntry(entry, nodes[entry.node], podNamespace, podName);
      EntryDeletes(values, Values(), e, boundPods, clock, reused);
    }

    method DeleteEntry(p: Pod, node: Node, podNamespace: string, podName: string)
      requires p in accepted && Alive() && node.Keyed() && node.pods.Values <= accepted
      requires PodKey(p.info) == Some(PodKeyFromNames(podNamespace, podName))
      modifies accepted
      ensures Alive()
      ensures forall q :: q in accepted && PodKey(q.info) != PodKey(p.info) ==> Value(q) == old(Value(q))
      ensures var key := PodKeyFromNames(podNamespace, podName);
        && Value(p) == Killed(old(Value(p)), clock)
        && forall q :: q in accepted && q != p && !(key in node.pods && q == node.pods[key]) ==> Value(q) == old(Value(q))
      ensures AllStand(old(Values()), Values())
    {
      hide SoundAt, Kill;
      KillEntry(p);
      KillTwice(old(Value(p)), clock);
      DeleteHeld(node, podNamespace, podName);
    }

    method KillEntry(p: Pod)
      requires p in accepted && Alive()
      modifies p
      ensures Alive() && Value(p) == Killed(old(Value(p)), clock) && Stands(old(Value(p)), Value(p))
    {
      KillSound(Value(p), clock);
      p.Delete(clock);
    }

    method DeleteHeld(node: Node, podNamespace: string, podName: string)
      requires Alive() && node.Keyed() && node.pods.Values <= accepted
      modifies if PodKeyFromNames(podNamespace, podName) in node.pods then {node.pods[PodKeyFromNames(podNamespace, podName)]} else {}
      ensures Alive()
      ensures var key := PodKeyFromNames(podNamespace, podName);
        key in node.pods ==> Value(node.pods[key]) == Killed(old(Value(node.pods[key])), clock) && Stands(old(Value(node.pods[key])), Value(node.pods[key]))
    {
      var key := PodKeyFromNames(podNamespace, podName);
      if key in node.pods { KillSound(Value(node.pods[key]), clock); }
      var _ := node.DeletePod(clock, podNamespace, podName);
    }

    method SubmitPod(pod: V1Pod) returns (ok: bool)
      requires Wired()
      modifies this`reused, pendingPods
      ensures Wired() && ok == PodKey(pod.info).Some?
      ensures View() == Handled(old(View()), SubmitEvent(pod))
      ensures pendingPods.pods == Queued(old(pendingPods.pods), SubmitEvent(pod))
    {
      hide KubeSim.Wired, Somewhere;
      ok := Enqueue(pod);
      if ok { reused := reused || Somewhere(View().places, PodKey(pod.info).value); }
    }

    method Enqueue(pod: V1Pod) returns (ok: bool)
      requires Wired()
      modifies pendingPods
      ensures Wired() && ok == PodKey(pod.info).Some?
      ensures View() == old(View()).(pending := pendingPods.pods.Keys)
      ensures pendingPods.pods == if ok then old(pendingPods.pods)[PodKey(pod.info).value := pod] else old(pendingPods.pods)
    {
      var err := pendingPods.Push(pod);
      ok := err == NoError;
    }

    method DropOrDelete(podNamespace: string, podName: string) returns (ok: bool)
      requires Valid()
      modifies pendingPods, accepted
      ensures ok && Wired() && Alive() && View() == Handled(old(View()), DeleteEvent(podNamespace, podName))
      ensures pendingPods.pods == Queued(old(pendingPods.pods), DeleteEvent(podNamespace, podName))
      ensures Deletes(old(Values()), Values(), DeleteEvent(podNamespace, podName), old(View()).pending, boundPods, clock, reused)
    {
      hide Good, Deletes, Kill, Nodes.Value, KubeSim.Wired;
      ghost var e, values, l := DeleteEvent(podNamespace, podName), Values(), View();
      if PodKeyFromNames(podNamespace, podName) in l.pending { NothingDeleted(values, e, l.pending, boundPods, clock); }
      var delFromQ := DropFromQueue(podNamespace, podName);
      if !delFromQ {
        assert View() == l && Values() == values;
        DeletePodFromNode(podNamespace, podName);
        DeletesWhatever(values, Values(), e, l.pending, boundPods, clock, reused);
      }
      ok := true;
    }

    method DropFromQueue(podNamespace: string, podName: string) returns (found: bool)
      requires Wired()
      modifies pendingPods
      ensures Wired() && found == (PodKeyFromNames(podNamespace, podName) in old(View()).pending)
      ensures View() == Handled(old(View()), DeleteEvent(podNamespace, podName))
      ensures pendingPods.pods == Queued(old(pendingPods.pods), DeleteEvent(podNamespace, podName))
    {
      found := pendingPods.Delete(podNamespace, podName);
    }

    method UpdatePod(podNamespace: string, podName: string, newPod: V1Pod) returns (ok: bool)
      requires Wired()
      modifies pendingPods
      ensures Wired() && View() == old(View()) && ok == Accepted(UpdateEvent(podNamespace, podName, newPod))
      ensures pendingPods.pods == Queued(old(pendingPods.pods), UpdateEvent(podNamespace, podName, newPod))
    {
      var err := pendingPods.Update(podNamespace, podName, newPod);
      ok := err == NoError || err == ErrNoMatchingPod;
    }

    method Process(name: string, e: SubmitterEvent) returns (ok: bool)
      requires Valid()
      modifies this`submitters, this`reused, pendingPods, accepted
      ensures Wired() && Alive() && submitters == LeftBy(old(submitters), name, [e])
      ensures View() == Handled(old(View()), e) && pendingPods.pods == Queued(old(pendingPods.pods), e) && ok == Accepted(e)
      ensures Deletes(old(Values()), Values(), e, old(View()).pending, boundPods, clock, reused)
    {
      hide Good, Deletes, DeletedKey, KubeSim.Wired, KubeSim.Alive;
      if !e.DeleteEvent? { NothingDeleted(Values(), e, View().pending, boundPods, clock); }
      match e
      case SubmitEvent(pod) => ok := SubmitPod(pod);
      case DeleteEvent(ns, n) => ok := DropOrDelete(ns, n);
      case UpdateEvent(ns, n, newPod) => ok := UpdatePod(ns, n, newPod);
      case TerminateSubmitterEvent =>
        submitters := submitters - {name};
        ok := true;
    }

    /** Of the running pods, an event makes only that deletion begin for which it asks. */
    twostate lemma EventReaches(e: SubmitterEvent)
      requires old(clock) == clock && View() == Handled(old(View()), e)
      requires Deletes(old(Values()), Values(), e, old(View()).pending, boundPods, clock, reused)
      ensures Reached(old(Fates()), Fates(), [e])
    {
      hide Submits, Handled, OnlyDeleted, DeletesOnly;
      EventKeepsPlaces(old(View()), e);
      StandStill(View().places, []);
      StandingGoesOn();
      RunnersReached(e);
    }

    twostate lemma RunnersReached(e: SubmitterEvent)
      requires old(clock) == clock && View() == Handled(old(View()), e)
      requires DeletesOnly(old(Values()), Values(), e, old(View()).pending, boundPods, clock)
      ensures forall d :: d in old(Runners()) && !Submits([e], d.key) ==> if DeleteOf(d.key) in [e] then d in Deletions() else d in Runners()
    {
      hide Submits, Handled;
      EventKeepsPlaces(old(View()), e);
      forall d | d in old(Runners()) && !Submits([e], d.key)
        ensures if DeleteOf(d.key) in [e] then d in Deletions() else d in Runners()
      {
        assert View().places[d.node] == nodes[d.node].pods && old(View()).places[d.node] == old(nodes[d.node].pods);
        assert old(Values())[d.pod].state == old(d.pod.View());
        assert Values()[d.pod].state == d.pod.View();
        if DeleteOf(d.key) in [e] {
          assert Sentenced(d.node, d.key, d.pod);
        } else {
          assert RunsOn(d.node, d.key, d.pod);
        }
      }
    }

    /** One event of the submitter `name`; false stands for an error. */
    method HandleEvent(name: string, e: SubmitterEvent) returns (ok: bool)
      requires Valid()
      modifies this`submitters, this`reused, pendingPods, accepted
      ensures Valid() && submitters == LeftBy(old(submitters), name, [e])
      ensures View() == Handled(old(View()), e) && pendingPods.pods == Queued(old(pendingPods.pods), e) && ok == Accepted(e)
      ensures Deletes(old(Values()), Values(), e, old(View()).pending, boundPods, clock, reused)
      ensures Reached(old(Fates()), Fates(), [e])
    {
      hide Good, Deletes, Reached;
      HandledGood(View(), e);
      ok := Process(name, e);
      EventReaches(e);
    }

    /** All events of all submitters, in whatever `order` the map yields them; it stops at the first error. */
    method Submit(submit: string -> Option<seq<SubmitterEvent>>) returns (ok: bool, ghost order: seq<string>)
      requires Valid()
      modifies this`submitters, this`reused, pendingPods, accepted
      ensures Valid() && submitters <= old(submitters)
      ensures ok <==> !Refused(old(submitters), submit)
      ensures ok ==> (forall n :: n in order <==> n in old(submitters)) && |order| == |old(submitters)|
      ensures ok ==> View() == HandledBy(old(View()), order, submit)
      ensures ok ==> submitters == Left(old(submitters), submit)
      ensures GoOn(old(Fates()).deletions, Fates().deletions, []) && (ok ==> Reached(old(Fates()), Fates(), Sent(order, submit)))
    {
      hide Good, Handled, GoOn, Reached, KubeSim.Fates, KubeSim.Deletions;
      ghost var before := Fates();
      ReachedNone(before);
      var todo := submitters;
      order := [];
      while todo != {}
        invariant Valid() && todo <= old(submitters) && Reached(before, Fates(), Sent(order, submit))
        invariant forall name :: name in old(submitters) && name !in todo ==> AllAccepted(submit(name))
        invariant (forall n :: n in order <==> n in old(submitters) && n !in todo) && |order| + |todo| == |old(submitters)|
        invariant View() == HandledBy(old(View()), order, submit)
        invariant submitters == set n | n in old(submitters) && (n in todo || TerminateSubmitterEvent !in submit(n).value)
      {
        var name :| name in todo;
        ghost var middle := Fates();
        var ok := SubmitAll(name, submit(name));
        if !ok {
          GoesOnFrom(before, middle, Fates(), Sent(order, submit));
          return false, order;
        }
        ReachedBoth(before, middle, Fates(), Sent(order, submit), submit(name).value);
        todo, order := todo - {name}, order + [name];
        assert order[..|order| - 1] + [name] == order;
      }
      ReachedGoesOn(before, Fates(), Sent(order, submit));
      ok := true;
    }

    method SubmitAll(name: string, events: Option<seq<SubmitterEvent>>) returns (ok: bool)
      requires Valid()
      modifies this`submitters, this`reused, pendingPods, accepted
      ensures Valid() && submitters <= old(submitters) && ok == AllAccepted(events)
      ensures ok ==> View() == HandledAll(old(View()), events.value) && submitters == LeftBy(old(submitters), name, events.value)
      ensures GoOn(old(Fates()).deletions, Fates().deletions, []) && (ok ==> Reached(old(Fates()), Fates(), events.value))
    {
      hide Handled, Reached, GoOn, KubeSim.Valid, KubeSim.Fates;
      ghost var before := Fates();
      ReachedNone(before);
      if events.None? {
        return false;
      }
      for i := 0 to |events.value|
        invariant Valid() && Reached(before, Fates(), events.value[..i]) && submitters == LeftBy(old(submitters), name, events.value[..i])
        invariant forall j :: 0 <= j < i ==> Accepted(events.value[j])
        invariant View() == HandledAll(old(View()), events.value[..i])
      {
        assert events.value[..i + 1][..i] == events.value[..i];
        assert events.value[..i + 1] == events.value[..i] + [events.value[i]];
        ghost var middle := Fates();
        var ok := HandleEvent(name, events.value[i]);
        ReachedBoth(before, middle, Fates(), events.value[..i], [events.value[i]]);
        if !ok {
          ReachedGoesOn(before, Fates(), events.value[..i] + [events.value[i]]);
          return false;
        }
      }
      ReachedGoesOn(before, Fates(), events.value[..|events.value|]);
      assert events.value[..|events.value|] == events.value;
      ok := true;
    }

    // ----- Scheduling -----

    /** The pod `p` has been deleted while it ran on the node `n`, under the key `k`: it is still there, or
        its grace period is over. */
    ghost predicate Sentenced(n: string, k: Key, p: Pod)
      reads `clock, `accepted, nodes.Values, p
    {
      && n in nodes && p in accepted && PodKey(p.info) == Some(k) && p.status == Deleted && p.deletedAt <= clock
      && if k in nodes[n].pods then nodes[n].pods[k] == p else p.deletedAt + p.grace * SECOND <= clock
    }

    ghost function Deletions(): set<Deletion>
      reads `clock, `accepted, nodes.Values, accepted
    {
      set n, p | n in nodes && p in accepted && PodKey(p.info).Some? && Sentenced(n, PodKey(p.info).value, p) ::
        Deletion(n, PodKey(p.info).value, p, p.deletedAt)
    }

    /** The pod `p` runs on the node `n`, under the key `k`, and no other pod is queued under that key. */
    ghost predicate RunsOn(n: string, k: Key, p: Pod)
      reads `clock, `accepted, `boundPods, nodes.Values, pendingPods, p
    {
      && n in nodes && p in accepted && PodKey(p.info) == Some(k) && k in nodes[n].pods && nodes[n].pods[k] == p
      && k in boundPods && boundPods[k] == p && k !in pendingPods.pods && p.View().IsRunning(clock)
    }

    /** The running pods, each as the deletion that a delete event would make of it now. */
    ghost function Runners(): set<Deletion>
      reads `clock, `accepted, `boundPods, nodes.Values, pendingPods, accepted
    {
      set n, p | n in nodes && p in accepted && PodKey(p.info).Some? && RunsOn(n, PodKey(p.info).value, p) ::
        Deletion(n, PodKey(p.info).value, p, clock)
    }

    ghost function Fates(): Fate
      reads `clock, `accepted, `boundPods, nodes.Values, pendingPods, accepted
    {
      Fate(Runners(), Deletions(), pendingPods.pods.Keys)
    }

    /** What the scheduler is shown of a node: the pods that run or terminate there. */
    ghost function Shown(n: string): Victims.NodeInfo
      requires n in nodes
      reads this, nodes.Values, nodes[n].pods.Values
    {
      Victims.NodeInfo(n, set k | k in Active(nodes[n].View(), clock) :: nodes[n].View()[k].info, nodes[n].cpu, nodes[n].memory)
    }

    ghost function ShownAll(): Infos
      reads this, nodes.Values, set n, k | n in nodes && k in nodes[n].pods :: nodes[n].pods[k]
    {
      map n | n in nodes :: Shown(n)
    }

    /** What the scheduler's round binds, in the present state. */
    ghost function Planned(): seq<Bound>
      requires Wired()
      reads this, pendingPods, scheduler, scheduler.failQueue
      reads nodes.Values, set n, k | n in nodes && k in nodes[n].pods :: nodes[n].pods[k]
    {
      LiveMembers(pendingPods.queue, pendingPods.pods.Keys);
      Round(scheduler.cfg, nodeNames, Manifests(pendingPods.pods), pendingPods.Order(), RoundState(ShownAll(), scheduler.cache), 0, timeout).binds
    }

    method BuildInfos() returns (infos: Infos)
      ensures infos == ShownAll()
    {
      infos := map[];
      var todo := nodes.Keys;
      while todo != {}
        invariant todo <= nodes.Keys && infos.Keys == nodes.Keys - todo
        invariant forall n :: n in infos ==> infos[n] == Shown(n)
      {
        var n :| n in todo;
        var manifests := nodes[n].RunningAndTerminatingPods(clock);
        infos := infos[n := Victims.NodeInfo(n, manifests, nodes[n].cpu, nodes[n].memory)];
        todo := todo - {n};
      }
    }

    /** The scheduler's round: the pods it binds have left the queue. */
    method RunScheduler(infos: Infos, ws: nat -> Interleaving, ghost plan: seq<Bound>) returns (events: seq<BindEvent>)
      requires Wired() && infos == ShownAll() && plan == Planned() && forall i :: Complete(ws(i), scheduler.cfg, nodeNames)
      modifies scheduler, scheduler.failQueue, pendingPods
      ensures Wired() && pendingPods.pods == old(pendingPods.pods) - (set k | k in Keys(plan))
      ensures (forall k :: k in Keys(plan) ==> k in old(pendingPods.pods))
      ensures AreBindings(events, Keys(plan), nodes.Keys) && EventsOf(events, plan, old(pendingPods.pods))
    {
      ghost var order, pods := pendingPods.Order(), pendingPods.pods;
      ghost var st := RoundState(infos, scheduler.cache);
      LiveMembers(pendingPods.queue, pods.Keys);
      var shown;
      events, shown := scheduler.Schedule(pendingPods, order, pods, nodeNames, infos, timeout, ws);
      RoundBinds(scheduler.cfg, nodeNames, pods, order, st, timeout, events);
    }

    /** Bind one pod that has left the queue. */
    method BindOne(e: BindEvent, ghost keys: seq<Key>)
      requires Valid() && keys != [] && Awaiting(View(), keys) && PodKey(e.pod.info) == Some(keys[0]) && e.host in nodes
      modifies this`boundPods, this`accepted, nodes[e.host]
      ensures Valid() && Awaiting(View(), keys[1..])
      ensures keys[0] in boundPods && fresh(boundPods[keys[0]]) && boundPods[keys[0]].node == e.host
      ensures View() == BoundTo(old(View()), keys[0], e.host, boundPods[keys[0]])
      ensures Value(boundPods[keys[0]]) == Placed(e.pod.info) && boundPods[keys[0]].info == e.pod.info
      ensures var p, s := boundPods[keys[0]], specOf(e.pod.info);
        p.file == s.file && p.chunk == chunk && p.boundAt == clock && p.grace == s.grace && p.status == Ok
      ensures StandBut(old(View()).places, View().places, [keys[0]])
    {
      hide Good, StandBut;
      var p := Place(e);
      BoundGood(old(View()), keys, e.host, p);
      BoundStand(old(View()), keys[0], e.host, p);
    }

    ghost function Placed(info: PodInfo): Held
      reads this
    {
      var s := specOf(info);
      Held(info, New(s.file, s.fromFile, chunk, clock, Ok, s.grace), s.file, chunk)
    }

    lemma PlacedSound(info: PodInfo)
      requires chunk >= 1
      ensures SoundAt(Placed(info), clock)
    {
      var s := specOf(info);
      NewIsSound(s.file, s.fromFile, chunk, clock, s.grace);
    }

    method Place(e: BindEvent) returns (p: Pod)
      requires Wired() && chunk >= 1 && Alive() && PodKey(e.pod.info).Some? && e.host in nodes
      modifies this`boundPods, this`accepted, nodes[e.host]
      ensures Wired() && Alive() && fresh(p) && p.node == e.host && Value(p) == Placed(e.pod.info)
      ensures View() == BoundTo(old(View()), PodKey(e.pod.info).value, e.host, p)
    {
      PlacedSound(e.pod.info);
      hide SoundAt, New, PodKey, FIFOQueue.Valid, InPlace, Nodes.Value, KubeSim.Placed, KubeSim.Alive;
      p := StartPod(e);
      Enter(PodKey(e.pod.info).value, p);
    }

    method Enter(key: Key, p: Pod)
      requires Alive() && SoundAt(Value(p), clock)
      modifies this`boundPods, this`accepted
      ensures Alive() && View() == old(View()).(bound := old(boundPods)[key := p], accepted := old(accepted) + {p})
    {
      hide SoundAt, Nodes.Value;
      boundPods := boundPods[key := p];
      accepted := accepted + {p};
    }

    method StartPod(e: BindEvent) returns (p: Pod)
      requires chunk >= 1 && (forall n :: n in nodes ==> nodes[n].name == n) && PodKey(e.pod.info).Some? && e.host in nodes
      modifies nodes[e.host]
      ensures fresh(p) && p.node == nodes[e.host].name && Value(p) == Placed(e.pod.info)
      ensures View().places == old(View()).places[e.host := old(View()).places[e.host][PodKey(e.pod.info).value := p]]
    {
      hide New, PodKey;
      var node, s := nodes[e.host], specOf(e.pod.info);
      var _, pod := node.BindPod(clock, e.pod.info, s.file, s.fromFile, chunk, s.grace);
      p := pod.value;
    }

    /** Ask the scheduler. */
    method Decide(ws: nat -> Interleaving, ghost plan: seq<Bound>) returns (events: seq<BindEvent>)
      requires Wired() && plan == Planned() && forall i :: Complete(ws(i), scheduler.cfg, nodeNames)
      modifies scheduler, scheduler.failQueue, pendingPods
      ensures Wired() && AreBindings(events, Keys(plan), nodes.Keys) && EventsOf(events, plan, old(pendingPods.pods))
      ensures (forall k :: k in Keys(plan) ==> k in old(View()).pending)
      ensures View() == Unqueued(old(View()), set k | k in Keys(plan))
    {
      hide Round, Live, EventsOf, AreBindings, KubeSim.Wired, KubeSim.Planned;
      ghost var l := View();
      var infos := BuildInfos();
      assert View() == l;
      events := RunScheduler(infos, ws, plan);
      assert View().places == l.places && View().pending == l.pending - set k | k in Keys(plan);
    }

    /** Bind all the pods that left the queue; each is then on the node decided for it. */
    method BindAll(events: seq<BindEvent>, ghost keys: seq<Key>)
      requires Valid() && Awaiting(View(), keys) && AreBindings(events, keys, nodes.Keys)
      modifies this`boundPods, this`accepted, nodes.Values
      ensures Valid() && fresh(accepted - old(accepted)) && old(accepted) <= accepted
      ensures OnHosts(old(boundPods), boundPods, events, keys, |keys|)
      ensures StandBut(old(View()).places, View().places, keys)
    {
      hide Good, StandBut, Awaiting, KubeSim.Wired, KubeSim.Alive;
      StandStill(View().places, keys);
      assert keys[0..] == keys;
      for i := 0 to |events|
        invariant Valid() && Awaiting(View(), keys[i..])
        invariant fresh(accepted - old(accepted)) && old(accepted) <= accepted
        invariant OnHosts(old(boundPods), boundPods, events, keys, i)
        invariant StandBut(old(View()).places, View().places, keys)
      {
        ghost var before := View().places;
        BindNext(events, keys, i, old(boundPods));
        StandBoth(old(View()).places, before, View().places, keys, i);
      }
    }

    method BindNext(events: seq<BindEvent>, ghost keys: seq<Key>, i: nat, ghost before: map<Key, Pod>)
      requires i < |events| && AreBindings(events, keys, nodes.Keys) && OnHosts(before, boundPods, events, keys, i)
      requires Valid() && Awaiting(View(), keys[i..])
      modifies this`boundPods, this`accepted, nodes.Values
      ensures Valid() && Awaiting(View(), keys[i + 1..]) && OnHosts(before, boundPods, events, keys, i + 1)
      ensures StandBut(old(View()).places, View().places, [keys[i]])
      ensures fresh(accepted - old(accepted)) && old(accepted) <= accepted
    {
      hide Good, OnHosts, StandBut;
      assert keys[i..][0] == keys[i] && keys[i..][1..] == keys[i + 1..];
      BindOne(events[i], keys[i..]);
      OnHostsStep(before, old(boundPods), events, keys, i, boundPods[keys[i]]);
    }

    /** THEOREM.  A round of the simulator binds exactly what the scheduler's round decides for the pods
        that run or terminate now: these pods leave the queue, each is then the `boundPods` entry of its
        key on the node decided for it, and no other entry changes. */
    method Schedule(ws: nat -> Interleaving)
      requires Valid() && forall i :: Complete(ws(i), scheduler.cfg, nodeNames)
      modifies this`boundPods, this`accepted, scheduler, scheduler.failQueue, pendingPods, nodes.Values
      ensures Valid() && fresh(accepted - old(accepted)) && old(accepted) <= accepted
      ensures View().pending == old(View()).pending - set k | k in Keys(old(Planned()))
      ensures CarriedOut(old(boundPods), boundPods, old(Planned()), old(pendingPods.pods))
      ensures forall k :: k in Keys(old(Planned())) ==> k in old(View()).pending
      ensures GoOn(old(Deletions()), Deletions(), Keys(old(Planned())))
    {
      hide Good, OnHosts, CarriedOut, GoOn, EventsOf, Awaiting, Round, Live, KubeSim.Wired, KubeSim.Alive, KubeSim.Planned, KubeSim.Deletions;
      ghost var plan := Planned();
      var events := Decide(ws, plan);
      assert Deletions() == old(Deletions());
      LeavesQueue(old(View()), Keys(plan));
      BindPlanned(events, Keys(plan));
      OnHostsMeans(old(boundPods), boundPods, events, plan, old(pendingPods.pods));
    }

    method BindPlanned(events: seq<BindEvent>, ghost keys: seq<Key>)
      requires Valid() && Awaiting(View(), keys) && AreBindings(events, keys, nodes.Keys)
      modifies this`boundPods, this`accepted, nodes.Values
      ensures Valid() && fresh(accepted - old(accepted)) && old(accepted) <= accepted
      ensures OnHosts(old(boundPods), boundPods, events, keys, |keys|)
      ensures GoOn(old(Deletions()), Deletions(), keys)
    {
      hide Good, OnHosts, StandBut, Awaiting, AreBindings, GoOn, KubeSim.Valid, KubeSim.Deletions;
      BindAll(events, keys);
      StandingGoesOn();
    }

    // ----- Metrics and garbage collection -----

    /** The nodes' part of BuildMetrics: the metrics of every node at this clock, each pod asked once for its
        usage, and none panicking. */
    method MeasureNodes() returns (metrics: map<string, NodeReport>)
      requires Valid()
      modifies accepted
      ensures Valid() && metrics.Keys == nodes.Keys
      ensures forall n :: n in nodes ==> MetricsTaken(old(nodes[n].View()), nodes[n].View(), metrics[n], clock)
      ensures AllStand(old(Values()), Values())
    {
      hide Good, MetricsTaken, KubeSim.Wired, KubeSim.Alive;
      metrics := map[];
      var todo := nodes.Keys;
      while todo != {}
        invariant todo <= nodes.Keys && metrics.Keys == nodes.Keys - todo && Valid() && AllStand(old(Values()), Values())
        invariant forall n :: n in todo ==> nodes[n].View() == old(nodes[n].View())
        invariant forall n :: n in metrics ==> MetricsTaken(old(nodes[n].View()), nodes[n].View(), metrics[n], clock)
      {
        var n :| n in todo;
        var m := MeasureOne(n);
        metrics := metrics[n := m];
        todo := todo - {n};
      }
    }

    method MeasureOne(n: string) returns (m: NodeReport)
      requires Valid() && n in nodes
      modifies accepted
      ensures Valid() && MetricsTaken(old(nodes[n].View()), nodes[n].View(), m, clock)
      ensures forall j :: j in nodes && j != n ==> nodes[j].View() == old(nodes[j].View())
      ensures AllStand(old(Values()), Values())
    {
      hide Good, MetricsTaken, KubeSim.Wired, KubeSim.Alive, Node.View, Node.Keyed;
      HeldIs(n);
      forall j | j in nodes && j != n ensures nodes[j].pods.Values !! nodes[n].pods.Values {
        NodesApart(j, n);
      }
      m := MeasureNode(nodes[n]);
      assert View() == old(View());
    }

    method MeasureNode(node: Node) returns (m: NodeReport)
      requires Alive() && node.Keyed() && node.pods.Values <= accepted
      modifies node.pods.Values
      ensures Alive() && MetricsTaken(old(node.View()), node.View(), m, clock)
      ensures AllStand(old(Values()), Values())
    {
      assert AllSound(node.View(), clock);
      QueriesSettle(node.View(), clock, clock);
      hide IsMetrics, UsageAt, QueryOne, SoundAt, Kill, Nodes.Value, Node.View;
      m := node.Metrics(clock, clock);
      ReportIsUsage(old(node.View()), m, clock);
      AskedStand(node);
    }

    /** What asking the pods of a node leaves. */
    twostate lemma AskedStand(node: Node)
      requires old(Alive()) && old(accepted) == accepted && old(clock) == clock && old(node.pods) == node.pods
      requires Windows(old(node.View())) && node.View() == QueryAll(old(node.View()), clock) && AllSound(node.View(), clock)
      requires forall p :: p in accepted && p !in node.pods.Values ==> Value(p) == old(Value(p))
      ensures Alive() && AllStand(old(Values()), Values())
    {
      hide SoundAt, QueryOne;
      ghost var v := node.View();
      forall p | p in accepted ensures SoundAt(Value(p), clock) && Stands(old(Value(p)), Value(p)) {
        if p in node.pods.Values {
          var k :| k in node.pods && node.pods[k] == p;
          assert v[k] == Value(p) && v[k] == QueryOne(old(node.View())[k], clock);
          QueryKeepsSentence(old(node.View())[k], clock);
        }
      }
    }

    /** Exactly the finished pods leave every node. */
    method GCTerminatedPodsInNodes()
      requires Valid()
      modifies nodes.Values
      ensures Valid()
      ensures forall n :: n in nodes ==> nodes[n].View() == Collect(old(nodes[n].View()), clock)
      ensures Shrunk(old(View()), View())
    {
      hide Good, Collect, Shrunk;
      ShrunkNot(View());
      var todo := nodes.Keys;
      while todo != {}
        invariant todo <= nodes.Keys && Valid() && Shrunk(old(View()), View())
        invariant forall n :: n in todo ==> nodes[n].View() == old(nodes[n].View())
        invariant forall n :: n in nodes && n !in todo ==> nodes[n].View() == Collect(old(nodes[n].View()), clock)
      {
        var n :| n in todo;
        ghost var before := View();
        CollectOne(n);
        ShrunkBoth(old(View()), before, View());
        todo := todo - {n};
      }
    }

    method CollectOne(n: string)
      requires Valid() && n in nodes
      modifies nodes[n]
      ensures Valid() && nodes[n].View() == Collect(old(nodes[n].View()), clock) && Shrunk(old(View()), View())
      ensures forall j :: j in nodes && j != n ==> nodes[j].View() == old(nodes[j].View())
    {
      hide Good, Collect;
      assert forall j :: j in nodes && j != n ==> nodes[j] != nodes[n];
      nodes[n].GCTerminatedPods(clock);
      assert Shrunk(old(View()), View()) by {
        forall m, k | On(View().places, m, k) ensures On(old(View()).places, m, k) && View().places[m][k] == old(View()).places[m][k] {
          assert m != n ==> nodes[m] != nodes[n];
        }
      }
      ShrunkGood(old(View()), View());
    }

    // ----- How deletions go on -----

    lemma DeletionCondemns(d: Deletion)
      requires Alive() && d in Deletions()
      ensures d.node in nodes && d.pod in accepted && d.at <= clock && PodKey(d.pod.info) == Some(d.key)
      ensures Condemned(d.pod.View(), d.pod.file, d.at) && d.pod.View().grace == d.pod.grace && d.pod.View().boundAt == d.pod.boundAt
      ensures if d.key in nodes[d.node].pods then nodes[d.node].pods[d.key] == d.pod else d.at + d.pod.grace * SECOND <= clock
    {
      assert SoundAt(Value(d.pod), clock);
    }

    /** A pod deleted at `d.at` is on its node exactly until its grace period is over, counted with the usage
        of that moment; from then on it is finished, whether or not it has been collected. */
    lemma DeletionMeans(d: Deletion, at: int)
      requires Alive() && d in Deletions() && clock <= at
      ensures d.node in nodes && (d.key in Active(nodes[d.node].View(), at) <==> at < d.at + d.pod.grace * SECOND)
      ensures at < d.at + d.pod.grace * SECOND ==>
        && nodes[d.node].pods[d.key] == d.pod
        && Read(d.pod.View(), at) == Usage(FullUsage(d.pod.file, d.at - d.pod.boundAt))
      ensures !d.pod.View().IsRunning(at) && !d.pod.View().IsTerminated(at)
    {
      hide Condemned, State.IsRunning, State.IsTerminated, Read, KubeSim.Alive, KubeSim.Deletions;
      DeletionCondemns(d);
      CondemnedMeans(d.pod.View(), d.pod.file, d.at, at);
    }

    /** The scheduler is shown it for that time exactly. */
    lemma DeletionShown(d: Deletion)
      requires Valid() && d in Deletions()
      ensures d.node in nodes && (d.pod.info in Shown(d.node).pods <==> clock < d.at + d.pod.grace * SECOND)
    {
      hide Good, State.UsesResources, KubeSim.Alive, KubeSim.Deletions;
      DeletionCondemns(d);
      DeletionMeans(d, clock);
      HeldIs(d.node);
      assert d.pod.info in Shown(d.node).pods <==> d.key in Active(nodes[d.node].View(), clock);
    }

    /** The first turn that ends with a collection, with the grace period over, leaves it on no node. */
    lemma DeletionCollected(d: Deletion, at: int)
      requires Alive() && d in Deletions() && TurnEnded(at, true) && d.at + d.pod.grace * SECOND <= at
      ensures d.node in nodes && d.key !in nodes[d.node].pods
    {
      DeletionCondemns(d);
    }

    /** Submitting, scheduling and asking for usage end no deletion. */
    twostate lemma StandingGoesOn()
      requires old(clock) == clock && old(accepted) <= accepted && AllStand(old(Values()), Values())
      ensures forall keys :: StandBut(old(View()).places, View().places, keys) ==> GoOn(old(Deletions()), Deletions(), keys)
    {
      forall keys, d | StandBut(old(View()).places, View().places, keys) && d in old(Deletions()) && d.key !in keys ensures d in Deletions() {
        assert Stands(old(Values())[d.pod], Values()[d.pod]);
        assert On(View().places, d.node, d.key) <==> On(old(View()).places, d.node, d.key);
        assert Sentenced(d.node, d.key, d.pod);
      }
    }

    /** Collecting does not, before the grace period is over. */
    twostate lemma CollectingGoesOn()
      requires old(clock) == clock && old(accepted) == accepted && AllStand(old(Values()), Values()) && Shrunk(old(View()), View())
      requires forall n :: n in nodes ==> nodes[n].View() == Collect(old(nodes[n].View()), clock)
      ensures GoOn(old(Deletions()), Deletions(), [])
    {
      forall d | d in old(Deletions()) ensures d in Deletions() {
        var n, k, p := d.node, d.key, d.pod;
        assert Stands(old(Values())[p], Values()[p]);
        if k in nodes[n].pods {
          assert On(View().places, n, k);
        } else if k in old(nodes[n].pods) {
          assert old(nodes[n].View())[k] == old(Value(p));
          assert Finished(old(Value(p)).state, clock);
        }
        assert Sentenced(n, k, p);
      }
    }

    // ----- The main loop -----

    /** Every node at the end of a turn. */
    ghost predicate TurnEnded(at: int, due: bool)
      reads nodes.Values, set n, k | n in nodes && k in nodes[n].pods :: nodes[n].pods[k]
    {
      forall n :: n in nodes ==> TurnEnds(nodes[n].View(), at, due)
    }

    /** Nothing is queued and nothing runs or terminates. */
    ghost predicate Idle()
      reads this, pendingPods, nodes.Values, set n, k | n in nodes && k in nodes[n].pods :: nodes[n].pods[k]
    {
      pendingPods.Order() == [] && NodesQuiet()
    }

    ghost predicate NodesQuiet()
      reads this, nodes.Values, set n, k | n in nodes && k in nodes[n].pods :: nodes[n].pods[k]
    {
      forall n :: n in nodes ==> Quiet(nodes[n].View(), clock)
    }

    method AllQuiet() returns (quiet: bool)
      ensures quiet <==> NodesQuiet()
    {
      var todo := nodes.Keys;
      while todo != {}
        invariant todo <= nodes.Keys && forall n :: n in nodes && n !in todo ==> Quiet(nodes[n].View(), clock)
      {
        var n :| n in todo;
        var num := nodes[n].PodsNum(clock);
        PodsNumPositive(nodes[n].View(), clock);
        if num > 0 {
          return false;
        }
        todo := todo - {n};
      }
      quiet := true;
    }

    method ToTerminate(submitterAddedEver: bool) returns (stop: bool)
      requires Valid()
      modifies pendingPods
      ensures Valid() && Idle() == old(Idle()) && Runners() == old(Runners())
      ensures stop <==> Idle() && submitterAddedEver && submitters == {}
    {
      hide Good, Live, KubeSim.NodesQuiet;
      var empty := QueueEmpty();
      assert NodesQuiet() == old(NodesQuiet());
      var quiet := AllQuiet();
      assert View() == old(View()) && NodesQuiet() == old(NodesQuiet());
      QueuedAlike();
      stop := empty && quiet && submitterAddedEver && submitters == {};
    }

    twostate lemma QueuedAlike()
      requires old(clock) == clock && View() == old(View()) && Values() == old(Values())
      ensures Runners() == old(Runners())
    {
      forall n, p | n in nodes && p in accepted && PodKey(p.info).Some?
        ensures RunsOn(n, PodKey(p.info).value, p) == old(RunsOn(n, PodKey(p.info).value, p))
      {
        assert View().places[n] == nodes[n].pods && old(View()).places[n] == old(nodes[n].pods);
        assert Values()[p].state == p.View() && old(Values())[p].state == old(p.View());
      }
    }

    method QueueEmpty() returns (empty: bool)
      requires Wired()
      modifies pendingPods
      ensures Wired() && View() == old(View()) && pendingPods.Order() == old(pendingPods.Order())
      ensures empty <==> pendingPods.Order() == []
    {
      var _, err := pendingPods.Front();
      empty := err == ErrEmptyQueue;
    }

    /** One turn of the loop; false when a submitter failed. */
    method Tick(submit: string -> Option<seq<SubmitterEvent>>, qos: real, ws: nat -> Interleaving, preMetricsClock: int)
      returns (ok: bool, metricsClock: int, ghost log: RoundLog)
      requires Valid() && tick > 0 && forall i :: Complete(ws(i), scheduler.cfg, nodeNames)
      modifies this`clock, this`boundPods, this`accepted, this`submitters, this`reused, this`measured
      modifies scheduler, scheduler.failQueue, estimator, pendingPods, nodes.Values, accepted
      ensures Valid() && fresh(accepted - old(accepted)) && old(accepted) <= accepted && submitters <= old(submitters)
      ensures ok <==> !Refused(old(submitters), submit)
      ensures ok ==> submitters == Left(old(submitters), submit)
      ensures clock == if ok then old(clock) + tick else old(clock)
      ensures if ok then Logs(log, old(boundPods), boundPods) && log.measured == old(measured) else boundPods == old(boundPods)
      ensures ok && old(Careful() && Estimated()) ==> AllKeepMeasured(log, nodeNames)
      ensures ok ==> Estimated() && MeasuredAt(old(clock))
      ensures old(Careful()) ==> Careful()
      ensures ok ==> DeletesAsAsked(log, old(Runners()), old(Deletions()), Deletions(), old(submitters), submit)
      ensures !ok ==> GoOn(old(Deletions()), Deletions(), [])
      ensures ok ==> TurnEnded(old(clock), metricsTick <= old(clock) - preMetricsClock)
      ensures ok ==> metricsClock == if metricsTick <= old(clock) - preMetricsClock then old(clock) else preMetricsClock
    {
      hide Good, Logs, AllKeepMeasured, KubeSim.Estimated, KubeSim.Careful, KubeSim.MeasuredAt, KubeSim.TurnEnded;
      hide KubeSim.Runners, KubeSim.Deletions, Reached, GoOn, DeletesAsAsked;
      metricsClock, log := preMetricsClock, RoundLog([], map[], measured, boundPods, {}, {});
      ghost var order;
      ghost var before, submitters0, bound := Fates(), submitters, boundPods;
      RunnersNotQueued();
      ok, order := Submit(submit);
      if ok {
        ghost var middle := Fates();
        metricsClock, log := AfterSubmit(qos, ws, preMetricsClock);
        ghost var written := log;
        log := log.(runners := before.runners);
        LogsWhatever(written, log, bound, boundPods);
        KeepsMeasuredWhatever(written, log, nodeNames);
        TurnDeletes(before, middle, log, order, submitters0, submit);
      }
    }

    lemma RunnersNotQueued()
      ensures forall d :: d in Runners() ==> d.key !in Fates().pending
    {
    }

    /** What the round about to start will bind, with what is known of it beforehand. */
    ghost function Prospect(bound: map<Key, Pod>): RoundLog
      requires Wired()
      reads this, pendingPods, scheduler, scheduler.failQueue
      reads nodes.Values, set n, k | n in nodes && k in nodes[n].pods :: nodes[n].pods[k]
    {
      RoundLog(Planned(), pendingPods.pods, measured, bound, {}, {})
    }

    /** With a cache estimated from the last measurement, the planned bindings keep within it. */
    lemma ProspectKeepsMeasured(bound: map<Key, Pod>)
      requires Wired() && Careful() && Estimated()
      ensures AllKeepMeasured(Prospect(bound), nodeNames)
    {
      hide Round, Guarded, InPlace, FIFOQueue.Valid;
      LiveMembers(pendingPods.queue, pendingPods.pods.Keys);
      var pods, st := Manifests(pendingPods.pods), RoundState(ShownAll(), scheduler.cache);
      forall n | n in nodeNames ensures KeepsMeasured(Prospect(bound), n) {
        BindKeysKnown(scheduler.cfg, nodeNames, pods, pendingPods.Order(), st, 0, timeout);
        var m := MeasuredOf(measured, n);
        if m.usage.cpu >= 0 && m.usage.mem >= 0 {
          RoundStaysWithinMeasured(scheduler.cfg, nodeNames, pods, pendingPods.Order(), st, timeout, n, m, estimator.penalty);
        }
      }
    }

    /** What follows the submitters in a turn: a scheduling round as planned, then every pod is asked for
        its usage, the next round's cache is estimated from that, finished pods are collected when metrics
        are due, and the clock moves on. */
    method AfterSubmit(qos: real, ws: nat -> Interleaving, preMetricsClock: int) returns (metricsClock: int, ghost log: RoundLog)
      requires Valid() && tick > 0 && forall i :: Complete(ws(i), scheduler.cfg, nodeNames)
      modifies this`clock, this`boundPods, this`accepted, this`measured
      modifies scheduler, scheduler.failQueue, estimator, pendingPods, nodes.Values, accepted
      ensures Valid() && fresh(accepted - old(accepted)) && old(accepted) <= accepted && clock == old(clock) + tick
      ensures log == old(Prospect(boundPods)).(bound := boundPods, deletions := Deletions()) && Logs(log, old(boundPods), boundPods)
      ensures forall k :: k in Keys(log.binds) ==> k in old(View()).pending
      ensures View().pending == old(View()).pending - set k | k in Keys(log.binds)
      ensures old(Careful() && Estimated()) ==> AllKeepMeasured(log, nodeNames)
      ensures Estimated() && MeasuredAt(old(clock)) && (old(Careful()) ==> Careful())
      ensures TurnEnded(old(clock), metricsTick <= old(clock) - preMetricsClock)
      ensures metricsClock == if metricsTick <= old(clock) - preMetricsClock then old(clock) else preMetricsClock
      ensures GoOn(old(Deletions()), Deletions(), Keys(log.binds))
    {
      hide KubeSim.Deletions, Good, CarriedOut, Round, Live, KubeSim.TurnEnded, KubeSim.Careful, KubeSim.Estimated, KubeSim.MeasuredAt, AllKeepMeasured;
      log := Prospect(boundPods);
      if Careful() && Estimated() { ProspectKeepsMeasured(boundPods); }
      ghost var before := log;
      Schedule(ws);
      ghost var pending := View().pending;
      metricsClock := Finish(qos, preMetricsClock);
      log := log.(bound := boundPods, deletions := Deletions());
      KeepsMeasuredWhatever(before, log, nodeNames);
      assert View().pending == pending;
    }

    /** What follows the round in a turn. */
    method Finish(qos: real, preMetricsClock: int) returns (metricsClock: int)
      requires Valid() && tick > 0
      modifies this`clock, this`measured, scheduler`cache, estimator, nodes.Values, accepted
      ensures Valid() && clock == old(clock) + tick
      ensures Estimated() && MeasuredAt(old(clock)) && (old(Careful()) ==> Careful())
      ensures TurnEnded(old(clock), metricsTick <= old(clock) - preMetricsClock)
      ensures metricsClock == if metricsTick <= old(clock) - preMetricsClock then old(clock) else preMetricsClock
      ensures GoOn(old(Deletions()), Deletions(), [])
    {
      hide KubeSim.Deletions, Good, KubeSim.TurnEnded, KubeSim.Wired, KubeSim.Alive, KubeSim.Careful, KubeSim.Estimated, KubeSim.MeasuredAt;
      metricsClock := AfterSchedule(qos, preMetricsClock);
      Advance();
    }

    /** BuildMetrics, for its effect on the pods and what it reports of the nodes. */
    method BuildMetrics()
      requires Valid()
      modifies this`measured, accepted
      ensures Valid() && MeasuredAt(clock) && forall n :: n in nodes ==> Settled(nodes[n].View(), clock)
      ensures GoOn(old(Deletions()), Deletions(), [])
    {
      hide Good, Settled, MetricsTaken, UsageAt, GoOn, AllStand, StandBut, KubeSim.Wired, KubeSim.Alive, KubeSim.MeasuredAt, KubeSim.Deletions;
      StandStill(View().places, []);
      var reports := MeasureNodes();
      assert View().places == old(View()).places;
      StandingGoesOn();
      forall n | n in nodes ensures Settled(nodes[n].View(), clock) && ReportedUsage(reports[n]) == UsageAt(nodes[n].View(), clock) {
        TakenMeans(old(nodes[n].View()), nodes[n].View(), reports[n], clock);
      }
      Publish(map n | n in nodes :: NodeMetrics(ReportedUsage(reports[n]), Amounts(nodes[n].cpu, nodes[n].memory)));
    }

    method Publish(metrics: map<string, NodeMetrics>)
      requires Valid() && metrics.Keys == nodes.Keys && forall n :: n in nodes ==> metrics[n] == NodeAt(n, clock)
      modifies this`measured
      ensures Valid() && MeasuredAt(clock) && forall n :: n in nodes ==> nodes[n].View() == old(nodes[n].View())
    {
      hide KubeSim.Valid, KubeSim.NodeAt, Node.View;
      measured := metrics;
    }

    /** `scheduler.Estimate`. */
    method Predict(qos: real)
      requires Valid()
      modifies scheduler`cache, estimator
      ensures Valid() && Estimated() && (old(Careful()) ==> Careful())
      ensures forall n :: n in nodes ==> nodes[n].View() == old(nodes[n].View())
    {
      hide KubeSim.Valid, Guarded, EstimateOf, Node.View;
      if 1.0 <= estimator.penalty <= MAX_PENALTY { PenaltyStaysInRangeOnce(qos); }
      var cache := estimator.Estimate(nodeNames, measured, qos);
      scheduler.cache := cache;
    }

    lemma PenaltyStaysInRangeOnce(qos: real)
      requires 1.0 <= estimator.penalty <= MAX_PENALTY
      ensures 1.0 <= UpdatePenalty(estimator.penalty, estimator.updated, estimator.prevQoS, qos, estimator.target).0 <= MAX_PENALTY
    {
      PenaltyStaysInRange(estimator.penalty, estimator.updated, estimator.prevQoS, estimator.target, [qos]);
    }

    method MeasureAndPredict(qos: real)
      requires Valid()
      modifies this`measured, scheduler`cache, estimator, accepted
      ensures Valid() && Estimated() && MeasuredAt(clock) && (old(Careful()) ==> Careful())
      ensures forall n :: n in nodes ==> Settled(nodes[n].View(), clock)
      ensures GoOn(old(Deletions()), Deletions(), [])
    {
      hide GoOn, KubeSim.Deletions, Good, Settled, UsageAt, KubeSim.Wired, KubeSim.Alive, KubeSim.Careful, KubeSim.Estimated;
      BuildMetrics();
      Predict(qos);
    }

    method AfterSchedule(qos: real, preMetricsClock: int) returns (metricsClock: int)
      requires Valid()
      modifies this`measured, scheduler`cache, estimator, nodes.Values, accepted
      ensures Valid() && Estimated() && MeasuredAt(clock) && (old(Careful()) ==> Careful())
      ensures TurnEnded(clock, metricsTick <= clock - preMetricsClock)
      ensures metricsClock == if metricsTick <= clock - preMetricsClock then clock else preMetricsClock
      ensures GoOn(old(Deletions()), Deletions(), [])
    {
      hide KubeSim.Deletions, Good, Settled, KubeSim.TurnEnded, KubeSim.Wired, KubeSim.Alive, KubeSim.Careful, KubeSim.Estimated, KubeSim.MeasuredAt;
      MeasureAndPredict(qos);
      metricsClock := CollectWhenDue(preMetricsClock);
    }

    method CollectWhenDue(preMetricsClock: int) returns (metricsClock: int)
      requires Valid() && MeasuredAt(clock) && forall n :: n in nodes ==> Settled(nodes[n].View(), clock)
      modifies nodes.Values
      ensures Valid() && MeasuredAt(clock)
      ensures TurnEnded(clock, metricsTick <= clock - preMetricsClock)
      ensures metricsClock == if metricsTick <= clock - preMetricsClock then clock else preMetricsClock
      ensures GoOn(old(Deletions()), Deletions(), [])
    {
      hide Good, Settled, Collect, Active, Sum, Shrunk, AllStand, KubeSim.Deletions;
      metricsClock := preMetricsClock;
      if clock - preMetricsClock >= metricsTick {
        metricsClock := clock;
        forall n | n in nodes ensures TurnEnds(Collect(nodes[n].View(), clock), clock, true) {
          CollectedEnds(nodes[n].View(), clock);
        }
        forall n | n in nodes ensures UsageAt(Collect(nodes[n].View(), clock), clock) == UsageAt(nodes[n].View(), clock) {
          ActiveCollected(nodes[n].View(), clock);
        }
        ghost var values := Values();
        GCTerminatedPodsInNodes();
        ValuesStand(values);
        CollectingGoesOn();
      }
    }

    method Advance()
      requires Valid() && tick > 0
      modifies this`clock
      ensures Valid() && clock == old(clock) + tick && GoOn(old(Deletions()), Deletions(), [])
    {
      hide Good;
      forall p | p in accepted ensures SoundAt(Value(p), clock + tick) {
        SoundLater(Value(p), clock, clock + tick);
      }
      clock := clock + tick;
      assert View() == old(View());
      forall d | d in old(Deletions()) ensures d in Deletions() {
        assert Sentenced(d.node, d.key, d.pod);
      }
    }

    /** The loop's way out at the head of a turn. */
    ghost predicate Terminates(submitterAddedEver: bool)
      reads this, pendingPods, nodes.Values, set n, k | n in nodes && k in nodes[n].pods :: nodes[n].pods[k]
    {
      (Idle() && submitterAddedEver && submitters == {}) || endClock < clock
    }

    /** The loop's body: it ends the run if the loop terminates or is cancelled, and otherwise exactly when
        a submitter's events are refused.  In that case it returns the error of time.Parse, not of submit. */
    method Turn(
      submit: string -> Option<seq<SubmitterEvent>>, qos: real, ws: nat -> Interleaving, cancelled: bool,
      submitterAddedEver: bool, preMetricsClock: int) returns (end: Option<End>, err: Option<RunError>, metricsClock: int, ghost log: RoundLog)
      requires Valid() && tick > 0 && forall i :: Complete(ws(i), scheduler.cfg, nodeNames)
      modifies this`clock, this`boundPods, this`accepted, this`submitters, this`reused, this`measured
      modifies scheduler, scheduler.failQueue, estimator, pendingPods, nodes.Values, accepted
      ensures Valid() && fresh(accepted - old(accepted)) && old(accepted) <= accepted
      ensures end == if old(Terminates(submitterAddedEver)) then Some(Completed) else if cancelled then Some(Cancelled)
                     else if Refused(old(submitters), submit) then Some(SubmitterFailed) else None
      ensures err == if end == Some(Cancelled) then Some(ContextDone) else None
      ensures end.None? ==> old(clock) <= endClock && clock == old(clock) + tick && submitters == Left(old(submitters), submit)
      ensures end.Some? ==> clock == old(clock)
      ensures end == Some(Completed) || end == Some(Cancelled) ==> Terminates(submitterAddedEver) == old(Terminates(submitterAddedEver))
      ensures if end.None? then Logs(log, old(boundPods), boundPods) && log.measured == old(measured) else boundPods == old(boundPods)
      ensures end.None? && old(Careful() && Estimated()) ==> AllKeepMeasured(log, nodeNames)
      ensures end.None? ==> Estimated() && MeasuredAt(old(clock))
      ensures old(Careful()) ==> Careful()
      ensures if end.None? then DeletesAsAsked(log, old(Runners()), old(Deletions()), Deletions(), old(submitters), submit)
              else GoOn(old(Deletions()), Deletions(), [])
      ensures end.None? ==> TurnEnded(old(clock), metricsTick <= old(clock) - preMetricsClock)
      ensures end.None? ==> metricsClock == if metricsTick <= old(clock) - preMetricsClock then old(clock) else preMetricsClock
    {
      hide KubeSim.Runners, KubeSim.Deletions, DeletesAsAsked, KubeSim.TurnEnded, Good, KubeSim.NodesQuiet, Refused, Left, Logs, AllKeepMeasured, KubeSim.Careful, KubeSim.Estimated, KubeSim.MeasuredAt;
      metricsClock, log := preMetricsClock, RoundLog([], map[], measured, boundPods, {}, {});
      var stop := ToTerminate(submitterAddedEver);
      if stop || endClock < clock {
        return Some(Completed), None, metricsClock, log;
      }
      if cancelled {
        return Some(Cancelled), Some(ContextDone), metricsClock, log;
      }
      err := None;   // of time.Parse, whose argument is a constant
      var ok;
      ok, metricsClock, log := Tick(submit, qos, ws, preMetricsClock);
      if !ok {
        return Some(SubmitterFailed), err, metricsClock, log;
      }
      end, err := None, None;   // BuildMetrics returns no error
    }

    /** How the run ends after `turns` turns. */
    ghost predicate EndsRightly(end: End, submitted: bool, submitters0: set<string>, submit: nat -> string -> Option<seq<SubmitterEvent>>,
                                cancelled: nat -> bool, turns: nat)
      reads this, pendingPods, nodes.Values, set n, k | n in nodes && k in nodes[n].pods :: nodes[n].pods[k]
    {
      match end
      case Completed => Terminates(submitted)
      case Cancelled => cancelled(turns) && !Terminates(submitted)
      case SubmitterFailed => !cancelled(turns) && clock <= endClock && Refused(SubmittersAt(submitters0, submit, turns), submit(turns))
    }

    /** Turn number `n`. */
    method NextTurn(
      submit: nat -> string -> Option<seq<SubmitterEvent>>, qos: real, ws: nat -> Interleaving, cancelled: nat -> bool,
      submitterAddedEver: bool, preMetricsClock: int, n: nat, ghost submitters0: set<string>)
      returns (end: Option<End>, err: Option<RunError>, metricsClock: int, ghost log: RoundLog)
      requires Valid() && tick > 0 && forall i :: Complete(ws(i), scheduler.cfg, nodeNames)
      requires submitters == SubmittersAt(submitters0, submit, n)
      modifies this`clock, this`boundPods, this`accepted, this`submitters, this`reused, this`measured
      modifies scheduler, scheduler.failQueue, estimator, pendingPods, nodes.Values, accepted
      ensures Valid() && fresh(accepted - old(accepted)) && old(accepted) <= accepted
      ensures end.None? ==> old(clock) <= endClock && clock == old(clock) + tick && submitters == SubmittersAt(submitters0, submit, n + 1)
      ensures end.None? ==> !cancelled(n) && !Refused(SubmittersAt(submitters0, submit, n), submit(n))
      ensures end.Some? ==> clock == old(clock) && EndsRightly(end.value, submitterAddedEver, submitters0, submit, cancelled, n)
      ensures err == if end == Some(Cancelled) then Some(ContextDone) else None
      ensures if end.None? then Logs(log, old(boundPods), boundPods) else boundPods == old(boundPods)
      ensures end.None? && old(Careful() && Estimated()) ==> AllKeepMeasured(log, nodeNames)
      ensures (end.None? ==> Estimated()) && (old(Careful()) ==> Careful())
      ensures if end.None? then log.deletions == Deletions() && GoOn(old(Deletions()), Deletions(), Keys(log.binds))
                && log.runners == old(Runners()) && Obeys(log, SubmittersAt(submitters0, submit, n), submit(n))
              else GoOn(old(Deletions()), Deletions(), [])
    {
      hide KubeSim.Runners, KubeSim.Deletions, GoOn, Obeys, KubeSim.TurnEnded, KubeSim.Wired, KubeSim.Alive, Good, KubeSim.NodesQuiet, Refused, Left, Logs, AllKeepMeasured, KubeSim.Careful, KubeSim.Estimated, KubeSim.MeasuredAt;
      end, err, metricsClock, log := Turn(submit(n), qos, ws, cancelled(n), submitterAddedEver, preMetricsClock);
    }

    /** The loop. */
    method Loop(
      submit: nat -> string -> Option<seq<SubmitterEvent>>, qoses: nat -> real, ws: nat -> nat -> Interleaving, cancelled: nat -> bool,
      start: int) returns (err: Option<RunError>, ghost end: End, ghost logs: seq<RoundLog>)
      requires Valid() && tick > 0 && clock == start && forall t, i :: Complete(ws(t)(i), scheduler.cfg, nodeNames)
      modifies this`clock, this`boundPods, this`accepted, this`submitters, this`reused, this`measured
      modifies scheduler, scheduler.failQueue, estimator, pendingPods, nodes.Values, accepted
      ensures Valid() && Ticked(start, clock, |logs|, tick, endClock) && GoesOn(old(submitters), submit, cancelled, |logs|)
      ensures EndsRightly(end, old(submitters) != {}, old(submitters), submit, cancelled, |logs|)
      ensures err == if end.Cancelled? then Some(ContextDone) else None
      ensures Chained(old(boundPods), logs, boundPods)
      ensures old(Careful()) ==> EachKeepsMeasured(logs, nodeNames)
      ensures CarriedOn(old(Deletions()), logs, Deletions(), old(submitters), submit)
    {
      hide KubeSim.Deletions, CarriedOn, Obeys, GoOn, Good, GoesOn, Ticked, Refused, Left, SubmittersAt, KubeSim.EndsRightly, KubeSim.Valid, KubeSim.Runners, NotBoundFrom, FIFOQueue.Valid, InPlace, Complete;
      hide Chained, Logs, AllKeepMeasured, EachKeepsMeasured, History, KubeSim.Careful, KubeSim.Estimated;
      ghost var submitters0 := submitters;
      HistoryStarts(start, tick, endClock, boundPods, Deletions(), submitters0, submit, cancelled);
      NothingMeasured(nodeNames);
      var n, submitterAddedEver, preMetricsClock, out := 0, submitters != {}, clock, None;
      err, logs := None, [];
      while out.None?
        invariant Valid() && fresh(accepted - old(accepted)) && old(accepted) <= accepted && |logs| == n
        invariant submitterAddedEver == (submitters0 != {})
        invariant out.None? ==> submitters == SubmittersAt(submitters0, submit, n)
        invariant out.Some? ==> EndsRightly(out.value, submitters0 != {}, submitters0, submit, cancelled, n)
        invariant err == if out == Some(Cancelled) then Some(ContextDone) else None
        invariant old(Careful()) ==> Careful() && EachKeepsMeasured(logs, nodeNames)
        invariant out.None? && n > 0 ==> Estimated()
        invariant History(start, clock, tick, endClock, old(boundPods), logs, boundPods, old(Deletions()), Deletions(), submitters0, submit, cancelled)
        decreases out.None?, endClock - clock
      {
        SubmittersShrink(submitters0, submit, n);
        var added := submitterAddedEver || submitters != {};
        ghost var before, middle, deletions := clock, boundPods, Deletions();
        ghost var log;
        out, err, preMetricsClock, log := NextTurn(submit, qoses(n), ws(n), cancelled, submitterAddedEver, preMetricsClock, n, submitters0);
        if out.None? {
          HistoryStep(start, before, tick, endClock, old(boundPods), logs, middle, old(Deletions()), deletions, submitters0, submit, cancelled,
                      log, boundPods, Deletions());
          if old(Careful()) { EachKeepsMeasuredStep(logs, log, nodeNames); }
          logs := logs + [log];
          submitterAddedEver, n := added, n + 1;
        } else {
          HistoryEnd(start, clock, tick, endClock, old(boundPods), logs, boundPods, old(Deletions()), deletions, submitters0, submit, cancelled, Deletions());
        }
      }
      HistoryMeans(start, clock, tick, endClock, old(boundPods), logs, boundPods, old(Deletions()), Deletions(), submitters0, submit, cancelled);
      end := out.value;
    }

    /** THEOREM.  For every submitter, every schedule of the parallel workers and every moment of
        cancellation, the loop ends, at most one tick after the end clock; every turn before the last was
        neither cancelled nor refused, and the last one says why the run ended.  Only cancellation returns an
        error.  Every pod is sound; `boundPods` is what the rounds of the turns made of it, one after another;
        with an admitting extender and a penalty that starts in its range, every round but the first keeps
        within the usage measured before it (`AllKeepMeasured`); and each key in one place unless the name of a pod on a node was used again. */
    method Run(
      submit: nat -> string -> Option<seq<SubmitterEvent>>, qoses: nat -> real, ws: nat -> nat -> Interleaving, cancelled: nat -> bool)
      returns (err: Option<RunError>, ghost end: End, ghost logs: seq<RoundLog>)
      requires Valid() && tick > 0 && forall t, i :: Complete(ws(t)(i), scheduler.cfg, nodeNames)
      modifies this`clock, this`boundPods, this`accepted, this`submitters, this`reused, this`measured
      modifies scheduler, scheduler.failQueue, estimator, pendingPods, nodes.Values, accepted
      ensures Valid() && (!reused ==> EachInOnePlace(View()))
      ensures Ticked(old(clock), clock, |logs|, tick, endClock) && GoesOn(old(submitters), submit, cancelled, |logs|)
      ensures EndsRightly(end, old(submitters) != {}, old(submitters), submit, cancelled, |logs|)
      ensures err == if end.Cancelled? then Some(ContextDone) else None
      ensures Chained(old(boundPods), logs, boundPods)
      ensures old(Careful()) ==> EachKeepsMeasured(logs, nodeNames)
      ensures CarriedOn(old(Deletions()), logs, Deletions(), old(submitters), submit)
    {
      hide KubeSim.Deletions, CarriedOn, GoOn, Good, EachInOnePlace, GoesOn, Ticked, Refused, Left, KubeSim.EndsRightly, KubeSim.Wired, KubeSim.Alive;
      hide Chained, EachKeepsMeasured, KubeSim.MeasuredAt;
      BuildMetrics();
      ghost var deletions := Deletions();
      err, end, logs := Loop(submit, qoses, ws, cancelled, clock);
      CarriedOnFrom(old(Deletions()), deletions, logs, Deletions(), old(submitters), submit);
      InOnePlaceUnlessReused();
    }

    lemma InOnePlaceUnlessReused()
      requires Valid()
      ensures !reused ==> EachInOnePlace(View())
    {
      if !reused { GoodIsInOnePlace(View()); }
    }
  }

  /** Some submitter fails or sends something that cannot be carried out. */
  ghost predicate Refused(submitters: set<string>, submit: string -> Option<seq<SubmitterEvent>>) {
    exists name :: name in submitters && !AllAccepted(submit(name))
  }

  /** The submitters that have not terminated after one turn, and after `t` turns. */
  function Left(submitters: set<string>, submit: string -> Option<seq<SubmitterEvent>>): set<string> {
    set n | n in submitters && (submit(n).None? || TerminateSubmitterEvent !in submit(n).value)
  }

  function SubmittersAt(submitters: set<string>, submit: nat -> string -> Option<seq<SubmitterEvent>>, t: nat): set<string> {
    if t == 0 then submitters else Left(SubmittersAt(submitters, submit, t - 1), submit(t - 1))
  }

  /** None of the first `n` turns is cancelled or refused. */
  ghost predicate GoesOn(submitters: set<string>, submit: nat -> string -> Option<seq<SubmitterEvent>>, cancelled: nat -> bool, n: nat) {
    forall t :: 0 <= t < n ==> !cancelled(t) && !Refused(SubmittersAt(submitters, submit, t), submit(t))
  }

  lemma GoesOnStep(submitters: set<string>, submit: nat -> string -> Option<seq<SubmitterEvent>>, cancelled: nat -> bool, n: nat)
    ensures GoesOn(submitters, submit, cancelled, n) && !cancelled(n) && !Refused(SubmittersAt(submitters, submit, n), submit(n))
      ==> GoesOn(submitters, submit, cancelled, n + 1)
  {
  }

  /** The clock after `n` turns; no turn starts after the end clock. */
  ghost predicate Ticked(start: int, clock: int, n: nat, tick: int, endClock: int) {
    clock == start + n * tick && (n > 0 ==> clock - tick <= endClock)
  }

  lemma TickedStep(start: int, clock: int, n: nat, tick: int, endClock: int)
    requires Ticked(start, clock, n, tick, endClock) && clock <= endClock
    ensures Ticked(start, clock + tick, n + 1, tick, endClock)
  {
    assert (n + 1) * tick == n * tick + tick;
  }

  /** What the turns so far have made of the clock, `boundPods` and the deletions. */
  ghost predicate History(
    start: int, clock: int, tick: int, endClock: int, bound0: map<Key, Pod>, logs: seq<RoundLog>, bound: map<Key, Pod>,
    deletions0: set<Deletion>, deletions: set<Deletion>,
    submitters: set<string>, submit: nat -> string -> Option<seq<SubmitterEvent>>, cancelled: nat -> bool)
  {
    && Ticked(start, clock, |logs|, tick, endClock) && GoesOn(submitters, submit, cancelled, |logs|)
    && Chained(bound0, logs, bound) && CarriedOn(deletions0, logs, deletions, submitters, submit)
  }

  lemma HistoryStarts(
    start: int, tick: int, endClock: int, bound0: map<Key, Pod>, deletions0: set<Deletion>,
    submitters: set<string>, submit: nat -> string -> Option<seq<SubmitterEvent>>, cancelled: nat -> bool)
    ensures History(start, start, tick, endClock, bound0, [], bound0, deletions0, deletions0, submitters, submit, cancelled)
    ensures SubmittersAt(submitters, submit, 0) == submitters
  {
    CarriedOnNone(deletions0, submitters, submit);
  }

  lemma HistoryStep(
    start: int, clock: int, tick: int, endClock: int, bound0: map<Key, Pod>, logs: seq<RoundLog>, bound: map<Key, Pod>,
    deletions0: set<Deletion>, deletions: set<Deletion>,
    submitters: set<string>, submit: nat -> string -> Option<seq<SubmitterEvent>>, cancelled: nat -> bool,
    log: RoundLog, bound': map<Key, Pod>, deletions': set<Deletion>)
    requires History(start, clock, tick, endClock, bound0, logs, bound, deletions0, deletions, submitters, submit, cancelled)
    requires !cancelled(|logs|) && !Refused(SubmittersAt(submitters, submit, |logs|), submit(|logs|)) && clock <= endClock
    requires Logs(log, bound, bound') && Obeys(log, SubmittersAt(submitters, submit, |logs|), submit(|logs|))
    requires log.deletions == deletions' && GoOn(deletions, deletions', Keys(log.binds))
    ensures History(start, clock + tick, tick, endClock, bound0, logs + [log], bound', deletions0, deletions', submitters, submit, cancelled)
  {
    hide Chained, CarriedOn, Logs, Obeys, GoOn, Ticked, GoesOn, Refused, SubmittersAt;
    GoesOnStep(submitters, submit, cancelled, |logs|);
    TickedStep(start, clock, |logs|, tick, endClock);
    ChainedStep(bound0, logs, bound, log, bound');
    CarriedOnStep(deletions0, logs, deletions, log, deletions', submitters, submit);
  }

  lemma HistoryEnd(
    start: int, clock: int, tick: int, endClock: int, bound0: map<Key, Pod>, logs: seq<RoundLog>, bound: map<Key, Pod>,
    deletions0: set<Deletion>, deletions: set<Deletion>,
    submitters: set<string>, submit: nat -> string -> Option<seq<SubmitterEvent>>, cancelled: nat -> bool, deletions': set<Deletion>)
    requires History(start, clock, tick, endClock, bound0, logs, bound, deletions0, deletions, submitters, submit, cancelled)
    requires GoOn(deletions, deletions', [])
    ensures History(start, clock, tick, endClock, bound0, logs, bound, deletions0, deletions', submitters, submit, cancelled)
  {
    CarriedOnEnd(deletions0, logs, deletions, deletions', submitters, submit);
  }

  lemma HistoryMeans(
    start: int, clock: int, tick: int, endClock: int, bound0: map<Key, Pod>, logs: seq<RoundLog>, bound: map<Key, Pod>,
    deletions0: set<Deletion>, deletions: set<Deletion>,
    submitters: set<string>, submit: nat -> string -> Option<seq<SubmitterEvent>>, cancelled: nat -> bool)
    requires History(start, clock, tick, endClock, bound0, logs, bound, deletions0, deletions, submitters, submit, cancelled)
    ensures Ticked(start, clock, |logs|, tick, endClock) && GoesOn(submitters, submit, cancelled, |logs|)
    ensures Chained(bound0, logs, bound) && CarriedOn(deletions0, logs, deletions, submitters, submit)
  {
  }

  /** The submitters left are those that have sent no TerminateSubmitterEvent. */
  lemma {:induction false} StillSubmitting(submitters: set<string>, submit: nat -> string -> Option<seq<SubmitterEvent>>, t: nat, n: string)
    ensures n in SubmittersAt(submitters, submit, t) <==>
      n in submitters && forall u: nat :: u < t && submit(u)(n).Some? ==> TerminateSubmitterEvent !in submit(u)(n).value
  {
    if t > 0 { StillSubmitting(submitters, submit, t - 1, n); }
  }

  lemma {:induction false} SubmittersShrink(submitters: set<string>, submit: nat -> string -> Option<seq<SubmitterEvent>>, t: nat)
    ensures SubmittersAt(submitters, submit, t) <= submitters
  {
    if t > 0 { SubmittersShrink(submitters, submit, t - 1); }
  }
}
