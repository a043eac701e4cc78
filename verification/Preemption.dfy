// Preemption (pkg/scheduler/generic_scheduler_k8s.go): the greedy choice of victims on one node.

module Victims {
  import opened Prelude
  import opened Pods

  type Pod = PodInfo

  /** A scheduler's view of one node. */
  datatype NodeInfo = NodeInfo(name: string, pods: set<Pod>, cpu: int, memory: int)

  datatype PredResult = PredResult(fit: bool, reasons: seq<string>, err: bool)

  type FitPredicate = (Pod, NodeInfo) -> PredResult

  datatype Fit = Fits | Fails(reasons: seq<string>) | Error

  // ----- podFitsOnNode -----

  function WithNominated(pod: Pod, info: NodeInfo, nominated: seq<Pod>): NodeInfo {
    info.(pods := info.pods + set p | p in nominated && p.priority >= pod.priority && p.name != pod.name)
  }

  predicate Passes(pod: Pod, preds: seq<FitPredicate>, info: NodeInfo) {
    forall i :: 0 <= i < |preds| ==> preds[i](pod, info).fit && !preds[i](pod, info).err
  }

  /** Every predicate passes, both with the nominated pods added and without them. */
  predicate FitsOn(pod: Pod, preds: seq<FitPredicate>, info: NodeInfo, nominated: seq<Pod>) {
    Passes(pod, preds, WithNominated(pod, info, nominated)) && Passes(pod, preds, info)
  }

  /** A predicate that fails without an error gives a reason. */
  ghost predicate GivesReasons(preds: seq<FitPredicate>) {
    forall i, pod, info :: 0 <= i < |preds| && !preds[i](pod, info).fit && !preds[i](pod, info).err ==>
      preds[i](pod, info).reasons != []
  }

  /** One pass over the predicates from the `j`th on; the first that errs or fails decides. */
  function Run(pod: Pod, preds: seq<FitPredicate>, info: NodeInfo, j: nat): Fit
    requires j <= |preds|
    decreases |preds| - j
  {
    if j == |preds| then Fits else
      var result := preds[j](pod, info);
      if result.err then Error else if !result.fit then Fails(result.reasons) else Run(pod, preds, info, j + 1)
  }

  /** `podFitsOnNode`, whose two passes go through the predicates in the orders `preds` and `again`.  A
      failure without reasons does not count. */
  function PodFitsIn(pod: Pod, preds: seq<FitPredicate>, again: seq<FitPredicate>, info: NodeInfo, nominated: seq<Pod>): Fit {
    var first := Run(pod, preds, if nominated == [] then info else WithNominated(pod, info, nominated), 0);
    if first.Fits? || (first.Fails? && first.reasons == []) then
      if nominated == [] then Fits else
        var second := Run(pod, again, info, 0);
        if second.Fails? && second.reasons == [] then Fits else second
    else first
  }

  /** The same order in both passes. */
  function PodFits(pod: Pod, preds: seq<FitPredicate>, info: NodeInfo, nominated: seq<Pod>): Fit {
    PodFitsIn(pod, preds, preds, info, nominated)
  }

  /** The first predicate that errs or fails, if any, fails without an error and without a reason. */
  ghost predicate NoObjection(pod: Pod, preds: seq<FitPredicate>, info: NodeInfo, j: nat) {
    forall i :: j <= i < |preds| && Objects(preds[i](pod, info)) && (forall h :: j <= h < i ==> !Objects(preds[h](pod, info))) ==>
      !preds[i](pod, info).err && preds[i](pod, info).reasons == []
  }

  predicate Objects(r: PredResult) {
    r.err || !r.fit
  }

  lemma {:induction false} RunObjects(pod: Pod, preds: seq<FitPredicate>, info: NodeInfo, j: nat)
    requires j <= |preds|
    ensures var r := Run(pod, preds, info, j);
      r.Fits? || (r.Fails? && r.reasons == []) <==> NoObjection(pod, preds, info, j)
    decreases |preds| - j
  {
    if j < |preds| {
      RunObjects(pod, preds, info, j + 1);
      if !Objects(preds[j](pod, info)) {
        forall i | j <= i < |preds| && Objects(preds[i](pod, info))
          ensures (forall h :: j <= h < i ==> !Objects(preds[h](pod, info))) <==> (forall h :: j + 1 <= h < i ==> !Objects(preds[h](pod, info)))
        {
        }
      }
    }
  }

  /** For the predicates in a given order, the pod fits if and only if nothing objects to it, with the
      nominated pods added and without them. */
  lemma PodFitsExactly(pod: Pod, preds: seq<FitPredicate>, info: NodeInfo, nominated: seq<Pod>)
    ensures PodFits(pod, preds, info, nominated).Fits? <==>
      NoObjection(pod, preds, WithNominated(pod, info, nominated), 0) && NoObjection(pod, preds, info, 0)
  {
    var with := WithNominated(pod, info, nominated);
    RunObjects(pod, preds, with, 0);
    RunObjects(pod, preds, info, 0);
    if nominated == [] { assert with == info; }
  }

  lemma ReasonsObject(pod: Pod, preds: seq<FitPredicate>, info: NodeInfo)
    requires GivesReasons(preds)
    ensures NoObjection(pod, preds, info, 0) <==> Passes(pod, preds, info)
  {
    if !Passes(pod, preds, info) {
      var i :| 0 <= i < |preds| && Objects(preds[i](pod, info));
      FirstObjection(pod, preds, info, i);
    }
  }

  lemma {:induction false} FirstObjection(pod: Pod, preds: seq<FitPredicate>, info: NodeInfo, i: nat)
    requires i < |preds| && Objects(preds[i](pod, info))
    ensures exists f: nat :: f < |preds| && Objects(preds[f](pod, info)) && forall h :: 0 <= h < f ==> !Objects(preds[h](pod, info))
  {
    if h :| 0 <= h < i && Objects(preds[h](pod, info)) { FirstObjection(pod, preds, info, h); }
  }

  /** If failing predicates give reasons, then in whatever order the map yields them, the pod fits if and
      only if all of them pass. */
  lemma PodFitsIff(pod: Pod, preds: seq<FitPredicate>, info: NodeInfo, nominated: seq<Pod>)
    requires GivesReasons(preds)
    ensures PodFits(pod, preds, info, nominated).Fits? <==> FitsOn(pod, preds, info, nominated)
  {
    PodFitsExactly(pod, preds, info, nominated);
    ReasonsObject(pod, preds, WithNominated(pod, info, nominated));
    ReasonsObject(pod, preds, info);
  }

  /** The node that the first pass tests: the pods there, and of the nominated ones exactly those of at
      least the pod's priority and of another name. */
  ghost predicate TestedFirst(pod: Pod, info: NodeInfo, nominated: seq<Pod>, node: NodeInfo) {
    && node.name == info.name && node.cpu == info.cpu && node.memory == info.memory
    && forall p :: p in node.pods <==> p in info.pods || (p in nominated && p.priority >= pod.priority && p.name != pod.name)
  }

  /** The pod fits if and only if all predicates pass on the node as it is and on the node with the pods
      nominated to it that matter. */
  lemma PodFitsTwice(pod: Pod, preds: seq<FitPredicate>, info: NodeInfo, nominated: seq<Pod>, node: NodeInfo)
    requires GivesReasons(preds) && TestedFirst(pod, info, nominated, node)
    ensures PodFits(pod, preds, info, nominated).Fits? <==> Passes(pod, preds, node) && Passes(pod, preds, info)
  {
    PodFitsIff(pod, preds, info, nominated);
    assert node == WithNominated(pod, info, nominated);
  }

  /** Otherwise the order matters: a silent failure that comes first hides the one after it. */
  lemma OrderMattersWithoutReasons(pod: Pod, info: NodeInfo)
    ensures var silent: FitPredicate := (p, i) => PredResult(false, [], false);
      var speaking: FitPredicate := (p, i) => PredResult(false, ["no room"], false);
      && PodFits(pod, [silent, speaking], info, []).Fits?
      && PodFits(pod, [speaking, silent], info, []) == Fails(["no room"])
  {
  }

  // ----- When the order does not matter -----

  datatype Answer = Passing | Silent | Speaking | Erring

  function AnswerOf(r: PredResult): Answer {
    if r.err then Erring else if r.fit then Passing else if r.reasons == [] then Silent else Speaking
  }

  /** All predicates that object to the pod do so in the same way. */
  ghost predicate OfOneMind(pod: Pod, preds: seq<FitPredicate>, info: NodeInfo) {
    forall i, j :: 0 <= i < |preds| && 0 <= j < |preds| && Objects(preds[i](pod, info)) && Objects(preds[j](pod, info)) ==>
      AnswerOf(preds[i](pod, info)) == AnswerOf(preds[j](pod, info))
  }

  /** Equal but for the reasons. */
  predicate Alike(x: Fit, y: Fit) {
    x.Fits? == y.Fits? && x.Error? == y.Error?
  }

  /** One pass ends with the first objection; which of the objecting predicates that is depends on the
      order. */
  lemma {:induction false} RunIs(pod: Pod, preds: seq<FitPredicate>, info: NodeInfo, j: nat) returns (f: nat)
    requires j <= |preds|
    ensures var r := Run(pod, preds, info, j);
      if f < |preds| then Objects(preds[f](pod, info)) && r == (if preds[f](pod, info).err then Error else Fails(preds[f](pod, info).reasons))
      else r == Fits && forall i :: j <= i < |preds| ==> !Objects(preds[i](pod, info))
    decreases |preds| - j
  {
    f := j;
    if j < |preds| && !Objects(preds[j](pod, info)) { f := RunIs(pod, preds, info, j + 1); }
  }

  /** One pass that counts silent failures as success. */
  function Pass(pod: Pod, preds: seq<FitPredicate>, info: NodeInfo): Fit {
    var r := Run(pod, preds, info, 0);
    if r.Fails? && r.reasons == [] then Fits else r
  }

  lemma SameMembers(a: seq<FitPredicate>, b: seq<FitPredicate>)
    requires multiset(a) == multiset(b)
    ensures forall p :: p in a <==> p in b
  {
    forall p ensures p in a <==> p in b {
      assert p in a <==> p in multiset(a);
      assert p in b <==> p in multiset(b);
    }
  }

  lemma PassAlike(pod: Pod, preds: seq<FitPredicate>, a: seq<FitPredicate>, info: NodeInfo)
    requires OfOneMind(pod, preds, info) && multiset(a) == multiset(preds)
    ensures Alike(Pass(pod, a, info), Pass(pod, preds, info))
  {
    hide Run;
    var f := RunIs(pod, a, info, 0);
    var g := RunIs(pod, preds, info, 0);
    SameMembers(a, preds);
    if f < |a| { assert a[f] in preds; }
    if g < |preds| { assert preds[g] in a; }
  }

  /** Where the predicates are of one mind, with the nominated pods and without, the orders of the two
      passes make no difference. */
  lemma OrdersAgree(pod: Pod, preds: seq<FitPredicate>, a: seq<FitPredicate>, b: seq<FitPredicate>, info: NodeInfo, nominated: seq<Pod>)
    requires OfOneMind(pod, preds, info) && OfOneMind(pod, preds, WithNominated(pod, info, nominated))
    requires multiset(a) == multiset(b) == multiset(preds)
    ensures Alike(PodFitsIn(pod, a, b, info, nominated), PodFits(pod, preds, info, nominated))
  {
    hide Run, OfOneMind;
    PassAlike(pod, preds, a, info);
    PassAlike(pod, preds, b, info);
    PassAlike(pod, preds, a, WithNominated(pod, info, nominated));
  }

  /** Every order of the predicates answers alike. */
  ghost predicate OrderFree(pod: Pod, preds: seq<FitPredicate>, info: NodeInfo) {
    forall a: seq<FitPredicate>, b: seq<FitPredicate> :: multiset(a) == multiset(preds) && multiset(b) == multiset(preds) ==>
      Alike(PodFits(pod, a, info, []), PodFits(pod, b, info, []))
  }

  /** The `i`th predicate moved to the front. */
  function Fronted(preds: seq<FitPredicate>, i: nat): (r: seq<FitPredicate>)
    requires i < |preds|
    ensures multiset(r) == multiset(preds)
  {
    assert preds == preds[..i] + [preds[i]] + preds[i + 1..];
    [preds[i]] + preds[..i] + preds[i + 1..]
  }

  /** THEOREM.  The order in which a map yields the predicates makes no difference to a node if and only if
      all the predicates that object there do so in the same way: with an error, with a reason, or
      silently. */
  lemma OrderFreeIff(pod: Pod, preds: seq<FitPredicate>, info: NodeInfo)
    ensures OrderFree(pod, preds, info) <==> OfOneMind(pod, preds, info)
  {
    if OfOneMind(pod, preds, info) {
      forall a: seq<FitPredicate>, b: seq<FitPredicate> | multiset(a) == multiset(preds) && multiset(b) == multiset(preds)
        ensures Alike(PodFits(pod, a, info, []), PodFits(pod, b, info, []))
      {
        PassAlike(pod, preds, a, info);
        PassAlike(pod, preds, b, info);
      }
    } else {
      var i, j :| 0 <= i < |preds| && 0 <= j < |preds| && Objects(preds[i](pod, info)) && Objects(preds[j](pod, info))
        && AnswerOf(preds[i](pod, info)) != AnswerOf(preds[j](pod, info));
      assert !Alike(PodFits(pod, Fronted(preds, i), info, []), PodFits(pod, Fronted(preds, j), info, []));
    }
  }

  // ----- When it does not matter to fitting -----

  /** Either all predicates that object to the pod do so silently, or none does. */
  ghost predicate SilentOrNot(pod: Pod, preds: seq<FitPredicate>, info: NodeInfo) {
    forall i, j :: 0 <= i < |preds| && 0 <= j < |preds| && Objects(preds[i](pod, info)) && Objects(preds[j](pod, info)) ==>
      (AnswerOf(preds[i](pod, info)) == Silent <==> AnswerOf(preds[j](pod, info)) == Silent)
  }

  lemma PassFits(pod: Pod, preds: seq<FitPredicate>, a: seq<FitPredicate>, info: NodeInfo)
    requires SilentOrNot(pod, preds, info) && multiset(a) == multiset(preds)
    ensures Pass(pod, a, info).Fits? == Pass(pod, preds, info).Fits?
  {
    hide Run;
    var f := RunIs(pod, a, info, 0);
    var g := RunIs(pod, preds, info, 0);
    SameMembers(a, preds);
    if f < |a| { assert a[f] in preds; }
    if g < |preds| { assert preds[g] in a; }
  }

  ghost predicate FitFree(pod: Pod, preds: seq<FitPredicate>, info: NodeInfo) {
    forall a: seq<FitPredicate>, b: seq<FitPredicate> :: multiset(a) == multiset(preds) && multiset(b) == multiset(preds) ==>
      PodFits(pod, a, info, []).Fits? == PodFits(pod, b, info, []).Fits?
  }

  /** THEOREM.  Whether the pod fits is the same for every order of the predicates if and only if silent
      failures do not meet other objections. */
  lemma FitFreeIff(pod: Pod, preds: seq<FitPredicate>, info: NodeInfo)
    ensures FitFree(pod, preds, info) <==> SilentOrNot(pod, preds, info)
  {
    if SilentOrNot(pod, preds, info) {
      forall a: seq<FitPredicate>, b: seq<FitPredicate> | multiset(a) == multiset(preds) && multiset(b) == multiset(preds)
        ensures PodFits(pod, a, info, []).Fits? == PodFits(pod, b, info, []).Fits?
      {
        PassFits(pod, preds, a, info);
        PassFits(pod, preds, b, info);
      }
    } else {
      var i, j :| 0 <= i < |preds| && 0 <= j < |preds| && Objects(preds[i](pod, info)) && Objects(preds[j](pod, info))
        && AnswerOf(preds[i](pod, info)) == Silent != AnswerOf(preds[j](pod, info));
      assert PodFits(pod, Fronted(preds, i), info, []).Fits? && !PodFits(pod, Fronted(preds, j), info, []).Fits?;
    }
  }

  /** The orders that the map of predicates yields for a node with these pods, in the two passes. */
  type Draw = NodeInfo -> (seq<FitPredicate>, seq<FitPredicate>)

  /** Silent failures never meet other objections. */
  ghost predicate AlwaysSilentOrNot(preds: seq<FitPredicate>) {
    forall pod, info :: SilentOrNot(pod, preds, info)
  }

  /** All the predicates, in any orders if these make no difference to fitting. */
  ghost predicate DrawnFor(draw: Draw, preds: seq<FitPredicate>) {
    || (forall info :: draw(info) == (preds, preds))
    || (AlwaysSilentOrNot(preds) && forall info :: multiset(draw(info).0) == multiset(preds) && multiset(draw(info).1) == multiset(preds))
  }

  lemma ReasonsAreSpoken(preds: seq<FitPredicate>)
    requires GivesReasons(preds)
    ensures AlwaysSilentOrNot(preds)
  {
    forall pod, info ensures SilentOrNot(pod, preds, info) {
      assert forall i :: 0 <= i < |preds| && !preds[i](pod, info).fit && !preds[i](pod, info).err ==> preds[i](pod, info).reasons != [];
    }
  }

  lemma DrawnFits(pod: Pod, preds: seq<FitPredicate>, draw: Draw, info: NodeInfo, nominated: seq<Pod>)
    requires DrawnFor(draw, preds)
    ensures PodFitsIn(pod, draw(info).0, draw(info).1, info, nominated).Fits? == PodFits(pod, preds, info, nominated).Fits?
  {
    hide Run, SilentOrNot;
    if AlwaysSilentOrNot(preds) && multiset(draw(info).0) == multiset(preds) && multiset(draw(info).1) == multiset(preds) {
      assert SilentOrNot(pod, preds, info) && SilentOrNot(pod, preds, WithNominated(pod, info, nominated));
      PassFits(pod, preds, draw(info).0, info);
      PassFits(pod, preds, draw(info).1, info);
      PassFits(pod, preds, draw(info).0, WithNominated(pod, info, nominated));
    }
  }

  method PodFitsOnNode(pod: Pod, preds: seq<FitPredicate>, again: seq<FitPredicate>, info: NodeInfo, nominated: seq<Pod>) returns (r: Fit)
    ensures r == PodFitsIn(pod, preds, again, info, nominated)
  {
    var failed: seq<string> := [];
    var podsAdded := false;
    for i := 0 to 2
      invariant i == 0 ==> failed == [] && !podsAdded
      invariant i == 1 ==> (podsAdded <==> nominated != [])
      invariant i == 1 ==>
        var first := Run(pod, preds, if nominated == [] then info else WithNominated(pod, info, nominated), 0);
        !first.Error? && failed == if first.Fits? then [] else first.reasons
      invariant i == 2 ==> (if failed == [] then Fits else Fails(failed)) == PodFitsIn(pod, preds, again, info, nominated)
    {
      var infoToUse := info;
      if i == 0 {
        if nominated != [] {
          podsAdded, infoToUse := true, WithNominated(pod, info, nominated);
        }
      } else if !podsAdded || failed != [] {
        break;
      }
      var order := if i == 0 then preds else again;
      for j := 0 to |order|
        invariant failed == [] && Run(pod, order, infoToUse, 0) == Run(pod, order, infoToUse, j)
      {
        var result := order[j](pod, infoToUse);
        if result.err {
          return Error;
        }
        if !result.fit {
          failed := failed + result.reasons;
          break;
        }
      }
    }
    r := if failed == [] then Fits else Fails(failed);
  }

  // ----- The greedy choice -----

  /** Removing pods never makes a predicate fail. */
  ghost predicate Monotone(fit: set<Pod> -> bool) {
    forall a, b :: a <= b && fit(b) ==> fit(a)
  }

  function Members(s: seq<Pod>): set<Pod> {
    set p | p in s
  }

  ghost predicate ByPriority(s: seq<Pod>) {
    forall i, j :: 0 <= i < j < |s| ==> s[i].priority >= s[j].priority
  }

  /** Put the pods back one by one; those that do not fit with the preemptor are the victims. */
  function Reprieve(fit: set<Pod> -> bool, kept: set<Pod>, s: seq<Pod>): seq<Pod>
    decreases s
  {
    if s == [] then []
    else if fit(kept + {s[0]}) then Reprieve(fit, kept + {s[0]}, s[1..])
    else [s[0]] + Reprieve(fit, kept, s[1..])
  }

  lemma {:induction false} ReprieveMembers(fit: set<Pod> -> bool, kept: set<Pod>, s: seq<Pod>)
    ensures forall p :: p in Reprieve(fit, kept, s) ==> p in s
    ensures ByPriority(s) ==> ByPriority(Reprieve(fit, kept, s))
    decreases s
  {
    if s != [] {
      ReprieveMembers(fit, kept + {s[0]}, s[1..]);
      ReprieveMembers(fit, kept, s[1..]);
      assert forall p :: p in s[1..] ==> p in s;
      if ByPriority(s) {
        assert forall p :: p in s[1..] ==> s[0].priority >= p.priority;
      }
    }
  }

  lemma MembersCons(s: seq<Pod>)
    requires s != []
    ensures Members(s) == {s[0]} + Members(s[1..])
    ensures Distinct(s) ==> s[0] !in Members(s[1..]) && Distinct(s[1..])
  {
    assert s == [s[0]] + s[1..];
  }

  /** The preemptor fits once the victims are gone. */
  lemma {:induction false} ReprieveFits(fit: set<Pod> -> bool, kept: set<Pod>, s: seq<Pod>)
    requires fit(kept) && Distinct(s) && kept !! Members(s)
    ensures fit(kept + Members(s) - Members(Reprieve(fit, kept, s)))
    decreases s
  {
    if s == [] {
      assert kept + Members(s) - Members(Reprieve(fit, kept, s)) == kept;
    } else {
      MembersCons(s);
      var victims := Reprieve(fit, kept, s);
      if fit(kept + {s[0]}) {
        ReprieveFits(fit, kept + {s[0]}, s[1..]);
        assert kept + {s[0]} + Members(s[1..]) == kept + Members(s);
      } else {
        ReprieveFits(fit, kept, s[1..]);
        MembersCons(victims);
        assert kept + Members(s) - Members(victims) == kept + Members(s[1..]) - Members(victims[1..]);
      }
    }
  }

  /** In the order of `s`, the first pod that only one of `a` and `b` has is in `a`. */
  ghost predicate AtLeast(s: seq<Pod>, a: set<Pod>, b: set<Pod>) {
    s == [] || (s[0] in a && s[0] !in b) || ((s[0] in a <==> s[0] in b) && AtLeast(s[1..], a, b))
  }

  /** THEOREM.  If removing pods never hurts, what is kept is lexicographically best, from the highest
      priority down, among everything that could be kept. */
  lemma {:induction false} ReprieveIsBest(fit: set<Pod> -> bool, kept: set<Pod>, s: seq<Pod>, other: set<Pod>)
    requires Monotone(fit) && Distinct(s) && kept !! Members(s)
    requires other <= Members(s) && fit(kept + other)
    ensures AtLeast(s, Members(s) - Members(Reprieve(fit, kept, s)), other)
    decreases s
  {
    if s != [] {
      MembersCons(s);
      if s[0] in other { FitsOne(fit, kept, other, s[0]); }
      if fit(kept + {s[0]}) {
        BestWhenKept(fit, kept, s, other);
      } else {
        BestWhenVictim(fit, kept, s, other);
      }
    }
  }

  lemma FitsOne(fit: set<Pod> -> bool, kept: set<Pod>, other: set<Pod>, p: Pod)
    requires Monotone(fit) && fit(kept + other) && p in other
    ensures fit(kept + {p})
  {
    assert kept + {p} <= kept + other;
  }

  lemma BestWhenKept(fit: set<Pod> -> bool, kept: set<Pod>, s: seq<Pod>, other: set<Pod>)
    requires s != [] && Monotone(fit) && Distinct(s) && kept !! Members(s)
    requires other <= Members(s) && fit(kept + other) && fit(kept + {s[0]})
    ensures AtLeast(s, Members(s) - Members(Reprieve(fit, kept, s)), other)
    decreases s, 0
  {
    var victims := Reprieve(fit, kept + {s[0]}, s[1..]);
    MembersCons(s);
    ReprieveMembers(fit, kept + {s[0]}, s[1..]);
    assert s[0] !in victims by { assert s[0] !in s[1..]; }
    if s[0] in other {
      assert kept + {s[0]} + (other - {s[0]}) == kept + other;
      ReprieveIsBest(fit, kept + {s[0]}, s[1..], other - {s[0]});
      AtLeastSame(s[1..], Members(s[1..]) - Members(victims), other - {s[0]}, Members(s) - Members(victims), other);
    }
  }

  lemma {:induction false} BestWhenVictim(fit: set<Pod> -> bool, kept: set<Pod>, s: seq<Pod>, other: set<Pod>)
    requires s != [] && Monotone(fit) && Distinct(s) && kept !! Members(s)
    requires other <= Members(s) && fit(kept + other) && !fit(kept + {s[0]}) && s[0] !in other
    ensures AtLeast(s, Members(s) - Members(Reprieve(fit, kept, s)), other)
    decreases s, 0
  {
    var rest := Reprieve(fit, kept, s[1..]);
    var victims := Reprieve(fit, kept, s);
    MembersCons(s);
    MembersCons(victims);
    assert victims[1..] == rest;
    ReprieveIsBest(fit, kept, s[1..], other);
    AtLeastSame(s[1..], Members(s[1..]) - Members(rest), other, Members(s) - Members(victims), other);
  }

  lemma {:induction false} AtLeastSame(s: seq<Pod>, a: set<Pod>, b: set<Pod>, c: set<Pod>, d: set<Pod>)
    requires AtLeast(s, a, b) && forall p :: p in s ==> (p in a <==> p in c) && (p in b <==> p in d)
    ensures AtLeast(s, c, d)
  {
    if s != [] && !(s[0] in a && s[0] !in b) { AtLeastSame(s[1..], a, b, c, d); }
  }

  /** THEOREM.  No proper subset of the victims suffices. */
  lemma VictimsAreMinimal(fit: set<Pod> -> bool, kept: set<Pod>, s: seq<Pod>, fewer: set<Pod>)
    requires Monotone(fit) && Distinct(s) && kept !! Members(s)
    requires fewer < Members(Reprieve(fit, kept, s))
    ensures !fit(kept + (Members(s) - fewer))
  {
    var victims := Members(Reprieve(fit, kept, s));
    ReprieveMembers(fit, kept, s);
    if fit(kept + (Members(s) - fewer)) {
      ReprieveIsBest(fit, kept, s, Members(s) - fewer);
      var p :| p in victims && p !in fewer;
      NotAtLeast(s, Members(s) - victims, Members(s) - fewer, p);
    }
  }

  /** A set is not at least one that has all of its pods and another. */
  lemma {:induction false} NotAtLeast(s: seq<Pod>, a: set<Pod>, b: set<Pod>, p: Pod)
    requires a <= b && p in s && p !in a && p in b
    ensures !AtLeast(s, a, b)
  {
    if s[0] != p { NotAtLeast(s[1..], a, b, p); }
  }

  // ----- selectVictimsOnNode -----

  ghost predicate Sorts(sort: seq<Pod> -> seq<Pod>) {
    forall s :: ByPriority(sort(s)) && multiset(sort(s)) == multiset(s)
  }

  function Lower(pods: set<Pod>, priority: int): set<Pod> {
    set p | p in pods && p.priority < priority
  }

  lemma LowerAppend(s: seq<Pod>, p: Pod, priority: int)
    ensures Lower(Members(s + [p]), priority) == Lower(Members(s), priority) + if p.priority < priority then {p} else {}
    ensures Members(s + [p]) == Members(s) + {p}
  {
  }

  /** Whether the preemptor fits when the node holds just `pods`. */
  function FitWith(preemptor: Pod, preds: seq<FitPredicate>, node: NodeInfo, nominated: seq<Pod>): set<Pod> -> bool {
    pods => PodFits(preemptor, preds, node.(pods := pods), nominated).Fits?
  }

  datatype Selection = NotFit | Selected(victims: seq<Pod>)

  /** The outcome on one node: the victims the greedy choice leaves, from lower-priority pods in some
      order of nonincreasing priority. */
  ghost predicate SelectionOf(r: Selection, preemptor: Pod, info: NodeInfo, nominated: seq<Pod>, preds: seq<FitPredicate>) {
    var fit := FitWith(preemptor, preds, info, nominated);
    var lower := Lower(info.pods, preemptor.priority);
    if !fit(info.pods - lower) then r == NotFit else
      exists s :: Distinct(s) && ByPriority(s) && Members(s) == lower
        && r == Selected(Reprieve(fit, info.pods - lower, s))
  }

  lemma DistinctByMultiset(a: seq<Pod>, b: seq<Pod>)
    requires Distinct(a) && multiset(a) == multiset(b)
    ensures Distinct(b) && Members(a) == Members(b)
  {
    forall p ensures p in a <==> p in b {
      assert p in a <==> p in multiset(a);
      assert p in b <==> p in multiset(b);
    }
    DistinctCounts(a);
    DistinctCounts(b);
  }

  /** Take the lower-priority pods off the copy of the node. */
  method SplitOff(preemptor: Pod, info: NodeInfo, order: seq<Pod>) returns (potential: seq<Pod>, copy: NodeInfo)
    requires Distinct(order) && Members(order) == info.pods
    ensures Distinct(potential) && Members(potential) == Lower(info.pods, preemptor.priority)
    ensures copy == info.(pods := info.pods - Lower(info.pods, preemptor.priority))
  {
    potential, copy := [], info;
    for i := 0 to |order|
      invariant Distinct(potential) && Members(potential) == Lower(Members(order[..i]), preemptor.priority)
      invariant copy == info.(pods := info.pods - Members(potential))
    {
      var p := order[i];
      assert order[..i + 1] == order[..i] + [p] && p !in order[..i];
      LowerAppend(order[..i], p, preemptor.priority);
      if p.priority < preemptor.priority {
        assert p !in Members(potential);
        potential := potential + [p];
        copy := copy.(pods := copy.pods - {p});
      }
    }
    assert order[..|order|] == order;
  }

  /** `reprievePod`: put one pod back if the preemptor still fits. */
  method ReprievePod(preemptor: Pod, copy: NodeInfo, p: Pod, nominated: seq<Pod>, ghost preds: seq<FitPredicate>, draw: Draw)
    returns (r: NodeInfo, fits: bool)
    requires DrawnFor(draw, preds) && p !in copy.pods
    ensures fits == FitWith(preemptor, preds, copy, nominated)(copy.pods + {p})
    ensures r == copy.(pods := if fits then copy.pods + {p} else copy.pods)
  {
    r := copy.(pods := copy.pods + {p});
    var fit := PodFitsOnNode(preemptor, draw(r).0, draw(r).1, r, nominated);
    DrawnFits(preemptor, preds, draw, r, nominated);
    fits := fit.Fits?;
    if !fits {
      r := r.(pods := r.pods - {p});
      assert r.pods == copy.pods;
    }
  }

  /** Put the pods back one by one, in the given order. */
  method ReprievePods(preemptor: Pod, ghost info: NodeInfo, base: NodeInfo, s: seq<Pod>, nominated: seq<Pod>,
                      ghost preds: seq<FitPredicate>, draw: Draw)
    returns (victims: seq<Pod>)
    requires DrawnFor(draw, preds) && Distinct(s) && base.pods !! Members(s) && base == info.(pods := base.pods)
    ensures victims == Reprieve(FitWith(preemptor, preds, info, nominated), base.pods, s)
  {
    ghost var fit := FitWith(preemptor, preds, info, nominated);
    var copy := base;
    victims := [];
    for i := 0 to |s|
      invariant copy == base.(pods := copy.pods) && copy.pods !! Members(s[i..])
      invariant victims + Reprieve(fit, copy.pods, s[i..]) == Reprieve(fit, base.pods, s)
    {
      MembersCons(s[i..]);
      assert s[i..][1..] == s[i + 1..];
      var fits;
      copy, fits := ReprievePod(preemptor, copy, s[i], nominated, preds, draw);
      if !fits {
        victims := victims + [s[i]];
      }
    }
  }

  /** `selectVictimsOnNode`; `order` is the order in which the node lists its pods, `draw` those in which the
      map yields the predicates for each of the sets of pods that are tried. */
  method SelectVictimsOnNode(
    preemptor: Pod, info: Option<NodeInfo>, order: seq<Pod>, nominated: seq<Pod>,
    ghost preds: seq<FitPredicate>, draw: Draw, sort: seq<Pod> -> seq<Pod>) returns (r: Selection)
    requires info.Some? ==> Distinct(order) && Members(order) == info.value.pods
    requires DrawnFor(draw, preds) && Sorts(sort)
    ensures info.None? ==> r == NotFit
    ensures info.Some? ==> SelectionOf(r, preemptor, info.value, nominated, preds)
  {
    if info.None? {
      return NotFit;
    }
    var potential, copy := SplitOff(preemptor, info.value, order);
    var s := sort(potential);
    DistinctByMultiset(potential, s);
    ghost var fit, base := FitWith(preemptor, preds, info.value, nominated), copy.pods;
    var fits := PodFitsOnNode(preemptor, draw(copy).0, draw(copy).1, copy, nominated);
    DrawnFits(preemptor, preds, draw, copy, nominated);
    if !fits.Fits? {
      return NotFit;
    }
    var victims := ReprievePods(preemptor, info.value, copy, s, nominated, preds, draw);
    r := Selected(victims);
  }

  // ----- What the selection means for the node -----

  /** Predicates that give reasons, and that removing pods never makes fail. */
  ghost predicate MonotonePredicates(preds: seq<FitPredicate>) {
    && GivesReasons(preds)
    && (forall i, pod, a: NodeInfo, b: NodeInfo ::
          0 <= i < |preds| && a.pods <= b.pods && b == a.(pods := b.pods) && preds[i](pod, b).fit && !preds[i](pod, b).err
          ==> preds[i](pod, a).fit && !preds[i](pod, a).err)
  }

  lemma FitWithIsMonotone(preemptor: Pod, preds: seq<FitPredicate>, node: NodeInfo, nominated: seq<Pod>)
    requires MonotonePredicates(preds)
    ensures Monotone(FitWith(preemptor, preds, node, nominated))
  {
    var fit := FitWith(preemptor, preds, node, nominated);
    forall a, b | a <= b && fit(b) ensures fit(a) {
      var na := WithNominated(preemptor, node.(pods := a), nominated);
      var nb := WithNominated(preemptor, node.(pods := b), nominated);
      assert nb == na.(pods := nb.pods) && na.pods <= nb.pods;
      PodFitsIff(preemptor, preds, node.(pods := a), nominated);
      PodFitsIff(preemptor, preds, node.(pods := b), nominated);
    }
  }

  /** THEOREM.  If the predicates give reasons and removing pods never makes one fail, there is an order of
      the lower-priority pods by nonincreasing priority in which no set of them that could be kept beats
      the set kept. */
  lemma SelectionKeepsBest(r: Selection, preemptor: Pod, info: NodeInfo, nominated: seq<Pod>, preds: seq<FitPredicate>)
    requires SelectionOf(r, preemptor, info, nominated, preds) && r.Selected? && MonotonePredicates(preds)
    ensures var fit := FitWith(preemptor, preds, info, nominated); var lower := Lower(info.pods, preemptor.priority);
      exists s :: Distinct(s) && ByPriority(s) && Members(s) == lower &&
        forall other :: other <= lower && fit(info.pods - lower + other) ==> AtLeast(s, lower - Members(r.victims), other)
  {
    var fit := FitWith(preemptor, preds, info, nominated);
    var lower := Lower(info.pods, preemptor.priority);
    var base := info.pods - lower;
    var s :| Distinct(s) && ByPriority(s) && Members(s) == lower && r == Selected(Reprieve(fit, base, s));
    FitWithIsMonotone(preemptor, preds, info, nominated);
    forall other | other <= lower && fit(base + other) ensures AtLeast(s, lower - Members(r.victims), other) {
      ReprieveIsBest(fit, base, s, other);
    }
  }

  /** There is no selection if and only if the preemptor does not fit with all the pods gone that have lower
      priority. */
  lemma NotFitIff(r: Selection, preemptor: Pod, info: NodeInfo, nominated: seq<Pod>, preds: seq<FitPredicate>)
    requires SelectionOf(r, preemptor, info, nominated, preds)
    ensures r.NotFit? <==> !PodFits(preemptor, preds, info.(pods := set p | p in info.pods && p.priority >= preemptor.priority), nominated).Fits?
  {
    LowerGone(info.pods, preemptor.priority);
  }

  lemma LowerGone(pods: set<Pod>, priority: int)
    ensures pods - Lower(pods, priority) == set p | p in pods && p.priority >= priority
  {
  }

  /** A victim with what is kept of at least its priority. */
  function KeptAbove(kept: set<Pod>, s: seq<Pod>, victims: seq<Pod>, v: Pod): set<Pod> {
    kept + {v} + set p | p in s && p !in victims && p.priority >= v.priority
  }

  lemma {:induction false} ReprieveIsStrict(fit: set<Pod> -> bool, kept: set<Pod>, s: seq<Pod>, v: Pod)
    requires Monotone(fit) && Distinct(s) && ByPriority(s) && v in Reprieve(fit, kept, s)
    ensures !fit(KeptAbove(kept, s, Reprieve(fit, kept, s), v))
    decreases s
  {
    var victims := Reprieve(fit, kept, s);
    MembersCons(s);
    assert forall p :: p in s <==> p == s[0] || p in s[1..];
    if fit(kept + {s[0]}) {
      ReprieveMembers(fit, kept + {s[0]}, s[1..]);
      assert s[0] !in s[1..];
      ReprieveIsStrict(fit, kept + {s[0]}, s[1..], v);
      assert KeptAbove(kept + {s[0]}, s[1..], victims, v) == KeptAbove(kept, s, victims, v);
    } else {
      var rest := Reprieve(fit, kept, s[1..]);
      assert victims == [s[0]] + rest;
      if v == s[0] {
        assert kept + {s[0]} <= KeptAbove(kept, s, victims, v);
      } else {
        ReprieveIsStrict(fit, kept, s[1..], v);
        assert KeptAbove(kept, s[1..], rest, v) <= KeptAbove(kept, s, victims, v);
      }
    }
  }

  /** THEOREM.  A pod of higher priority is not given up for pods of lower priority: if the predicates give
      reasons and removing pods never makes one fail, no victim could stay on the node together with the pods
      that are kept and have at least its priority. */
  lemma VictimsGiveWay(r: Selection, preemptor: Pod, info: NodeInfo, nominated: seq<Pod>, preds: seq<FitPredicate>, v: Pod)
    requires SelectionOf(r, preemptor, info, nominated, preds) && r.Selected? && MonotonePredicates(preds) && v in r.victims
    ensures var kept := set p | p in info.pods && p !in r.victims && p.priority >= v.priority;
      !PodFits(preemptor, preds, info.(pods := kept + {v}), nominated).Fits?
  {
    var fit := FitWith(preemptor, preds, info, nominated);
    var lower := Lower(info.pods, preemptor.priority);
    var base := info.pods - lower;
    var s :| Distinct(s) && ByPriority(s) && Members(s) == lower && r == Selected(Reprieve(fit, base, s));
    FitWithIsMonotone(preemptor, preds, info, nominated);
    ReprieveIsStrict(fit, base, s, v);
    ReprieveMembers(fit, base, s);
    assert v in Members(s) && forall p :: p in s <==> p in lower;
    assert KeptAbove(base, s, r.victims, v) == (set p | p in info.pods && p !in r.victims && p.priority >= v.priority) + {v};
  }

  /** THEOREM.  The selected victims are pods of the node with lower priority than the preemptor, highest
      first; the preemptor fits without them; and, if the predicates give reasons and removing pods never
      makes one fail, it does not fit when only some of them are removed. */
  lemma SelectionMeans(r: Selection, preemptor: Pod, info: NodeInfo, nominated: seq<Pod>, preds: seq<FitPredicate>)
    requires SelectionOf(r, preemptor, info, nominated, preds) && r.Selected?
    ensures forall v :: v in r.victims ==> v in info.pods && v.priority < preemptor.priority
    ensures forall i, j :: 0 <= i < j < |r.victims| ==> r.victims[i].priority >= r.victims[j].priority
    ensures PodFits(preemptor, preds, info.(pods := info.pods - Members(r.victims)), nominated).Fits?
    ensures MonotonePredicates(preds) ==> forall fewer :: fewer < Members(r.victims) ==>
      !PodFits(preemptor, preds, info.(pods := info.pods - fewer), nominated).Fits?
  {
    hide PodFits, Reprieve, Monotone, MonotonePredicates;
    var fit := FitWith(preemptor, preds, info, nominated);
    var lower := Lower(info.pods, preemptor.priority);
    var base := info.pods - lower;
    var s :| Distinct(s) && ByPriority(s) && Members(s) == lower && r == Selected(Reprieve(fit, base, s));
    var victims := Members(r.victims);
    ReprieveMembers(fit, base, s);
    ReprieveFits(fit, base, s);
    assert forall v :: v in r.victims ==> v in Members(s);
    assert base + Members(s) - victims == info.pods - victims;
    if MonotonePredicates(preds) {
      FitWithIsMonotone(preemptor, preds, info, nominated);
      forall fewer | fewer < victims ensures !fit(info.pods - fewer) {
        VictimsAreMinimal(fit, base, s, fewer);
        assert base + (Members(s) - fewer) == info.pods - fewer;
      }
    }
  }
}
