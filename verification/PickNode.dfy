// Which node to preempt on (`pickOneNodeForPreemption` in pkg/scheduler/generic_scheduler_k8s.go): three
// rounds of elimination between two scratch arrays that are overwritten in place.

module PickNode {
  import opened Victims

  const MAX_INT32: int := 0x7fff_ffff
  const MAX_INT64: int := 0x7fff_ffff_ffff_ffff

  /** The nodes of `s` with the least measure, in order. */
  function Least(s: seq<string>, f: string -> int): (r: seq<string>)
    ensures s != [] <==> r != []
    ensures |r| <= |s|
  {
    if s == [] then [] else
      var r, x := Least(s[..|s| - 1], f), s[|s| - 1];
      if r == [] || f(x) < f(r[0]) then [x] else if f(x) == f(r[0]) then r + [x] else r
  }

  lemma {:induction false} LeastMembers(s: seq<string>, f: string -> int)
    ensures forall x :: x in Least(s, f) <==> x in s && forall y :: y in s ==> f(x) <= f(y)
  {
    if s != [] {
      var init, x := s[..|s| - 1], s[|s| - 1];
      LeastMembers(init, f);
      assert forall y :: y in s <==> y in init || y == x;
      assert Least(init, f) != [] ==> Least(init, f)[0] in Least(init, f);
    }
  }

  datatype Outcome = NoNode | Node(name: string) | Panic

  datatype Rank = Rank(head: int, sum: int, count: int)

  /** The sum of the priorities, each shifted to be nonnegative. */
  function SumPriorities(victims: seq<Pod>): int {
    if victims == [] then 0 else
      SumPriorities(victims[..|victims| - 1]) + victims[|victims| - 1].priority + (MAX_INT32 + 1)
  }

  lemma {:induction false} SumBound(victims: seq<Pod>)
    requires forall v <- victims :: -MAX_INT32 - 1 <= v.priority <= MAX_INT32
    ensures 0 <= SumPriorities(victims) <= |victims| * 0xffff_ffff
  {
    if victims != [] { SumBound(victims[..|victims| - 1]); }
  }

  function RankOf(victims: seq<Pod>): Rank {
    Rank(if victims == [] then 0 else victims[0].priority, SumPriorities(victims), |victims|)
  }

  predicate NoWorse(a: Rank, b: Rank) {
    a.head < b.head || (a.head == b.head && (a.sum < b.sum || (a.sum == b.sum && a.count <= b.count)))
  }

  /** The sum adds up the shifted priorities, in whatever way it is split. */
  lemma {:induction false} SumSplits(a: seq<Pod>, b: seq<Pod>)
    ensures SumPriorities(a + b) == SumPriorities(a) + SumPriorities(b)
    ensures forall p :: SumPriorities([p]) == p.priority + 0x8000_0000
  {
    if b == [] {
      assert a + b == a;
    } else {
      SumSplits(a, b[..|b| - 1]);
      assert (a + b)[..|a + b| - 1] == a + b[..|b| - 1];
    }
    forall p ensures SumPriorities([p]) == p.priority + 0x8000_0000 {
      assert [p][..0] == [];
    }
  }

  type Candidates = map<string, seq<Pod>>

  /** Priorities are int32s, and no list of victims is longer than an int32 counts. */
  ghost predicate InRange(m: Candidates) {
    forall n :: n in m ==> |m[n]| <= MAX_INT32 && forall v <- m[n] :: -MAX_INT32 - 1 <= v.priority <= MAX_INT32
  }

  function Head(m: Candidates): string -> int {
    n => if n in m then RankOf(m[n]).head else 0
  }

  function Sum(m: Candidates): string -> int {
    n => if n in m then RankOf(m[n]).sum else 0
  }

  function Size(m: Candidates): string -> int {
    n => if n in m then RankOf(m[n]).count else 0
  }

  /** Which of two lists of victims does no more harm: the one whose first, and highest, priority is lower;
      if these are equal, the one whose shifted priorities add up to less; if these are equal too, the one with
      no more victims. */
  lemma NoWorseMeans(a: seq<Pod>, b: seq<Pod>)
    requires a != [] && b != [] && NoWorse(RankOf(a), RankOf(b))
    ensures a[0].priority <= b[0].priority
    ensures a[0].priority == b[0].priority ==> SumPriorities(a) <= SumPriorities(b)
    ensures a[0].priority == b[0].priority && SumPriorities(a) == SumPriorities(b) ==> |a| <= |b|
  {
  }

  /** One round of elimination from the first `n` slots of `src` into `dst`. */
  method Eliminate(src: array<string>, n: nat, dst: array<string>, f: string -> int, bound: int) returns (len: nat)
    requires n <= src.Length && n <= dst.Length && src != dst
    requires forall x <- src[..n] :: f(x) <= bound
    modifies dst
    ensures len <= n && dst[..len] == Least(src[..n], f)
  {
    len := 0;
    var min := bound;
    for i := 0 to n
      invariant len <= i && dst[..len] == Least(src[..i], f)
      invariant forall j :: 0 <= j < len ==> f(dst[j]) == min
      invariant i == 0 ==> min == bound
    {
      assert src[..i + 1][..i] == src[..i];
      var node := src[i];
      var v := f(node);
      ghost var before := dst[..len];
      if v < min {
        min, len := v, 0;
      }
      if v == min {
        dst[len] := node;
        len := len + 1;
      }
      assert before != [] ==> f(before[0]) == f(Least(src[..i], f)[0]);
    }
  }

  /** `pickOneNodeForPreemption`; `order` is the order in which the map yields its nodes. */
  method PickOneNodeForPreemption(m: Candidates, order: seq<string>) returns (r: Outcome)
    requires InRange(m) && |order| == |m| && forall n :: n in m <==> n in order
    ensures r == NoNode <==> m == map[]
    ensures r == Panic <==> |m| >= 2 && exists n :: n in m && m[n] == []
    ensures r.Node? ==> r.name in m && forall n :: n in m ==> NoWorse(RankOf(m[r.name]), RankOf(m[n]))
    ensures r.Node? ==> forall n :: n in m && m[n] != [] && m[r.name] != [] ==> m[r.name][0].priority <= m[n][0].priority
  {
    if |m| == 0 {
      return NoNode;
    }
    assert order != [] && order[0] in m;
    var minNodes1 := new string[|order|](i requires 0 <= i < |order| => order[i]);
    var lenNodes1 := |order|;
    assert minNodes1[..] == order;
    if lenNodes1 == 1 {
      assert forall n :: n in m ==> n == order[0];
      return Node(minNodes1[0]);
    }
    // Reading Pods[0] of a node without victims panics.
    for i := 0 to lenNodes1
      invariant forall j :: 0 <= j < i ==> m[order[j]] != []
    {
      if |m[minNodes1[i]]| == 0 {
        return Panic;
      }
    }
    AllBounded(m, order);
    var name := Rounds(minNodes1, Head(m), Sum(m), Size(m));
    RoundsMembers(order, Head(m), Sum(m), Size(m));
    forall n | n in m ensures NoWorse(RankOf(m[name]), RankOf(m[n])) {
      RoundsAreLexicographic(order, Head(m), Sum(m), Size(m), name, n);
    }
    r := Node(name);
  }

  /** The three rounds, each ending the search when it leaves one node. */
  method Rounds(minNodes1: array<string>, f: string -> int, g: string -> int, h: string -> int) returns (name: string)
    requires minNodes1.Length > 0
    requires forall n <- minNodes1[..] :: f(n) <= MAX_INT32 && g(n) <= MAX_INT64 && h(n) <= MAX_INT32
    modifies minNodes1
    ensures name in Least(Least(Least(old(minNodes1[..]), f), g), h)
  {
    ghost var order := minNodes1[..];
    ghost var s2 := Least(order, f);
    ghost var s3 := Least(s2, g);
    RoundsMembers(order, f, g, h);
    var lenNodes1 := minNodes1.Length;
    var minNodes2 := new string[lenNodes1];
    assert minNodes1[..lenNodes1] == order;
    var lenNodes2 := Eliminate(minNodes1, lenNodes1, minNodes2, f, MAX_INT32);
    if lenNodes2 == 1 {
      assert minNodes2[0] == s2[0];
      return minNodes2[0];
    }
    lenNodes1 := Eliminate(minNodes2, lenNodes2, minNodes1, g, MAX_INT64);
    if lenNodes1 == 1 {
      assert minNodes1[0] == s3[0];
      return minNodes1[0];
    }
    lenNodes2 := Eliminate(minNodes1, lenNodes1, minNodes2, h, MAX_INT32);
    assert minNodes2[0] == Least(s3, h)[0];
    name := minNodes2[0];
  }

  /** Every measure is within the bound its round starts from. */
  lemma AllBounded(m: Candidates, s: seq<string>)
    requires InRange(m) && forall n <- s :: n in m && m[n] != []
    ensures forall n <- s :: Head(m)(n) <= MAX_INT32 && Sum(m)(n) <= MAX_INT64 && Size(m)(n) <= MAX_INT32
  {
    forall n | n in s ensures Head(m)(n) <= MAX_INT32 && Sum(m)(n) <= MAX_INT64 && Size(m)(n) <= MAX_INT32 {
      SumBound(m[n]);
      assert m[n][0] in m[n];
    }
  }

  lemma LeastOfOne(s: seq<string>, f: string -> int)
    requires |s| == 1
    ensures Least(s, f) == s
  {
    assert s[..0] == [] && s == [s[0]];
  }

  /** Three rounds leave nodes that are lexicographically least. */
  lemma RoundsAreLexicographic(order: seq<string>, f: string -> int, g: string -> int, h: string -> int, n: string, l: string)
    requires n in Least(Least(Least(order, f), g), h) && l in order
    ensures NoWorse(Rank(f(n), g(n), h(n)), Rank(f(l), g(l), h(l)))
  {
    var s2 := Least(order, f);
    LeastMembers(order, f);
    LeastMembers(s2, g);
    LeastMembers(Least(s2, g), h);
  }

  lemma RoundsMembers(order: seq<string>, f: string -> int, g: string -> int, h: string -> int)
    ensures var s2 := Least(order, f); var s3 := Least(s2, g); var s4 := Least(s3, h);
      && (forall n :: n in s2 || n in s3 || n in s4 ==> n in order)
      && (|s2| == 1 ==> s3 == s2) && (|s3| == 1 ==> s4 == s3)
  {
    var s2 := Least(order, f);
    LeastMembers(order, f);
    LeastMembers(s2, g);
    LeastMembers(Least(s2, g), h);
    if |s2| == 1 { LeastOfOne(s2, g); }
    if |Least(s2, g)| == 1 { LeastOfOne(Least(s2, g), h); }
  }
}
