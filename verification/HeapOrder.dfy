// Heap order on a sequence: what container/heap's sifting needs and restores.

module HeapOrder {
  import opened Pods

  type Compare = (PodInfo, PodInfo) -> bool

  ghost predicate StrictWeakOrder(less: Compare) {
    && (forall a, b :: less(a, b) ==> !less(b, a))
    && (forall a, b, c :: less(a, b) && less(b, c) ==> less(a, c))
    && (forall a, b, c :: !less(a, b) && !less(b, c) ==> !less(a, c))
  }

  /** `DefaultComparator` and `ResourceRequestComparator`. */
  function DefaultComparator(a: PodInfo, b: PodInfo): bool {
    a.priority > b.priority || (a.priority == b.priority && a.timestamp < b.timestamp)
  }

  function ResourceRequestComparator(a: PodInfo, b: PodInfo): bool {
    a.memory > b.memory
  }

  lemma ComparatorsAreStrictWeakOrders()
    ensures StrictWeakOrder(DefaultComparator) && StrictWeakOrder(ResourceRequestComparator)
  {
  }

  /** Highest priority first, and among equal priorities the oldest. */
  ghost predicate ByPriorityAndAge(s: seq<PodInfo>) {
    forall i, j :: 0 <= i < j < |s| ==>
      s[i].priority >= s[j].priority && (s[i].priority == s[j].priority ==> s[i].timestamp <= s[j].timestamp)
  }

  ghost predicate ByMemory(s: seq<PodInfo>) {
    forall i, j :: 0 <= i < j < |s| ==> s[i].memory >= s[j].memory
  }

  /** What it means that no later pod beats an earlier one. */
  lemma OrdersMean(s: seq<PodInfo>)
    ensures (forall i, j :: 0 <= i < j < |s| ==> !DefaultComparator(s[j], s[i])) <==> ByPriorityAndAge(s)
    ensures (forall i, j :: 0 <= i < j < |s| ==> !ResourceRequestComparator(s[j], s[i])) <==> ByMemory(s)
  {
  }

  function Parent(j: int): int
    requires j >= 1
  {
    (j - 1) / 2
  }

  ghost predicate Fine(less: Compare, s: seq<PodInfo>, j: int)
    requires 1 <= j < |s|
  {
    !less(s[j], s[Parent(j)])
  }

  /** No element below index `n` whose parent is at least `lo` beats its parent. */
  ghost predicate HeapFrom(less: Compare, s: seq<PodInfo>, lo: int, n: int)
    requires n <= |s|
  {
    forall j :: 1 <= j < n && lo <= Parent(j) ==> Fine(less, s, j)
  }

  ghost predicate Heap(less: Compare, s: seq<PodInfo>) {
    HeapFrom(less, s, 0, |s|)
  }

  /** The children of `i` do not beat the parent of `i`. */
  ghost predicate Bridged(less: Compare, s: seq<PodInfo>, n: int, i: int)
    requires n <= |s| && 0 <= i < |s|
  {
    i > 0 ==> forall j :: 1 <= j < n && Parent(j) == i ==> !less(s[j], s[Parent(i)])
  }

  /** Only the element at `i` may be out of order, with its parent or its children. */
  ghost predicate DownReady(less: Compare, s: seq<PodInfo>, lo: int, n: int, i: int)
    requires n <= |s| && 0 <= i < |s|
  {
    && (forall j :: 1 <= j < n && lo <= Parent(j) && Parent(j) != i && j != i ==> Fine(less, s, j))
    && (i > 0 && lo <= Parent(i) ==> Bridged(less, s, n, i))
  }

  /** Only the element at `j` may beat its parent. */
  ghost predicate UpReady(less: Compare, s: seq<PodInfo>, n: int, j: int)
    requires n <= |s| && 0 <= j < |s|
  {
    && (forall k :: 1 <= k < n && k != j ==> Fine(less, s, k))
    && Bridged(less, s, n, j)
  }

  function Swapped<T>(s: seq<T>, i: int, j: int): (r: seq<T>)
    requires 0 <= i < |s| && 0 <= j < |s|
    ensures |r| == |s|
  {
    s[i := s[j]][j := s[i]]
  }

  /** `c` is a child of `i` that no child of `i` beats. */
  ghost predicate BestChild(less: Compare, s: seq<PodInfo>, n: int, i: int, c: int)
    requires n <= |s|
  {
    && 1 <= c < n && Parent(c) == i
    && forall j :: 1 <= j < n && Parent(j) == i ==> !less(s[j], s[c])
  }

  lemma SwapDown(less: Compare, s: seq<PodInfo>, lo: int, n: int, i: int, c: int)
    requires StrictWeakOrder(less) && 0 <= lo <= i < n <= |s|
    requires DownReady(less, s, lo, n, i) && BestChild(less, s, n, i, c) && less(s[c], s[i])
    ensures DownReady(less, Swapped(s, i, c), lo, n, c) && Fine(less, Swapped(s, i, c), c)
  {
  }

  /** When the best child does not beat the element, nothing below it is out of order. */
  lemma StopDown(less: Compare, s: seq<PodInfo>, lo: int, n: int, i: int, c: int)
    requires StrictWeakOrder(less) && 0 <= lo <= i < n <= |s|
    requires DownReady(less, s, lo, n, i)
    requires 2 * i + 1 >= n || (BestChild(less, s, n, i, c) && !less(s[c], s[i]))
    ensures forall j :: 1 <= j < n && lo <= Parent(j) && j != i ==> Fine(less, s, j)
  {
  }

  lemma SwapUp(less: Compare, s: seq<PodInfo>, n: int, j: int)
    requires StrictWeakOrder(less) && 1 <= j < n <= |s|
    requires UpReady(less, s, n, j) && less(s[j], s[Parent(j)])
    ensures UpReady(less, Swapped(s, j, Parent(j)), n, Parent(j))
  {
    var p, t := Parent(j), Swapped(s, j, Parent(j));
    forall k | 1 <= k < n && k != p ensures Fine(less, t, k) {
      if k != j { assert Fine(less, s, k); }
    }
    if p > 0 {
      assert Fine(less, s, p);
      forall k | 1 <= k < n && Parent(k) == p ensures !less(t[k], t[Parent(p)]) {
        if k != j { assert Fine(less, s, k); }
      }
    }
  }

  /** Replacing one element of a heap leaves it the only one that can be out of order. */
  lemma ReplaceReady(less: Compare, s: seq<PodInfo>, t: seq<PodInfo>, n: int, i: int)
    requires StrictWeakOrder(less) && |s| == |t| && 0 <= i < n <= |s| && HeapFrom(less, s, 0, n)
    requires forall j :: 0 <= j < n && j != i ==> t[j] == s[j]
    ensures DownReady(less, t, 0, n, i)
  {
    if i > 0 {
      assert Fine(less, s, i);
      forall j | 1 <= j < n && Parent(j) == i ensures !less(t[j], t[Parent(i)]) {
        assert Fine(less, s, j);
      }
    }
  }

  /** Nothing in a heap beats its first element. */
  lemma {:induction false} FirstIsBest(less: Compare, s: seq<PodInfo>, j: nat)
    requires StrictWeakOrder(less) && Heap(less, s) && j < |s|
    ensures !less(s[j], s[0])
  {
    if j > 0 {
      assert Fine(less, s, j);
      FirstIsBest(less, s, Parent(j));
    }
  }

  // ----- container/heap on the sequence -----

  function SiftUp(less: Compare, s: seq<PodInfo>, j: int): (r: seq<PodInfo>)
    requires 0 <= j < |s|
    ensures |r| == |s|
    decreases j
  {
    var i := if j == 0 then 0 else Parent(j);   // Go's (j-1)/2 truncates to 0
    if i == j || !less(s[j], s[i]) then s else SiftUp(less, Swapped(s, i, j), i)
  }

  /** The child of `i` that `down` compares it with. */
  function ChildOf(less: Compare, s: seq<PodInfo>, n: int, i: int): (c: int)
    requires 0 <= i && 2 * i + 1 < n <= |s|
    ensures i < c < n && Parent(c) == i
  {
    if 2 * i + 2 < n && less(s[2 * i + 2], s[2 * i + 1]) then 2 * i + 2 else 2 * i + 1
  }

  function SiftDown(less: Compare, s: seq<PodInfo>, n: int, i: int): (r: seq<PodInfo>)
    requires 0 <= i < |s| && n <= |s|
    ensures |r| == |s| && forall k :: n <= k < |s| ==> k < 0 || r[k] == s[k]
    decreases |s| - i
  {
    if 2 * i + 1 >= n then s else
      var c := ChildOf(less, s, n, i);
      if !less(s[c], s[i]) then s else SiftDown(less, Swapped(s, i, c), n, c)
  }

  predicate Sinks(less: Compare, s: seq<PodInfo>, n: int, i: int)
    requires 0 <= i < |s| && n <= |s|
  {
    2 * i + 1 < n && less(s[ChildOf(less, s, n, i)], s[i])
  }

  /** `down` and, if that moved nothing, `up`. */
  function Settle(less: Compare, s: seq<PodInfo>, n: int, i: int): (r: seq<PodInfo>)
    requires 0 <= i < n <= |s|
    ensures |r| == |s|
  {
    if Sinks(less, s, n, i) then SiftDown(less, s, n, i) else SiftUp(less, s, i)
  }

  function PushSeq(less: Compare, s: seq<PodInfo>, x: PodInfo): seq<PodInfo> {
    SiftUp(less, s + [x], |s|)
  }

  /** `heap.Remove` up to its final Pop; `heap.Pop` is the case of the first position. */
  function EndSeq(less: Compare, s: seq<PodInfo>, i: int): (r: seq<PodInfo>)
    requires 0 <= i < |s|
    ensures |r| == |s|
  {
    if i == |s| - 1 then s else Settle(less, Swapped(s, i, |s| - 1), |s| - 1, i)
  }

  function RemoveSeq(less: Compare, s: seq<PodInfo>, i: int): (r: seq<PodInfo>)
    requires 0 <= i < |s|
    ensures |r| == |s| - 1
  {
    EndSeq(less, s, i)[..|s| - 1]
  }

  /** The positions that sifting down from `i` swaps. */
  function SiftMoves(less: Compare, s: seq<PodInfo>, n: int, i: int): set<int>
    requires 0 <= i < |s| && n <= |s|
    decreases |s| - i
  {
    if !Sinks(less, s, n, i) then {} else
      var c := ChildOf(less, s, n, i);
      {i, c} + SiftMoves(less, Swapped(s, i, c), n, c)
  }

  /** The positions that sifting down from `i - 1`, `i - 2` and so on swaps. */
  function InitMoves(less: Compare, s: seq<PodInfo>, i: nat): set<int>
    requires i <= |s|
    decreases i
  {
    if i == 0 then {} else SiftMoves(less, s, |s|, i - 1) + InitMoves(less, SiftDown(less, s, |s|, i - 1), i - 1)
  }

  /** `heap.Init`, from position `i - 1` down. */
  function InitSeq(less: Compare, s: seq<PodInfo>, i: nat): (r: seq<PodInfo>)
    requires i <= |s|
    ensures |r| == |s|
    decreases i
  {
    if i == 0 then s else InitSeq(less, SiftDown(less, s, |s|, i - 1), i - 1)
  }

  // ----- They keep and make heaps -----

  lemma {:induction false} SiftUpMakesHeap(less: Compare, s: seq<PodInfo>, n: int, j: int)
    requires StrictWeakOrder(less) && 0 <= j < n <= |s| && UpReady(less, s, n, j)
    ensures HeapFrom(less, SiftUp(less, s, j), 0, n)
    decreases j
  {
    if j > 0 && less(s[j], s[Parent(j)]) {
      SwapUp(less, s, n, j);
      assert Swapped(s, j, Parent(j)) == Swapped(s, Parent(j), j);
      SiftUpMakesHeap(less, Swapped(s, Parent(j), j), n, Parent(j));
    }
  }

  lemma ChildIsBest(less: Compare, s: seq<PodInfo>, n: int, i: int)
    requires StrictWeakOrder(less) && 0 <= i && 2 * i + 1 < n <= |s|
    ensures BestChild(less, s, n, i, ChildOf(less, s, n, i))
  {
  }

  lemma {:induction false} SiftDownOrders(less: Compare, s: seq<PodInfo>, lo: int, n: int, i: int)
    requires StrictWeakOrder(less) && 0 <= lo <= i < n <= |s| && DownReady(less, s, lo, n, i)
    ensures var r := SiftDown(less, s, n, i);
      forall j :: 1 <= j < n && lo <= Parent(j) && j != i ==> Fine(less, r, j)
    ensures var r := SiftDown(less, s, n, i);
      i > 0 && lo <= Parent(i) && (Sinks(less, s, n, i) || Fine(less, s, i)) ==> Fine(less, r, i)
    ensures !Sinks(less, s, n, i) ==> SiftDown(less, s, n, i) == s
    decreases |s| - i
  {
    if 2 * i + 1 < n { ChildIsBest(less, s, n, i); }
    if Sinks(less, s, n, i) {
      var c := ChildOf(less, s, n, i);
      SwapDown(less, s, lo, n, i, c);
      assert i > 0 && lo <= Parent(i) ==> Fine(less, Swapped(s, i, c), i);
      SiftDownOrders(less, Swapped(s, i, c), lo, n, c);
      if i > 0 && lo <= Parent(i) { assert Parent(i) != c; }
    } else {
      StopDown(less, s, lo, n, i, if 2 * i + 1 < n then ChildOf(less, s, n, i) else 0);
    }
  }

  lemma SettleMakesHeap(less: Compare, s: seq<PodInfo>, n: int, i: int)
    requires StrictWeakOrder(less) && 0 <= i < n <= |s| && DownReady(less, s, 0, n, i)
    ensures HeapFrom(less, Settle(less, s, n, i), 0, n)
  {
    SiftDownOrders(less, s, 0, n, i);
    if !Sinks(less, s, n, i) { SiftUpMakesHeap(less, s, n, i); }
  }

  lemma PushKeepsHeap(less: Compare, s: seq<PodInfo>, x: PodInfo)
    requires StrictWeakOrder(less) && Heap(less, s)
    ensures Heap(less, PushSeq(less, s, x))
  {
    forall k | 1 <= k < |s| ensures Fine(less, s + [x], k) { assert Fine(less, s, k); }
    SiftUpMakesHeap(less, s + [x], |s| + 1, |s|);
  }

  lemma RemoveKeepsHeap(less: Compare, s: seq<PodInfo>, i: int)
    requires StrictWeakOrder(less) && Heap(less, s) && 0 <= i < |s|
    ensures Heap(less, RemoveSeq(less, s, i))
  {
    hide Settle, DownReady, StrictWeakOrder;
    var n := |s| - 1;
    var t := EndSeq(less, s, i);
    if i < n {
      ReplaceReady(less, s, Swapped(s, i, n), n, i);
      SettleMakesHeap(less, Swapped(s, i, n), n, i);
    }
    forall k | 1 <= k < n ensures Fine(less, t[..n], k) { assert Fine(less, t, k); }
  }

  lemma FixKeepsHeap(less: Compare, s: seq<PodInfo>, i: int, x: PodInfo)
    requires StrictWeakOrder(less) && Heap(less, s) && 0 <= i < |s|
    ensures Heap(less, Settle(less, s[i := x], |s|, i))
  {
    ReplaceReady(less, s, s[i := x], |s|, i);
    SettleMakesHeap(less, s[i := x], |s|, i);
  }

  lemma {:induction false} InitMakesHeap(less: Compare, s: seq<PodInfo>, i: nat)
    requires StrictWeakOrder(less) && i <= |s| && HeapFrom(less, s, i, |s|)
    ensures Heap(less, InitSeq(less, s, i))
    decreases i
  {
    if i > 0 {
      SiftDownOrders(less, s, i - 1, |s|, i - 1);
      InitMakesHeap(less, SiftDown(less, s, |s|, i - 1), i - 1);
    }
  }

  lemma {:induction false} HalfInitMakesHeap(less: Compare, s: seq<PodInfo>)
    requires StrictWeakOrder(less)
    ensures Heap(less, InitSeq(less, s, |s| / 2))
  {
    InitMakesHeap(less, s, |s| / 2);
  }
}
