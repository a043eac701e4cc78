// The indexed heap under the priority queue as a value: a list of keys, and a map from keys to items
// that know their own position (`rawPriorityQueue` in pkg/queue/priority_queue.go). The sequence of
// manifests it stands for is the heap of HeapOrder; what is shown here is that keys, items and
// back-indices keep in step with it, and when they do not.

module RawQueue {
  import opened Prelude
  import opened Pods
  import opened HeapOrder

  datatype Item = Item(pod: V1Pod, index: int)

  datatype Raw = Raw(items: map<Key, Item>, keys: seq<Key>)
  {
    /** Every key listed has an item. */
    ghost predicate Indexable() {
      forall i :: 0 <= i < |keys| ==> keys[i] in items
    }

    /** A pod exists in keys iff it also exists in items, once, and items know their positions. */
    ghost predicate Valid() {
      && Indexable()
      && (forall i :: 0 <= i < |keys| ==> items[keys[i]].index == i)
      && (forall k :: k in items ==> 0 <= items[k].index < |keys| && keys[items[k].index] == k)
      && (forall k :: k in items ==> PodKey(items[k].pod.info) == Some(k))
    }

    ghost function Contents(): map<Key, V1Pod> {
      map k | k in items :: items[k].pod
    }

    /** The manifests in heap position order. */
    function Infos(): (s: seq<PodInfo>)
      requires Indexable()
      ensures |s| == |keys|
      ensures forall i :: 0 <= i < |keys| ==> s[i] == items[keys[i]].pod.info
    {
      seq(|keys|, i requires 0 <= i < |keys| => items[keys[i]].pod.info)
    }

    predicate Less(less: Compare, i: int, j: int)
      requires Indexable() && 0 <= i < |keys| && 0 <= j < |keys|
    {
      less(items[keys[i]].pod.info, items[keys[j]].pod.info)
    }

    function Moved(i: int): Raw
      requires Indexable() && 0 <= i < |keys|
    {
      Raw(items[keys[i] := items[keys[i]].(index := i)], keys)
    }

    /** `Swap`. */
    function Swap(i: int, j: int): (r: Raw)
      requires Indexable() && 0 <= i < |keys| && 0 <= j < |keys|
      ensures r.Indexable() && r.keys == Swapped(keys, i, j)
    {
      Raw(items, Swapped(keys, i, j)).Moved(i).Moved(j)
    }

    /** The child of `i` that beats it and its sibling, or `i` itself. */
    function BetterChild(less: Compare, n: int, i: int): (c: int)
      requires Indexable() && 0 <= i < |keys| && n <= |keys|
      ensures c == i || i < c < n
    {
      if 2 * i + 1 >= n then i else
        var c := if 2 * i + 2 < n && Less(less, 2 * i + 2, 2 * i + 1) then 2 * i + 2 else 2 * i + 1;
        if Less(less, c, i) then c else i
    }

    function Down(less: Compare, n: int, i: int): (r: Raw)
      requires Indexable() && 0 <= i < |keys| && n <= |keys|
      ensures r.Indexable() && |r.keys| == |keys|
      decreases |keys| - i
    {
      var c := BetterChild(less, n, i);
      if c == i then this else Swap(i, c).Down(less, n, c)
    }

    function Up(less: Compare, j: int): (r: Raw)
      requires Indexable() && 0 <= j < |keys|
      ensures r.Indexable() && |r.keys| == |keys|
      decreases j
    {
      var i := if j == 0 then 0 else (j - 1) / 2;
      if i == j || !Less(less, j, i) then this else Swap(i, j).Up(less, i)
    }

    function Settle(less: Compare, n: int, i: int): (r: Raw)
      requires Indexable() && 0 <= i < n <= |keys|
      ensures r.Indexable() && |r.keys| == |keys|
    {
      if BetterChild(less, n, i) != i then Down(less, n, i) else Up(less, i)
    }

    /** `Push`, the heap.Interface method: append only. */
    function Append(key: Key, pod: V1Pod): (r: Raw)
      requires Indexable()
      ensures r.Indexable()
    {
      Raw(items[key := Item(pod, |items|)], keys + [key])
    }

    /** `Pop`, the heap.Interface method: drop the last key and its item. */
    function DropLast(): Raw
      requires keys != []
    {
      Raw(items - {keys[|keys| - 1]}, keys[..|keys| - 1])
    }

    /** `heap.Push`. */
    function Push(less: Compare, key: Key, pod: V1Pod): (r: Raw)
      requires Indexable()
      ensures r.Indexable()
    {
      Append(key, pod).Up(less, |keys|)
    }

    /** `heap.Remove` up to its final Pop; `heap.Pop` is the case of position 0. */
    function ToEnd(less: Compare, i: int): (r: Raw)
      requires Indexable() && 0 <= i < |keys|
      ensures r.Indexable() && |r.keys| == |keys|
    {
      var n := |keys| - 1;
      if i == n then this else Swap(i, n).Settle(less, n, i)
    }

    /** Assigning another manifest to an item. */
    function Replace(key: Key, pod: V1Pod): (r: Raw)
      requires Indexable() && key in items
      ensures r.Indexable()
    {
      Raw(items[key := items[key].(pod := pod)], keys)
    }

    /** `heap.Init`, from position `i - 1` down. */
    function Init(less: Compare, i: nat): (r: Raw)
      requires Indexable() && i <= |keys|
      ensures r.Indexable()
      decreases i
    {
      if i == 0 then this else Down(less, |keys|, i - 1).Init(less, i - 1)
    }
  }

  /** Swapping the first key to the end and sifting down is what removal does at position 0. */
  lemma PopIsRemoval(less: Compare, h: Raw)
    requires h.Valid() && h.keys != []
    ensures h.Indexable() && h.Swap(0, |h.keys| - 1).Down(less, |h.keys| - 1, 0) == h.ToEnd(less, 0)
  {
    if |h.keys| == 1 {
      assert Swapped(h.keys, 0, 0) == h.keys;
      assert h.Swap(0, 0).items == h.items;
    }
  }

  /** Position changes keep the contents, the number of keys, and validity. */
  ghost predicate Rearranged(h: Raw, r: Raw) {
    && h.Indexable() && r.Indexable()
    && |r.keys| == |h.keys|
    && SamePods(h, r)
    && (h.Valid() ==> r.Valid())
  }

  ghost predicate SamePods(h: Raw, r: Raw) {
    r.items.Keys == h.items.Keys && forall k :: k in h.items ==> r.items[k].pod == h.items[k].pod
  }

  lemma RearrangedTransitive(h: Raw, s: Raw, r: Raw)
    requires Rearranged(h, s) && Rearranged(s, r)
    ensures Rearranged(h, r)
  {
  }

  lemma RearrangedSelf(h: Raw)
    requires h.Indexable()
    ensures Rearranged(h, h)
  {
  }

  lemma SwapFacts(h: Raw, i: int, j: int)
    requires h.Indexable() && 0 <= i < |h.keys| && 0 <= j < |h.keys|
    ensures Rearranged(h, h.Swap(i, j)) && h.Swap(i, j).Infos() == Swapped(h.Infos(), i, j)
  {
    SwapRearranges(h, i, j);
    SwapInfos(h, i, j);
  }

  lemma SwapInfos(h: Raw, i: int, j: int)
    requires h.Indexable() && 0 <= i < |h.keys| && 0 <= j < |h.keys|
    ensures h.Swap(i, j).Infos() == Swapped(h.Infos(), i, j)
  {
    hide Raw.Valid;
  }

  lemma SwapRearranges(h: Raw, i: int, j: int)
    requires h.Indexable() && 0 <= i < |h.keys| && 0 <= j < |h.keys|
    ensures Rearranged(h, h.Swap(i, j))
  {
    hide Raw.Infos;
  }

  lemma BetterChildFacts(less: Compare, h: Raw, n: int, i: int)
    requires h.Indexable() && 0 <= i < |h.keys| && n <= |h.keys|
    ensures h.BetterChild(less, n, i) ==
      if Sinks(less, h.Infos(), n, i) then ChildOf(less, h.Infos(), n, i) else i
  {
  }

  lemma {:induction false} DownFacts(less: Compare, h: Raw, n: int, i: int)
    requires h.Indexable() && 0 <= i < |h.keys| && 0 <= n <= |h.keys|
    ensures var r := h.Down(less, n, i);
      Rearranged(h, r) && r.Infos() == SiftDown(less, h.Infos(), n, i) && r.keys[n..] == h.keys[n..]
    decreases |h.keys| - i
  {
    hide Rearranged;
    var c := h.BetterChild(less, n, i);
    BetterChildFacts(less, h, n, i);
    if c != i {
      SwapFacts(h, i, c);
      DownFacts(less, h.Swap(i, c), n, c);
      RearrangedTransitive(h, h.Swap(i, c), h.Down(less, n, i));
    } else {
      RearrangedSelf(h);
    }
  }

  lemma {:induction false} UpFacts(less: Compare, h: Raw, j: int)
    requires h.Indexable() && 0 <= j < |h.keys|
    ensures var r := h.Up(less, j);
      Rearranged(h, r) && r.Infos() == SiftUp(less, h.Infos(), j) && r.keys[j + 1..] == h.keys[j + 1..]
    decreases j
  {
    hide Rearranged;
    var i := if j == 0 then 0 else (j - 1) / 2;
    if i == j || !h.Less(less, j, i) {
      RearrangedSelf(h);
    } else {
      SwapFacts(h, i, j);
      UpFacts(less, h.Swap(i, j), i);
      var r := h.Up(less, j);
      RearrangedTransitive(h, h.Swap(i, j), r);
      assert r.keys[j + 1..] == r.keys[i + 1..][j - i..];
    }
  }

  lemma SettleFacts(less: Compare, h: Raw, n: int, i: int)
    requires h.Indexable() && 0 <= i < n <= |h.keys|
    ensures var r := h.Settle(less, n, i);
      Rearranged(h, r) && r.Infos() == HeapOrder.Settle(less, h.Infos(), n, i) && r.keys[n..] == h.keys[n..]
  {
    BetterChildFacts(less, h, n, i);
    if h.BetterChild(less, n, i) != i {
      DownFacts(less, h, n, i);
    } else {
      UpFacts(less, h, i);
      var r := h.Up(less, i);
      assert r.keys[n..] == r.keys[i + 1..][n - i - 1..];
    }
  }

  // ----- Whole operations -----

  lemma {:induction false} PositionsCount(keys: seq<Key>)
    requires Distinct(keys)
    ensures |set i | 0 <= i < |keys| :: keys[i]| == |keys|
  {
    var s := set i | 0 <= i < |keys| :: keys[i];
    if keys == [] {
      assert s == {};
    } else {
      var init := keys[..|keys| - 1];
      PositionsCount(init);
      assert s == (set i | 0 <= i < |init| :: init[i]) + {keys[|keys| - 1]};
    }
  }

  lemma ValidCounts(h: Raw)
    requires h.Valid()
    ensures |h.items| == |h.keys|
  {
    assert (set i | 0 <= i < |h.keys| :: h.keys[i]) == h.items.Keys;
    PositionsCount(h.keys);
  }

  lemma AppendFresh(h: Raw, key: Key, pod: V1Pod)
    requires h.Valid() && PodKey(pod.info) == Some(key) && key !in h.items
    ensures h.Append(key, pod).Valid()
  {
    var a := h.Append(key, pod);
    ValidCounts(h);
    forall k | k in a.items ensures 0 <= a.items[k].index < |a.keys| && a.keys[a.items[k].index] == k {
      assert k != key ==> h.keys[h.items[k].index] == k;
    }
  }

  lemma AppendInfos(h: Raw, key: Key, pod: V1Pod)
    requires h.Indexable() && key !in h.items
    ensures h.Append(key, pod).Infos() == h.Infos() + [pod.info]
  {
  }

  lemma AppendContents(h: Raw, key: Key, pod: V1Pod)
    requires h.Indexable()
    ensures h.Append(key, pod).Contents() == h.Contents()[key := pod]
  {
  }

  lemma PushFresh(less: Compare, h: Raw, key: Key, pod: V1Pod)
    requires h.Valid() && PodKey(pod.info) == Some(key) && key !in h.items
    ensures var r := h.Push(less, key, pod);
      r.Valid() && r.Contents() == h.Contents()[key := pod] && r.Infos() == PushSeq(less, h.Infos(), pod.info)
  {
    var a := h.Append(key, pod);
    AppendFresh(h, key, pod);
    AppendInfos(h, key, pod);
    AppendContents(h, key, pod);
    UpFacts(less, a, |h.keys|);
    RearrangedKeeps(a, a.Up(less, |h.keys|));
  }

  lemma RearrangedSize(h: Raw, r: Raw)
    requires Rearranged(h, r) && r.Valid()
    ensures |h.keys| == |h.items|
  {
    ValidCounts(r);
    assert |r.items| == |r.items.Keys| && |h.items| == |h.items.Keys|;
  }

  /** Pushing a key that is already queued always breaks the keys/items invariant. */
  lemma PushStale(less: Compare, h: Raw, key: Key, pod: V1Pod)
    requires h.Valid() && key in h.items
    ensures !h.Push(less, key, pod).Valid()
  {
    var a := h.Append(key, pod);
    ValidCounts(h);
    assert a.items.Keys == h.items.Keys;
    assert |a.items| == |a.items.Keys| && |h.items| == |h.items.Keys|;
    UpFacts(less, a, |h.keys|);
    if h.Push(less, key, pod).Valid() { RearrangedSize(a, a.Up(less, |h.keys|)); }
  }

  lemma SwapThenSettle(less: Compare, h: Raw, i: nat, n: nat)
    requires h.Indexable() && i < n < |h.keys|
    ensures var e := h.Swap(i, n).Settle(less, n, i);
      && Rearranged(h, e) && e.keys[n] == h.keys[i]
      && e.Infos() == HeapOrder.Settle(less, Swapped(h.Infos(), i, n), n, i)
  {
    hide Rearranged;
    var s := h.Swap(i, n);
    SwapFacts(h, i, n);
    SettleFacts(less, s, n, i);
    RearrangedTransitive(h, s, s.Settle(less, n, i));
    assert s.Settle(less, n, i).keys[n] == s.Settle(less, n, i).keys[n..][0] == s.keys[n..][0];
  }

  /** Removal moves the removed key, and only it, to the end. */
  lemma ToEndFacts(less: Compare, h: Raw, i: nat)
    requires h.Indexable() && i < |h.keys|
    ensures var e := h.ToEnd(less, i);
      Rearranged(h, e) && e.keys[|h.keys| - 1] == h.keys[i] && e.Infos() == EndSeq(less, h.Infos(), i)
  {
    hide Rearranged, Raw.Settle, HeapOrder.Settle;
    if i == |h.keys| - 1 { RearrangedSelf(h); } else { SwapThenSettle(less, h, i, |h.keys| - 1); }
  }

  lemma SameLength(h: Raw, r: Raw)
    requires Rearranged(h, r)
    ensures |r.keys| == |h.keys|
  {
  }

  lemma RearrangedKeeps(h: Raw, r: Raw)
    requires Rearranged(h, r) && h.Valid()
    ensures r.Valid() && r.Contents() == h.Contents()
  {
  }

  /** Removing a position removes exactly its key. */
  lemma RemoveFacts(less: Compare, h: Raw, i: nat)
    requires h.Valid() && i < |h.keys|
    ensures var e := h.ToEnd(less, i); var r := e.DropLast();
      && e.Valid() && e.Contents() == h.Contents() && |e.keys| == |h.keys| && e.keys[|h.keys| - 1] == h.keys[i]
      && r.Valid() && r.Contents() == h.Contents() - {h.keys[i]}
      && r.Infos() == RemoveSeq(less, h.Infos(), i)
  {
    hide Rearranged, Raw.ToEnd, Raw.DropLast, Raw.Contents, EndSeq;
    var e := h.ToEnd(less, i);
    ToEndFacts(less, h, i);
    RearrangedKeeps(h, e);
    SameLength(h, e);
    DropFacts(e);
  }

  lemma DropPods(h: Raw)
    requires h.Valid() && h.keys != [] && h.DropLast().Indexable()
    ensures var r := h.DropLast(); var n := |h.keys| - 1;
      r.Contents() == h.Contents() - {h.keys[n]} && r.Infos() == h.Infos()[..n]
  {
  }

  lemma DropFacts(h: Raw)
    requires h.Valid() && h.keys != []
    ensures var r := h.DropLast(); var n := |h.keys| - 1;
      r.Valid() && r.Contents() == h.Contents() - {h.keys[n]} && r.Infos() == h.Infos()[..n]
  {
    hide Raw.Infos, Raw.Contents;
    var r := h.DropLast();
    DropPods(h);
    assert r.Indexable();
    forall k | k in r.items ensures 0 <= r.items[k].index < |r.keys| && r.keys[r.items[k].index] == k {
      assert k in h.items;
    }
  }

  lemma UpdateFacts(less: Compare, h: Raw, key: Key, pod: V1Pod)
    requires h.Valid() && key in h.items && PodKey(pod.info) == Some(key)
    ensures var i := h.items[key].index; var r := h.Replace(key, pod).Settle(less, |h.keys|, i);
      && r.Valid() && r.Contents() == h.Contents()[key := pod]
      && r.Infos() == HeapOrder.Settle(less, h.Infos()[i := pod.info], |h.keys|, i)
  {
    var a, i := h.Replace(key, pod), h.items[key].index;
    assert a.Valid();
    assert a.Contents() == h.Contents()[key := pod];
    assert a.Infos() == h.Infos()[i := pod.info];
    SettleFacts(less, a, |h.keys|, i);
    RearrangedKeeps(a, a.Settle(less, |h.keys|, i));
  }

  lemma {:induction false} InitFacts(less: Compare, h: Raw, i: nat)
    requires h.Indexable() && i <= |h.keys|
    ensures var r := h.Init(less, i);
      Rearranged(h, r) && r.Infos() == InitSeq(less, h.Infos(), i)
    decreases i
  {
    hide Rearranged, Raw.Down, SiftDown;
    if i == 0 {
      RearrangedSelf(h);
    } else {
      var d := h.Down(less, |h.keys|, i - 1);
      DownFacts(less, h, |h.keys|, i - 1);
      InitFacts(less, d, i - 1);
      RearrangedTransitive(h, d, h.Init(less, i));
    }
  }

  // ----- Reorder -----

  /** What `Reorder` starts its heap from: items numbered in one iteration order of a map, keys listed in
      another. */
  ghost predicate Renumbered(h: Raw) {
    && h.Indexable()
    && (forall k :: k in h.items ==> k in h.keys && PodKey(h.items[k].pod.info) == Some(k))
    && Distinct(h.keys)
    && (forall k :: k in h.items ==> 0 <= h.items[k].index < |h.keys|)
    && (forall k, l :: k in h.items && l in h.items && k != l ==> h.items[k].index != h.items[l].index)
  }

  /** Whatever the two orders, the reordered queue is a heap of the same pods. */
  lemma ReorderFacts(less: Compare, h: Raw)
    requires Renumbered(h) && StrictWeakOrder(less)
    ensures var r := h.Init(less, |h.keys| / 2);
      Heap(less, r.Infos()) && r.Contents() == h.Contents()
  {
    InitFacts(less, h, |h.keys| / 2);
    HalfInitMakesHeap(less, h.Infos());
    SamePodsContents(h, h.Init(less, |h.keys| / 2));
  }

  lemma SamePodsContents(h: Raw, r: Raw)
    requires SamePods(h, r)
    ensures r.Contents() == h.Contents()
  {
  }

  /** If the two orders coincide, the items of the reordered queue know their positions. */
  lemma ReorderAligned(less: Compare, h: Raw)
    requires Renumbered(h) && forall i :: 0 <= i < |h.keys| ==> h.items[h.keys[i]].index == i
    ensures h.Init(less, |h.keys| / 2).Valid()
  {
    hide Raw.Init, Rearranged, Raw.Infos;
    assert forall k :: k in h.items ==> k in h.keys;
    assert h.Valid();
    InitFacts(less, h, |h.keys| / 2);
    RearrangedKeeps(h, h.Init(less, |h.keys| / 2));
  }

  /** The item of the key at position `p` knows its position. */
  ghost predicate Aligned(h: Raw, p: int)
    requires h.Indexable() && 0 <= p < |h.keys|
  {
    h.items[h.keys[p]].index == p
  }

  /** Swapping tells the two items their positions, and no others. */
  lemma SwapAligns(h: Raw, i: int, j: int)
    requires h.Indexable() && Distinct(h.keys) && 0 <= i < |h.keys| && 0 <= j < |h.keys|
    ensures Distinct(h.Swap(i, j).keys)
    ensures forall p :: 0 <= p < |h.keys| ==> (Aligned(h.Swap(i, j), p) <==> p == i || p == j || Aligned(h, p))
  {
  }

  lemma {:induction false} DownAligns(less: Compare, h: Raw, n: int, i: int)
    requires h.Indexable() && Distinct(h.keys) && 0 <= i < |h.keys| && 0 <= n <= |h.keys|
    ensures var r := h.Down(less, n, i);
      && Distinct(r.keys)
      && forall p :: 0 <= p < |h.keys| ==> (Aligned(r, p) <==> p in SiftMoves(less, h.Infos(), n, i) || Aligned(h, p))
    decreases |h.keys| - i
  {
    hide Aligned, Distinct;
    var c := h.BetterChild(less, n, i);
    BetterChildFacts(less, h, n, i);
    if c != i {
      SwapFacts(h, i, c);
      SwapAligns(h, i, c);
      DownAligns(less, h.Swap(i, c), n, c);
    }
  }

  lemma {:induction false} InitAligns(less: Compare, h: Raw, i: nat)
    requires h.Indexable() && Distinct(h.keys) && i <= |h.keys|
    ensures var r := h.Init(less, i);
      && |r.keys| == |h.keys| && Distinct(r.keys)
      && forall p :: 0 <= p < |h.keys| ==> (Aligned(r, p) <==> p in InitMoves(less, h.Infos(), i) || Aligned(h, p))
    decreases i
  {
    hide Aligned, Distinct, Rearranged, Raw.Down, SiftDown;
    if i > 0 {
      DownFacts(less, h, |h.keys|, i - 1);
      DownAligns(less, h, |h.keys|, i - 1);
      InitAligns(less, h.Down(less, |h.keys|, i - 1), i - 1);
    }
  }

  /** With distinct keys, one for each item, validity is that every item knows its position. */
  lemma ValidIsAligned(h: Raw)
    requires h.Indexable() && Distinct(h.keys)
    requires forall k :: k in h.items ==> k in h.keys && PodKey(h.items[k].pod.info) == Some(k)
    ensures h.Valid() <==> forall p :: 0 <= p < |h.keys| ==> Aligned(h, p)
  {
    if h.Valid() {
      assert forall p :: 0 <= p < |h.keys| ==> Aligned(h, p);
    }
    if forall p :: 0 <= p < |h.keys| ==> Aligned(h, p) {
      forall k | k in h.items ensures 0 <= h.items[k].index < |h.keys| && h.keys[h.items[k].index] == k {
        var i :| 0 <= i < |h.keys| && h.keys[i] == k;
        assert Aligned(h, i);
      }
    }
  }

  lemma SameKeys(h: Raw, r: Raw)
    requires Renumbered(h) && Rearranged(h, r) && Distinct(r.keys)
    ensures forall k :: k in r.items ==> k in r.keys && PodKey(r.items[k].pod.info) == Some(k)
  {
    var s := set i | 0 <= i < |r.keys| :: r.keys[i];
    PositionsCount(r.keys);
    PositionsCount(h.keys);
    assert (set i | 0 <= i < |h.keys| :: h.keys[i]) == h.items.Keys;
    assert s <= r.items.Keys;
    SubsetOfSize(s, r.items.Keys);
  }

  lemma SubsetOfSize<T>(a: set<T>, b: set<T>)
    requires a <= b && |a| == |b|
    ensures a == b
  {
    if exists x :: x in b && x !in a {
      var x :| x in b && x !in a;
      assert a <= b - {x};
      SubsetSize(a, b - {x});
    }
  }

  lemma {:induction false} SubsetSize<T>(a: set<T>, b: set<T>)
    requires a <= b
    ensures |a| <= |b|
    decreases |a|
  {
    if a != {} {
      var x :| x in a;
      SubsetSize(a - {x}, b - {x});
    }
  }

  /** THEOREM.  Whatever the two iteration orders, the reordered queue is valid if and only if every
      position that the sifting does not swap already held the item numbered for it. */
  lemma ReorderValidIff(less: Compare, h: Raw)
    requires Renumbered(h)
    ensures h.Init(less, |h.keys| / 2).Valid() <==>
      forall p :: 0 <= p < |h.keys| && p !in InitMoves(less, h.Infos(), |h.keys| / 2) ==> h.items[h.keys[p]].index == p
  {
    var r := h.Init(less, |h.keys| / 2);
    InitFacts(less, h, |h.keys| / 2);
    InitAligns(less, h, |h.keys| / 2);
    SameKeys(h, r);
    ValidIsAligned(r);
    RenumberedAligned(h, r, InitMoves(less, h.Infos(), |h.keys| / 2));
  }

  lemma RenumberedAligned(h: Raw, r: Raw, moves: set<int>)
    requires h.Indexable() && r.Indexable() && |r.keys| == |h.keys|
    requires forall p :: 0 <= p < |h.keys| ==> (Aligned(r, p) <==> p in moves || Aligned(h, p))
    ensures (forall p :: 0 <= p < |h.keys| ==> Aligned(r, p)) <==>
      forall p :: 0 <= p < |h.keys| && p !in moves ==> h.items[h.keys[p]].index == p
  {
  }

  /** Two pods listed in the order opposite to their numbering: the reordered queue is valid if and only
      if the pod listed second beats the first, so that they are swapped.  Otherwise deleting the second
      takes out the first one's position, and a key without a pod is left queued. */
  lemma ReorderMisaligned(less: Compare, a: Key, b: Key, first: V1Pod, second: V1Pod)
    requires a != b && PodKey(first.info) == Some(a) && PodKey(second.info) == Some(b)
    requires StrictWeakOrder(less)
    ensures var h := Misaligned(a, b, first, second); var r := h.Init(less, 1);
      && h == Raw(map[a := Item(first, 1), b := Item(second, 0)], [a, b]) && Renumbered(h)
      && (r.Valid() <==> less(second.info, first.info))
      && (!less(second.info, first.info) ==>
           r.items[b].index == 0
           && Raw(r.ToEnd(less, 0).DropLast().items - {b}, r.ToEnd(less, 0).DropLast().keys) == Raw(map[], [b]))
  {
    hide Raw.Init, Raw.ToEnd, Raw.DropLast;
    if less(second.info, first.info) {
      MisalignedSwapped(less, a, b, first, second);
    } else {
      MisalignedKept(less, a, b, first, second);
    }
  }

  function Misaligned(a: Key, b: Key, first: V1Pod, second: V1Pod): (h: Raw)
    requires a != b
    ensures h.Indexable()
  {
    Raw(map[a := Item(first, 1), b := Item(second, 0)], [a, b])
  }

  lemma MisalignedSwapped(less: Compare, a: Key, b: Key, first: V1Pod, second: V1Pod)
    requires a != b && PodKey(first.info) == Some(a) && PodKey(second.info) == Some(b)
    requires less(second.info, first.info)
    ensures Misaligned(a, b, first, second).Init(less, 1).Valid()
  {
    var h := Misaligned(a, b, first, second);
    assert h.keys[0] == a && h.keys[1] == b;
    var s := h.Swap(0, 1);
    assert h.Init(less, 1) == h.Down(less, 2, 0) == s.Down(less, 2, 1) == s;
    assert s.keys == [b, a];
    assert s.items == map[a := Item(first, 1), b := Item(second, 0)];
  }

  lemma MisalignedKept(less: Compare, a: Key, b: Key, first: V1Pod, second: V1Pod)
    requires a != b && !less(second.info, first.info)
    ensures var r := Misaligned(a, b, first, second).Init(less, 1);
      && r == Misaligned(a, b, first, second) && !r.Valid()
      && Raw(r.ToEnd(less, 0).DropLast().items - {b}, r.ToEnd(less, 0).DropLast().keys) == Raw(map[], [b])
  {
    var h := Misaligned(a, b, first, second);
    assert h.keys[0] == a && h.keys[1] == b;
    assert h.Init(less, 1) == h.Down(less, 2, 0) == h;
    var s := h.Swap(0, 1);
    assert s.keys == [b, a];
    assert s.BetterChild(less, 1, 0) == 0;
    var e := h.ToEnd(less, 0);
    assert e == s.Settle(less, 1, 0) == s;
    assert e.DropLast().keys == [b];
    assert e.DropLast().items - {b} == map[];
  }
}
