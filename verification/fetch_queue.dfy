/** The fetcher's pending queue (`FetchQueue` in floors/fetcher.go) driven by
    Go's `container/heap`: a binary min-heap on `FetchTime` stored in a
    sequence, with `heap.Push` = append then sift up and `heap.Pop` = swap
    the root with the last slot, sift down over the rest, remove the last. */
module FetchQueue {
  import opened Base
  import opened PriceFloors

  /** A queued fetch (`FetchInfo`): the spec, the Unix time before which it
      must not run, and whether it is a periodic refetch. */
  datatype FetchInfo = FetchInfo(spec: FetchSpec, fetchTime: int, refetch: bool)

  type Queue = seq<FetchInfo>

  function Parent(i: nat): nat
    requires i > 0
  {
    (i - 1) / 2
  }

  /** `FetchQueue.Less`: ordering by fetch time only. */
  predicate Less(q: Queue, i: nat, j: nat)
    requires i < |q| && j < |q|
  {
    q[i].fetchTime < q[j].fetchTime
  }

  /** `FetchQueue.Swap`. */
  function Swap(q: Queue, i: nat, j: nat): (r: Queue)
    requires i < |q| && j < |q|
    ensures |r| == |q| && r[i] == q[j] && r[j] == q[i]
    ensures forall k :: 0 <= k < |q| && k != i && k != j ==> r[k] == q[k]
    ensures multiset(r) == multiset(q)
  {
    q[i := q[j]][j := q[i]]
  }

  /** The heap order over the first `n` slots. */
  predicate IsHeapPrefix(q: Queue, n: nat)
    requires n <= |q|
  {
    forall k :: 0 < k < n ==> q[Parent(k)].fetchTime <= q[k].fetchTime
  }

  predicate IsHeap(q: Queue)
  {
    IsHeapPrefix(q, |q|)
  }

  /** Heap order everywhere except between `j` and its parent; the parent of
      `j` is still no later than `j`'s children (sift-up invariant). */
  predicate HeapExceptUp(q: Queue, j: nat)
    requires j < |q|
  {
    && (forall k :: 0 < k < |q| && k != j ==> q[Parent(k)].fetchTime <= q[k].fetchTime)
    && (j > 0 ==> forall k :: 0 < k < |q| && Parent(k) == j ==> q[Parent(j)].fetchTime <= q[k].fetchTime)
  }

  /** Heap order over the first `n` slots except between `i` and its
      children; `i`'s parent is no later than those children (sift-down
      invariant). */
  predicate HeapExceptDown(q: Queue, i: nat, n: nat)
    requires i < |q| && n <= |q|
  {
    && (forall k :: 0 < k < n && Parent(k) != i ==> q[Parent(k)].fetchTime <= q[k].fetchTime)
    && (i > 0 ==> forall k :: 0 < k < n && Parent(k) == i ==> q[Parent(i)].fetchTime <= q[k].fetchTime)
  }

  /** `container/heap.up`: move the element at `j` towards the root while it
      is due strictly earlier than its parent. */
  function Up(q: Queue, j: nat): (r: Queue)
    requires j < |q| && HeapExceptUp(q, j)
    ensures |r| == |q| && IsHeap(r) && multiset(r) == multiset(q)
    decreases j
  {
    if j == 0 then q
    else
      var i := Parent(j);
      if !Less(q, j, i) then q
      else Up(Swap(q, i, j), i)
  }

  /** `container/heap.down`: move the element at `i` away from the root,
      within the first `n` slots, while a child is due strictly earlier. */
  function Down(q: Queue, i: nat, n: nat): (r: Queue)
    requires i < |q| && n <= |q| && HeapExceptDown(q, i, n)
    ensures |r| == |q| && IsHeapPrefix(r, n) && multiset(r) == multiset(q)
    ensures forall k :: n <= k < |q| ==> r[k] == q[k]
    decreases n - i
  {
    var j1 := 2 * i + 1;
    if j1 >= n then q
    else
      var j := if j1 + 1 < n && Less(q, j1 + 1, j1) then j1 + 1 else j1;
      EarliestChild(q, i, n, j);
      if !Less(q, j, i) then
        DownSettled(q, i, n, j);
        q
      else
        DownSwapped(q, i, n, j);
        Down(Swap(q, i, j), j, n)
  }

  /** The child of `i` that `Down` picks is due no later than any other
      child of `i`. */
  lemma EarliestChild(q: Queue, i: nat, n: nat, j: nat)
    requires n <= |q| && 2 * i + 1 < n
    requires j == if 2 * i + 2 < n && Less(q, 2 * i + 2, 2 * i + 1) then 2 * i + 2 else 2 * i + 1
    ensures 0 < j < n && Parent(j) == i
    ensures forall k :: 0 < k < n && Parent(k) == i ==> q[j].fetchTime <= q[k].fetchTime
  {
    forall k | 0 < k < n && Parent(k) == i
      ensures q[j].fetchTime <= q[k].fetchTime
    {
      assert k == 2 * i + 1 || k == 2 * i + 2;
    }
  }

  /** Sift-down stops: `i` is due no later than its earliest child. */
  lemma DownSettled(q: Queue, i: nat, n: nat, j: nat)
    requires i < |q| && n <= |q| && HeapExceptDown(q, i, n)
    requires 0 < j < n && Parent(j) == i && q[i].fetchTime <= q[j].fetchTime
    requires forall k :: 0 < k < n && Parent(k) == i ==> q[j].fetchTime <= q[k].fetchTime
    ensures IsHeapPrefix(q, n)
  {
  }

  /** Swapping `i` with its earliest child `j` moves the hole down to `j`. */
  lemma DownSwapped(q: Queue, i: nat, n: nat, j: nat)
    requires i < |q| && n <= |q| && HeapExceptDown(q, i, n)
    requires 0 < j < n && Parent(j) == i && q[j].fetchTime < q[i].fetchTime
    requires forall k :: 0 < k < n && Parent(k) == i ==> q[j].fetchTime <= q[k].fetchTime
    ensures HeapExceptDown(Swap(q, i, j), j, n)
  {
    var r := Swap(q, i, j);
    forall k | 0 < k < n && Parent(k) != j
      ensures r[Parent(k)].fetchTime <= r[k].fetchTime
    {
      if k == j {
      } else if Parent(k) == i {
      } else if k == i {
      } else {
        assert r[Parent(k)] == q[Parent(k)] && r[k] == q[k];
      }
    }
    forall k | 0 < k < n && Parent(k) == j
      ensures r[Parent(j)].fetchTime <= r[k].fetchTime
    {
      assert k != i && k != j;
      assert r[k] == q[k];
    }
  }

  /** `heap.Push`: the queue gains exactly `x` and stays a heap. */
  function Push(q: Queue, x: FetchInfo): (r: Queue)
    requires IsHeap(q)
    ensures IsHeap(r) && |r| == |q| + 1
    ensures multiset(r) == multiset(q) + multiset{x}
  {
    Up(q + [x], |q|)
  }

  /** `FetchQueue.Top`: the root, or nothing for an empty queue. */
  function Top(q: Queue): (r: Option<FetchInfo>)
    ensures r.None? <==> |q| == 0
    ensures r.Some? ==> r.value in q
  {
    if |q| == 0 then None else Some(q[0])
  }

  /** `heap.Pop`: returns the root and the remaining heap. */
  function Pop(q: Queue): (r: (FetchInfo, Queue))
    requires IsHeap(q) && |q| > 0
    ensures r.0 == q[0]
    ensures IsHeap(r.1) && |r.1| == |q| - 1
    ensures multiset(r.1) + multiset{r.0} == multiset(q)
  {
    var n := |q| - 1;
    var swapped := Swap(q, 0, n);
    var sifted := Down(swapped, 0, n);
    assert sifted == sifted[..n] + [sifted[n]];
    (sifted[n], sifted[..n])
  }

  /** The root of a heap is due no later than any queued entry. */
  lemma {:induction false} RootIsEarliest(q: Queue, k: nat)
    requires IsHeap(q) && k < |q|
    ensures q[0].fetchTime <= q[k].fetchTime
    decreases k
  {
    if k > 0 {
      RootIsEarliest(q, Parent(k));
    }
  }

  /** `Top` of a heap is an entry with the least fetch time. */
  lemma TopIsEarliest(q: Queue)
    requires IsHeap(q) && |q| > 0
    ensures forall e :: e in q ==> q[0].fetchTime <= e.fetchTime
  {
    forall e | e in q
      ensures q[0].fetchTime <= e.fetchTime
    {
      var k :| 0 <= k < |q| && q[k] == e;
      RootIsEarliest(q, k);
    }
  }
}
