/** The binary min-heap behind the proxy scheduler's lazy-deletion queue.
  *
  * An entry is the tuple (priority, ordinal, heap_seq, key) of the scheduler.  The order
  * below compares the first three components only; `ProxyPool.KeyNeverDecides` shows
  * that two different entries of a scheduler heap never tie on them.
  */
module ProxyHeap {

  datatype Entry = Entry(priority: real, ordinal: nat, stamp: nat, key: string)

  predicate Leq(a: Entry, b: Entry) {
    || a.priority < b.priority
    || (a.priority == b.priority && (a.ordinal < b.ordinal || (a.ordinal == b.ordinal && a.stamp <= b.stamp)))
  }

  function Parent(j: nat): (p: nat)
    requires 1 <= j
    ensures 2 * p + 1 <= j <= 2 * p + 2
  {
    (j - 1) / 2
  }

  /** Position `j` does not come before its parent. */
  predicate Edge(h: seq<Entry>, j: nat)
    requires 1 <= j < |h|
  {
    Leq(h[Parent(j)], h[j])
  }

  /** The heap order on the sub-heaps rooted at position `lo` and later. */
  ghost predicate HeapFrom(h: seq<Entry>, lo: nat) {
    forall j: nat {:trigger Edge(h, j)} :: 1 <= j < |h| && lo <= Parent(j) ==> Edge(h, j)
  }

  ghost predicate IsHeap(h: seq<Entry>) {
    HeapFrom(h, 0)
  }

  /** The heap order from `lo` on, except between `i` and its children. */
  ghost predicate HoleDown(h: seq<Entry>, lo: nat, i: nat) {
    && (forall j: nat {:trigger Edge(h, j)} ::
          1 <= j < |h| && lo <= Parent(j) && Parent(j) != i ==> Edge(h, j))
    && (forall j: nat {:trigger Edge(h, j)} ::
          1 <= j < |h| && Parent(j) == i && 1 <= i && lo <= Parent(i) ==> Leq(h[Parent(i)], h[j]))
  }

  /** The heap order except between `i` and its parent. */
  ghost predicate HoleUp(h: seq<Entry>, i: nat) {
    && (forall j: nat {:trigger Edge(h, j)} :: 1 <= j < |h| && j != i ==> Edge(h, j))
    && (forall j: nat {:trigger Edge(h, j)} ::
          1 <= j < |h| && 1 <= i && Parent(j) == i ==> Leq(h[Parent(i)], h[j]))
  }

  lemma {:induction false} RootIsLeast(h: seq<Entry>, i: nat)
    requires IsHeap(h) && i < |h|
    ensures Leq(h[0], h[i])
    decreases i
  {
    if i > 0 {
      RootIsLeast(h, Parent(i));
      assert Edge(h, i);
    }
  }

  function Swap(h: seq<Entry>, i: nat, j: nat): (r: seq<Entry>)
    requires i < |h| && j < |h|
    ensures |r| == |h| && multiset(r) == multiset(h)
  {
    h[i := h[j]][j := h[i]]
  }

  lemma SwapUp(h: seq<Entry>, i: nat)
    requires 1 <= i < |h| && HoleUp(h, i) && !Edge(h, i)
    ensures HoleUp(Swap(h, i, Parent(i)), Parent(i))
  {
    var p := Parent(i);
    var g := Swap(h, i, p);
    forall j: nat | 1 <= j < |g| && j != p ensures Edge(g, j) {
      assert j != i ==> Edge(h, j);
    }
    forall j: nat | 1 <= j < |g| && 1 <= p && Parent(j) == p ensures Leq(g[Parent(p)], g[j]) {
      assert Edge(h, p);
      assert j != i ==> Edge(h, j);
    }
  }

  lemma SwapDown(h: seq<Entry>, lo: nat, i: nat, child: nat)
    requires HoleDown(h, lo, i) && lo <= i && 1 <= child < |h| && Parent(child) == i
    requires !Edge(h, child)
    requires forall j: nat {:trigger Edge(h, j)} :: 1 <= j < |h| && Parent(j) == i ==> Leq(h[child], h[j])
    ensures HoleDown(Swap(h, i, child), lo, child)
  {
    var g := Swap(h, i, child);
    forall j: nat | 1 <= j < |g| && lo <= Parent(j) && Parent(j) != child ensures Edge(g, j) {
      if Parent(j) == i {
        assert Edge(h, j) || Leq(h[child], h[j]);
      } else if j == i {
        assert Edge(h, child) || Leq(h[Parent(i)], h[child]);
      } else {
        assert Edge(h, j);
      }
    }
    forall j: nat | 1 <= j < |g| && Parent(j) == child ensures Leq(g[Parent(child)], g[j]) {
      assert Edge(h, j);
    }
  }

  method HeapPush(heap: seq<Entry>, e: Entry) returns (h: seq<Entry>)
    requires IsHeap(heap)
    ensures IsHeap(h)
    ensures multiset(h) == multiset(heap) + multiset{e}
    ensures |h| == |heap| + 1
  {
    h := heap + [e];
    var i := |heap|;
    forall j: nat | 1 <= j < |h| && j != i ensures Edge(h, j) {
      assert Edge(heap, j);
    }
    forall j: nat | 1 <= j < |h| ensures Parent(j) != i {
      assert 2 * Parent(j) + 1 <= j;
    }
    while i > 0 && !Edge(h, i)
      invariant 0 <= i < |h| == |heap| + 1
      invariant multiset(h) == multiset(heap) + multiset{e}
      invariant HoleUp(h, i)
      decreases i
    {
      SwapUp(h, i);
      h := Swap(h, i, Parent(i));
      i := Parent(i);
    }
  }

  /** Restore the heap order below `lo` once every later sub-heap has it. */
  method SiftDown(heap: seq<Entry>, lo: nat) returns (h: seq<Entry>)
    requires HeapFrom(heap, lo + 1)
    ensures HeapFrom(h, lo)
    ensures multiset(h) == multiset(heap) && |h| == |heap|
  {
    h := heap;
    var i := lo;
    assert 1 <= i ==> Parent(i) < i;
    while 2 * i + 1 < |h|
      invariant lo <= i
      invariant multiset(h) == multiset(heap) && |h| == |heap|
      invariant HoleDown(h, lo, i)
      decreases |h| - i
    {
      var child := 2 * i + 1;
      if child + 1 < |h| && !Leq(h[child], h[child + 1]) {
        child := child + 1;
      }
      forall j: nat | 1 <= j < |h| && Parent(j) == i ensures Leq(h[child], h[j]) {
        assert j == 2 * i + 1 || j == 2 * i + 2;
      }
      if Edge(h, child) {
        return;
      }
      SwapDown(h, lo, i, child);
      h := Swap(h, i, child);
      i := child;
    }
  }

  method HeapPop(heap: seq<Entry>) returns (least: Entry, h: seq<Entry>)
    requires IsHeap(heap) && |heap| > 0
    ensures IsHeap(h)
    ensures multiset(heap) == multiset(h) + multiset{least}
    ensures forall e :: e in heap ==> Leq(least, e)
    ensures |h| == |heap| - 1
  {
    var n := |heap| - 1;
    least := heap[0];
    forall e | e in heap ensures Leq(least, e) {
      var i :| 0 <= i < |heap| && heap[i] == e;
      RootIsLeast(heap, i);
    }
    assert heap == heap[..n] + [heap[n]];
    if n == 0 {
      h := [];
    } else {
      var moved := heap[..n][0 := heap[n]];
      forall j: nat | 1 <= j < |moved| && 1 <= Parent(j) ensures Edge(moved, j) {
        assert Edge(heap, j);
      }
      h := SiftDown(moved, 0);
    }
  }

  method Heapify(items: seq<Entry>) returns (h: seq<Entry>)
    ensures IsHeap(h)
    ensures multiset(h) == multiset(items) && |h| == |items|
  {
    h := items;
    var i := |items| / 2;
    while i > 0
      invariant 0 <= i
      invariant HeapFrom(h, i)
      invariant multiset(h) == multiset(items) && |h| == |items|
    {
      i := i - 1;
      h := SiftDown(h, i);
    }
  }
}
