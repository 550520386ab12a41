/** The two places that turn a stage's token counts into FFN batch sizes.
  *
  * The P2P control plane sizes one receive per Attention peer; the FFN metadata aggregates
  * the counts of a whole block.  They never consult each other and must agree.
  */
module TokenCounts {
  import opened Arithmetic
  import opened Sequences
  import opened Topology

  /** Counts per data-parallel rank, repeated for each of its tensor-parallel workers. */
  function Expand(counts: seq<int>, A: nat): seq<int> {
    if counts != [] && |counts| < A && A % |counts| == 0 then
      var tp := A / |counts|;
      FloorBoundsInRange(|counts|, A);
      seq(A, a requires 0 <= a < A => counts[WorkerOf(a, |counts|, A)])
    else counts
  }

  lemma FloorBoundsInRange(n: nat, A: nat)
    requires 0 < n <= A
    ensures A / n >= 1
  {
    FloorBounds(A, n);
    if A / n < 1 {
      MulAtMost(A / n, 0, n);
    }
  }

  /** The count that worker `a` reads. */
  function WorkerOf(a: nat, n: nat, A: nat): (k: nat)
    requires a < A && 0 < n <= A && A % n == 0
    ensures k < n
  {
    var tp := A / n;
    FloorBoundsInRange(n, A);
    assert a / tp < n by {
      FloorBounds(a, tp);
      assert A == n * tp;
      if n <= a / tp {
        MulAtMost(n, a / tp, tp);
      }
    }
    a / tp
  }

  /** What one Attention rank sends: at least one row. */
  function NumTokens(counts: seq<int>, a: int, A: nat, fallback: int): (n: nat)
    ensures n >= 1
  {
    if counts == [] then Max(1, fallback)
    else
      var expanded := Expand(counts, A);
      if 0 <= a < |expanded| then Max(1, expanded[a]) else Max(1, fallback)
  }

  /** With one count per data-parallel rank, each of a rank's `tp` workers reads its count. */
  lemma WorkersShareCount(counts: seq<int>, tp: nat, d: nat, j: nat, fallback: int)
    requires tp >= 1 && d < |counts| && j < tp
    ensures d * tp + j < |counts| * tp
    ensures NumTokens(counts, d * tp + j, |counts| * tp, fallback) == Max(1, counts[d])
  {
    var A := |counts| * tp;
    MulBelow(d, |counts|, tp);
    MulAtMost(1, tp, |counts|);
    ModIs(A, |counts|, tp, 0);
    ModIs(d * tp + j, tp, d, j);
    if tp > 1 {
      MulBelow(1, tp, |counts|);
    }
  }

  /** Without an even split over data-parallel ranks the counts are read as they are, and the
    * fallback stands for a missing one. */
  lemma OtherCounts(counts: seq<int>, a: int, A: nat, fallback: int)
    requires counts == [] || |counts| >= A || A % |counts| != 0
    ensures NumTokens(counts, a, A, fallback) == Max(1, if 0 <= a < |counts| then counts[a] else fallback)
  {
  }

  /** Outside the Attention ranks the fallback stands in. */
  lemma OutsideCounts(counts: seq<int>, a: int, A: nat, fallback: int)
    requires a < 0 || a >= Max(A, |counts|)
    ensures NumTokens(counts, a, A, fallback) == Max(1, fallback)
  {
  }

  /** The sum of an expanded count list over the block from `lo` to `hi`. */
  function BlockSum(expanded: seq<int>, lo: nat, hi: nat, fallback: int): int
    decreases hi - lo
  {
    if hi <= lo then 0
    else (if lo < |expanded| then Max(1, expanded[lo]) else fallback) + BlockSum(expanded, lo + 1, hi, fallback)
  }

  /** Every FFN rank's batch size. */
  function Aggregate(counts: seq<int>, A: int, F: int, fallback: int): seq<int> {
    var least := Max(1, fallback);
    if F <= 0 || A < F then seq(Max(0, F), _ => least)
    else
      var expanded := Expand(counts, A);
      seq(F, f requires 0 <= f < F => BlockSum(expanded, BlockStart(f, A, F), BlockStart(f + 1, A, F), least))
  }

  /** What the Attention ranks from `lo` to `hi` send together. */
  function SentBy(counts: seq<int>, lo: nat, hi: nat, A: nat, fallback: int): nat
    decreases hi - lo
  {
    if hi <= lo then 0 else NumTokens(counts, lo, A, fallback) + SentBy(counts, lo + 1, hi, A, fallback)
  }

  lemma {:induction false} BlockSumIsSent(counts: seq<int>, lo: nat, hi: nat, A: nat, fallback: int)
    ensures BlockSum(Expand(counts, A), lo, hi, Max(1, fallback)) == SentBy(counts, lo, hi, A, fallback)
    decreases hi - lo
  {
    if lo < hi {
      BlockSumIsSent(counts, lo + 1, hi, A, fallback);
    }
  }

  /** For every count vector, an FFN rank's batch is what its Attention block sends. */
  lemma AggregateIsSent(counts: seq<int>, A: nat, F: nat, f: nat, fallback: int)
    requires Sized(A, F) && f < F
    ensures |Aggregate(counts, A, F, fallback)| == F
    ensures Aggregate(counts, A, F, fallback)[f]
         == SentBy(counts, BlockStart(f, A, F), BlockStart(f + 1, A, F), A, fallback)
  {
    BlockSumIsSent(counts, BlockStart(f, A, F), BlockStart(f + 1, A, F), A, fallback);
  }

  lemma {:induction false} SentSplits(counts: seq<int>, lo: nat, mid: nat, hi: nat, A: nat, fallback: int)
    requires lo <= mid <= hi
    ensures SentBy(counts, lo, hi, A, fallback)
         == SentBy(counts, lo, mid, A, fallback) + SentBy(counts, mid, hi, A, fallback)
    decreases mid - lo
  {
    if lo < mid {
      SentSplits(counts, lo + 1, mid, hi, A, fallback);
    }
  }

  lemma TotalOfPrefix(s: seq<int>, k: nat)
    requires 0 < k <= |s|
    ensures Sum(s[..k]) == Sum(s[..k - 1]) + s[k - 1]
  {
    assert s[..k][..k - 1] == s[..k - 1];
  }

  lemma {:induction false} TotalOfBlocks(counts: seq<int>, A: nat, F: nat, k: nat, fallback: int)
    requires Sized(A, F) && k <= F
    ensures |Aggregate(counts, A, F, fallback)| == F
    ensures Sum(Aggregate(counts, A, F, fallback)[..k]) == SentBy(counts, 0, BlockStart(k, A, F), A, fallback)
  {
    BlocksPartition(A, F);
    hide NumTokens, Expand, BlockSum, Aggregate, BlockStart;
    AggregateIsSent(counts, A, F, 0, fallback);
    if k > 0 {
      hide Sum, SentBy;
      TotalOfBlocks(counts, A, F, k - 1, fallback);
      AggregateIsSent(counts, A, F, k - 1, fallback);
      TotalOfPrefix(Aggregate(counts, A, F, fallback), k);
      SentSplits(counts, 0, BlockStart(k - 1, A, F), BlockStart(k, A, F), A, fallback);
    }
  }

  /** Nothing is lost between the roles: the FFN batches together are all that is sent. */
  lemma TotalsAgree(counts: seq<int>, A: nat, F: nat, fallback: int)
    requires Sized(A, F)
    ensures Sum(Aggregate(counts, A, F, fallback)) == SentBy(counts, 0, A, A, fallback)
  {
    var all := Aggregate(counts, A, F, fallback);
    TotalOfBlocks(counts, A, F, F, fallback);
    BlocksPartition(A, F);
    assert all[..F] == all;
  }

  /** The FFN side of the control plane: one receive size per peer of the roster. */
  method PeerSizes(counts: seq<int>, roster: seq<nat>, A: nat, F: nat) returns (sizes: seq<nat>, total: nat)
    requires |roster| >= 1 && forall k :: 1 <= k < |roster| ==> roster[k] >= F
    ensures |sizes| == |roster| - 1
    ensures forall k :: 0 <= k < |sizes| ==> sizes[k] == NumTokens(counts, roster[k + 1] - F, A, 1)
    ensures total == Sum(sizes)
  {
    hide NumTokens;
    sizes, total := [], 0;
    for src := 1 to |roster|
      invariant |sizes| == src - 1
      invariant forall k :: 0 <= k < |sizes| ==> sizes[k] == NumTokens(counts, roster[k + 1] - F, A, 1)
      invariant total == Sum(sizes)
    {
      var tokens := NumTokens(counts, roster[src] - F, A, 1);
      assert (sizes + [tokens])[..|sizes|] == sizes;
      sizes := sizes + [tokens];
      total := total + tokens;
    }
  }

  lemma {:induction false} TotalIsSent(counts: seq<int>, sizes: seq<int>, lo: nat, A: nat, fallback: int)
    requires forall k :: 0 <= k < |sizes| ==> sizes[k] == NumTokens(counts, lo + k, A, fallback)
    ensures Sum(sizes) == SentBy(counts, lo, lo + |sizes|, A, fallback)
  {
    hide NumTokens;
    if sizes != [] {
      var n := |sizes| - 1;
      TotalIsSent(counts, sizes[..n], lo, A, fallback);
      SentSplits(counts, lo, lo + n, lo + n + 1, A, fallback);
      assert SentBy(counts, lo + n, lo + n + 1, A, fallback)
           == NumTokens(counts, lo + n, A, fallback) + SentBy(counts, lo + n + 1, lo + n + 1, A, fallback);
    }
  }

  /** The receive sizes of an FFN rank add up to its aggregated batch. */
  lemma PeerSizesAgree(counts: seq<int>, sizes: seq<nat>, A: nat, F: nat, f: nat)
    requires Sized(A, F) && f < F && |sizes| == |Roster(f, A, F)| - 1
    requires forall k :: 0 <= k < |sizes| ==> sizes[k] == NumTokens(counts, Roster(f, A, F)[k + 1] - F, A, 1)
    ensures |Aggregate(counts, A, F, 1)| == F && Sum(sizes) == Aggregate(counts, A, F, 1)[f]
  {
    hide NumTokens, Expand, BlockSum, Aggregate, BlockStart, Roster;
    RosterAt(f, A, F);
    TotalIsSent(counts, sizes, BlockStart(f, A, F), A, 1);
    AggregateIsSent(counts, A, F, f, 1);
  }

  /** The counts of the Attention ranks from `lo` to `hi`, when each data-parallel rank has
    * `tp` workers. */
  function WorkerCounts(counts: seq<int>, tp: nat, lo: nat, hi: nat): (r: seq<int>)
    requires tp >= 1 && lo <= hi <= |counts| * tp
    ensures |r| == hi - lo
  {
    seq(hi - lo, i requires 0 <= i < hi - lo =>
          QuotientBelow(lo + i, tp, |counts|);
          Max(1, counts[(lo + i) / tp]))
  }

  lemma QuotientBelow(a: nat, tp: nat, n: nat)
    requires tp >= 1 && a < n * tp
    ensures 0 <= a / tp < n && a == a / tp * tp + a % tp
  {
    FloorBounds(a, tp);
    assert a == tp * (a / tp) + a % tp;
    if n <= a / tp {
      MulAtMost(n, a / tp, tp);
    }
  }

  lemma ShareOf(counts: seq<int>, tp: nat, a: nat, A: nat, fallback: int)
    requires tp >= 1 && A == |counts| * tp && a < A
    ensures 0 <= a / tp < |counts| && NumTokens(counts, a, A, fallback) == Max(1, counts[a / tp])
  {
    hide NumTokens;
    QuotientBelow(a, tp, |counts|);
    WorkersShareCount(counts, tp, a / tp, a % tp, fallback);
  }

  lemma WorkerCountIs(counts: seq<int>, tp: nat, lo: nat, hi: nat, k: nat, fallback: int)
    requires tp >= 1 && lo <= hi <= |counts| * tp && k < hi - lo
    ensures WorkerCounts(counts, tp, lo, hi)[k] == NumTokens(counts, lo + k, |counts| * tp, fallback)
  {
    hide NumTokens;
    ShareOf(counts, tp, lo + k, |counts| * tp, fallback);
  }

  /** An FFN rank's batch is the sum of its block's counts, an empty rank counting one row. */
  lemma AggregateOfWorkers(counts: seq<int>, tp: nat, A: nat, F: nat, f: nat, fallback: int)
    requires tp >= 1 && A == |counts| * tp && Sized(A, F) && f < F
    ensures BlockStart(f, A, F) <= BlockStart(f + 1, A, F) <= A && |Aggregate(counts, A, F, fallback)| == F
    ensures Aggregate(counts, A, F, fallback)[f]
         == Sum(WorkerCounts(counts, tp, BlockStart(f, A, F), BlockStart(f + 1, A, F)))
  {
    hide NumTokens, Aggregate, Expand, BlockStart, Sum, SentBy, WorkerCounts;
    BlocksPartition(A, F);
    BlockStartMonotone(f + 1, F, A, F);
    AggregateIsSent(counts, A, F, f, fallback);
    var lo, hi := BlockStart(f, A, F), BlockStart(f + 1, A, F);
    var sizes := WorkerCounts(counts, tp, lo, hi);
    forall k | 0 <= k < |sizes| ensures sizes[k] == NumTokens(counts, lo + k, A, fallback) {
      WorkerCountIs(counts, tp, lo, hi, k, fallback);
    }
    TotalIsSent(counts, sizes, lo, A, fallback);
  }

  /** The documented example of four Attention and two FFN ranks. */
  lemma FourToTwo()
    ensures Aggregate([0, 4, 5, 6], 4, 2, 1) == [5, 11] && Aggregate([], 4, 2, 1) == [2, 2]
    ensures Aggregate([3, 5], 4, 2, 1) == [6, 10]
  {
    var blocks := [BlockStart(0, 4, 2), BlockStart(1, 4, 2), BlockStart(2, 4, 2)];
    assert blocks == [0, 2, 4];
    BlockOfTwo([0, 4, 5, 6], 0, 1);
    BlockOfTwo([0, 4, 5, 6], 2, 1);
    BlockOfTwo([], 0, 1);
    BlockOfTwo([], 2, 1);
    BlockOfTwo([3, 3, 5, 5], 0, 1);
    BlockOfTwo([3, 3, 5, 5], 2, 1);
    assert Expand([3, 5], 4) == [3, 3, 5, 5];
  }

  lemma BlockOfTwo(counts: seq<int>, lo: nat, least: int)
    ensures BlockSum(counts, lo, lo + 2, least)
         == (if lo < |counts| then Max(1, counts[lo]) else least)
          + (if lo + 1 < |counts| then Max(1, counts[lo + 1]) else least)
  {
    assert BlockSum(counts, lo + 2, lo + 2, least) == 0;
    assert BlockSum(counts, lo + 1, lo + 2, least) == if lo + 1 < |counts| then Max(1, counts[lo + 1]) else least;
  }
}
