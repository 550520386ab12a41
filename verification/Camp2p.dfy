/** The physical token counts of the CAMP2P connector.
  *
  * FFN rank f serves Attention ranks f, f + F, f + 2F, ...  The kernels want equal chunks
  * from all of them, so the counts on the wire are the maximum of each group and Attention
  * pads what it sends.
  */
module Camp2p {
  import opened Arithmetic
  import opened GraphKeys
  import opened Sequences
  import opened Wrappers

  // ---------- one stage ----------

  /** Every count `times` times in a row. */
  function Interleaved(counts: seq<int>, times: nat): (r: seq<int>)
    ensures |r| == |counts| * times
    ensures times == 1 ==> r == counts
    decreases |counts|
  {
    if counts == [] then []
    else
      var n := |counts| - 1;
      assert |counts| * times == n * times + times;
      Interleaved(counts[..n], times) + seq(times, _ => counts[n])
  }

  /** The maximum of entries f, f + F, ... over the first `rows` rows. */
  function ColumnMax(table: seq<int>, F: nat, rows: nat, f: nat): int
    requires rows > 0 && f < F && |table| == rows * F
  {
    var cut := (rows - 1) * F;
    assert rows * F == cut + F;
    if rows == 1 then table[f] else Max(ColumnMax(table[..cut], F, rows - 1, f), table[cut + f])
  }

  /** The group maxima, one round per Attention rank of a group; the reshape fails unless the
    * interleaved counts fill it exactly. */
  function PhysicalCounts(counts: seq<int>, A: nat, F: nat, ratio: nat): Result<seq<int>, string>
    requires F > 0 && ratio > 0
  {
    if counts == [] then Error("division by zero")
    else
      var wide := Interleaved(counts, A / |counts|);
      if |wide| != ratio * F then Error("shape mismatch")
      else Ok(Repeat(seq(F, f requires 0 <= f < F => ColumnMax(wide, F, ratio, f)), ratio))
  }

  /** `ratio` is A / F, computed once by the connector. */
  method PhysicalPayload(stages: Stages, A: nat, F: nat, ratio: nat) returns (r: Result<Stages, string>)
    requires F > 0
    ensures ratio <= 1 || |stages| <= 1 ==> r == Ok(stages)
    ensures ratio > 1 && |stages| > 1 ==>
              && (r.Ok? <==> forall stage :: stage in stages ==> PhysicalCounts(stages[stage], A, F, ratio).Ok?)
              && (r.Ok? ==> r.value.Keys == stages.Keys)
              && (r.Ok? ==> forall stage :: stage in stages ==>
                  PhysicalCounts(stages[stage], A, F, ratio) == Ok(r.value[stage]))
  {
    if ratio <= 1 || |stages| <= 1 {
      return Ok(stages);
    }
    hide PhysicalCounts;
    var physical: Stages := map[];
    var todo := stages.Keys;
    while todo != {}
      invariant todo <= stages.Keys && physical.Keys == stages.Keys - todo
      invariant forall stage :: stage in physical ==> PhysicalCounts(stages[stage], A, F, ratio) == Ok(physical[stage])
      decreases todo
    {
      Inhabited(todo);
      var stage :| stage in todo;
      var counts := PhysicalCounts(stages[stage], A, F, ratio);
      if counts.Error? {
        return Error(counts.error);
      }
      physical, todo := physical[stage := counts.value], todo - {stage};
    }
    return Ok(physical);
  }

  // ---------- what the physical counts are ----------

  /** Sizes for which the connector's groups are equal. */
  predicate Grouped(A: nat, F: nat, ratio: nat) {
    F > 0 && ratio > 0 && A == ratio * F
  }

  lemma {:induction false} InterleavedAt(counts: seq<int>, times: nat, i: nat)
    requires times > 0 && i < |Interleaved(counts, times)|
    ensures 0 <= i / times < |counts| && Interleaved(counts, times)[i] == counts[i / times]
    decreases |counts|
  {
    var n := |counts| - 1;
    assert |counts| * times == n * times + times;
    if i < n * times {
      InterleavedAt(counts[..n], times, i);
    } else {
      FloorUnique(i, times, n);
    }
  }

  lemma {:induction false} ColumnMaxIs(table: seq<int>, F: nat, rows: nat, f: nat, i: nat)
    requires rows > 0 && f < F && |table| == rows * F && i < |table| && i % F == f
    ensures table[i] <= ColumnMax(table, F, rows, f)
  {
    var cut := (rows - 1) * F;
    assert rows * F == cut + F;
    if i < cut {
      ColumnMaxIs(table[..cut], F, rows - 1, f, i);
    } else {
      ModIs(i, F, rows - 1, i - cut);
    }
  }

  lemma {:induction false} ColumnMaxIsMet(table: seq<int>, F: nat, rows: nat, f: nat)
    requires rows > 0 && f < F && |table| == rows * F
    ensures exists i :: 0 <= i < |table| && i % F == f && table[i] == ColumnMax(table, F, rows, f)
  {
    var cut := (rows - 1) * F;
    assert rows * F == cut + F;
    ModIs(cut + f, F, rows - 1, f);
    if rows > 1 && table[cut + f] <= ColumnMax(table[..cut], F, rows - 1, f) {
      ColumnMaxIsMet(table[..cut], F, rows - 1, f);
      var i :| 0 <= i < cut && i % F == f && table[..cut][i] == ColumnMax(table[..cut], F, rows - 1, f);
      assert table[i] == ColumnMax(table, F, rows, f);
    } else {
      assert table[cut + f] == ColumnMax(table, F, rows, f);
    }
  }

  /** What each Attention rank really holds. */
  function Wide(counts: seq<int>, A: nat): seq<int>
    requires counts != []
  {
    Interleaved(counts, A / |counts|)
  }

  /** Counts that no rank exceeds and that are equal within every group. */
  ghost predicate Covers(v: seq<int>, wide: seq<int>, F: nat)
    requires F > 0
  {
    && |v| == |wide|
    && (forall a :: 0 <= a < |v| ==> wide[a] <= v[a])
    && (forall a, b :: 0 <= a < |v| && 0 <= b < |v| && a % F == b % F ==> v[a] == v[b])
  }

  predicate Even(counts: seq<int>, A: nat) {
    counts != [] && A % |counts| == 0
  }

  lemma WideLength(counts: seq<int>, A: nat)
    requires Even(counts, A)
    ensures |Wide(counts, A)| == A
  {
    assert A == |counts| * (A / |counts|) + A % |counts|;
  }

  /** It is the count of the data-parallel rank that it belongs to. */
  lemma WideAt(counts: seq<int>, A: nat, a: nat)
    requires Even(counts, A) && a < A
    ensures |Wide(counts, A)| == A && A / |counts| > 0 && a / (A / |counts|) < |counts|
    ensures Wide(counts, A)[a] == counts[a / (A / |counts|)]
  {
    WideLength(counts, A);
    var tp := A / |counts|;
    assert A == |counts| * tp;
    InterleavedAt(counts, tp, a);
  }

  lemma PhysicalAt(counts: seq<int>, A: nat, F: nat, ratio: nat)
    requires Grouped(A, F, ratio) && Even(counts, A)
    ensures |Wide(counts, A)| == A && PhysicalCounts(counts, A, F, ratio).Ok?
    ensures |PhysicalCounts(counts, A, F, ratio).value| == A
    ensures forall a :: 0 <= a < A ==>
         PhysicalCounts(counts, A, F, ratio).value[a] == ColumnMax(Wide(counts, A), F, ratio, a % F)
  {
    WideLength(counts, A);
    var wide := Wide(counts, A);
    var row := seq(F, f requires 0 <= f < F => ColumnMax(wide, F, ratio, f));
    RepeatLength(row, ratio);
    forall a | 0 <= a < A ensures Repeat(row, ratio)[a] == ColumnMax(wide, F, ratio, a % F) {
      RepeatAt(row, ratio, a);
    }
  }

  /** The physical counts cover the real ones, and are the least that do. */
  lemma PhysicalIsLeastCover(counts: seq<int>, A: nat, F: nat, ratio: nat)
    requires Grouped(A, F, ratio) && Even(counts, A)
    ensures PhysicalCounts(counts, A, F, ratio).Ok?
    ensures Covers(PhysicalCounts(counts, A, F, ratio).value, Wide(counts, A), F)
    ensures forall w :: Covers(w, Wide(counts, A), F) ==> AtMost(PhysicalCounts(counts, A, F, ratio).value, w)
  {
    PhysicalAt(counts, A, F, ratio);
    var wide, v := Wide(counts, A), PhysicalCounts(counts, A, F, ratio).value;
    hide Wide, PhysicalCounts, ColumnMax, Grouped;
    assert A == ratio * F;
    forall a | 0 <= a < A ensures wide[a] <= v[a] {
      ColumnMaxIs(wide, F, ratio, a % F, a);
    }
    forall w | Covers(w, wide, F) ensures AtMost(v, w) {
      forall a | 0 <= a < A ensures v[a] <= w[a] {
        ColumnMaxIsMet(wide, F, ratio, a % F);
      }
    }
  }

  predicate AtMost(v: seq<int>, w: seq<int>) {
    |v| == |w| && forall a :: 0 <= a < |v| ==> v[a] <= w[a]
  }

  lemma LeastBelow(counts: seq<int>, A: nat, F: nat, ratio: nat, w: seq<int>)
    requires Grouped(A, F, ratio) && Even(counts, A) && Covers(w, Wide(counts, A), F)
    ensures PhysicalCounts(counts, A, F, ratio).Ok? && AtMost(PhysicalCounts(counts, A, F, ratio).value, w)
    ensures AtMost(Wide(counts, A), PhysicalCounts(counts, A, F, ratio).value)
  {
    PhysicalIsLeastCover(counts, A, F, ratio);
    hide PhysicalCounts, Wide, Grouped, Even;
  }

  lemma EqualGroupsAreFixed(v: seq<int>, A: nat, F: nat, ratio: nat)
    requires Grouped(A, F, ratio) && |v| == A && Covers(v, v, F)
    ensures PhysicalCounts(v, A, F, ratio) == Ok(v)
  {
    FullIsEven(v, A, F, ratio);
    hide PhysicalCounts, Wide, Grouped, Covers, Even;
    LeastBelow(v, A, F, ratio, v);
    assert PhysicalCounts(v, A, F, ratio).value == v;
  }

  /** Taking the maxima again changes nothing, so both sides may take them. */
  lemma PhysicalIsFixed(counts: seq<int>, A: nat, F: nat, ratio: nat)
    requires Grouped(A, F, ratio) && Even(counts, A)
    ensures PhysicalCounts(counts, A, F, ratio).Ok?
    ensures PhysicalCounts(PhysicalCounts(counts, A, F, ratio).value, A, F, ratio)
         == PhysicalCounts(counts, A, F, ratio)
  {
    PhysicalAt(counts, A, F, ratio);
    PhysicalIsLeastCover(counts, A, F, ratio);
    hide PhysicalCounts, Wide, Grouped;
    EqualGroupsAreFixed(PhysicalCounts(counts, A, F, ratio).value, A, F, ratio);
  }

  lemma FullIsEven(v: seq<int>, A: nat, F: nat, ratio: nat)
    requires Grouped(A, F, ratio) && |v| == A
    ensures Even(v, A) && Wide(v, A) == v
  {
    assert A > 0;
    ModIs(A, A, 1, 0);
  }

  // ---------- what the FFN receives ----------

  function StridedSum(counts: seq<int>, f: nat, F: nat): int
    requires F > 0
    decreases |counts| - f
  {
    if f >= |counts| then 0 else counts[f] + StridedSum(counts, f + F, F)
  }

  /** The batch of an FFN rank.  `None` stands for a stage without metadata. */
  function NumTokensForFfnRank(metadata: Option<seq<int>>, f: nat, A: nat, F: nat, fallback: int): Result<int, string>
    requires F > 0
  {
    var least := Max(1, fallback);
    if metadata.None? then Ok(least)
    else
      var given := metadata.value;
      if given == [] && A > 0 then Error("division by zero")
      else
        var counts := if |given| < A && A % |given| == 0 then Interleaved(given, A / |given|) else given;
        if |counts| < A then Ok(least)
        else if A >= F && A % F == 0 then Ok(Max(1, StridedSum(counts[..A], f, F)))
        else Ok(least)
  }

  /** The count of the data-parallel rank that Attention rank `a` works for. */
  function WorkerTokens(counts: seq<int>, tp: nat, a: nat): int
    requires tp > 0
  {
    if a / tp < |counts| then counts[a / tp] else 0
  }

  /** What `n` Attention ranks hold, F ranks apart from `a` on. */
  function GroupTokens(counts: seq<int>, tp: nat, a: nat, F: nat, n: nat): int
    requires tp > 0
    decreases n
  {
    if n == 0 then 0 else WorkerTokens(counts, tp, a) + GroupTokens(counts, tp, a + F, F, n - 1)
  }

  lemma {:induction false} StridedIsGroup(v: seq<int>, counts: seq<int>, tp: nat, a: nat, F: nat, n: nat)
    requires tp > 0 && F > 0 && a + n * F >= |v| && (n > 0 ==> a + (n - 1) * F < |v|)
    requires forall b :: 0 <= b < |v| ==> v[b] == WorkerTokens(counts, tp, b)
    ensures StridedSum(v, a, F) == GroupTokens(counts, tp, a, F, n)
    decreases n
  {
    hide WorkerTokens;
    if n > 0 {
      MulAtMost(0, n - 1, F);
      assert a + n * F == a + F + (n - 1) * F;
      assert n > 1 ==> a + (n - 1) * F == a + F + (n - 2) * F;
      StridedIsGroup(v, counts, tp, a + F, F, n - 1);
    }
  }

  lemma GroupEnds(A: nat, F: nat, ratio: nat, f: nat)
    requires Grouped(A, F, ratio) && f < F
    ensures f + ratio * F >= A && f + (ratio - 1) * F < A
  {
    assert ratio * F == (ratio - 1) * F + F;
  }

  /** The batch of FFN rank f is what Attention ranks f, f + F, ... hold together, whether the
    * counts are given per worker or per data-parallel rank, and at least one row. */
  lemma BatchIsGroup(counts: seq<int>, tp: nat, A: nat, F: nat, ratio: nat, f: nat, fallback: int)
    requires tp > 0 && A == |counts| * tp && Grouped(A, F, ratio) && f < F
    ensures NumTokensForFfnRank(Some(counts), f, A, F, fallback) == Ok(Max(1, GroupTokens(counts, tp, f, F, ratio)))
  {
    var wide := Interleaved(counts, tp);
    GroupedDivides(A, F, ratio);
    GroupEnds(A, F, ratio, f);
    hide Grouped;
    WidelyKnown(counts, tp, A);
    hide WorkerTokens, Interleaved;
    assert wide[..A] == wide;
    StridedIsGroup(wide, counts, tp, f, F, ratio);
  }

  lemma WidelyKnown(counts: seq<int>, tp: nat, A: nat)
    requires tp > 0 && A == |counts| * tp > 0
    ensures |counts| > 0 && |Interleaved(counts, tp)| == A
    ensures |counts| < A ==> A % |counts| == 0 && A / |counts| == tp
    ensures |counts| >= A ==> A == |counts| && Interleaved(counts, tp) == counts
    ensures forall a :: 0 <= a < A ==> Interleaved(counts, tp)[a] == WorkerTokens(counts, tp, a)
  {
    ModIs(A, |counts|, tp, 0);
    MulAtMost(1, tp, |counts|);
    if A == |counts| {
      assert tp == A / |counts| == 1;
    }
    forall a | 0 <= a < A ensures Interleaved(counts, tp)[a] == WorkerTokens(counts, tp, a) {
      InterleavedAt(counts, tp, a);
    }
  }

  /** Two data-parallel ranks of two workers each, and two FFN ranks: each FFN rank serves one
    * worker of either. */
  lemma BatchOfTwoByTwo(x: nat, y: nat, f: nat, fallback: int)
    requires f < 2 && x + y > 0
    ensures NumTokensForFfnRank(Some([x, y]), f, 4, 2, fallback) == Ok(x + y)
  {
    BatchIsGroup([x, y], 2, 4, 2, 2, f, fallback);
    assert GroupTokens([x, y], 2, f, 2, 2) == x + y by {
      assert GroupTokens([x, y], 2, f + 2, 2, 1)
          == WorkerTokens([x, y], 2, f + 2) + GroupTokens([x, y], 2, f + 4, 2, 0);
    }
    hide NumTokensForFfnRank;
  }

  /** Attention's rows on the wire: padded with zero rows up to the physical count. */
  function PaddedSend<T>(rows: seq<T>, zero: T, physical: int): Result<seq<T>, string> {
    var padding := physical - |rows|;
    if padding == 0 then Ok(rows)
    else if padding < 0 then Error("negative padding")
    else Ok(rows + seq(padding, _ => zero))
  }

  /** What the Attention ranks put on the wire; an empty chunk stands for a failed send. */
  function Chunks<T>(rows: seq<seq<T>>, zero: T, physical: seq<int>): (chunks: seq<seq<T>>)
    requires |rows| == |physical|
    ensures |chunks| == |rows|
  {
    seq(|rows|, a requires 0 <= a < |rows| => PaddedSend(rows[a], zero, physical[a]).GetOr([]))
  }

  /** What an FFN rank is sent: the chunks of its group. */
  function GroupRows<T>(chunks: seq<seq<T>>, f: nat, F: nat): seq<T>
    requires F > 0
    decreases |chunks| - f
  {
    if f >= |chunks| then [] else chunks[f] + GroupRows(chunks, f + F, F)
  }

  lemma {:induction false} GroupRowsLength<T>(chunks: seq<seq<T>>, v: seq<int>, f: nat, F: nat)
    requires F > 0 && |chunks| == |v| && forall a :: 0 <= a < |v| ==> |chunks[a]| == v[a]
    ensures |GroupRows(chunks, f, F)| == StridedSum(v, f, F)
    decreases |chunks| - f
  {
    if f < |chunks| {
      GroupRowsLength(chunks, v, f + F, F);
    }
  }

  /** With equal counts, a group's sum is zero only if its first count is. */
  lemma {:induction false} StridedSumIs(v: seq<int>, f: nat, F: nat, start: nat)
    requires F > 0 && start % F == f % F && start < |v|
    requires forall a :: 0 <= a < |v| ==> v[a] >= 0
    requires forall a :: 0 <= a < |v| && a % F == f % F ==> v[a] == v[start]
    ensures StridedSum(v, start, F) >= v[start]
    ensures v[start] == 0 ==> StridedSum(v, start, F) == 0
    decreases |v| - start
  {
    if start + F < |v| {
      NextInGroup(start, F);
      StridedSumIs(v, f, F, start + F);
    }
  }

  lemma NextInGroup(a: nat, F: nat)
    requires F > 0
    ensures (a + F) % F == a % F
  {
    assert a == F * (a / F) + a % F;
    ModIs(a + F, F, a / F + 1, a % F);
  }

  /** Every rank can pad to its physical count.  The FFN's batch is the sum of the padded
    * sends of its group exactly when some rank of the group has a token; an empty group is
    * sent nothing, but the FFN still counts one row. */
  lemma BatchIsSentIff<T>(counts: seq<int>, A: nat, F: nat, ratio: nat, f: nat, fallback: int, rows: seq<seq<T>>,
                          zero: T)
    requires Grouped(A, F, ratio) && Even(counts, A) && f < F && |rows| == |Wide(counts, A)|
    requires forall a :: 0 <= a < |rows| ==> |rows[a]| == Wide(counts, A)[a]
    ensures PhysicalCounts(counts, A, F, ratio).Ok? && |rows| == |PhysicalCounts(counts, A, F, ratio).value|
    ensures var v := PhysicalCounts(counts, A, F, ratio).value;
            var chunks := Chunks(rows, zero, v);
            var batch := NumTokensForFfnRank(Some(v), f, A, F, fallback);
            && (forall a :: 0 <= a < |rows| ==> rows[a] <= chunks[a] && |chunks[a]| == v[a])
            && batch.Ok?
            && (batch.value == |GroupRows(chunks, f, F)|
                <==> exists a :: 0 <= a < |rows| && a % F == f && rows[a] != [])
  {
    var v := PhysicalCounts(counts, A, F, ratio).value;
    PhysicalAt(counts, A, F, ratio);
    PhysicalIsLeastCover(counts, A, F, ratio);
    var wide, chunks := Wide(counts, A), Chunks(rows, zero, v);
    ColumnMaxIsMet(wide, F, ratio, f);
    ModIs(f, F, 0, f);
    GroupedDivides(A, F, ratio);
    assert v[..A] == v;
    hide PhysicalCounts, Wide, Grouped, ColumnMax;
    GroupRowsLength(chunks, v, f, F);
    StridedSumIs(v, f, F, f);
  }

  lemma GroupedDivides(A: nat, F: nat, ratio: nat)
    requires Grouped(A, F, ratio)
    ensures A % F == 0 && A >= F
  {
    ModIs(A, F, ratio, 0);
    MulAtMost(1, ratio, F);
  }

  /** An instance: two Attention ranks without tokens send nothing, and the FFN counts one row. */
  lemma EmptyGroupIsMiscounted()
    ensures var v := PhysicalCounts([0, 0], 2, 1, 2);
            && v == Ok([0, 0])
            && NumTokensForFfnRank(Some(v.value), 0, 2, 1, 0) == Ok(1)
            && GroupRows(Chunks<int>([[], []], 0, v.value), 0, 1) == []
  {
    var counts: seq<int> := [0, 0];
    FullIsEven(counts, 2, 1, 2);
    assert forall a, b: int :: a % 1 == b % 1;
    EqualGroupsAreFixed(counts, 2, 1, 2);
    var rows: seq<seq<int>> := [[], []];
    BatchIsSentIff(counts, 2, 1, 2, 0, 0, rows, 0);
    assert Chunks(rows, 0, counts) == rows;
    assert GroupRows(rows, 2, 1) == [] && GroupRows(rows, 1, 1) == rows[1] + GroupRows(rows, 2, 1);
    hide PhysicalCounts;
    assert StridedSum([0, 0][..2], 0, 1) == 0 by {
      assert [0, 0][..2] == counts;
      assert StridedSum(counts, 2, 1) == 0 && StridedSum(counts, 1, 1) == counts[1] + StridedSum(counts, 2, 1);
    }
  }
}
