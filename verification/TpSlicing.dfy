/** Tensor-parallel slicing of routed tokens.
  *
  * Every TP rank holds the same rows.  Each pads them to a multiple of the TP size, routes
  * and dispatches its own slice, and the group gathers the answers and drops the padding.
  */
module TpSlicing {
  import opened Arithmetic

  const UNROUTED_EXPERT_ID := -1

  /** Rows per rank: the least number with which the ranks cover all rows. */
  function SliceLength(n: nat, tp: nat): nat
    requires tp > 0
  {
    (n + tp - 1) / tp
  }

  function Padded<T>(rows: seq<T>, zero: T, tp: nat): (p: seq<T>)
    requires tp > 0
    ensures |p| == SliceLength(|rows|, tp) * tp && rows <= p
  {
    CeilingBounds(|rows|, tp);
    rows + seq(SliceLength(|rows|, tp) * tp - |rows|, _ => zero)
  }

  /** The slice of one rank. */
  function Chunk<T>(rows: seq<T>, zero: T, tp: nat, rank: nat): (s: seq<T>)
    requires rank < tp
    ensures |s| == SliceLength(|rows|, tp)
  {
    var len := SliceLength(|rows|, tp);
    MulBelow(rank, tp, len);
    Padded(rows, zero, tp)[rank * len..rank * len + len]
  }

  /** Mark the ids of padding rows; `n` is the real number of tokens. */
  function UnrouteTpPadding(ids: seq<seq<int>>, rank: nat, n: nat): (masked: seq<seq<int>>)
    ensures |masked| == |ids|
  {
    seq(|ids|, j requires 0 <= j < |ids| =>
      if rank * |ids| + j >= n then seq(|ids[j]|, _ => UNROUTED_EXPERT_ID) else ids[j])
  }

  function Route<T>(topk: T -> seq<int>, rows: seq<T>): (ids: seq<seq<int>>)
    ensures |ids| == |rows|
  {
    seq(|rows|, j requires 0 <= j < |rows| => topk(rows[j]))
  }

  /** What dispatch and combine return, row by row, for the given experts. */
  function Remote<T, O>(run: (T, seq<int>) -> O, rows: seq<T>, ids: seq<seq<int>>): (out: seq<O>)
    requires |ids| == |rows|
    ensures |out| == |rows|
  {
    seq(|rows|, j requires 0 <= j < |rows| => run(rows[j], ids[j]))
  }

  function RankIds<T>(topk: T -> seq<int>, rows: seq<T>, zero: T, tp: nat, rank: nat): (ids: seq<seq<int>>)
    requires rank < tp
    ensures |ids| == SliceLength(|rows|, tp)
  {
    UnrouteTpPadding(Route(topk, Chunk(rows, zero, tp, rank)), rank, |rows|)
  }

  function RankOutput<T, O>(topk: T -> seq<int>, run: (T, seq<int>) -> O, rows: seq<T>, zero: T, tp: nat,
                            rank: nat): (out: seq<O>)
    requires rank < tp
    ensures |out| == SliceLength(|rows|, tp)
  {
    Remote(run, Chunk(rows, zero, tp, rank), RankIds(topk, rows, zero, tp, rank))
  }

  /** The outputs of the first `ranks` ranks, in rank order. */
  function AllGather<T, O>(topk: T -> seq<int>, run: (T, seq<int>) -> O, rows: seq<T>, zero: T, tp: nat,
                           ranks: nat): (out: seq<O>)
    requires ranks <= tp
    ensures |out| == ranks * SliceLength(|rows|, if tp == 0 then 1 else tp)
    decreases ranks
  {
    if ranks == 0 then []
    else
      var len := SliceLength(|rows|, tp);
      assert ranks * len == (ranks - 1) * len + len;
      AllGather(topk, run, rows, zero, tp, ranks - 1) + RankOutput(topk, run, rows, zero, tp, ranks - 1)
  }

  /** Attention's forward: sliced when there are several TP ranks. */
  function Forward<T, O>(topk: T -> seq<int>, run: (T, seq<int>) -> O, rows: seq<T>, zero: T, tp: nat): seq<O>
    requires tp > 0
  {
    if tp == 1 then Remote(run, rows, Route(topk, rows))
    else
      CeilingBounds(|rows|, tp);
      AllGather(topk, run, rows, zero, tp, tp)[..|rows|]
  }

  // ---------- what slicing does ----------

  /** The token that is row `j` of rank `r`'s slice. */
  function TokenOf(len: nat, r: nat, j: nat): nat {
    r * len + j
  }

  lemma ChunkAt<T>(rows: seq<T>, zero: T, tp: nat, r: nat, j: nat)
    requires r < tp && j < SliceLength(|rows|, tp)
    ensures var token := TokenOf(SliceLength(|rows|, tp), r, j);
            Chunk(rows, zero, tp, r)[j] == if token < |rows| then rows[token] else zero
  {
    MulBelow(r, tp, SliceLength(|rows|, tp));
    var p, token := Padded(rows, zero, tp), TokenOf(SliceLength(|rows|, tp), r, j);
    assert p[token] == if token < |rows| then rows[token] else zero;
    hide Padded, SliceLength;
  }

  lemma RankIdsAt<T>(topk: T -> seq<int>, rows: seq<T>, zero: T, tp: nat, r: nat, j: nat)
    requires r < tp && j < SliceLength(|rows|, tp)
    ensures var id := topk(Chunk(rows, zero, tp, r)[j]);
            RankIds(topk, rows, zero, tp, r)[j]
            == if TokenOf(SliceLength(|rows|, tp), r, j) < |rows| then id else seq(|id|, _ => -1)
  {
    hide Chunk, SliceLength;
    var chunk := Chunk(rows, zero, tp, r);
    assert Route(topk, chunk)[j] == topk(chunk[j]);
  }

  /** A slice row that is a real token keeps its experts; any other is padding and goes to no
    * expert. */
  lemma RowOfSlice<T>(topk: T -> seq<int>, rows: seq<T>, zero: T, tp: nat, r: nat, j: nat)
    requires r < tp && j < SliceLength(|rows|, tp)
    ensures var token := TokenOf(SliceLength(|rows|, tp), r, j);
            if token < |rows| then
              Chunk(rows, zero, tp, r)[j] == rows[token] && RankIds(topk, rows, zero, tp, r)[j] == topk(rows[token])
            else
              && Chunk(rows, zero, tp, r)[j] == zero && |RankIds(topk, rows, zero, tp, r)[j]| == |topk(zero)|
              && forall id :: id in RankIds(topk, rows, zero, tp, r)[j] ==> id == -1
  {
    hide Chunk, RankIds, SliceLength, TokenOf;
    ChunkAt(rows, zero, tp, r, j);
    RankIdsAt(topk, rows, zero, tp, r, j);
  }

  /** Slices are no longer than it takes to cover the rows. */
  lemma SliceIsLeast(n: nat, tp: nat, len: nat)
    requires tp > 0
    ensures SliceLength(n, tp) <= len <==> n <= len * tp
  {
    CeilingAtMost(n, tp, len);
  }

  /** Every real token is in the slice of one rank, in one place, and nowhere else. */
  lemma OneOwner(n: nat, tp: nat, i: nat)
    requires tp > 0 && i < n
    ensures SliceLength(n, tp) > 0 && 0 <= i / SliceLength(n, tp) < tp
    ensures forall r, j :: 0 <= r < tp && 0 <= j < SliceLength(n, tp) ==>
              (TokenOf(SliceLength(n, tp), r, j) == i <==> r == i / SliceLength(n, tp) && j == i % SliceLength(n, tp))
  {
    var len := SliceLength(n, tp);
    CeilingBounds(n, tp);
    assert len > 0;
    FloorBounds(i, len);
    if tp <= i / len {
      MulAtMost(tp, i / len, len);
    }
    hide SliceLength;
    forall r, j | 0 <= r < tp && 0 <= j < len ensures TokenOf(len, r, j) == i <==> r == i / len && j == i % len {
      PlaceIs(i, len, r, j);
    }
  }

  lemma PlaceIs(i: nat, len: nat, r: nat, j: nat)
    requires j < len
    ensures TokenOf(len, r, j) == i <==> r == i / len && j == i % len
  {
    assert i == len * (i / len) + i % len;
    if r * len + j == i {
      ModIs(i, len, r, j);
    }
  }

  lemma {:induction false} GatheredAt<T, O>(topk: T -> seq<int>, run: (T, seq<int>) -> O, rows: seq<T>, zero: T,
                                            tp: nat, ranks: nat, i: nat)
    requires ranks <= tp && i < |AllGather(topk, run, rows, zero, tp, ranks)|
    ensures tp > 0 && SliceLength(|rows|, tp) > 0 && i / SliceLength(|rows|, tp) < ranks
    ensures AllGather(topk, run, rows, zero, tp, ranks)[i]
         == RankOutput(topk, run, rows, zero, tp, i / SliceLength(|rows|, tp))[i % SliceLength(|rows|, tp)]
  {
    var len := SliceLength(|rows|, tp);
    assert ranks * len == (ranks - 1) * len + len;
    if i < (ranks - 1) * len {
      GatheredAt(topk, run, rows, zero, tp, ranks - 1, i);
    } else {
      ModIs(i, len, ranks - 1, i - (ranks - 1) * len);
    }
  }

  /** The sliced forward is the unsliced one: the same rows, in order, none twice. */
  lemma SlicingIsInvisible<T, O>(topk: T -> seq<int>, run: (T, seq<int>) -> O, rows: seq<T>, zero: T, tp: nat)
    requires tp > 0
    ensures Forward(topk, run, rows, zero, tp) == Remote(run, rows, Route(topk, rows))
  {
    if tp > 1 {
      CeilingBounds(|rows|, tp);
      forall i | 0 <= i < |rows| ensures Forward(topk, run, rows, zero, tp)[i] == run(rows[i], topk(rows[i])) {
        GatheredToken(topk, run, rows, zero, tp, i);
      }
    }
  }

  /** With several TP ranks, a token's row comes from the rank whose slice it is in, computed
    * from that slice alone. */
  lemma ForwardIsSliced<T, O>(topk: T -> seq<int>, run: (T, seq<int>) -> O, rows: seq<T>, zero: T, tp: nat, i: nat)
    requires tp > 1 && i < |rows|
    ensures var len := SliceLength(|rows|, tp);
            && len > 0 && i / len < tp && |Forward(topk, run, rows, zero, tp)| == |rows|
            && Forward(topk, run, rows, zero, tp)[i] == RankOutput(topk, run, rows, zero, tp, i / len)[i % len]
  {
    CeilingBounds(|rows|, tp);
    GatheredAt(topk, run, rows, zero, tp, tp, i);
  }

  lemma GatheredToken<T, O>(topk: T -> seq<int>, run: (T, seq<int>) -> O, rows: seq<T>, zero: T, tp: nat, i: nat)
    requires tp > 0 && i < |rows| <= |AllGather(topk, run, rows, zero, tp, tp)|
    ensures AllGather(topk, run, rows, zero, tp, tp)[i] == run(rows[i], topk(rows[i]))
  {
    OneOwner(|rows|, tp, i);
    GatheredAt(topk, run, rows, zero, tp, tp, i);
    var len := SliceLength(|rows|, tp);
    RowOfSlice(topk, rows, zero, tp, i / len, i % len);
    PlaceIs(i, len, i / len, i % len);
    hide SliceLength, AllGather, TokenOf;
  }
}
