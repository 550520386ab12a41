/** The balanced routing strategy for mixture-of-experts benchmarks.
  *
  * Tokens take their experts in turn from one cycle over a pool of experts.  The random
  * permutation that orders the full pool comes from a seeded generator; here it is a
  * parameter, fixed for a number of experts.
  */
module BalancedRouting {
  import opened Arithmetic
  import opened Sequences
  import opened Wrappers

  datatype Config = Config(numExperts: int, epSize: int, epRank: int, topK: int, topnPerRank: int)

  datatype Buffers = Buffers(weights: seq<seq<real>>, expertIds: seq<seq<int>>)

  /** A shuffle of the experts for every number of them. */
  type Shuffle = nat -> seq<int>

  predicate IsPermutation(s: seq<int>, n: nat) {
    && |s| == n
    && (forall i :: 0 <= i < n ==> 0 <= s[i] < n)
    && (forall i, j :: 0 <= i < j < n ==> s[i] != s[j])
    && (forall x :: 0 <= x < n ==> x in s)
  }

  ghost predicate Shuffles(shuffle: Shuffle) {
    forall n :: IsPermutation(shuffle(n), n)
  }

  function ValidateConfig(c: Config): Result<(), string> {
    if c.numExperts <= 0 then Error("num_experts must be positive")
    else if c.epSize <= 0 then Error("ep_size must be positive")
    else if !(0 <= c.epRank < c.epSize) then Error("ep_rank must be within the expert-parallel group")
    else if c.topK <= 0 then Error("top_k must be positive")
    else if c.numExperts % c.epSize != 0 then Error("num_experts must be divisible by ep_size")
    else
      var local := c.numExperts / c.epSize;
      var selected := if c.topnPerRank != 0 then c.topnPerRank else local;
      if !(0 < selected <= local) then Error("topn per rank is out of range")
      else if c.topK > selected * c.epSize then Error("selected expert pool must contain at least top_k experts")
      else Ok(())
  }

  predicate Accepted(c: Config) {
    ValidateConfig(c).Ok?
  }

  lemma LocalSize(c: Config)
    requires Accepted(c)
    ensures c.numExperts / c.epSize >= 1 && c.numExperts == c.epSize * (c.numExperts / c.epSize)
  {
    assert c.numExperts == c.epSize * (c.numExperts / c.epSize) + c.numExperts % c.epSize;
  }

  /** Which configurations are accepted; zero per rank stands for all of a rank's experts. */
  lemma ConfigIsAcceptedIff(c: Config)
    ensures Accepted(c) <==>
              && c.numExperts >= 1 && c.epSize >= 1 && 0 <= c.epRank < c.epSize && c.topK >= 1
              && c.numExperts % c.epSize == 0
              && if c.topnPerRank == 0 then c.topK <= c.numExperts
                 else 1 <= c.topnPerRank && c.topnPerRank * c.epSize <= c.numExperts
                      && c.topK <= c.topnPerRank * c.epSize
  {
    if c.numExperts > 0 && c.epSize > 0 && c.numExperts % c.epSize == 0 {
      var local, n := c.numExperts / c.epSize, c.topnPerRank;
      assert c.numExperts == c.epSize * local + c.numExperts % c.epSize;
      assert local >= 1;
      if n <= local {
        MulAtMost(n, local, c.epSize);
      } else {
        MulBelow(local, n, c.epSize);
      }
    }
  }

  /** Experts on each rank. */
  function Local(c: Config): (n: nat)
    requires Accepted(c)
    ensures n >= 1 && c.numExperts == c.epSize * n
  {
    LocalSize(c);
    c.numExperts / c.epSize
  }

  /** Experts of each rank that take part. */
  function Selected(c: Config): (n: nat)
    requires Accepted(c)
    ensures 1 <= n <= Local(c) && c.topK <= n * c.epSize
  {
    if c.topnPerRank != 0 then c.topnPerRank else Local(c)
  }

  /** The first `topn` experts of each of the first `ranks` ranks. */
  function Ranges(local: nat, topn: nat, ranks: nat): seq<int> {
    if ranks == 0 then [] else Ranges(local, topn, ranks - 1) + seq(topn, j => (ranks - 1) * local + j)
  }

  function BaseCycle(c: Config, shuffle: Shuffle): seq<int>
    requires Accepted(c)
  {
    if c.topnPerRank != 0 then Ranges(Local(c), c.topnPerRank, c.epSize) else shuffle(c.numExperts)
  }

  function ExpertCycle(c: Config, shuffle: Shuffle): (cycle: seq<int>)
    requires Accepted(c)
    ensures |cycle| == |BaseCycle(c, shuffle)|
  {
    var base := BaseCycle(c, shuffle);
    seq(|base|, i requires 0 <= i < |base| => (base[i] + c.epRank * Local(c)) % c.numExperts)
  }

  // ---------- the cycle ----------

  lemma {:induction false} RangesLength(local: nat, topn: nat, ranks: nat)
    ensures |Ranges(local, topn, ranks)| == ranks * topn
  {
    if ranks > 0 {
      RangesLength(local, topn, ranks - 1);
      assert ranks * topn == (ranks - 1) * topn + topn;
    }
  }

  lemma {:induction false} RangesAt(local: nat, topn: nat, ranks: nat, i: nat)
    requires topn > 0 && i < |Ranges(local, topn, ranks)|
    ensures Ranges(local, topn, ranks)[i] == i / topn * local + i % topn
  {
    RangesLength(local, topn, ranks);
    if ranks > 0 {
      RangesLength(local, topn, ranks - 1);
      if i < |Ranges(local, topn, ranks - 1)| {
        RangesAt(local, topn, ranks - 1, i);
      } else {
        ModIs(i, topn, ranks - 1, i - (ranks - 1) * topn);
      }
    }
  }

  /** The experts that take part: the first `Selected` of every rank. */
  predicate InPool(c: Config, id: int)
    requires Accepted(c)
  {
    0 <= id < c.numExperts && id % Local(c) < Selected(c)
  }

  /** `s` lists exactly the pool, each expert once. */
  ghost predicate ListsPool(c: Config, s: seq<int>)
    requires Accepted(c)
  {
    && |s| == c.epSize * Selected(c) && Distinct(s)
    && forall id :: id in s <==> InPool(c, id)
  }

  /** Rank and offset survive a change of the number of experts per rank. */
  lemma Renumber(i: int, w: nat, w': nat, ranks: nat)
    requires w > 0 && 0 <= i < ranks * w && i % w < w'
    ensures var x := i / w * w' + i % w;
            0 <= x < ranks * w' && x / w' == i / w < ranks && x % w' == i % w
    ensures i == i / w * w + i % w
  {
    var q, o := i / w, i % w;
    FloorBounds(i, w);
    assert i == w * q + o;
    if ranks <= q {
      MulAtMost(ranks, q, w);
    }
    if q < 0 {
      MulBelow(q, 0, w);
    }
    MulBelow(q, ranks, w');
    ModIs(q * w' + o, w', q, o);
  }

  lemma RangesListPool(c: Config)
    requires Accepted(c) && c.topnPerRank != 0
    ensures ListsPool(c, Ranges(Local(c), c.topnPerRank, c.epSize))
  {
    var local, topn, ranks := Local(c), c.topnPerRank, c.epSize;
    assert c.numExperts == ranks * local && topn == Selected(c) <= local;
    hide Local, Selected, Accepted;
    var s := Ranges(local, topn, ranks);
    RangesLength(local, topn, ranks);
    forall i | 0 <= i < |s| ensures InPool(c, s[i]) && s[i] / local * topn + s[i] % local == i {
      RangesAt(local, topn, ranks, i);
      Renumber(i, topn, local, ranks);
    }
    forall id | InPool(c, id) ensures id in s {
      Renumber(id, local, topn, ranks);
      var i := id / local * topn + id % local;
      RangesAt(local, topn, ranks, i);
      assert s[i] == id;
    }
  }

  lemma BaseListsPool(c: Config, shuffle: Shuffle)
    requires Accepted(c) && Shuffles(shuffle)
    ensures ListsPool(c, BaseCycle(c, shuffle))
  {
    if c.topnPerRank != 0 {
      RangesListPool(c);
    } else {
      assert IsPermutation(shuffle(c.numExperts), c.numExperts);
    }
  }

  /** The expert `k` ranks further on, at the same offset. */
  function Shifted(x: int, k: nat, local: nat, ranks: nat): int
    requires local > 0 && ranks > 0
  {
    var q := x / local + k;
    (if q < ranks then q else q - ranks) * local + x % local
  }

  lemma ShiftIs(x: int, k: nat, local: nat, ranks: nat)
    requires local > 0 && ranks > 0 && 0 <= x < ranks * local && k < ranks
    ensures (x + k * local) % (ranks * local) == Shifted(x, k, local, ranks)
    ensures 0 <= Shifted(x, k, local, ranks) < ranks * local
    ensures Shifted(x, k, local, ranks) % local == x % local
    ensures Shifted(x, k, local, ranks) / local
         == (if x / local + k < ranks then x / local + k else x / local + k - ranks)
    ensures x / local < ranks
  {
    Renumber(x, local, local, ranks);
    var q, o := x / local + k, x % local;
    var w := if q < ranks then q else q - ranks;
    var y := w * local + o;
    ModIs(y, local, w, o);
    MulBelow(w, ranks, local);
    assert x + k * local == q * local + o;
    assert q * local == w * local + (q - w) * local;
    ModIs(x + k * local, ranks * local, if q < ranks then 0 else 1, y);
  }

  lemma ShiftBack(x: int, k: nat, local: nat, ranks: nat)
    requires local > 0 && ranks > 0 && 0 <= x < ranks * local && 0 < k < ranks
    ensures Shifted(Shifted(x, k, local, ranks), ranks - k, local, ranks) == x
  {
    ShiftIs(x, k, local, ranks);
    Renumber(x, local, local, ranks);
  }

  function Back(k: nat, ranks: nat): nat
    requires k < ranks
  {
    if k == 0 then 0 else ranks - k
  }

  lemma TurnKeepsPool(c: Config, id: int, k: nat)
    requires Accepted(c) && InPool(c, id) && k < c.epSize
    ensures var turned := Shifted(id, k, Local(c), c.epSize);
            && turned == (id + k * Local(c)) % c.numExperts && InPool(c, turned)
            && Shifted(turned, Back(k, c.epSize), Local(c), c.epSize) == id
  {
    var local, ranks := Local(c), c.epSize;
    assert c.numExperts == ranks * local;
    hide Accepted, Local, Selected;
    ShiftIs(id, k, local, ranks);
    if k > 0 {
      ShiftBack(id, k, local, ranks);
    } else {
      Renumber(id, local, local, ranks);
    }
  }

  /** Two lists that go over into each other by turning the pool list the same experts. */
  lemma TurnedListsPool(c: Config, base: seq<int>, cycle: seq<int>, k: nat)
    requires Accepted(c) && k < c.epSize && ListsPool(c, base) && |cycle| == |base|
    requires forall i :: 0 <= i < |base| ==> cycle[i] == Shifted(base[i], k, Local(c), c.epSize)
    ensures ListsPool(c, cycle)
  {
    var ranks := c.epSize;
    BackIsBack(k, ranks);
    hide Local, Selected, Accepted, Shifted, InPool, Back;
    forall i | 0 <= i < |base|
      ensures InPool(c, cycle[i]) && Shifted(cycle[i], Back(k, ranks), Local(c), ranks) == base[i]
    {
      assert base[i] in base;
      TurnKeepsPool(c, base[i], k);
    }
    forall id | InPool(c, id) ensures id in cycle {
      TurnKeepsPool(c, id, Back(k, ranks));
      var before := Shifted(id, Back(k, ranks), Local(c), ranks);
      assert before in base;
      var i :| 0 <= i < |base| && base[i] == before;
      assert cycle[i] == id;
    }
  }

  /** Whatever the rank and the shuffle, the cycle lists exactly the pool, each expert once:
    * every rank contributes the same number of experts to it. */
  lemma CycleListsPool(c: Config, shuffle: Shuffle)
    requires Accepted(c) && Shuffles(shuffle)
    ensures ListsPool(c, ExpertCycle(c, shuffle))
  {
    var base, cycle, k := BaseCycle(c, shuffle), ExpertCycle(c, shuffle), c.epRank;
    BaseListsPool(c, shuffle);
    hide Local, Selected, BaseCycle, Shifted, InPool;
    forall i | 0 <= i < |base| ensures cycle[i] == Shifted(base[i], k, Local(c), c.epSize) {
      assert base[i] in base;
      TurnKeepsPool(c, base[i], k);
    }
    TurnedListsPool(c, base, cycle, k);
  }

  lemma BackIsBack(k: nat, ranks: nat)
    requires k < ranks
    ensures Back(k, ranks) < ranks && Back(Back(k, ranks), ranks) == k
  {
  }

  // ---------- the buffers ----------

  /** The id met after `i` steps around the cycle. */
  function Around(cycle: seq<int>, i: nat): int
    requires cycle != []
  {
    cycle[i % |cycle|]
  }

  lemma AroundIn(cycle: seq<int>, i: nat)
    requires cycle != []
    ensures Around(cycle, i) in cycle
  {
  }

  /** The first `total` ids of the cycle, repeated often enough. */
  function FlatIds(cycle: seq<int>, total: nat): (ids: seq<int>)
    requires cycle != []
    ensures |ids| == total
  {
    RepeatLength(cycle, (total + |cycle| - 1) / |cycle|);
    CeilingBounds(total, |cycle|);
    Repeat(cycle, (total + |cycle| - 1) / |cycle|)[..total]
  }

  lemma FlatIdAt(cycle: seq<int>, total: nat, i: nat)
    requires cycle != [] && i < total
    ensures FlatIds(cycle, total)[i] == Around(cycle, i)
  {
    RepeatLength(cycle, (total + |cycle| - 1) / |cycle|);
    CeilingBounds(total, |cycle|);
    RepeatAt(cycle, (total + |cycle| - 1) / |cycle|, i);
  }

  function Reshape(flat: seq<int>, rows: nat, width: nat): (table: seq<seq<int>>)
    requires |flat| == rows * width
    ensures |table| == rows && forall t :: 0 <= t < rows ==> |table[t]| == width
  {
    if rows == 0 then []
    else
      var cut := (rows - 1) * width;
      assert rows * width == cut + width;
      Reshape(flat[..cut], rows - 1, width) + [flat[cut..]]
  }

  lemma {:induction false} ReshapeAt(flat: seq<int>, rows: nat, width: nat, t: nat, j: nat)
    requires |flat| == rows * width && t < rows && j < width
    ensures Place(width, t, j) < |flat| && Reshape(flat, rows, width)[t][j] == flat[Place(width, t, j)]
  {
    var cut := (rows - 1) * width;
    assert rows * width == cut + width;
    if t < rows - 1 {
      ReshapeAt(flat[..cut], rows - 1, width, t, j);
    }
  }

  lemma CycleNotEmpty(c: Config, shuffle: Shuffle)
    requires Accepted(c) && Shuffles(shuffle)
    ensures |ExpertCycle(c, shuffle)| >= c.topK >= 1
  {
    CycleListsPool(c, shuffle);
  }

  function Ids(c: Config, shuffle: Shuffle, maxTokens: nat): (ids: seq<seq<int>>)
    requires Shuffles(shuffle) && Accepted(c)
    ensures |ids| == maxTokens && forall t :: 0 <= t < maxTokens ==> |ids[t]| == c.topK
  {
    CycleNotEmpty(c, shuffle);
    Reshape(FlatIds(ExpertCycle(c, shuffle), maxTokens * c.topK), maxTokens, c.topK)
  }

  function Weights(c: Config, maxTokens: nat): seq<seq<real>>
    requires c.topK > 0
  {
    seq(maxTokens, _ => seq(c.topK, _ => 1.0 / (c.topK as real)))
  }

  function BuildRoutingBuffers(c: Config, shuffle: Shuffle, maxTokens: nat): Result<Buffers, string>
    requires Shuffles(shuffle)
  {
    match ValidateConfig(c)
    case Error(e) => Error(e)
    case Ok(_) => Ok(Buffers(Weights(c, maxTokens), Ids(c, shuffle, maxTokens)))
  }

  function RowSum(row: seq<real>): real {
    if row == [] then 0.0 else RowSum(row[..|row| - 1]) + row[|row| - 1]
  }

  lemma {:induction false} EqualSum(row: seq<real>, x: real)
    requires forall j :: 0 <= j < |row| ==> row[j] == x
    ensures RowSum(row) == x * (|row| as real)
  {
    if row != [] {
      EqualSum(row[..|row| - 1], x);
      assert |row| as real == (|row| - 1) as real + 1.0;
    }
  }

  /** The weights of a token are uniform and add up to one. */
  lemma WeightsAreNormalized(c: Config, maxTokens: nat, t: nat)
    requires Accepted(c) && t < maxTokens
    ensures |Weights(c, maxTokens)[t]| == c.topK && RowSum(Weights(c, maxTokens)[t]) == 1.0
    ensures forall i, j :: 0 <= i < j < c.topK ==> Weights(c, maxTokens)[t][i] == Weights(c, maxTokens)[t][j]
  {
    EqualSum(Weights(c, maxTokens)[t], 1.0 / (c.topK as real));
  }

  /** The place of a token's `j`-th expert in the flat list. */
  function Place(width: nat, t: nat, j: nat): nat {
    t * width + j
  }

  /** Tokens take their experts in turn from the cycle, however many are built at once. */
  lemma IdAt(c: Config, shuffle: Shuffle, maxTokens: nat, t: nat, j: nat)
    requires Shuffles(shuffle) && Accepted(c) && t < maxTokens && j < c.topK
    ensures ExpertCycle(c, shuffle) != []
    ensures Ids(c, shuffle, maxTokens)[t][j] == Around(ExpertCycle(c, shuffle), Place(c.topK, t, j))
  {
    CycleNotEmpty(c, shuffle);
    hide ExpertCycle, Accepted, FlatIds, Reshape, Around, Place;
    var cycle := ExpertCycle(c, shuffle);
    ReshapeAt(FlatIds(cycle, maxTokens * c.topK), maxTokens, c.topK, t, j);
    FlatIdAt(cycle, maxTokens * c.topK, Place(c.topK, t, j));
  }

  /** The id written out: without a selection per rank the shuffled experts come in turn, with
    * one the first experts of every rank do; both are moved on by the rank's own share. */
  lemma IdsAre(c: Config, shuffle: Shuffle, maxTokens: nat, t: nat, j: nat)
    requires Shuffles(shuffle) && Accepted(c) && t < maxTokens && j < c.topK
    ensures var id, n, local := Ids(c, shuffle, maxTokens)[t][j], c.numExperts, c.numExperts / c.epSize;
            if c.topnPerRank == 0 then id == (shuffle(n)[(t * c.topK + j) % n] + c.epRank * local) % n
            else
              var p := (t * c.topK + j) % (c.epSize * c.topnPerRank);
              id == (p / c.topnPerRank * local + p % c.topnPerRank + c.epRank * local) % n
  {
    IdAt(c, shuffle, maxTokens, t, j);
    BaseListsPool(c, shuffle);
    var base, p := BaseCycle(c, shuffle), Place(c.topK, t, j);
    var id := Ids(c, shuffle, maxTokens)[t][j];
    assert id == (base[p % |base|] + c.epRank * Local(c)) % c.numExperts;
    hide Ids, Accepted, ExpertCycle, ListsPool;
    if c.topnPerRank != 0 {
      RangesLength(Local(c), c.topnPerRank, c.epSize);
      RangesAt(Local(c), c.topnPerRank, c.epSize, p % |base|);
    }
  }

  lemma RemaindersDiffer(a: nat, b: nat, p: nat)
    requires a < b < a + p
    ensures a % p != b % p
  {
    assert a == p * (a / p) + a % p && b == p * (b / p) + b % p;
    if a / p < b / p {
      MulBelow(a / p, b / p, p);
    } else {
      MulAtMost(b / p, a / p, p);
    }
  }

  lemma PlacesDiffer(cycle: seq<int>, width: nat, t: nat, i: nat, j: nat)
    requires Distinct(cycle) && i < j < width <= |cycle|
    ensures Around(cycle, Place(width, t, i)) != Around(cycle, Place(width, t, j))
  {
    RemaindersDiffer(Place(width, t, i), Place(width, t, j), |cycle|);
  }

  /** A token's experts are distinct and all belong to the pool. */
  lemma TokenExpertsDiffer(c: Config, shuffle: Shuffle, maxTokens: nat, t: nat)
    requires Shuffles(shuffle) && Accepted(c) && t < maxTokens
    ensures Distinct(Ids(c, shuffle, maxTokens)[t])
    ensures forall id :: id in Ids(c, shuffle, maxTokens)[t] ==> InPool(c, id)
  {
    var cycle, row := ExpertCycle(c, shuffle), Ids(c, shuffle, maxTokens)[t];
    CycleNotEmpty(c, shuffle);
    CycleListsPool(c, shuffle);
    hide Accepted, InPool, ExpertCycle, Ids, Around, Place;
    forall j | 0 <= j < c.topK ensures row[j] == Around(cycle, Place(c.topK, t, j)) && row[j] in cycle {
      IdAt(c, shuffle, maxTokens, t, j);
      AroundIn(cycle, Place(c.topK, t, j));
    }
    forall i, j | 0 <= i < j < c.topK ensures row[i] != row[j] {
      PlacesDiffer(cycle, c.topK, t, i, j);
    }
  }

  // ---------- loads ----------

  function Count(s: seq<int>, id: int): nat {
    if s == [] then 0 else Count(s[..|s| - 1], id) + if s[|s| - 1] == id then 1 else 0
  }

  lemma {:induction false} JoinedReshape(flat: seq<int>, rows: nat, width: nat)
    requires |flat| == rows * width
    ensures Joined(Reshape(flat, rows, width)) == flat
  {
    if rows > 0 {
      var cut := (rows - 1) * width;
      assert rows * width == cut + width;
      JoinedReshape(flat[..cut], rows - 1, width);
      var table := Reshape(flat, rows, width);
      assert table[..|table| - 1] == Reshape(flat[..cut], rows - 1, width);
      assert flat == flat[..cut] + flat[cut..];
    }
  }

  /** How often `n` steps around a cycle of length `w` meet the place `p`. */
  function Meetings(n: nat, w: nat, p: nat): nat
    requires w > 0
  {
    FloorBounds(n, w);
    n / w + if p < n % w then 1 else 0
  }

  lemma OneFurther(n: nat, w: nat, p: nat)
    requires p < w
    ensures Meetings(0, w, p) == 0
    ensures Meetings(n + 1, w, p) == Meetings(n, w, p) + if n % w == p then 1 else 0
  {
    ModIs(0, w, 0, 0);
    assert n == w * (n / w) + n % w;
    if n % w == w - 1 {
      ModIs(n + 1, w, n / w + 1, 0);
    } else {
      ModIs(n + 1, w, n / w, n % w + 1);
    }
  }

  lemma MeetingsAreBalanced(n: nat, w: nat, p: nat, q: nat)
    requires w > 0
    ensures Meetings(n, w, p) <= Meetings(n, w, q) + 1
  {
  }

  /** Going round a cycle, an id is met once a round, at its place. */
  lemma {:induction false} CountRound(cycle: seq<int>, ids: seq<int>, p: nat)
    requires p < |cycle| && Distinct(cycle)
    requires forall i :: 0 <= i < |ids| ==> ids[i] == Around(cycle, i)
    ensures Count(ids, cycle[p]) == Meetings(|ids|, |cycle|, p)
  {
    hide Around, Meetings;
    if ids == [] {
      OneFurther(0, |cycle|, p);
    } else {
      var n := |ids| - 1;
      AroundIs(cycle, n, p);
      OneFurther(n, |cycle|, p);
      CountRound(cycle, ids[..n], p);
    }
  }

  lemma AroundIs(cycle: seq<int>, i: nat, p: nat)
    requires p < |cycle| && Distinct(cycle)
    ensures Around(cycle, i) == cycle[p] <==> i % |cycle| == p
  {
  }

  lemma {:induction false} CountNone(s: seq<int>, id: int)
    requires id !in s
    ensures Count(s, id) == 0
  {
    if s != [] {
      CountNone(s[..|s| - 1], id);
    }
  }

  /** All ids handed out to `tokens` tokens. */
  function Handed(c: Config, shuffle: Shuffle, tokens: nat): seq<int>
    requires Shuffles(shuffle) && Accepted(c)
  {
    Joined(Ids(c, shuffle, tokens))
  }

  lemma HandedIsFlat(c: Config, shuffle: Shuffle, tokens: nat)
    requires Shuffles(shuffle) && Accepted(c)
    ensures ExpertCycle(c, shuffle) != []
         && Handed(c, shuffle, tokens) == FlatIds(ExpertCycle(c, shuffle), tokens * c.topK)
  {
    CycleNotEmpty(c, shuffle);
    JoinedReshape(FlatIds(ExpertCycle(c, shuffle), tokens * c.topK), tokens, c.topK);
  }

  /** Over any number of tokens, the loads of the pool's experts differ by at most one, and
    * no other expert is used. */
  lemma LoadsAreBalanced(c: Config, shuffle: Shuffle, tokens: nat, a: int, b: int)
    requires Shuffles(shuffle) && Accepted(c) && InPool(c, a)
    ensures InPool(c, b) ==> Count(Handed(c, shuffle, tokens), a) <= Count(Handed(c, shuffle, tokens), b) + 1
    ensures !InPool(c, b) ==> Count(Handed(c, shuffle, tokens), b) == 0
  {
    HandedIsFlat(c, shuffle, tokens);
    CycleListsPool(c, shuffle);
    var cycle, ids := ExpertCycle(c, shuffle), Handed(c, shuffle, tokens);
    hide Accepted, InPool, ExpertCycle, Handed, FlatIds, Count, Meetings, Around;
    forall i | 0 <= i < |ids| ensures ids[i] == Around(cycle, i) && ids[i] in cycle {
      FlatIdAt(cycle, tokens * c.topK, i);
      AroundIn(cycle, i);
    }
    var p :| 0 <= p < |cycle| && cycle[p] == a;
    CountRound(cycle, ids, p);
    if InPool(c, b) {
      var q :| 0 <= q < |cycle| && cycle[q] == b;
      CountRound(cycle, ids, q);
      MeetingsAreBalanced(|ids|, |cycle|, p, q);
    } else {
      CountNone(ids, b);
    }
  }

  // ---------- the buffer cache ----------

  /** The first tokens of a larger table are the table of fewer tokens. */
  lemma PrefixIsFresh(c: Config, shuffle: Shuffle, more: nat, tokens: nat)
    requires Shuffles(shuffle) && Accepted(c) && tokens <= more
    ensures Ids(c, shuffle, more)[..tokens] == Ids(c, shuffle, tokens)
  {
    hide Accepted, Ids, ExpertCycle, Around, Place;
    forall t | 0 <= t < tokens ensures Ids(c, shuffle, more)[t] == Ids(c, shuffle, tokens)[t] {
      forall j | 0 <= j < c.topK ensures Ids(c, shuffle, more)[t][j] == Ids(c, shuffle, tokens)[t][j] {
        IdAt(c, shuffle, more, t, j);
        IdAt(c, shuffle, tokens, t, j);
      }
    }
  }

  ghost predicate IsBuild(c: Config, shuffle: Shuffle, b: Buffers)
    requires Shuffles(shuffle)
  {
    BuildRoutingBuffers(c, shuffle, |b.expertIds|) == Ok(b)
  }

  lemma BuildIsBuild(c: Config, shuffle: Shuffle, tokens: nat)
    requires Shuffles(shuffle) && BuildRoutingBuffers(c, shuffle, tokens).Ok?
    ensures var b := BuildRoutingBuffers(c, shuffle, tokens).value;
            IsBuild(c, shuffle, b) && |b.expertIds| == |b.weights| == tokens
  {
  }

  lemma PrefixOfBuild(c: Config, shuffle: Shuffle, b: Buffers, tokens: nat)
    requires Shuffles(shuffle) && IsBuild(c, shuffle, b) && tokens <= |b.expertIds|
    ensures |b.weights| == |b.expertIds|
    ensures BuildRoutingBuffers(c, shuffle, tokens) == Ok(Buffers(b.weights[..tokens], b.expertIds[..tokens]))
  {
    hide Ids;
    PrefixIsFresh(c, shuffle, |b.expertIds|, tokens);
    assert Weights(c, |b.expertIds|)[..tokens] == Weights(c, tokens);
  }

  /** The settings, and the device and index type by name. */
  type Key = (Config, string)

  class BalancedRoutingStrategy {
    const topnPerRank: int
    const shuffle: Shuffle
    var buffers: map<Key, Buffers>

    constructor (topnPerRank: int, shuffle: Shuffle)
      requires Shuffles(shuffle)
      ensures Valid() && this.topnPerRank == topnPerRank && this.shuffle == shuffle
    {
      this.topnPerRank, this.shuffle, buffers := topnPerRank, shuffle, map[];
    }

    /** Every cached table is a fresh build for its settings. */
    ghost predicate Valid()
      reads this
    {
      Shuffles(shuffle) && forall key :: key in buffers ==> IsBuild(key.0, shuffle, buffers[key])
    }

    /** Caching is invisible: the result is always that of a fresh build for these tokens. */
    method RouteTokens(numExperts: int, epSize: int, epRank: int, topK: int, kind: string, numTokens: nat)
      returns (r: Result<Buffers, string>)
      requires Valid()
      modifies this
      ensures Valid()
      ensures r == BuildRoutingBuffers(Config(numExperts, epSize, epRank, topK, topnPerRank), shuffle, numTokens)
    {
      hide BuildRoutingBuffers, Shuffles;
      var c := Config(numExperts, epSize, epRank, topK, topnPerRank);
      var key := (c, kind);
      if key !in buffers || |buffers[key].expertIds| < numTokens {
        var built := BuildRoutingBuffers(c, shuffle, numTokens);
        if built.Error? {
          return built;
        }
        BuildIsBuild(c, shuffle, numTokens);
        buffers := buffers[key := built.value];
      }
      PrefixOfBuild(c, shuffle, buffers[key], numTokens);
      return Ok(Buffers(buffers[key].weights[..numTokens], buffers[key].expertIds[..numTokens]));
    }
  }
}
