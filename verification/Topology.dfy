/** The P2P rank topology: A Attention ranks spread over F FFN ranks in balanced blocks.
  *
  * World ranks put the FFN first: FFN rank f is f, Attention rank a is F + a.
  */
module Topology {
  import opened Arithmetic
  import opened Sequences
  import opened Wrappers

  datatype Role = Attention | Ffn

  /** The configuration checks both sizes; the P2P connector also needs A >= F. */
  predicate Sized(A: nat, F: nat) {
    1 <= F <= A
  }

  /** The first Attention rank of block `i`: i * A / F rounded up. */
  function BlockStart(i: nat, A: nat, F: nat): nat
    requires F > 0
  {
    (i * A + F - 1) / F
  }

  /** The FFN rank that Attention rank `a` joins. */
  function SubgroupOf(a: nat, A: nat, F: nat): nat
    requires A > 0
  {
    a * F / A
  }

  predicate InBlock(a: nat, i: nat, A: nat, F: nat)
    requires F > 0
  {
    BlockStart(i, A, F) <= a < BlockStart(i + 1, A, F)
  }

  // ---------- the blocks ----------

  /** `a * F / A` is exactly the index of the block that contains `a`. */
  lemma BlockIsSubgroup(a: nat, i: nat, A: nat, F: nat)
    requires Sized(A, F) && a < A
    ensures InBlock(a, i, A, F) <==> i == SubgroupOf(a, A, F)
  {
    CeilingAtMost(i * A, F, a);
    CeilingAtMost((i + 1) * A, F, a);
    FloorIs(a * F, A, i);
    assert (i + 1) * A == i * A + A;
  }

  /** The subgroup in terms of shares: Attention rank `a` starts at the fraction a / A of all
    * ranks, which lies in the f-th of F equal parts. */
  lemma SubgroupBounds(a: nat, f: nat, A: nat, F: nat)
    requires Sized(A, F) && a < A
    ensures f == SubgroupOf(a, A, F) <==> f * A <= a * F < (f + 1) * A
  {
    FloorIs(a * F, A, f);
    assert (f + 1) * A == f * A + A;
  }

  lemma SubgroupInRange(a: nat, A: nat, F: nat)
    requires Sized(A, F) && a < A
    ensures SubgroupOf(a, A, F) < F
  {
    var i := SubgroupOf(a, A, F);
    FloorBounds(a * F, A);
    MulBelow(a, A, F);
    if F <= i {
      MulAtMost(F, i, A);
    }
  }

  /** Every block holds A / F ranks, rounded down or up. */
  lemma BlockSize(i: nat, A: nat, F: nat)
    requires Sized(A, F)
    ensures var n := BlockStart(i + 1, A, F) - BlockStart(i, A, F);
            A / F <= n <= (A + F - 1) / F && n >= 1
  {
    var lo, hi := BlockStart(i, A, F), BlockStart(i + 1, A, F);
    CeilingBounds(i * A, F);
    CeilingBounds((i + 1) * A, F);
    assert (i + 1) * A == i * A + A;
    assert (hi - lo) * F == hi * F - lo * F;
    BetweenRoundings(hi - lo, A, F);
  }

  lemma BetweenRoundings(n: int, A: nat, F: nat)
    requires Sized(A, F) && A - F < n * F < A + F
    ensures A / F <= n <= (A + F - 1) / F && n >= 1
  {
    FloorBounds(A, F);
    CeilingBounds(A, F);
    if n < A / F {
      MulBelow(n, A / F, F);
    }
    if (A + F - 1) / F < n {
      MulBelow((A + F - 1) / F, n, F);
    }
    if n < 1 {
      MulAtMost(n, 0, F);
    }
  }

  /** The blocks are contiguous, start at 0, end at A, and none is empty. */
  lemma BlocksPartition(A: nat, F: nat)
    requires Sized(A, F)
    ensures BlockStart(0, A, F) == 0 && BlockStart(F, A, F) == A
    ensures forall i: nat :: i < F ==> BlockStart(i, A, F) < BlockStart(i + 1, A, F)
  {
    FloorUnique(F - 1, F, 0);
    FloorUnique(F * A + F - 1, F, A);
    forall i: nat | i < F ensures BlockStart(i, A, F) < BlockStart(i + 1, A, F) {
      BlockSize(i, A, F);
    }
  }

  /** Any two block sizes differ by at most one. */
  lemma BlocksAreBalanced(i: nat, j: nat, A: nat, F: nat)
    requires Sized(A, F)
    ensures var n := BlockStart(i + 1, A, F) - BlockStart(i, A, F);
            var m := BlockStart(j + 1, A, F) - BlockStart(j, A, F);
            n <= m + 1
  {
    BlockSize(i, A, F);
    BlockSize(j, A, F);
    CeilingNearFloor(A, F);
  }

  // ---------- the rank mapping ----------

  datatype RankMapping = RankMapping(
    role: Role, roleRank: nat, worldRank: nat, p2pRank: nat, minSize: nat,
    subgroupIndex: nat, rankInSubgroup: nat, subgroupRanks: seq<nat>, destinations: seq<nat>)

  /** World ranks of a subgroup: its FFN rank, then its Attention block. */
  function Roster(i: nat, A: nat, F: nat): (r: seq<nat>)
    requires F > 0
    ensures |r| >= 1 && r[0] == i
  {
    var lo, hi := BlockStart(i, A, F), BlockStart(i + 1, A, F);
    [i] + if hi <= lo then [] else seq(hi - lo, k requires 0 <= k => F + lo + k)
  }

  method IndexOf(ranks: seq<nat>, rank: nat) returns (index: nat)
    requires rank in ranks
    ensures index < |ranks| && ranks[index] == rank && rank !in ranks[..index]
  {
    index := 0;
    while ranks[index] != rank
      invariant index < |ranks| && rank !in ranks[..index] && rank in ranks[index..]
      decreases |ranks| - index
    {
      index := index + 1;
    }
  }

  /** `first`, `first + step`, ... below `limit`. */
  function Strides(first: nat, step: nat, limit: nat): seq<nat>
    requires step > 0
    decreases limit - first
  {
    if limit <= first then [] else [first] + Strides(first + step, step, limit)
  }

  lemma {:induction false} StridesHave(first: nat, step: nat, limit: nat, x: nat)
    requires step > 0
    ensures x in Strides(first, step, limit) <==> first <= x < limit && x % step == first % step
    ensures Distinct(Strides(first, step, limit))
    decreases limit - first
  {
    if first < limit {
      StridesHave(first + step, step, limit, first);
      StridesHave(first + step, step, limit, x);
      NextResidue(first, step, x);
    }
  }

  lemma NextResidue(first: nat, step: nat, x: nat)
    requires step > 0
    ensures (first + step) % step == first % step
    ensures first < x < first + step ==> x % step != first % step
  {
    var q, r := first / step, first % step;
    assert first == step * q + r;
    ModIs(first + step, step, q + 1, r);
    if first < x < first + step {
      if r + (x - first) < step {
        ModIs(x, step, q, r + (x - first));
      } else {
        ModIs(x, step, q + 1, r + (x - first) - step);
      }
    }
  }

  method Strided(first: nat, step: nat, limit: nat) returns (ranks: seq<nat>)
    requires step > 0
    ensures ranks == Strides(first, step, limit)
  {
    ranks := [];
    var next := first;
    while next < limit
      invariant ranks + Strides(next, step, limit) == Strides(first, step, limit)
      decreases limit - next
    {
      assert ranks + ([next] + Strides(next + step, step, limit)) == ranks + [next] + Strides(next + step, step, limit);
      ranks := ranks + [next];
      next := next + step;
    }
  }

  /** The gate of the senders: the first min(F, A) Attention ranks, by world rank. */
  predicate SendsMetadata(worldRank: nat, A: nat, F: nat) {
    F <= worldRank < F + Min(F, A)
  }

  /** The FFN ranks that a world rank sends metadata to. */
  function Destinations(worldRank: nat, A: nat, F: nat): seq<nat>
    requires A >= 1 && F >= 1
  {
    if SendsMetadata(worldRank, A, F) then Strides(worldRank - F, Min(F, A), F) else []
  }

  method BuildRankMapping(role: Role, roleRank: int, A: nat, F: nat) returns (r: Result<RankMapping, string>)
    requires A >= 1 && F >= 1
    ensures r.Ok? <==> F <= A && 0 <= roleRank < if role.Attention? then A else F
    ensures r.Ok? ==>
              var m := r.value;
              && m.role == role && m.roleRank == roleRank && m.minSize == F
              && m.worldRank == (if role.Attention? then F + roleRank else roleRank)
              && m.p2pRank == m.worldRank
              && m.subgroupIndex == (if role.Attention? then SubgroupOf(roleRank, A, F) else roleRank)
              && m.subgroupRanks == Roster(m.subgroupIndex, A, F)
              && m.rankInSubgroup < |m.subgroupRanks| && m.subgroupRanks[m.rankInSubgroup] == m.worldRank
    ensures r.Ok? ==> r.value.destinations == Destinations(r.value.worldRank, A, F)
  {
    if A < F {
      return Error("requires num_attention_ranks >= num_ffn_ranks");
    }
    if roleRank < 0 {
      return Error("AFD role rank must be non-negative");
    }
    var worldRank, subgroupIndex;
    if role.Attention? {
      if roleRank >= A {
        return Error("Attention role rank must be within attention size");
      }
      worldRank, subgroupIndex := F + roleRank, SubgroupOf(roleRank, A, F);
      RosterHas(roleRank, A, F);
    } else {
      if roleRank >= F {
        return Error("FFN role rank must be within FFN size");
      }
      worldRank, subgroupIndex := roleRank, roleRank;
    }
    var minSize := Min(F, A);
    var ranks := Roster(subgroupIndex, A, F);
    var rankInSubgroup := IndexOf(ranks, worldRank);
    var destinations := [];
    if F <= worldRank < F + minSize {
      destinations := Strided(worldRank - F, minSize, F);
    }
    return Ok(RankMapping(role, roleRank, worldRank, if role.Attention? then roleRank + minSize else roleRank,
                          minSize, subgroupIndex, rankInSubgroup, ranks, destinations));
  }

  lemma RosterHas(a: nat, A: nat, F: nat)
    requires Sized(A, F) && a < A
    ensures F + a in Roster(SubgroupOf(a, A, F), A, F)
  {
    var i := SubgroupOf(a, A, F);
    BlockIsSubgroup(a, i, A, F);
    var k := a - BlockStart(i, A, F);
    assert Roster(i, A, F)[k + 1] == F + a;
  }

  /** Positions on a roster are distinct, and its Attention ranks are those of the block. */
  lemma RosterIsSubgroup(i: nat, A: nat, F: nat)
    requires Sized(A, F) && i < F
    ensures var r := Roster(i, A, F);
            && (forall j, k :: 0 <= j < k < |r| ==> r[j] < r[k])
            && (forall a: nat :: a < A ==> (F + a in r <==> SubgroupOf(a, A, F) == i))
            && (forall k :: 1 <= k < |r| ==> F <= r[k] < F + A)
            && |r| == 1 + BlockStart(i + 1, A, F) - BlockStart(i, A, F)
  {
    var r := Roster(i, A, F);
    BlocksPartition(A, F);
    BlockStartMonotone(i + 1, F, A, F);
    forall a: nat | a < A ensures F + a in r <==> SubgroupOf(a, A, F) == i {
      BlockIsSubgroup(a, i, A, F);
      if InBlock(a, i, A, F) {
        assert r[a - BlockStart(i, A, F) + 1] == F + a;
      }
    }
  }

  lemma RosterAt(i: nat, A: nat, F: nat)
    requires Sized(A, F) && i < F
    ensures var r := Roster(i, A, F);
            && |r| == 1 + BlockStart(i + 1, A, F) - BlockStart(i, A, F)
            && forall k :: 1 <= k < |r| ==> r[k] == F + BlockStart(i, A, F) + k - 1
  {
    BlocksPartition(A, F);
  }

  lemma {:induction false} BlockStartMonotone(i: nat, j: nat, A: nat, F: nat)
    requires Sized(A, F) && i <= j
    ensures BlockStart(i, A, F) <= BlockStart(j, A, F)
    decreases j
  {
    if i < j {
      BlockStartMonotone(i, j - 1, A, F);
      BlockSize(j - 1, A, F);
    }
  }

  /** The P2P rank that FFN rank `f` receives metadata from. */
  function MetadataSource(f: nat, A: nat, F: nat): nat
    requires Sized(A, F)
  {
    f % Min(F, A) + F
  }

  /** For every size, each FFN rank is on exactly one rank's list of receivers. */
  lemma OneList(f: nat, worldRank: nat, A: nat, F: nat)
    requires A >= 1 && F >= 1 && f < F
    ensures f in Destinations(worldRank, A, F) <==> worldRank == F + f % Min(F, A)
    ensures Distinct(Destinations(worldRank, A, F))
  {
    var step := Min(F, A);
    assert 0 <= f % step < step && f % step <= f;
    if SendsMetadata(worldRank, A, F) {
      var first := worldRank - F;
      StridesHave(first, step, F, f);
      ModIs(first, step, 0, first);
    }
  }

  /** Each FFN rank is sent metadata by exactly one rank, once, and receives from it. */
  lemma OneMetadataSender(f: nat, a: nat, A: nat, F: nat)
    requires Sized(A, F) && f < F && a < A
    ensures SendsMetadata(F + a, A, F) && f in Destinations(F + a, A, F)
       <==> MetadataSource(f, A, F) == a + Min(F, A)
    ensures Distinct(Destinations(F + a, A, F))
    ensures exists w: nat :: F <= w < F + A && f in Destinations(w, A, F)
    ensures Destinations(f, A, F) == []
  {
    OneList(f, F + a, A, F);
    OneList(f, F + f % Min(F, A), A, F);
    assert f in Destinations(F + f % Min(F, A), A, F);
  }
}
