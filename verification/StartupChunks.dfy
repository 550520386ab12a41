/** How much of the Async CAM startup row each FFN rank serves.
  *
  * At startup every Attention TP rank sends one row to the experts 0, 1, ..., topk - 1.
  */
module StartupChunks {
  import opened Arithmetic
  import opened Wrappers

  const CAM_MAX_SOURCE_ROWS := 65535

  /** Experts of each FFN rank; without a number of experts there is one per rank. */
  function ExpertsPerRank(experts: Option<int>, ffnSize: int): Result<int, string>
    requires ffnSize > 0
  {
    var count := experts.GetOr(ffnSize);
    if count % ffnSize != 0 then Error("routed experts must be divisible by FFN ranks") else Ok(count / ffnSize)
  }

  function ValidateGraphCapacity(maxTokens: int, tp: int, capacity: int): Result<(), string> {
    if maxTokens <= 0 || tp <= 0 || capacity <= 0 || maxTokens % tp != 0 then
      Error("the dispatch envelope must be positive and divisible by TP")
    else if capacity < maxTokens then Error("the capacity is smaller than the dispatch envelope")
    else if maxTokens / tp > CAM_MAX_SOURCE_ROWS then Error("source rows exceed the protocol bound")
    else Ok(())
  }

  function LocalExperts(topk: int, rank: nat, perRank: nat): nat {
    Max(0, Min(perRank, topk - rank * perRank))
  }

  function GraphStartupChunks(topk: int, rank: nat, perRank: nat, capacity: int, tp: int): int
    requires tp > 0 && capacity / tp > 0
  {
    var perChunk := capacity / tp;
    Max(1, (LocalExperts(topk, rank, perRank) + perChunk - 1) / perChunk)
  }

  /** Validated capacities hold at least one expert's rows per chunk, and never more rows than
    * the capacity. */
  lemma ValidatedCapacity(maxTokens: int, tp: int, capacity: int)
    requires ValidateGraphCapacity(maxTokens, tp, capacity).Ok?
    ensures tp > 0 && capacity / tp > 0 && capacity / tp * tp <= capacity
  {
    FloorBounds(maxTokens, tp);
    FloorBounds(capacity, tp);
  }

  /** What a capacity must be to be accepted. */
  lemma CapacityIsValidIff(maxTokens: int, tp: int, capacity: int)
    ensures ValidateGraphCapacity(maxTokens, tp, capacity).Ok?
       <==> 1 <= maxTokens <= capacity && tp >= 1 && maxTokens % tp == 0 && maxTokens <= 65535 * tp
  {
    if maxTokens > 0 && tp > 0 && maxTokens % tp == 0 {
      assert maxTokens == tp * (maxTokens / tp) + maxTokens % tp;
      if maxTokens / tp > 65535 {
        MulBelow(65535, maxTokens / tp, tp);
      } else {
        MulAtMost(maxTokens / tp, 65535, tp);
      }
    }
  }

  /** A rank's startup experts are those of its own that lie below `topk`. */
  lemma LocalExpertsAre(topk: int, rank: nat, perRank: nat, expert: int)
    requires rank * perRank <= expert < rank * perRank + perRank
    ensures expert < topk <==> expert < rank * perRank + LocalExperts(topk, rank, perRank)
  {
  }

  function TotalLocal(topk: int, ranks: nat, perRank: nat): nat {
    if ranks == 0 then 0 else TotalLocal(topk, ranks - 1, perRank) + LocalExperts(topk, ranks - 1, perRank)
  }

  /** All startup experts are served: the ranks' shares add up to `topk`, or to all experts
    * when there are fewer. */
  lemma {:induction false} SharesAddUp(topk: nat, ranks: nat, perRank: nat)
    ensures TotalLocal(topk, ranks, perRank) == Min(topk, ranks * perRank)
  {
    if ranks > 0 {
      SharesAddUp(topk, ranks - 1, perRank);
      assert ranks * perRank == (ranks - 1) * perRank + perRank;
    }
  }

  /** With the experts spread evenly and `topk` of them at most, nothing is left unserved. */
  lemma EveryStartupExpertIsServed(experts: Option<int>, ffnSize: nat, topk: nat)
    requires ffnSize > 0 && 0 <= topk <= experts.GetOr(ffnSize)
    requires ExpertsPerRank(experts, ffnSize).Ok?
    ensures ExpertsPerRank(experts, ffnSize).value >= 0
    ensures TotalLocal(topk, ffnSize, ExpertsPerRank(experts, ffnSize).value) == topk
  {
    var count := experts.GetOr(ffnSize);
    assert count == ffnSize * (count / ffnSize) + count % ffnSize;
    SharesAddUp(topk, ffnSize, count / ffnSize);
  }

  /** The chunk count is the least positive number of chunks that holds the rank's experts. */
  lemma ChunksAreLeast(topk: int, rank: nat, perRank: nat, capacity: int, tp: int, n: int)
    requires tp > 0 && capacity / tp > 0
    ensures GraphStartupChunks(topk, rank, perRank, capacity, tp) <= n
       <==> n >= 1 && LocalExperts(topk, rank, perRank) <= n * (capacity / tp)
  {
    CeilingAtMost(LocalExperts(topk, rank, perRank), capacity / tp, n);
  }
}
