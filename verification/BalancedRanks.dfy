/** Balanced routing on all expert-parallel ranks at once. */
module BalancedRanks {
  import opened Arithmetic
  import opened BalancedRouting

  /** The same configuration on another rank. */
  function OnRank(c: Config, r: int): (d: Config)
    requires Accepted(c) && 0 <= r < c.epSize
    ensures Accepted(d)
  {
    c.(epRank := r)
  }

  lemma IdIsShifted(c: Config, shuffle: Shuffle, maxTokens: nat, t: nat, j: nat) returns (x: int)
    requires Shuffles(shuffle) && Accepted(c) && t < maxTokens && j < c.topK
    ensures BaseCycle(c, shuffle) != []
    ensures x == BaseCycle(c, shuffle)[Place(c.topK, t, j) % |BaseCycle(c, shuffle)|] && 0 <= x < c.numExperts
    ensures Ids(c, shuffle, maxTokens)[t][j] == Shifted(x, c.epRank, Local(c), c.epSize)
  {
    IdAt(c, shuffle, maxTokens, t, j);
    BaseListsPool(c, shuffle);
    var base := BaseCycle(c, shuffle);
    x := base[Place(c.topK, t, j) % |base|];
    assert x in base;
    assert Ids(c, shuffle, maxTokens)[t][j] == (x + c.epRank * Local(c)) % c.numExperts;
    hide Ids, ExpertCycle, BaseCycle, Shifted;
    ShiftIs(x, c.epRank, Local(c), c.epSize);
  }

  /** The id of any rank is the same expert of the unshifted cycle, moved on by that rank. */
  lemma OnEveryRank(c: Config, shuffle: Shuffle, maxTokens: nat, t: nat, j: nat, r: int) returns (x: int)
    requires Shuffles(shuffle) && Accepted(c) && t < maxTokens && j < c.topK && 0 <= r < c.epSize
    ensures BaseCycle(c, shuffle) != [] && 0 <= x < c.numExperts
    ensures x == BaseCycle(c, shuffle)[Place(c.topK, t, j) % |BaseCycle(c, shuffle)|]
    ensures Ids(OnRank(c, r), shuffle, maxTokens)[t][j] == Shifted(x, r, Local(c), c.epSize)
  {
    var y := IdIsShifted(c, shuffle, maxTokens, t, j);
    x := IdIsShifted(OnRank(c, r), shuffle, maxTokens, t, j);
    assert Local(OnRank(c, r)) == Local(c) && BaseCycle(OnRank(c, r), shuffle) == BaseCycle(c, shuffle);
  }

  lemma Rotated(x: int, r: nat, local: nat, ranks: nat)
    requires local > 0 && ranks > 0 && 0 <= x < ranks * local && r < ranks
    ensures Shifted(x, r, local, ranks) % local == x % local && 0 <= x / local < ranks
    ensures Shifted(x, r, local, ranks) / local == (x / local + r) % ranks
  {
    ShiftIs(x, r, local, ranks);
    Wraps(x / local, r, ranks);
  }

  /** At the same place of the same token, all ranks choose the same offset, and as many ranks
    * on from themselves. */
  lemma RanksRotate(c: Config, shuffle: Shuffle, maxTokens: nat, t: nat, j: nat, r: int) returns (x: int)
    requires Shuffles(shuffle) && Accepted(c) && t < maxTokens && j < c.topK && 0 <= r < c.epSize
    ensures 0 <= x < c.epSize
    ensures var here, there := Ids(c, shuffle, maxTokens)[t][j], Ids(OnRank(c, r), shuffle, maxTokens)[t][j];
            var local := c.numExperts / c.epSize;
            && local > 0 && here % local == there % local
            && here / local == (x + c.epRank) % c.epSize && there / local == (x + r) % c.epSize
  {
    var base := IdIsShifted(c, shuffle, maxTokens, t, j);
    var same := OnEveryRank(c, shuffle, maxTokens, t, j, r);
    LocalIs(c);
    hide Ids, BaseCycle, Shifted, Accepted, Local, Shuffles, OnRank, Place;
    x := base / Local(c);
    Rotated(base, c.epRank, Local(c), c.epSize);
    Rotated(base, r, Local(c), c.epSize);
  }

  lemma LocalIs(c: Config)
    requires Accepted(c)
    ensures Local(c) == c.numExperts / c.epSize > 0 && c.numExperts == c.epSize * Local(c) && 0 <= c.epRank < c.epSize
  {
  }

  lemma Wraps(x: nat, r: nat, ranks: nat)
    requires x < ranks && r < ranks
    ensures (x + r) % ranks == if x + r < ranks then x + r else x + r - ranks
  {
    if x + r < ranks {
      ModIs(x + r, ranks, 0, x + r);
    } else {
      ModIs(x + r, ranks, 1, x + r - ranks);
    }
  }

  /** The source ranks that send the token's `j`-th pick to rank `q`. */
  ghost function Chosen(c: Config, shuffle: Shuffle, tokens: nat, t: nat, j: nat, q: int): set<int>
    requires Shuffles(shuffle) && Accepted(c) && t < tokens && j < c.topK
  {
    set r | 0 <= r < c.epSize && Ids(OnRank(c, r), shuffle, tokens)[t][j] / (c.numExperts / c.epSize) == q
  }

  /** For every pick exactly one source rank chooses each rank. */
  lemma EveryRankOnce(c: Config, shuffle: Shuffle, tokens: nat, t: nat, j: nat, q: int)
    requires Shuffles(shuffle) && Accepted(c) && t < tokens && j < c.topK && 0 <= q < c.epSize
    ensures |Chosen(c, shuffle, tokens, t, j, q)| == 1
  {
    var x := IdIsShifted(c, shuffle, tokens, t, j);
    var rank := RankOf(c, x);
    var source := if rank <= q then q - rank else q - rank + c.epSize;
    forall r | 0 <= r < c.epSize
      ensures Ids(OnRank(c, r), shuffle, tokens)[t][j] / (c.numExperts / c.epSize) == q <==> r == source
    {
      var y := OnEveryRank(c, shuffle, tokens, t, j, r);
      hide Ids, BaseCycle, Shifted, Accepted, Local;
      ShiftIs(x, r, Local(c), c.epSize);
    }
    hide Ids, Accepted;
    assert Chosen(c, shuffle, tokens, t, j, q) == {source};
  }

  lemma RankOf(c: Config, x: int) returns (rank: int)
    requires Accepted(c) && 0 <= x < c.numExperts
    ensures rank == x / Local(c) && 0 <= rank < c.epSize
  {
    rank := x / Local(c);
    ShiftIs(x, 0, Local(c), c.epSize);
  }

  /** How many of the first `n` picks of all source ranks together go to rank `q`. */
  ghost function Arrivals(c: Config, shuffle: Shuffle, tokens: nat, n: nat, q: int): nat
    requires Shuffles(shuffle) && Accepted(c) && n <= tokens * c.topK
  {
    if n == 0 then 0
    else
      PickInTable(n - 1, tokens, c.topK);
      Arrivals(c, shuffle, tokens, n - 1, q)
      + |Chosen(c, shuffle, tokens, (n - 1) / c.topK, (n - 1) % c.topK, q)|
  }

  lemma PickInTable(i: nat, tokens: nat, width: nat)
    requires width > 0 && i < tokens * width
    ensures 0 <= i / width < tokens && 0 <= i % width < width
  {
    FloorBounds(i, width);
    if tokens <= i / width {
      MulAtMost(tokens, i / width, width);
    }
  }

  /** With the same number of tokens on every source rank, all ranks get the same number of
    * picks, at every moment. */
  lemma {:induction false} RanksAreBalanced(c: Config, shuffle: Shuffle, tokens: nat, n: nat, q: int)
    requires Shuffles(shuffle) && Accepted(c) && n <= tokens * c.topK && 0 <= q < c.epSize
    ensures Arrivals(c, shuffle, tokens, n, q) == n
  {
    if n > 0 {
      PickInTable(n - 1, tokens, c.topK);
      RanksAreBalanced(c, shuffle, tokens, n - 1, q);
      EveryRankOnce(c, shuffle, tokens, (n - 1) / c.topK, (n - 1) % c.topK, q);
    }
  }
}
