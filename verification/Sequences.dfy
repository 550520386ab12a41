/** Sequence functions that several modules share.
  *
  *   - `Distinct`: no entry occurs twice;
  *   - `Sum`: the sum of a list of integers;
  *   - `Joined`: lists joined in order, as the data path joins tensors and the routing table
  *     joins its rows;
  *   - `Repeat`: a list repeated a number of times, with its length and its entries
  *     (`RepeatLength`, `RepeatAt`).
  */
module Sequences {
  import opened Arithmetic

  predicate Distinct<T(==)>(s: seq<T>) {
    forall i, j :: 0 <= i < j < |s| ==> s[i] != s[j]
  }

  function Sum(s: seq<int>): int {
    if s == [] then 0 else Sum(s[..|s| - 1]) + s[|s| - 1]
  }

  function Joined<T>(ss: seq<seq<T>>): seq<T> {
    if ss == [] then [] else Joined(ss[..|ss| - 1]) + ss[|ss| - 1]
  }

  function Repeat<T>(s: seq<T>, n: nat): seq<T> {
    if n == 0 then [] else Repeat(s, n - 1) + s
  }

  lemma {:induction false} RepeatLength<T>(s: seq<T>, n: nat)
    ensures |Repeat(s, n)| == n * |s|
  {
    if n > 0 {
      RepeatLength(s, n - 1);
      assert n * |s| == (n - 1) * |s| + |s|;
    }
  }

  lemma {:induction false} RepeatAt<T>(s: seq<T>, n: nat, i: nat)
    requires i < |Repeat(s, n)|
    ensures s != [] && Repeat(s, n)[i] == s[i % |s|]
  {
    RepeatLength(s, n - 1);
    if i < |Repeat(s, n - 1)| {
      RepeatAt(s, n - 1, i);
    } else {
      ModIs(i, |s|, n - 1, i - (n - 1) * |s|);
    }
  }
}
