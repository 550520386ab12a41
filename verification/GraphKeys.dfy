/** Control payloads as the FFN sees them, and the keys of its graph cache. */
module GraphKeys {
  import opened Wrappers

  /** Token counts of every stage. */
  type Stages = map<int, seq<int>>

  datatype Payload = Payload(stages: Stages, capturing: bool, warmup: bool, replaying: bool)

  type Key = seq<(int, seq<int>)>

  datatype RunMode = Eager | Warmup | Capture | Replay

  function GraphRunMode(warmup: bool, capturing: bool, replaying: bool, enabled: bool, captured: bool): RunMode {
    if warmup then Warmup
    else if capturing then Capture
    else if replaying && enabled && captured then Replay
    else Eager
  }

  predicate Ascending(s: seq<int>) {
    forall i, j :: 0 <= i < j < |s| ==> s[i] < s[j]
  }

  lemma {:induction false} LeastExists(s: set<int>)
    requires s != {}
    ensures exists m :: m in s && forall x :: x in s ==> m <= x
    decreases s
  {
    Inhabited(s);
    var x :| x in s;
    var rest := s - {x};
    assert forall y :: y in s ==> y == x || y in rest;
    if rest == {} {
      assert forall y :: y in s ==> x <= y;
    } else {
      LeastExists(rest);
      var m :| m in rest && forall y :: y in rest ==> m <= y;
      var least := if x < m then x else m;
      assert least in s && forall y :: y in s ==> least <= y;
    }
  }

  function Sorted(s: set<int>): (r: seq<int>)
    ensures forall k :: 0 <= k < |r| ==> r[k] in s
  {
    if s == {} then []
    else
      LeastExists(s);
      var m :| m in s && forall x :: x in s ==> m <= x;
      [m] + Sorted(s - {m})
  }

  lemma {:induction false} SortedHas(s: set<int>, x: int)
    requires x in s
    ensures exists k :: 0 <= k < |Sorted(s)| && Sorted(s)[k] == x
    decreases s
  {
    LeastExists(s);
    var m := Sorted(s)[0];
    if x != m {
      SortedHas(s - {m}, x);
      var k :| 0 <= k < |Sorted(s - {m})| && Sorted(s - {m})[k] == x;
      assert Sorted(s)[k + 1] == x;
    }
  }

  lemma {:induction false} SortedAscends(s: set<int>)
    ensures Ascending(Sorted(s))
    decreases s
  {
    if s != {} {
      LeastExists(s);
      var m := Sorted(s)[0];
      SortedAscends(s - {m});
      forall j | 1 <= j < |Sorted(s)| ensures m < Sorted(s)[j] {
        assert Sorted(s)[j] == Sorted(s - {m})[j - 1];
      }
    }
  }

  function GraphKey(stages: Stages): (key: Key)
    ensures |key| == |Sorted(stages.Keys)|
    ensures forall k :: 0 <= k < |key| ==> key[k].0 in stages && key[k] == (Sorted(stages.Keys)[k], stages[key[k].0])
  {
    var order := Sorted(stages.Keys);
    seq(|order|, k requires 0 <= k < |order| => (order[k], stages[order[k]]))
  }

  method MakeFfnGraphKey(stages: Stages) returns (key: Key)
    ensures key == GraphKey(stages)
  {
    var order := Sorted(stages.Keys);
    key := [];
    for i := 0 to |order|
      invariant key == GraphKey(stages)[..i]
    {
      key := key + [(order[i], stages[order[i]])];
    }
  }

  /** Keys tell stage counts apart: equal keys, equal counts of equal stages. */
  lemma EqualKeys(a: Stages, b: Stages)
    ensures GraphKey(a) == GraphKey(b) <==> a == b
  {
    if GraphKey(a) == GraphKey(b) {
      KeyCovers(a, b);
      KeyCovers(b, a);
      assert a.Keys == b.Keys;
    }
  }

  lemma KeyCovers(a: Stages, b: Stages)
    requires GraphKey(a) == GraphKey(b)
    ensures forall stage :: stage in a ==> stage in b && a[stage] == b[stage]
  {
    forall stage | stage in a ensures stage in b && a[stage] == b[stage] {
      SortedHas(a.Keys, stage);
      var k :| 0 <= k < |Sorted(a.Keys)| && Sorted(a.Keys)[k] == stage;
      assert GraphKey(a)[k] == (stage, a[stage]);
    }
  }
}
