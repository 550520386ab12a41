/** Whole forwards over the P2P data path, there and back.  At each layer every Attention rank
  * sends all its stages' tensors, in stage order; each FFN rank serves the stages in that order
  * and answers; Attention receives the answers in stage order and computes its next layer's
  * tensors from them. */
module P2PForward {
  import opened P2PDataPath
  import opened Topology
  import opened TokenCounts
  import opened Wrappers

  /** One layer's tensors, by stage and Attention rank. */
  type Layer<!T> = seq<seq<Sent<T>>>

  /** Every rank sends what the stage's counts declare. */
  ghost predicate Declared<T>(counts: seq<seq<int>>, A: nat, inputs: Layer<T>, logits: bool, ids: bool) {
    && |inputs| == |counts|
    && (forall i :: 0 <= i < |inputs| ==> |inputs[i]| == A)
    && (forall i, a :: 0 <= i < |inputs| && 0 <= a < A ==>
          Matches(inputs[i][a], NumTokens(counts[i], a, A, 1), logits, ids))
  }

  /** What rank `a` sends from stage `i` on. */
  ghost function WiresFrom<T>(inputs: Layer<T>, a: nat, i: nat): seq<Wire<T>>
    requires forall j :: 0 <= j < |inputs| ==> a < |inputs[j]|
    decreases |inputs| - i
  {
    if i >= |inputs| then [] else Wires(inputs[i][a]) + WiresFrom(inputs, a, i + 1)
  }

  /** One Attention rank sends all its stages. */
  method SendStages<T>(counts: seq<seq<int>>, A: nat, inputs: Layer<T>, a: nat, logits: bool, ids: bool)
    returns (channel: seq<Wire<T>>)
    requires Declared(counts, A, inputs, logits, ids) && a < A
    ensures channel == WiresFrom(inputs, a, 0)
  {
    hide NumTokens, Wires;
    channel := [];
    for i := 0 to |inputs|
      invariant channel + WiresFrom(inputs, a, i) == WiresFrom(inputs, a, 0)
    {
      var s := inputs[i][a];
      assert Matches(s, NumTokens(counts[i], a, A, 1), logits, ids);
      var sent := SendAttnOutput(channel, s, NumTokens(counts[i], a, A, 1), true, true);
      assert channel + Wires(s) + WiresFrom(inputs, a, i + 1) == channel + (Wires(s) + WiresFrom(inputs, a, i + 1));
      channel := sent.value;
    }
    assert channel + [] == channel;
  }

  /** The answer is the FFN applied to the sender's own rows. */
  ghost predicate Answered<T>(fn: RowFunction<T>, s: Sent<T>, answer: seq<T>) {
    Aligned(s) && answer == Rowwise(fn, s)
  }

  /** What one stage's FFN step needs of its block. */
  lemma BlockMatches<T>(counts: seq<int>, A: nat, F: nat, f: nat, stage: seq<Sent<T>>, sizes: seq<nat>, logits: bool,
                        ids: bool)
    requires Sized(A, F) && f < F && |stage| == A && BlockStart(f, A, F) < BlockStart(f + 1, A, F) <= A
    requires forall a :: 0 <= a < A ==> Matches(stage[a], NumTokens(counts, a, A, 1), logits, ids)
    requires |sizes| == |Roster(f, A, F)| - 1
    requires forall k :: 0 <= k < |sizes| ==> sizes[k] == NumTokens(counts, Roster(f, A, F)[k + 1] - F, A, 1)
    ensures AllMatch(stage[BlockStart(f, A, F)..BlockStart(f + 1, A, F)], sizes, logits, ids)
  {
    hide NumTokens, BlockStart, Roster, Matches;
    RosterAt(f, A, F);
    var lo, hi := BlockStart(f, A, F), BlockStart(f + 1, A, F);
    var block := stage[lo..hi];
    forall k | 0 <= k < |block| ensures Matches(block[k], sizes[k], logits, ids) {
      assert Roster(f, A, F)[k + 1] - F == lo + k && block[k] == stage[lo + k];
    }
  }

  /** The answers to the Attention ranks from `lo` on. */
  ghost predicate StageServed<T>(fn: RowFunction<T>, stage: seq<Sent<T>>, lo: nat, answers: seq<seq<T>>) {
    lo + |answers| <= |stage| && forall k :: 0 <= k < |answers| ==> Answered(fn, stage[lo + k], answers[k])
  }

  /** Every peer of the block still has its tensors from stage `i` on to be read. */
  ghost predicate Unread<T>(inputs: Layer<T>, lo: nat, i: nat, channels: seq<seq<Wire<T>>>)
    requires forall j :: 0 <= j < |inputs| ==> lo + |channels| <= |inputs[j]|
  {
    forall k :: 0 <= k < |channels| ==> channels[k] == WiresFrom(inputs, lo + k, i)
  }

  /** One FFN rank serves one stage; later stages' tensors stay in the channels. */
  method ServeStage<T>(fn: RowFunction<T>, counts: seq<seq<int>>, A: nat, F: nat, f: nat, ghost inputs: Layer<T>,
                       i: nat, channels: seq<seq<Wire<T>>>, logits: bool, ids: bool)
    returns (answers: seq<seq<T>>, unread: seq<seq<Wire<T>>>)
    requires Sized(A, F) && f < F && BlockStart(f, A, F) < BlockStart(f + 1, A, F) <= A && i < |counts|
    requires Declared(counts, A, inputs, logits, ids) && |channels| == BlockStart(f + 1, A, F) - BlockStart(f, A, F)
    requires Unread(inputs, BlockStart(f, A, F), i, channels)
    ensures |answers| == |unread| == |channels| && StageServed(fn, inputs[i], BlockStart(f, A, F), answers)
    ensures Unread(inputs, BlockStart(f, A, F), i + 1, unread)
  {
    hide NumTokens, BlockStart, Roster, Rowwise, Wires, Aligned, AllMatch, Matches, Unread, StageServed, WiresFrom;
    ghost var lo, hi := BlockStart(f, A, F), BlockStart(f + 1, A, F);
    RosterAt(f, A, F);
    var sizes, total := PeerSizes(counts[i], Roster(f, A, F), A, F);
    BlockMatches(counts[i], A, F, f, inputs[i], sizes, logits, ids);
    ghost var rests := Later(inputs, lo, |channels|, i + 1);
    StageReady(inputs, lo, hi, i, channels);
    answers, unread := FfnStep(fn, channels, sizes, logits, ids, inputs[i][lo..hi], rests);
    StageAnswered(fn, inputs[i], lo, hi, answers);
  }

  /** What `n` peers have sent from stage `i` on. */
  ghost function Later<T>(inputs: Layer<T>, lo: nat, n: nat, i: nat): (rests: seq<seq<Wire<T>>>)
    requires forall j :: 0 <= j < |inputs| ==> lo + n <= |inputs[j]|
    ensures |rests| == n && Unread(inputs, lo, i, rests)
  {
    seq(n, k requires 0 <= k < n => WiresFrom(inputs, lo + k, i))
  }

  lemma StageReady<T>(inputs: Layer<T>, lo: nat, hi: nat, i: nat, channels: seq<seq<Wire<T>>>)
    requires i < |inputs| && lo <= hi && |channels| == hi - lo
    requires forall j :: 0 <= j < |inputs| ==> hi <= |inputs[j]|
    requires Unread(inputs, lo, i, channels)
    ensures forall k :: 0 <= k < |channels| ==>
              channels[k] == Wires(inputs[i][lo..hi][k]) + Later(inputs, lo, |channels|, i + 1)[k]
  {
    hide Wires;
  }

  lemma StageAnswered<T>(fn: RowFunction<T>, stage: seq<Sent<T>>, lo: nat, hi: nat, answers: seq<seq<T>>)
    requires lo <= hi <= |stage| && |answers| == hi - lo
    requires forall k :: 0 <= k < |answers| ==>
               Aligned(stage[lo..hi][k]) && answers[k] == Rowwise(fn, stage[lo..hi][k])
    ensures StageServed(fn, stage, lo, answers)
  {
    hide Aligned, Rowwise;
    forall k | 0 <= k < |answers| ensures Answered(fn, stage[lo + k], answers[k]) {
      assert stage[lo..hi][k] == stage[lo + k];
    }
  }

  /** One FFN rank serves the stages of a layer in order. */
  method ServeBlock<T>(fn: RowFunction<T>, counts: seq<seq<int>>, A: nat, F: nat, f: nat, ghost inputs: Layer<T>,
                       block: seq<seq<Wire<T>>>, logits: bool, ids: bool)
    returns (answers: seq<seq<seq<T>>>)
    requires Sized(A, F) && f < F && BlockStart(f, A, F) < BlockStart(f + 1, A, F) <= A
    requires Declared(counts, A, inputs, logits, ids) && |block| == BlockStart(f + 1, A, F) - BlockStart(f, A, F)
    requires Unread(inputs, BlockStart(f, A, F), 0, block)
    ensures |answers| == |counts|
    ensures forall i :: 0 <= i < |answers| ==>
              |answers[i]| == |block| && StageServed(fn, inputs[i], BlockStart(f, A, F), answers[i])
  {
    hide BlockStart, StageServed, Unread, NumTokens, Matches;
    answers := [];
    var channels := block;
    for i := 0 to |counts|
      invariant |answers| == i && |channels| == |block| && Unread(inputs, BlockStart(f, A, F), i, channels)
      invariant forall j :: 0 <= j < i ==>
           |answers[j]| == |block| && StageServed(fn, inputs[j], BlockStart(f, A, F), answers[j])
    {
      var answer;
      answer, channels := ServeStage(fn, counts, A, F, f, inputs, i, channels, logits, ids);
      answers := answers + [answer];
    }
  }

  /** All FFN ranks serve a layer.  The answers of one Attention rank come back on one channel,
    * in stage order. */
  method ServeLayer<T>(fn: RowFunction<T>, counts: seq<seq<int>>, A: nat, F: nat, inputs: Layer<T>, logits: bool,
                       ids: bool)
    returns (back: seq<seq<seq<T>>>)
    requires Sized(A, F) && Declared(counts, A, inputs, logits, ids)
    ensures |back| == A && forall a :: 0 <= a < A ==> ReturnsTo(fn, inputs, a, back[a])
  {
    hide NumTokens, BlockStart, Matches, StageServed, ReturnsTo;
    BlocksPartition(A, F);
    back := [];
    for f := 0 to F
      invariant |back| == BlockStart(f, A, F) <= A
      invariant forall a :: 0 <= a < |back| ==> ReturnsTo(fn, inputs, a, back[a])
    {
      BlockStartMonotone(f + 1, F, A, F);
      var block := SendBlock(counts, A, F, f, inputs, logits, ids);
      var answers := ServeBlock(fn, counts, A, F, f, inputs, block, logits, ids);
      var returned := ByPeer(fn, inputs, BlockStart(f, A, F), |block|, answers);
      back := back + returned;
    }
  }

  /** What comes back to rank `a`: one answer per stage, in order. */
  ghost predicate ReturnsTo<T>(fn: RowFunction<T>, inputs: Layer<T>, a: nat, channel: seq<seq<T>>) {
    |channel| == |inputs|
    && forall i :: 0 <= i < |inputs| ==> a < |inputs[i]| && Answered(fn, inputs[i][a], channel[i])
  }

  /** The Attention ranks of one block send all their stages. */
  method SendBlock<T>(counts: seq<seq<int>>, A: nat, F: nat, f: nat, inputs: Layer<T>, logits: bool, ids: bool)
    returns (block: seq<seq<Wire<T>>>)
    requires Sized(A, F) && f < F && BlockStart(f, A, F) < BlockStart(f + 1, A, F) <= A
    requires Declared(counts, A, inputs, logits, ids)
    ensures |block| == BlockStart(f + 1, A, F) - BlockStart(f, A, F)
    ensures Unread(inputs, BlockStart(f, A, F), 0, block)
  {
    hide NumTokens, BlockStart, Matches, WiresFrom;
    var lo, hi := BlockStart(f, A, F), BlockStart(f + 1, A, F);
    block := [];
    for k := 0 to hi - lo
      invariant |block| == k && forall j :: 0 <= j < k ==> block[j] == WiresFrom(inputs, lo + j, 0)
    {
      var channel := SendStages(counts, A, inputs, lo + k, logits, ids);
      block := block + [channel];
    }
  }

  /** Sort a block's answers by peer. */
  method ByPeer<T>(ghost fn: RowFunction<T>, ghost inputs: Layer<T>, ghost lo: nat, n: nat, answers: seq<seq<seq<T>>>)
    returns (returned: seq<seq<seq<T>>>)
    requires |answers| == |inputs|
    requires forall i :: 0 <= i < |answers| ==> |answers[i]| == n && StageServed(fn, inputs[i], lo, answers[i])
    ensures |returned| == n && forall k :: 0 <= k < n ==> ReturnsTo(fn, inputs, lo + k, returned[k])
  {
    hide Answered;
    returned := seq(n, k requires 0 <= k < n => seq(|answers|, i requires 0 <= i < |answers| => answers[i][k]));
  }

  // ---------- Attention's side ----------

  /** Receive the next answer; it must have the rows that the stage declared. */
  method RecvFfnOutput<T>(channel: seq<seq<T>>, tokens: nat) returns (r: Result<(seq<T>, seq<seq<T>>), string>)
    ensures r.Ok? <==> channel != [] && |channel[0]| == tokens
    ensures r.Ok? ==> r.value == (channel[0], channel[1..])
  {
    if channel == [] {
      return Error("nothing to receive");
    }
    if |channel[0]| != tokens {
      return Error("the answer does not fit the receive buffer");
    }
    return Ok((channel[0], channel[1..]));
  }

  /** One Attention rank receives its answers, stage by stage. */
  method RecvStages<T>(ghost fn: RowFunction<T>, counts: seq<seq<int>>, A: nat, ghost inputs: Layer<T>, a: nat,
                       channel: seq<seq<T>>, ghost logits: bool, ghost ids: bool)
    returns (answers: seq<seq<T>>)
    requires Declared(counts, A, inputs, logits, ids) && a < A && ReturnsTo(fn, inputs, a, channel)
    ensures answers == channel
  {
    hide NumTokens, Rowwise;
    answers := [];
    var unread := channel;
    for i := 0 to |counts|
      invariant |answers| == i && unread == channel[i..] && answers == channel[..i]
    {
      assert Matches(inputs[i][a], NumTokens(counts[i], a, A, 1), logits, ids)
           && Answered(fn, inputs[i][a], channel[i]);
      var received := RecvFfnOutput(unread, NumTokens(counts[i], a, A, 1));
      answers, unread := answers + [received.value.0], received.value.1;
    }
  }

  // ---------- all layers ----------

  /** How Attention computes a layer's tensors: from the layer, stage and rank, and from its
    * previous answer, which is empty at the first layer. */
  type Attend<!T> = (nat, nat, nat, seq<T>) -> Sent<T>

  /** Attention keeps each stage's token counts from layer to layer. */
  ghost predicate KeepsCounts<T(!new)>(attend: Attend<T>, counts: seq<seq<int>>, A: nat, logits: bool, ids: bool) {
    forall layer: nat, i: nat, a: nat, previous ::
      i < |counts| && a < A && (layer == 0 || |previous| == NumTokens(counts[i], a, A, 1)) ==>
        Matches(attend(layer, i, a, previous), NumTokens(counts[i], a, A, 1), logits, ids)
  }

  /** The answer that rank `a` would compute for itself, with every layer's FFN at hand. */
  ghost function Local<T(!new)>(attend: Attend<T>, fns: seq<RowFunction<T>>, counts: seq<seq<int>>, A: nat,
                                logits: bool, ids: bool, layer: nat, i: nat, a: nat): (answer: seq<T>)
    requires KeepsCounts(attend, counts, A, logits, ids) && layer < |fns| && i < |counts| && a < A
    ensures |answer| == NumTokens(counts[i], a, A, 1)
    decreases layer
  {
    var previous := if layer == 0 then [] else Local(attend, fns, counts, A, logits, ids, layer - 1, i, a);
    assert Matches(attend(layer, i, a, previous), NumTokens(counts[i], a, A, 1), logits, ids);
    Rowwise(fns[layer], attend(layer, i, a, previous))
  }

  /** Row by row: the layer's FFN applied to what the rank attends to from its own answer to the
    * layer before, each row with its own logits and input id where there are any. */
  lemma LocalRow<T(!new)>(attend: Attend<T>, fns: seq<RowFunction<T>>, counts: seq<seq<int>>, A: nat, logits: bool,
                          ids: bool, layer: nat, i: nat, a: nat, row: nat)
    requires KeepsCounts(attend, counts, A, logits, ids) && layer < |fns| && i < |counts| && a < A
    requires row < NumTokens(counts[i], a, A, 1)
    ensures var previous := if layer == 0 then [] else Local(attend, fns, counts, A, logits, ids, layer - 1, i, a);
            var s := attend(layer, i, a, previous);
            && |s.hidden| == NumTokens(counts[i], a, A, 1)
            && (s.logits.Some? <==> logits) && (logits ==> |s.logits.value| == |s.hidden|)
            && (s.ids.Some? <==> ids) && (ids ==> |s.ids.value| == |s.hidden|)
            && Local(attend, fns, counts, A, logits, ids, layer, i, a)[row]
               == fns[layer](s.hidden[row], if logits then Some(s.logits.value[row]) else None,
                             if ids then Some(s.ids.value[row]) else None)
  {
    hide NumTokens, KeepsCounts;
    var previous := if layer == 0 then [] else Local(attend, fns, counts, A, logits, ids, layer - 1, i, a);
    assert layer == 0 || |previous| == NumTokens(counts[i], a, A, 1);
    Kept(attend, counts, A, logits, ids, layer, i, a, previous);
    var s := attend(layer, i, a, previous);
    assert Local(attend, fns, counts, A, logits, ids, layer, i, a) == Rowwise(fns[layer], s);
    hide Local;
    RowwiseAt(fns[layer], s, row);
  }

  lemma RowwiseAt<T>(fn: RowFunction<T>, s: Sent<T>, row: nat)
    requires Aligned(s) && row < |s.hidden|
    ensures Rowwise(fn, s)[row] == fn(s.hidden[row], if s.logits.Some? then Some(s.logits.value[row]) else None,
                                      if s.ids.Some? then Some(s.ids.value[row]) else None)
  {
    var logit, id := RowAt(s.logits, row), RowAt(s.ids, row);
    assert Rowwise(fn, s)[row] == fn(s.hidden[row], logit, id);
    assert logit == if s.logits.Some? then Some(s.logits.value[row]) else None;
    assert id == if s.ids.Some? then Some(s.ids.value[row]) else None;
  }

  lemma Kept<T(!new)>(attend: Attend<T>, counts: seq<seq<int>>, A: nat, logits: bool, ids: bool,
                      layer: nat, i: nat, a: nat, previous: seq<T>)
    requires KeepsCounts(attend, counts, A, logits, ids) && i < |counts| && a < A
    requires layer == 0 || |previous| == NumTokens(counts[i], a, A, 1)
    ensures Matches(attend(layer, i, a, previous), NumTokens(counts[i], a, A, 1), logits, ids)
  {
    hide NumTokens, Matches;
  }

  /** Every rank's answers before a layer, by rank and stage. */
  ghost predicate LocalSoFar<T(!new)>(attend: Attend<T>, fns: seq<RowFunction<T>>, counts: seq<seq<int>>, A: nat,
                                      logits: bool, ids: bool, layer: nat, answers: seq<seq<seq<T>>>)
    requires KeepsCounts(attend, counts, A, logits, ids) && layer <= |fns|
  {
    && |answers| == A && (forall a :: 0 <= a < A ==> |answers[a]| == |counts|)
    && forall a, i :: 0 <= a < A && 0 <= i < |counts| ==>
         answers[a][i] == if layer == 0 then [] else Local(attend, fns, counts, A, logits, ids, layer - 1, i, a)
  }

  /** One layer's tensors from the previous answers. */
  method Attends<T(!new)>(attend: Attend<T>, ghost fns: seq<RowFunction<T>>, counts: seq<seq<int>>, A: nat,
                          ghost logits: bool, ghost ids: bool, layer: nat, answers: seq<seq<seq<T>>>)
    returns (inputs: Layer<T>)
    requires KeepsCounts(attend, counts, A, logits, ids) && layer < |fns|
    requires LocalSoFar(attend, fns, counts, A, logits, ids, layer, answers)
    ensures Declared(counts, A, inputs, logits, ids)
    ensures forall i, a :: 0 <= i < |counts| && 0 <= a < A ==> inputs[i][a] == attend(layer, i, a, answers[a][i])
  {
    hide NumTokens, Matches, Local;
    inputs := seq(|counts|, i requires 0 <= i < |counts| =>
                    seq(A, a requires 0 <= a < A => attend(layer, i, a, answers[a][i])));
  }

  /** A forward through all layers: with the FFN remote, every Attention rank ends with the
    * answers that it would have computed for itself, for all sizes, stages and counts. */
  method RemoteForward<T(!new)>(attend: Attend<T>, fns: seq<RowFunction<T>>, counts: seq<seq<int>>, A: nat, F: nat,
                                logits: bool, ids: bool)
    returns (answers: seq<seq<seq<T>>>)
    requires Sized(A, F) && KeepsCounts(attend, counts, A, logits, ids)
    ensures LocalSoFar(attend, fns, counts, A, logits, ids, |fns|, answers)
  {
    hide NumTokens, KeepsCounts, Matches, Rowwise, Local, Declared;
    answers := seq(A, _ => seq(|counts|, _ => []));
    for layer := 0 to |fns|
      invariant LocalSoFar(attend, fns, counts, A, logits, ids, layer, answers)
    {
      var inputs := Attends(attend, fns, counts, A, logits, ids, layer, answers);
      var back := ServeLayer(fns[layer], counts, A, F, inputs, logits, ids);
      ghost var before := answers;
      answers := [];
      for a := 0 to A
        invariant answers == back[..a]
      {
        var received := RecvStages(fns[layer], counts, A, inputs, a, back[a], logits, ids);
        answers := answers + [received];
      }
      NextLayer(attend, fns, counts, A, logits, ids, layer, before, inputs, answers);
    }
  }

  lemma NextLayer<T(!new)>(attend: Attend<T>, fns: seq<RowFunction<T>>, counts: seq<seq<int>>, A: nat, logits: bool,
                           ids: bool, layer: nat, before: seq<seq<seq<T>>>, inputs: Layer<T>, answers: seq<seq<seq<T>>>)
    requires KeepsCounts(attend, counts, A, logits, ids) && layer < |fns|
    requires LocalSoFar(attend, fns, counts, A, logits, ids, layer, before) && Declared(counts, A, inputs, logits, ids)
    requires forall i, a :: 0 <= i < |counts| && 0 <= a < A ==> inputs[i][a] == attend(layer, i, a, before[a][i])
    requires |answers| == A && forall a :: 0 <= a < A ==> ReturnsTo(fns[layer], inputs, a, answers[a])
    ensures LocalSoFar(attend, fns, counts, A, logits, ids, layer + 1, answers)
  {
    hide NumTokens, KeepsCounts, Matches, Rowwise, Aligned;
    forall a, i | 0 <= a < A && 0 <= i < |counts|
      ensures answers[a][i] == Local(attend, fns, counts, A, logits, ids, layer, i, a)
    {
      assert ReturnsTo(fns[layer], inputs, a, answers[a]);
      assert Answered(fns[layer], inputs[i][a], answers[a][i]);
      assert before[a][i] == if layer == 0 then [] else Local(attend, fns, counts, A, logits, ids, layer - 1, i, a);
      assert inputs[i][a] == attend(layer, i, a, before[a][i]);
    }
  }
}
