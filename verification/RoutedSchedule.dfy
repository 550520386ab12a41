/** The FFN's routed-experts loop against Attention's coroutines, one per stage: at each layer
  * a coroutine dispatches, yields to the next stage and then combines.  Transfers block, so
  * both sides must make the same ones in the same order. */
module RoutedSchedule {

  import opened Sequences
  import opened Wrappers

  /** One blocking transfer: Attention's rows of a layer, or the FFN's answer to them. */
  datatype Transfer = Dispatch(stage: int, layer: nat) | Combine(stage: int, layer: nat)

  // ---------- Attention ----------

  datatype Action = Do(transfer: Transfer) | Yield

  /** What the coroutine of one stage does from `layer` on. */
  function Program(stage: int, layer: nat, layers: nat): seq<Action>
    requires layer <= layers
    decreases layers - layer
  {
    if layer == layers then []
    else [Do(Dispatch(stage, layer)), Yield, Do(Combine(stage, layer))] + Program(stage, layer + 1, layers)
  }

  /** The transfers a coroutine makes before it yields or ends. */
  function Slice(program: seq<Action>): seq<Transfer> {
    if program == [] || program[0].Yield? then [] else [program[0].transfer] + Slice(program[1..])
  }

  function AfterSlice(program: seq<Action>): (rest: seq<Action>)
    ensures |rest| <= |program| && (program != [] ==> |rest| < |program|)
  {
    if program == [] then [] else if program[0].Yield? then program[1..] else AfterSlice(program[1..])
  }

  function Slices(programs: seq<seq<Action>>): seq<Transfer> {
    if programs == [] then [] else Slice(programs[0]) + Slices(programs[1..])
  }

  function Length(programs: seq<seq<Action>>): nat {
    if programs == [] then 0 else |programs[0]| + Length(programs[1..])
  }

  function AfterSlices(programs: seq<seq<Action>>): (rest: seq<seq<Action>>)
    ensures |rest| == |programs| && Length(rest) <= Length(programs)
    ensures Length(programs) > 0 ==> Length(rest) < Length(programs)
  {
    if programs == [] then [] else [AfterSlice(programs[0])] + AfterSlices(programs[1..])
  }

  /** Round-robin: each coroutine in turn runs to its next yield, until all have ended. */
  function RoundRobin(programs: seq<seq<Action>>): seq<Transfer>
    decreases Length(programs)
  {
    if Length(programs) == 0 then [] else Slices(programs) + RoundRobin(AfterSlices(programs))
  }

  function Programs(stages: seq<int>, layers: nat): seq<seq<Action>> {
    if stages == [] then [] else [Program(stages[0], 0, layers)] + Programs(stages[1..], layers)
  }

  function AttentionTrace(stages: seq<int>, layers: nat): seq<Transfer> {
    RoundRobin(Programs(stages, layers))
  }

  // ---------- FFN ----------

  /** What the FFN does for one stage at one layer; `layers` stands for the final flush. */
  function Turn(stage: int, layer: nat, layers: nat): seq<Transfer>
    requires layer <= layers
  {
    (if layer == 0 then [] else [Combine(stage, layer - 1)]) +
    (if layer == layers then [] else [Dispatch(stage, layer)])
  }

  function Round(stages: seq<int>, layer: nat, layers: nat): seq<Transfer>
    requires layer <= layers
  {
    if stages == [] then []
    else Round(stages[..|stages| - 1], layer, layers) + Turn(stages[|stages| - 1], layer, layers)
  }

  /** The first `rounds` rounds of the FFN's loop. */
  function Rounds(stages: seq<int>, rounds: nat, layers: nat): seq<Transfer>
    requires rounds <= layers + 1
  {
    if rounds == 0 then [] else Rounds(stages, rounds - 1, layers) + Round(stages, rounds - 1, layers)
  }

  function FfnTrace(stages: seq<int>, layers: nat): seq<Transfer> {
    Rounds(stages, layers + 1, layers)
  }

  /** A received payload: the routed rows and the context that its answer must carry. */
  datatype Delivery<P, C> = Delivery(payload: P, context: C)

  /** One call on the connector. */
  datatype Call<O, C> = Recv(stage: int) | Send(stage: int, output: O, context: C)

  /** The call that a transfer stands for, when the n-th payload of a stage is layer n's. */
  function CallOf<P, C, O, W>(t: Transfer, weights: seq<W>, inbox: (int, nat) -> Delivery<P, C>,
                              run: (P, W) -> O): Call<O, C>
    requires t.layer < |weights|
  {
    if t.Dispatch? then Recv(t.stage)
    else Send(t.stage, run(inbox(t.stage, t.layer).payload, weights[t.layer]), inbox(t.stage, t.layer).context)
  }

  predicate LayersBelow(ts: seq<Transfer>, layers: nat) {
    forall i :: 0 <= i < |ts| ==> ts[i].layer < layers
  }

  function Calls<P, C, O, W>(ts: seq<Transfer>, weights: seq<W>, inbox: (int, nat) -> Delivery<P, C>,
                             run: (P, W) -> O): (cs: seq<Call<O, C>>)
    requires LayersBelow(ts, |weights|)
    ensures |cs| == |ts|
  {
    seq(|ts|, i requires 0 <= i < |ts| => CallOf(ts[i], weights, inbox, run))
  }

  // ---------- the two traces agree ----------

  /** A coroutine's remaining program when it is resumed for its `layer`-th slice. */
  function Resumed(stage: int, layer: nat, layers: nat): seq<Action>
    requires layer <= layers
  {
    (if layer == 0 then [] else [Do(Combine(stage, layer - 1))]) + Program(stage, layer, layers)
  }

  lemma ResumedSlice(stage: int, layer: nat, layers: nat)
    requires layer <= layers
    ensures Slice(Resumed(stage, layer, layers)) == Turn(stage, layer, layers)
    ensures AfterSlice(Resumed(stage, layer, layers))
         == if layer == layers then [] else Resumed(stage, layer + 1, layers)
  {
    var p, r := Program(stage, layer, layers), Resumed(stage, layer, layers);
    ProgramSlice(stage, layer, layers);
    hide Program;
    if layer > 0 {
      assert r[1..] == p;
      assert Slice(r) == [Combine(stage, layer - 1)] + Slice(p) && AfterSlice(r) == AfterSlice(p);
    } else {
      assert r == p;
    }
  }

  lemma ProgramSlice(stage: int, layer: nat, layers: nat)
    requires layer <= layers
    ensures Slice(Program(stage, layer, layers)) == if layer == layers then [] else [Dispatch(stage, layer)]
    ensures AfterSlice(Program(stage, layer, layers))
         == if layer == layers then [] else Resumed(stage, layer + 1, layers)
  {
    var p := Program(stage, layer, layers);
    if layer < layers {
      assert p[1..][0] == Yield && AfterSlice(p) == p[1..][1..];
      assert p[1..][1..] == Resumed(stage, layer + 1, layers);
    }
  }

  function AllResumed(stages: seq<int>, layer: nat, layers: nat): seq<seq<Action>>
    requires layer <= layers
  {
    if stages == [] then [] else [Resumed(stages[0], layer, layers)] + AllResumed(stages[1..], layer, layers)
  }

  lemma {:induction false} RoundFront(stages: seq<int>, layer: nat, layers: nat)
    requires layer <= layers && stages != []
    ensures Round(stages, layer, layers) == Turn(stages[0], layer, layers) + Round(stages[1..], layer, layers)
    decreases |stages|
  {
    var n := |stages| - 1;
    if n > 0 {
      RoundFront(stages[..n], layer, layers);
      assert stages[..n][1..] == stages[1..][..n - 1];
    }
  }

  lemma {:induction false} AllResumedSlices(stages: seq<int>, layer: nat, layers: nat)
    requires layer <= layers
    ensures Slices(AllResumed(stages, layer, layers)) == Round(stages, layer, layers)
    ensures layer < layers ==> AfterSlices(AllResumed(stages, layer, layers)) == AllResumed(stages, layer + 1, layers)
    ensures layer == layers ==> Length(AfterSlices(AllResumed(stages, layer, layers))) == 0
    ensures Length(AllResumed(stages, layer, layers)) == 0 <==> stages == [] || layers == 0
  {
    if stages != [] {
      ResumedSlice(stages[0], layer, layers);
      RoundFront(stages, layer, layers);
      AllResumedSlices(stages[1..], layer, layers);
      var all := AllResumed(stages, layer, layers);
      assert all[0] == Resumed(stages[0], layer, layers) && all[1..] == AllResumed(stages[1..], layer, layers);
      assert layer == layers > 0 ==> AfterSlices(all)[1..] == AfterSlices(all[1..]);
    }
  }

  lemma {:induction false} RoundOfNothing(stages: seq<int>, layer: nat, layers: nat)
    requires layer <= layers && (stages == [] || layers == 0)
    ensures Round(stages, layer, layers) == []
  {
    if stages != [] {
      RoundOfNothing(stages[..|stages| - 1], layer, layers);
    }
  }

  lemma {:induction false} RoundsOfNothing(stages: seq<int>, rounds: nat, layers: nat)
    requires rounds <= layers + 1 && (stages == [] || layers == 0)
    ensures Rounds(stages, rounds, layers) == []
  {
    hide Round;
    if rounds > 0 {
      RoundsOfNothing(stages, rounds - 1, layers);
      RoundOfNothing(stages, rounds - 1, layers);
    }
  }

  /** One turn of the round-robin is one round of the loop. */
  lemma OneRoundRobin(stages: seq<int>, layer: nat, layers: nat)
    requires layer <= layers && stages != [] && layers > 0
    ensures RoundRobin(AllResumed(stages, layer, layers))
         == Round(stages, layer, layers)
          + if layer == layers then [] else RoundRobin(AllResumed(stages, layer + 1, layers))
  {
    AllResumedSlices(stages, layer, layers);
    hide Slices, AfterSlices, Length, AllResumed, Round;
  }

  lemma NextRounds(stages: seq<int>, layer: nat, layers: nat)
    requires layer <= layers
    ensures Rounds(stages, layer + 1, layers) == Rounds(stages, layer, layers) + Round(stages, layer, layers)
    ensures FfnTrace(stages, layers) == Rounds(stages, layers + 1, layers)
  {
    hide Round;
  }

  lemma Associates(a: seq<Transfer>, b: seq<Transfer>, c: seq<Transfer>)
    ensures a + (b + c) == (a + b) + c && a + (b + []) == a + b
  {
  }

  lemma {:induction false} RoundRobinFrom(stages: seq<int>, layer: nat, layers: nat)
    requires layer <= layers && stages != [] && layers > 0
    ensures Rounds(stages, layer, layers) + RoundRobin(AllResumed(stages, layer, layers)) == FfnTrace(stages, layers)
    decreases layers - layer
  {
    hide RoundRobin, AllResumed, Round, Rounds, FfnTrace;
    OneRoundRobin(stages, layer, layers);
    NextRounds(stages, layer, layers);
    var rest := if layer == layers then [] else RoundRobin(AllResumed(stages, layer + 1, layers));
    Associates(Rounds(stages, layer, layers), Round(stages, layer, layers), rest);
    if layer < layers {
      RoundRobinFrom(stages, layer + 1, layers);
    }
  }

  lemma NothingToDo(stages: seq<int>, layers: nat)
    requires stages == [] || layers == 0
    ensures RoundRobin(AllResumed(stages, 0, layers)) == [] == FfnTrace(stages, layers)
  {
    RoundsOfNothing(stages, layers + 1, layers);
    AllResumedSlices(stages, 0, layers);
  }

  lemma {:induction false} ProgramsAreResumed(stages: seq<int>, layers: nat)
    ensures Programs(stages, layers) == AllResumed(stages, 0, layers)
  {
    if stages != [] {
      ProgramsAreResumed(stages[1..], layers);
      assert Resumed(stages[0], 0, layers) == Program(stages[0], 0, layers);
    }
  }

  /** For any stages and any number of layers, the FFN makes Attention's transfers in
    * Attention's order. */
  lemma SameTrace(stages: seq<int>, layers: nat)
    ensures AttentionTrace(stages, layers) == FfnTrace(stages, layers)
  {
    ProgramsAreResumed(stages, layers);
    if stages == [] || layers == 0 {
      NothingToDo(stages, layers);
    } else {
      RoundRobinFrom(stages, 0, layers);
      hide RoundRobin, AllResumed, FfnTrace;
      assert [] + RoundRobin(AllResumed(stages, 0, layers)) == RoundRobin(AllResumed(stages, 0, layers));
    }
  }

  // ---------- the FFN's loop ----------

  /** What the FFN owes for a payload. */
  function Answer<P, C, O, W>(d: Delivery<P, C>, w: W, run: (P, W) -> O): (O, C) {
    (run(d.payload, w), d.context)
  }

  /** The first `i` stages wait with `newer` results, the others with `older` ones if any. */
  ghost predicate Waits<O, C>(pending: map<int, (O, C)>, stages: seq<int>, i: nat,
                              newer: Option<int -> (O, C)>, older: Option<int -> (O, C)>) {
    && i <= |stages|
    && (forall k :: 0 <= k < i ==>
          if newer.Some? then stages[k] in pending && pending[stages[k]] == newer.value(stages[k])
          else stages[k] !in pending)
    && (forall k :: i <= k < |stages| ==>
          if older.Some? then stages[k] in pending && pending[stages[k]] == older.value(stages[k])
          else stages[k] !in pending)
    && (forall s :: s in pending ==> s in stages)
  }

  lemma WaitsStep<O, C>(pending: map<int, (O, C)>, pending': map<int, (O, C)>, stages: seq<int>, i: nat,
                        newer: Option<int -> (O, C)>, older: Option<int -> (O, C)>)
    requires Distinct(stages) && i < |stages| && Waits(pending, stages, i, newer, older)
    requires pending' == if newer.Some? then pending[stages[i] := newer.value(stages[i])] else pending - {stages[i]}
    ensures Waits(pending', stages, i + 1, newer, older)
    ensures stages[i] in pending <==> older.Some?
    ensures older.Some? ==> pending[stages[i]] == older.value(stages[i])
  {
  }

  lemma WaitsRound<O, C>(pending: map<int, (O, C)>, stages: seq<int>, newer: Option<int -> (O, C)>,
                         older: Option<int -> (O, C)>, newest: Option<int -> (O, C)>)
    requires Waits(pending, stages, |stages|, newer, older)
    ensures Waits(pending, stages, 0, newest, newer)
    ensures newer.None? ==> pending == map[]
  {
    if newer.None? {
      assert forall s :: s in stages ==> s !in pending;
      assert forall s :: s in pending ==> s in stages;
      assert forall s: int :: s !in pending;
    }
  }

  /** Every stage's result at a layer. */
  function Results<P, C, O, W>(layer: nat, weights: seq<W>, inbox: (int, nat) -> Delivery<P, C>,
                               run: (P, W) -> O): Option<int -> (O, C)>
    requires layer <= |weights|
  {
    if layer == 0 then None else Some((stage: int) => Answer(inbox(stage, layer - 1), weights[layer - 1], run))
  }

  /** The calls that one turn of the loop adds. */
  lemma TurnCalls<P, C, O, W>(ts: seq<Transfer>, stage: int, layer: nat, weights: seq<W>,
                              inbox: (int, nat) -> Delivery<P, C>, run: (P, W) -> O)
    requires layer <= |weights| && LayersBelow(ts, |weights|)
    ensures var ts' := ts + Turn(stage, layer, |weights|);
            var due := Results(layer, weights, inbox, run);
            && LayersBelow(ts', |weights|)
            && Calls(ts', weights, inbox, run)
               == Calls(ts, weights, inbox, run)
                  + (if layer == 0 then [] else [Send(stage, due.value(stage).0, due.value(stage).1)])
                  + (if layer == |weights| then [] else [Recv(stage)])
  {
  }

  lemma TurnAppends(ts: seq<Transfer>, stages: seq<int>, i: nat, layer: nat, layers: nat)
    requires layer <= layers && i < |stages|
    ensures ts + Round(stages[..i], layer, layers) + Turn(stages[i], layer, layers)
         == ts + Round(stages[..i + 1], layer, layers)
  {
    assert stages[..i + 1][..i] == stages[..i];
  }

  /** One layer of the loop: each stage gets its previous answer, then its next payload. */
  method FfnLayer<P, C, O, W>(stages: seq<int>, layer: nat, weights: seq<W>, inbox: (int, nat) -> Delivery<P, C>,
                              run: (P, W) -> O, waiting: map<int, (O, C)>, ghost ts: seq<Transfer>)
    returns (calls: seq<Call<O, C>>, pending: map<int, (O, C)>)
    requires Distinct(stages) && layer < |weights| && LayersBelow(ts, |weights|)
    requires Waits(waiting, stages, 0, None, Results(layer, weights, inbox, run))
    ensures var ts' := ts + Round(stages, layer, |weights|);
            && LayersBelow(ts', |weights|)
            && Calls(ts', weights, inbox, run) == Calls(ts, weights, inbox, run) + calls
    ensures Waits(pending, stages, 0, None, Results(layer + 1, weights, inbox, run))
  {
    hide Waits, Calls, Turn, LayersBelow, Results, Round;
    ghost var older := Results(layer, weights, inbox, run);
    ghost var newer := Results(layer + 1, weights, inbox, run);
    calls, pending := [], waiting;
    ResultsAt(layer, weights, inbox, run);
    WaitsAnew(pending, stages, newer, older);
    RoundOfNothing(stages[..0], layer, |weights|);
    assert ts + [] == ts;
    for i := 0 to |stages|
      invariant LayersBelow(ts + Round(stages[..i], layer, |weights|), |weights|)
      invariant Calls(ts + Round(stages[..i], layer, |weights|), weights, inbox, run)
           == Calls(ts, weights, inbox, run) + calls
      invariant Waits(pending, stages, i, newer, older)
    {
      var stage := stages[i];
      ghost var was := pending;
      WaitsStep(pending, pending[stage := newer.value(stage)], stages, i, newer, older);
      TurnCalls(ts + Round(stages[..i], layer, |weights|), stage, layer, weights, inbox, run);
      TurnAppends(ts, stages, i, layer, |weights|);
      if stage in pending {
        calls := calls + [Send(stage, pending[stage].0, pending[stage].1)];
        pending := pending - {stage};
      }
      var delivery := inbox(stage, layer);
      calls := calls + [Recv(stage)];
      pending := pending[stage := (run(delivery.payload, weights[layer]), delivery.context)];
      assert pending == was[stage := newer.value(stage)];
    }
    assert stages[..|stages|] == stages;
    WaitsRound(pending, stages, newer, older, None);
  }

  /** The last answers. */
  method FfnFlush<P, C, O, W>(stages: seq<int>, weights: seq<W>, inbox: (int, nat) -> Delivery<P, C>, run: (P, W) -> O,
                              waiting: map<int, (O, C)>, ghost ts: seq<Transfer>)
    returns (calls: seq<Call<O, C>>, pending: map<int, (O, C)>)
    requires Distinct(stages) && LayersBelow(ts, |weights|)
    requires Waits(waiting, stages, 0, None, Results(|weights|, weights, inbox, run))
    ensures var ts' := ts + Round(stages, |weights|, |weights|);
            && LayersBelow(ts', |weights|)
            && Calls(ts', weights, inbox, run) == Calls(ts, weights, inbox, run) + calls
    ensures pending == map[]
  {
    hide Waits, Calls, Turn, LayersBelow, Results, Round;
    var n := |weights|;
    ghost var older := Results(n, weights, inbox, run);
    calls, pending := [], waiting;
    ResultsAt(n, weights, inbox, run);
    RoundOfNothing(stages[..0], n, n);
    assert ts + [] == ts;
    for i := 0 to |stages|
      invariant LayersBelow(ts + Round(stages[..i], n, n), n)
      invariant Calls(ts + Round(stages[..i], n, n), weights, inbox, run) == Calls(ts, weights, inbox, run) + calls
      invariant Waits(pending, stages, i, None, older)
    {
      var stage := stages[i];
      ghost var was := pending;
      WaitsStep(pending, pending - {stage}, stages, i, None, older);
      TurnCalls(ts + Round(stages[..i], n, n), stage, n, weights, inbox, run);
      TurnAppends(ts, stages, i, n, n);
      if stage in pending {
        calls := calls + [Send(stage, pending[stage].0, pending[stage].1)];
        pending := pending - {stage};
      }
      assert pending == was - {stage};
    }
    assert stages[..|stages|] == stages;
    WaitsRound(pending, stages, None, older, None);
  }

  /** The loop over layers.  Every result waits in `pending` for its own stage's next turn,
    * goes back with its own context, and none is left at the end. */
  method FfnForward<P, C, O, W>(stages: seq<int>, weights: seq<W>, inbox: (int, nat) -> Delivery<P, C>,
                                run: (P, W) -> O)
    returns (calls: seq<Call<O, C>>, pending: map<int, (O, C)>)
    requires Distinct(stages)
    ensures LayersBelow(FfnTrace(stages, |weights|), |weights|)
    ensures calls == Calls(FfnTrace(stages, |weights|), weights, inbox, run)
    ensures pending == map[]
  {
    calls, pending := [], map[];
    var n := |weights|;
    for layer := 0 to n
      invariant LayersBelow(Rounds(stages, layer, n), n)
           && calls == Calls(Rounds(stages, layer, n), weights, inbox, run)
      invariant Waits(pending, stages, 0, None, Results(layer, weights, inbox, run))
    {
      hide Waits, Calls, LayersBelow, Results, Round;
      var made, left := FfnLayer(stages, layer, weights, inbox, run, pending, Rounds(stages, layer, n));
      calls, pending := calls + made, left;
    }
    hide Waits, Calls, LayersBelow, Results, Round;
    var made, left := FfnFlush(stages, weights, inbox, run, pending, Rounds(stages, n, n));
    calls, pending := calls + made, left;
  }

  lemma ResultsAt<P, C, O, W>(layer: nat, weights: seq<W>, inbox: (int, nat) -> Delivery<P, C>, run: (P, W) -> O)
    requires layer <= |weights|
    ensures Results(layer, weights, inbox, run).Some? <==> layer > 0
    ensures layer < |weights| ==>
              var newer := Results(layer + 1, weights, inbox, run);
              newer.Some? && forall stage :: newer.value(stage) == Answer(inbox(stage, layer), weights[layer], run)
  {
  }

  lemma WaitsAnew<O, C>(pending: map<int, (O, C)>, stages: seq<int>,
                        newer: Option<int -> (O, C)>, older: Option<int -> (O, C)>)
    requires Waits(pending, stages, 0, None, older)
    ensures Waits(pending, stages, 0, newer, older)
  {
  }

  // ---------- every payload once, in order ----------

  function OnStage(ts: seq<Transfer>, stage: int, dispatch: bool): seq<Transfer> {
    if ts == [] then []
    else
      var t := ts[|ts| - 1];
      OnStage(ts[..|ts| - 1], stage, dispatch) + if t.stage == stage && t.Dispatch? == dispatch then [t] else []
  }

  /** All layers of one stage, in order. */
  function InOrder(stage: int, layers: nat, dispatch: bool): seq<Transfer> {
    if layers == 0 then []
    else
      InOrder(stage, layers - 1, dispatch)
      + [if dispatch then Dispatch(stage, layers - 1) else Combine(stage, layers - 1)]
  }

  lemma {:induction false} OnStageConcat(a: seq<Transfer>, b: seq<Transfer>, stage: int, dispatch: bool)
    ensures OnStage(a + b, stage, dispatch) == OnStage(a, stage, dispatch) + OnStage(b, stage, dispatch)
    decreases |b|
  {
    if b == [] {
      assert a + b == a;
    } else {
      var n := |b| - 1;
      assert (a + b)[..|a + b| - 1] == a + b[..n];
      OnStageConcat(a, b[..n], stage, dispatch);
    }
  }

  lemma OnStageTurn(s: int, layer: nat, layers: nat, stage: int, dispatch: bool)
    requires layer <= layers
    ensures OnStage(Turn(s, layer, layers), stage, dispatch)
            == if s != stage then []
               else if dispatch then (if layer == layers then [] else [Dispatch(stage, layer)])
               else (if layer == 0 then [] else [Combine(stage, layer - 1)])
  {
    var back := if layer == 0 then [] else [Combine(s, layer - 1)];
    var next := if layer == layers then [] else [Dispatch(s, layer)];
    assert Turn(s, layer, layers) == back + next;
    OnStageConcat(back, next, stage, dispatch);
  }

  lemma FrontIsDistinct(stages: seq<int>, stage: int)
    requires Distinct(stages) && stages != []
    ensures var n := |stages| - 1;
            && Distinct(stages[..n])
            && (stage in stages <==> stage in stages[..n] || stage == stages[n])
            && (stage == stages[n] ==> stage !in stages[..n])
  {
    var n := |stages| - 1;
    assert stages == stages[..n] + [stages[n]];
  }

  lemma {:induction false} OnStageRound(stages: seq<int>, layer: nat, layers: nat, stage: int, dispatch: bool)
    requires layer <= layers && Distinct(stages)
    ensures OnStage(Round(stages, layer, layers), stage, dispatch)
            == if stage in stages then OnStage(Turn(stage, layer, layers), stage, dispatch) else []
  {
    hide Turn, Distinct;
    if stages == [] {
      assert Round(stages, layer, layers) == [];
    } else {
      var n := |stages| - 1;
      var front, last := Round(stages[..n], layer, layers), Turn(stages[n], layer, layers);
      FrontIsDistinct(stages, stage);
      OnStageRound(stages[..n], layer, layers, stage, dispatch);
      assert Round(stages, layer, layers) == front + last;
      OnStageConcat(front, last, stage, dispatch);
      OnStageTurn(stages[n], layer, layers, stage, dispatch);
      hide OnStage, Round;
    }
  }

  /** How many layers of a stage the first `rounds` rounds cover. */
  function Covered(rounds: nat, layers: nat, dispatch: bool): nat
    requires rounds <= layers + 1
  {
    if dispatch then (if rounds > layers then layers else rounds)
    else if rounds == 0 then 0
    else rounds - 1
  }

  lemma OnStageRoundsStep(stages: seq<int>, rounds: nat, layers: nat, stage: int, dispatch: bool)
    requires rounds <= layers && Distinct(stages) && stage in stages
    ensures OnStage(Rounds(stages, rounds + 1, layers), stage, dispatch)
            == OnStage(Rounds(stages, rounds, layers), stage, dispatch)
             + OnStage(Turn(stage, rounds, layers), stage, dispatch)
  {
    hide OnStage, Turn, Round;
    OnStageConcat(Rounds(stages, rounds, layers), Round(stages, rounds, layers), stage, dispatch);
    OnStageRound(stages, rounds, layers, stage, dispatch);
  }

  /** What one round adds to the covered layers. */
  lemma CoveredStep(rounds: nat, layers: nat, stage: int, dispatch: bool)
    requires rounds <= layers
    ensures InOrder(stage, Covered(rounds + 1, layers, dispatch), dispatch)
         == InOrder(stage, Covered(rounds, layers, dispatch), dispatch)
          + OnStage(Turn(stage, rounds, layers), stage, dispatch)
  {
    OnStageTurn(stage, rounds, layers, stage, dispatch);
    hide OnStage, Turn;
  }

  lemma NothingCovered(stages: seq<int>, layers: nat, stage: int, dispatch: bool)
    ensures OnStage(Rounds(stages, 0, layers), stage, dispatch) == []
         == InOrder(stage, Covered(0, layers, dispatch), dispatch)
  {
  }

  lemma {:induction false} OnStageRounds(stages: seq<int>, rounds: nat, layers: nat, stage: int, dispatch: bool)
    requires rounds <= layers + 1 && Distinct(stages) && stage in stages
    ensures OnStage(Rounds(stages, rounds, layers), stage, dispatch)
            == InOrder(stage, Covered(rounds, layers, dispatch), dispatch)
  {
    hide Turn, Round, Rounds, OnStage, InOrder, Covered, Distinct;
    if rounds == 0 {
      NothingCovered(stages, layers, stage, dispatch);
    } else {
      OnStageRounds(stages, rounds - 1, layers, stage, dispatch);
      OnStageRoundsStep(stages, rounds - 1, layers, stage, dispatch);
      CoveredStep(rounds - 1, layers, stage, dispatch);
    }
  }

  /** Each stage's payloads arrive once per layer in layer order, and so do its answers; the
    * n-th answer is therefore the one to the n-th payload. */
  lemma AnsweredOnceInOrder(stages: seq<int>, layers: nat, stage: int, dispatch: bool)
    requires Distinct(stages) && stage in stages
    ensures OnStage(FfnTrace(stages, layers), stage, dispatch) == InOrder(stage, layers, dispatch)
  {
    OnStageRounds(stages, layers + 1, layers, stage, dispatch);
  }

  // ---------- which call comes when ----------

  /** How many transfers the first `k` stages make in a round: one each in the first round and
    * in the flush, and two each in between. */
  function InRound(k: nat, layer: nat, layers: nat): nat {
    if layer == 0 || layer == layers then k else 2 * k
  }

  /** How many transfers the rounds before `layer` make, for `m` stages. */
  function BeforeRound(m: nat, layer: nat): nat {
    if layer == 0 then 0 else m * (2 * layer - 1)
  }

  lemma {:induction false} RoundLength(stages: seq<int>, layer: nat, layers: nat)
    requires layer <= layers && layers > 0
    ensures |Round(stages, layer, layers)| == InRound(|stages|, layer, layers)
    decreases |stages|
  {
    if stages != [] {
      RoundLength(stages[..|stages| - 1], layer, layers);
    }
  }

  lemma {:induction false} RoundAt(stages: seq<int>, layer: nat, layers: nat, k: nat)
    requires layer <= layers && layers > 0 && k < |stages|
    ensures InRound(k + 1, layer, layers) <= |Round(stages, layer, layers)|
    ensures Round(stages, layer, layers)[InRound(k, layer, layers)..InRound(k + 1, layer, layers)]
         == Turn(stages[k], layer, layers)
    decreases |stages|
  {
    hide Round, Turn;
    var n := |stages| - 1;
    var front, last := Round(stages[..n], layer, layers), Turn(stages[n], layer, layers);
    RoundSnoc(stages, layer, layers);
    if k < n {
      RoundAt(stages[..n], layer, layers, k);
      var lo, hi := InRound(k, layer, layers), InRound(k + 1, layer, layers);
      assert (front + last)[lo..hi] == front[lo..hi];
    } else {
      assert (front + last)[|front|..] == last;
    }
  }

  lemma RoundSnoc(stages: seq<int>, layer: nat, layers: nat)
    requires layer <= layers && layers > 0 && stages != []
    ensures var n := |stages| - 1;
            && Round(stages, layer, layers) == Round(stages[..n], layer, layers) + Turn(stages[n], layer, layers)
            && |Round(stages[..n], layer, layers)| == InRound(n, layer, layers)
            && |Round(stages, layer, layers)| == InRound(n + 1, layer, layers)
  {
    RoundLength(stages[..|stages| - 1], layer, layers);
    RoundLength(stages, layer, layers);
  }

  /** The loop's rounds one after the other. */
  lemma {:induction false} RoundsBegin(stages: seq<int>, round: nat, rounds: nat, layers: nat)
    requires round < rounds <= layers + 1
    ensures Rounds(stages, round, layers) + Round(stages, round, layers) <= Rounds(stages, rounds, layers)
  {
    if round + 1 < rounds {
      RoundsBegin(stages, round, rounds - 1, layers);
    }
  }

  lemma BeforeNext(m: nat, layer: nat)
    ensures layer > 0 ==> BeforeRound(m, layer + 1) == BeforeRound(m, layer) + 2 * m
    ensures layer > 0 ==> BeforeRound(m, layer) + m == m * (2 * layer)
    ensures BeforeRound(m, 1) == m
  {
    if layer > 0 {
      assert m * (2 * layer + 1) == m * (2 * layer - 1) + m * 2;
      assert m * (2 * layer) == m * (2 * layer - 1) + m;
    }
  }

  lemma {:induction false} RoundsLength(stages: seq<int>, rounds: nat, layers: nat)
    requires rounds <= layers && layers > 0
    ensures |Rounds(stages, rounds, layers)| == BeforeRound(|stages|, rounds)
  {
    hide Round, BeforeRound;
    if rounds > 0 {
      RoundsLength(stages, rounds - 1, layers);
      RoundLength(stages, rounds - 1, layers);
      BeforeNext(|stages|, rounds - 1);
    }
    assert BeforeRound(|stages|, 0) == 0 by { NothingBefore(|stages|); }
  }

  lemma NothingBefore(m: nat)
    ensures BeforeRound(m, 0) == 0
  {
  }

  lemma TraceLength(stages: seq<int>, layers: nat)
    requires layers > 0
    ensures |FfnTrace(stages, layers)| == |stages| * (2 * layers)
  {
    hide Round, BeforeRound;
    RoundsLength(stages, layers, layers);
    RoundLength(stages, layers, layers);
    BeforeNext(|stages|, layers);
  }

  lemma Within(before: seq<Transfer>, round: seq<Transfer>, all: seq<Transfer>, lo: nat, hi: nat)
    requires before + round <= all && lo <= hi <= |round|
    ensures |before| + hi <= |all| && all[|before| + lo..|before| + hi] == round[lo..hi]
  {
    assert all[..|before| + |round|] == before + round;
  }

  /** In the whole trace, stage number `k` has its turn of a round after those of all earlier
    * rounds and of the stages before it. */
  lemma TraceAt(stages: seq<int>, layer: nat, layers: nat, k: nat)
    requires layer <= layers && layers > 0 && k < |stages|
    ensures var start := BeforeRound(|stages|, layer);
            var lo, hi := start + InRound(k, layer, layers), start + InRound(k + 1, layer, layers);
            lo <= hi <= |FfnTrace(stages, layers)| && FfnTrace(stages, layers)[lo..hi] == Turn(stages[k], layer, layers)
  {
    hide Round, Rounds, Turn, BeforeRound;
    RoundsLength(stages, layer, layers);
    RoundsBegin(stages, layer, layers + 1, layers);
    RoundAt(stages, layer, layers, k);
    Within(Rounds(stages, layer, layers), Round(stages, layer, layers), FfnTrace(stages, layers),
           InRound(k, layer, layers), InRound(k + 1, layer, layers));
  }

  /** The calls of the whole loop, one by one, for `m` stages and `n` layers: first one receive
    * per stage; then, layer by layer and stage by stage, the answer to the layer before and the
    * next receive; at the end the last answers.  Every answer runs its own layer's weights on
    * its own payload and carries that payload's context. */
  lemma CallsAre<P, C, O, W>(stages: seq<int>, weights: seq<W>, inbox: (int, nat) -> Delivery<P, C>,
                             run: (P, W) -> O, layer: nat, k: nat)
    requires k < |stages| && layer <= |weights| && |weights| > 0
    requires LayersBelow(FfnTrace(stages, |weights|), |weights|)
    ensures var cs, m, n := Calls(FfnTrace(stages, |weights|), weights, inbox, run), |stages|, |weights|;
            var start := (if layer == 0 then 0 else m * (2 * layer - 1)) + (if 0 < layer < n then 2 * k else k);
            && |cs| == m * (2 * n) && start < |cs|
            && (layer > 0 ==> cs[start] == Send(stages[k], run(inbox(stages[k], layer - 1).payload, weights[layer - 1]),
                                                inbox(stages[k], layer - 1).context))
            && (layer == 0 ==> cs[start] == Recv(stages[k]))
            && (0 < layer < n ==> start + 1 < |cs| && cs[start + 1] == Recv(stages[k]))
  {
    var n, stage := |weights|, stages[k];
    TraceLength(stages, n);
    TraceAt(stages, layer, n, k);
    var before := BeforeRound(|stages|, layer);
    var lo, hi := before + InRound(k, layer, n), before + InRound(k + 1, layer, n);
    var ts := FfnTrace(stages, n);
    hide FfnTrace, LayersBelow;
    assert ts[lo] == ts[lo..hi][0] == Turn(stage, layer, n)[0];
    assert hi == lo + 2 ==> ts[lo + 1] == ts[lo..hi][1] == Turn(stage, layer, n)[1];
  }

  // ---------- blocking on both sides ----------

  /** The transfers that Attention and the FFN have still to make. */
  datatype Net = Net(attention: seq<Transfer>, ffn: seq<Transfer>)

  /** Both sides wait in the same kind of transfer on the same stage. */
  predicate CanStep(n: Net) {
    && n.attention != [] && n.ffn != []
    && n.attention[0].stage == n.ffn[0].stage
    && (n.attention[0].Dispatch? <==> n.ffn[0].Dispatch?)
  }

  predicate Finished(n: Net) {
    n.attention == [] && n.ffn == []
  }

  /** The network after `k` transfers, or where it stuck before. */
  function After(n: Net, k: nat): Net
    decreases k
  {
    if k == 0 || !CanStep(n) then n else After(Net(n.attention[1..], n.ffn[1..]), k - 1)
  }

  ghost predicate NeverSticks(n: Net) {
    forall k: nat :: Finished(After(n, k)) || CanStep(After(n, k))
  }

  /** Two traces make the same kinds of transfers on the same stages. */
  ghost predicate Matching(a: seq<Transfer>, f: seq<Transfer>) {
    |a| == |f| && forall i :: 0 <= i < |a| ==> a[i].stage == f[i].stage && (a[i].Dispatch? <==> f[i].Dispatch?)
  }

  lemma {:induction false} MatchingRuns(n: Net, k: nat)
    requires Matching(n.attention, n.ffn)
    ensures Finished(After(n, k)) || CanStep(After(n, k))
    ensures k >= |n.attention| ==> Finished(After(n, k))
    decreases k
  {
    if k > 0 && CanStep(n) {
      MatchingRuns(Net(n.attention[1..], n.ffn[1..]), k - 1);
    }
  }

  lemma {:induction false} RunsImplyMatching(n: Net)
    requires NeverSticks(n)
    ensures Matching(n.attention, n.ffn)
    decreases |n.attention|
  {
    assert After(n, 0) == n;
    if CanStep(n) {
      var m := Net(n.attention[1..], n.ffn[1..]);
      forall k: nat ensures Finished(After(m, k)) || CanStep(After(m, k)) {
        assert After(n, k + 1) == After(m, k);
      }
      RunsImplyMatching(m);
      forall i | 0 <= i < |n.attention|
        ensures n.attention[i].stage == n.ffn[i].stage && (n.attention[i].Dispatch? <==> n.ffn[i].Dispatch?)
      {
        assert i > 0 ==> n.attention[i] == m.attention[i - 1] && n.ffn[i] == m.ffn[i - 1];
      }
    }
  }

  /** The blocking pair never sticks, for any number of layers and stages, and finishes. */
  lemma ScheduleNeverSticks(stages: seq<int>, layers: nat)
    ensures NeverSticks(Net(AttentionTrace(stages, layers), FfnTrace(stages, layers)))
    ensures var n := Net(AttentionTrace(stages, layers), FfnTrace(stages, layers));
            Finished(After(n, |n.attention|))
  {
    var n := Net(AttentionTrace(stages, layers), FfnTrace(stages, layers));
    SameTrace(stages, layers);
    forall k: nat ensures Finished(After(n, k)) || CanStep(After(n, k)) {
      MatchingRuns(n, k);
    }
    MatchingRuns(n, |n.attention|);
  }

  /** An FFN that answers each payload at once. */
  function EagerRound(stages: seq<int>, layer: nat): seq<Transfer> {
    if stages == [] then []
    else [Dispatch(stages[0], layer), Combine(stages[0], layer)] + EagerRound(stages[1..], layer)
  }

  function EagerTrace(stages: seq<int>, layer: nat, layers: nat): seq<Transfer>
    requires layer <= layers
    decreases layers - layer
  {
    if layer == layers then [] else EagerRound(stages, layer) + EagerTrace(stages, layer + 1, layers)
  }

  lemma {:induction false} OneStageIsEager(stage: int, layer: nat, layers: nat)
    requires layer <= layers
    ensures RoundRobin([Resumed(stage, layer, layers)]) == Pending(stage, layer) + EagerTrace([stage], layer, layers)
    decreases layers - layer
  {
    hide RoundRobin, Resumed, EagerTrace, Pending;
    OneTurn(stage, layer, layers);
    if layer < layers {
      OneStageIsEager(stage, layer + 1, layers);
      EagerOne(stage, layer, layers);
      Regroup(Pending(stage, layer), Dispatch(stage, layer), Combine(stage, layer),
              EagerTrace([stage], layer + 1, layers));
    }
  }

  /** The answer that a coroutine resumed before `layer` still has to take. */
  function Pending(stage: int, layer: nat): seq<Transfer> {
    if layer == 0 then [] else [Combine(stage, layer - 1)]
  }

  lemma OneTurn(stage: int, layer: nat, layers: nat)
    requires layer <= layers
    ensures layer < layers ==>
              RoundRobin([Resumed(stage, layer, layers)])
              == Pending(stage, layer) + [Dispatch(stage, layer)] + RoundRobin([Resumed(stage, layer + 1, layers)])
    ensures layer < layers ==> Pending(stage, layer + 1) == [Combine(stage, layer)]
    ensures layer == layers ==>
         RoundRobin([Resumed(stage, layer, layers)]) == Pending(stage, layer) + EagerTrace([stage], layer, layers)
  {
    hide Slice, AfterSlice, Slices, AfterSlices, Length, RoundRobin, Program, Resumed;
    ResumedSlice(stage, layer, layers);
    ResumedIsEmpty(stage, layer, layers);
    OneProgram(Resumed(stage, layer, layers));
    if layer == layers {
      OneProgram([]);
    }
  }

  lemma Regroup(back: seq<Transfer>, d: Transfer, c: Transfer, later: seq<Transfer>)
    ensures back + [d] + ([c] + later) == back + ([d, c] + later)
  {
  }

  lemma EagerOne(stage: int, layer: nat, layers: nat)
    requires layer < layers
    ensures EagerTrace([stage], layer, layers)
            == [Dispatch(stage, layer), Combine(stage, layer)] + EagerTrace([stage], layer + 1, layers)
  {
    assert [stage][1..] == [] && EagerRound([], layer) == [];
  }

  lemma ResumedIsEmpty(stage: int, layer: nat, layers: nat)
    requires layer <= layers
    ensures Resumed(stage, layer, layers) == [] <==> layers == 0
  {
  }

  lemma OneProgram(program: seq<Action>)
    ensures RoundRobin([program])
            == if program == [] then [] else Slice(program) + RoundRobin([AfterSlice(program)])
  {
    assert [program][1..] == [] && Slices([]) == [] && AfterSlices([]) == [];
    assert Slices([program]) == Slice(program) + [] == Slice(program);
    assert AfterSlices([program]) == [AfterSlice(program)] + [] == [AfterSlice(program)];
    assert Length([program]) == |program|;
  }

  /** The eager order works with one stage only. */
  lemma EagerSticksIff(stages: seq<int>, layers: nat)
    requires Distinct(stages)
    ensures NeverSticks(Net(AttentionTrace(stages, layers), EagerTrace(stages, 0, layers)))
            <==> |stages| <= 1 || layers == 0
  {
    var n := Net(AttentionTrace(stages, layers), EagerTrace(stages, 0, layers));
    ProgramsAreResumed(stages, layers);
    if |stages| >= 2 && layers > 0 {
      AllResumedSlices(stages, 0, layers);
      RoundFront(stages, 0, layers);
      RoundFront(stages[1..], 0, layers);
      assert n.attention[1] == Dispatch(stages[1], 0);
      assert n.ffn[1] == Combine(stages[0], 0);
      if NeverSticks(n) {
        RunsImplyMatching(n);
        assert false;
      }
    } else {
      EagerMatches(stages, layers);
      forall k: nat ensures Finished(After(n, k)) || CanStep(After(n, k)) {
        MatchingRuns(n, k);
      }
    }
  }

  lemma EagerMatches(stages: seq<int>, layers: nat)
    requires |stages| <= 1 || layers == 0
    ensures AttentionTrace(stages, layers) == EagerTrace(stages, 0, layers)
  {
    ProgramsAreResumed(stages, layers);
    AllResumedSlices(stages, 0, layers);
    if |stages| == 1 {
      assert stages == [stages[0]] && AllResumed(stages, 0, layers) == [Resumed(stages[0], 0, layers)];
      OneStageIsEager(stages[0], 0, layers);
    } else if stages == [] {
      NoStages(0, layers);
    }
  }

  lemma {:induction false} NoStages(layer: nat, layers: nat)
    requires layer <= layers
    ensures EagerTrace([], layer, layers) == []
    decreases layers - layer
  {
    if layer < layers {
      NoStages(layer + 1, layers);
    }
  }
}
