/** Progress of the Async CAM startup, and what a failure can leave behind. */
module CamProgress {
  import opened CamStartup
  import opened FfnMode
  import opened Wrappers

  // ---------- progress ----------

  ghost predicate Faultless(s: State) {
    s.errors == map[] && forall r :: 0 <= r < |s.ranks| ==> !s.ranks[r].pc.Raising? && !s.ranks[r].pc.Failed?
  }

  ghost predicate AllDone(s: State) {
    forall r :: 0 <= r < |s.ranks| ==> s.ranks[r].pc.Done?
  }

  /** The rank can take a step that brings it nearer to the end. */
  ghost predicate Advances(c: Config, s: State, r: nat) {
    && r < |s.ranks|
    && var pc := s.ranks[r].pc;
    match pc
    case Starting => r == 0 || s.nonce
    case Ready(_) => true
    case Polling(what, _) => Arrived(c, s, what)
    case Resolving => true
    case _ => false
  }

  /** No rank advances, unless it is `y` about to publish `last`. */
  ghost predicate Idle(c: Config, s: State, y: nat, last: Stage) {
    forall q: nat :: Advances(c, s, q) ==> q == y && s.ranks[q].pc == Ready(last)
  }

  /** A rank at a later point than a barrier has published it. */
  lemma HasBehind(c: Config, inputs: seq<Entry>, s: State, q: nat, a: Agreement, stage: Stage)
    requires WellFormed(c, inputs) && Consistent(c, inputs, s) && q < c.world
    requires Scheduled(a, stage) && (stage.Plan? || Outcome(c, inputs) == Ok(a))
    requires var pc := s.ranks[q].pc;
             || pc.Done? || (pc.Ready? && Order(pc.stage) > Order(stage))
             || (pc.Polling? && (pc.what.Barrier? ==> Order(pc.what.stage) >= Order(stage)))
    ensures Has(s, stage, q)
  {
    assert Fits(c, inputs, s, q, s.ranks[q]);
    assert forall other :: Order(other) == Order(stage) ==> other == stage;
    assert Order(stage) < 5;
    hide Outcome, Consistent, Order;
  }

  /** If no rank advances, no rank waits at a barrier before the one that `y` holds up. */
  lemma {:induction false} NoneAtBarrier(c: Config, inputs: seq<Entry>, s: State, y: nat, last: Stage, r: nat,
                                         stage: Stage)
    requires WellFormed(c, inputs) && Consistent(c, inputs, s) && Faultless(s) && r < c.world && y < c.world
    requires Idle(c, s, y, last) && (s.ranks[y].pc != Ready(last) || Order(stage) < Order(last))
    ensures s.ranks[r].pc.Polling? ==> s.ranks[r].pc.what != Barrier(stage)
    decreases Order(stage)
  {
    if s.ranks[r].pc.Polling? && s.ranks[r].pc.what == Barrier(stage) {
      assert !Advances(c, s, r);
      assert Fits(c, inputs, s, r, s.ranks[r]);
      var q :| 0 <= q < c.world && !Has(s, stage, q);
      NoneStarting(c, inputs, s, y, last, q);
      assert Advances(c, s, q) ==> q == y && s.ranks[q].pc == Ready(last);
      var a := s.ranks[r].agreed.GetOr(NOTHING);
      if s.ranks[q].pc.Polling? && s.ranks[q].pc.what.Barrier? && Order(s.ranks[q].pc.what.stage) < Order(stage) {
        NoneAtBarrier(c, inputs, s, y, last, q, s.ranks[q].pc.what.stage);
      } else {
        HasBehind(c, inputs, s, q, a, stage);
      }
      assert false;
    }
  }

  lemma NoneStarting(c: Config, inputs: seq<Entry>, s: State, y: nat, last: Stage, q: nat)
    requires WellFormed(c, inputs) && Consistent(c, inputs, s) && q < c.world
    requires Idle(c, s, y, last)
    ensures !s.ranks[q].pc.Starting?
  {
    assert Advances(c, s, 0) ==> s.ranks[0].pc == Ready(last);
    assert Advances(c, s, q) ==> s.ranks[q].pc == Ready(last);
    assert Fits(c, inputs, s, 0, s.ranks[0]);
  }

  /** Without a failure, and as long as some rank is not done, some rank advances. */
  lemma SomeoneAdvances(c: Config, inputs: seq<Entry>, s: State)
    requires WellFormed(c, inputs) && Consistent(c, inputs, s) && Faultless(s) && !AllDone(s)
    ensures exists r: nat :: Advances(c, s, r)
  {
    if forall r: nat :: !Advances(c, s, r) {
      assert Idle(c, s, 0, Plan) && !Advances(c, s, 0);
      var r :| 0 <= r < c.world && !s.ranks[r].pc.Done?;
      assert !Advances(c, s, r);
      NoneStarting(c, inputs, s, 0, Plan, r);
      var pc := s.ranks[r].pc;
      if pc.what.Barrier? {
        NoneAtBarrier(c, inputs, s, 0, Plan, r, pc.what.stage);
      } else {
        assert Fits(c, inputs, s, r, s.ranks[r]);
        var q :| c.attn <= q < c.world && q !in s.service;
        assert !Advances(c, s, q);
        assert Fits(c, inputs, s, q, s.ranks[q]);
        NoneStarting(c, inputs, s, 0, Plan, q);
        if s.ranks[q].pc.Polling? && s.ranks[q].pc.what.Barrier? {
          NoneAtBarrier(c, inputs, s, 0, Plan, q, s.ranks[q].pc.what.stage);
        }
      }
      assert false;
    }
  }

  /** Enough steps for `n` barriers. */
  function Rounds(c: Config, n: nat): nat {
    n * (c.world + 4)
  }

  /** An upper bound on the steps a rank still takes if nothing fails. */
  function Work(c: Config, pc: Pc): nat {
    match pc
    case Starting => Rounds(c, 6) + 1
    case Ready(stage) => Rounds(c, 6 - Order(stage))
    case Polling(Barrier(stage), k) => Rounds(c, 5 - Order(stage)) + 3 + Left(c, k)
    case Polling(_, k) => 1 + Left(c, k)
    case Resolving => Rounds(c, 5) + 1
    case _ => 0
  }

  lemma OneRound(c: Config, n: nat)
    ensures Rounds(c, n + 1) == Rounds(c, n) + c.world + 4
  {
    assert (n + 1) * (c.world + 4) == n * (c.world + 4) + (c.world + 4);
  }

  function Left(c: Config, k: nat): (n: nat)
    ensures n <= c.world
  {
    if k < c.world then c.world - k else 0
  }

  /** The sum of `f` over where all ranks are. */
  function Total(f: Pc -> nat, ranks: seq<Node>): nat {
    if ranks == [] then 0 else f(ranks[0].pc) + Total(f, ranks[1..])
  }

  lemma {:induction false} OneLess(f: Pc -> nat, ranks: seq<Node>, r: nat, node: Node)
    requires r < |ranks| && f(node.pc) < f(ranks[r].pc)
    ensures Total(f, ranks[r := node]) < Total(f, ranks)
  {
    var moved := ranks[r := node];
    if r == 0 {
      assert moved[1..] == ranks[1..];
    } else {
      OneLess(f, ranks[1..], r - 1, node);
      assert moved[1..] == ranks[1..][r - 1 := node];
    }
  }

  function WorkIn(c: Config): Pc -> nat {
    (pc: Pc) => Work(c, pc)
  }

  function NextAction(c: Config, pc: Pc): Action {
    match pc
    case Starting => Begin
    case Ready(_) => Publish
    case Polling(_, k) => if k < c.world then Scan else Pass
    case _ => Resolve
  }

  lemma BeyondIsLess(c: Config, a: Agreement, r: nat, stage: Stage)
    ensures Work(c, Beyond(c, a, r, stage)) <= Rounds(c, 5 - Order(stage))
    ensures !Beyond(c, a, r, stage).Raising? && !Beyond(c, a, r, stage).Failed?
  {
  }

  lemma AdvanceIsEnabled(c: Config, inputs: seq<Entry>, s: State, r: nat)
    requires WellFormed(c, inputs) && Consistent(c, inputs, s) && Advances(c, s, r)
    ensures Enabled(c, s, r, NextAction(c, s.ranks[r].pc))
  {
    assert Fits(c, inputs, s, r, s.ranks[r]);
    hide Outcome, Consistent, Passed, Scheduled;
    if s.ranks[r].pc.Resolving? {
      ReadsInputs(c, inputs, s);
    }
  }

  /** `node` has neither failed nor as much work left as rank `r`. */
  predicate Lighter(c: Config, s: State, r: nat, node: Node) {
    r < |s.ranks| && !node.pc.Raising? && !node.pc.Failed? && Work(c, node.pc) < Work(c, s.ranks[r].pc)
  }

  lemma AdvanceHelps(c: Config, inputs: seq<Entry>, s: State, r: nat, act: Action, s': State)
    requires WellFormed(c, inputs) && Consistent(c, inputs, s) && Outcome(c, inputs).Ok? && |s.ranks| == c.world
    requires Advances(c, s, r) && act == NextAction(c, s.ranks[r].pc) && Enabled(c, s, r, act)
    requires s' == Apply(c, inputs, s, r, act) && s.errors == map[]
    ensures s'.errors == map[] && exists node :: Lighter(c, s, r, node) && s'.ranks == s.ranks[r := node]
  {
    hide Outcome, Consistent, Apply, Work, Arrived, Lighter;
    if s.ranks[r].pc.Polling? {
      PollHelps(c, inputs, s, r, act);
    } else if act.Resolve? {
      ReadsInputs(c, inputs, s);
      ResolveHelps(c, inputs, s, r);
    } else {
      MoveHelps(c, inputs, s, r, act);
    }
    assert Lighter(c, s, r, s'.ranks[r]);
  }

  lemma MoveHelps(c: Config, inputs: seq<Entry>, s: State, r: nat, act: Action)
    requires r < |inputs| && Advances(c, s, r) && act == NextAction(c, s.ranks[r].pc) && Enabled(c, s, r, act)
    requires !s.ranks[r].pc.Polling? && !act.Resolve?
    ensures var s' := Apply(c, inputs, s, r, act);
            s'.errors == s.errors && s'.ranks == s.ranks[r := s'.ranks[r]] && Lighter(c, s, r, s'.ranks[r])
  {
    hide Arrived, Rounds;
    if s.ranks[r].pc.Ready? {
      OneRound(c, 5 - Order(s.ranks[r].pc.stage));
    }
  }

  lemma ResolveHelps(c: Config, inputs: seq<Entry>, s: State, r: nat)
    requires WellFormed(c, inputs) && Outcome(c, inputs).Ok? && r < |inputs|
    requires Enabled(c, s, r, Resolve) && ReadPlans(c, s) == inputs
    ensures var s' := Apply(c, inputs, s, r, Resolve);
            s'.errors == s.errors && s'.ranks == s.ranks[r := s'.ranks[r]] && Lighter(c, s, r, s'.ranks[r])
  {
    hide Outcome, Beyond, Arrived, Rounds, WellFormed;
    BeyondIsLess(c, Outcome(c, inputs).value, r, Plan);
  }

  lemma PollHelps(c: Config, inputs: seq<Entry>, s: State, r: nat, act: Action)
    requires r < |inputs| && Advances(c, s, r) && act == NextAction(c, s.ranks[r].pc) && Enabled(c, s, r, act)
    requires s.ranks[r].pc.Polling? && s.errors == map[]
    ensures var s' := Apply(c, inputs, s, r, act);
            s'.errors == s.errors && s'.ranks == s.ranks[r := s'.ranks[r]] && Lighter(c, s, r, s'.ranks[r])
  {
    hide Beyond, Arrived, Rounds;
    var Node(pc, agreed) := s.ranks[r];
    if act.Pass? && pc.what.Barrier? && !pc.what.stage.Plan? {
      BeyondIsLess(c, agreed.value, r, pc.what.stage);
    }
  }

  lemma LighterIsFaultless(c: Config, s: State, s': State, r: nat, node: Node)
    requires Faultless(s) && Lighter(c, s, r, node)
    requires s'.errors == map[] && s'.ranks == s.ranks[r := node]
    ensures Faultless(s') && Total(WorkIn(c), s'.ranks) < Total(WorkIn(c), s.ranks)
  {
    OneLess(WorkIn(c), s.ranks, r, node);
  }

  lemma NothingReported(c: Config, inputs: seq<Entry>, s: State)
    requires WellFormed(c, inputs) && Consistent(c, inputs, s) && Faultless(s)
    ensures |s.ranks| == c.world == |inputs| && s.errors == map[]
  {
  }

  /** If the plans are accepted, then as long as nothing has failed every rank can still get
    * to the end: the barriers themselves never block. */
  lemma {:induction false} EveryoneCanFinish(c: Config, inputs: seq<Entry>, s: State)
    requires WellFormed(c, inputs) && Consistent(c, inputs, s) && Faultless(s) && Outcome(c, inputs).Ok?
    ensures exists steps, end :: Runs(c, inputs, s, steps, end) && AllDone(end)
    decreases Total(WorkIn(c), s.ranks)
  {
    hide Apply, Consistent, AllDone, Outcome, Faultless, Work, Total, WorkIn, Lighter, Advances, WellFormed, Arrived;
    NothingReported(c, inputs, s);
    if AllDone(s) {
      assert Runs(c, inputs, s, [], s);
    } else {
      SomeoneAdvances(c, inputs, s);
      var r: nat :| Advances(c, s, r);
      AdvanceIsEnabled(c, inputs, s, r);
      var act := NextAction(c, s.ranks[r].pc);
      var s' := Apply(c, inputs, s, r, act);
      AdvanceHelps(c, inputs, s, r, act, s');
      StepKeeps(c, inputs, s, r, act);
      var node :| Lighter(c, s, r, node) && s'.ranks == s.ranks[r := node];
      LighterIsFaultless(c, s, s', r, node);
      EveryoneCanFinish(c, inputs, s');
      var steps, end :| Runs(c, inputs, s', steps, end) && AllDone(end);
      assert ([(r, act)] + steps)[1..] == steps;
      assert Runs(c, inputs, s, [(r, act)] + steps, end);
    }
  }

  /** Without an abort and without a rank giving up, nothing ever fails. */
  lemma CalmStep(c: Config, inputs: seq<Entry>, s: State, r: nat, act: Action)
    requires WellFormed(c, inputs) && Consistent(c, inputs, s) && Faultless(s) && Outcome(c, inputs).Ok?
    requires Enabled(c, s, r, act) && !act.Abort? && !act.GiveUp?
    ensures Faultless(Apply(c, inputs, s, r, act))
  {
    hide Outcome, Consistent, Arrived, Beyond;
    if act.Resolve? {
      ReadsInputs(c, inputs, s);
      BeyondIsLess(c, Outcome(c, inputs).value, r, Plan);
    } else if act.Pass? && s.ranks[r].pc.what.Barrier? && !s.ranks[r].pc.what.stage.Plan? {
      BeyondIsLess(c, s.ranks[r].agreed.value, r, s.ranks[r].pc.what.stage);
    }
  }

  /** With accepted plans, failures come from aborts and from ranks that give up, and from
    * nothing else. */
  lemma {:induction false} CalmRunsNeverFail(c: Config, inputs: seq<Entry>, s: State, steps: seq<Step>, s': State)
    requires WellFormed(c, inputs) && Consistent(c, inputs, s) && Faultless(s) && Outcome(c, inputs).Ok?
    requires Runs(c, inputs, s, steps, s')
    requires forall i :: 0 <= i < |steps| ==> !steps[i].1.Abort? && !steps[i].1.GiveUp?
    ensures Faultless(s')
    decreases |steps|
  {
    hide Consistent, Faultless, Apply, Outcome;
    if steps != [] {
      CalmStep(c, inputs, s, steps[0].0, steps[0].1);
      StepKeeps(c, inputs, s, steps[0].0, steps[0].1);
      CalmRunsNeverFail(c, inputs, Apply(c, inputs, s, steps[0].0, steps[0].1), steps[1..], s');
    }
  }

  // ---------- not an atomic commit ----------

  lemma {:induction false} OneMore(c: Config, inputs: seq<Entry>, s: State, steps: seq<Step>, s': State, r: nat,
                                   act: Action)
    requires WellFormed(c, inputs) && Runs(c, inputs, s, steps, s') && |s'.ranks| == c.world && Enabled(c, s', r, act)
    ensures Runs(c, inputs, s, steps + [(r, act)], Apply(c, inputs, s', r, act))
    decreases |steps|
  {
    hide Apply;
    var all := steps + [(r, act)];
    if steps == [] {
      assert all[1..] == [];
    } else {
      assert all[1..] == steps[1..] + [(r, act)];
      OneMore(c, inputs, Apply(c, inputs, s, steps[0].0, steps[0].1), steps[1..], s', r, act);
    }
  }

  lemma ReachableStep(c: Config, inputs: seq<Entry>, s: State, r: nat, act: Action)
    requires WellFormed(c, inputs) && Reachable(c, inputs, s) && |s.ranks| == c.world && Enabled(c, s, r, act)
    ensures Reachable(c, inputs, Apply(c, inputs, s, r, act))
  {
    hide Apply, Enabled, Outcome;
    var steps :| Runs(c, inputs, Initial(c), steps, s);
    OneMore(c, inputs, Initial(c), steps, s, r, act);
  }

  lemma StartIsReachable(c: Config, inputs: seq<Entry>)
    requires WellFormed(c, inputs)
    ensures Reachable(c, inputs, Initial(c))
  {
    assert Runs(c, inputs, Initial(c), [], Initial(c));
  }

  /** The last barrier of the agreed schedule. */
  function LastStage(a: Agreement): (last: Stage)
    ensures Scheduled(a, last) && forall stage :: Scheduled(a, stage) ==> Order(stage) <= Order(last)
  {
    if a.mode == "full" then Captured else if a.twoStream then StreamsValidated else Plan
  }

  /** Everyone has published `last` and waits for `y`, which is about to. */
  ghost predicate WaitingFor(c: Config, s: State, y: nat, last: Stage) {
    && |s.ranks| == c.world && y < c.world && s.ranks[y].pc == Ready(last)
    && forall q :: 0 <= q < c.world && q != y ==> s.ranks[q].pc.Polling? && s.ranks[q].pc.what == Barrier(last)
  }

  /** Where an idle rank may be while `y` has not published the last stage. */
  lemma NotBeyond(c: Config, inputs: seq<Entry>, s: State, a: Agreement, y: nat, q: nat)
    requires WellFormed(c, inputs) && Consistent(c, inputs, s) && Faultless(s) && Outcome(c, inputs) == Ok(a)
    requires y < c.world && q < c.world && !Has(s, LastStage(a), y) && Idle(c, s, y, LastStage(a))
    ensures var pc := s.ranks[q].pc;
            if q == y then pc == Ready(LastStage(a)) else pc.Polling? && pc.what == Barrier(LastStage(a))
  {
    var last, pc := LastStage(a), s.ranks[q].pc;
    NoneStarting(c, inputs, s, y, last, q);
    assert Advances(c, s, q) ==> q == y && pc == Ready(last);
    assert Fits(c, inputs, s, q, s.ranks[q]);
    assert forall other :: Order(other) == Order(last) ==> other == last;
    assert Order(last) < 5;
    if pc.Polling? && pc.what.Barrier? && pc.what.stage != last {
      NoneAtBarrier(c, inputs, s, y, last, q, pc.what.stage);
    }
    hide Outcome, Consistent, Idle, Arrived;
  }

  /** A step of another rank, or of `y` before it, does not publish `y`'s last stage. */
  lemma StillMissing(c: Config, inputs: seq<Entry>, s: State, y: nat, last: Stage, r: nat, act: Action)
    requires WellFormed(c, inputs) && |s.ranks| == c.world && Enabled(c, s, r, act) && !Has(s, last, y)
    requires r != y || s.ranks[r].pc != Ready(last)
    ensures !Has(Apply(c, inputs, s, r, act), last, y)
  {
    hide Outcome, Arrived, Beyond;
  }

  /** Everyone but `y` can get to the last barrier before `y` publishes it. */
  lemma {:induction false} OthersCanArrive(c: Config, inputs: seq<Entry>, s: State, a: Agreement, y: nat)
    requires WellFormed(c, inputs) && Reachable(c, inputs, s) && Consistent(c, inputs, s) && Faultless(s)
    requires Outcome(c, inputs) == Ok(a) && y < c.world && !Has(s, LastStage(a), y)
    ensures exists s' :: Reachable(c, inputs, s') && Consistent(c, inputs, s') && Faultless(s')
                         && WaitingFor(c, s', y, LastStage(a)) && !Has(s', LastStage(a), y)
    decreases Total(WorkIn(c), s.ranks)
  {
    var last := LastStage(a);
    if Idle(c, s, y, last) {
      NotBeyond(c, inputs, s, a, y, y);
      forall q: nat | q < c.world ensures q != y ==> s.ranks[q].pc.Polling? && s.ranks[q].pc.what == Barrier(last) {
        NotBeyond(c, inputs, s, a, y, q);
      }
      assert |s.ranks| == c.world;
      hide Consistent, Outcome, Faultless, Idle, Reachable, Has, LastStage, Total;
      assert WaitingFor(c, s, y, last);
    } else {
      var r: nat :| Advances(c, s, r) && !(r == y && s.ranks[r].pc == Ready(last));
      var act := NextAction(c, s.ranks[r].pc);
      assert |s.ranks| == c.world && s.errors == map[];
      AdvanceIsEnabled(c, inputs, s, r);
      var s' := Apply(c, inputs, s, r, act);
      StillMissing(c, inputs, s, y, last, r, act);
      hide Apply, Consistent, Outcome, Faultless, Work, Total, WorkIn, Lighter, Reachable, Has, LastStage, WaitingFor;
      AdvanceHelps(c, inputs, s, r, act, s');
      StepKeeps(c, inputs, s, r, act);
      ReachableStep(c, inputs, s, r, act);
      var node :| Lighter(c, s, r, node) && s'.ranks == s.ranks[r := node];
      LighterIsFaultless(c, s, s', r, node);
      OthersCanArrive(c, inputs, s', a, y);
    }
  }

  /** A waiting rank can look at every error key, find none, and come to test its keys. */
  lemma {:induction false} LooksThrough(c: Config, inputs: seq<Entry>, s: State, x: nat)
    requires WellFormed(c, inputs) && Reachable(c, inputs, s) && |s.ranks| == c.world && x < c.world
    requires s.errors == map[] && s.ranks[x].pc.Polling?
    ensures exists k :: k >= c.world && Reachable(c, inputs, Goto(s, x, Polling(s.ranks[x].pc.what, k)))
    decreases c.world - s.ranks[x].pc.k
  {
    hide Reachable;
    var Polling(what, k) := s.ranks[x].pc;
    if k >= c.world {
      assert Goto(s, x, Polling(what, k)) == s;
    } else {
      var s' := Goto(s, x, Polling(what, k + 1));
      assert Enabled(c, s, x, Scan) && Apply(c, inputs, s, x, Scan) == s';
      ReachableStep(c, inputs, s, x, Scan);
      LooksThrough(c, inputs, s', x);
      var n :| n >= c.world && Reachable(c, inputs, Goto(s', x, Polling(what, n)));
      assert Goto(s', x, Polling(what, n)) == Goto(s, x, Polling(what, n));
    }
  }

  /** While `y` holds up the last barrier, another rank can give up. */
  lemma CanGiveUp(c: Config, inputs: seq<Entry>, s: State, y: nat, last: Stage, x: nat)
    requires WellFormed(c, inputs) && Reachable(c, inputs, s) && s.errors == map[]
    requires WaitingFor(c, s, y, last) && !Has(s, last, y) && x < c.world && x != y
    ensures Reachable(c, inputs, Goto(s, x, Raising(TimedOut)))
  {
    hide Reachable, Outcome;
    LooksThrough(c, inputs, s, x);
    var k: nat :| k >= c.world && Reachable(c, inputs, Goto(s, x, Polling(Barrier(last), k)));
    var t := Goto(s, x, Polling(Barrier(last), k));
    assert !Has(t, last, y);
    assert Enabled(c, t, x, GiveUp) && Apply(c, inputs, t, x, GiveUp) == Goto(s, x, Raising(TimedOut));
    ReachableStep(c, inputs, t, x, GiveUp);
  }

  /** Everybody else has published everything; FFN rank `y` has only itself to wait for. */
  ghost predicate Alone(c: Config, s: State, a: Agreement, y: nat) {
    && |s.ranks| == c.world && c.attn <= y < c.world && s.nonce && s.errors == map[]
    && !s.ranks[y].pc.Starting? && !s.ranks[y].pc.Raising? && !s.ranks[y].pc.Failed?
    && forall stage, q :: Scheduled(a, stage) && 0 <= q < c.world && q != y ==> Has(s, stage, q)
  }

  lemma AloneAdvances(c: Config, inputs: seq<Entry>, s: State, a: Agreement, y: nat)
    requires WellFormed(c, inputs) && Consistent(c, inputs, s) && Outcome(c, inputs) == Ok(a) && Alone(c, s, a, y)
    ensures s.ranks[y].pc.Done? || Advances(c, s, y)
  {
    assert Fits(c, inputs, s, y, s.ranks[y]);
    hide Outcome, Consistent;
  }

  lemma AloneStays(c: Config, s: State, s': State, a: Agreement, y: nat, node: Node)
    requires Alone(c, s, a, y) && Grows(s, s') && s'.errors == map[]
    requires s'.ranks == s.ranks[y := node] && !node.pc.Starting? && !node.pc.Raising? && !node.pc.Failed?
    ensures Alone(c, s', a, y)
  {
    forall stage, q | Scheduled(a, stage) && 0 <= q < c.world && q != y ensures Has(s', stage, q) {
      GrowsHas(s, s', stage, q);
    }
  }

  /** The state after rank `y`'s next step. */
  ghost function After(c: Config, inputs: seq<Entry>, s: State, y: nat): State
    requires y < |s.ranks| && y < |inputs| && Enabled(c, s, y, NextAction(c, s.ranks[y].pc))
  {
    Apply(c, inputs, s, y, NextAction(c, s.ranks[y].pc))
  }

  lemma AloneStep(c: Config, inputs: seq<Entry>, s: State, a: Agreement, y: nat)
    requires WellFormed(c, inputs) && Consistent(c, inputs, s) && Outcome(c, inputs) == Ok(a)
    requires Alone(c, s, a, y) && !s.ranks[y].pc.Done?
    ensures Enabled(c, s, y, NextAction(c, s.ranks[y].pc))
    ensures Consistent(c, inputs, After(c, inputs, s, y)) && Alone(c, After(c, inputs, s, y), a, y)
    ensures exists node :: Lighter(c, s, y, node) && After(c, inputs, s, y).ranks == s.ranks[y := node]
  {
    AloneAdvances(c, inputs, s, a, y);
    AdvanceIsEnabled(c, inputs, s, y);
    var act, s' := NextAction(c, s.ranks[y].pc), After(c, inputs, s, y);
    NeverStarts(c, inputs, s, y, act);
    assert |s.ranks| == c.world && s.errors == map[];
    hide Apply, Consistent, Outcome, Work, Grows, Alone;
    AdvanceHelps(c, inputs, s, y, act, s');
    StepKeeps(c, inputs, s, y, act);
    StepGrows(c, inputs, s, y, act);
    var node :| Lighter(c, s, y, node) && s'.ranks == s.ranks[y := node];
    AloneStays(c, s, s', a, y, node);
  }

  lemma NeverStarts(c: Config, inputs: seq<Entry>, s: State, r: nat, act: Action)
    requires Enabled(c, s, r, act) && r < |inputs|
    ensures |Apply(c, inputs, s, r, act).ranks| == |s.ranks|
    ensures !Apply(c, inputs, s, r, act).ranks[r].pc.Starting?
  {
    hide Outcome, Arrived;
  }

  /** An FFN rank that everybody has gone ahead of can finish whatever the others do. */
  lemma {:induction false} CanFinishAlone(c: Config, inputs: seq<Entry>, s: State, a: Agreement, y: nat)
    requires WellFormed(c, inputs) && Reachable(c, inputs, s) && Consistent(c, inputs, s)
    requires Outcome(c, inputs) == Ok(a) && Alone(c, s, a, y)
    ensures exists s' :: Reachable(c, inputs, s') && FinishedAlone(c, s, s', y)
    decreases Work(c, s.ranks[y].pc)
  {
    assert |s.ranks| == c.world && y < c.world && s.errors == map[];
    if s.ranks[y].pc.Done? {
      assert FinishedAlone(c, s, s, y);
    } else {
      hide Consistent, Outcome, Work, Reachable, Alone, Apply, Enabled;
      AloneStep(c, inputs, s, a, y);
      ReachableStep(c, inputs, s, y, NextAction(c, s.ranks[y].pc));
      var s' := After(c, inputs, s, y);
      var node :| Lighter(c, s, y, node) && s'.ranks == s.ranks[y := node];
      CanFinishAlone(c, inputs, s', a, y);
      var u :| Reachable(c, inputs, u) && FinishedAlone(c, s', u, y);
      assert FinishedAlone(c, s, u, y);
    }
  }

  /** `y` is done, nothing has been reported, and nobody else has moved. */
  ghost predicate FinishedAlone(c: Config, s: State, s': State, y: nat) {
    && |s.ranks| == |s'.ranks| == c.world && y < c.world && s'.errors == map[] && s'.ranks[y].pc.Done?
    && forall q :: 0 <= q < c.world && q != y ==> s'.ranks[q] == s.ranks[q]
  }

  /** From a state in which everyone waits for FFN rank `y`, `x` can fail and `y` finish. */
  lemma SplitsFrom(c: Config, inputs: seq<Entry>, s: State, a: Agreement, x: nat, y: nat)
    requires WellFormed(c, inputs) && Reachable(c, inputs, s) && Consistent(c, inputs, s) && Faultless(s)
    requires Outcome(c, inputs) == Ok(a) && WaitingFor(c, s, y, LastStage(a)) && !Has(s, LastStage(a), y)
    requires x < c.world && x != y && c.attn <= y
    ensures SplitReachable(c, inputs, x, y)
  {
    assert s.errors == map[] && |s.ranks| == c.world && y < c.world;
    hide Reachable, Outcome, Consistent, Faultless, WaitingFor, Alone, LastStage, Has;
    CanGiveUp(c, inputs, s, y, LastStage(a), x);
    var t := Goto(s, x, Raising(TimedOut));
    WaitingIsAlone(c, inputs, s, a, x, y);
    Reached(c, inputs, t);
    CanFinishAlone(c, inputs, t, a, y);
    var u :| Reachable(c, inputs, u) && FinishedAlone(c, t, u, y);
    ReportSplits(c, inputs, u, x, y);
  }

  lemma ReportSplits(c: Config, inputs: seq<Entry>, u: State, x: nat, y: nat)
    requires WellFormed(c, inputs) && Reachable(c, inputs, u) && |u.ranks| == c.world
    requires x < c.world && y < c.world && x != y && u.ranks[x].pc.Raising? && u.ranks[y].pc.Done?
    ensures SplitReachable(c, inputs, x, y)
  {
    hide Reachable, Outcome;
    assert Enabled(c, u, x, Report);
    ReachableStep(c, inputs, u, x, Report);
    assert Split(Apply(c, inputs, u, x, Report), x, y);
  }

  lemma WaitingIsAlone(c: Config, inputs: seq<Entry>, s: State, a: Agreement, x: nat, y: nat)
    requires WellFormed(c, inputs) && Consistent(c, inputs, s) && Faultless(s) && Outcome(c, inputs) == Ok(a)
    requires WaitingFor(c, s, y, LastStage(a)) && x < c.world && x != y && c.attn <= y
    ensures Alone(c, Goto(s, x, Raising(TimedOut)), a, y)
  {
    assert Fits(c, inputs, s, y, s.ranks[y]);
    var t := Goto(s, x, Raising(TimedOut));
    hide Outcome, Consistent, LastStage, Arrived;
    forall stage, q | Scheduled(a, stage) && 0 <= q < c.world && q != y ensures Has(t, stage, q) {
      HasBehind(c, inputs, s, q, a, stage);
      assert Has(s, stage, q);
    }
  }

  /** `x` has failed although `y` is done. */
  ghost predicate Split(s: State, x: nat, y: nat) {
    x < |s.ranks| && y < |s.ranks| && s.ranks[x].pc.Failed? && s.ranks[y].pc.Done?
  }

  ghost predicate SplitReachable(c: Config, inputs: seq<Entry>, x: nat, y: nat)
    requires WellFormed(c, inputs)
  {
    exists s :: Reachable(c, inputs, s) && Split(s, x, y)
  }

  /** With accepted plans, any rank can fail although any other FFN rank finishes. */
  lemma AnyPairCanSplit(c: Config, inputs: seq<Entry>, x: nat, y: nat)
    requires WellFormed(c, inputs) && Outcome(c, inputs).Ok?
    requires x < c.world && c.attn <= y < c.world && x != y
    ensures SplitReachable(c, inputs, x, y)
  {
    var a := Outcome(c, inputs).value;
    StartIsReachable(c, inputs);
    InitiallyConsistent(c, inputs);
    assert Faultless(Initial(c)) && !Has(Initial(c), LastStage(a), y);
    OthersCanArrive(c, inputs, Initial(c), a, y);
    hide Reachable, Outcome, Consistent, Faultless;
    var s :| Reachable(c, inputs, s) && Consistent(c, inputs, s) && Faultless(s)
             && WaitingFor(c, s, y, LastStage(a)) && !Has(s, LastStage(a), y);
    SplitsFrom(c, inputs, s, a, x, y);
  }

  /** The handshake is an atomic commit exactly when the plans are rejected or there is only
    * one rank: otherwise some run ends one rank and fails another. */
  lemma SplitIff(c: Config, inputs: seq<Entry>)
    requires WellFormed(c, inputs)
    ensures (exists x: nat, y: nat :: SplitReachable(c, inputs, x, y)) <==> Outcome(c, inputs).Ok? && c.world >= 2
  {
    hide Outcome, SplitReachable, WellFormed;
    if x: nat, y: nat :| SplitReachable(c, inputs, x, y) {
      SplitNeedsTwo(c, inputs, x, y);
    }
    if Outcome(c, inputs).Ok? && c.world >= 2 {
      FfnExists(c, inputs);
      AnyPairCanSplit(c, inputs, 0, c.world - 1);
    }
  }

  lemma SplitNeedsTwo(c: Config, inputs: seq<Entry>, x: nat, y: nat)
    requires WellFormed(c, inputs) && SplitReachable(c, inputs, x, y)
    ensures Outcome(c, inputs).Ok? && c.world >= 2
  {
    var s :| Reachable(c, inputs, s) && Split(s, x, y);
    Reached(c, inputs, s);
    DoneMeansAllPassed(c, inputs, s, y);
  }

  /** Plans can only be accepted if there is an FFN rank. */
  lemma FfnExists(c: Config, inputs: seq<Entry>)
    requires WellFormed(c, inputs) && Outcome(c, inputs).Ok?
    ensures c.attn < c.world
  {
    AcceptedIff(Plans(c, inputs));
  }

  const TWO := Config(1, 2)
  const DEFAULT_PLAN := FFNGraphPlan("eager", "", "", [], "", "")
  const EAGER: seq<Entry> := [Entry("t", None), Entry("t", Some(DEFAULT_PLAN))]

  /** Already the default plan on one Attention and one FFN rank lets the FFN rank finish
    * although Attention has failed. */
  lemma OnePassesOneTimesOut()
    ensures WellFormed(TWO, EAGER) && SplitReachable(TWO, EAGER, 0, 1)
  {
    var plans := Plans(TWO, EAGER);
    assert plans == [DEFAULT_PLAN] && plans[0] in plans;
    AcceptedIff(plans);
    assert AllAgree(plans);
    AnyPairCanSplit(TWO, EAGER, 0, 1);
  }
}
