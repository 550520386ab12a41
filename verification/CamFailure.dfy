/** How the Async CAM startup ends once a rank has reported a failure: always, and soon. */
module CamFailure {
  import opened CamProgress
  import opened CamStartup

  // ---------- every wait ends ----------

  /** The most steps that a rank at error key `k` takes in its wait while error key `e` exists:
    * it looks at that key in this iteration or in the next. */
  function Window(c: Config, k: nat, e: nat): nat {
    if k <= e then e - k + 1 else Left(c, k) + e + 2
  }

  /** The rank polls for `what` in every state along the run. */
  ghost predicate Stays(c: Config, inputs: seq<Entry>, s: State, steps: seq<Step>, r: nat, what: Wait)
    requires WellFormed(c, inputs)
    decreases |steps|
  {
    && r < |s.ranks| && s.ranks[r].pc.Polling? && s.ranks[r].pc.what == what
    && (steps == []
        || (|s.ranks| == c.world && Enabled(c, s, steps[0].0, steps[0].1)
            && Stays(c, inputs, Apply(c, inputs, s, steps[0].0, steps[0].1), steps[1..], r, what)))
  }

  /** How many of the steps are rank `r`'s. */
  function Own(steps: seq<Step>, r: nat): nat {
    if steps == [] then 0 else (if steps[0].0 == r then 1 else 0) + Own(steps[1..], r)
  }

  lemma StayingWears(c: Config, inputs: seq<Entry>, s: State, q: nat, act: Action, r: nat, what: Wait, e: nat)
    requires WellFormed(c, inputs) && |s.ranks| == c.world && r < c.world && e in s.errors && e < c.world
    requires Enabled(c, s, q, act) && s.ranks[r].pc.Polling? && s.ranks[r].pc.what == what
    ensures var s' := Apply(c, inputs, s, q, act);
            && |s'.ranks| == c.world && e in s'.errors
            && (s'.ranks[r].pc.Polling? && s'.ranks[r].pc.what == what ==>
                  Window(c, s'.ranks[r].pc.k, e) + (if q == r then 1 else 0) <= Window(c, s.ranks[r].pc.k, e))
  {
    if act.Pass? && s.ranks[q].pc.what.Barrier? && !s.ranks[q].pc.what.stage.Plan? {
      BeyondIsNoBarrier(c, s.ranks[q].agreed.value, q, s.ranks[q].pc.what.stage);
    }
    hide Outcome, Arrived, Beyond;
  }

  lemma BeyondIsNoBarrier(c: Config, a: Agreement, r: nat, stage: Stage)
    ensures Beyond(c, a, r, stage).Polling? ==> !Beyond(c, a, r, stage).what.Barrier?
  {
  }

  /** Once an error key exists, a waiting rank gets out of its wait: it looks at the key in the
    * current iteration or the next, however the steps of other ranks fall in between. */
  lemma {:induction false} EveryWaitEnds(c: Config, inputs: seq<Entry>, s: State, steps: seq<Step>, r: nat, what: Wait,
                                         e: nat)
    requires WellFormed(c, inputs) && |s.ranks| == c.world && e in s.errors && e < c.world
    requires Stays(c, inputs, s, steps, r, what)
    ensures Own(steps, r) < Window(c, s.ranks[r].pc.k, e) <= 2 * c.world + 1
    decreases |steps|
  {
    hide Apply;
    if steps != [] {
      StayingWears(c, inputs, s, steps[0].0, steps[0].1, r, what, e);
      EveryWaitEnds(c, inputs, Apply(c, inputs, s, steps[0].0, steps[0].1), steps[1..], r, what, e);
    }
  }

  // ---------- every run ends ----------

  function Spare(c: Config, n: nat): nat {
    n * (2 * c.world + 10)
  }

  lemma SpareOne(c: Config, n: nat)
    ensures Spare(c, n + 1) == Spare(c, n) + 2 * c.world + 10
  {
    assert (n + 1) * (2 * c.world + 10) == n * (2 * c.world + 10) + (2 * c.world + 10);
  }

  /** The most steps that a rank still takes while error key `e` exists. */
  function Patience(c: Config, e: nat, pc: Pc): nat {
    match pc
    case Starting => Spare(c, 6) + 1
    case Ready(stage) => Spare(c, 6 - Order(stage))
    case Polling(Barrier(stage), k) => Spare(c, 5 - Order(stage)) + 3 + Window(c, k, e)
    case Polling(_, k) => 1 + Window(c, k, e)
    case Resolving => Spare(c, 5) + 2
    case Raising(_) => 1
    case _ => 0
  }

  function PatienceIn(c: Config, e: nat): Pc -> nat {
    (pc: Pc) => Patience(c, e, pc)
  }

  lemma BeyondWears(c: Config, a: Agreement, r: nat, stage: Stage, e: nat)
    requires e < c.world
    ensures Patience(c, e, Beyond(c, a, r, stage)) <= Spare(c, 5 - Order(stage))
  {
    hide Left;
  }

  lemma PollWears(c: Config, inputs: seq<Entry>, s: State, r: nat, act: Action, e: nat)
    requires WellFormed(c, inputs) && |s.ranks| == c.world && e in s.errors && e < c.world
    requires Enabled(c, s, r, act) && s.ranks[r].pc.Polling?
    ensures Patience(c, e, Apply(c, inputs, s, r, act).ranks[r].pc) < Patience(c, e, s.ranks[r].pc)
  {
    var Node(pc, agreed) := s.ranks[r];
    if act.Pass? && pc.what.Barrier? && !pc.what.stage.Plan? {
      BeyondWears(c, agreed.value, r, pc.what.stage, e);
    }
    hide Outcome, Arrived, Beyond, Spare;
  }

  lemma ResolveWears(c: Config, inputs: seq<Entry>, s: State, r: nat, e: nat)
    requires WellFormed(c, inputs) && |s.ranks| == c.world && e in s.errors && e < c.world && Enabled(c, s, r, Resolve)
    ensures Patience(c, e, Apply(c, inputs, s, r, Resolve).ranks[r].pc) < Patience(c, e, s.ranks[r].pc)
  {
    var outcome := Outcome(c, ReadPlans(c, s));
    SpareOne(c, 5);
    hide Outcome, Arrived, Beyond, Spare, ReadPlans, Left;
    if outcome.Ok? {
      BeyondWears(c, outcome.value, r, Plan, e);
    }
  }

  lemma MoveWears(c: Config, inputs: seq<Entry>, s: State, r: nat, act: Action, e: nat)
    requires WellFormed(c, inputs) && |s.ranks| == c.world && e in s.errors && e < c.world
    requires Enabled(c, s, r, act) && !s.ranks[r].pc.Polling?
    ensures Patience(c, e, Apply(c, inputs, s, r, act).ranks[r].pc) < Patience(c, e, s.ranks[r].pc)
  {
    if act.Resolve? {
      hide Enabled, Apply, Patience;
      ResolveWears(c, inputs, s, r, e);
    } else {
      if s.ranks[r].pc.Ready? {
        SpareOne(c, 5 - Order(s.ranks[r].pc.stage));
      }
      hide Outcome, Arrived, Beyond, Spare, ReadPlans, WellFormed;
    }
  }

  /** While an error key exists every step of every rank brings it nearer to its end. */
  lemma StepWears(c: Config, inputs: seq<Entry>, s: State, r: nat, act: Action, e: nat)
    requires WellFormed(c, inputs) && |s.ranks| == c.world && e in s.errors && e < c.world && Enabled(c, s, r, act)
    ensures var s' := Apply(c, inputs, s, r, act);
            && |s'.ranks| == c.world && e in s'.errors
            && Total(PatienceIn(c, e), s'.ranks) < Total(PatienceIn(c, e), s.ranks)
  {
    var s' := Apply(c, inputs, s, r, act);
    OnlyOneMoves(c, inputs, s, r, act);
    hide Apply, Enabled, Patience;
    if s.ranks[r].pc.Polling? {
      PollWears(c, inputs, s, r, act, e);
    } else {
      MoveWears(c, inputs, s, r, act, e);
    }
    OneLess(PatienceIn(c, e), s.ranks, r, s'.ranks[r]);
  }

  lemma OnlyOneMoves(c: Config, inputs: seq<Entry>, s: State, r: nat, act: Action)
    requires Enabled(c, s, r, act) && r < |inputs|
    ensures var s' := Apply(c, inputs, s, r, act);
            |s'.ranks| == |s.ranks| && s'.ranks == s.ranks[r := s'.ranks[r]] && s.errors.Keys <= s'.errors.Keys
  {
    hide Outcome, Arrived, Beyond;
  }

  /** After a failure no run goes on for ever. */
  lemma {:induction false} EveryRunEnds(c: Config, inputs: seq<Entry>, s: State, steps: seq<Step>, s': State, e: nat)
    requires WellFormed(c, inputs) && Runs(c, inputs, s, steps, s')
    requires |s.ranks| == c.world && e in s.errors && e < c.world
    ensures |steps| <= Total(PatienceIn(c, e), s.ranks)
    ensures |s'.ranks| == c.world && e in s'.errors
    decreases |steps|
  {
    hide Apply, PatienceIn, Total;
    if steps != [] {
      StepWears(c, inputs, s, steps[0].0, steps[0].1, e);
      EveryRunEnds(c, inputs, Apply(c, inputs, s, steps[0].0, steps[0].1), steps[1..], s', e);
    }
  }

  // ---------- where runs end ----------

  ghost predicate Stopped(s: State, r: nat) {
    r < |s.ranks| && (s.ranks[r].pc.Done? || s.ranks[r].pc.Failed?)
  }

  /** What a rank does next once something has failed. */
  ghost function Onward(c: Config, s: State, r: nat): Action
    requires r < |s.ranks|
  {
    var pc := s.ranks[r].pc;
    if pc.Raising? then Report
    else if pc.Polling? && pc.k >= c.world && !Arrived(c, s, pc.what) then Retry
    else NextAction(c, pc)
  }

  lemma MovesOn(c: Config, inputs: seq<Entry>, s: State, r: nat)
    requires WellFormed(c, inputs) && Consistent(c, inputs, s) && s.nonce && r < c.world && !Stopped(s, r)
    ensures Enabled(c, s, r, Onward(c, s, r))
  {
    assert Fits(c, inputs, s, r, s.ranks[r]);
    if s.ranks[r].pc.Resolving? {
      ReadsInputs(c, inputs, s);
    }
    hide Outcome, Passed, Scheduled, Consistent, Justified, Arrived;
  }

  lemma StoppedStays(c: Config, s: State, r: nat, act: Action)
    requires Enabled(c, s, r, act)
    ensures !Stopped(s, r)
  {
    hide Arrived;
  }

  ghost predicate NobodyMoves(c: Config, s: State) {
    forall r: nat, act :: !Enabled(c, s, r, act)
  }

  /** After a failure nobody can take a step exactly when every rank is done or failed. */
  lemma EndsIff(c: Config, inputs: seq<Entry>, s: State)
    requires WellFormed(c, inputs) && Consistent(c, inputs, s) && s.nonce
    ensures NobodyMoves(c, s) <==> forall r: nat :: r < c.world ==> Stopped(s, r)
  {
    assert |s.ranks| == c.world;
    if NobodyMoves(c, s) {
      forall r: nat | r < c.world ensures Stopped(s, r) {
        assert !Enabled(c, s, r, Onward(c, s, r));
        hide Enabled, Stopped, Consistent, Onward;
        if !Stopped(s, r) {
          MovesOn(c, inputs, s, r);
        }
      }
    } else {
      var r: nat, act :| Enabled(c, s, r, act);
      assert r < c.world;
      hide Enabled, Stopped, Consistent;
      StoppedStays(c, s, r, act);
    }
  }

  lemma PatienceIsBounded(c: Config, e: nat, pc: Pc)
    requires e < c.world
    ensures Patience(c, e, pc) <= Spare(c, 6) + 1
  {
    SpareOne(c, 5);
    if pc.Ready? {
      SpareGrows(c, 6 - Order(pc.stage), 6);
    } else if pc.Polling? && pc.what.Barrier? {
      SpareGrows(c, 5 - Order(pc.what.stage), 5);
    }
    hide Spare, Left;
  }

  lemma {:induction false} SpareGrows(c: Config, m: nat, n: nat)
    requires m <= n
    ensures Spare(c, m) <= Spare(c, n)
  {
    hide Spare;
    if m < n {
      SpareOne(c, n - 1);
      SpareGrows(c, m, n - 1);
    }
  }

  lemma {:induction false} TotalIsBounded(f: Pc -> nat, ranks: seq<Node>, most: nat)
    requires forall r :: 0 <= r < |ranks| ==> f(ranks[r].pc) <= most
    ensures Total(f, ranks) <= |ranks| * most
  {
    if ranks != [] {
      TotalIsBounded(f, ranks[1..], most);
      assert |ranks| * most == (|ranks| - 1) * most + most;
    }
  }

  lemma StepsAreBounded(c: Config, s: State, e: nat)
    requires |s.ranks| == c.world && e < c.world
    ensures Total(PatienceIn(c, e), s.ranks) <= c.world * (12 * c.world + 61)
  {
    assert Spare(c, 6) + 1 == 12 * c.world + 61;
    forall r | 0 <= r < |s.ranks| ensures PatienceIn(c, e)(s.ranks[r].pc) <= 12 * c.world + 61 {
      PatienceIsBounded(c, e, s.ranks[r].pc);
    }
    hide Spare, Patience, PatienceIn, Total;
    TotalIsBounded(PatienceIn(c, e), s.ranks, 12 * c.world + 61);
  }

  /** Once a rank has reported a failure, every run comes to an end after a bounded number of
    * steps, and exactly where every rank is done or failed. */
  lemma FailureStopsEveryone(c: Config, inputs: seq<Entry>, s: State, steps: seq<Step>, s': State, e: nat)
    requires WellFormed(c, inputs) && Reachable(c, inputs, s) && e in s.errors && Runs(c, inputs, s, steps, s')
    ensures |steps| <= c.world * (12 * c.world + 61)
    ensures NobodyMoves(c, s') <==> forall r: nat :: r < c.world ==> Stopped(s', r)
  {
    Reached(c, inputs, s);
    assert |s.ranks| == c.world && e < c.world && s.nonce;
    hide Consistent, Stopped, PatienceIn, Total, NobodyMoves, Reachable;
    StepsAreBounded(c, s, e);
    EveryRunEnds(c, inputs, s, steps, s', e);
    RunsKeep(c, inputs, s, steps, s');
    assert s'.nonce;
    EndsIff(c, inputs, s');
  }

  lemma FailedIfHeld(s: State, r: nat, what: Wait, e: nat)
    requires Stopped(s, r) && Held(s.ranks[r].pc, what, e)
    ensures s.ranks[r].pc.Failed?
  {
  }

  /** A rank that had not looked at the error key in its current iteration ends failed. */
  lemma LateRanksFail(c: Config, inputs: seq<Entry>, s: State, steps: seq<Step>, s': State, r: nat, what: Wait, e: nat)
    requires WellFormed(c, inputs) && Reachable(c, inputs, s) && e in s.errors && Runs(c, inputs, s, steps, s')
    requires r < |s.ranks| && Held(s.ranks[r].pc, what, e) && NobodyMoves(c, s')
    ensures r < |s'.ranks| && s'.ranks[r].pc.Failed?
  {
    Reached(c, inputs, s);
    assert |s.ranks| == c.world && e < c.world;
    hide Consistent, NobodyMoves, Reachable, Held;
    FailureStopsEveryone(c, inputs, s, steps, s', e);
    assert Stopped(s', r);
    ErrorStopsEveryWait(c, inputs, s, steps, s', r, what, e);
    FailedIfHeld(s', r, what, e);
  }

  // ---------- no failure is silent ----------

  /** A rank that has failed wrote its error key.  Only an FFN rank about to announce its service
    * may stop without, on somebody else's. */
  ghost predicate Told(c: Config, s: State) {
    forall r :: 0 <= r < |s.ranks| && s.ranks[r].pc.Failed? ==>
      if r < c.attn then r in s.errors else exists e :: e in s.errors
  }

  lemma StepTells(c: Config, inputs: seq<Entry>, s: State, q: nat, act: Action)
    requires WellFormed(c, inputs) && Consistent(c, inputs, s) && Enabled(c, s, q, act) && Told(c, s)
    ensures Told(c, Apply(c, inputs, s, q, act))
  {
    var s' := Apply(c, inputs, s, q, act);
    assert Fits(c, inputs, s, q, s.ranks[q]);
    OnlyOneMoves(c, inputs, s, q, act);
    ScanTells(c, inputs, s, q, act);
    hide Fits, Consistent, Apply, Enabled;
    forall r | 0 <= r < |s'.ranks| && s'.ranks[r].pc.Failed?
      ensures if r < c.attn then r in s'.errors else exists e :: e in s'.errors
    {
      if r != q && c.attn <= r {
        var e :| e in s.errors;
        assert e in s'.errors;
      }
    }
  }

  lemma ScanTells(c: Config, inputs: seq<Entry>, s: State, q: nat, act: Action)
    requires WellFormed(c, inputs) && Enabled(c, s, q, act) && q < c.world && Fits(c, inputs, s, q, s.ranks[q])
    requires |s.ranks| == c.world
    ensures var s' := Apply(c, inputs, s, q, act);
            q < |s'.ranks| && (s'.ranks[q].pc.Failed? ==> q in s'.errors || (c.attn <= q && exists e :: e in s'.errors))
  {
    hide Outcome, Arrived, Passed, Scheduled;
    if act.Scan? {
      var pc := s.ranks[q].pc;
      if pc.what.BeforeService? && pc.k in s.errors {
        assert pc.k in Apply(c, inputs, s, q, act).errors;
      }
    }
  }

  lemma {:induction false} RunTells(c: Config, inputs: seq<Entry>, s: State, steps: seq<Step>, s': State)
    requires WellFormed(c, inputs) && Consistent(c, inputs, s) && Told(c, s) && Runs(c, inputs, s, steps, s')
    ensures Told(c, s')
    decreases |steps|
  {
    hide Consistent, Apply, Told;
    if steps != [] {
      StepKeeps(c, inputs, s, steps[0].0, steps[0].1);
      StepTells(c, inputs, s, steps[0].0, steps[0].1);
      RunTells(c, inputs, Apply(c, inputs, s, steps[0].0, steps[0].1), steps[1..], s');
    }
  }

  /** Whatever happens, a failed Attention rank has reported it, and a failed FFN rank has
    * reported it or stopped for a report of another. */
  lemma FailuresAreReported(c: Config, inputs: seq<Entry>, s: State, r: nat)
    requires WellFormed(c, inputs) && Reachable(c, inputs, s) && r < |s.ranks| && s.ranks[r].pc.Failed?
    ensures if r < c.attn then r in s.errors else s.errors != map[]
  {
    InitiallyConsistent(c, inputs);
    var steps :| Runs(c, inputs, Initial(c), steps, s);
    assert Told(c, Initial(c));
    hide Consistent, Runs, Initial;
    RunTells(c, inputs, Initial(c), steps, s);
  }
}
