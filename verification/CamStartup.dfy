/** The Async CAM graph startup: N ranks, one shared store, barriers by polling.  Every rank runs
  * alone and reads or writes one store key at a time, so the steps of different ranks interleave
  * freely.  A timeout is a choice that a rank may make whenever it found its keys missing.
  * Attention ranks come before FFN ranks. */
module CamStartup {
  import opened FfnMode
  import opened Wrappers

  // ---------- what is negotiated ----------

  datatype Config = Config(attn: nat, world: nat)

  datatype Entry = Entry(transport: string, ffn: Option<FFNGraphPlan>)

  datatype Failure = Rejected(why: Rejection) | TransportsDiffer | TimedOut | Local(message: string)

  datatype Agreement = Agreement(mode: string, twoStream: bool, warmupLayer: Option<int>)

  /** One entry per rank, with a plan from exactly the FFN ranks. */
  ghost predicate WellFormed(c: Config, entries: seq<Entry>) {
    && 1 <= c.world && c.attn <= c.world && |entries| == c.world
    && forall r :: 0 <= r < c.world ==> (entries[r].ffn.Some? <==> c.attn <= r)
  }

  ghost function Plans(c: Config, entries: seq<Entry>): seq<FFNGraphPlan>
    requires WellFormed(c, entries)
  {
    seq(c.world - c.attn, i requires 0 <= i < c.world - c.attn => entries[c.attn + i].ffn.value)
  }

  ghost function Transports(entries: seq<Entry>): set<string> {
    set e | e in entries :: e.transport
  }

  /** What a rank concludes once it has read every entry. */
  ghost function Outcome(c: Config, entries: seq<Entry>): Result<Agreement, Failure>
    requires WellFormed(c, entries)
  {
    var plans := Plans(c, entries);
    AcceptedIff(plans);
    match ResolveFfnMode(plans)
    case Error(why) => Error(Rejected(why))
    case Ok(mode) =>
      var lead := plans[0];
      assert lead in plans;
      var twoStream := lead.streamSignature != "";
      if (mode == "full" || twoStream) && |Transports(entries)| != 1 then Error(TransportsDiffer)
      else Ok(Agreement(mode, twoStream, if mode == "full" then Some(lead.layerIds[0]) else None))
  }

  // ---------- the barriers ----------

  datatype Stage = Plan | StreamsValidated | Validated | Warmup | Captured

  function Order(stage: Stage): nat {
    match stage
    case Plan => 0
    case StreamsValidated => 1
    case Validated => 2
    case Warmup => 3
    case Captured => 4
  }

  predicate Scheduled(a: Agreement, stage: Stage) {
    || stage.Plan?
    || (stage.StreamsValidated? && a.twoStream)
    || (Order(stage) >= 2 && a.mode == "full")
  }

  predicate Serves(a: Agreement) {
    a.mode == "full" || a.twoStream
  }

  /** What a rank polls for: a barrier, or (Attention only) the FFN's service keys.  Before
    * announcing its service an FFN rank only looks for failures. */
  datatype Wait = Barrier(stage: Stage) | BeforeService | ForService

  /** `Polling(for, k)`: in this iteration the error keys below `k` were absent. */
  datatype Pc =
    | Starting | Ready(stage: Stage) | Polling(what: Wait, k: nat) | Resolving
    | Done | Raising(why: Failure) | Failed

  /** Where a rank goes from a passed barrier. */
  function Beyond(c: Config, a: Agreement, r: nat, stage: Stage): Pc {
    if stage.Plan? && a.twoStream then Ready(StreamsValidated)
    else if Order(stage) < 2 && a.mode == "full" then Ready(Validated)
    else if stage.Validated? then Ready(Warmup)
    else if stage.Warmup? then Ready(Captured)
    else if c.attn <= r && Serves(a) then Polling(BeforeService, 0)
    else if r < c.attn && a.mode == "full" then Polling(ForService, 0)
    else Done
  }

  // ---------- the state machine ----------

  datatype Node = Node(pc: Pc, agreed: Option<Agreement>)

  datatype State = State(
    nonce: bool, plans: map<nat, Entry>, ready: set<(Stage, nat)>, service: set<nat>,
    errors: map<nat, Failure>, ranks: seq<Node>)

  datatype Action = Begin | Publish | Abort(message: string) | Scan | Pass | Retry | GiveUp | Resolve | Report

  const NOTHING := Agreement("", false, None)

  ghost function Initial(c: Config): State {
    State(false, map[], {}, {}, map[], seq(c.world, _ => Node(Starting, None)))
  }

  predicate Has(s: State, stage: Stage, q: nat) {
    if stage.Plan? then q in s.plans else (stage, q) in s.ready
  }

  ghost predicate Arrived(c: Config, s: State, what: Wait) {
    match what
    case Barrier(stage) => forall q :: 0 <= q < c.world ==> Has(s, stage, q)
    case BeforeService => true
    case ForService => forall q :: c.attn <= q < c.world ==> q in s.service
  }

  ghost function ReadPlans(c: Config, s: State): seq<Entry>
    requires Arrived(c, s, Barrier(Plan))
  {
    seq(c.world, q requires 0 <= q < c.world => assert Has(s, Plan, q); s.plans[q])
  }

  ghost predicate Enabled(c: Config, s: State, r: nat, act: Action) {
    && r < |s.ranks|
    && var pc := s.ranks[r].pc;
    match act
    case Begin => pc.Starting? && (r == 0 || s.nonce)
    case Publish => pc.Ready?
    case Abort(_) => pc.Ready?
    case Scan => pc.Polling? && pc.k < c.world
    case Pass =>
      && pc.Polling? && pc.k >= c.world && Arrived(c, s, pc.what)
      && (pc.what.Barrier? && !pc.what.stage.Plan? ==> s.ranks[r].agreed.Some?)
    case Retry => pc.Polling? && pc.k >= c.world && !Arrived(c, s, pc.what)
    case GiveUp => pc.Polling? && pc.k >= c.world && !Arrived(c, s, pc.what)
    case Resolve => pc.Resolving? && Arrived(c, s, Barrier(Plan)) && WellFormed(c, ReadPlans(c, s))
    case Report => pc.Raising?
  }

  function Goto(s: State, r: nat, pc: Pc): State
    requires r < |s.ranks|
  {
    s.(ranks := s.ranks[r := s.ranks[r].(pc := pc)])
  }

  ghost function Apply(c: Config, inputs: seq<Entry>, s: State, r: nat, act: Action): State
    requires Enabled(c, s, r, act) && r < |inputs|
  {
    var pc := s.ranks[r].pc;
    match act
    case Begin => Goto(s, r, Ready(Plan)).(nonce := true)
    case Publish =>
      var t := Goto(s, r, Polling(Barrier(pc.stage), 0));
      if pc.stage.Plan? then t.(plans := t.plans[r := inputs[r]]) else t.(ready := t.ready + {(pc.stage, r)})
    case Abort(message) => Goto(s, r, Raising(Local(message)))
    case Scan =>
      if pc.k !in s.errors then Goto(s, r, Polling(pc.what, pc.k + 1))
      else if pc.what.BeforeService? then Goto(s, r, Failed)
      else Goto(s, r, Raising(s.errors[pc.k]))
    case Pass =>
      if pc.what.ForService? then Goto(s, r, Done)
      else if pc.what.BeforeService? then Goto(s, r, Done).(service := s.service + {r})
      else if pc.what.stage.Plan? then Goto(s, r, Resolving)
      else Goto(s, r, Beyond(c, s.ranks[r].agreed.value, r, pc.what.stage))
    case Retry => Goto(s, r, Polling(pc.what, 0))
    case GiveUp => Goto(s, r, Raising(TimedOut))
    case Resolve =>
      (match Outcome(c, ReadPlans(c, s))
       case Error(why) => Goto(s, r, Raising(why))
       case Ok(a) => s.(ranks := s.ranks[r := Node(Beyond(c, a, r, Plan), Some(a))]))
    case Report => Goto(s, r, Failed).(errors := s.errors[r := pc.why])
  }

  type Step = (nat, Action)

  /** The steps lead from `s` to `s'`. */
  ghost predicate Runs(c: Config, inputs: seq<Entry>, s: State, steps: seq<Step>, s': State)
    requires WellFormed(c, inputs)
    decreases |steps|
  {
    if steps == [] then s == s'
    else
      && |s.ranks| == c.world
      && Enabled(c, s, steps[0].0, steps[0].1)
      && Runs(c, inputs, Apply(c, inputs, s, steps[0].0, steps[0].1), steps[1..], s')
  }

  // ---------- what every step keeps ----------

  /** Every rank has published every scheduled stage before `order`. */
  ghost predicate Passed(c: Config, s: State, a: Agreement, order: nat) {
    forall stage, q :: Scheduled(a, stage) && Order(stage) < order && 0 <= q < c.world ==> Has(s, stage, q)
  }

  /** What the store holds whenever rank `r` is where `node` says. */
  ghost predicate Fits(c: Config, inputs: seq<Entry>, s: State, r: nat, node: Node)
    requires WellFormed(c, inputs)
  {
    var Node(pc, agreed) := node;
    && (!pc.Starting? ==> s.nonce)
    && (agreed.Some? ==> Outcome(c, inputs) == Ok(agreed.value) && Passed(c, s, agreed.value, 1))
    && match pc
       case Ready(stage) => !stage.Plan? ==>
            agreed.Some? && Scheduled(agreed.value, stage) && Passed(c, s, agreed.value, Order(stage))
       case Polling(Barrier(stage), _) =>
         && Has(s, stage, r)
         && (!stage.Plan? ==>
             agreed.Some? && Scheduled(agreed.value, stage) && Passed(c, s, agreed.value, Order(stage)))
       case Polling(BeforeService, _) => c.attn <= r && agreed.Some? && Passed(c, s, agreed.value, 5)
       case Polling(ForService, _) => r < c.attn && agreed.Some? && agreed.value.mode == "full"
            && Passed(c, s, agreed.value, 5)
       case Resolving => Arrived(c, s, Barrier(Plan))
       case Done =>
         && agreed.Some? && Passed(c, s, agreed.value, 5)
         && (c.attn <= r && Serves(agreed.value) ==> r in s.service)
         && (r < c.attn && agreed.value.mode == "full" ==> Arrived(c, s, ForService))
       case _ => true
  }

  ghost predicate Justified(c: Config, inputs: seq<Entry>, s: State, order: nat)
    requires WellFormed(c, inputs)
  {
    Outcome(c, inputs).Ok? && Passed(c, s, Outcome(c, inputs).value, order)
  }

  /** Error keys are ranks', and the nonce was there when one was written. */
  ghost predicate Reported(c: Config, s: State) {
    forall e :: e in s.errors ==> e < c.world && s.nonce
  }

  ghost predicate Consistent(c: Config, inputs: seq<Entry>, s: State)
    requires WellFormed(c, inputs)
  {
    && |s.ranks| == c.world
    && (forall q :: q in s.plans ==> q < c.world && s.plans[q] == inputs[q])
    && (forall stage, q :: (stage, q) in s.ready ==>
          Justified(c, inputs, s, Order(stage)) && Scheduled(Outcome(c, inputs).value, stage))
    && (forall q :: q in s.service ==> Justified(c, inputs, s, 5))
    && Reported(c, s)
    && (forall r :: 0 <= r < c.world ==> Fits(c, inputs, s, r, s.ranks[r]))
  }

  /** Keys are only ever added, and a plan is never rewritten. */
  ghost predicate Grows(s: State, s': State) {
    && (s.nonce ==> s'.nonce)
    && s.plans.Keys <= s'.plans.Keys
    && (forall q :: q in s.plans ==> s'.plans[q] == s.plans[q])
    && s.ready <= s'.ready && s.service <= s'.service && s.errors.Keys <= s'.errors.Keys
  }

  lemma InitiallyConsistent(c: Config, inputs: seq<Entry>)
    requires WellFormed(c, inputs)
    ensures Consistent(c, inputs, Initial(c))
  {
  }

  lemma StepGrows(c: Config, inputs: seq<Entry>, s: State, r: nat, act: Action)
    requires WellFormed(c, inputs) && Consistent(c, inputs, s) && Enabled(c, s, r, act)
    ensures Grows(s, Apply(c, inputs, s, r, act))
  {
    hide Outcome, Fits, Justified, Arrived;
  }

  lemma GrowsHas(s: State, s': State, stage: Stage, q: nat)
    requires Grows(s, s') && Has(s, stage, q)
    ensures Has(s', stage, q)
  {
  }

  lemma GrowsPassed(c: Config, s: State, s': State, a: Agreement, order: nat)
    requires Grows(s, s') && Passed(c, s, a, order)
    ensures Passed(c, s', a, order)
  {
    forall stage, q | Scheduled(a, stage) && Order(stage) < order && 0 <= q < c.world ensures Has(s', stage, q) {
      GrowsHas(s, s', stage, q);
    }
  }

  lemma GrowsArrived(c: Config, s: State, s': State, what: Wait)
    requires Grows(s, s') && Arrived(c, s, what)
    ensures Arrived(c, s', what)
  {
    if what.Barrier? {
      forall q | 0 <= q < c.world ensures Has(s', what.stage, q) {
        GrowsHas(s, s', what.stage, q);
      }
    }
  }

  lemma GrowthKeeps(c: Config, s: State, s': State, a: Agreement)
    requires Grows(s, s')
    ensures forall order :: Passed(c, s, a, order) ==> Passed(c, s', a, order)
    ensures forall what :: Arrived(c, s, what) ==> Arrived(c, s', what)
  {
    forall order | Passed(c, s, a, order) ensures Passed(c, s', a, order) {
      GrowsPassed(c, s, s', a, order);
    }
    forall what | Arrived(c, s, what) ensures Arrived(c, s', what) {
      GrowsArrived(c, s, s', what);
    }
  }

  lemma FitsStays(c: Config, inputs: seq<Entry>, s: State, s': State, r: nat, node: Node)
    requires WellFormed(c, inputs) && Grows(s, s') && Fits(c, inputs, s, r, node)
    ensures Fits(c, inputs, s', r, node)
  {
    hide Passed, Arrived, Outcome, Scheduled;
    if node.agreed.Some? {
      GrowthKeeps(c, s, s', node.agreed.value);
    } else if node.pc.Resolving? {
      GrowsArrived(c, s, s', Barrier(Plan));
    }
  }

  /** Passing a barrier leaves a rank with everything before its next stage published. */
  lemma BeyondFits(c: Config, inputs: seq<Entry>, s: State, r: nat, a: Agreement, stage: Stage)
    requires WellFormed(c, inputs) && Outcome(c, inputs) == Ok(a) && s.nonce
    requires Scheduled(a, stage) && Passed(c, s, a, Order(stage)) && Arrived(c, s, Barrier(stage))
    ensures Fits(c, inputs, s, r, Node(Beyond(c, a, r, stage), Some(a)))
  {
    hide Outcome;
    assert forall other :: Order(other) == Order(stage) ==> other == stage;
    assert forall other :: Order(other) <= 4;
    assert Passed(c, s, a, Order(stage) + 1);
  }

  /** A rank reads exactly what was put in. */
  lemma ReadsInputs(c: Config, inputs: seq<Entry>, s: State)
    requires WellFormed(c, inputs) && Consistent(c, inputs, s) && Arrived(c, s, Barrier(Plan))
    ensures ReadPlans(c, s) == inputs
  {
    forall q | 0 <= q < c.world ensures ReadPlans(c, s)[q] == inputs[q] {
      assert Has(s, Plan, q);
    }
  }

  lemma MovedFits(c: Config, inputs: seq<Entry>, s: State, r: nat, act: Action)
    requires WellFormed(c, inputs) && Consistent(c, inputs, s) && Enabled(c, s, r, act)
    ensures Fits(c, inputs, Apply(c, inputs, s, r, act), r, Apply(c, inputs, s, r, act).ranks[r])
  {
    StepGrows(c, inputs, s, r, act);
    assert Fits(c, inputs, s, r, s.ranks[r]);
    FitsStays(c, inputs, s, Apply(c, inputs, s, r, act), r, s.ranks[r]);
    hide Fits, Apply, Consistent, Outcome, Enabled;
    if act.Resolve? {
      ResolvedFits(c, inputs, s, r);
    } else if act.Pass? {
      PassedFits(c, inputs, s, Apply(c, inputs, s, r, act), r);
    } else {
      OtherwiseFits(c, inputs, s, Apply(c, inputs, s, r, act), r, act);
    }
  }

  lemma ResolvedFits(c: Config, inputs: seq<Entry>, s: State, r: nat)
    requires WellFormed(c, inputs) && Consistent(c, inputs, s) && Enabled(c, s, r, Resolve)
    requires Fits(c, inputs, s, r, s.ranks[r])
    ensures Fits(c, inputs, Apply(c, inputs, s, r, Resolve), r, Apply(c, inputs, s, r, Resolve).ranks[r])
  {
    var s' := Apply(c, inputs, s, r, Resolve);
    StepGrows(c, inputs, s, r, Resolve);
    GrowsArrived(c, s, s', Barrier(Plan));
    ReadsInputs(c, inputs, s);
    if Outcome(c, inputs).Ok? {
      var a := Outcome(c, inputs).value;
      NothingBeforePlan(c, s', a);
      BeyondFits(c, inputs, s', r, a, Plan);
    }
    hide Passed, Arrived, Outcome, Consistent, Grows, WellFormed, Beyond, Scheduled;
  }

  lemma PassedFits(c: Config, inputs: seq<Entry>, s: State, s': State, r: nat)
    requires WellFormed(c, inputs) && Enabled(c, s, r, Pass) && r < c.world
    requires s' == Apply(c, inputs, s, r, Pass) && Grows(s, s') && Fits(c, inputs, s', r, s.ranks[r])
    ensures Fits(c, inputs, s', r, s'.ranks[r])
  {
    hide Passed, Arrived, Outcome, Grows, WellFormed, Beyond, Scheduled;
    var Node(pc, agreed) := s.ranks[r];
    GrowsArrived(c, s, s', pc.what);
    if pc.what.Barrier? && !pc.what.stage.Plan? {
      BeyondFits(c, inputs, s', r, agreed.value, pc.what.stage);
    }
  }

  lemma OtherwiseFits(c: Config, inputs: seq<Entry>, s: State, s': State, r: nat, act: Action)
    requires WellFormed(c, inputs) && Enabled(c, s, r, act) && !act.Resolve? && !act.Pass? && r < c.world
    requires s' == Apply(c, inputs, s, r, act) && Fits(c, inputs, s', r, s.ranks[r])
    ensures Fits(c, inputs, s', r, s'.ranks[r])
  {
    hide Passed, Arrived, Outcome, WellFormed, Beyond, Scheduled;
  }

  lemma NothingBeforePlan(c: Config, s: State, a: Agreement)
    ensures Passed(c, s, a, Order(Plan))
  {
  }

  lemma JustifiedStays(c: Config, inputs: seq<Entry>, s: State, s': State, order: nat)
    requires WellFormed(c, inputs) && Grows(s, s') && Justified(c, inputs, s, order)
    ensures Justified(c, inputs, s', order)
  {
    GrowsPassed(c, s, s', Outcome(c, inputs).value, order);
  }

  lemma StepReports(c: Config, inputs: seq<Entry>, s: State, r: nat, act: Action)
    requires WellFormed(c, inputs) && Consistent(c, inputs, s) && Enabled(c, s, r, act)
    ensures Reported(c, Apply(c, inputs, s, r, act))
  {
    assert Fits(c, inputs, s, r, s.ranks[r]);
    hide Outcome, Arrived, Beyond, Passed, Justified;
  }

  lemma StepKeeps(c: Config, inputs: seq<Entry>, s: State, r: nat, act: Action)
    requires WellFormed(c, inputs) && Consistent(c, inputs, s) && Enabled(c, s, r, act)
    ensures Consistent(c, inputs, Apply(c, inputs, s, r, act))
  {
    hide Fits, Passed, Outcome, Arrived, Grows, Scheduled, Justified, Reported;
    var s' := Apply(c, inputs, s, r, act);
    StepReports(c, inputs, s, r, act);
    StepGrows(c, inputs, s, r, act);
    MovedFits(c, inputs, s, r, act);
    PublishedIsJustified(c, inputs, s, r);
    forall order | Justified(c, inputs, s, order) ensures Justified(c, inputs, s', order) {
      JustifiedStays(c, inputs, s, s', order);
    }
    forall q | 0 <= q < c.world ensures Fits(c, inputs, s', q, s'.ranks[q]) {
      if q != r {
        FitsStays(c, inputs, s, s', q, s.ranks[q]);
      }
    }
  }

  /** What a rank is about to publish has been earned. */
  lemma PublishedIsJustified(c: Config, inputs: seq<Entry>, s: State, r: nat)
    requires WellFormed(c, inputs) && Consistent(c, inputs, s) && r < c.world
    ensures var pc := s.ranks[r].pc;
            && (pc.Ready? && !pc.stage.Plan? ==>
                  Justified(c, inputs, s, Order(pc.stage)) && Scheduled(Outcome(c, inputs).value, pc.stage))
            && (pc.Polling? && pc.what.BeforeService? ==> Justified(c, inputs, s, 5))
  {
    assert Fits(c, inputs, s, r, s.ranks[r]);
    hide Passed, Outcome, Scheduled, Arrived;
  }

  lemma {:induction false} RunsKeep(c: Config, inputs: seq<Entry>, s: State, steps: seq<Step>, s': State)
    requires WellFormed(c, inputs) && Consistent(c, inputs, s) && Runs(c, inputs, s, steps, s')
    ensures Consistent(c, inputs, s') && Grows(s, s')
    decreases |steps|
  {
    hide Consistent, Apply;
    if steps != [] {
      StepKeeps(c, inputs, s, steps[0].0, steps[0].1);
      StepGrows(c, inputs, s, steps[0].0, steps[0].1);
      RunsKeep(c, inputs, Apply(c, inputs, s, steps[0].0, steps[0].1), steps[1..], s');
    }
  }

  // ---------- agreement and barriers, over all runs ----------

  ghost predicate Reachable(c: Config, inputs: seq<Entry>, s: State)
    requires WellFormed(c, inputs)
  {
    exists steps :: Runs(c, inputs, Initial(c), steps, s)
  }

  lemma Reached(c: Config, inputs: seq<Entry>, s: State)
    requires WellFormed(c, inputs) && Reachable(c, inputs, s)
    ensures Consistent(c, inputs, s)
  {
    InitiallyConsistent(c, inputs);
    var steps :| Runs(c, inputs, Initial(c), steps, s);
    RunsKeep(c, inputs, Initial(c), steps, s);
  }

  /** All ranks that complete negotiation hold the same mode, stream choice and warmup
    * layer: the ones that follow from what the ranks brought. */
  lemma AllHoldTheSame(c: Config, inputs: seq<Entry>, s: State, r: nat)
    requires WellFormed(c, inputs) && Reachable(c, inputs, s)
    requires r < |s.ranks| && s.ranks[r].agreed.Some?
    ensures Outcome(c, inputs) == Ok(s.ranks[r].agreed.value)
  {
    Reached(c, inputs, s);
    assert Fits(c, inputs, s, r, s.ranks[r]);
  }

  /** A published stage is a scheduled one, and every rank has published every scheduled
    * stage before it. */
  lemma BarriersAreOrdered(c: Config, inputs: seq<Entry>, s: State, stage: Stage, r: nat)
    requires WellFormed(c, inputs) && Reachable(c, inputs, s)
    requires Has(s, stage, r) && !stage.Plan?
    ensures Outcome(c, inputs).Ok? && Scheduled(Outcome(c, inputs).value, stage)
    ensures forall earlier, q ::
         Scheduled(Outcome(c, inputs).value, earlier) && Order(earlier) < Order(stage) && 0 <= q < c.world ==>
              Has(s, earlier, q)
  {
    Reached(c, inputs, s);
  }

  /** A rank that is done has seen every rank through every scheduled barrier; under full
    * graphs an Attention rank has also seen every FFN rank announce its service. */
  lemma DoneMeansAllPassed(c: Config, inputs: seq<Entry>, s: State, r: nat)
    requires WellFormed(c, inputs) && Reachable(c, inputs, s)
    requires r < |s.ranks| && s.ranks[r].pc.Done?
    ensures Outcome(c, inputs).Ok?
    ensures forall stage, q :: Scheduled(Outcome(c, inputs).value, stage) && 0 <= q < c.world ==> Has(s, stage, q)
    ensures r < c.attn && Outcome(c, inputs).value.mode == "full" ==>
         forall q :: c.attn <= q < c.world ==> q in s.service
  {
    Reached(c, inputs, s);
    assert Fits(c, inputs, s, r, s.ranks[r]);
    assert forall stage :: Order(stage) < 5;
    hide Outcome, Consistent;
  }

  /** Rejected plans let no rank past negotiation, in any run. */
  lemma RejectionStopsAll(c: Config, inputs: seq<Entry>, s: State)
    requires WellFormed(c, inputs) && Reachable(c, inputs, s)
    requires Outcome(c, inputs).Error?
    ensures s.service == {} && forall stage, q :: (stage, q) !in s.ready
    ensures forall r :: 0 <= r < |s.ranks| ==> s.ranks[r].agreed.None? && !s.ranks[r].pc.Done?
  {
    Reached(c, inputs, s);
    forall r | 0 <= r < |s.ranks| ensures s.ranks[r].agreed.None? && !s.ranks[r].pc.Done? {
      assert Fits(c, inputs, s, r, s.ranks[r]);
    }
  }

  // ---------- failures ----------

  /** The rank has not got past `what`, and while error key `e` is there it cannot: an
    * iteration under way has yet to look at that key. */
  ghost predicate Held(pc: Pc, what: Wait, e: nat) {
    || pc.Raising? || pc.Failed?
    || (pc.Polling? && pc.what == what && pc.k <= e)
    || (what.Barrier? && pc == Ready(what.stage))
    || (what == Barrier(Plan) && pc.Starting?)
  }

  lemma HeldStays(c: Config, inputs: seq<Entry>, s: State, q: nat, act: Action, r: nat, what: Wait, e: nat)
    requires WellFormed(c, inputs) && |s.ranks| == c.world && Enabled(c, s, q, act) && r < c.world
    requires e in s.errors && e < c.world && Held(s.ranks[r].pc, what, e)
    ensures var s' := Apply(c, inputs, s, q, act);
            |s'.ranks| == c.world && e in s'.errors && Held(s'.ranks[r].pc, what, e)
  {
    hide Outcome, Arrived, Beyond;
  }

  /** Once an error key exists, a rank that has not yet started its wait's current iteration
    * never passes that wait, whatever happens next. */
  lemma {:induction false} ErrorStopsEveryWait(
      c: Config, inputs: seq<Entry>, s: State, steps: seq<Step>, s': State, r: nat, what: Wait, e: nat)
    requires WellFormed(c, inputs) && |s.ranks| == c.world && r < c.world
    requires Runs(c, inputs, s, steps, s') && e in s.errors && e < c.world
    requires Held(s.ranks[r].pc, what, e)
    ensures |s'.ranks| == c.world && e in s'.errors && Held(s'.ranks[r].pc, what, e)
    decreases |steps|
  {
    if steps != [] {
      HeldStays(c, inputs, s, steps[0].0, steps[0].1, r, what, e);
      hide Apply, Held;
      ErrorStopsEveryWait(c, inputs, Apply(c, inputs, s, steps[0].0, steps[0].1), steps[1..], s', r, what, e);
    }
  }
}
