/** The outcome of the Async CAM startup, read off what the ranks bring to it. */
module CamInputs {
  import opened CamStartup
  import opened FfnMode
  import opened Wrappers

  /** Some FFN plan speaks against a common mode, or the mode moves tensors between ranks whose
    * transports differ.  The plan of the first FFN rank leads. */
  ghost predicate Refused(c: Config, inputs: seq<Entry>)
    requires WellFormed(c, inputs)
  {
    || c.attn == c.world
    || var lead := inputs[c.attn].ffn.value;
       || (exists q :: c.attn <= q < c.world && Objects(inputs[q].ffn.value, lead))
       || ((lead.requested == "full" || lead.streamSignature != "")
           && exists q, r :: 0 <= q < r < c.world && inputs[q].transport != inputs[r].transport)
  }

  /** The plan asks for something else than `lead`, or reports that it cannot do it. */
  predicate Objects(p: FFNGraphPlan, lead: FFNGraphPlan) {
    || p.requested != lead.requested || p.streamSignature != lead.streamSignature || p.streamError != ""
    || (lead.requested != "eager" && lead.requested != "full")
    || ((lead.requested == "full" || lead.streamSignature != "")
        && (p.graphError != "" || p.signature == "" || p.signature != lead.signature
            || p.layerIds == [] || p.layerIds != lead.layerIds))
  }

  lemma LeadIs(c: Config, inputs: seq<Entry>)
    requires WellFormed(c, inputs) && c.attn < c.world
    ensures Plans(c, inputs) != [] && Plans(c, inputs)[0] == inputs[c.attn].ffn.value
    ensures AllAgree(Plans(c, inputs))
       <==> forall q :: c.attn <= q < c.world ==> !Objects(inputs[q].ffn.value, inputs[c.attn].ffn.value)
  {
    var plans, lead := Plans(c, inputs), inputs[c.attn].ffn.value;
    forall q | c.attn <= q < c.world
      ensures inputs[q].ffn.value in plans
      ensures GoesAlong(inputs[q].ffn.value, lead) <==> !Objects(inputs[q].ffn.value, lead)
    {
      assert plans[q - c.attn] == inputs[q].ffn.value;
    }
    forall p | p in plans ensures exists q :: c.attn <= q < c.world && inputs[q].ffn.value == p {
      var i :| 0 <= i < |plans| && plans[i] == p;
      assert inputs[c.attn + i].ffn.value == p;
    }
  }

  lemma OneTransport(entries: seq<Entry>)
    requires entries != []
    ensures |Transports(entries)| != 1 <==>
              exists q, r :: 0 <= q < r < |entries| && entries[q].transport != entries[r].transport
  {
    assert entries[0] in entries;
    OneValue(Transports(entries), entries[0].transport);
    if exists q, r :: 0 <= q < r < |entries| && entries[q].transport != entries[r].transport {
      var q, r :| 0 <= q < r < |entries| && entries[q].transport != entries[r].transport;
      assert entries[q] in entries && entries[r] in entries;
      assert entries[q].transport in Transports(entries) && entries[r].transport in Transports(entries);
    } else {
      forall e | e in entries ensures e.transport == entries[0].transport {
        var i :| 0 <= i < |entries| && entries[i] == e;
        assert i > 0 ==> entries[0].transport == entries[i].transport;
      }
    }
  }

  lemma OutcomeIs(c: Config, inputs: seq<Entry>)
    requires WellFormed(c, inputs)
    ensures Outcome(c, inputs).Ok? <==> !Refused(c, inputs)
    ensures !Refused(c, inputs) ==>
              var lead := inputs[c.attn].ffn.value;
              Outcome(c, inputs) == Ok(Agreement(lead.requested, lead.streamSignature != "",
                                                 if lead.requested == "full" then Some(lead.layerIds[0]) else None))
  {
    var plans := Plans(c, inputs);
    AcceptedIff(plans);
    OneTransport(inputs);
    if c.attn < c.world {
      LeadIs(c, inputs);
    }
    hide ResolveFfnMode, Plans, Transports, GoesAlong;
  }

  /** The rank has failed, or has not left the plan barrier with an agreement. */
  predicate NotPast(pc: Pc) {
    || pc.Starting? || pc == Ready(Plan) || (pc.Polling? && pc.what == Barrier(Plan)) || pc.Resolving?
    || pc.Raising? || pc.Failed?
  }

  /** If the plans or the transports do not go together, no rank ever gets past the first
    * barrier: none agrees, publishes a later stage, announces its service or is done. */
  lemma RefusalStopsAll(c: Config, inputs: seq<Entry>, s: State)
    requires WellFormed(c, inputs) && Reachable(c, inputs, s) && Refused(c, inputs)
    ensures s.service == {} && forall stage, q :: (stage, q) !in s.ready
    ensures forall r :: 0 <= r < |s.ranks| ==> s.ranks[r].agreed.None? && NotPast(s.ranks[r].pc)
  {
    OutcomeIs(c, inputs);
    Reached(c, inputs, s);
    hide Outcome, Refused;
    RejectionStopsAll(c, inputs, s);
    forall r | 0 <= r < |s.ranks| ensures NotPast(s.ranks[r].pc) {
      assert Fits(c, inputs, s, r, s.ranks[r]);
    }
  }

  /** Otherwise every rank that agrees takes the requested mode, streams if the plans name a
    * stream signature, and takes the first layer for its warmup exactly in full mode. */
  lemma AgreementIs(c: Config, inputs: seq<Entry>, s: State, r: nat)
    requires WellFormed(c, inputs) && Reachable(c, inputs, s) && r < |s.ranks| && s.ranks[r].agreed.Some?
    ensures !Refused(c, inputs)
    ensures var lead, a := inputs[c.attn].ffn.value, s.ranks[r].agreed.value;
            && a.mode == lead.requested && (a.twoStream <==> lead.streamSignature != "")
            && (lead.requested == "full" ==> lead.layerIds != [] && a.warmupLayer == Some(lead.layerIds[0]))
            && (lead.requested != "full" ==> a.warmupLayer == None)
  {
    OutcomeIs(c, inputs);
    hide Outcome;
    AllHoldTheSame(c, inputs, s, r);
  }

  lemma DoneServes(c: Config, inputs: seq<Entry>, s: State, r: nat)
    requires WellFormed(c, inputs) && Consistent(c, inputs, s) && r < c.world && s.ranks[r].pc.Done?
    ensures Outcome(c, inputs).Ok?
    ensures c.attn <= r && Serves(Outcome(c, inputs).value) ==> r in s.service
    ensures forall q :: q in s.plans ==> q < c.world && s.plans[q] == inputs[q]
  {
    assert Fits(c, inputs, s, r, s.ranks[r]);
    hide Outcome, Passed, Justified;
  }

  lemma SchedulesAre(a: Agreement)
    ensures Scheduled(a, Plan) && (a.twoStream ==> Scheduled(a, StreamsValidated))
    ensures a.mode == "full" ==> Scheduled(a, Validated) && Scheduled(a, Warmup) && Scheduled(a, Captured)
  {
  }

  /** What a rank that is done has seen, stage by stage. */
  lemma DoneHasSeen(c: Config, inputs: seq<Entry>, s: State, r: nat)
    requires WellFormed(c, inputs) && Reachable(c, inputs, s) && r < |s.ranks| && s.ranks[r].pc.Done?
    ensures |s.ranks| == c.world && !Refused(c, inputs)
    ensures var lead := inputs[c.attn].ffn.value;
            forall q: nat :: q < c.world ==>
              && q in s.plans && s.plans[q] == inputs[q]
              && (lead.streamSignature != "" ==> (StreamsValidated, q) in s.ready)
              && (lead.requested == "full" ==> {(Validated, q), (Warmup, q), (Captured, q)} <= s.ready)
    ensures var lead := inputs[c.attn].ffn.value;
            && (c.attn <= r && (lead.requested == "full" || lead.streamSignature != "") ==> r in s.service)
            && (r < c.attn && lead.requested == "full" ==> forall q: nat :: c.attn <= q < c.world ==> q in s.service)
  {
    hide Outcome, Refused, Consistent, Reachable, Scheduled;
    OutcomeIs(c, inputs);
    Reached(c, inputs, s);
    HasWorld(c, inputs, s);
    DoneMeansAllPassed(c, inputs, s, r);
    DoneServes(c, inputs, s, r);
    var a := Outcome(c, inputs).value;
    SchedulesAre(a);
    forall q: nat | q < c.world
      ensures q in s.plans && s.plans[q] == inputs[q]
      ensures a.twoStream ==> (StreamsValidated, q) in s.ready
      ensures a.mode == "full" ==> {(Validated, q), (Warmup, q), (Captured, q)} <= s.ready
    {
      assert Has(s, Plan, q);
      assert a.twoStream ==> Has(s, StreamsValidated, q);
      assert a.mode == "full" ==> Has(s, Validated, q) && Has(s, Warmup, q) && Has(s, Captured, q);
    }
  }

  lemma HasWorld(c: Config, inputs: seq<Entry>, s: State)
    requires WellFormed(c, inputs) && Consistent(c, inputs, s)
    ensures |s.ranks| == c.world
  {
  }

  /** Nobody waits at a barrier that the mode does not need: the stream barrier stands for a
    * stream signature, the other three for full mode. */
  lemma OnlyNeededBarriers(c: Config, inputs: seq<Entry>, s: State, stage: Stage, q: nat)
    requires WellFormed(c, inputs) && Reachable(c, inputs, s) && (stage, q) in s.ready && !stage.Plan?
    ensures !Refused(c, inputs)
    ensures var lead := inputs[c.attn].ffn.value;
            if stage.StreamsValidated? then lead.streamSignature != "" else lead.requested == "full"
  {
    OutcomeIs(c, inputs);
    hide Outcome, Refused;
    assert Has(s, stage, q);
    BarriersAreOrdered(c, inputs, s, stage, q);
  }

  /** Plans come before everything, then the stream check where there is one, then the graph
    * check, the warmup and the capture: no rank publishes a stage before all have published the
    * one before it. */
  lemma StagesComeInOrder(c: Config, inputs: seq<Entry>, s: State, stage: Stage, r: nat, q: nat)
    requires WellFormed(c, inputs) && Reachable(c, inputs, s) && (stage, r) in s.ready && !stage.Plan? && q < c.world
    ensures q in s.plans
    ensures !Refused(c, inputs)
    ensures stage.Validated? && inputs[c.attn].ffn.value.streamSignature != "" ==> (StreamsValidated, q) in s.ready
    ensures stage.Warmup? ==> (Validated, q) in s.ready
    ensures stage.Captured? ==> (Warmup, q) in s.ready
  {
    assert Has(s, stage, r);
    BarriersAreOrdered(c, inputs, s, stage, r);
    OnlyNeededBarriers(c, inputs, s, stage, r);
    OutcomeIs(c, inputs);
    var a := Outcome(c, inputs).value;
    hide Outcome, Refused, Reachable, WellFormed, Scheduled;
    SchedulesAre(a);
    assert Has(s, Plan, q);
    assert stage.Validated? && a.twoStream ==> Has(s, StreamsValidated, q);
    assert stage.Warmup? ==> Has(s, Validated, q);
    assert stage.Captured? ==> Has(s, Warmup, q);
  }
}
