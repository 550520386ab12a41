/** Attention's side of graph capture and replay, and what the FFN makes of it.  The native
  * capture loop prepares inputs once for the warmup and once for the capture of every FULL
  * descriptor, and each preparation publishes one control payload.  The control channel is
  * FIFO: the FFN handles the payloads in the order they were sent. */
module CaptureEvents {
  import opened Arithmetic
  import opened FfnGraphRunner
  import opened GraphKeys
  import opened Wrappers

  datatype Descriptor = Descriptor(numReqs: nat, numTokens: nat, numUbatches: nat)

  /** One input preparation as the native code makes it.  With several micro-batches the
    * stage counts come from the native slices. */
  datatype Call = Call(numReqs: nat, numTokens: nat, numUbatches: nat, sliced: Stages)

  datatype Event = Event(desc: Descriptor, warmup: bool)

  /** Every data-parallel rank runs the padded token count. */
  function Uniform(dp: nat, numTokens: nat): Stages {
    map[0 := seq(dp, _ => numTokens)]
  }

  function StagesOf(dp: nat, desc: Descriptor, sliced: Stages): Stages {
    if desc.numUbatches > 1 then sliced else Uniform(dp, desc.numTokens)
  }

  function EventPayload(dp: nat, e: Event, call: Call): Payload {
    Payload(StagesOf(dp, e.desc, call.sliced), !e.warmup, e.warmup, false)
  }

  function ReplayPayload(dp: nat, desc: Descriptor): Payload {
    Payload(Uniform(dp, desc.numTokens), false, false, true)
  }

  predicate Fits(call: Call, desc: Descriptor) {
    call.numReqs == desc.numReqs && call.numTokens == desc.numTokens && call.numUbatches == desc.numUbatches
  }

  function Expected(descs: seq<Descriptor>): (events: seq<Event>)
    ensures |events| == 2 * |descs|
    ensures forall k :: 0 <= k < |events| ==> events[k] == Event(descs[k / 2], k % 2 == 0)
  {
    seq(2 * |descs|, k requires 0 <= k < 2 * |descs| => Event(descs[k / 2], k % 2 == 0))
  }

  class CaptureEventTracker {
    const expected: seq<Event>
    var index: nat

    constructor (descs: seq<Descriptor>)
      ensures expected == Expected(descs) && index == 0
    {
      var events: seq<Event> := [];
      for i := 0 to |descs|
        invariant events == Expected(descs)[..2 * i]
      {
        events := events + [Event(descs[i], true), Event(descs[i], false)];
      }
      expected, index := events, 0;
    }

    method Consume(call: Call) returns (r: Result<Event, string>)
      requires index <= |expected|
      modifies `index
      ensures index == (if old(index) < |expected| then old(index) + 1 else old(index))
      ensures r.Ok? <==> old(index) < |expected| && Fits(call, expected[old(index)].desc)
      ensures r.Ok? ==> r.value == expected[old(index)]
    {
      if index >= |expected| {
        return Error("extra capture input preparation");
      }
      var event := expected[index];
      index := index + 1;
      if call.numReqs != event.desc.numReqs || call.numTokens != event.desc.numTokens
         || call.numUbatches != event.desc.numUbatches {
        return Error("capture descriptor/order drift");
      }
      return Ok(event);
    }

    method AssertComplete() returns (ok: bool)
      ensures ok <==> index == |expected|
    {
      ok := index == |expected|;
    }
  }

  /** The preparations are one for the warmup and one for the capture of each descriptor. */
  predicate Paired(descs: seq<Descriptor>, calls: seq<Call>) {
    |calls| == 2 * |descs| && forall k :: 0 <= k < |calls| ==> Fits(calls[k], descs[k / 2])
  }

  function Published(dp: nat, descs: seq<Descriptor>, calls: seq<Call>): seq<Payload>
    requires |calls| <= 2 * |descs|
  {
    seq(|calls|, k requires 0 <= k < |calls| => EventPayload(dp, Expected(descs)[k], calls[k]))
  }

  /** Run the native capture: it succeeds exactly when the preparations pair up, and then it
    * has published one warmup and one capture payload per descriptor, in order. */
  method CaptureModel(dp: nat, descs: seq<Descriptor>, calls: seq<Call>)
    returns (r: Result<(), string>, sent: seq<Payload>)
    ensures r.Ok? <==> descs != [] && Paired(descs, calls)
    ensures |sent| <= |calls| && |sent| <= 2 * |descs| && sent == Published(dp, descs, calls[..|sent|])
    ensures r.Ok? ==> sent == Published(dp, descs, calls)
  {
    sent := [];
    if descs == [] {
      return Error("expected at least one FULL capture descriptor"), sent;
    }
    var tracker := new CaptureEventTracker(descs);
    for k := 0 to |calls|
      invariant tracker.index == k == |sent| <= 2 * |descs| && tracker.expected == Expected(descs)
      invariant sent == Published(dp, descs, calls[..k])
      invariant forall j :: 0 <= j < k ==> Fits(calls[j], descs[j / 2])
    {
      var event := tracker.Consume(calls[k]);
      if event.Error? {
        return Error(event.error), sent;
      }
      sent := sent + [EventPayload(dp, event.value, calls[k])];
    }
    assert calls[..|calls|] == calls;
    var complete := tracker.AssertComplete();
    r := if complete then Ok(()) else Error("call count drift");
  }

  // ---------- what the payloads say ----------

  /** A payload of one stage in which each of `dp` ranks runs `numTokens` tokens. */
  ghost predicate OneStage(p: Payload, dp: nat, numTokens: int) {
    && p.stages.Keys == {0} && |p.stages[0]| == dp
    && forall r :: 0 <= r < dp ==> p.stages[0][r] == numTokens
  }

  /** The `k`-th published payload is the warmup or the capture of descriptor `k / 2`; a single
    * stage carries that descriptor's token count for every data-parallel rank. */
  lemma PublishedAre(dp: nat, descs: seq<Descriptor>, calls: seq<Call>, k: nat)
    requires |calls| <= 2 * |descs| && k < |calls|
    ensures var p, desc := Published(dp, descs, calls)[k], descs[k / 2];
            && p.warmup == (k % 2 == 0) && p.capturing == (k % 2 == 1) && !p.replaying
            && if desc.numUbatches > 1 then p.stages == calls[k].sliced else OneStage(p, dp, desc.numTokens)
  {
    var p := Published(dp, descs, calls)[k];
    assert p == EventPayload(dp, Expected(descs)[k], calls[k]);
  }

  lemma ReplayIs(dp: nat, desc: Descriptor)
    ensures var p := ReplayPayload(dp, desc);
            OneStage(p, dp, desc.numTokens) && p.replaying && !p.warmup && !p.capturing
  {
    assert ReplayPayload(dp, desc).stages.Keys == {0};
  }

  /** Single-stage payloads share a graph exactly when their token counts are equal. */
  lemma SameKeyIff(p: Payload, q: Payload, dp: nat, m: int, n: int)
    requires dp >= 1 && OneStage(p, dp, m) && OneStage(q, dp, n)
    ensures GraphKey(p.stages) == GraphKey(q.stages) <==> m == n
  {
    EqualKeys(p.stages, q.stages);
    hide GraphKey;
    if m == n {
      assert p.stages[0] == q.stages[0];
      assert p.stages == q.stages;
    } else {
      assert p.stages[0][0] != q.stages[0][0];
    }
  }

  /** Every buffer that a single-stage replay writes into has the rows of its descriptor, one
    * at least. */
  lemma ReplayBuffersFit(c: Config, ss: seq<State>, ps: seq<Payload>, us: seq<seq<Buffer>>, dp: nat, tp: nat,
                         desc: Descriptor, j: nat, k: nat, i: nat)
    requires Sound(c) && Runs(c, ss, ps, us) && Kept(c, ss[0]) && j < k < |ps|
    requires Captures(c, ps[j]) && ps[j].stages == ps[k].stages && Mode(c, ss[k], ps[k]).Replay?
    requires ps[k] == ReplayPayload(dp, desc) && tp >= 1 && c.A == dp * tp
    requires i < |us[k]|
    ensures us[k][i].rows == Max(1, desc.numTokens)
  {
    var stages := ps[k].stages;
    ReplayIs(dp, desc);
    ReceivesWanted(c, stages);
    hide Runs, Kept, Captures, Mode, Receives, Sound, GraphKey;
    ReplayWritesWhatWasCaptured(c, ss, ps, us, j, k);
    var slot := Receives(c, stages)[i];
    assert Wanted(c, stages, slot);
    SlotRows(c, stages[0], tp, 0, slot.src);
  }

  // ---------- both sides ----------

  /** After a completed capture, every later replay of a captured single-stage descriptor is a
    * replay on the FFN as well, into the buffers recorded by its capture, each with as many
    * rows as a data-parallel rank runs tokens.  `before` counts the payloads already handled
    * when the capture began. */
  lemma ReplayNeverFallsBack(c: Config, ss: seq<State>, ps: seq<Payload>, us: seq<seq<Buffer>>,
                             dp: nat, descs: seq<Descriptor>, calls: seq<Call>, before: nat, d: nat, k: nat)
    requires Sound(c) && c.graphs && Runs(c, ss, ps, us) && Kept(c, ss[0])
    requires Paired(descs, calls) && before + |calls| <= k < |ps|
    requires ps[before..before + |calls|] == Published(dp, descs, calls)
    requires d < |descs| && descs[d].numUbatches <= 1 && ps[k] == ReplayPayload(dp, descs[d])
    ensures Mode(c, ss[k], ps[k]).Replay? && us[k] == us[before + 2 * d + 1]
    ensures dp >= 1 && c.A % dp == 0 ==>
              forall i :: 0 <= i < |us[k]| ==> us[k][i].rows == Max(1, descs[d].numTokens)
  {
    var j := before + 2 * d + 1;
    assert ps[j] == Published(dp, descs, calls)[2 * d + 1] by {
      assert ps[before..before + |calls|][2 * d + 1] == ps[j];
    }
    assert Captures(c, ps[j]) && ps[j].stages == ps[k].stages;
    assert Handles(c, ss[j], ps[j], ss[j + 1], us[j]);
    GraphsStayBound(c, ss, ps, us, j + 1, k, ps[j].stages);
    ReplayWritesWhatWasCaptured(c, ss, ps, us, j, k);
    if dp >= 1 && c.A % dp == 0 {
      WholeShare(c, dp);
      forall i | 0 <= i < |us[k]| ensures us[k][i].rows == Max(1, descs[d].numTokens) {
        ReplayBuffersFit(c, ss, ps, us, dp, c.A / dp, descs[d], j, k, i);
      }
    }
  }

  lemma WholeShare(c: Config, dp: nat)
    requires Sound(c) && dp >= 1 && c.A % dp == 0
    ensures c.A / dp >= 1 && c.A == dp * (c.A / dp)
  {
    assert c.A == dp * (c.A / dp) + c.A % dp;
  }
}
