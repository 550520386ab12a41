/** Attention rows to the FFN and back over per-peer FIFO channels.
  *
  * A tensor is a sequence of rows.  One FFN rank receives every peer's tensors, joins them,
  * computes row by row, splits the result by the recorded lengths and answers each peer.
  */
module P2PDataPath {
  import opened Sequences
  import opened Wrappers

  /** The tensors that one Attention rank sends for a stage. */
  datatype Sent<T> = Sent(hidden: seq<T>, logits: Option<seq<T>>, ids: Option<seq<T>>)

  datatype Kind = HiddenStates | RouterLogits | InputIds

  datatype Wire<T> = Wire(kind: Kind, rows: seq<T>)

  /** A posted receive: which tensor is expected from which peer, and how many rows. */
  datatype Slot = Slot(kind: Kind, peer: nat, size: nat)

  predicate Aligned<T>(s: Sent<T>) {
    && (s.logits.Some? ==> |s.logits.value| == |s.hidden|)
    && (s.ids.Some? ==> |s.ids.value| == |s.hidden|)
  }

  /** The wire order: hidden states, then router logits, then input ids. */
  function Wires<T>(s: Sent<T>): seq<Wire<T>> {
    [Wire(HiddenStates, s.hidden)]
    + (if s.logits.Some? then [Wire(RouterLogits, s.logits.value)] else [])
    + (if s.ids.Some? then [Wire(InputIds, s.ids.value)] else [])
  }

  /** `flatIds` and `int32Ids` say whether the input ids have one dimension and that type. */
  method SendAttnOutput<T>(channel: seq<Wire<T>>, s: Sent<T>, declaredTokens: nat, flatIds: bool, int32Ids: bool)
    returns (r: Result<seq<Wire<T>>, string>)
    ensures r.Ok? <==> |s.hidden| == declaredTokens && Aligned(s) && (s.ids.Some? ==> flatIds && int32Ids)
    ensures r.Ok? ==> r.value == channel + Wires(s)
  {
    if |s.hidden| != declaredTokens {
      return Error("hidden_states shape does not match AFD metadata token count");
    }
    if s.logits.Some? && |s.logits.value| != |s.hidden| {
      return Error("router_logits and hidden_states must have equal token counts");
    }
    if s.ids.Some? && (!flatIds || |s.ids.value| != |s.hidden|) {
      return Error("input_ids must be one-dimensional and token-aligned with hidden_states");
    }
    if s.ids.Some? && !int32Ids {
      return Error("input_ids must use int32");
    }
    var sent := channel + [Wire(HiddenStates, s.hidden)];
    if s.logits.Some? {
      sent := sent + [Wire(RouterLogits, s.logits.value)];
    }
    if s.ids.Some? {
      sent := sent + [Wire(InputIds, s.ids.value)];
    }
    return Ok(sent);
  }

  // ---------- receiving ----------

  /** The receives posted for one peer. */
  function PeerSlots(peer: nat, size: nat, logits: bool, ids: bool): seq<Slot> {
    [Slot(HiddenStates, peer, size)]
    + (if logits then [Slot(RouterLogits, peer, size)] else [])
    + (if ids then [Slot(InputIds, peer, size)] else [])
  }

  function Slots(sizes: seq<nat>, logits: bool, ids: bool): seq<Slot> {
    if sizes == [] then []
    else Slots(sizes[..|sizes| - 1], logits, ids) + PeerSlots(|sizes| - 1, sizes[|sizes| - 1], logits, ids)
  }

  /** The unread messages of each peer after the posted receives, and what those received.
    * Receives from one peer match its messages in order; a missing message blocks. */
  datatype Transfer<T> = Blocked | Done(delivered: seq<Wire<T>>, unread: seq<seq<Wire<T>>>)

  function Deliver<T>(slots: seq<Slot>, channels: seq<seq<Wire<T>>>): (t: Transfer<T>)
    ensures t.Done? ==> |t.delivered| == |slots| && |t.unread| == |channels|
  {
    if slots == [] then Done([], channels)
    else
      var n := |slots| - 1;
      var t := Deliver(slots[..n], channels);
      var peer := slots[n].peer;
      if t.Blocked? || peer >= |t.unread| || t.unread[peer] == [] then Blocked
      else Done(t.delivered + [t.unread[peer][0]], t.unread[peer := t.unread[peer][1..]])
  }

  /** Every receive got a tensor of its own kind and size. */
  ghost predicate InPlace<T>(slots: seq<Slot>, delivered: seq<Wire<T>>) {
    |delivered| == |slots| &&
    forall i :: 0 <= i < |slots| ==> delivered[i].kind == slots[i].kind && |delivered[i].rows| == slots[i].size
  }

  /** Both sides agree on the optional tensors and on the row counts. */
  ghost predicate Matches<T>(s: Sent<T>, size: nat, logits: bool, ids: bool) {
    Aligned(s) && |s.hidden| == size && s.logits.Some? == logits && s.ids.Some? == ids
  }

  ghost predicate AllMatch<T>(sents: seq<Sent<T>>, sizes: seq<nat>, logits: bool, ids: bool) {
    |sents| == |sizes| && forall k :: 0 <= k < |sents| ==> Matches(sents[k], sizes[k], logits, ids)
  }

  function AllWires<T>(sents: seq<Sent<T>>): seq<Wire<T>> {
    if sents == [] then [] else AllWires(sents[..|sents| - 1]) + Wires(sents[|sents| - 1])
  }

  lemma DeliverOne<T>(slots: seq<Slot>, slot: Slot, channels: seq<seq<Wire<T>>>, w: Wire<T>, rest: seq<Wire<T>>)
    requires Deliver(slots, channels).Done? && slot.peer < |channels|
    requires Deliver(slots, channels).unread[slot.peer] == [w] + rest
    ensures var t := Deliver(slots, channels);
            Deliver(slots + [slot], channels) == Done(t.delivered + [w], t.unread[slot.peer := rest])
  {
    assert (slots + [slot])[..|slots|] == slots;
  }

  /** Receives from one peer take its messages in order. */
  lemma {:induction false} DeliverInOrder<T>(slots: seq<Slot>, more: seq<Slot>, channels: seq<seq<Wire<T>>>, peer: nat,
                                             ws: seq<Wire<T>>, rest: seq<Wire<T>>)
    requires Deliver(slots, channels).Done? && peer < |channels|
    requires |more| == |ws| && forall i :: 0 <= i < |more| ==> more[i].peer == peer
    requires Deliver(slots, channels).unread[peer] == ws + rest
    ensures var t := Deliver(slots, channels);
            Deliver(slots + more, channels) == Done(t.delivered + ws, t.unread[peer := rest])
    decreases |more|
  {
    hide Deliver;
    var t := Deliver(slots, channels);
    if more == [] {
      assert slots + more == slots && ws + rest == rest && t.delivered + ws == t.delivered;
      assert t.unread[peer := rest] == t.unread;
    } else {
      var n := |more| - 1;
      assert ws + rest == ws[..n] + ([ws[n]] + rest);
      DeliverInOrder(slots, more[..n], channels, peer, ws[..n], [ws[n]] + rest);
      DeliverOne(slots + more[..n], more[n], channels, ws[n], rest);
      assert slots + more == slots + more[..n] + [more[n]];
      assert t.delivered + ws == t.delivered + ws[..n] + [ws[n]];
      assert t.unread[peer := [ws[n]] + rest][peer := rest] == t.unread[peer := rest];
    }
  }

  lemma PeerInPlace<T>(peer: nat, size: nat, logits: bool, ids: bool, s: Sent<T>)
    requires Matches(s, size, logits, ids)
    ensures InPlace(PeerSlots(peer, size, logits, ids), Wires(s))
    ensures |PeerSlots(peer, size, logits, ids)| == |Wires(s)|
    ensures forall i :: 0 <= i < |PeerSlots(peer, size, logits, ids)| ==>
         PeerSlots(peer, size, logits, ids)[i].peer == peer
  {
  }

  lemma InPlaceConcat<T>(a: seq<Slot>, b: seq<Slot>, u: seq<Wire<T>>, v: seq<Wire<T>>)
    requires InPlace(a, u) && InPlace(b, v)
    ensures InPlace(a + b, u + v)
  {
  }

  /** With matching optional tensors, FIFO channels put every tensor into the buffer of its
    * kind, and nothing but later messages stays unread. */
  lemma {:induction false} DeliveryInPlace<T>(sents: seq<Sent<T>>, sizes: seq<nat>, logits: bool, ids: bool,
                                              channels: seq<seq<Wire<T>>>, rests: seq<seq<Wire<T>>>)
    requires AllMatch(sents, sizes, logits, ids) && |sents| <= |channels| == |rests|
    requires forall k :: 0 <= k < |channels| ==>
               channels[k] == if k < |sents| then Wires(sents[k]) + rests[k] else rests[k]
    ensures Deliver(Slots(sizes, logits, ids), channels) == Done(AllWires(sents), rests)
    ensures InPlace(Slots(sizes, logits, ids), AllWires(sents))
    decreases |sents|
  {
    hide Deliver, PeerSlots, Wires, InPlace, Matches, Slots, AllWires;
    if sents == [] {
      assert channels == rests;
      NothingPosted(channels, sizes, sents, logits, ids);
    } else {
      var n := |sents| - 1;
      var before := rests[n := channels[n]];
      SplitLast(sents, sizes, logits, ids);
      forall k | 0 <= k < |channels|
        ensures channels[k] == if k < n then Wires(sents[..n][k]) + before[k] else before[k] {
      }
      DeliveryInPlace(sents[..n], sizes[..n], logits, ids, channels, before);
      PeerInPlace(n, sizes[n], logits, ids, sents[n]);
      assert before[n] == Wires(sents[n]) + rests[n];
      DeliverInOrder(Slots(sizes[..n], logits, ids), PeerSlots(n, sizes[n], logits, ids), channels, n, Wires(sents[n]),
                     rests[n]);
      assert before[n := rests[n]] == rests;
      InPlaceConcat(Slots(sizes[..n], logits, ids), PeerSlots(n, sizes[n], logits, ids), AllWires(sents[..n]),
                    Wires(sents[n]));
    }
  }

  lemma SplitLast<T>(sents: seq<Sent<T>>, sizes: seq<nat>, logits: bool, ids: bool)
    requires AllMatch(sents, sizes, logits, ids) && sents != []
    ensures var n := |sents| - 1;
            && AllMatch(sents[..n], sizes[..n], logits, ids) && Matches(sents[n], sizes[n], logits, ids)
            && Slots(sizes, logits, ids) == Slots(sizes[..n], logits, ids) + PeerSlots(n, sizes[n], logits, ids)
            && AllWires(sents) == AllWires(sents[..n]) + Wires(sents[n])
  {
    hide Matches, PeerSlots, Wires;
  }

  lemma NothingPosted<T>(channels: seq<seq<Wire<T>>>, sizes: seq<nat>, sents: seq<Sent<T>>, logits: bool, ids: bool)
    requires sizes == [] && sents == []
    ensures Slots(sizes, logits, ids) == [] && AllWires(sents) == []
    ensures Deliver(Slots(sizes, logits, ids), channels) == Done([], channels)
    ensures InPlace(Slots(sizes, logits, ids), AllWires(sents))
  {
  }

  /** Over a single channel the receives take its messages in order, or block. */
  lemma {:induction false} OneChannel<T>(slots: seq<Slot>, channel: seq<Wire<T>>)
    requires forall i :: 0 <= i < |slots| ==> slots[i].peer == 0
    ensures Deliver(slots, [channel])
         == if |slots| <= |channel| then Done(channel[..|slots|], [channel[|slots|..]]) else Blocked
    decreases |slots|
  {
    if slots != [] {
      OneChannel(slots[..|slots| - 1], channel);
    }
  }

  /** What two consecutive stages of one peer post and send. */
  function TwoStages(first: nat, second: nat, logits: bool, ids: bool): seq<Slot> {
    PeerSlots(0, first, logits, ids) + PeerSlots(0, second, logits, ids)
  }

  /** The kinds of tensors of one stage, in wire order. */
  function Kinds(logits: bool, ids: bool): seq<Kind> {
    [HiddenStates] + (if logits then [RouterLogits] else []) + (if ids then [InputIds] else [])
  }

  function SlotKinds(slots: seq<Slot>): (kinds: seq<Kind>)
    ensures |kinds| == |slots|
  {
    seq(|slots|, i requires 0 <= i < |slots| => slots[i].kind)
  }

  function WireKinds<T>(ws: seq<Wire<T>>): (kinds: seq<Kind>)
    ensures |kinds| == |ws|
  {
    seq(|ws|, i requires 0 <= i < |ws| => ws[i].kind)
  }

  lemma StageKinds<T>(s: Sent<T>, size: nat, logits: bool, ids: bool)
    ensures SlotKinds(PeerSlots(0, size, logits, ids)) == Kinds(logits, ids)
    ensures WireKinds(Wires(s)) == Kinds(s.logits.Some?, s.ids.Some?)
  {
  }

  /** Two rounds of different kinds differ at some tensor that the shorter one still has. */
  lemma KindsDiffer(l: bool, i: bool, l': bool, i': bool)
    requires l != l' || i != i'
    ensures var a, b := Kinds(l, i) + Kinds(l, i), Kinds(l', i') + Kinds(l', i');
            |a| <= |b| ==> exists k :: 0 <= k < |a| && a[k] != b[k]
  {
    var a, b := Kinds(l, i) + Kinds(l, i), Kinds(l', i') + Kinds(l', i');
    if |a| <= |b| {
      var k := if l != l' || !l then 1 else 2;
      assert a[k] != b[k];
    }
  }

  lemma AgreedIsInPlace<T>(s: Sent<T>, next: Sent<T>)
    requires Aligned(s) && Aligned(next) && s.logits.Some? == next.logits.Some? && s.ids.Some? == next.ids.Some?
    ensures var slots := TwoStages(|s.hidden|, |next.hidden|, s.logits.Some?, s.ids.Some?);
            |slots| == |Wires(s) + Wires(next)| && InPlace(slots, Wires(s) + Wires(next))
  {
    var l, i := s.logits.Some?, s.ids.Some?;
    PeerInPlace(0, |s.hidden|, l, i, s);
    PeerInPlace(0, |next.hidden|, l, i, next);
    hide PeerSlots, Wires, InPlace;
    InPlaceConcat(PeerSlots(0, |s.hidden|, l, i), PeerSlots(0, |next.hidden|, l, i), Wires(s), Wires(next));
  }

  lemma ConcatKinds<T>(a: seq<Slot>, b: seq<Slot>, u: seq<Wire<T>>, v: seq<Wire<T>>)
    ensures SlotKinds(a + b) == SlotKinds(a) + SlotKinds(b) && WireKinds(u + v) == WireKinds(u) + WireKinds(v)
  {
  }

  /** What is in place has the kinds that were posted. */
  lemma InPlaceKind<T>(slots: seq<Slot>, channel: seq<Wire<T>>, k: nat)
    requires k < |slots| <= |channel| && InPlace(slots, channel[..|slots|])
    ensures SlotKinds(slots)[k] == WireKinds(channel)[k]
  {
    assert channel[..|slots|][k] == channel[k];
  }

  lemma DisagreedIsNot<T>(s: Sent<T>, next: Sent<T>, logits: bool, ids: bool)
    requires s.logits.Some? == next.logits.Some? && s.ids.Some? == next.ids.Some?
    requires logits != s.logits.Some? || ids != s.ids.Some?
    ensures var slots, channel := TwoStages(|s.hidden|, |next.hidden|, logits, ids), Wires(s) + Wires(next);
            |slots| <= |channel| ==> !InPlace(slots, channel[..|slots|])
  {
    hide PeerSlots, Wires, Kinds, SlotKinds, WireKinds, InPlace;
    var first, second := PeerSlots(0, |s.hidden|, logits, ids), PeerSlots(0, |next.hidden|, logits, ids);
    StageKinds(s, |s.hidden|, logits, ids);
    StageKinds(next, |next.hidden|, logits, ids);
    ConcatKinds(first, second, Wires(s), Wires(next));
    KindsDiffer(logits, ids, s.logits.Some?, s.ids.Some?);
    var slots, channel := first + second, Wires(s) + Wires(next);
    if |slots| <= |channel| && InPlace(slots, channel[..|slots|]) {
      var k: nat :| k < |slots| && SlotKinds(slots)[k] != WireKinds(channel)[k];
      InPlaceKind(slots, channel, k);
      assert false;
    }
  }

  lemma TwoStagesPeer(first: nat, second: nat, logits: bool, ids: bool)
    ensures forall i :: 0 <= i < |TwoStages(first, second, logits, ids)| ==>
         TwoStages(first, second, logits, ids)[i].peer == 0
  {
  }

  /** A sender with logits and a receiver without: the next stage's hidden states are wrong. */
  lemma MismatchMisplaces<T>(s: Sent<T>, next: Sent<T>)
    requires s.logits.Some?
    ensures var slots := TwoStages(|s.hidden|, |next.hidden|, false, false);
            var t := Deliver(slots, [Wires(s) + Wires(next)]);
            t.Done? && !InPlace(slots, t.delivered) && t.delivered[1] == Wire(RouterLogits, s.logits.value)
  {
    TwoStagesPeer(|s.hidden|, |next.hidden|, false, false);
    OneChannel(TwoStages(|s.hidden|, |next.hidden|, false, false), Wires(s) + Wires(next));
    hide Deliver;
  }

  /** Two stages' tensors all land in place if and only if both sides agree on both optional
    * tensors.  Otherwise some receive gets a tensor of another kind, or blocks. */
  lemma InPlaceIff<T>(s: Sent<T>, next: Sent<T>, logits: bool, ids: bool)
    requires Aligned(s) && Aligned(next)
    requires s.logits.Some? == next.logits.Some? && s.ids.Some? == next.ids.Some?
    ensures var slots := TwoStages(|s.hidden|, |next.hidden|, logits, ids);
            var t := Deliver(slots, [Wires(s) + Wires(next)]);
            t.Done? && InPlace(slots, t.delivered) <==> logits == s.logits.Some? && ids == s.ids.Some?
  {
    hide Deliver, TwoStages, Wires, InPlace;
    var slots, channel := TwoStages(|s.hidden|, |next.hidden|, logits, ids), Wires(s) + Wires(next);
    TwoStagesPeer(|s.hidden|, |next.hidden|, logits, ids);
    OneChannel(slots, channel);
    if logits == s.logits.Some? && ids == s.ids.Some? {
      AgreedIsInPlace(s, next);
      assert channel[..|slots|] == channel;
    } else {
      DisagreedIsNot(s, next, logits, ids);
    }
  }

  // ---------- the FFN's receive ----------

  /** The rows of one kind, in peer order. */
  function OfKind<T>(ws: seq<Wire<T>>, kind: Kind): seq<seq<T>> {
    if ws == [] then []
    else OfKind(ws[..|ws| - 1], kind) + if ws[|ws| - 1].kind == kind then [ws[|ws| - 1].rows] else []
  }

  function Hidden<T>(sents: seq<Sent<T>>): seq<seq<T>> {
    if sents == [] then [] else Hidden(sents[..|sents| - 1]) + [sents[|sents| - 1].hidden]
  }

  function Logits<T>(sents: seq<Sent<T>>): seq<seq<T>> {
    if sents == [] then []
    else
      var last := sents[|sents| - 1].logits;
      Logits(sents[..|sents| - 1]) + if last.Some? then [last.value] else []
  }

  function Ids<T>(sents: seq<Sent<T>>): seq<seq<T>> {
    if sents == [] then []
    else Ids(sents[..|sents| - 1]) + if sents[|sents| - 1].ids.Some? then [sents[|sents| - 1].ids.value] else []
  }

  lemma {:induction false} OfKindConcat<T>(a: seq<Wire<T>>, b: seq<Wire<T>>, kind: Kind)
    ensures OfKind(a + b, kind) == OfKind(a, kind) + OfKind(b, kind)
    decreases |b|
  {
    if b == [] {
      assert a + b == a;
    } else {
      var n := |b| - 1;
      assert (a + b)[..|a + b| - 1] == a + b[..n];
      OfKindConcat(a, b[..n], kind);
    }
  }

  lemma OfKindWires<T>(s: Sent<T>)
    ensures OfKind(Wires(s), HiddenStates) == [s.hidden]
    ensures OfKind(Wires(s), RouterLogits) == if s.logits.Some? then [s.logits.value] else []
    ensures OfKind(Wires(s), InputIds) == if s.ids.Some? then [s.ids.value] else []
  {
    var h := [Wire(HiddenStates, s.hidden)];
    var l := if s.logits.Some? then [Wire(RouterLogits, s.logits.value)] else [];
    var i := if s.ids.Some? then [Wire(InputIds, s.ids.value)] else [];
    forall kind ensures OfKind(Wires(s), kind) == OfKind(h, kind) + OfKind(l, kind) + OfKind(i, kind) {
      OfKindConcat(h + l, i, kind);
      OfKindConcat(h, l, kind);
    }
  }

  lemma {:induction false} OfKindAll<T>(sents: seq<Sent<T>>)
    ensures OfKind(AllWires(sents), HiddenStates) == Hidden(sents)
    ensures OfKind(AllWires(sents), RouterLogits) == Logits(sents)
    ensures OfKind(AllWires(sents), InputIds) == Ids(sents)
    decreases |sents|
  {
    if sents != [] {
      var n := |sents| - 1;
      OfKindAll(sents[..n]);
      OfKindWires(sents[n]);
      hide OfKind, Wires;
      OfKindConcat(AllWires(sents[..n]), Wires(sents[n]), HiddenStates);
      OfKindConcat(AllWires(sents[..n]), Wires(sents[n]), RouterLogits);
      OfKindConcat(AllWires(sents[..n]), Wires(sents[n]), InputIds);
    }
  }

  /** What one FFN receive yields: the joined tensors and each peer's length. */
  datatype Received<T> = Received(hidden: seq<T>, logits: Option<seq<T>>, ids: Option<seq<T>>, seqLens: seq<nat>)

  method PostReceives(sizes: seq<nat>, logits: bool, ids: bool) returns (slots: seq<Slot>)
    ensures slots == Slots(sizes, logits, ids)
  {
    slots := [];
    for src := 0 to |sizes|
      invariant slots == Slots(sizes[..src], logits, ids)
    {
      assert sizes[..src + 1][..src] == sizes[..src];
      slots := slots + [Slot(HiddenStates, src, sizes[src])];
      if logits {
        slots := slots + [Slot(RouterLogits, src, sizes[src])];
      }
      if ids {
        slots := slots + [Slot(InputIds, src, sizes[src])];
      }
      assert slots == Slots(sizes[..src], logits, ids) + PeerSlots(src, sizes[src], logits, ids);
    }
    assert sizes[..|sizes|] == sizes;
  }

  /** What arrived for the receives of one kind, whatever it is, in peer order. */
  function Landed<T>(slots: seq<Slot>, delivered: seq<Wire<T>>, kind: Kind): seq<seq<T>>
    requires |slots| == |delivered|
  {
    if slots == [] then []
    else
      var n := |slots| - 1;
      Landed(slots[..n], delivered[..n], kind) + if slots[n].kind == kind then [delivered[n].rows] else []
  }

  lemma {:induction false} LandedInPlace<T>(slots: seq<Slot>, delivered: seq<Wire<T>>, kind: Kind)
    requires InPlace(slots, delivered)
    ensures Landed(slots, delivered, kind) == OfKind(delivered, kind)
    decreases |slots|
  {
    if slots != [] {
      LandedInPlace(slots[..|slots| - 1], delivered[..|slots| - 1], kind);
    }
  }

  /** Sort what arrived by the receive it was posted for. */
  method Collect<T>(slots: seq<Slot>, delivered: seq<Wire<T>>, kind: Kind) returns (tensors: seq<seq<T>>)
    requires |slots| == |delivered|
    ensures tensors == Landed(slots, delivered, kind)
  {
    tensors := [];
    for i := 0 to |slots|
      invariant tensors == Landed(slots[..i], delivered[..i], kind)
    {
      assert slots[..i + 1][..i] == slots[..i] && delivered[..i + 1][..i] == delivered[..i];
      if slots[i].kind == kind {
        tensors := tensors + [delivered[i].rows];
      }
    }
    assert slots[..|slots|] == slots && delivered[..|slots|] == delivered;
  }

  function Lengths<T>(ss: seq<seq<T>>): seq<nat> {
    if ss == [] then [] else Lengths(ss[..|ss| - 1]) + [|ss[|ss| - 1]|]
  }

  /** The channels hold what `sents` says for this stage, as the receiver expects it, and after
    * it `rests`. */
  ghost predicate Expected<T>(channels: seq<seq<Wire<T>>>, sizes: seq<nat>, logits: bool, ids: bool,
                              sents: seq<Sent<T>>, rests: seq<seq<Wire<T>>>) {
    && AllMatch(sents, sizes, logits, ids) && |sents| == |channels| == |rests|
    && forall k :: 0 <= k < |channels| ==> channels[k] == Wires(sents[k]) + rests[k]
  }

  lemma {:induction false} MatchedLengths<T>(sents: seq<Sent<T>>, sizes: seq<nat>, logits: bool, ids: bool)
    requires AllMatch(sents, sizes, logits, ids)
    ensures Lengths(Hidden(sents)) == sizes
    decreases |sents|
  {
    if sents != [] {
      MatchedLengths(sents[..|sents| - 1], sizes[..|sents| - 1], logits, ids);
    }
  }

  /** Receive every tensor of every peer.  It waits for ever where a peer sends too little, and
    * it joins whatever landed in the receives of a kind.  `sents` and `rests` name what the
    * peers should have sent for this stage and what they sent after it. */
  method RecvAttnOutput<T>(channels: seq<seq<Wire<T>>>, sizes: seq<nat>, logits: bool, ids: bool,
                           ghost sents: seq<Sent<T>>, ghost rests: seq<seq<Wire<T>>>)
    returns (r: Result<Received<T>, string>, unread: seq<seq<Wire<T>>>)
    requires |channels| == |sizes|
    ensures r.Ok? <==> sizes != [] && Deliver(Slots(sizes, logits, ids), channels).Done?
    ensures r.Ok? ==>
              var slots := Slots(sizes, logits, ids);
              var t := Deliver(slots, channels);
              && unread == t.unread
              && r.value == Received(Joined(Landed(slots, t.delivered, HiddenStates)),
                                     if logits then Some(Joined(Landed(slots, t.delivered, RouterLogits))) else None,
                                     if ids then Some(Joined(Landed(slots, t.delivered, InputIds))) else None,
                                     sizes)
    ensures Expected(channels, sizes, logits, ids, sents, rests) && sizes != [] ==>
              && r.Ok? && unread == rests
              && r.value == Received(Joined(Hidden(sents)),
                                     if logits then Some(Joined(Logits(sents))) else None,
                                     if ids then Some(Joined(Ids(sents))) else None,
                                     Lengths(Hidden(sents)))
  {
    if sizes == [] {
      return Error("P2P FFN rank has no Attention peers"), channels;
    }
    if Expected(channels, sizes, logits, ids, sents, rests) {
      DeliveryInPlace(sents, sizes, logits, ids, channels, rests);
      OfKindAll(sents);
      MatchedLengths(sents, sizes, logits, ids);
      hide AllMatch, Wires, InPlace, OfKind, Deliver, Slots, Landed, Hidden, Logits, Ids;
      ghost var wires := Deliver(Slots(sizes, logits, ids), channels).delivered;
      LandedInPlace(Slots(sizes, logits, ids), wires, HiddenStates);
      LandedInPlace(Slots(sizes, logits, ids), wires, RouterLogits);
      LandedInPlace(Slots(sizes, logits, ids), wires, InputIds);
    }
    hide Expected, Deliver, Slots, Landed, Joined, Lengths;
    var slots := PostReceives(sizes, logits, ids);
    var t := Deliver(slots, channels);
    if t.Blocked? {
      return Error("a receive waits for a tensor that no peer sends"), channels;
    }
    var hidden := Collect(slots, t.delivered, HiddenStates);
    var routed := Collect(slots, t.delivered, RouterLogits);
    var tokens := Collect(slots, t.delivered, InputIds);
    return Ok(Received(Joined(hidden), if logits then Some(Joined(routed)) else None,
                       if ids then Some(Joined(tokens)) else None, sizes)), t.unread;
  }

  // ---------- the answer ----------

  lemma JoinedSnoc<T>(ss: seq<seq<T>>, s: seq<T>)
    ensures Joined(ss + [s]) == Joined(ss) + s && Lengths(ss + [s]) == Lengths(ss) + [|s|]
  {
    assert (ss + [s])[..|ss|] == ss;
  }

  method SplitRows<T>(output: seq<T>, sizes: seq<nat>) returns (slices: seq<seq<T>>)
    requires |output| == Sum(sizes)
    ensures Joined(slices) == output && Lengths(slices) == sizes && |slices| == |sizes|
  {
    slices := [];
    assert Joined(slices) == [] && Lengths(slices) == [];
    hide Joined, Lengths;
    var start := 0;
    for k := 0 to |sizes|
      invariant start == Sum(sizes[..k]) <= |output| && |slices| == k
      invariant Joined(slices) == output[..start] && Lengths(slices) == sizes[..k]
    {
      assert sizes[..k + 1][..k] == sizes[..k];
      PrefixSum(sizes, k + 1);
      var end := start + sizes[k];
      JoinedSnoc(slices, output[start..end]);
      assert output[..end] == output[..start] + output[start..end];
      slices := slices + [output[start..end]];
      start := end;
    }
    assert sizes[..|sizes|] == sizes && output[..start] == output;
  }

  /** Split by the recorded lengths, or evenly when they do not cover every peer. */
  method SendFfnOutput<T>(output: seq<T>, seqLens: seq<nat>, ratio: nat) returns (r: Result<seq<seq<T>>, string>)
    requires ratio >= 1
    ensures r.Ok? <==> |output| == Sum(seqLens) && (|seqLens| == ratio || |output| % ratio == 0)
    ensures r.Ok? ==> |r.value| == ratio && Joined(r.value) == output
    ensures r.Ok? ==> Lengths(r.value) == if |seqLens| == ratio then seqLens else seq(ratio, _ => |output| / ratio)
  {
    if |output| != Sum(seqLens) {
      return Error("ffn_output shape does not match metadata");
    }
    var sizes := seqLens;
    if |sizes| != ratio {
      if |output| % ratio != 0 {
        return Error("cannot evenly split FFN output across Attention peers");
      }
      var tokens: nat := |output| / ratio;
      sizes := seq(ratio, _ => tokens);
      EvenSum(ratio, tokens);
      assert |output| == ratio * tokens + |output| % ratio;
    }
    var slices := SplitRows(output, sizes);
    return Ok(slices);
  }

  lemma {:induction false} EvenSum(n: nat, each: nat)
    ensures Sum(seq(n, _ => each)) == n * each
  {
    if n > 0 {
      EvenSum(n - 1, each);
      assert seq(n, _ => each)[..n - 1] == seq(n - 1, _ => each);
      assert n * each == (n - 1) * each + each;
    }
  }

  lemma {:induction false} PrefixSum(lens: seq<nat>, k: nat)
    requires k <= |lens|
    ensures Sum(lens[..k]) <= Sum(lens)
    decreases |lens|
  {
    if k == |lens| {
      assert lens[..k] == lens;
    } else {
      PrefixSum(lens[..|lens| - 1], k);
      assert lens[..|lens| - 1][..k] == lens[..k];
    }
  }

  /** A split is determined by its lengths. */
  lemma {:induction false} SplitIsUnique<T>(a: seq<seq<T>>, b: seq<seq<T>>)
    requires Lengths(a) == Lengths(b) && Joined(a) == Joined(b)
    ensures a == b
    decreases |a|
  {
    SameLength(a);
    SameLength(b);
    if a != [] {
      var n := |a| - 1;
      assert Lengths(a)[..n] == Lengths(a[..n]) && Lengths(b)[..n] == Lengths(b[..n]);
      assert |a[n]| == Lengths(a)[n] == Lengths(b)[n] == |b[n]|;
      var x, y := Joined(a[..n]), Joined(b[..n]);
      assert |x| == |y|;
      assert x == Joined(a)[..|x|] == Joined(b)[..|x|] == y;
      assert a[n] == Joined(a)[|x|..] == Joined(b)[|x|..] == b[n];
      SplitIsUnique(a[..n], b[..n]);
    }
  }

  lemma {:induction false} SameLength<T>(a: seq<seq<T>>)
    ensures |Lengths(a)| == |a| && |Joined(a)| == Sum(Lengths(a))
    decreases |a|
  {
    if a != [] {
      var n := |a| - 1;
      SameLength(a[..n]);
      assert Lengths(a)[..n] == Lengths(a[..n]);
    }
  }

  // ---------- remote equals local ----------

  /** A row-wise FFN: each output row depends on its own input rows only. */
  type RowFunction<!T> = (T, Option<T>, Option<T>) -> T

  function RowAt<T>(tensor: Option<seq<T>>, k: nat): Option<T>
    requires tensor.Some? ==> k < |tensor.value|
  {
    if tensor.Some? then Some(tensor.value[k]) else None
  }

  function Rowwise<T>(fn: RowFunction<T>, s: Sent<T>): (out: seq<T>)
    requires Aligned(s)
    ensures |out| == |s.hidden|
  {
    seq(|s.hidden|, k requires 0 <= k < |s.hidden| => fn(s.hidden[k], RowAt(s.logits, k), RowAt(s.ids, k)))
  }

  /** The joined batch of several peers. */
  function Batch<T>(sents: seq<Sent<T>>, logits: bool, ids: bool): Sent<T> {
    Sent(Joined(Hidden(sents)), if logits then Some(Joined(Logits(sents))) else None,
         if ids then Some(Joined(Ids(sents))) else None)
  }

  function LocalAll<T>(fn: RowFunction<T>, sents: seq<Sent<T>>): seq<seq<T>>
    requires forall k :: 0 <= k < |sents| ==> Aligned(sents[k])
  {
    if sents == [] then []
    else LocalAll(fn, sents[..|sents| - 1]) + [Rowwise(fn, sents[|sents| - 1])]
  }

  lemma RowwiseAppend<T>(fn: RowFunction<T>, a: Sent<T>, b: Sent<T>, ab: Sent<T>)
    requires Aligned(a) && Aligned(b) && a.logits.Some? == b.logits.Some? && a.ids.Some? == b.ids.Some?
    requires ab.hidden == a.hidden + b.hidden
    requires ab.logits == if a.logits.Some? then Some(a.logits.value + b.logits.value) else None
    requires ab.ids == if a.ids.Some? then Some(a.ids.value + b.ids.value) else None
    ensures Aligned(ab) && Rowwise(fn, ab) == Rowwise(fn, a) + Rowwise(fn, b)
  {
    forall k | 0 <= k < |ab.hidden| ensures Rowwise(fn, ab)[k] == (Rowwise(fn, a) + Rowwise(fn, b))[k] {
      var n := |a.hidden|;
      assert if k < n then RowAt(ab.logits, k) == RowAt(a.logits, k) && RowAt(ab.ids, k) == RowAt(a.ids, k)
             else RowAt(ab.logits, k) == RowAt(b.logits, k - n) && RowAt(ab.ids, k) == RowAt(b.ids, k - n);
    }
  }

  /** Joining one more peer appends its tensors. */
  lemma BatchSnoc<T>(front: seq<Sent<T>>, s: Sent<T>, sents: seq<Sent<T>>, logits: bool, ids: bool)
    requires sents == front + [s]
    ensures var a, ab := Batch(front, logits, ids), Batch(sents, logits, ids);
            && ab.hidden == a.hidden + s.hidden && Hidden(sents) == Hidden(front) + [s.hidden]
            && (logits && s.logits.Some? ==> ab.logits == Some(a.logits.value + s.logits.value))
            && (ids && s.ids.Some? ==> ab.ids == Some(a.ids.value + s.ids.value))
            && (!logits ==> ab.logits.None?) && (!ids ==> ab.ids.None?)
  {
    assert sents[..|sents| - 1] == front && sents[|sents| - 1] == s;
    JoinedSnoc(Hidden(front), s.hidden);
    if s.logits.Some? {
      JoinedSnoc(Logits(front), s.logits.value);
    }
    if s.ids.Some? {
      JoinedSnoc(Ids(front), s.ids.value);
    }
    hide Joined;
  }

  lemma LocalSnoc<T>(fn: RowFunction<T>, front: seq<Sent<T>>, s: Sent<T>, sents: seq<Sent<T>>)
    requires sents == front + [s] && Aligned(s)
    requires forall k :: 0 <= k < |front| ==> Aligned(front[k])
    requires forall k :: 0 <= k < |sents| ==> Aligned(sents[k])
    ensures LocalAll(fn, sents) == LocalAll(fn, front) + [Rowwise(fn, s)]
  {
    assert sents[..|sents| - 1] == front && sents[|sents| - 1] == s;
  }

  /** Computing on the joined batch is computing on each peer's rows. */
  lemma {:induction false} BatchIsLocal<T>(fn: RowFunction<T>, sents: seq<Sent<T>>, sizes: seq<nat>, logits: bool,
                                           ids: bool)
    requires AllMatch(sents, sizes, logits, ids)
    ensures Aligned(Batch(sents, logits, ids))
    ensures forall k :: 0 <= k < |sents| ==> Aligned(sents[k])
    ensures Rowwise(fn, Batch(sents, logits, ids)) == Joined(LocalAll(fn, sents))
    ensures Lengths(LocalAll(fn, sents)) == Lengths(Hidden(sents)) && |LocalAll(fn, sents)| == |sents|
    decreases |sents|
  {
    assert forall k :: 0 <= k < |sents| ==> Matches(sents[k], sizes[k], logits, ids);
    if sents != [] {
      var n := |sents| - 1;
      var front, s := sents[..n], sents[n];
      assert sents == front + [s];
      BatchIsLocal(fn, front, sizes[..n], logits, ids);
      BatchSnoc(front, s, sents, logits, ids);
      LocalSnoc(fn, front, s, sents);
      var a := Batch(front, logits, ids);
      assert (a.logits.Some? <==> logits) && (a.ids.Some? <==> ids);
      hide Rowwise, RowAt, Joined, Lengths, Hidden, LocalAll, Batch;
      RowwiseAppend(fn, a, s, Batch(sents, logits, ids));
      JoinedSnoc(LocalAll(fn, front), Rowwise(fn, s));
      JoinedSnoc(Hidden(front), s.hidden);
    }
  }

  lemma {:induction false} LocalAt<T>(fn: RowFunction<T>, sents: seq<Sent<T>>, k: nat)
    requires forall i :: 0 <= i < |sents| ==> Aligned(sents[i])
    requires k < |sents|
    ensures |LocalAll(fn, sents)| == |sents| && LocalAll(fn, sents)[k] == Rowwise(fn, sents[k])
    decreases |sents|
  {
    var n := |sents| - 1;
    if n > 0 {
      LocalAt(fn, sents[..n], if k < n then k else 0);
    }
  }

  /** One FFN rank's step: every peer gets the FFN applied to its own rows, for any counts. */
  method FfnStep<T>(fn: RowFunction<T>, channels: seq<seq<Wire<T>>>, sizes: seq<nat>, logits: bool, ids: bool,
                    ghost sents: seq<Sent<T>>, ghost rests: seq<seq<Wire<T>>>)
    returns (answers: seq<seq<T>>, unread: seq<seq<Wire<T>>>)
    requires AllMatch(sents, sizes, logits, ids) && |sents| == |channels| == |rests| >= 1
    requires forall k :: 0 <= k < |channels| ==> channels[k] == Wires(sents[k]) + rests[k]
    ensures unread == rests && |answers| == |sents|
    ensures forall k :: 0 <= k < |sents| ==> Aligned(sents[k]) && answers[k] == Rowwise(fn, sents[k])
  {
    BatchIsLocal(fn, sents, sizes, logits, ids);
    forall k | 0 <= k < |sents| ensures LocalAll(fn, sents)[k] == Rowwise(fn, sents[k]) {
      LocalAt(fn, sents, k);
    }
    SameLength(LocalAll(fn, sents));
    hide Rowwise, Wires, LocalAll, Joined, Hidden, Logits, Ids, Lengths, Aligned, Deliver, Slots, Landed;
    assert Expected(channels, sizes, logits, ids, sents, rests);
    var r, left := RecvAttnOutput(channels, sizes, logits, ids, sents, rests);
    var batch := Sent(r.value.hidden, r.value.logits, r.value.ids);
    var output := Rowwise(fn, batch);
    SameLengthCount(Hidden(sents), sents);
    var split := SendFfnOutput(output, r.value.seqLens, |sizes|);
    SplitIsUnique(split.value, LocalAll(fn, sents));
    return split.value, left;
  }

  lemma {:induction false} SameLengthCount<T>(hs: seq<seq<T>>, sents: seq<Sent<T>>)
    requires hs == Hidden(sents)
    ensures |Lengths(hs)| == |sents|
    decreases |sents|
  {
    if sents != [] {
      SameLengthCount(Hidden(sents[..|sents| - 1]), sents[..|sents| - 1]);
    }
  }
}
