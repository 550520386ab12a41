/** The FFN model runner's graph cache and receive buffers.
  *
  * A graph is what its capture recorded: the buffers its receives write into, in receive
  * order.  Buffers are identified by allocation number.  Compute and sends leave no state.
  */
module FfnGraphRunner {
  import opened Arithmetic
  import opened GraphKeys
  import opened Sequences
  import opened Topology
  import opened TokenCounts
  import opened Wrappers

  /** One FFN rank's fixed settings; `layers` counts the layers that receive. */
  datatype Config = Config(A: nat, F: nat, rank: nat, layers: nat, graphs: bool)

  predicate Sound(c: Config) {
    Sized(c.A, c.F) && c.rank < c.F
  }

  datatype Slot = Slot(stage: int, src: nat, rows: nat)

  datatype Buffer = Buffer(id: nat, rows: nat)

  datatype Graph = Graph(receives: seq<Buffer>)

  datatype State = State(graphs: map<Key, Graph>, buffers: map<Slot, Buffer>, nextId: nat)

  const EMPTY := State(map[], map[], 0)

  // ---------- what a step receives ----------

  function Peers(c: Config): nat
    requires Sound(c)
  {
    |Roster(c.rank, c.A, c.F)| - 1
  }

  function SlotOf(c: Config, counts: seq<int>, stage: int, src: nat): Slot
    requires Sound(c) && 1 <= src <= Peers(c)
  {
    Slot(stage, src, NumTokens(counts, Roster(c.rank, c.A, c.F)[src] - c.F, c.A, 1))
  }

  lemma PeerIs(c: Config, src: nat)
    requires Sound(c) && 1 <= src <= Peers(c)
    ensures var a := BlockStart(c.rank, c.A, c.F) + src - 1;
            a < c.A && SubgroupOf(a, c.A, c.F) == c.rank && Roster(c.rank, c.A, c.F)[src] == c.F + a
  {
    hide BlockStart, Roster;
    RosterAt(c.rank, c.A, c.F);
    BlocksPartition(c.A, c.F);
    BlockStartMonotone(c.rank + 1, c.F, c.A, c.F);
    BlockIsSubgroup(BlockStart(c.rank, c.A, c.F) + src - 1, c.rank, c.A, c.F);
    hide SubgroupOf;
  }

  /** Peer `src` is the Attention rank at that place of the block, and its slot has the rows of
    * its data-parallel rank's count. */
  lemma SlotRows(c: Config, counts: seq<int>, tp: nat, stage: int, src: nat)
    requires Sound(c) && tp >= 1 && c.A == |counts| * tp && 1 <= src <= Peers(c)
    ensures var a := BlockStart(c.rank, c.A, c.F) + src - 1;
            && 0 <= a / tp < |counts| && SubgroupOf(a, c.A, c.F) == c.rank
            && SlotOf(c, counts, stage, src) == Slot(stage, src, Max(1, counts[a / tp]))
  {
    PeerIs(c, src);
    var a := BlockStart(c.rank, c.A, c.F) + src - 1;
    ShareOf(counts, tp, a, c.A, 1);
    hide NumTokens, BlockStart, Roster, SubgroupOf, Peers;
  }

  function PeerSlots(c: Config, counts: seq<int>, stage: int): seq<Slot>
    requires Sound(c)
  {
    seq(Peers(c), k requires 0 <= k < Peers(c) => SlotOf(c, counts, stage, k + 1))
  }

  function StageSlots(c: Config, stages: Stages, order: seq<int>): seq<Slot>
    requires Sound(c) && forall k :: 0 <= k < |order| ==> order[k] in stages
  {
    if order == [] then []
    else
      var n := |order| - 1;
      StageSlots(c, stages, order[..n]) + PeerSlots(c, stages[order[n]], order[n])
  }

  /** Every receive of a step: layer by layer, stage by stage, peer by peer. */
  function Receives(c: Config, stages: Stages): seq<Slot>
    requires Sound(c)
  {
    Repeat(StageSlots(c, stages, Sorted(stages.Keys)), c.layers)
  }

  lemma {:induction false} StageSlotsLength(c: Config, stages: Stages, order: seq<int>)
    requires Sound(c) && forall j :: 0 <= j < |order| ==> order[j] in stages
    ensures |StageSlots(c, stages, order)| == |order| * Peers(c)
    decreases |order|
  {
    hide SlotOf, Peers, Sound;
    if order != [] {
      StageSlotsLength(c, stages, order[..|order| - 1]);
      assert |order| * Peers(c) == (|order| - 1) * Peers(c) + Peers(c);
    }
  }

  /** The receives of a layer one by one: stages in the given order, and peers in roster order. */
  lemma {:induction false} StageSlotsAt(c: Config, stages: Stages, order: seq<int>, i: nat, k: nat)
    requires Sound(c) && i < |order| && k < Peers(c) && forall j :: 0 <= j < |order| ==> order[j] in stages
    ensures var peers, slots := Peers(c), StageSlots(c, stages, order);
            i * peers + k < |slots| && slots[i * peers + k] == SlotOf(c, stages[order[i]], order[i], k + 1)
    decreases |order|
  {
    hide SlotOf, Peers;
    var n := |order| - 1;
    var front := StageSlots(c, stages, order[..n]);
    assert StageSlots(c, stages, order) == front + PeerSlots(c, stages[order[n]], order[n]);
    StageSlotsLength(c, stages, order[..n]);
    if i < n {
      StageSlotsAt(c, stages, order[..n], i, k);
    }
    hide StageSlots;
  }

  /** Every layer makes the same receives, in ascending order of the stages. */
  lemma ReceiveAt(c: Config, stages: Stages, layer: nat, i: nat)
    requires Sound(c) && layer < c.layers && i < |StageSlots(c, stages, Sorted(stages.Keys))|
    ensures var each, receives := StageSlots(c, stages, Sorted(stages.Keys)), Receives(c, stages);
            var at := layer * |each| + i;
            |receives| == c.layers * |each| && at < |receives| && receives[at] == each[i]
  {
    var each := StageSlots(c, stages, Sorted(stages.Keys));
    hide StageSlots, Sorted, Sound;
    RepeatLength(each, c.layers);
    MulBelow(layer, c.layers, |each|);
    var at := layer * |each| + i;
    RepeatAt(each, c.layers, at);
    ModIs(at, |each|, layer, i);
  }

  /** The buffers that capturing must have cached. */
  ghost predicate Wanted(c: Config, stages: Stages, slot: Slot)
    requires Sound(c)
  {
    slot.stage in stages && 1 <= slot.src <= Peers(c) && slot == SlotOf(c, stages[slot.stage], slot.stage, slot.src)
  }

  /** `used` serves the receives `slots`: the cached buffer where there is one, otherwise one
    * allocated from `fresh` on. */
  ghost predicate Serves(used: seq<Buffer>, slots: seq<Slot>, buffers: map<Slot, Buffer>, first: nat, next: nat) {
    && |used| == |slots|
    && forall i :: 0 <= i < |slots| ==>
         if slots[i] in buffers then used[i] == buffers[slots[i]]
         else used[i].rows == slots[i].rows && first <= used[i].id < next
  }

  // ---------- one payload ----------

  /** The payload makes the FFN capture a graph. */
  predicate Captures(c: Config, p: Payload) {
    c.graphs && p.capturing && !p.warmup
  }

  function Mode(c: Config, s: State, p: Payload): RunMode {
    GraphRunMode(p.warmup, p.capturing, p.replaying, c.graphs, GraphKey(p.stages) in s.graphs)
  }

  /** The cache gains one new buffer for every wanted slot that had none. */
  ghost predicate Grown(c: Config, stages: Stages, s: State, s': State)
    requires Sound(c)
  {
    && (forall slot :: slot in s'.buffers <==> slot in s.buffers || Wanted(c, stages, slot))
    && (forall slot :: slot in s.buffers ==> s'.buffers[slot] == s.buffers[slot])
    && AllocatedSince(s, s')
  }

  ghost predicate AllocatedSince(s: State, s': State) {
    && (forall slot :: slot in s'.buffers && slot !in s.buffers ==>
          s'.buffers[slot].rows == slot.rows && s.nextId <= s'.buffers[slot].id < s'.nextId)
    && (forall a, b :: a in s'.buffers && b in s'.buffers && a !in s.buffers && b !in s.buffers && a != b ==>
          s'.buffers[a].id != s'.buffers[b].id)
  }

  /** A forward for `p`: it caches missing buffers if `grows`, and stores a graph if `stores`. */
  ghost predicate Ran(c: Config, s: State, p: Payload, grows: bool, stores: bool, s': State, used: seq<Buffer>)
    requires Sound(c)
  {
    && s.nextId <= s'.nextId
    && (if grows then Grown(c, p.stages, s, s') else s'.buffers == s.buffers)
    && s'.graphs == (if stores then s.graphs[GraphKey(p.stages) := Graph(used)] else s.graphs)
    && Serves(used, Receives(c, p.stages), s'.buffers, s.nextId, s'.nextId)
  }

  /** A replay of the graph captured for the payload's counts. */
  ghost predicate Replayed(s: State, p: Payload, s': State, used: seq<Buffer>) {
    GraphKey(p.stages) in s.graphs && s' == s && used == s.graphs[GraphKey(p.stages)].receives
  }

  /** Handling `p` takes `s` to `s'` and writes into the buffers `used`. */
  ghost predicate Handles(c: Config, s: State, p: Payload, s': State, used: seq<Buffer>)
    requires Sound(c)
  {
    if Mode(c, s, p).Replay? then Replayed(s, p, s', used)
    else Ran(c, s, p, Captures(c, p), Captures(c, p), s', used)
  }

  // ---------- what every step keeps ----------

  /** The graph receives into the cached buffers of its stages. */
  ghost predicate BoundTo(c: Config, buffers: map<Slot, Buffer>, stages: Stages, g: Graph)
    requires Sound(c)
  {
    var slots := Receives(c, stages);
    && |g.receives| == |slots|
    && forall i :: 0 <= i < |slots| ==> slots[i] in buffers && g.receives[i] == buffers[slots[i]]
  }

  ghost predicate Kept(c: Config, s: State)
    requires Sound(c)
  {
    && (!c.graphs ==> s.buffers == map[] && s.graphs == map[])
    && (forall slot :: slot in s.buffers ==> s.buffers[slot].rows == slot.rows && s.buffers[slot].id < s.nextId)
    && (forall a, b :: a in s.buffers && b in s.buffers && a != b ==> s.buffers[a].id != s.buffers[b].id)
    && (forall stages :: GraphKey(stages) in s.graphs ==>
          stages != map[] && BoundTo(c, s.buffers, stages, s.graphs[GraphKey(stages)]))
  }

  lemma {:induction false} StageSlotsWanted(c: Config, stages: Stages, order: seq<int>)
    requires Sound(c) && forall k :: 0 <= k < |order| ==> order[k] in stages
    ensures forall i :: 0 <= i < |StageSlots(c, stages, order)| ==> Wanted(c, stages, StageSlots(c, stages, order)[i])
  {
    if order != [] {
      StageSlotsWanted(c, stages, order[..|order| - 1]);
    }
  }

  lemma {:induction false} RepeatAll(c: Config, stages: Stages, s: seq<Slot>, n: nat)
    requires Sound(c) && forall i :: 0 <= i < |s| ==> Wanted(c, stages, s[i])
    ensures forall i :: 0 <= i < |Repeat(s, n)| ==> Wanted(c, stages, Repeat(s, n)[i])
  {
    hide Wanted;
    if n > 0 {
      RepeatAll(c, stages, s, n - 1);
    }
  }

  lemma ReceivesWanted(c: Config, stages: Stages)
    requires Sound(c)
    ensures forall i :: 0 <= i < |Receives(c, stages)| ==> Wanted(c, stages, Receives(c, stages)[i])
  {
    StageSlotsWanted(c, stages, Sorted(stages.Keys));
    RepeatAll(c, stages, StageSlots(c, stages, Sorted(stages.Keys)), c.layers);
  }

  lemma StepKeeps(c: Config, s: State, p: Payload, s': State, used: seq<Buffer>)
    requires Sound(c) && Kept(c, s) && Handles(c, s, p, s', used) && p.stages != map[]
    ensures Kept(c, s')
  {
    if Captures(c, p) {
      ReceivesWanted(c, p.stages);
    }
    hide Wanted, Receives, GraphKey;
    forall stages | GraphKey(stages) in s'.graphs
      ensures stages != map[] && BoundTo(c, s'.buffers, stages, s'.graphs[GraphKey(stages)])
    {
      EqualKeys(stages, p.stages);
    }
  }

  // ---------- over whole runs ----------

  /** `ss[k]` is the state before payload `k`, and `us[k]` the buffers it wrote into. */
  ghost predicate Runs(c: Config, ss: seq<State>, ps: seq<Payload>, us: seq<seq<Buffer>>)
    requires Sound(c)
  {
    && |ss| == |ps| + 1 && |us| == |ps|
    && forall k :: 0 <= k < |ps| ==> ps[k].stages != map[] && Handles(c, ss[k], ps[k], ss[k + 1], us[k])
  }

  lemma {:induction false} RunsKeep(c: Config, ss: seq<State>, ps: seq<Payload>, us: seq<seq<Buffer>>, k: nat)
    requires Sound(c) && Runs(c, ss, ps, us) && Kept(c, ss[0]) && k <= |ps|
    ensures Kept(c, ss[k])
    decreases k
  {
    hide Kept, Handles;
    if k > 0 {
      RunsKeep(c, ss, ps, us, k - 1);
      StepKeeps(c, ss[k - 1], ps[k - 1], ss[k], us[k - 1]);
    }
  }

  /** A captured graph stays bound to the buffers recorded at its first capture, and they stay
    * cached, whatever is handled in between; capturing the same counts again changes nothing. */
  lemma {:induction false} GraphsStayBound(c: Config, ss: seq<State>, ps: seq<Payload>, us: seq<seq<Buffer>>,
                                           i: nat, j: nat, stages: Stages)
    requires Sound(c) && Runs(c, ss, ps, us) && Kept(c, ss[0]) && i <= j <= |ps|
    requires GraphKey(stages) in ss[i].graphs
    ensures GraphKey(stages) in ss[j].graphs
    ensures ss[j].graphs[GraphKey(stages)] == ss[i].graphs[GraphKey(stages)]
    ensures BoundTo(c, ss[j].buffers, stages, ss[i].graphs[GraphKey(stages)])
    decreases j
  {
    hide Receives, Wanted, GraphKey;
    RunsKeep(c, ss, ps, us, j);
    if i < j {
      GraphsStayBound(c, ss, ps, us, i, j - 1, stages);
      assert Handles(c, ss[j - 1], ps[j - 1], ss[j], us[j - 1]);
      var before, after := ss[j - 1].graphs[GraphKey(stages)], ss[j].graphs[GraphKey(stages)];
      assert BoundTo(c, ss[j].buffers, stages, after);
      assert before.receives == after.receives;
    }
  }

  /** The FFN replays a payload exactly when it asks for a replay and an earlier payload with
    * the same counts made the FFN capture. */
  lemma {:induction false} CapturedIff(c: Config, ss: seq<State>, ps: seq<Payload>, us: seq<seq<Buffer>>, k: nat,
                                       stages: Stages)
    requires Sound(c) && Runs(c, ss, ps, us) && ss[0] == EMPTY && k <= |ps|
    ensures GraphKey(stages) in ss[k].graphs <==> exists j :: 0 <= j < k && Captures(c, ps[j]) && ps[j].stages == stages
    decreases k
  {
    hide Receives, Wanted, GraphKey, Serves, Grown;
    if k > 0 {
      CapturedIff(c, ss, ps, us, k - 1, stages);
      assert Handles(c, ss[k - 1], ps[k - 1], ss[k], us[k - 1]);
      EqualKeys(stages, ps[k - 1].stages);
      if GraphKey(stages) in ss[k].graphs && GraphKey(stages) !in ss[k - 1].graphs {
        assert Captures(c, ps[k - 1]) && ps[k - 1].stages == stages;
      }
    }
  }

  lemma ReplaysIff(c: Config, ss: seq<State>, ps: seq<Payload>, us: seq<seq<Buffer>>, k: nat)
    requires Sound(c) && Runs(c, ss, ps, us) && ss[0] == EMPTY && k < |ps|
    ensures Mode(c, ss[k], ps[k]).Replay? <==>
              && c.graphs && ps[k].replaying && !ps[k].warmup && !ps[k].capturing
              && exists j :: 0 <= j < k && Captures(c, ps[j]) && ps[j].stages == ps[k].stages
  {
    CapturedIff(c, ss, ps, us, k, ps[k].stages);
  }

  /** A replay writes into the very buffers of the capture, and each has the rows that its
    * peer sends for these counts. */
  lemma ReplayWritesWhatWasCaptured(c: Config, ss: seq<State>, ps: seq<Payload>, us: seq<seq<Buffer>>, j: nat, k: nat)
    requires Sound(c) && Runs(c, ss, ps, us) && Kept(c, ss[0]) && j < k < |ps|
    requires Captures(c, ps[j]) && ps[j].stages == ps[k].stages && Mode(c, ss[k], ps[k]).Replay?
    ensures us[k] == us[j]
    ensures var slots := Receives(c, ps[k].stages);
            |us[k]| == |slots| && forall i :: 0 <= i < |slots| ==> us[k][i].rows == slots[i].rows
  {
    hide Receives, Wanted, GraphKey, Grown, Serves;
    assert Handles(c, ss[j], ps[j], ss[j + 1], us[j]) && Handles(c, ss[k], ps[k], ss[k + 1], us[k]);
    GraphsStayBound(c, ss, ps, us, j + 1, k, ps[j].stages);
    RunsKeep(c, ss, ps, us, k);
  }

  /** The cache holds exactly the receive slots of the captured payloads: warmup, eager and
    * replayed steps add none. */
  lemma {:induction false} CacheIsWhatWasCaptured(c: Config, ss: seq<State>, ps: seq<Payload>, us: seq<seq<Buffer>>,
                                                  k: nat, slot: Slot)
    requires Sound(c) && Runs(c, ss, ps, us) && ss[0] == EMPTY && k <= |ps|
    ensures slot in ss[k].buffers <==> exists j :: 0 <= j < k && Captures(c, ps[j]) && Wanted(c, ps[j].stages, slot)
    decreases k
  {
    hide Receives, Wanted, GraphKey, Serves;
    if k > 0 {
      CacheIsWhatWasCaptured(c, ss, ps, us, k - 1, slot);
      assert Handles(c, ss[k - 1], ps[k - 1], ss[k], us[k - 1]);
      if slot in ss[k].buffers && slot !in ss[k - 1].buffers {
        assert Captures(c, ps[k - 1]) && Wanted(c, ps[k - 1].stages, slot);
      }
    }
  }

  // ---------- the runner ----------

  /** The receive metadata of the stages in `done`. */
  ghost predicate SlotsFor(c: Config, stages: Stages, done: set<int>, slots: map<(int, nat), Slot>)
    requires Sound(c)
  {
    && done <= stages.Keys
    && (forall pair :: pair in slots ==>
          pair.0 in done && 1 <= pair.1 <= Peers(c) && slots[pair] == SlotOf(c, stages[pair.0], pair.0, pair.1))
    && (forall stage, src: nat :: stage in done && 1 <= src <= Peers(c) ==> (stage, src) in slots)
  }

  /** Every slot found so far has a buffer, old or new. */
  ghost predicate Filled(before: State, after: State, done: set<Slot>) {
    && (forall slot :: slot in after.buffers <==> slot in before.buffers || slot in done)
    && (forall slot :: slot in before.buffers ==> after.buffers[slot] == before.buffers[slot])
    && AllocatedSince(before, after)
  }

  lemma NothingFilled(s: State)
    ensures Filled(s, s, {})
  {
  }

  lemma FillOne(before: State, s: State, done: set<Slot>, slot: Slot)
    requires Filled(before, s, done) && before.nextId <= s.nextId
    ensures if slot in s.buffers then Filled(before, s, done + {slot})
            else Filled(before, State(s.graphs, s.buffers[slot := Buffer(s.nextId, slot.rows)], s.nextId + 1),
                        done + {slot})
  {
  }

  lemma AllFilled(c: Config, stages: Stages, slots: map<(int, nat), Slot>, before: State, after: State, done: set<Slot>)
    requires Sound(c) && SlotsFor(c, stages, stages.Keys, slots) && Filled(before, after, done)
    requires forall slot :: slot in done ==> Wanted(c, stages, slot)
    requires forall pair :: pair in slots ==> slots[pair] in done
    ensures Grown(c, stages, before, after)
  {
    hide SlotOf;
    forall slot | Wanted(c, stages, slot) ensures slot in done {
      assert (slot.stage, slot.src) in slots;
    }
  }

  lemma WantedSlot(c: Config, stages: Stages, stage: int, src: nat)
    requires Sound(c) && stage in stages && 1 <= src <= Peers(c)
    ensures Wanted(c, stages, SlotOf(c, stages[stage], stage, src))
  {
  }

  lemma ServesWider(used: seq<Buffer>, slots: seq<Slot>, buffers: map<Slot, Buffer>, first: nat, mid: nat, next: nat)
    requires Serves(used, slots, buffers, mid, next) && first <= mid
    ensures Serves(used, slots, buffers, first, next)
  {
  }

  lemma GrownStays(c: Config, stages: Stages, s: State, mid: State, s': State)
    requires Sound(c) && Grown(c, stages, s, mid) && s'.buffers == mid.buffers && mid.nextId <= s'.nextId
    ensures Grown(c, stages, s, s')
  {
  }

  lemma ServesNothing(buffers: map<Slot, Buffer>, next: nat)
    ensures Serves([], [], buffers, next, next)
  {
  }

  lemma ServesMore(used: seq<Buffer>, slots: seq<Slot>, more: seq<Buffer>, moreSlots: seq<Slot>,
                   buffers: map<Slot, Buffer>, first: nat, mid: nat, next: nat)
    requires Serves(used, slots, buffers, first, mid) && Serves(more, moreSlots, buffers, mid, next)
    requires first <= mid <= next
    ensures Serves(used + more, slots + moreSlots, buffers, first, next)
  {
  }

  /** A step that failed before it received anything. */
  ghost predicate Unsettled(c: Config, s: State, stages: Stages, s': State)
    requires Sound(c)
  {
    && s'.graphs == s.graphs && s.nextId <= s'.nextId && stages == map[]
    && (s'.buffers == s.buffers || Grown(c, stages, s, s'))
  }

  lemma FailureKeeps(c: Config, s: State, stages: Stages, s': State)
    requires Sound(c) && Kept(c, s) && Unsettled(c, s, stages, s')
    ensures Kept(c, s')
  {
    hide Receives, GraphKey;
    assert s'.buffers == s.buffers;
  }

  lemma CaptureHandles(c: Config, s: State, p: Payload, s': State, used: seq<Buffer>)
    requires Sound(c) && c.graphs && (p.warmup || p.capturing)
    requires Ran(c, s, p, !p.warmup && p.capturing, !p.warmup, s', used)
    ensures Handles(c, s, p, s', used)
  {
    hide Ran, GraphKey;
    assert Captures(c, p) == (!p.warmup && p.capturing) == !p.warmup;
  }

  lemma ExecuteHandles(c: Config, s: State, p: Payload, s': State, used: seq<Buffer>)
    requires Sound(c) && !(c.graphs && (p.warmup || p.capturing))
    requires if Mode(c, s, p).Replay? then Replayed(s, p, s', used)
             else Ran(c, s, p, c.graphs && p.capturing, false, s', used)
    ensures Handles(c, s, p, s', used)
  {
    hide Ran, Replayed, GraphKey;
    assert !Captures(c, p) && !(c.graphs && p.capturing);
  }

  lemma NoEmptyKey(c: Config, s: State)
    requires Sound(c) && Kept(c, s)
    ensures GraphKey(map[]) !in s.graphs
    ensures !c.graphs ==> s.buffers == map[]
  {
  }

  class FfnModelRunner {
    const c: Config
    var cudaGraphs: map<Key, Graph>
    var recvAttnBuffers: map<Slot, Buffer>
    var slots: map<(int, nat), Slot>  // the receive metadata of the current step
    var nextId: nat  // allocations so far

    constructor (c: Config)
      requires Sound(c)
      ensures this.c == c && Valid() && View() == EMPTY
    {
      this.c, cudaGraphs, recvAttnBuffers, slots, nextId := c, map[], map[], map[], 0;
    }

    ghost function View(): State
      reads this
    {
      State(cudaGraphs, recvAttnBuffers, nextId)
    }

    ghost predicate Valid()
      reads this
    {
      Sound(c) && Kept(c, View())
    }

    method Empty(rows: nat) returns (buffer: Buffer)
      modifies `nextId
      ensures buffer == Buffer(old(nextId), rows) && nextId == old(nextId) + 1
    {
      buffer := Buffer(nextId, rows);
      nextId := nextId + 1;
    }

    /** Set the receive metadata; when capturing, also allocate the missing buffers. */
    method UpdateState(stages: Stages, capturing: bool)
      requires Sound(c)
      modifies `slots, `recvAttnBuffers, `nextId
      ensures SlotsFor(c, stages, stages.Keys, slots) && old(nextId) <= nextId
      ensures if c.graphs && capturing then Grown(c, stages, old(View()), View())
              else recvAttnBuffers == old(recvAttnBuffers)
    {
      hide SlotOf, Grown;
      slots := map[];
      var todo := stages.Keys;
      while todo != {}
        invariant todo <= stages.Keys && SlotsFor(c, stages, stages.Keys - todo, slots)
        invariant recvAttnBuffers == old(recvAttnBuffers) && nextId == old(nextId)
        decreases todo
      {
        Inhabited(todo);
        var stage :| stage in todo;
        AddPeers(stages, stage, stages.Keys - todo);
        assert stages.Keys - (todo - {stage}) == stages.Keys - todo + {stage};
        todo := todo - {stage};
      }
      assert stages.Keys - {} == stages.Keys;
      if c.graphs && capturing {
        AllocateMissing(stages);
      }
    }

    method AddPeers(stages: Stages, stage: int, ghost done: set<int>)
      requires Sound(c) && stage in stages && stage !in done && SlotsFor(c, stages, done, slots)
      modifies `slots
      ensures SlotsFor(c, stages, done + {stage}, slots)
    {
      hide SlotOf;
      for src := 1 to Peers(c) + 1
        invariant forall pair :: pair in slots ==>
          && 1 <= pair.1 <= Peers(c) && (pair.0 in done || (pair.0 == stage && pair.1 < src))
          && slots[pair] == SlotOf(c, stages[pair.0], pair.0, pair.1)
        invariant forall other, k: nat :: other in done && 1 <= k <= Peers(c) ==> (other, k) in slots
        invariant forall k: nat :: 1 <= k < src ==> (stage, k) in slots
      {
        slots := slots[(stage, src) := SlotOf(c, stages[stage], stage, src)];
      }
    }

    method AllocateMissing(stages: Stages)
      requires Sound(c) && SlotsFor(c, stages, stages.Keys, slots)
      modifies `recvAttnBuffers, `nextId
      ensures Grown(c, stages, old(View()), View()) && old(nextId) <= nextId
    {
      hide SlotOf, Filled, Wanted;
      NothingFilled(View());
      var todo := slots.Keys;
      ghost var done: set<Slot> := {};
      while todo != {}
        invariant todo <= slots.Keys && old(nextId) <= nextId
        invariant Filled(old(View()), View(), done)
        invariant forall slot :: slot in done ==> Wanted(c, stages, slot)
        invariant forall pair :: pair in slots && pair !in todo ==> slots[pair] in done
        decreases todo
      {
        var pair :| pair in todo;
        var slot := slots[pair];
        FillOne(old(View()), View(), done, slot);
        if slot !in recvAttnBuffers {
          var buffer := Empty(slot.rows);
          recvAttnBuffers := recvAttnBuffers[slot := buffer];
        }
        WantedSlot(c, stages, pair.0, pair.1);
        todo, done := todo - {pair}, done + {slot};
      }
      AllFilled(c, stages, slots, old(View()), View(), done);
    }

    /** The buffers that one stage's receives write into. */
    method RecvAttnOutput(stage: int, ghost stages: Stages) returns (used: seq<Buffer>)
      requires Sound(c) && stage in stages && SlotsFor(c, stages, stages.Keys, slots)
      requires !c.graphs ==> recvAttnBuffers == map[]
      modifies `nextId
      ensures Serves(used, PeerSlots(c, stages[stage], stage), recvAttnBuffers, old(nextId), nextId)
           && old(nextId) <= nextId
    {
      hide SlotOf;
      used := [];
      for src := 1 to Peers(c) + 1
        invariant Serves(used, PeerSlots(c, stages[stage], stage)[..src - 1], recvAttnBuffers, old(nextId), nextId)
        invariant old(nextId) <= nextId
      {
        assert (stage, src) in slots;
        var slot := slots[(stage, src)];
        assert slot == PeerSlots(c, stages[stage], stage)[src - 1];
        if c.graphs && slot in recvAttnBuffers {
          used := used + [recvAttnBuffers[slot]];
        } else {
          var buffer := Empty(slot.rows);
          used := used + [buffer];
        }
      }
      assert PeerSlots(c, stages[stage], stage)[..Peers(c)] == PeerSlots(c, stages[stage], stage);
    }

    /** Every layer, every stage in order: receive, compute, send back. */
    method FfnForward(stages: Stages) returns (used: seq<Buffer>)
      requires Sound(c) && SlotsFor(c, stages, stages.Keys, slots)
      requires !c.graphs ==> recvAttnBuffers == map[]
      modifies `nextId
      ensures Serves(used, Receives(c, stages), recvAttnBuffers, old(nextId), nextId) && old(nextId) <= nextId
    {
      hide SlotOf, Serves, SlotsFor;
      var order := Sorted(stages.Keys);
      used := [];
      ServesNothing(recvAttnBuffers, nextId);
      for layer := 0 to c.layers
        invariant Serves(used, Repeat(StageSlots(c, stages, order), layer), recvAttnBuffers, old(nextId), nextId)
        invariant old(nextId) <= nextId
      {
        ghost var start := nextId;
        var layerUsed := [];
        ServesNothing(recvAttnBuffers, nextId);
        for i := 0 to |order|
          invariant Serves(layerUsed, StageSlots(c, stages, order[..i]), recvAttnBuffers, start, nextId)
          invariant start <= nextId
        {
          ghost var mid := nextId;
          var more := RecvAttnOutput(order[i], stages);
          ServesMore(layerUsed, StageSlots(c, stages, order[..i]), more, PeerSlots(c, stages[order[i]], order[i]),
                     recvAttnBuffers, start, mid, nextId);
          assert order[..i + 1][..i] == order[..i];
          layerUsed := layerUsed + more;
        }
        assert order[..|order|] == order;
        ServesMore(used, Repeat(StageSlots(c, stages, order), layer), layerUsed, StageSlots(c, stages, order),
                   recvAttnBuffers, old(nextId), start, nextId);
        used := used + layerUsed;
      }
    }

    /** One turn of the server loop.  A payload without stages makes the forward fail. */
    method HandlePayload(p: Payload) returns (ok: bool, mode: RunMode, used: seq<Buffer>)
      requires Valid()
      modifies this
      ensures Valid() && (ok <==> p.stages != map[]) && mode == Mode(c, old(View()), p)
      ensures if ok then Handles(c, old(View()), p, View(), used) else cudaGraphs == old(cudaGraphs)
    {
      hide Kept, Handles, Ran, Replayed, Grown, GraphKey;
      ghost var s := View();
      if c.graphs && (p.warmup || p.capturing) {
        mode := if p.warmup then Warmup else Capture;
        ok, used := CaptureModel(p);
        if ok {
          CaptureHandles(c, s, p, View(), used);
        }
      } else {
        ok, mode, used := ExecuteModel(p);
        if ok {
          ExecuteHandles(c, s, p, View(), used);
        }
      }
      if ok {
        StepKeeps(c, old(View()), p, View(), used);
      } else {
        FailureKeeps(c, old(View()), p.stages, View());
      }
    }

    /** Without graphs there is nothing to capture. */
    method CaptureModel(p: Payload) returns (ok: bool, used: seq<Buffer>)
      requires Valid()
      modifies this
      ensures !c.graphs ==> ok && used == [] && View() == old(View())
      ensures c.graphs ==> (ok <==> p.stages != map[])
      ensures c.graphs && ok ==> Ran(c, old(View()), p, !p.warmup && p.capturing, !p.warmup, View(), used)
      ensures !ok ==> Unsettled(c, old(View()), p.stages, View())
    {
      hide SlotsFor, Serves, Grown, Receives, Kept;
      if !c.graphs {
        return true, [];
      }
      UpdateState(p.stages, !p.warmup && p.capturing);
      if p.stages == map[] {
        return false, [];
      }
      ghost var mid := View();
      used := FfnForward(p.stages);
      ok := true;
      ServesWider(used, Receives(c, p.stages), recvAttnBuffers, old(nextId), mid.nextId, nextId);
      if !p.warmup {
        var key := MakeFfnGraphKey(p.stages);
        cudaGraphs := cudaGraphs[key := Graph(used)];
        if p.capturing {
          GrownStays(c, p.stages, old(View()), mid, View());
        }
      }
    }

    method ExecuteModel(p: Payload) returns (ok: bool, mode: RunMode, used: seq<Buffer>)
      requires Valid()
      modifies this
      ensures mode == Mode(c, old(View()), p) && (ok <==> p.stages != map[])
      ensures ok && mode.Replay? ==> Replayed(old(View()), p, View(), used)
      ensures ok && !mode.Replay? ==> Ran(c, old(View()), p, c.graphs && p.capturing, false, View(), used)
      ensures !ok ==> Unsettled(c, old(View()), p.stages, View())
    {
      hide SlotsFor, Serves, Grown, Receives, Kept;
      NoEmptyKey(c, View());
      var key := MakeFfnGraphKey(p.stages);
      mode := GraphRunMode(p.warmup, p.capturing, p.replaying, c.graphs, key in cudaGraphs);
      if mode == Replay {
        return true, mode, cudaGraphs[key].receives;
      }
      UpdateState(p.stages, p.capturing);
      if p.stages == map[] {
        return false, mode, [];
      }
      ghost var mid := View();
      used := FfnForward(p.stages);
      ok := true;
      ServesWider(used, Receives(c, p.stages), recvAttnBuffers, old(nextId), mid.nextId, nextId);
      if c.graphs && p.capturing {
        GrownStays(c, p.stages, old(View()), mid, View());
      }
    }
  }
}
