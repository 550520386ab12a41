/** What one event of the proxy changes.
  *
  *   - `RequestStepKeepsSetup`: a request's events change loads only; servers, taints and
  *     waiting nodes stay;
  *   - `AdminAddsIdle`: administration changes no load, and a server that it adds is idle;
  *   - `StepAnchors`: the request count stays right, and open requests name live servers;
  *   - `PrefillMoves`, `DecodeMoves`: how far a recorded load moves, as a table over the events;
  *   - `HoldingsMove`: how far what the open requests hold moves, by the same table except for
  *     the second releases of a recomputation.
  */
module ProxyFlows {
  import opened ProxyRequests
  import opened ProxySpec

  // ---------- servers ----------

  ghost predicate SameNodes(p: Pool, p': Pool) {
    && p'.tainted == p.tainted && p'.servers.Keys == p.servers.Keys
    && forall k :: k in p.servers ==>
         p'.servers[k] == p.servers[k].(tokens := p'.servers[k].tokens, kv := p'.servers[k].kv)
  }

  ghost predicate SameSetup(s: Sched, s': Sched) {
    && SameNodes(s.prefill, s'.prefill) && SameNodes(s.decode, s'.decode)
    && s'.waiting == s.waiting && s'.nextOrdinal == s.nextOrdinal
  }

  lemma ReservationKeepsSetup(w: World, e: Event)
    requires Enabled(w, e) && (e.Begin? || e.PickDecoder? || e.Reserve?)
    ensures SameSetup(w.s, Next(w, e).s)
  {
    hide Ahead;
  }

  lemma ReleaseKeepsSetup(w: World, e: Event)
    requires Enabled(w, e) && !IsAdmin(e) && !e.Begin? && !e.PickDecoder? && !e.Reserve?
    ensures SameSetup(w.s, Next(w, e).s)
  {
    hide IsLeast;
  }

  lemma RequestStepKeepsSetup(w: World, e: Event)
    requires Enabled(w, e) && !IsAdmin(e)
    ensures SameSetup(w.s, Next(w, e).s)
    ensures Next(w, e).s.prefill.servers.Keys == w.s.prefill.servers.Keys
    ensures Next(w, e).s.decode.servers.Keys == w.s.decode.servers.Keys
    ensures Next(w, e).s.prefill.tainted == w.s.prefill.tainted
    ensures Next(w, e).s.decode.tainted == w.s.decode.tainted
  {
    hide Enabled, Next;
    if e.Begin? || e.PickDecoder? || e.Reserve? {
      ReservationKeepsSetup(w, e);
    } else {
      ReleaseKeepsSetup(w, e);
    }
  }

  lemma AdminKeepsServers(w: World, e: Event, role: ServerRole)
    requires Enabled(w, e) && IsAdmin(e) && (w.s.requestNum > 0 || (!e.Remove? && !e.Finalize?))
    ensures w.s.Of(role).servers.Keys <= Next(w, e).s.Of(role).servers.Keys
  {
    if e.AddNodes? {
      AddedOnlyWaits(w.s, e.role, e.instances);
      hide InstancesAdded;
    }
  }

  /** Administration changes no load; a server that it adds is idle. */
  ghost predicate OnlyIdleAdded(p: Pool, p': Pool) {
    forall k :: k in p'.servers ==>
      if k in p.servers then p'.servers[k] == p.servers[k]
      else k != "" && p'.servers[k].kv == 0.0 && p'.servers[k].tokens == 0.0
  }

  lemma AdminAddsIdle(w: World, e: Event)
    requires IsAdmin(e) && Enabled(w, e)
    ensures Next(w, e).open == w.open
    ensures OnlyIdleAdded(w.s.prefill, Next(w, e).s.prefill) && OnlyIdleAdded(w.s.decode, Next(w, e).s.decode)
  {
    if e.AddNodes? {
      AddedOnlyWaits(w.s, e.role, e.instances);
      hide InstancesAdded;
    } else if e.Activate? {
      KeyIsNotEmpty(e.host, e.port);
      hide ServerKey;
    }
  }

  // ---------- requests are counted, and their servers live ----------

  /** The count is right, and every server that an open request names is live. */
  ghost predicate Anchored(w: World) {
    w.s.requestNum == |w.open| && AllHeld(w.s, w.open)
  }

  lemma Changed(w: World, e: Event)
    requires Anchored(w) && Enabled(w, e) && !IsAdmin(e)
    ensures var w' := Next(w, e);
            && w'.open - {e.id} == w.open - {e.id}
            && w'.s.requestNum == (if e.Begin? then w.s.requestNum + 1
                                   else if e.id in w'.open then w.s.requestNum
                                   else if w.s.requestNum == 0 then 0
                                   else w.s.requestNum - 1)
            && (e.Begin? <==> e.id !in w.open) && (e.Begin? ==> e.id in w'.open)
  {
    hide IsLeast, AllHeld, Charge, Discharge;
  }

  /** What the event makes of its request names live servers. */
  lemma ChangedHolds(w: World, e: Event)
    requires Anchored(w) && Enabled(w, e) && !IsAdmin(e)
    ensures e.id in Next(w, e).open ==> Holds(Next(w, e).s, Next(w, e).open[e.id])
  {
    RequestStepKeepsSetup(w, e);
    if e.Begin? || e.Reserve? {
      ScoresArePositive(e.length);
    }
    assert e.id in w.open ==> Holds(w.s, w.open[e.id]);
    hide AllHeld, Charge, Discharge, PrefillScore, DecodeScore;
  }

  lemma RequestAnchors(w: World, e: Event)
    requires Anchored(w) && Enabled(w, e) && !IsAdmin(e)
    ensures Anchored(Next(w, e))
  {
    var w', id := Next(w, e), e.id;
    Changed(w, e);
    RequestStepKeepsSetup(w, e);
    ChangedHolds(w, e);
    hide Next, Enabled, Holds;
    forall j | j in w'.open && j != id ensures j in w.open && w'.open[j] == w.open[j] {
      assert j in w'.open - {id} && (w'.open - {id})[j] == w'.open[j] && (w.open - {id})[j] == w.open[j];
    }
    StillHeld(w, w', id);
    hide AllHeld;
    CountedWithout(w.open, id);
    CountedWithout(w'.open, id);
  }

  lemma CountedWithout(open: map<nat, Request>, id: nat)
    ensures |open| == |open - {id}| + if id in open then 1 else 0
  {
    if id in open {
      Counted(open, id, open[id]);
    } else {
      assert open - {id} == open;
    }
  }

  /** What administration does not touch. */
  lemma AdminKeepsRequests(w: World, e: Event)
    requires IsAdmin(e)
    ensures Next(w, e).open == w.open && Next(w, e).s.requestNum == w.s.requestNum
  {
    if e.AddNodes? {
      AddedOnlyWaits(w.s, e.role, e.instances);
    }
  }

  lemma StepAnchors(w: World, e: Event)
    requires Anchored(w) && Enabled(w, e)
    ensures Anchored(Next(w, e))
  {
    if IsAdmin(e) {
      var w' := Next(w, e);
      AdminKeepsRequests(w, e);
      assert w.open != map[] ==> w.s.requestNum > 0;
      hide Next, Enabled;
      if w.open != map[] {
        AdminKeepsServers(w, e, Prefill);
        AdminKeepsServers(w, e, Decode);
        forall id | id in w.open ensures Holds(w'.s, w.open[id]) {
          assert Holds(w.s, w.open[id]);
        }
      }
    } else {
      hide Anchored, Enabled, Next;
      RequestAnchors(w, e);
    }
  }

  // ---------- what an event does to the books ----------

  /** KV that the event reserves on prefiller `k`. */
  function KvIn(e: Event, k: string): real {
    match e
    case Begin(_, length, key) => if key == k then PrefillScore(length) else 0.0
    case Reserve(_, length, key) => if key == k then PrefillScore(length) else 0.0
    case _ => 0.0
  }

  /** KV that the event releases on prefiller `k`. */
  ghost function KvOut(w: World, e: Event, k: string): real
    requires Enabled(w, e)
  {
    match e
    case AbortPrefill(id) => if w.open[id].prefillKey == k then w.open[id].prefillLoad else 0.0
    case FirstChunk(id) => if w.open[id].prefillKey == k then w.open[id].prefillLoad else 0.0
    case Finish(id) => if w.open[id].prefillKey == k && !w.open[id].kvReleased then w.open[id].prefillLoad else 0.0
    case RecomputeKv(id) => if w.open[id].prefillKey == k then w.open[id].prefillLoad else 0.0
    case AbortReselect(id) => if w.open[id].newKey == k then w.open[id].newLoad else 0.0
    case _ => 0.0
  }

  ghost function TokensIn(w: World, e: Event, k: string): real
    requires Enabled(w, e)
  {
    match e
    case PickDecoder(id, key) => if key == k then NextDecodeLoad(w.open[id]) else 0.0
    case _ => 0.0
  }

  ghost function TokensOut(w: World, e: Event, k: string): real
    requires Enabled(w, e)
  {
    match e
    case Finish(id) => if w.open[id].decodeKey == k then w.open[id].decodeLoad else 0.0
    case RecomputeDecoder(id) => if w.open[id].decodeKey == k then w.open[id].decodeLoad else 0.0
    case FailRecompute(id) => if w.open[id].decodeKey == k then w.open[id].decodeLoad else 0.0
    case _ => 0.0
  }

  lemma PrefillMoves(w: World, e: Event, k: string)
    requires Anchored(w) && Enabled(w, e) && !IsAdmin(e)
    requires k in w.s.prefill.servers && k != "" && w.s.prefill.servers[k].kv >= 0.0
    ensures var p, p' := w.s.prefill, Next(w, e).s.prefill;
            && k in p'.servers && p'.servers[k].tokens == p.servers[k].tokens
            && p'.servers[k].kv == Max(0.0, p.servers[k].kv + KvIn(e, k) - KvOut(w, e, k))
  {
    assert e.id in w.open ==> Holds(w.s, w.open[e.id]);
    if e.Begin? || e.Reserve? {
      ScoresArePositive(e.length);
    }
    hide AllHeld, IsLeast, PrefillScore, DecodeScore;
  }

  lemma DecodeMoves(w: World, e: Event, k: string)
    requires Anchored(w) && Enabled(w, e) && !IsAdmin(e) && k in w.s.decode.servers && k != ""
    ensures var p, p' := w.s.decode, Next(w, e).s.decode;
            && k in p'.servers && p'.servers[k].kv == p.servers[k].kv
            && p'.servers[k].tokens == p.servers[k].tokens + TokensIn(w, e, k) - TokensOut(w, e, k)
  {
    assert e.id in w.open ==> Holds(w.s, w.open[e.id]);
    hide AllHeld, IsLeast, PrefillScore, DecodeScore;
  }

  /** What is held follows what is reserved and released, except that the second releases of a
    * recomputation release what is not held. */
  lemma HoldingsMove(w: World, e: Event, k: string)
    requires Enabled(w, e) && !IsAdmin(e)
    ensures HeldKv(Next(w, e).open, k)
         == HeldKv(w.open, k) + KvIn(e, k) - if e.RecomputeKv? then 0.0 else KvOut(w, e, k)
    ensures HeldTokens(Next(w, e).open, k)
         == HeldTokens(w.open, k) + TokensIn(w, e, k) - if e.FailRecompute? then 0.0 else TokensOut(w, e, k)
  {
    var open, open' := w.open, Next(w, e).open;
    if e.id in open' {
      LedgerSet(open, e.id, open'[e.id], k);
      assert open[e.id := open'[e.id]] == open';
    } else {
      LedgerDrop(open, e.id, k);
    }
    hide HeldKv, HeldTokens, IsLeast, PrefillScore, DecodeScore, Charge, Discharge;
  }

  lemma HeldAtLeastZero(w: World, k: string)
    requires Anchored(w)
    ensures HeldKv(w.open, k) >= 0.0 && HeldTokens(w.open, k) >= 0.0
  {
    assert forall j :: j in w.open ==> Holds(w.s, w.open[j]);
    SumBound(w.open, 0, KvOn(k));
    SumBound(w.open, 0, TokensOn(k));
  }

  lemma PositiveFlows(w: World, e: Event, k: string)
    requires Anchored(w) && Enabled(w, e) && !IsAdmin(e)
    ensures KvIn(e, k) >= 0.0 && KvOut(w, e, k) >= 0.0 && TokensIn(w, e, k) >= 0.0 && TokensOut(w, e, k) >= 0.0
  {
    assert e.id in w.open ==> Holds(w.s, w.open[e.id]);
    if e.Begin? || e.Reserve? {
      ScoresArePositive(e.length);
    }
    hide AllHeld, IsLeast, PrefillScore, DecodeScore;
  }
}
