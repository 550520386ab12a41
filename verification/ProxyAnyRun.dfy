/** What every run of the proxy keeps, however often requests are recomputed or fail at it. */
module ProxyAnyRun {
  import opened ProxyFlows
  import opened ProxyRequests
  import opened ProxyRuns
  import opened ProxySpec

  // ---------- busy servers stay ----------

  /** A server leaves a pool only by a removal or a drain, and only when no request is open. */
  lemma BusyServersStay(w: World, e: Event, role: ServerRole)
    requires Anchored(w) && Enabled(w, e)
    ensures w.open != map[] || (!e.Remove? && !e.Finalize?) ==>
              w.s.Of(role).servers.Keys <= Next(w, e).s.Of(role).servers.Keys
  {
    assert w.open != map[] ==> w.s.requestNum > 0;
    hide Anchored, Enabled, Next;
    if !IsAdmin(e) {
      RequestStepKeepsSetup(w, e);
    } else if w.open != map[] || (!e.Remove? && !e.Finalize?) {
      AdminKeepsServers(w, e, role);
    }
  }

  // ---------- recomputation can only under-count ----------

  ghost predicate KvUnder(p: Pool, open: map<nat, Request>) {
    forall k :: k in p.servers ==> 0.0 <= p.servers[k].kv <= HeldKv(open, k) && p.servers[k].tokens == 0.0
  }

  ghost predicate TokensUnder(p: Pool, open: map<nat, Request>) {
    forall k :: k in p.servers ==> p.servers[k].tokens <= HeldTokens(open, k) && p.servers[k].kv == 0.0
  }

  /** No load is above what is held, and no KV load is negative. */
  ghost predicate UnderCounted(w: World) {
    && Anchored(w) && Named(w.s.prefill) && Named(w.s.decode)
    && KvUnder(w.s.prefill, w.open) && TokensUnder(w.s.decode, w.open)
  }

  lemma RequestUnderCounts(w: World, e: Event)
    requires UnderCounted(w) && Enabled(w, e) && !IsAdmin(e)
    ensures KvUnder(Next(w, e).s.prefill, Next(w, e).open) && TokensUnder(Next(w, e).s.decode, Next(w, e).open)
    ensures Named(Next(w, e).s.prefill) && Named(Next(w, e).s.decode)
  {
    hide Anchored, Next, Enabled, HeldKv, HeldTokens, KvIn, KvOut, TokensIn, TokensOut;
    RequestStepKeepsSetup(w, e);
    RequestAnchors(w, e);
    var p, q, open := Next(w, e).s.prefill, Next(w, e).s.decode, Next(w, e).open;
    forall k | k in p.servers ensures 0.0 <= p.servers[k].kv <= HeldKv(open, k) && p.servers[k].tokens == 0.0 {
      PrefillMoves(w, e, k);
      HoldingsMove(w, e, k);
      HeldAtLeastZero(Next(w, e), k);
      PositiveFlows(w, e, k);
    }
    forall k | k in q.servers ensures q.servers[k].tokens <= HeldTokens(open, k) && q.servers[k].kv == 0.0 {
      DecodeMoves(w, e, k);
      HoldingsMove(w, e, k);
      PositiveFlows(w, e, k);
    }
  }

  lemma IdleStaysUnder(p: Pool, p': Pool, open: map<nat, Request>)
    requires OnlyIdleAdded(p, p') && Named(p)
    requires forall k :: HeldKv(open, k) >= 0.0 && HeldTokens(open, k) >= 0.0
    ensures Named(p')
    ensures KvUnder(p, open) ==> KvUnder(p', open)
    ensures TokensUnder(p, open) ==> TokensUnder(p', open)
  {
    hide HeldKv, HeldTokens;
  }

  lemma {:induction false} RunUnderCounts(w: World, es: seq<Event>, w': World)
    requires UnderCounted(w) && Runs(w, es, w')
    ensures UnderCounted(w')
    decreases |es|
  {
    hide Anchored, Next, Enabled, HeldKv, HeldTokens, KvUnder, TokensUnder, OnlyIdleAdded, Named;
    if es != [] {
      var e, next := es[0], Next(w, es[0]);
      StepAnchors(w, e);
      if IsAdmin(e) {
        AdminAddsIdle(w, e);
        forall k ensures HeldKv(next.open, k) >= 0.0 && HeldTokens(next.open, k) >= 0.0 {
          HeldAtLeastZero(next, k);
        }
        IdleStaysUnder(w.s.prefill, next.s.prefill, w.open);
        IdleStaysUnder(w.s.decode, next.s.decode, w.open);
      } else {
        RequestUnderCounts(w, e);
      }
      RunUnderCounts(next, es[1..], w');
    }
  }

  lemma ConsistentIsUnderCounted(w: World)
    requires Consistent(w)
    ensures UnderCounted(w)
  {
    forall k ensures HeldKv(w.open, k) >= 0.0 {
      HeldAtLeastZero(w, k);
    }
    hide Anchored, HeldKv, HeldTokens;
  }

  /** In every run of a freshly started proxy, recomputations and their failures included, the
    * request count is the number of open requests, the servers that they name are live, a
    * recorded load is at most what is held, no KV load falls below zero, and no step removes
    * a server while a request is open.  If the run is balanced, the loads are exactly what is
    * held. */
  lemma EveryRunKeeps(prefillers: seq<(string, int)>, decoders: seq<(string, int)>, es: seq<Event>, w: World)
    requires Runs(Started(prefillers, decoders), es, w)
    ensures UnderCounted(w)
    ensures BalancedRun(Started(prefillers, decoders), es) ==> Consistent(w)
    ensures forall e, role: ServerRole :: Enabled(w, e) && w.open != map[] ==>
              w.s.Of(role).servers.Keys <= Next(w, e).s.Of(role).servers.Keys
  {
    StartedIsConsistent(prefillers, decoders);
    ConsistentIsUnderCounted(Started(prefillers, decoders));
    hide Consistent, Anchored, Enabled, Next, KvUnder, TokensUnder, BalancedRun, AlwaysConsistent;
    ConservedIff(Started(prefillers, decoders), es, w);
    RunUnderCounts(Started(prefillers, decoders), es, w);
    forall e, role: ServerRole | Enabled(w, e) && w.open != map[]
      ensures w.s.Of(role).servers.Keys <= Next(w, e).s.Of(role).servers.Keys
    {
      BusyServersStay(w, e, role);
    }
  }

  /** Once drained, no KV is recorded, and a decoder records at most zero tokens. */
  lemma DrainedInAnyRun(w: World)
    requires UnderCounted(w) && w.open == map[]
    ensures w.s.requestNum == 0
    ensures forall k :: k in w.s.prefill.servers ==> w.s.prefill.servers[k].kv == 0.0
    ensures forall k :: k in w.s.decode.servers ==> w.s.decode.servers[k].tokens <= 0.0
  {
    assert forall k :: HeldKv(map[], k) == 0.0 && HeldTokens(map[], k) == 0.0;
    hide HeldKv, HeldTokens, Anchored;
  }

  /** What failed recomputations along the run release a second time on decoder `k`. */
  ghost function LostTokens(w: World, es: seq<Event>, k: string): real
    decreases |es|
  {
    if es == [] || !Enabled(w, es[0]) then 0.0
    else (if es[0].FailRecompute? then TokensOut(w, es[0], k) else 0.0) + LostTokens(Next(w, es[0]), es[1..], k)
  }

  /** By how much exactly a decoder under-counts: what failed recomputations released twice. */
  lemma {:induction false} TokensDriftExactly(w: World, es: seq<Event>, w': World, k: string)
    requires Anchored(w) && Runs(w, es, w') && k in w.s.decode.servers && k != ""
    requires forall e :: e in es ==> !e.Remove? && !e.Finalize?
    ensures k in w'.s.decode.servers
    ensures HeldTokens(w'.open, k) - w'.s.decode.servers[k].tokens
         == HeldTokens(w.open, k) - w.s.decode.servers[k].tokens + LostTokens(w, es, k)
    decreases |es|
  {
    hide Anchored, Next, Enabled, HeldKv, HeldTokens, TokensOut;
    if es != [] {
      assert es[0] in es;
      StepAnchors(w, es[0]);
      if IsAdmin(es[0]) {
        AdminAddsIdle(w, es[0]);
        AdminKeepsServers(w, es[0], Decode);
      } else {
        DecodeMoves(w, es[0], k);
        HoldingsMove(w, es[0], k);
      }
      TokensDriftExactly(Next(w, es[0]), es[1..], w', k);
    }
  }

  // ---------- the clamps at zero ----------

  /** Except for the second releases of a recomputation, an event releases what its request holds. */
  lemma ReleasesAreHeld(w: World, e: Event, k: string)
    requires Consistent(w) && Enabled(w, e) && !IsAdmin(e)
    ensures k in w.s.prefill.servers && !e.RecomputeKv? ==> KvOut(w, e, k) <= w.s.prefill.servers[k].kv
    ensures k in w.s.decode.servers && !e.FailRecompute? ==> TokensOut(w, e, k) <= w.s.decode.servers[k].tokens
  {
    HeldAtLeastZero(w, k);
    if !e.Begin? {
      LedgerBound(w.s, w.open, e.id, k);
    }
    hide HeldKv, HeldTokens, AllHeld, IsLeast;
  }

  /** While the books balance, the KV clamp takes effect exactly when a recomputation releases
    * more than its prefiller still records; that of the request count never does; and only a
    * failed recomputation may release more tokens than are recorded. */
  lemma ClampsIff(w: World, e: Event)
    requires Consistent(w) && Enabled(w, e) && !IsAdmin(e)
    ensures !e.Begin? ==> w.s.requestNum > 0
    ensures !e.FailRecompute? ==> forall k :: k in w.s.decode.servers ==>
              TokensOut(w, e, k) <= w.s.decode.servers[k].tokens
    ensures e.RecomputeKv? ==> w.open[e.id].prefillKey in w.s.prefill.servers
    ensures (exists k :: k in w.s.prefill.servers && KvOut(w, e, k) > w.s.prefill.servers[k].kv)
       <==> e.RecomputeKv? && w.s.prefill.servers[w.open[e.id].prefillKey].kv < w.open[e.id].prefillLoad
  {
    forall k
      ensures k in w.s.prefill.servers && !e.RecomputeKv? ==> KvOut(w, e, k) <= w.s.prefill.servers[k].kv
      ensures k in w.s.decode.servers && !e.FailRecompute? ==> TokensOut(w, e, k) <= w.s.decode.servers[k].tokens
    {
      ReleasesAreHeld(w, e, k);
    }
    if e.RecomputeKv? {
      assert Holds(w.s, w.open[e.id]);
      HeldKvIsZeroAtLeast(w);
      assert KvOut(w, e, w.open[e.id].prefillKey) == w.open[e.id].prefillLoad;
    }
    hide HeldKv, HeldTokens, IsLeast, TokensOut;
  }

  lemma HeldKvIsZeroAtLeast(w: World)
    requires Consistent(w)
    ensures forall k :: k in w.s.prefill.servers ==> w.s.prefill.servers[k].kv >= 0.0
  {
    forall k | k in w.s.prefill.servers ensures HeldKv(w.open, k) >= 0.0 {
      HeldAtLeastZero(w, k);
    }
    hide HeldKv, HeldTokens;
  }

  // ---------- when an activation can fail ----------

  /** Only live servers are tainted. */
  ghost predicate TaintsAreLive(s: Sched) {
    s.prefill.tainted <= s.prefill.servers.Keys && s.decode.tainted <= s.decode.servers.Keys
  }

  /** A removal under traffic that names a key which is not live. */
  ghost predicate BlindRemoval(w: World, e: Event) {
    && e.Remove? && w.s.requestNum > 0
    && exists i :: i in e.instances && ServerKey(i.0, i.1) !in w.s.Of(e.role).servers
  }

  lemma TaintsStayLiveIff(w: World, e: Event)
    requires TaintsAreLive(w.s) && Enabled(w, e)
    ensures TaintsAreLive(Next(w, e).s) <==> !BlindRemoval(w, e)
  {
    if !IsAdmin(e) {
      RequestStepKeepsSetup(w, e);
      hide Enabled, Next;
    } else if e.AddNodes? {
      AddedOnlyWaits(w.s, e.role, e.instances);
      hide InstancesAdded;
    } else if e.Remove? {
      RemovalTaints(w.s, e.role, e.instances);
    }
  }

  lemma RemovalTaints(s: Sched, role: ServerRole, instances: seq<(string, int)>)
    requires TaintsAreLive(s)
    ensures TaintsAreLive(InstancesRemoved(s, role, instances))
       <==> s.requestNum == 0 || forall i :: i in instances ==> ServerKey(i.0, i.1) in s.Of(role).servers
  {
    hide ServerKey;
    forall i | i in instances ensures ServerKey(i.0, i.1) in Keys(instances) {
    }
  }

  /** Along the run only live servers are ever tainted. */
  ghost predicate AlwaysLiveTaints(w: World, es: seq<Event>)
    decreases |es|
  {
    TaintsAreLive(w.s) && (es == [] || (Enabled(w, es[0]) && AlwaysLiveTaints(Next(w, es[0]), es[1..])))
  }

  ghost predicate NoBlindRemoval(w: World, es: seq<Event>)
    decreases |es|
  {
    es == [] || (Enabled(w, es[0]) && !BlindRemoval(w, es[0]) && NoBlindRemoval(Next(w, es[0]), es[1..]))
  }

  lemma {:induction false} LiveTaintsIff(w: World, es: seq<Event>, w': World)
    requires TaintsAreLive(w.s) && Runs(w, es, w')
    ensures AlwaysLiveTaints(w, es) <==> NoBlindRemoval(w, es)
    ensures NoBlindRemoval(w, es) ==> TaintsAreLive(w'.s)
    decreases |es|
  {
    hide TaintsAreLive, BlindRemoval, Next, Enabled;
    if es != [] {
      TaintsStayLiveIff(w, es[0]);
      if TaintsAreLive(Next(w, es[0]).s) {
        LiveTaintsIff(Next(w, es[0]), es[1..], w');
      }
    }
  }

  lemma {:induction false} AddAllTaintsNothing(s: Sched, role: ServerRole, instances: seq<(string, int)>)
    ensures AddAll(s, role, instances).prefill.tainted == s.prefill.tainted
    ensures AddAll(s, role, instances).decode.tainted == s.decode.tainted
    decreases |instances|
  {
    if instances != [] {
      AddAllTaintsNothing(s, role, instances[..|instances| - 1]);
    }
  }

  /** An activation can fail only after some removal under traffic named a key that was not live. */
  lemma ActivationNeedsBlindRemoval(prefillers: seq<(string, int)>, decoders: seq<(string, int)>, es: seq<Event>,
                                    w: World, role: ServerRole, host: string, port: int)
    requires Runs(Started(prefillers, decoders), es, w) && ActivationFails(w.s, role, host, port)
    ensures !NoBlindRemoval(Started(prefillers, decoders), es)
  {
    AddAllTaintsNothing(EMPTY, Prefill, prefillers);
    AddAllTaintsNothing(AddAll(EMPTY, Prefill, prefillers), Decode, decoders);
    assert TaintsAreLive(Started(prefillers, decoders).s);
    hide AddAll, ServerKey, Runs, NoBlindRemoval;
    LiveTaintsIff(Started(prefillers, decoders), es, w);
  }
}
