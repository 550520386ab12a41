/** Conservation over whole runs of the proxy, and exactly when recomputation breaks it. */
module ProxyRuns {
  import opened ProxyFlows
  import opened ProxyRequests
  import opened ProxySpec

  // ---------- the books ----------

  ghost predicate KvConserved(p: Pool, open: map<nat, Request>) {
    forall k :: k in p.servers ==> p.servers[k].kv == HeldKv(open, k) && p.servers[k].tokens == 0.0
  }

  ghost predicate TokensConserved(p: Pool, open: map<nat, Request>) {
    forall k :: k in p.servers ==> p.servers[k].tokens == HeldTokens(open, k) && p.servers[k].kv == 0.0
  }

  /** Loads are the sums of open reservations, and whatever a request names is live. */
  ghost predicate Consistent(w: World) {
    && Anchored(w) && Named(w.s.prefill) && Named(w.s.decode)
    && KvConserved(w.s.prefill, w.open) && TokensConserved(w.s.decode, w.open)
  }

  /** The event releases nothing that is not held: a recomputed request's prefiller holds no
    * KV for others at its second release, and no recomputation fails. */
  ghost predicate Balanced(w: World, e: Event)
    requires Enabled(w, e)
  {
    match e
    case RecomputeKv(id) =>
      w.open[id].prefillKey in w.s.prefill.servers && w.s.prefill.servers[w.open[id].prefillKey].kv == 0.0
    case FailRecompute(_) => false
    case _ => true
  }

  lemma IdleStaysConserved(w: World, p: Pool, p': Pool)
    requires AllHeld(w.s, w.open) && OnlyIdleAdded(p, p') && Named(p)
    ensures Named(p')
    ensures p == w.s.prefill && KvConserved(p, w.open) ==> KvConserved(p', w.open)
    ensures p == w.s.decode && TokensConserved(p, w.open) ==> TokensConserved(p', w.open)
  {
    forall k ensures k !in w.s.prefill.servers ==> HeldKv(w.open, k) == 0.0
             ensures k !in w.s.decode.servers ==> HeldTokens(w.open, k) == 0.0 {
      UnknownIsFree(w.s, w.open, k);
    }
    hide HeldKv, HeldTokens, AllHeld;
  }

  lemma AdminKeeps(w: World, e: Event)
    requires Consistent(w) && Enabled(w, e) && IsAdmin(e)
    ensures Consistent(Next(w, e))
  {
    var w' := Next(w, e);
    hide Next, Enabled, KvConserved, TokensConserved, OnlyIdleAdded, Named;
    StepAnchors(w, e);
    AdminAddsIdle(w, e);
    IdleStaysConserved(w, w.s.prefill, w'.s.prefill);
    IdleStaysConserved(w, w.s.decode, w'.s.decode);
  }

  lemma BooksOf(w: World, k: string)
    requires Consistent(w)
    ensures Anchored(w)
    ensures k in w.s.prefill.servers ==>
              k != "" && w.s.prefill.servers[k].kv == HeldKv(w.open, k) && w.s.prefill.servers[k].tokens == 0.0
    ensures k in w.s.decode.servers ==>
              k != "" && w.s.decode.servers[k].tokens == HeldTokens(w.open, k) && w.s.decode.servers[k].kv == 0.0
  {
    hide HeldKv, HeldTokens, Anchored;
  }

  /** What the step does to the books of one key. */
  lemma NextBooks(w: World, e: Event, k: string)
    requires Consistent(w) && Enabled(w, e) && !IsAdmin(e)
    ensures var w' := Next(w, e);
            k in w.s.prefill.servers ==>
              && k in w'.s.prefill.servers && w'.s.prefill.servers[k].tokens == 0.0
              && (w'.s.prefill.servers[k].kv == HeldKv(w'.open, k)
                  <==> !e.RecomputeKv? || KvOut(w, e, k) == 0.0 || w.s.prefill.servers[k].kv == 0.0)
    ensures var w' := Next(w, e);
            k in w.s.decode.servers ==>
              && k in w'.s.decode.servers && w'.s.decode.servers[k].kv == 0.0
              && (w'.s.decode.servers[k].tokens == HeldTokens(w'.open, k)
                  <==> !e.FailRecompute? || TokensOut(w, e, k) == 0.0)
  {
    hide Consistent, Anchored, Next, Enabled, HeldKv, HeldTokens, KvIn, KvOut, TokensIn, TokensOut;
    BooksOf(w, k);
    RequestAnchors(w, e);
    HoldingsMove(w, e, k);
    PositiveFlows(w, e, k);
    HeldAtLeastZero(w, k);
    HeldAtLeastZero(Next(w, e), k);
    if k in w.s.prefill.servers {
      PrefillMoves(w, e, k);
      if e.RecomputeKv? {
        NothingIn(e, k);
      }
    }
    if k in w.s.decode.servers {
      DecodeMoves(w, e, k);
    }
  }

  lemma NothingIn(e: Event, k: string)
    requires e.RecomputeKv?
    ensures KvIn(e, k) == 0.0
  {
  }

  /** No second release finds something to release. */
  ghost predicate Harmless(w: World, e: Event)
    requires Enabled(w, e)
  {
    && (e.RecomputeKv? ==> forall k :: k in w.s.prefill.servers ==>
          KvOut(w, e, k) == 0.0 || w.s.prefill.servers[k].kv == 0.0)
    && (e.FailRecompute? ==> forall k :: k in w.s.decode.servers ==> TokensOut(w, e, k) == 0.0)
  }

  lemma RequestKeepsIff(w: World, e: Event)
    requires Consistent(w) && Enabled(w, e) && !IsAdmin(e)
    ensures Consistent(Next(w, e)) <==> Harmless(w, e)
  {
    hide Anchored, Next, Enabled, HeldKv, HeldTokens, KvOut, TokensOut;
    RequestAnchors(w, e);
    RequestStepKeepsSetup(w, e);
    forall k | k in w.s.prefill.servers
      ensures var w' := Next(w, e);
              && k in w'.s.prefill.servers && w'.s.prefill.servers[k].tokens == 0.0
              && (w'.s.prefill.servers[k].kv == HeldKv(w'.open, k)
                  <==> !e.RecomputeKv? || KvOut(w, e, k) == 0.0 || w.s.prefill.servers[k].kv == 0.0)
    {
      NextBooks(w, e, k);
    }
    forall k | k in w.s.decode.servers
      ensures var w' := Next(w, e);
              && k in w'.s.decode.servers && w'.s.decode.servers[k].kv == 0.0
              && (w'.s.decode.servers[k].tokens == HeldTokens(w'.open, k)
                  <==> !e.FailRecompute? || TokensOut(w, e, k) == 0.0)
    {
      NextBooks(w, e, k);
    }
  }

  /** A second release is of a positive load, on a live server. */
  lemma HarmlessIff(w: World, e: Event)
    requires Anchored(w) && Enabled(w, e)
    ensures Harmless(w, e) <==> Balanced(w, e)
  {
    if e.RecomputeKv? {
      assert Holds(w.s, w.open[e.id]) && KvOut(w, e, w.open[e.id].prefillKey) > 0.0;
    } else if e.FailRecompute? {
      assert Holds(w.s, w.open[e.id]) && TokensOut(w, e, w.open[e.id].decodeKey) > 0.0;
    }
    hide AllHeld, IsLeast;
  }

  /** A step keeps the books if and only if it is balanced. */
  lemma StepKeepsIff(w: World, e: Event)
    requires Consistent(w) && Enabled(w, e)
    ensures Consistent(Next(w, e)) <==> Balanced(w, e)
  {
    HarmlessIff(w, e);
    assert IsAdmin(e) ==> Balanced(w, e);
    hide Consistent, Next, Enabled, Balanced, Harmless;
    if IsAdmin(e) {
      AdminKeeps(w, e);
    } else {
      RequestKeepsIff(w, e);
    }
  }

  /** A second release of a prefiller's KV keeps the books if and only if nobody holds any there. */
  lemma RecomputeKeepsIff(w: World, id: nat)
    requires Consistent(w) && Enabled(w, RecomputeKv(id))
    ensures w.open[id].prefillKey in w.s.prefill.servers
    ensures Consistent(Next(w, RecomputeKv(id))) <==> w.s.prefill.servers[w.open[id].prefillKey].kv == 0.0
  {
    assert Holds(w.s, w.open[id]);
    hide Consistent, Next;
    StepKeepsIff(w, RecomputeKv(id));
  }

  /** A failed recomputation never keeps the books: it releases the old decoder twice. */
  lemma FailedRecomputeNeverKeeps(w: World, id: nat)
    requires Consistent(w) && Enabled(w, FailRecompute(id))
    ensures !Consistent(Next(w, FailRecompute(id)))
  {
    hide Consistent, Next;
    StepKeepsIff(w, FailRecompute(id));
  }

  ghost predicate BalancedRun(w: World, es: seq<Event>)
    decreases |es|
  {
    es == [] || (Enabled(w, es[0]) && Balanced(w, es[0]) && BalancedRun(Next(w, es[0]), es[1..]))
  }

  /** The books balance in every state along the run. */
  ghost predicate AlwaysConsistent(w: World, es: seq<Event>)
    decreases |es|
  {
    Consistent(w) && (es == [] || (Enabled(w, es[0]) && AlwaysConsistent(Next(w, es[0]), es[1..])))
  }

  /** Conservation: along a run each load is always the sum of the open reservations on it, if
    * and only if every event of the run is balanced. */
  lemma {:induction false} ConservedIff(w: World, es: seq<Event>, w': World)
    requires Runs(w, es, w')
    ensures AlwaysConsistent(w, es) <==> Consistent(w) && BalancedRun(w, es)
    ensures Consistent(w) && BalancedRun(w, es) ==> Consistent(w')
    decreases |es|
  {
    hide Consistent, Next, Enabled, Balanced;
    if es != [] {
      if Consistent(w) {
        StepKeepsIff(w, es[0]);
      }
      ConservedIff(Next(w, es[0]), es[1..], w');
    }
  }

  /** In particular without recomputations. */
  lemma {:induction false} RunsStayConsistent(w: World, es: seq<Event>, w': World)
    requires Runs(w, es, w') && forall e :: e in es ==> !e.RecomputeKv? && !e.FailRecompute?
    ensures BalancedRun(w, es) && (Consistent(w) ==> Consistent(w'))
    decreases |es|
  {
    hide Consistent, Next, Enabled;
    if es != [] {
      assert es[0] in es;
      RunsStayConsistent(Next(w, es[0]), es[1..], w');
      if Consistent(w) {
        StepKeepsIff(w, es[0]);
      }
    }
  }

  ghost predicate AllIdle(p: Pool) {
    forall k :: k in p.servers ==> k != "" && p.servers[k].kv == 0.0 && p.servers[k].tokens == 0.0
  }

  lemma {:induction false} AddAllIdle(s: Sched, role: ServerRole, instances: seq<(string, int)>)
    requires AllIdle(s.prefill) && AllIdle(s.decode) && s.requestNum == 0
    ensures var t := AddAll(s, role, instances); AllIdle(t.prefill) && AllIdle(t.decode) && t.requestNum == 0
    decreases |instances|
  {
    hide ServerKey;
    if instances != [] {
      var n := |instances| - 1;
      AddAllIdle(s, role, instances[..n]);
      KeyIsNotEmpty(instances[n].0, instances[n].1);
    }
  }

  /** A freshly started proxy. */
  ghost function Started(prefillers: seq<(string, int)>, decoders: seq<(string, int)>): World {
    World(AddAll(AddAll(EMPTY, Prefill, prefillers), Decode, decoders), map[])
  }

  lemma StartedIsConsistent(prefillers: seq<(string, int)>, decoders: seq<(string, int)>)
    ensures Consistent(Started(prefillers, decoders))
  {
    AddAllIdle(EMPTY, Prefill, prefillers);
    AddAllIdle(AddAll(EMPTY, Prefill, prefillers), Decode, decoders);
    hide AddAll;
  }

  /** While the books balance, every load is exactly zero once no request is open. */
  lemma DrainedLoadsAreZero(w: World, role: ServerRole, k: string)
    requires Consistent(w) && w.open == map[] && k in w.s.Of(role).servers
    ensures w.s.requestNum == 0
    ensures w.s.Of(role).servers[k].kv == 0.0 && w.s.Of(role).servers[k].tokens == 0.0
  {
  }

  // ---------- requests leave no trace ----------

  lemma {:induction false} RequestRunKeepsSetup(w: World, es: seq<Event>, w': World)
    requires Runs(w, es, w') && forall e :: e in es ==> !IsAdmin(e)
    ensures SameSetup(w.s, w'.s)
    decreases |es|
  {
    if es != [] {
      RequestStepKeepsSetup(w, es[0]);
      RequestRunKeepsSetup(Next(w, es[0]), es[1..], w');
    }
  }

  /** The books determine the loads. */
  lemma SameBooks(w: World, w': World)
    requires Consistent(w) && Consistent(w') && SameSetup(w.s, w'.s) && w'.open == w.open
    ensures w' == w
  {
    hide Consistent, HeldKv, HeldTokens;
    forall k | k in w.s.prefill.servers ensures w'.s.prefill.servers[k] == w.s.prefill.servers[k] {
      BooksOf(w, k);
      BooksOf(w', k);
    }
    forall k | k in w.s.decode.servers ensures w'.s.decode.servers[k] == w.s.decode.servers[k] {
      BooksOf(w, k);
      BooksOf(w', k);
    }
    assert w'.s.prefill.servers == w.s.prefill.servers && w'.s.decode.servers == w.s.decode.servers;
    BooksOf(w, "");
    BooksOf(w', "");
    assert w'.s.requestNum == w.s.requestNum;
  }

  /** However requests interleave, once the requests opened since are closed again the
    * scheduler is back where it was.  Aborts and completions are special cases. */
  lemma RequestsLeaveNoTrace(w: World, es: seq<Event>, w': World)
    requires Consistent(w) && Runs(w, es, w') && forall e :: e in es ==> !IsAdmin(e)
    ensures BalancedRun(w, es) && w'.open == w.open ==> w' == w
  {
    hide Consistent, Runs, BalancedRun, AlwaysConsistent, SameSetup;
    ConservedIff(w, es, w');
    RequestRunKeepsSetup(w, es, w');
    if BalancedRun(w, es) && w'.open == w.open {
      SameBooks(w, w');
    }
  }

  /** A request aborted before its decoder pick leaves the scheduler as it found it, whatever
    * other requests did and undid in between. */
  lemma AbortRestores(w: World, id: nat, length: nat, key: string, es: seq<Event>, w': World)
    requires Consistent(w) && Runs(w, [Begin(id, length, key)] + es + [AbortPrefill(id)], w')
    requires forall e :: e in es ==> !IsAdmin(e) && !e.RecomputeKv? && !e.FailRecompute?
    requires w'.open == w.open
    ensures w' == w
  {
    var all := [Begin(id, length, key)] + es + [AbortPrefill(id)];
    assert forall e :: e in all ==> !IsAdmin(e) && !e.RecomputeKv? && !e.FailRecompute?;
    hide Consistent, Runs, BalancedRun;
    RunsStayConsistent(w, all, w');
    RequestsLeaveNoTrace(w, all, w');
  }

  // ---------- recomputation ----------

  /** A whole recomputation keeps the books if nobody else holds KV on its prefiller. */
  lemma RecomputationKeeps(w: World, id: nat, length: nat, key: string, decoder: string, w': World)
    requires Consistent(w)
    requires Runs(w, [RecomputeKv(id), RecomputeDecoder(id), Reserve(id, length, key), PickDecoder(id, decoder)], w')
    requires w.open[id].prefillKey in w.s.prefill.servers && w.s.prefill.servers[w.open[id].prefillKey].kv == 0.0
    ensures Consistent(w')
  {
    hide Consistent, Next, Enabled;
    var es := [RecomputeKv(id), RecomputeDecoder(id), Reserve(id, length, key), PickDecoder(id, decoder)];
    StepKeepsIff(w, es[0]);
    RunsStayConsistent(Next(w, es[0]), es[1..], w');
  }
}
