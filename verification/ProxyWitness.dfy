/** Concrete runs of the proxy in which recomputation leaves the books out of balance. */
module ProxyWitness {
  import opened ProxyRequests
  import opened ProxyRuns
  import opened ProxySpec

  /** The scheduler with the given loads on its two servers. */
  function Loads(kv: real, tokens: real, requests: nat): Sched {
    Sched(Pool(map["p:1" := Server("p", 1, 0, 0.0, kv)], {}), Pool(map["d:2" := Server("d", 2, 1, tokens, 0.0)], {}),
          map[], requests, 2)
  }

  const LENGTH: nat := 29  // of the body {"prompt":"a","max_tokens":1}
  const AGAIN: nat := 33  // of the body {"prompt": "ab", "max_tokens": 1}, as it is rewritten
  const KV := PrefillScore(LENGTH)
  const KV_AGAIN := PrefillScore(AGAIN)
  const TOKENS := DecodeScore(LENGTH)
  const TOKENS_AGAIN := DecodeScore(AGAIN)

  lemma {:induction false} RunsOnce(w: World, es: seq<Event>, w': World, e: Event)
    requires Runs(w, es, w') && Enabled(w', e)
    ensures Runs(w, es + [e], Next(w', e))
    decreases |es|
  {
    hide Enabled, Next;
    var all := es + [e];
    if es == [] {
      assert all[1..] == [];
    } else {
      assert all[1..] == es[1..] + [e];
      RunsOnce(Next(w, es[0]), es[1..], w', e);
    }
  }

  /** A freshly started proxy with one prefiller and one decoder. */
  ghost function Fresh(): World {
    Started([("p", 1)], [("d", 2)])
  }

  lemma FreshIs()
    ensures Fresh() == World(Loads(0.0, 0.0, 0), map[])
  {
    assert ServerKey("p", 1) == "p:1" && ServerKey("d", 2) == "d:2";
    var one := AddAll(EMPTY, Prefill, [("p", 1)]);
    assert [("p", 1)][..0] == [] && AddAll(EMPTY, Prefill, []) == EMPTY;
    assert one == AddServerTo(EMPTY, Prefill, "p", 1);
    assert [("d", 2)][..0] == [] && AddAll(one, Decode, []) == one;
    assert AddAll(one, Decode, [("d", 2)]) == AddServerTo(one, Decode, "d", 2);
  }

  /** A run of the fresh proxy leads here. */
  ghost predicate Reachable(w: World) {
    exists es :: Runs(Fresh(), es, w)
  }

  lemma Goes(w: World, e: Event, w': World)
    requires Reachable(w) && Enabled(w, e) && w' == Next(w, e)
    ensures Reachable(w')
  {
    hide Runs, Enabled, Next, Fresh;
    var es :| Runs(Fresh(), es, w);
    RunsOnce(Fresh(), es, w, e);
  }

  lemma OnlyServers(kv: real, tokens: real, requests: nat)
    ensures IsLeast(Prefill, Loads(kv, tokens, requests).prefill, "p:1")
    ensures IsLeast(Decode, Loads(kv, tokens, requests).decode, "d:2")
  {
  }

  const FIRST := Prefilling("p:1", KV, TOKENS)
  const SERVED := Decoding("p:1", KV, "d:2", TOKENS, false)
  const STREAMING := Decoding("p:1", KV, "d:2", TOKENS, true)
  const RELEASED := Recomputing("p:1", KV, "d:2", TOKENS, false)
  const FREED := Recomputing("p:1", KV, "d:2", TOKENS, true)
  const RESELECTING := Reselecting("p:1", KV, "d:2", TOKENS, "p:1", KV_AGAIN, TOKENS_AGAIN)

  lemma Starts()
    ensures Reachable(World(Loads(0.0, 0.0, 0), map[]))
  {
    FreshIs();
    hide Fresh;
    assert Runs(Fresh(), [], Fresh());
  }

  lemma Streams()
    ensures Reachable(World(Loads(0.0, TOKENS, 1), map[0 := STREAMING]))
  {
    Starts();
    hide Reachable, IsLeast;
    OnlyServers(0.0, 0.0, 0);
    OnlyServers(KV, 0.0, 1);
    Goes(World(Loads(0.0, 0.0, 0), map[]), Begin(0, LENGTH, "p:1"), World(Loads(KV, 0.0, 1), map[0 := FIRST]));
    Goes(World(Loads(KV, 0.0, 1), map[0 := FIRST]), PickDecoder(0, "d:2"),
         World(Loads(KV, TOKENS, 1), map[0 := SERVED]));
    Goes(World(Loads(KV, TOKENS, 1), map[0 := SERVED]), FirstChunk(0),
         World(Loads(0.0, TOKENS, 1), map[0 := STREAMING]));
  }

  lemma SecondHolds()
    ensures HeldKv(map[0 := RELEASED, 1 := FIRST], "p:1") == KV
  {
    var one: map<nat, Request> := map[0 := RELEASED];
    LedgerSet(one, 1, FIRST, "p:1");
    LedgerSet(map[], 0, RELEASED, "p:1");
    assert map[][0 := RELEASED] == one && one[1 := FIRST] == map[0 := RELEASED, 1 := FIRST];
  }

  lemma SecondArrives()
    ensures Reachable(World(Loads(KV, TOKENS, 2), map[0 := STREAMING, 1 := FIRST]))
  {
    Streams();
    OnlyServers(0.0, TOKENS, 1);
    hide Reachable, IsLeast;
    Goes(World(Loads(0.0, TOKENS, 1), map[0 := STREAMING]), Begin(1, LENGTH, "p:1"),
         World(Loads(KV, TOKENS, 2), map[0 := STREAMING, 1 := FIRST]));
  }

  /** A reachable under-count: after the first request is recomputed, its prefiller counts
    * no KV although the second request still holds some there. */
  lemma UnderCountingRun()
    ensures Reachable(World(Loads(0.0, TOKENS, 2), map[0 := RELEASED, 1 := FIRST]))
    ensures HeldKv(map[0 := RELEASED, 1 := FIRST], "p:1") == KV > 0.0
  {
    SecondHolds();
    SecondArrives();
    hide Reachable, HeldKv;
    Goes(World(Loads(KV, TOKENS, 2), map[0 := STREAMING, 1 := FIRST]), RecomputeKv(0),
         World(Loads(0.0, TOKENS, 2), map[0 := RELEASED, 1 := FIRST]));
  }

  lemma Frees()
    ensures Reachable(World(Loads(0.0, 0.0, 1), map[0 := FREED]))
  {
    Streams();
    hide Reachable, IsLeast;
    Goes(World(Loads(0.0, TOKENS, 1), map[0 := STREAMING]), RecomputeKv(0),
         World(Loads(0.0, TOKENS, 1), map[0 := RELEASED]));
    Goes(World(Loads(0.0, TOKENS, 1), map[0 := RELEASED]), RecomputeDecoder(0),
         World(Loads(0.0, 0.0, 1), map[0 := FREED]));
  }

  /** A reachable double release: after a failed recomputation no request is open, and the
    * decoder's tokens are below zero. */
  lemma FailedRecomputeRun()
    ensures Reachable(World(Loads(0.0, -TOKENS, 0), map[])) && TOKENS > 0.0
  {
    Frees();
    hide Reachable, IsLeast;
    OnlyServers(0.0, 0.0, 1);
    Goes(World(Loads(0.0, 0.0, 1), map[0 := FREED]), Reserve(0, AGAIN, "p:1"),
         World(Loads(KV_AGAIN, 0.0, 1), map[0 := RESELECTING]));
    Goes(World(Loads(KV_AGAIN, 0.0, 1), map[0 := RESELECTING]), AbortReselect(0),
         World(Loads(0.0, 0.0, 1), map[0 := FREED]));
    Goes(World(Loads(0.0, 0.0, 1), map[0 := FREED]), FailRecompute(0), World(Loads(0.0, -TOKENS, 0), map[]));
  }

  /** A reachable state in which an activation fails: a node that was never live has been
    * removed under traffic. */
  lemma FailingActivationRun()
    ensures exists w :: Reachable(w) && ActivationFails(w.s, Decode, "x", 9)
  {
    Starts();
    OnlyServers(0.0, 0.0, 0);
    var w, e := World(Loads(KV, 0.0, 1), map[0 := FIRST]), Remove(Decode, [("x", 9)]);
    assert ServerKey("x", 9) == "x:9";
    TaintingUnknownBlocksActivation(w.s, Decode, "x", 9);
    assert Next(w, e).s == InstancesRemoved(w.s, Decode, [("x", 9)]);
    hide Reachable, IsLeast, ServerKey, InstancesRemoved, ActivationFails;
    Goes(World(Loads(0.0, 0.0, 0), map[]), Begin(0, LENGTH, "p:1"), w);
    Goes(w, e, Next(w, e));
  }
}
