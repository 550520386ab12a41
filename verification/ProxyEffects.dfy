/** What the proxy's events bring about, in terms of loads, nodes and keys. */
module ProxyEffects {
  import opened Decimals
  import opened ProxyAnyRun
  import opened ProxyFlows
  import opened ProxyRequests
  import opened ProxyRuns
  import opened ProxySpec
  import opened Wrappers

  // ---------- the lightest server is picked ----------

  /** `k` goes before `j` when loads decide, and the one that joined first when they are equal. */
  predicate Before(load: real, ordinal: nat, load': real, ordinal': nat) {
    load < load' || (load == load' && ordinal < ordinal')
  }

  /** Whoever starts or restarts a prefill gets the prefiller with the least KV load, the one
    * that joined first among equals.  A tainted one is taken only when no other is left whose
    * priority is below the taint's. */
  lemma LightestPrefiller(w: World, e: Event, j: string)
    requires UnderCounted(w) && Enabled(w, e) && (e.Begin? || e.Reserve?)
    requires j in w.s.prefill.servers && j != e.key
    ensures e.key in w.s.prefill.servers
    ensures var p := w.s.prefill;
            var k, other := p.servers[e.key], p.servers[j];
            && (e.key !in p.tainted && j !in p.tainted ==> Before(k.kv, k.ordinal, other.kv, other.ordinal))
            && (e.key in p.tainted && j in p.tainted ==> k.ordinal < other.ordinal)
            && (e.key in p.tainted && j !in p.tainted ==> other.kv * 0.3 >= 1000000000000000.0)
  {
    assert Ahead(Prefill, w.s.prefill, e.key, j);
    hide HeldKv, HeldTokens, AllHeld, TokensUnder;
  }

  /** Whoever picks a decoder gets the one with the fewest tokens. */
  lemma LightestDecoder(w: World, e: Event, j: string)
    requires Enabled(w, e) && e.PickDecoder? && j in w.s.decode.servers && j != e.key
    ensures e.key in w.s.decode.servers
    ensures var p := w.s.decode;
            var k, other := p.servers[e.key], p.servers[j];
            && (e.key !in p.tainted && j !in p.tainted ==> Before(k.tokens, k.ordinal, other.tokens, other.ordinal))
            && (e.key in p.tainted && j in p.tainted ==> k.ordinal < other.ordinal)
            && (e.key in p.tainted && j !in p.tainted ==> other.tokens >= 1000000000000000.0)
  {
    assert Ahead(Decode, w.s.decode, e.key, j);
  }

  /** In no run of a freshly started proxy does a request go to an untainted server while a
    * lighter untainted one is live. */
  lemma EveryPickIsLightest(prefillers: seq<(string, int)>, decoders: seq<(string, int)>, es: seq<Event>, w: World,
                            e: Event, j: string)
    requires Runs(Started(prefillers, decoders), es, w) && Enabled(w, e)
    ensures (e.Begin? || e.Reserve?) && j in w.s.prefill.servers && {e.key, j} !! w.s.prefill.tainted ==>
              e.key in w.s.prefill.servers && w.s.prefill.servers[e.key].kv <= w.s.prefill.servers[j].kv
    ensures e.PickDecoder? && j in w.s.decode.servers && {e.key, j} !! w.s.decode.tainted ==>
              e.key in w.s.decode.servers && w.s.decode.servers[e.key].tokens <= w.s.decode.servers[j].tokens
  {
    hide UnderCounted, Enabled, IsLeast, Started;
    EveryRunKeeps(prefillers, decoders, es, w);
    if (e.Begin? || e.Reserve?) && j in w.s.prefill.servers && j != e.key {
      LightestPrefiller(w, e, j);
    }
    if e.PickDecoder? && j in w.s.decode.servers && j != e.key {
      LightestDecoder(w, e, j);
    }
  }

  // ---------- what a request charges ----------

  lemma PickIsLive(w: World, e: Event)
    requires Enabled(w, e)
    ensures e.Begin? || e.Reserve? ==> e.key in w.s.prefill.servers
    ensures e.PickDecoder? ==> e.key in w.s.decode.servers
  {
  }

  /** A prefill reserves a fixed amount of KV and 0.0345 for every four bytes of its body; its
    * decoder will be charged one token per byte.  No other server's load changes. */
  lemma ReservationIs(w: World, e: Event)
    requires Enabled(w, e) && (e.Begin? || e.Reserve?)
    ensures var u := Next(w, e);
            var p, q := w.s.prefill.servers, u.s.prefill.servers;
            && q.Keys == p.Keys && e.id in u.open && u.s.decode == w.s.decode
            && q[e.key].kv == p[e.key].kv + 120.0745 + 0.0345 * e.length as real / 4.0
            && q[e.key].tokens == p[e.key].tokens && (forall k :: k in p && k != e.key ==> q[k] == p[k])
            && u.s.requestNum == w.s.requestNum + (if e.Begin? then 1 else 0)
            && NextDecodeLoad(u.open[e.id]) == e.length as real
  {
    RequestStepKeepsSetup(w, e);
    PickIsLive(w, e);
    hide IsLeast;
  }

  lemma PickIs(w: World, e: Event)
    requires Enabled(w, e) && e.PickDecoder?
    ensures var u := Next(w, e);
            var p, q := w.s.decode.servers, u.s.decode.servers;
            && q.Keys == p.Keys && u.s.prefill == w.s.prefill && u.s.requestNum == w.s.requestNum
            && q[e.key].tokens == p[e.key].tokens + NextDecodeLoad(w.open[e.id]) && q[e.key].kv == p[e.key].kv
            && forall k :: k in p && k != e.key ==> q[k] == p[k]
  {
    RequestStepKeepsSetup(w, e);
    PickIsLive(w, e);
    hide IsLeast;
  }

  /** Reserved KV and charged tokens are given back in full. */
  lemma ChargeAndDischarge(p: Pool, k: string, load: real, tokens: bool, kv: bool)
    requires k in p.servers && k != "" && p.servers[k].kv >= 0.0 && load >= 0.0
    ensures Discharge(Charge(p, k, load, tokens, kv), Some(k), load, tokens, kv) == p
  {
    var back := Discharge(Charge(p, k, load, tokens, kv), Some(k), load, tokens, kv);
    assert back.servers == p.servers;
  }

  lemma LoadsAreAtLeastZero(w: World)
    requires UnderCounted(w)
    ensures forall k :: k in w.s.prefill.servers ==> k != "" && w.s.prefill.servers[k].kv >= 0.0
    ensures forall k :: k in w.s.decode.servers ==> k != "" && w.s.decode.servers[k].kv == 0.0
  {
    hide HeldKv, HeldTokens, Anchored;
  }

  lemma StartIs(w: World, id: nat, length: nat, p: string, d: string)
    requires Enabled(w, Begin(id, length, p)) && IsLeast(Decode, w.s.decode, d)
    ensures Enabled(Next(w, Begin(id, length, p)), PickDecoder(id, d))
    ensures Next(Next(w, Begin(id, length, p)), PickDecoder(id, d))
         == World(w.s.(prefill := Charge(w.s.prefill, p, PrefillScore(length), false, true),
                       decode := Charge(w.s.decode, d, DecodeScore(length), true, false),
                       requestNum := w.s.requestNum + 1),
                  w.open[id := Decoding(p, PrefillScore(length), d, DecodeScore(length), false)])
  {
    hide IsLeast, Charge, PrefillScore, DecodeScore;
  }

  lemma EndIs(w: World, id: nat)
    requires id in w.open && w.open[id].Decoding? && !w.open[id].kvReleased
    ensures Enabled(w, FirstChunk(id)) && Enabled(Next(w, FirstChunk(id)), Finish(id))
    ensures var r := w.open[id];
            var released := Discharge(w.s.prefill, Some(r.prefillKey), r.prefillLoad, false, true);
            && Next(w, FirstChunk(id)).s == w.s.(prefill := released)
            && Next(Next(w, FirstChunk(id)), Finish(id))
               == World(w.s.(prefill := released,
                             decode := Discharge(w.s.decode, Some(r.decodeKey), r.decodeLoad, true, false),
                             requestNum := if w.s.requestNum == 0 then 0 else w.s.requestNum - 1), w.open - {id})
  {
    hide Discharge;
    assert Next(w, FirstChunk(id)).open - {id} == w.open - {id};
  }

  lemma IsNew(w: World, id: nat, length: nat, p: string, d: string)
    requires Enabled(w, Begin(id, length, p)) && IsLeast(Decode, w.s.decode, d)
    ensures id !in w.open && length >= 1 && p in w.s.prefill.servers && d in w.s.decode.servers
  {
  }

  /** The life of a request that nothing disturbs: KV from its start to its first chunk, tokens
    * from its decoder's pick to its end, and then no trace. */
  lemma LifeOfRequest(w: World, id: nat, length: nat, p: string, d: string)
    requires UnderCounted(w) && Enabled(w, Begin(id, length, p)) && IsLeast(Decode, w.s.decode, d)
    ensures Enabled(Next(w, Begin(id, length, p)), PickDecoder(id, d))
    ensures var picked := Next(Next(w, Begin(id, length, p)), PickDecoder(id, d));
            && Enabled(picked, FirstChunk(id)) && Enabled(Next(picked, FirstChunk(id)), Finish(id))
            && p in w.s.prefill.servers && p in picked.s.prefill.servers
            && picked.s.prefill.servers[p].kv == w.s.prefill.servers[p].kv + 120.0745 + 0.0345 * length as real / 4.0
            && d in w.s.decode.servers && d in picked.s.decode.servers
            && picked.s.decode.servers[d].tokens == w.s.decode.servers[d].tokens + length as real
            && Next(picked, FirstChunk(id)).s.prefill == w.s.prefill
            && Next(picked, FirstChunk(id)).s.decode == picked.s.decode
            && Next(Next(picked, FirstChunk(id)), Finish(id)) == w
  {
    hide UnderCounted, Enabled, Next, IsLeast, Discharge;
    IsNew(w, id, length, p, d);
    LoadsAreAtLeastZero(w);
    ScoresArePositive(length);
    StartIs(w, id, length, p, d);
    EndIs(Next(Next(w, Begin(id, length, p)), PickDecoder(id, d)), id);
    ChargeAndDischarge(w.s.prefill, p, PrefillScore(length), false, true);
    ChargeAndDischarge(w.s.decode, d, DecodeScore(length), true, false);
    assert w.open[id := Decoding(p, PrefillScore(length), d, DecodeScore(length), false)] - {id} == w.open;
  }

  // ---------- administration ----------

  /** A node that is activated joins idle under the next ordinal, unless it is live already; a
    * live tainted one is taken back.  It no longer waits, and no other server changes. */
  lemma ActivationIs(s: Sched, role: ServerRole, host: string, port: int)
    requires !ActivationFails(s, role, host, port)
    ensures var k, p, t := ServerKey(host, port), s.Of(role), Activated(s, role, host, port);
            var q := t.Of(role);
            && q.servers.Keys == p.servers.Keys + {k} && q.tainted == p.tainted - {k}
            && t.waiting.Keys == s.waiting.Keys - {k} && t.requestNum == s.requestNum
            && (k !in p.servers ==> q.servers[k] == Server(host, port, s.nextOrdinal, 0.0, 0.0))
            && (k !in p.servers ==> t.nextOrdinal == s.nextOrdinal + 1)
            && forall j :: j in p.servers ==> q.servers[j] == p.servers[j]
  {
    hide ServerKey;
  }

  /** A drain without open requests leaves exactly the untainted servers, as they were. */
  lemma DrainIs(s: Sched, role: ServerRole)
    ensures var p, q := s.Of(role), TaintedFinalized(s).Of(role);
            if s.requestNum > 0 then q == p
            else
              && q.tainted == {} && (forall k :: k in q.servers <==> k in p.servers && k !in p.tainted)
              && forall k :: k in q.servers ==> q.servers[k] == p.servers[k]
  {
  }

  ghost predicate DistinctKeys(instances: seq<(string, int)>) {
    forall i, j :: 0 <= i < j < |instances| ==>
      ServerKey(instances[i].0, instances[i].1) != ServerKey(instances[j].0, instances[j].1)
  }

  lemma {:induction false} AllJoin(s: Sched, role: ServerRole, instances: seq<(string, int)>)
    ensures AddAll(s, role, instances).Of(role).servers.Keys == s.Of(role).servers.Keys + Keys(instances)
    decreases |instances|
  {
    hide ServerKey;
    if instances != [] {
      var n := |instances| - 1;
      AllJoin(s, role, instances[..n]);
      assert forall x :: x in instances <==> x in instances[..n] || x == instances[n];
      assert Keys(instances) == Keys(instances[..n]) + {ServerKey(instances[n].0, instances[n].1)};
    }
  }

  lemma LastIsNew(instances: seq<(string, int)>)
    requires DistinctKeys(instances) && instances != []
    ensures var n := |instances| - 1;
            DistinctKeys(instances[..n]) && ServerKey(instances[n].0, instances[n].1) !in Keys(instances[..n])
  {
    hide ServerKey;
  }

  lemma LastJoins(s: Sched, role: ServerRole, instances: seq<(string, int)>)
    requires s.Of(role).servers == map[] && DistinctKeys(instances) && instances != []
    ensures var n := |instances| - 1;
            var before, t := AddAll(s, role, instances[..n]), AddAll(s, role, instances);
            var k := ServerKey(instances[n].0, instances[n].1);
            && k !in before.Of(role).servers && t.nextOrdinal == before.nextOrdinal + 1
            && t.Of(role).servers
               == before.Of(role).servers[k := Server(instances[n].0, instances[n].1, before.nextOrdinal, 0.0, 0.0)]
            && |t.Of(role).servers| == |before.Of(role).servers| + 1
  {
    var n := |instances| - 1;
    LastIsNew(instances);
    AllJoin(s, role, instances[..n]);
    hide ServerKey, DistinctKeys, Keys, AddServerTo;
    JoinsLast(AddAll(s, role, instances[..n]), role, instances[n].0, instances[n].1);
  }

  lemma {:induction false} StartupCounts(s: Sched, role: ServerRole, instances: seq<(string, int)>)
    requires s.Of(role).servers == map[] && DistinctKeys(instances)
    ensures AddAll(s, role, instances).nextOrdinal == s.nextOrdinal + |instances|
    ensures |AddAll(s, role, instances).Of(role).servers| == |instances|
    decreases |instances|
  {
    if instances == [] {
      assert AddAll(s, role, instances) == s;
    } else {
      LastIsNew(instances);
      LastJoins(s, role, instances);
      hide AddAll, DistinctKeys, ServerKey;
      StartupCounts(s, role, instances[..|instances| - 1]);
    }
  }

  /** The node is live and idle, under the given ordinal. */
  predicate Idle(p: Pool, node: (string, int), ordinal: nat) {
    var k := ServerKey(node.0, node.1);
    k in p.servers && p.servers[k] == Server(node.0, node.1, ordinal, 0.0, 0.0)
  }

  /** A node that joined keeps its entry when the next one joins. */
  lemma KeepsEntry(s: Sched, role: ServerRole, instances: seq<(string, int)>, node: (string, int), ordinal: nat)
    requires s.Of(role).servers == map[] && DistinctKeys(instances) && instances != []
    requires Idle(AddAll(s, role, instances[..|instances| - 1]).Of(role), node, ordinal)
    ensures Idle(AddAll(s, role, instances).Of(role), node, ordinal)
  {
    hide AddAll, DistinctKeys, ServerKey;
    LastJoins(s, role, instances);
  }

  lemma LastEntry(s: Sched, role: ServerRole, instances: seq<(string, int)>)
    requires s.Of(role).servers == map[] && DistinctKeys(instances) && instances != []
    ensures Idle(AddAll(s, role, instances).Of(role), instances[|instances| - 1], s.nextOrdinal + |instances| - 1)
  {
    LastIsNew(instances);
    hide AddAll, DistinctKeys, ServerKey, Keys;
    StartupCounts(s, role, instances[..|instances| - 1]);
    LastJoins(s, role, instances);
  }

  /** At startup the listed nodes join idle, numbered in their order, when their keys differ. */
  lemma {:induction false} StartupOrder(s: Sched, role: ServerRole, instances: seq<(string, int)>, i: nat)
    requires s.Of(role).servers == map[] && DistinctKeys(instances) && i < |instances|
    ensures Idle(AddAll(s, role, instances).Of(role), instances[i], s.nextOrdinal + i)
    decreases |instances|
  {
    LastIsNew(instances);
    hide AddAll, DistinctKeys, ServerKey, Keys, Idle;
    if i < |instances| - 1 {
      StartupOrder(s, role, instances[..|instances| - 1], i);
      KeepsEntry(s, role, instances, instances[i], s.nextOrdinal + i);
    } else {
      LastEntry(s, role, instances);
    }
  }

  lemma JoinsLast(s: Sched, role: ServerRole, host: string, port: int)
    requires ServerKey(host, port) !in s.Of(role).servers
    ensures var k, t := ServerKey(host, port), AddServerTo(s, role, host, port);
            && t.nextOrdinal == s.nextOrdinal + 1
            && t.Of(role).servers == s.Of(role).servers[k := Server(host, port, s.nextOrdinal, 0.0, 0.0)]
            && |t.Of(role).servers| == |s.Of(role).servers| + 1
  {
    hide ServerKey;
    var p, q := s.Of(role).servers, AddServerTo(s, role, host, port).Of(role).servers;
    assert q.Keys == p.Keys + {ServerKey(host, port)};
    assert |q| == |q.Keys| && |p| == |p.Keys|;
  }

  /** A removal under traffic only taints; without, the nodes are gone for good. */
  lemma RemovalIs(s: Sched, role: ServerRole, instances: seq<(string, int)>, i: nat)
    requires i < |instances|
    ensures var k := ServerKey(instances[i].0, instances[i].1);
            var t := InstancesRemoved(s, role, instances);
            var p, q := s.Of(role), t.Of(role);
            if s.requestNum > 0 then k in q.tainted && q.servers == p.servers && t.waiting == s.waiting
            else k !in q.servers && k !in q.tainted && k !in t.waiting
  {
    assert instances[i] in instances;
    hide ServerKey;
  }

  /** Other nodes are left alone by a removal. */
  lemma RemovalSpares(s: Sched, role: ServerRole, instances: seq<(string, int)>, k: string)
    requires forall i :: i in instances ==> ServerKey(i.0, i.1) != k
    ensures var t := InstancesRemoved(s, role, instances);
            var p, q := s.Of(role), t.Of(role);
            && (k in q.tainted <==> k in p.tainted) && (k in q.servers <==> k in p.servers)
            && (k in p.servers ==> q.servers[k] == p.servers[k])
            && (k in t.waiting <==> k in s.waiting) && (k in s.waiting ==> t.waiting[k] == s.waiting[k])
  {
    hide ServerKey;
  }

  /** An announced node is live or waits; those that wait already keep their retry count. */
  lemma {:induction false} AnnouncedAre(s: Sched, role: ServerRole, instances: seq<(string, int)>, k: string)
    ensures var t := InstancesAdded(s, role, instances);
            && (k in t.waiting <==>
                  || k in s.waiting
                  || (k !in s.Of(role).servers && exists i :: i in instances && ServerKey(i.0, i.1) == k))
            && (k in s.waiting ==> t.waiting[k] == s.waiting[k])
            && (k in t.waiting && k !in s.waiting ==> t.waiting[k].role == role && t.waiting[k].retries == 0)
    decreases |instances|
  {
    hide ServerKey;
    if instances != [] {
      var n := |instances| - 1;
      AnnouncedAre(s, role, instances[..n], k);
      assert forall i :: i in instances <==> i in instances[..n] || i == instances[n];
    }
  }

  /** A retry is noted on the waiting node only; a node that is given up waits no more. */
  lemma WaitingIs(s: Sched, key: string, retries: int, k: string)
    ensures var t := RetryMarked(s, key, retries);
            && t.waiting.Keys == s.waiting.Keys && t == s.(waiting := t.waiting)
            && (k in s.waiting ==>
                  t.waiting[k] == s.waiting[k].(retries := if k == key then retries else s.waiting[k].retries))
    ensures var t := WaitingDropped(s, key);
            && t == s.(waiting := t.waiting) && (k in t.waiting <==> k in s.waiting && k != key)
            && (k in t.waiting ==> t.waiting[k] == s.waiting[k])
  {
    assert RetryMarked(s, key, retries).waiting.Keys == s.waiting.Keys;
  }

  /** The names of the local machine are one key. */
  lemma LocalNamesAgree(port: int)
    ensures ServerKey("localhost", port) == ServerKey("127.0.0.1", port) == ServerKey("0.0.0.0", port)
    ensures ServerKey("localhost", port) == "0.0.0.0:" + Decimal(port)
  {
    ReplacesWhole("localhost", "0.0.0.0");
    ReplacesWhole("127.0.0.1", "0.0.0.0");
    NothingToReplace("127.0.0.1", "localhost", "0.0.0.0");
    NothingToReplace("0.0.0.0", "localhost", "0.0.0.0");
    NothingToReplace("0.0.0.0", "127.0.0.1", "0.0.0.0");
  }

  lemma ReplacesWhole(pattern: string, replacement: string)
    requires pattern != ""
    ensures ReplaceAll(pattern, pattern, replacement) == replacement
  {
    assert pattern[..|pattern|] == pattern && pattern[|pattern|..] == "";
    assert ReplaceAll("", pattern, replacement) == "";
    assert replacement + "" == replacement;
  }

  lemma NothingToReplace(s: string, pattern: string, replacement: string)
    requires |s| <= |pattern| && s != pattern && pattern != ""
    ensures ReplaceAll(s, pattern, replacement) == s
  {
    if |s| == |pattern| {
      assert s[..|pattern|] == s && s[..1] + s[1..] == s;
    }
  }
}
