/** What the proxy can always do: pick a server while there is one, end every open request, and
  * so drain. */
module ProxyProgress {
  import opened ProxyAnyRun
  import opened ProxyFlows
  import opened ProxyRequests
  import opened ProxyRuns
  import opened ProxySpec

  // ---------- servers are numbered ----------

  /** Ordinals differ and were all given out before. */
  ghost predicate Numbered(p: Pool, next: nat) {
    DistinctOrdinals(p) && forall k :: k in p.servers ==> p.servers[k].ordinal < next
  }

  ghost predicate AllNumbered(s: Sched) {
    Numbered(s.prefill, s.nextOrdinal) && Numbered(s.decode, s.nextOrdinal)
  }

  lemma FewerNumbered(p: Pool, p': Pool, next: nat)
    requires Numbered(p, next)
    requires forall k :: k in p'.servers ==> k in p.servers && p'.servers[k].ordinal == p.servers[k].ordinal
    ensures Numbered(p', next)
  {
  }

  lemma OneMoreNumbered(s: Sched, role: ServerRole, host: string, port: int)
    requires AllNumbered(s)
    ensures AllNumbered(AddServerTo(s, role, host, port))
  {
    hide ServerKey;
  }

  lemma {:induction false} ManyMoreNumbered(s: Sched, role: ServerRole, instances: seq<(string, int)>)
    requires AllNumbered(s)
    ensures AllNumbered(AddAll(s, role, instances))
    decreases |instances|
  {
    hide AllNumbered, AddServerTo;
    if instances != [] {
      var n := |instances| - 1;
      ManyMoreNumbered(s, role, instances[..n]);
      OneMoreNumbered(AddAll(s, role, instances[..n]), role, instances[n].0, instances[n].1);
    }
  }

  /** An event that adds no server. */
  lemma OnlyActivationAdds(w: World, e: Event, role: ServerRole)
    requires Enabled(w, e) && !e.Activate?
    ensures Next(w, e).s.nextOrdinal == w.s.nextOrdinal
    ensures var p, q := w.s.Of(role), Next(w, e).s.Of(role);
            forall k :: k in q.servers ==> k in p.servers && q.servers[k].ordinal == p.servers[k].ordinal
  {
    if IsAdmin(e) {
      if e.AddNodes? {
        AddedOnlyWaits(w.s, e.role, e.instances);
      }
      hide ServerKey, InstancesAdded;
    } else {
      RequestStepKeepsSetup(w, e);
      hide Enabled, Next;
    }
  }

  lemma ActivationNumbers(s: Sched, role: ServerRole, host: string, port: int)
    requires AllNumbered(s)
    ensures AllNumbered(Activated(s, role, host, port))
  {
    hide ServerKey, AddServerTo;
    OneMoreNumbered(WaitingDropped(s, ServerKey(host, port)), role, host, port);
  }

  lemma StepNumbers(w: World, e: Event)
    requires AllNumbered(w.s) && Enabled(w, e)
    ensures AllNumbered(Next(w, e).s)
  {
    if e.Activate? {
      hide AllNumbered, Activated;
      ActivationNumbers(w.s, e.role, e.host, e.port);
    } else {
      hide Enabled, Next, Numbered;
      var n := w.s.nextOrdinal;
      OnlyActivationAdds(w, e, Prefill);
      OnlyActivationAdds(w, e, Decode);
      assert w.s.Of(Prefill) == w.s.prefill && w.s.Of(Decode) == w.s.decode;
      var s' := Next(w, e).s;
      assert s'.Of(Prefill) == s'.prefill && s'.Of(Decode) == s'.decode;
      FewerNumbered(w.s.prefill, s'.prefill, n);
      FewerNumbered(w.s.decode, s'.decode, n);
    }
  }

  lemma {:induction false} RunNumbers(w: World, es: seq<Event>, w': World)
    requires AllNumbered(w.s) && Runs(w, es, w')
    ensures AllNumbered(w'.s)
    decreases |es|
  {
    hide AllNumbered, Enabled, Next;
    if es != [] {
      StepNumbers(w, es[0]);
      RunNumbers(Next(w, es[0]), es[1..], w');
    }
  }

  lemma StartedIsNumbered(prefillers: seq<(string, int)>, decoders: seq<(string, int)>)
    ensures AllNumbered(Started(prefillers, decoders).s)
  {
    assert AllNumbered(EMPTY);
    hide AllNumbered, AddAll;
    ManyMoreNumbered(EMPTY, Prefill, prefillers);
    ManyMoreNumbered(AddAll(EMPTY, Prefill, prefillers), Decode, decoders);
  }

  /** In every run, a new request finds exactly one prefiller as long as any is live, and a
    * prefilled one exactly one decoder. */
  lemma RequestsFindTheirServer(prefillers: seq<(string, int)>, decoders: seq<(string, int)>, es: seq<Event>, w: World,
                                id: nat, length: nat)
    requires Runs(Started(prefillers, decoders), es, w)
    ensures id !in w.open && length >= 1 && w.s.prefill.servers.Keys != {} ==>
              exists k :: Enabled(w, Begin(id, length, k)) && forall j :: Enabled(w, Begin(id, length, j)) ==> j == k
    ensures id in w.open && w.open[id].Prefilling? && w.s.decode.servers.Keys != {} ==>
              exists k :: Enabled(w, PickDecoder(id, k)) && forall j :: Enabled(w, PickDecoder(id, j)) ==> j == k
  {
    StartedIsNumbered(prefillers, decoders);
    hide Started, IsLeast, DistinctOrdinals;
    RunNumbers(Started(prefillers, decoders), es, w);
    if id !in w.open && length >= 1 && w.s.prefill.servers.Keys != {} {
      var k := OneLeast(Prefill, w.s.prefill);
      assert Enabled(w, Begin(id, length, k));
    }
    if id in w.open && w.open[id].Prefilling? && w.s.decode.servers.Keys != {} {
      var k := OneLeast(Decode, w.s.decode);
      assert Enabled(w, PickDecoder(id, k));
    }
  }

  lemma OneLeast(role: ServerRole, p: Pool) returns (k: string)
    requires DistinctOrdinals(p) && p.servers.Keys != {}
    ensures IsLeast(role, p, k) && forall j :: IsLeast(role, p, j) ==> j == k
  {
    LeastExists(role, p);
    hide IsLeast;
    k :| IsLeast(role, p, k);
    forall j | IsLeast(role, p, j) ensures j == k {
      LeastIsUnique(role, p, j, k);
    }
  }

  // ---------- draining ----------

  /** Any open request can end by at most two calls of its own, and no other changes. */
  lemma EndsAlone(w: World, id: nat) returns (es: seq<Event>, w': World)
    requires id in w.open
    ensures Runs(w, es, w') && w'.open == w.open - {id} && |es| <= 2
    ensures forall e :: e in es ==> !IsAdmin(e) && e.id == id
  {
    var r := w.open[id];
    hide IsLeast, Finished, KvReleased, DecoderReleased;
    if r.Prefilling? {
      w' := OneEvent(w, AbortPrefill(id));
      return [AbortPrefill(id)], w';
    } else if r.Decoding? {
      w' := OneEvent(w, Finish(id));
      return [Finish(id)], w';
    } else if r.Recomputing? && r.decoderReleased {
      w' := OneEvent(w, FailRecompute(id));
      return [FailRecompute(id)], w';
    } else {
      var e := if r.Recomputing? then RecomputeDecoder(id) else AbortReselect(id);
      var u := OneEvent(w, e);
      w' := OneEvent(u, FailRecompute(id));
      RunsConcat(w, [e], u, [FailRecompute(id)], w');
      assert w.open[id := u.open[id]] - {id} == w.open - {id};
      return [e] + [FailRecompute(id)], w';
    }
  }

  lemma OneEvent(w: World, e: Event) returns (w': World)
    requires Enabled(w, e)
    ensures w' == Next(w, e) && Runs(w, [e], w')
  {
    hide Enabled, Next;
    w' := Next(w, e);
    assert [e][1..] == [];
    assert Runs(w', [], w');
  }

  lemma {:induction false} RunsConcat(w: World, a: seq<Event>, u: World, b: seq<Event>, w': World)
    requires Runs(w, a, u) && Runs(u, b, w')
    ensures Runs(w, a + b, w')
    decreases |a|
  {
    hide Enabled, Next;
    if a == [] {
      assert a + b == b;
    } else {
      RunsConcat(Next(w, a[0]), a[1..], u, b, w');
      assert (a + b)[1..] == a[1..] + b;
    }
  }

  lemma {:induction false} AllEnd(w: World) returns (es: seq<Event>, w': World)
    ensures Runs(w, es, w') && w'.open == map[] && forall e :: e in es ==> !IsAdmin(e)
    decreases |w.open|
  {
    hide Enabled, Next;
    if w.open == map[] {
      return [], w;
    }
    var id :| id in w.open;
    var first, u := EndsAlone(w, id);
    CountedWithout(w.open, id);
    var rest;
    rest, w' := AllEnd(u);
    RunsConcat(w, first, u, rest, w');
    return first + rest, w';
  }

  /** Whatever has happened since startup, the open requests can all be ended; then no KV load
    * and no request is left, and the drain removes every tainted node. */
  lemma EveryRunCanDrain(prefillers: seq<(string, int)>, decoders: seq<(string, int)>, es: seq<Event>, w: World)
    returns (more: seq<Event>, w': World)
    requires Runs(Started(prefillers, decoders), es, w)
    ensures Runs(w, more, w') && w'.open == map[] && w'.s.requestNum == 0
    ensures forall k :: k in w'.s.prefill.servers ==> w'.s.prefill.servers[k].kv == 0.0
    ensures forall k :: k in w.s.prefill.tainted ==> k !in Next(w', Finalize).s.prefill.servers
    ensures forall k :: k in w.s.decode.tainted ==> k !in Next(w', Finalize).s.decode.servers
  {
    hide Started, UnderCounted, Enabled;
    more, w' := AllEnd(w);
    RunsConcat(Started(prefillers, decoders), es, w, more, w');
    EveryRunKeeps(prefillers, decoders, es + more, w');
    DrainedInAnyRun(w');
    RequestsTaintNothing(w, more, w');
  }

  lemma {:induction false} RequestsTaintNothing(w: World, es: seq<Event>, w': World)
    requires Runs(w, es, w') && forall e :: e in es ==> !IsAdmin(e)
    ensures w'.s.prefill.tainted == w.s.prefill.tainted && w'.s.decode.tainted == w.s.decode.tainted
    decreases |es|
  {
    hide Enabled, Next;
    if es != [] {
      RequestStepKeepsSetup(w, es[0]);
      RequestsTaintNothing(Next(w, es[0]), es[1..], w');
    }
  }
}
