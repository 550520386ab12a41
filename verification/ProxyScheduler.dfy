/** The proxy's shared scheduler: two pools, the waiting nodes and the request counter.
  *
  * `View()` is the state without heaps and sequence numbers.  Every method relates the
  * view before and after by an operation of `ProxySpec`, so the heap is an index that a
  * caller can never observe.  A lock makes each method one atomic step in the original.
  *
  *   - requests: `BeginRequest`, `ReservePrefillKv`, `PickDecoder`, `ReleasePrefillKv`,
  *     `ReleaseDecoder`, `FinishRequest`;
  *   - nodes: `AddInstances`, `MarkWaitingRetry`, `DropWaitingInstance`,
  *     `ActivateWaitingInstance`, `RemoveInstances`, `FinalizeTaintedInstances`.
  */
module ProxyScheduler {
  import opened Decimals
  import opened ProxySpec
  import opened ProxyPool
  import opened Wrappers

  ghost predicate OrdinalsBelow(p: Pool, n: nat) {
    forall k :: k in p.servers ==> p.servers[k].ordinal < n
  }

  class SharedProxyScheduler {
    const prefill: RolePools
    const decode: RolePools
    var requestNum: nat
    var waitingNodes: map<string, Waiting>
    var ordinal: nat

    ghost predicate Valid()
      reads this, prefill, decode, prefill.Repr, decode.Repr
    {
      && prefill.role.Prefill? && decode.role.Decode?
      && prefill.Repr !! decode.Repr
      && prefill.Valid() && decode.Valid()
      && OrdinalsBelow(prefill.Contents, ordinal) && OrdinalsBelow(decode.Contents, ordinal)
    }

    ghost function View(): Sched
      reads this, prefill, decode
    {
      Sched(prefill.Contents, decode.Contents, waitingNodes, requestNum, ordinal)
    }

    function PoolOf(role: ServerRole): RolePools {
      if role.Prefill? then prefill else decode
    }

    /** Start with the listed servers; repeated keys are skipped. */
    constructor (prefillers: seq<(string, int)>, decoders: seq<(string, int)>)
      ensures Valid() && fresh(prefill) && fresh(decode) && fresh(prefill.Repr + decode.Repr)
      ensures View() == AddAll(AddAll(EMPTY, Prefill, prefillers), Decode, decoders)
    {
      hide Valid, View, RolePools.Valid, OrdinalsBelow, AddAll, AddServerTo;
      prefill := new RolePools(Prefill);
      decode := new RolePools(Decode);
      requestNum, waitingNodes, ordinal := 0, map[], 0;
      new;
      StartsEmpty();
      AddAllNoLock(Prefill, prefillers);
      assert fresh(prefill.Repr + decode.Repr);
      AddAllNoLock(Decode, decoders);
    }

    lemma StartsEmpty()
      requires prefill.role.Prefill? && decode.role.Decode? && prefill.Valid() && decode.Valid()
      requires prefill.Repr == decode.Repr == {} && prefill.Contents == decode.Contents == Pool(map[], {})
      requires requestNum == 0 && waitingNodes == map[] && ordinal == 0
      ensures Valid() && View() == EMPTY
    {
    }

    method AddAllNoLock(role: ServerRole, instances: seq<(string, int)>)
      requires Valid()
      modifies this`ordinal, prefill, decode, prefill.Repr, decode.Repr
      ensures Valid() && fresh(prefill.Repr + decode.Repr - old(prefill.Repr + decode.Repr))
      ensures View() == AddAll(old(View()), role, instances)
    {
      hide Valid, View, AddServerTo;
      for i := 0 to |instances|
        invariant Valid() && fresh(prefill.Repr + decode.Repr - old(prefill.Repr + decode.Repr))
        invariant View() == AddAll(old(View()), role, instances[..i])
      {
        assert instances[..i + 1][..i] == instances[..i];
        var added := AddServerNoLock(role, instances[i].0, instances[i].1);
      }
      assert instances[..|instances|] == instances;
    }

    method AddServerNoLock(role: ServerRole, host: string, port: int) returns (added: bool)
      requires Valid()
      modifies this`ordinal, prefill, decode, prefill.Repr, decode.Repr
      ensures Valid() && fresh(prefill.Repr + decode.Repr - old(prefill.Repr + decode.Repr))
      ensures View() == AddServerTo(old(View()), role, host, port)
      ensures added <==> ServerKey(host, port) !in old(View()).Of(role).servers
    {
      hide RolePools.Valid;
      added := PoolOf(role).AddServer(host, port, ordinal);
      if added {
        ordinal := ordinal + 1;
      }
    }

    /** Pick a prefiller, reserve KV on it, and count an active request. */
    method BeginRequest(load: real) returns (picked: Option<Picked>)
      requires Valid()
      modifies this, prefill, prefill.Repr
      ensures Valid()
      ensures picked.None? <==> old(View()).prefill.servers == map[]
      ensures picked.None? ==> View() == old(View())
      ensures picked.Some? ==>
                && IsLeast(Prefill, old(View()).prefill, picked.value.key)
                && View() == Begun(old(View()), picked.value.key, load)
    {
      hide RolePools.Valid;
      picked := prefill.Pick(load, false, true);
      if picked.Some? {
        requestNum := requestNum + 1;
      }
    }

    /** As `BeginRequest` for a recomputed request, which is already counted. */
    method ReservePrefillKv(load: real) returns (picked: Option<Picked>)
      requires Valid()
      modifies prefill, prefill.Repr
      ensures Valid()
      ensures picked.None? <==> old(View()).prefill.servers == map[]
      ensures picked.None? ==> View() == old(View())
      ensures picked.Some? ==>
                && IsLeast(Prefill, old(View()).prefill, picked.value.key)
                && View() == Reserved(old(View()), picked.value.key, load)
    {
      hide RolePools.Valid;
      picked := prefill.Pick(load, false, true);
    }

    method PickDecoder(load: real) returns (picked: Option<Picked>)
      requires Valid()
      modifies decode, decode.Repr
      ensures Valid()
      ensures picked.None? <==> old(View()).decode.servers == map[]
      ensures picked.None? ==> View() == old(View())
      ensures picked.Some? ==>
                && IsLeast(Decode, old(View()).decode, picked.value.key)
                && View() == DecoderPicked(old(View()), picked.value.key, load)
    {
      hide RolePools.Valid;
      picked := decode.Pick(load, true, false);
    }

    method ReleasePrefillKv(key: string, load: real)
      requires Valid()
      modifies prefill, prefill.Repr
      ensures Valid() && View() == KvReleased(old(View()), key, load)
    {
      hide RolePools.Valid;
      prefill.ReleaseLoad(Some(key), load, false, true);
    }

    method ReleaseDecoder(key: string, load: real)
      requires Valid()
      modifies decode, decode.Repr
      ensures Valid() && View() == DecoderReleased(old(View()), key, load)
    {
      hide RolePools.Valid;
      decode.ReleaseLoad(Some(key), load, true, false);
    }

    method FinishRequest(prefillerKey: Option<string>, prefillerLoad: real,
                         decoderKey: Option<string>, decoderLoad: real, releasePrefillKv: bool)
      requires Valid()
      modifies this, prefill, decode, prefill.Repr, decode.Repr
      ensures Valid()
      ensures View() == Finished(old(View()), prefillerKey, prefillerLoad, decoderKey, decoderLoad, releasePrefillKv)
    {
      hide RolePools.Valid;
      if releasePrefillKv {
        prefill.ReleaseLoad(prefillerKey, prefillerLoad, false, true);
      }
      decode.ReleaseLoad(decoderKey, decoderLoad, true, false);
      requestNum := if requestNum == 0 then 0 else requestNum - 1;
    }

    /** Announce new nodes; live or already waiting keys are skipped. */
    method AddInstances(role: ServerRole, instances: seq<(string, int)>) returns (waiting: seq<string>)
      requires Valid()
      modifies this`waitingNodes
      ensures Valid() && View() == InstancesAdded(old(View()), role, instances)
      ensures waiting == NewlyWaiting(old(View()), role, instances)
    {
      hide RolePools.Valid, InstancesAdded, NewlyWaiting;
      AddedNone(old(View()), role, instances);
      waiting := [];
      for i := 0 to |instances|
        invariant Valid() && View() == InstancesAdded(old(View()), role, instances[..i])
        invariant waiting == NewlyWaiting(old(View()), role, instances[..i])
      {
        AddedOne(old(View()), role, instances, i);
        var (host, port) := instances[i];
        PoolOf(role).ValidKeys();
        var key := ServerKey(host, port);
        if key in PoolOf(role).servers || key in waitingNodes {
          continue;
        }
        waitingNodes := waitingNodes[key := Waiting(role, host, port, 0)];
        waiting := waiting + [host + ":" + Decimal(port)];
      }
      assert instances[..|instances|] == instances;
    }

    lemma AddedNone(s: Sched, role: ServerRole, instances: seq<(string, int)>)
      ensures InstancesAdded(s, role, instances[..0]) == s && NewlyWaiting(s, role, instances[..0]) == []
    {
    }

    lemma AddedOne(s: Sched, role: ServerRole, instances: seq<(string, int)>, i: nat)
      requires i < |instances|
      ensures var before := InstancesAdded(s, role, instances[..i]);
              var (host, port) := instances[i];
              var k := ServerKey(host, port);
              InstancesAdded(s, role, instances[..i + 1])
              == if k in s.Of(role).servers || k in before.waiting then before
                 else before.(waiting := before.waiting[k := Waiting(role, host, port, 0)])
      ensures var (host, port) := instances[i];
              var k := ServerKey(host, port);
              NewlyWaiting(s, role, instances[..i + 1])
              == NewlyWaiting(s, role, instances[..i])
                 + if k in s.Of(role).servers || k in InstancesAdded(s, role, instances[..i]).waiting then []
                   else [host + ":" + Decimal(port)]
    {
      assert instances[..i + 1][..i] == instances[..i];
    }

    method MarkWaitingRetry(key: string, retries: int)
      requires Valid()
      modifies this`waitingNodes
      ensures Valid() && View() == RetryMarked(old(View()), key, retries)
    {
      hide RolePools.Valid;
      if key !in waitingNodes {
        return;
      }
      waitingNodes := waitingNodes[key := waitingNodes[key].(retries := retries)];
    }

    method DropWaitingInstance(key: string)
      requires Valid()
      modifies this`waitingNodes
      ensures Valid() && View() == WaitingDropped(old(View()), key)
    {
      hide RolePools.Valid;
      waitingNodes := waitingNodes - {key};
    }

    /** Make an announced node live.  It fails, with its partial updates in place, when the
      * key is tainted but names no live server. */
    method ActivateWaitingInstance(role: ServerRole, host: string, port: int) returns (ok: bool)
      requires Valid()
      modifies this, prefill, decode, prefill.Repr, decode.Repr
      ensures Valid() && fresh(prefill.Repr + decode.Repr - old(prefill.Repr + decode.Repr))
      ensures View() == Activated(old(View()), role, host, port)
      ensures ok <==> !ActivationFails(old(View()), role, host, port)
    {
      hide RolePools.Valid;
      PoolOf(role).ValidKeys();
      var key := ServerKey(host, port);
      waitingNodes := waitingNodes - {key};
      if key in PoolOf(role).tainted {
        ok := PoolOf(role).Untaint(key);
        return;
      }
      var added := AddServerNoLock(role, host, port);
      return true;
    }

    /** Isolate the named servers while requests are active, delete them otherwise. */
    method RemoveInstances(role: ServerRole, instances: seq<(string, int)>) returns (waits: bool)
      requires Valid()
      modifies this, prefill, decode, prefill.Repr, decode.Repr
      ensures Valid() && View() == InstancesRemoved(old(View()), role, instances)
      ensures waits <==> instances != [] && old(requestNum) > 0
    {
      hide RolePools.Valid;
      if instances == [] {
        return false;
      }
      var keys := Keys(instances);
      if requestNum > 0 {
        PoolOf(role).Taint(keys);
        return true;
      }
      var removed := PoolOf(role).Remove(keys);
      waitingNodes := waitingNodes - keys;
      return false;
    }

    /** Delete the isolated servers once no request is active. */
    method FinalizeTaintedInstances()
      requires Valid()
      modifies this, prefill, decode, prefill.Repr, decode.Repr
      ensures Valid() && View() == TaintedFinalized(old(View()))
    {
      hide RolePools.Valid;
      if requestNum != 0 {
        return;
      }
      prefill.Drain();
      decode.Drain();
    }
  }
}
