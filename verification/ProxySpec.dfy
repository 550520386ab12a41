/** The proxy scheduler as plain values.
  *
  * No heap and no sequence numbers: a pick is a scan of the live servers for the least
  * (priority, ordinal).  `ProxyScheduler` refines this module; `ProxyRequests` proves
  * what whole runs of it keep.
  */
module ProxySpec {

  import opened Decimals
  import opened Wrappers

  datatype ServerRole = Prefill | Decode

  const TAINT_PRIORITY: real := 1000000000000000.0

  datatype Server = Server(host: string, port: int, ordinal: nat, tokens: real, kv: real)

  datatype Pool = Pool(servers: map<string, Server>, tainted: set<string>)

  /** A node that was announced but has not answered yet. */
  datatype Waiting = Waiting(role: ServerRole, host: string, port: int, retries: int)

  datatype Sched = Sched(
    prefill: Pool, decode: Pool, waiting: map<string, Waiting>, requestNum: nat, nextOrdinal: nat)
  {
    function Of(role: ServerRole): Pool {
      if role.Prefill? then prefill else decode
    }

    function With(role: ServerRole, p: Pool): Sched {
      if role.Prefill? then this.(prefill := p) else this.(decode := p)
    }
  }

  // ---------- keys ----------

  function ReplaceAll(s: string, pattern: string, replacement: string): string
    requires pattern != ""
    decreases |s|
  {
    if |s| < |pattern| then s
    else if s[..|pattern|] == pattern then replacement + ReplaceAll(s[|pattern|..], pattern, replacement)
    else s[..1] + ReplaceAll(s[1..], pattern, replacement)
  }

  function NormalizeHost(host: string): string {
    ReplaceAll(ReplaceAll(host, "localhost", "0.0.0.0"), "127.0.0.1", "0.0.0.0")
  }

  function ServerKey(host: string, port: int): string {
    NormalizeHost(host) + ":" + Decimal(port)
  }

  // ---------- one pool ----------

  function Priority(role: ServerRole, p: Pool, k: string): real
    requires k in p.servers
  {
    if k in p.tainted then TAINT_PRIORITY
    else if role.Prefill? then p.servers[k].tokens + p.servers[k].kv * 0.3
    else p.servers[k].tokens
  }

  /** `k` is strictly ahead of `k'` in the scan order. */
  predicate Ahead(role: ServerRole, p: Pool, k: string, k': string)
    requires k in p.servers && k' in p.servers
  {
    || Priority(role, p, k) < Priority(role, p, k')
    || (Priority(role, p, k) == Priority(role, p, k') && p.servers[k].ordinal < p.servers[k'].ordinal)
  }

  ghost predicate IsLeast(role: ServerRole, p: Pool, k: string) {
    k in p.servers && forall k' :: k' in p.servers && k' != k ==> Ahead(role, p, k, k')
  }

  ghost predicate DistinctOrdinals(p: Pool) {
    forall k, k' :: k in p.servers && k' in p.servers && k != k' ==>
      p.servers[k].ordinal != p.servers[k'].ordinal
  }

  lemma LeastIsUnique(role: ServerRole, p: Pool, k: string, k': string)
    requires IsLeast(role, p, k) && IsLeast(role, p, k')
    ensures k == k'
  {
    assert k != k' ==> Ahead(role, p, k, k');
  }

  /** A scan always finds a server when there is one. */
  lemma {:induction false} LeastExists(role: ServerRole, p: Pool)
    requires DistinctOrdinals(p) && p.servers.Keys != {}
    ensures exists k :: IsLeast(role, p, k)
    decreases p.servers.Keys
  {
    var some :| some in p.servers;
    var rest := p.(servers := p.servers - {some});
    assert rest.servers.Keys == p.servers.Keys - {some};
    if rest.servers.Keys == {} {
      assert p.servers.Keys == {some};
      assert IsLeast(role, p, some);
    } else {
      LeastExists(role, rest);
      var k :| IsLeast(role, rest, k);
      assert forall j :: j in rest.servers ==> Priority(role, rest, j) == Priority(role, p, j);
      if Ahead(role, p, some, k) {
        forall j | j in p.servers && j != some ensures Ahead(role, p, some, j) {
          assert j != k ==> Ahead(role, rest, k, j);
        }
        assert IsLeast(role, p, some);
      } else {
        forall j | j in p.servers && j != k ensures Ahead(role, p, k, j) {
          assert j != some ==> Ahead(role, rest, k, j);
        }
        assert IsLeast(role, p, k);
      }
    }
  }

  /** A tainted server is picked only when every untainted one is at least that busy. */
  lemma TaintedIsLast(role: ServerRole, p: Pool, k: string, k': string)
    requires IsLeast(role, p, k)
    requires k' in p.servers && k' !in p.tainted && Priority(role, p, k') < TAINT_PRIORITY
    ensures k !in p.tainted
  {
    assert k != k' ==> Ahead(role, p, k, k');
  }

  function Loaded(p: Pool, k: string, tokens: real, kv: real): Pool
    requires k in p.servers
  {
    p.(servers := p.servers[k := p.servers[k].(tokens := tokens, kv := kv)])
  }

  function Charge(p: Pool, k: string, load: real, tokens: bool, kv: bool): Pool
    requires k in p.servers
  {
    var e := p.servers[k];
    Loaded(p, k, if tokens then e.tokens + load else e.tokens, if kv then e.kv + load else e.kv)
  }

  function Max(a: real, b: real): real {
    if a < b then b else a
  }

  /** Give back a load; a missing or unknown key is ignored. */
  function Discharge(p: Pool, key: Option<string>, load: real, tokens: bool, kv: bool): Pool {
    if key.None? || key.value == "" || key.value !in p.servers then p
    else
      var e := p.servers[key.value];
      Loaded(p, key.value, if tokens then e.tokens - load else e.tokens, if kv then Max(0.0, e.kv - load) else e.kv)
  }

  function AddServer(p: Pool, host: string, port: int, ordinal: nat): Pool {
    var k := ServerKey(host, port);
    if k in p.servers then p else p.(servers := p.servers[k := Server(host, port, ordinal, 0.0, 0.0)])
  }

  // ---------- scheduler operations ----------

  const EMPTY: Sched := Sched(Pool(map[], {}), Pool(map[], {}), map[], 0, 0)

  /** Add a server under the next ordinal unless its key is live. */
  function AddServerTo(s: Sched, role: ServerRole, host: string, port: int): Sched {
    if ServerKey(host, port) in s.Of(role).servers then s
    else s.With(role, AddServer(s.Of(role), host, port, s.nextOrdinal)).(nextOrdinal := s.nextOrdinal + 1)
  }

  function AddAll(s: Sched, role: ServerRole, instances: seq<(string, int)>): Sched
    decreases |instances|
  {
    if instances == [] then s
    else
      var n := |instances| - 1;
      AddServerTo(AddAll(s, role, instances[..n]), role, instances[n].0, instances[n].1)
  }

  function Keys(instances: seq<(string, int)>): set<string> {
    set i | i in instances :: ServerKey(i.0, i.1)
  }

  function Begun(s: Sched, key: string, load: real): Sched
    requires key in s.prefill.servers
  {
    Reserved(s, key, load).(requestNum := s.requestNum + 1)
  }

  function Reserved(s: Sched, key: string, load: real): Sched
    requires key in s.prefill.servers
  {
    s.(prefill := Charge(s.prefill, key, load, false, true))
  }

  function DecoderPicked(s: Sched, key: string, load: real): Sched
    requires key in s.decode.servers
  {
    s.(decode := Charge(s.decode, key, load, true, false))
  }

  function KvReleased(s: Sched, key: string, load: real): Sched {
    s.(prefill := Discharge(s.prefill, Some(key), load, false, true))
  }

  function DecoderReleased(s: Sched, key: string, load: real): Sched {
    s.(decode := Discharge(s.decode, Some(key), load, true, false))
  }

  function Finished(s: Sched, prefillKey: Option<string>, prefillLoad: real,
                    decodeKey: Option<string>, decodeLoad: real, releaseKv: bool): Sched {
    s.(prefill := if releaseKv then Discharge(s.prefill, prefillKey, prefillLoad, false, true) else s.prefill,
       decode := Discharge(s.decode, decodeKey, decodeLoad, true, false),
       requestNum := if s.requestNum == 0 then 0 else s.requestNum - 1)
  }

  function InstancesAdded(s: Sched, role: ServerRole, instances: seq<(string, int)>): Sched
    decreases |instances|
  {
    if instances == [] then s
    else
      var n := |instances| - 1;
      var before := InstancesAdded(s, role, instances[..n]);
      var (host, port) := instances[n];
      var k := ServerKey(host, port);
      if k in s.Of(role).servers || k in before.waiting then before
      else before.(waiting := before.waiting[k := Waiting(role, host, port, 0)])
  }

  /** The nodes that start to wait, as they were announced. */
  function NewlyWaiting(s: Sched, role: ServerRole, instances: seq<(string, int)>): seq<string>
    decreases |instances|
  {
    if instances == [] then []
    else
      var n := |instances| - 1;
      var before := InstancesAdded(s, role, instances[..n]);
      var (host, port) := instances[n];
      var k := ServerKey(host, port);
      NewlyWaiting(s, role, instances[..n])
      + if k in s.Of(role).servers || k in before.waiting then [] else [host + ":" + Decimal(port)]
  }

  function RetryMarked(s: Sched, key: string, retries: int): Sched {
    if key !in s.waiting then s
    else s.(waiting := s.waiting[key := s.waiting[key].(retries := retries)])
  }

  function WaitingDropped(s: Sched, key: string): Sched {
    s.(waiting := s.waiting - {key})
  }

  /** Activation fails after its partial updates when it un-taints a key that is not live. */
  predicate ActivationFails(s: Sched, role: ServerRole, host: string, port: int) {
    var k := ServerKey(host, port);
    k in s.Of(role).tainted && k !in s.Of(role).servers
  }

  function Activated(s: Sched, role: ServerRole, host: string, port: int): Sched {
    var k := ServerKey(host, port);
    var p := s.Of(role);
    var t := WaitingDropped(s, k);
    if k in p.tainted then t.With(role, p.(tainted := p.tainted - {k}))
    else AddServerTo(t, role, host, port)
  }

  function InstancesRemoved(s: Sched, role: ServerRole, instances: seq<(string, int)>): Sched {
    var keys := Keys(instances);
    var p := s.Of(role);
    if instances == [] then s
    else if s.requestNum > 0 then s.With(role, p.(tainted := p.tainted + keys))
    else s.With(role, Pool(p.servers - keys, p.tainted - keys)).(waiting := s.waiting - keys)
  }

  function Drained(p: Pool): Pool {
    Pool(p.servers - p.tainted, {})
  }

  function TaintedFinalized(s: Sched): Sched {
    if s.requestNum != 0 then s
    else s.(prefill := Drained(s.prefill), decode := Drained(s.decode))
  }

  /** Removing a key that is not live while requests are active blocks its activation: the
    * announced node then ends up neither live nor waiting. */
  lemma TaintingUnknownBlocksActivation(s: Sched, role: ServerRole, host: string, port: int)
    requires s.requestNum > 0 && ServerKey(host, port) !in s.Of(role).servers
    ensures var t := InstancesRemoved(s, role, [(host, port)]);
            var u := Activated(t, role, host, port);
            && ActivationFails(t, role, host, port)
            && ServerKey(host, port) !in u.Of(role).servers.Keys + u.waiting.Keys
  {
    assert (host, port) in [(host, port)];
    assert ServerKey(host, port) in Keys([(host, port)]);
  }
}
