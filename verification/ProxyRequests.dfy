/** Whole runs of the proxy: requests and administration, interleaved in any order.
  *
  * A world is the scheduler's view together with the ledger of open requests.  Every event
  * is one scheduler call in the order the request handlers make them.  A recomputation
  * releases twice; `Balanced` says when that does no harm.
  */
module ProxyRequests {
  import opened ProxySpec
  import opened Wrappers

  /** How far an open request is.  A recomputed request has released its prefiller's KV again;
    * a reselecting one holds KV on a new prefiller and has not picked its new decoder. */
  datatype Request =
    | Prefilling(prefillKey: string, prefillLoad: real, decodeLoad: real)
    | Decoding(prefillKey: string, prefillLoad: real, decodeKey: string, decodeLoad: real, kvReleased: bool)
    | Recomputing(prefillKey: string, prefillLoad: real, decodeKey: string, decodeLoad: real, decoderReleased: bool)
    | Reselecting(prefillKey: string, prefillLoad: real, decodeKey: string, decodeLoad: real,
                  newKey: string, newLoad: real, newDecodeLoad: real)

  datatype World = World(s: Sched, open: map<nat, Request>)

  datatype Event =
    | Begin(id: nat, length: nat, key: string)
    | AbortPrefill(id: nat)
    | PickDecoder(id: nat, key: string)
    | FirstChunk(id: nat)
    | Finish(id: nat)
    | RecomputeKv(id: nat)
    | RecomputeDecoder(id: nat)
    | Reserve(id: nat, length: nat, key: string)
    | AbortReselect(id: nat)
    | FailRecompute(id: nat)
    | AddNodes(role: ServerRole, instances: seq<(string, int)>)
    | Retry(key: string, retries: int)
    | GiveUp(key: string)
    | Activate(role: ServerRole, host: string, port: int)
    | Remove(role: ServerRole, instances: seq<(string, int)>)
    | Finalize

  function PrefillScore(length: nat): real {
    length as real / 4.0 * 0.0345 + 120.0745
  }

  function DecodeScore(length: nat): real {
    length as real
  }

  /** A body that parses as JSON is not empty. */
  ghost predicate Enabled(w: World, e: Event) {
    match e
    case Begin(id, length, key) => id !in w.open && length >= 1 && IsLeast(Prefill, w.s.prefill, key)
    case AbortPrefill(id) => id in w.open && w.open[id].Prefilling?
    case PickDecoder(id, key) =>
      id in w.open && (w.open[id].Prefilling? || w.open[id].Reselecting?) && IsLeast(Decode, w.s.decode, key)
    case FirstChunk(id) => id in w.open && w.open[id].Decoding? && !w.open[id].kvReleased
    case Finish(id) => id in w.open && w.open[id].Decoding?
    case RecomputeKv(id) => id in w.open && w.open[id].Decoding? && w.open[id].kvReleased
    case RecomputeDecoder(id) => id in w.open && w.open[id].Recomputing? && !w.open[id].decoderReleased
    case Reserve(id, length, key) =>
      && id in w.open && w.open[id].Recomputing? && w.open[id].decoderReleased
      && length >= 1 && IsLeast(Prefill, w.s.prefill, key)
    case AbortReselect(id) => id in w.open && w.open[id].Reselecting?
    case FailRecompute(id) => id in w.open && w.open[id].Recomputing? && w.open[id].decoderReleased
    case _ => true
  }

  ghost function Next(w: World, e: Event): World
    requires Enabled(w, e)
  {
    match e
    case Begin(id, length, key) =>
      World(Begun(w.s, key, PrefillScore(length)),
            w.open[id := Prefilling(key, PrefillScore(length), DecodeScore(length))])
    case AbortPrefill(id) =>
      var r := w.open[id];
      World(Finished(w.s, Some(r.prefillKey), r.prefillLoad, None, 0.0, true), w.open - {id})
    case PickDecoder(id, key) =>
      (match w.open[id]
       case Reselecting(_, _, _, _, newKey, newLoad, load) =>
         World(DecoderPicked(w.s, key, load), w.open[id := Decoding(newKey, newLoad, key, load, false)])
       case r =>
         World(DecoderPicked(w.s, key, r.decodeLoad),
               w.open[id := Decoding(r.prefillKey, r.prefillLoad, key, r.decodeLoad, false)]))
    case FirstChunk(id) =>
      var r := w.open[id];
      World(KvReleased(w.s, r.prefillKey, r.prefillLoad), w.open[id := r.(kvReleased := true)])
    case Finish(id) =>
      var r := w.open[id];
      World(Finished(w.s, Some(r.prefillKey), r.prefillLoad, Some(r.decodeKey), r.decodeLoad, !r.kvReleased),
            w.open - {id})
    case RecomputeKv(id) =>
      var r := w.open[id];
      World(KvReleased(w.s, r.prefillKey, r.prefillLoad),
            w.open[id := Recomputing(r.prefillKey, r.prefillLoad, r.decodeKey, r.decodeLoad, false)])
    case RecomputeDecoder(id) =>
      var r := w.open[id];
      World(DecoderReleased(w.s, r.decodeKey, r.decodeLoad), w.open[id := r.(decoderReleased := true)])
    case Reserve(id, length, key) =>
      var r := w.open[id];
      World(Reserved(w.s, key, PrefillScore(length)),
            w.open[id := Reselecting(r.prefillKey, r.prefillLoad, r.decodeKey, r.decodeLoad,
                                     key, PrefillScore(length), DecodeScore(length))])
    case AbortReselect(id) =>
      var r := w.open[id];
      World(KvReleased(w.s, r.newKey, r.newLoad),
            w.open[id := Recomputing(r.prefillKey, r.prefillLoad, r.decodeKey, r.decodeLoad, true)])
    case FailRecompute(id) =>
      var r := w.open[id];
      World(Finished(w.s, Some(r.prefillKey), r.prefillLoad, Some(r.decodeKey), r.decodeLoad, false), w.open - {id})
    case AddNodes(role, instances) => w.(s := InstancesAdded(w.s, role, instances))
    case Retry(key, retries) => w.(s := RetryMarked(w.s, key, retries))
    case GiveUp(key) => w.(s := WaitingDropped(w.s, key))
    case Activate(role, host, port) => w.(s := Activated(w.s, role, host, port))
    case Remove(role, instances) => w.(s := InstancesRemoved(w.s, role, instances))
    case Finalize => w.(s := TaintedFinalized(w.s))
  }

  /** The events `es` lead from `w` to `w'`. */
  ghost predicate Runs(w: World, es: seq<Event>, w': World)
    decreases |es|
  {
    if es == [] then w == w'
    else Enabled(w, es[0]) && Runs(Next(w, es[0]), es[1..], w')
  }

  // ---------- the ledger ----------

  ghost function Sum(open: map<nat, Request>, f: Request -> real): real
    decreases |open|
  {
    if open == map[] then 0.0
    else
      var id :| id in open;
      f(open[id]) + Sum(open - {id}, f)
  }

  lemma {:induction false} SumSplit(open: map<nat, Request>, id: nat, f: Request -> real)
    requires id in open
    ensures Sum(open, f) == f(open[id]) + Sum(open - {id}, f)
    decreases |open|
  {
    var first :| first in open && Sum(open, f) == f(open[first]) + Sum(open - {first}, f);
    if first != id {
      SumSplit(open - {first}, id, f);
      SumSplit(open - {id}, first, f);
      assert open - {first} - {id} == open - {id} - {first};
    }
  }

  lemma SumUpdate(open: map<nat, Request>, id: nat, r: Request, f: Request -> real)
    ensures Sum(open[id := r], f) == f(r) + (if id in open then Sum(open, f) - f(open[id]) else Sum(open, f))
  {
    SumSplit(open[id := r], id, f);
    if id in open {
      SumSplit(open, id, f);
      assert open[id := r] - {id} == open - {id};
    } else {
      assert open[id := r] - {id} == open;
    }
  }

  lemma {:induction false} SumBound(open: map<nat, Request>, id: nat, f: Request -> real)
    requires forall j :: j in open ==> f(open[j]) >= 0.0
    ensures Sum(open, f) >= 0.0
    ensures id in open ==> f(open[id]) <= Sum(open, f)
    decreases |open|
  {
    if open != map[] {
      var j := if id in open then id else var j :| j in open; j;
      SumSplit(open, j, f);
      SumBound(open - {j}, id, f);
    }
  }

  /** The prefiller that `r` holds KV on, if it holds any, and how much. */
  function KvKey(r: Request): string {
    if r.Reselecting? then r.newKey else r.prefillKey
  }

  function KvLoad(r: Request): real {
    match r
    case Prefilling(_, load, _) => load
    case Decoding(_, load, _, _, released) => if released then 0.0 else load
    case Recomputing(_, _, _, _, _) => 0.0
    case Reselecting(_, _, _, _, _, load, _) => load
  }

  /** The tokens that `r` holds on its decoder. */
  function TokenLoad(r: Request): real {
    match r
    case Decoding(_, _, _, load, _) => load
    case Recomputing(_, _, _, load, released) => if released then 0.0 else load
    case _ => 0.0
  }

  function TokenKey(r: Request): string {
    if r.Prefilling? then "" else r.decodeKey
  }

  function Kv(r: Request, k: string): real {
    if KvKey(r) == k then KvLoad(r) else 0.0
  }

  function Tokens(r: Request, k: string): real {
    if TokenKey(r) == k then TokenLoad(r) else 0.0
  }

  function KvOn(k: string): Request -> real {
    (r: Request) => Kv(r, k)
  }

  function TokensOn(k: string): Request -> real {
    (r: Request) => Tokens(r, k)
  }

  ghost function HeldKv(open: map<nat, Request>, k: string): real {
    Sum(open, KvOn(k))
  }

  ghost function HeldTokens(open: map<nat, Request>, k: string): real {
    Sum(open, TokensOn(k))
  }

  lemma LedgerSet(open: map<nat, Request>, id: nat, r: Request, k: string)
    ensures HeldKv(open[id := r], k) == HeldKv(open, k) + Kv(r, k) - if id in open then Kv(open[id], k) else 0.0
    ensures HeldTokens(open[id := r], k)
            == HeldTokens(open, k) + Tokens(r, k) - if id in open then Tokens(open[id], k) else 0.0
  {
    SumUpdate(open, id, r, KvOn(k));
    SumUpdate(open, id, r, TokensOn(k));
  }

  lemma LedgerDrop(open: map<nat, Request>, id: nat, k: string)
    requires id in open
    ensures HeldKv(open - {id}, k) == HeldKv(open, k) - Kv(open[id], k)
    ensures HeldTokens(open - {id}, k) == HeldTokens(open, k) - Tokens(open[id], k)
  {
    SumSplit(open, id, KvOn(k));
    SumSplit(open, id, TokensOn(k));
  }

  lemma LedgerBound(s: Sched, open: map<nat, Request>, id: nat, k: string)
    requires AllHeld(s, open) && id in open
    ensures 0.0 <= Kv(open[id], k) <= HeldKv(open, k)
    ensures 0.0 <= Tokens(open[id], k) <= HeldTokens(open, k)
  {
    assert forall j :: j in open ==> Holds(s, open[j]);
    SumBound(open, id, KvOn(k));
    SumBound(open, id, TokensOn(k));
  }

  // ---------- what requests name ----------

  /** The servers that `r` names are live, and its loads positive. */
  ghost predicate Holds(s: Sched, r: Request) {
    && r.prefillLoad > 0.0 && r.decodeLoad > 0.0 && r.prefillKey in s.prefill.servers
    && (!r.Prefilling? ==> r.decodeKey in s.decode.servers)
    && (r.Reselecting? ==> r.newKey in s.prefill.servers && r.newLoad > 0.0 && r.newDecodeLoad > 0.0)
  }

  ghost predicate AllHeld(s: Sched, open: map<nat, Request>) {
    forall id :: id in open ==> Holds(s, open[id])
  }

  ghost predicate Named(p: Pool) {
    forall k :: k in p.servers ==> k != ""
  }

  lemma KeyIsNotEmpty(host: string, port: int)
    ensures ServerKey(host, port) != ""
  {
    assert ServerKey(host, port)[|NormalizeHost(host)|] == ':';
  }

  lemma StillHeld(w: World, w': World, id: nat)
    requires AllHeld(w.s, w.open)
    requires w'.s.prefill.servers.Keys == w.s.prefill.servers.Keys
    requires w'.s.decode.servers.Keys == w.s.decode.servers.Keys
    requires forall j :: j in w'.open && j != id ==> j in w.open && w'.open[j] == w.open[j]
    requires id in w'.open ==> Holds(w'.s, w'.open[id])
    ensures AllHeld(w'.s, w'.open)
  {
    forall j | j in w'.open ensures Holds(w'.s, w'.open[j]) {
      assert j != id ==> Holds(w.s, w.open[j]);
    }
  }

  lemma Counted(open: map<nat, Request>, id: nat, r: Request)
    ensures |open[id := r]| == if id in open then |open| else |open| + 1
    ensures id in open ==> |open - {id}| == |open| - 1
  {
    assert open[id := r].Keys == open.Keys + {id};
    assert (open - {id}).Keys == open.Keys - {id};
    assert |open| == |open.Keys| && |open[id := r]| == |open[id := r].Keys| && |open - {id}| == |(open - {id}).Keys|;
  }

  lemma ScoresArePositive(length: nat)
    requires length >= 1
    ensures PrefillScore(length) > 0.0 && DecodeScore(length) > 0.0
  {
  }

  /** The load of the decoder that `r` picks next. */
  function NextDecodeLoad(r: Request): real {
    if r.Reselecting? then r.newDecodeLoad else r.decodeLoad
  }

  lemma {:induction false} SumOfZeros(open: map<nat, Request>, f: Request -> real)
    requires forall id :: id in open ==> f(open[id]) == 0.0
    ensures Sum(open, f) == 0.0
    decreases |open|
  {
    if open != map[] {
      var id :| id in open;
      SumSplit(open, id, f);
      SumOfZeros(open - {id}, f);
    }
  }

  /** Nothing is reserved on a server that is not live. */
  lemma UnknownIsFree(s: Sched, open: map<nat, Request>, k: string)
    requires AllHeld(s, open)
    ensures k !in s.prefill.servers ==> HeldKv(open, k) == 0.0
    ensures k !in s.decode.servers ==> HeldTokens(open, k) == 0.0
  {
    assert forall id :: id in open ==> Holds(s, open[id]);
    if k !in s.prefill.servers {
      SumOfZeros(open, KvOn(k));
    }
    if k !in s.decode.servers {
      SumOfZeros(open, TokensOn(k));
    }
  }

  predicate IsAdmin(e: Event) {
    e.AddNodes? || e.Retry? || e.GiveUp? || e.Activate? || e.Remove? || e.Finalize?
  }

  /** Announcements touch the waiting nodes and nothing else. */
  lemma {:induction false} AddedOnlyWaits(s: Sched, role: ServerRole, instances: seq<(string, int)>)
    ensures InstancesAdded(s, role, instances) == s.(waiting := InstancesAdded(s, role, instances).waiting)
    decreases |instances|
  {
    if instances != [] {
      AddedOnlyWaits(s, role, instances[..|instances| - 1]);
    }
  }
}
