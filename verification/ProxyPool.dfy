/** One role's server pool: the live servers and the lazy-deletion heap that indexes them.
  *
  *   - `Indexes`: every live server's current entry is in the heap once; all others are older;
  *   - `RolePools.Valid`: the heap indexes the servers, and has at most two entries for each;
  *   - the lemmas before the class say what pushing, popping and rebuilding do to an index;
  *   - the class has one method per step of the original, and each keeps `Valid`.
  *
  * `Contents` and `Cur` are the servers without the heap and their current entries; every
  * method says what it makes of `Contents` by an operation of `ProxySpec`.
  */
module ProxyPool {
  import opened ProxyHeap
  import opened ProxySpec
  import opened Wrappers

  /** `h` holds the current entry of every server once; all its other entries are older. */
  ghost predicate Indexes(h: seq<Entry>, cur: map<string, Entry>) {
    && IsHeap(h)
    && (forall e :: e in h ==> Tracks(e, cur) && (e == cur[e.key] || e.stamp < cur[e.key].stamp))
    && (forall k :: k in cur ==> multiset(h)[cur[k]] == 1)
  }

  ghost predicate Tracks(e: Entry, cur: map<string, Entry>) {
    e.key in cur && e.ordinal == cur[e.key].ordinal
  }

  /** As `Indexes`, for every server but `k`, whose current entry may be absent. */
  ghost predicate IndexesBut(h: seq<Entry>, cur: map<string, Entry>, k: string) {
    && IsHeap(h)
    && (forall e :: e in h ==>
          Tracks(e, cur) && (e == cur[e.key] || e.stamp < cur[e.key].stamp || (e.key == k && e.stamp == cur[k].stamp)))
    && (forall j :: j in cur && j != k ==> multiset(h)[cur[j]] == 1)
  }

  ghost predicate Keyed(cur: map<string, Entry>) {
    forall k :: k in cur ==> cur[k].key == k
  }

  /** `cur` records the ordinal of every server of `p`, and its priority unless it is `k`'s. */
  ghost predicate AccurateBut(role: ServerRole, p: Pool, cur: map<string, Entry>, k: string) {
    && cur.Keys == p.servers.Keys && Keyed(cur)
    && (forall j :: j in cur ==> cur[j].ordinal == p.servers[j].ordinal)
    && (forall j :: j in cur && j != k ==> cur[j].priority == Priority(role, p, j))
  }

  ghost predicate Accurate(role: ServerRole, p: Pool, cur: map<string, Entry>) {
    && cur.Keys == p.servers.Keys && Keyed(cur)
    && (forall j :: j in cur ==> cur[j].ordinal == p.servers[j].ordinal)
    && (forall j :: j in cur ==> cur[j].priority == Priority(role, p, j))
  }

  /** Two heap positions that tie on (priority, ordinal, heap_seq) hold the same entry,
    * and a server's current entry occurs only once: the key component never decides. */
  lemma KeyNeverDecides(h: seq<Entry>, cur: map<string, Entry>, a: Entry, b: Entry)
    requires Indexes(h, cur) && a in h && b in h
    requires forall k, j :: k in cur && j in cur && k != j ==> cur[k].ordinal != cur[j].ordinal
    requires a.priority == b.priority && a.ordinal == b.ordinal && a.stamp == b.stamp
    ensures a == b
  {
    assert cur[a.key].ordinal == cur[b.key].ordinal;
  }

  lemma IndexForgets(h: seq<Entry>, cur: map<string, Entry>, k: string)
    requires Indexes(h, cur) && k in cur
    ensures IndexesBut(h, cur, k)
  {
  }

  lemma IndexGrows(h: seq<Entry>, cur: map<string, Entry>, k: string, e: Entry)
    requires Indexes(h, cur) && k !in cur
    ensures IndexesBut(h, cur[k := e], k)
  {
    forall f | f in h ensures Tracks(f, cur[k := e]) && f.key != k {
      assert Tracks(f, cur);
    }
  }

  /** `items` lists the entries of `cur`, each once. */
  ghost predicate Lists(items: seq<Entry>, cur: map<string, Entry>) {
    && |items| == |cur|
    && (forall e :: e in items ==> e.key in cur && e == cur[e.key])
    && (forall k :: k in cur ==> multiset(items)[cur[k]] == 1)
  }

  lemma ListsAppend(items: seq<Entry>, cur: map<string, Entry>, e: Entry)
    requires Lists(items, cur) && e.key !in cur && forall k :: k in cur ==> cur[k].key == k
    ensures Lists(items + [e], cur[e.key := e])
  {
    assert e !in items && e !in multiset(items);
    assert cur[e.key := e].Keys == cur.Keys + {e.key};
    assert |cur[e.key := e]| == |cur.Keys + {e.key}| == |cur| + 1;
    forall f | f in items + [e] ensures f.key in cur[e.key := e] && f == cur[e.key := e][f.key] {
      assert f == e || f in items;
    }
  }

  lemma PushIndexes(h: seq<Entry>, h': seq<Entry>, cur: map<string, Entry>, e: Entry)
    requires e.key in cur && IndexesBut(h, cur, e.key) && Keyed(cur)
    requires e.ordinal == cur[e.key].ordinal && cur[e.key].stamp < e.stamp
    requires IsHeap(h') && multiset(h') == multiset(h) + multiset{e}
    ensures Indexes(h', cur[e.key := e])
  {
    var cur' := cur[e.key := e];
    forall f | f in h' ensures Tracks(f, cur') && (f == cur'[f.key] || f.stamp < cur'[f.key].stamp) {
      assert f in multiset(h');
      assert f != e ==> f in h;
    }
    forall j | j in cur' ensures multiset(h')[cur'[j]] == 1 {
      if j == e.key {
        assert e !in h;
      }
    }
  }

  lemma SameSize<U, V>(m: map<string, U>, m': map<string, V>)
    requires m.Keys == m'.Keys
    ensures |m| == |m'|
  {
    assert |m| == |m.Keys| && |m'| == |m'.Keys|;
  }

  method PushEntry(heap: seq<Entry>, e: Entry, ghost cur: map<string, Entry>) returns (h: seq<Entry>)
    requires e.key in cur && IndexesBut(heap, cur, e.key) && Keyed(cur)
    requires e.ordinal == cur[e.key].ordinal && cur[e.key].stamp < e.stamp
    ensures Indexes(h, cur[e.key := e]) && |h| == |heap| + 1
  {
    h := HeapPush(heap, e);
    PushIndexes(heap, h, cur, e);
  }

  lemma PopOutdated(h: seq<Entry>, h': seq<Entry>, e: Entry, cur: map<string, Entry>)
    requires Indexes(h, cur) && Keyed(cur)
    requires IsHeap(h') && multiset(h) == multiset(h') + multiset{e}
    requires e.key !in cur || e.stamp != cur[e.key].stamp
    ensures Indexes(h', cur) && e.key in cur
  {
    assert e in multiset(h) && e in h;
    forall f | f in h' ensures f in h {
      assert f in multiset(h') && f in multiset(h);
    }
  }

  lemma PopCurrent(h: seq<Entry>, h': seq<Entry>, e: Entry, cur: map<string, Entry>)
    requires Indexes(h, cur) && Keyed(cur)
    requires IsHeap(h') && multiset(h) == multiset(h') + multiset{e}
    requires forall f :: f in h ==> Leq(e, f)
    requires e.key in cur && e.stamp == cur[e.key].stamp
    ensures IndexesBut(h', cur, e.key) && e == cur[e.key]
    ensures forall k :: k in cur ==> Leq(e, cur[k])
  {
    assert e in multiset(h) && e in h;
    forall f | f in h' ensures f in h {
      assert f in multiset(h') && f in multiset(h);
    }
    forall k | k in cur ensures Leq(e, cur[k]) {
      assert multiset(h)[cur[k]] == 1 && cur[k] in multiset(h);
    }
    forall k | k in cur && k != e.key ensures multiset(h')[cur[k]] == 1 {
      assert cur[k] != e;
    }
  }

  /** Pop the front entry of an index: either it is outdated and the rest still indexes
    * every server, or it is the least of all current entries. */
  method PopEntry(heap: seq<Entry>, ghost cur: map<string, Entry>) returns (e: Entry, h: seq<Entry>)
    requires Indexes(heap, cur) && Keyed(cur) && |heap| > 0
    ensures |h| < |heap| && e.key in cur
    ensures e.stamp != cur[e.key].stamp ==> Indexes(h, cur)
    ensures e.stamp == cur[e.key].stamp ==>
         IndexesBut(h, cur, e.key) && forall k :: k in cur ==> Leq(cur[e.key], cur[k])
  {
    e, h := HeapPop(heap);
    if e.key !in cur || e.stamp != cur[e.key].stamp {
      PopOutdated(heap, h, e, cur);
    } else {
      PopCurrent(heap, h, e, cur);
    }
  }

  method HeapOf(items: seq<Entry>, ghost cur: map<string, Entry>) returns (h: seq<Entry>)
    requires Lists(items, cur)
    ensures Indexes(h, cur) && |h| == |cur|
  {
    h := Heapify(items);
    forall e | e in h ensures e in items {
      assert e in multiset(h) && e in multiset(items);
    }
  }

  /** The front server of an accurate index is the one that a scan finds. */
  lemma LeastEntryIsLeast(role: ServerRole, p: Pool, cur: map<string, Entry>, k: string)
    requires Accurate(role, p, cur) && DistinctOrdinals(p) && k in cur
    requires forall j :: j in cur ==> Leq(cur[k], cur[j])
    ensures IsLeast(role, p, k)
  {
    forall j | j in p.servers && j != k ensures Ahead(role, p, k, j) {
      assert Leq(cur[k], cur[j]) && p.servers[k].ordinal != p.servers[j].ordinal;
    }
  }

  lemma EntryRestoresAccuracy(role: ServerRole, p: Pool, cur: map<string, Entry>, e: Entry)
    requires e.key in cur && AccurateBut(role, p, cur, e.key)
    requires e.priority == Priority(role, p, e.key) && e.ordinal == p.servers[e.key].ordinal
    ensures Accurate(role, p, cur[e.key := e]) && Keyed(cur) && cur[e.key].ordinal == e.ordinal
  {
  }

  /** Changing one server, or whether its key is tainted, spoils only its own recorded priority. */
  lemma ServerChangeKeepsOthers(role: ServerRole, p: Pool, p': Pool, cur: map<string, Entry>, k: string)
    requires Accurate(role, p, cur) && DistinctOrdinals(p) && p'.servers.Keys == p.servers.Keys
    requires k in p.servers ==> p'.servers[k].ordinal == p.servers[k].ordinal
    requires forall j :: j in p.servers && j != k ==> p'.servers[j] == p.servers[j]
    requires forall j :: j != k ==> (j in p'.tainted <==> j in p.tainted)
    ensures DistinctOrdinals(p') && AccurateBut(role, p', cur, k)
    ensures k !in p.servers ==> Accurate(role, p', cur)
  {
    forall j | j in cur && j != k ensures cur[j].priority == Priority(role, p', j) {
    }
  }

  lemma LoadKeepsOthers(role: ServerRole, p: Pool, cur: map<string, Entry>, k: string, tokens: real, kv: real)
    requires Accurate(role, p, cur) && DistinctOrdinals(p) && k in p.servers
    ensures DistinctOrdinals(Loaded(p, k, tokens, kv)) && AccurateBut(role, Loaded(p, k, tokens, kv), cur, k)
    ensures k in Loaded(p, k, tokens, kv).servers
    ensures Loaded(p, k, tokens, kv).servers[k].host == p.servers[k].host
    ensures Loaded(p, k, tokens, kv).servers[k].port == p.servers[k].port
  {
    ServerChangeKeepsOthers(role, p, Loaded(p, k, tokens, kv), cur, k);
  }

  /** Tainting a key that no server has changes no priority. */
  lemma NothingRemoved(role: ServerRole, p: Pool, p': Pool, cur: map<string, Entry>, cur': map<string, Entry>,
                       keys: set<string>)
    requires Accurate(role, p, cur) && p'.servers == p.servers - keys && cur' == cur - keys
    requires forall k :: k in keys ==> k !in p.servers
    requires p'.tainted == p.tainted - keys
    ensures p'.servers == p.servers && cur' == cur && Accurate(role, p', cur')
  {
  }

  lemma FewerServersDistinct(p: Pool, keys: set<string>, tainted: set<string>)
    requires DistinctOrdinals(p)
    ensures DistinctOrdinals(Pool(p.servers - keys, tainted))
  {
  }

  lemma MinusOne<V>(m: map<string, V>, keys: set<string>, todo: set<string>, key: string)
    requires key in todo && todo <= keys
    ensures m - (keys - todo) - {key} == m - (keys - (todo - {key}))
  {
  }

  lemma NewServerKeepsOthers(role: ServerRole, p: Pool, cur: map<string, Entry>, e: Entry, server: Server)
    requires Accurate(role, p, cur) && DistinctOrdinals(p) && e.key !in p.servers && e.ordinal == server.ordinal
    requires forall j :: j in p.servers ==> p.servers[j].ordinal != server.ordinal
    ensures var p' := p.(servers := p.servers[e.key := server]);
            DistinctOrdinals(p') && AccurateBut(role, p', cur[e.key := e], e.key)
  {
  }

  /** `items` lists exact entries for every server outside `todo`. */
  ghost predicate Rebuilt(role: ServerRole, p: Pool, cur: map<string, Entry>, items: seq<Entry>, todo: set<string>) {
    && cur.Keys == p.servers.Keys
    && Lists(items, cur - todo)
    && forall k :: k in cur && k !in todo ==>
         cur[k] == Entry(Priority(role, p, k), p.servers[k].ordinal, cur[k].stamp, k)
  }

  lemma RebuildStarts(role: ServerRole, p: Pool, cur: map<string, Entry>)
    requires cur.Keys == p.servers.Keys
    ensures Rebuilt(role, p, cur, [], cur.Keys)
  {
    assert cur - cur.Keys == map[];
  }

  lemma RebuildStep(role: ServerRole, p: Pool, cur: map<string, Entry>, items: seq<Entry>, todo: set<string>, e: Entry)
    requires Rebuilt(role, p, cur, items, todo) && e.key in todo && e.key in cur
    requires e.priority == Priority(role, p, e.key) && e.ordinal == p.servers[e.key].ordinal
    ensures Rebuilt(role, p, cur[e.key := e], items + [e], todo - {e.key})
  {
    ListsAppend(items, cur - todo, e);
    assert cur[e.key := e] - (todo - {e.key}) == (cur - todo)[e.key := e];
  }

  lemma RebuildEnds(role: ServerRole, p: Pool, cur: map<string, Entry>, items: seq<Entry>)
    requires Rebuilt(role, p, cur, items, {})
    ensures Accurate(role, p, cur) && Lists(items, cur)
  {
    assert cur - {} == cur;
  }

  lemma AccurateIsKeyed(role: ServerRole, p: Pool, cur: map<string, Entry>)
    requires Accurate(role, p, cur)
    ensures Keyed(cur)
  {
  }

  lemma EmptyIndex(h: seq<Entry>, cur: map<string, Entry>)
    requires Indexes(h, cur) && h == []
    ensures cur == map[]
  {
    assert forall k :: k in cur ==> multiset(h)[cur[k]] == 1;
  }

  class BackendServer {
    const host: string
    const port: int
    const ordinal: nat
    ghost const name: string  // the key it is stored under
    var activeTokens: real
    var activeKvCache: real
    var heapSeq: nat

    constructor (host: string, port: int, ordinal: nat)
      ensures State() == Server(host, port, ordinal, 0.0, 0.0) && heapSeq == 0
      ensures name == ServerKey(host, port)
    {
      this.host, this.port, this.ordinal, name := host, port, ordinal, ServerKey(host, port);
      activeTokens, activeKvCache, heapSeq := 0.0, 0.0, 0;
    }

    ghost function State(): Server
      reads this
    {
      Server(host, port, ordinal, activeTokens, activeKvCache)
    }
  }

  datatype Picked = Picked(key: string, host: string, port: int)

  class RolePools {
    const role: ServerRole
    var servers: map<string, BackendServer>
    var heap: seq<Entry>
    var tainted: set<string>

    ghost var Repr: set<BackendServer>  // the server objects
    ghost var Contents: Pool  // the pool as a plain value
    ghost var Cur: map<string, Entry>  // every server's current heap entry

    constructor (role: ServerRole)
      ensures Valid() && this.role == role && Repr == {} && Contents == Pool(map[], {})
    {
      this.role := role;
      servers, heap, tainted := map[], [], {};
      Contents, Cur, Repr := Pool(map[], {}), map[], {};
    }

    /** The server objects hold what the ghost values say. */
    ghost predicate Synced()
      reads `servers, `tainted, `Repr, `Contents, `Cur, Repr
    {
      && Contents.tainted == tainted
      && servers.Keys == Contents.servers.Keys == Cur.Keys
      && forall k :: k in servers ==>
           && servers[k] in Repr && servers[k].name == k
           && servers[k].State() == Contents.servers[k]
           && servers[k].heapSeq == Cur[k].stamp
    }

    ghost predicate Valid()
      reads this, Repr
    {
      && Synced()
      && DistinctOrdinals(Contents)
      && Accurate(role, Contents, Cur)
      && Indexes(heap, Cur)
      && |heap| <= 2 * |servers|
    }

    function PriorityOf(key: string): real
      requires key in servers
      reads this, servers[key]
    {
      if key in tainted then TAINT_PRIORITY
      else if role.Prefill? then servers[key].activeTokens + servers[key].activeKvCache * 0.3
      else servers[key].activeTokens
    }

    lemma SyncedKeys()
      requires Synced()
      ensures servers.Keys == Contents.servers.Keys == Cur.Keys && Contents.tainted == tainted
    {
    }

    lemma ValidKeys()
      requires Valid()
      ensures servers.Keys == Contents.servers.Keys && Contents.tainted == tainted
    {
    }

    lemma SyncedServer(key: string)
      requires Synced() && key in servers
      ensures servers[key] in Repr && servers[key].heapSeq == Cur[key].stamp
      ensures key in Contents.servers && servers[key].State() == Contents.servers[key]
    {
    }

    /** The entry of `key` for its present load, under a new sequence number if `bumpSeq`. */
    method RefreshEntry(key: string, bumpSeq: bool) returns (e: Entry)
      requires Synced() && key in servers
      modifies this`Cur, Repr`heapSeq
      ensures Synced() && Cur == old(Cur)[key := e]
      ensures e.key == key && e.priority == Priority(role, Contents, key) && e.ordinal == Contents.servers[key].ordinal
      ensures e.stamp == old(Cur)[key].stamp + if bumpSeq then 1 else 0
    {
      var entry := servers[key];
      if bumpSeq {
        entry.heapSeq := entry.heapSeq + 1;
      }
      e := Entry(PriorityOf(key), entry.ordinal, entry.heapSeq, key);
      Cur := Cur[key := e];
    }

    // The next three methods change the heap list and nothing else.

    method InsertEntry(e: Entry, ghost before: map<string, Entry>)
      requires Synced() && e.key in before && Cur == before[e.key := e]
      requires IndexesBut(heap, before, e.key) && Keyed(before)
      requires e.ordinal == before[e.key].ordinal && before[e.key].stamp < e.stamp
      modifies this`heap
      ensures Synced() && Indexes(heap, Cur)
    {
      hide Indexes, IndexesBut, Keyed;
      heap := PushEntry(heap, e, before);
    }

    method TakeEntry() returns (e: Entry)
      requires Synced() && Indexes(heap, Cur) && Keyed(Cur) && |heap| > 0
      modifies this`heap
      ensures Synced() && |heap| < old(|heap|) && e.key in servers
      ensures e.stamp != Cur[e.key].stamp ==> Indexes(heap, Cur)
      ensures e.stamp == Cur[e.key].stamp ==>
                IndexesBut(heap, Cur, e.key) && forall k :: k in Cur ==> Leq(Cur[e.key], Cur[k])
    {
      hide Indexes, IndexesBut, Keyed;
      e, heap := PopEntry(heap, Cur);
    }

    method BuildHeap(items: seq<Entry>)
      requires Synced() && Lists(items, Cur)
      modifies this`heap
      ensures Synced() && Indexes(heap, Cur) && |heap| == |servers|
    {
      hide Indexes, Lists;
      SameSize(servers, Cur);
      heap := HeapOf(items, Cur);
    }

    /** Give a server whose load or tainting changed a new current entry. */
    method PushHeap(key: string)
      requires Synced() && DistinctOrdinals(Contents) && key in servers
      requires AccurateBut(role, Contents, Cur, key) && IndexesBut(heap, Cur, key)
      modifies this`heap, this`Cur, Repr`heapSeq
      ensures Valid()
    {
      hide Indexes, IndexesBut, Accurate, AccurateBut, Keyed, DistinctOrdinals, Synced;
      SyncedKeys();
      var e := RefreshEntry(key, true);
      EntryRestoresAccuracy(role, Contents, old(Cur), e);
      InsertEntry(e, old(Cur));
      if |heap| > 2 * |servers| {
        ResetHeap(false);
      }
    }

    /** Rebuild the heap with one entry per live server. */
    method ResetHeap(bumpSeq: bool)
      requires Synced() && DistinctOrdinals(Contents)
      modifies this`heap, this`Cur, Repr`heapSeq
      ensures Valid()
    {
      hide Indexes, Lists, DistinctOrdinals, Accurate, Synced, Rebuilt;
      SyncedKeys();
      var items: seq<Entry> := [];
      var todo := servers.Keys;
      RebuildStarts(role, Contents, Cur);
      while todo != {}
        invariant Synced() && todo <= servers.Keys == Cur.Keys
        invariant Rebuilt(role, Contents, Cur, items, todo)
        decreases todo
      {
        var key :| key in todo;
        ghost var cur := Cur;
        var e := RefreshEntry(key, bumpSeq);
        RebuildStep(role, Contents, cur, items, todo, e);
        items := items + [e];
        todo := todo - {key};
      }
      RebuildEnds(role, Contents, Cur, items);
      BuildHeap(items);
    }

    /** Discard outdated entries until the front one is current.  It belongs to the server
      * that a scan for the least (priority, ordinal) finds; the heap runs dry exactly when
      * there is no server.  A popped key is always live: removals rebuild the heap. */
    method PopValid() returns (key: Option<string>)
      requires Valid()
      modifies this`heap
      ensures Synced() && DistinctOrdinals(Contents) && Accurate(role, Contents, Cur)
      ensures key.None? <==> Contents.servers == map[]
      ensures key.None? ==> Valid()
      ensures key.Some? ==>
           key.value in Contents.servers && IsLeast(role, Contents, key.value) && IndexesBut(heap, Cur, key.value)
    {
      hide Indexes, IndexesBut, DistinctOrdinals, Accurate, Synced, Keyed, IsLeast;
      SyncedKeys();
      AccurateIsKeyed(role, Contents, Cur);
      while |heap| > 0
        invariant Synced() && Indexes(heap, Cur) && |heap| <= 2 * |servers|
        decreases |heap|
      {
        var e := TakeEntry();
        SyncedServer(e.key);
        if servers[e.key].heapSeq == e.stamp {
          LeastEntryIsLeast(role, Contents, Cur, e.key);
          return Some(e.key);
        }
      }
      EmptyIndex(heap, Cur);
      key := None;
    }

    // The next three methods change the pool's contents and leave the index to their callers.

    method Adopt(key: string, host: string, port: int, ordinal: nat)
      requires Synced() && key == ServerKey(host, port) && key !in servers
      modifies this`servers, this`Repr, this`Contents, this`Cur
      ensures Synced() && fresh(Repr - old(Repr))
      ensures Contents == old(Contents).(servers := old(Contents).servers[key := Server(host, port, ordinal, 0.0, 0.0)])
      ensures Cur == old(Cur)[key := Entry(0.0, ordinal, 0, key)] && key in servers
    {
      var entry := new BackendServer(host, port, ordinal);
      servers := servers[key := entry];
      Repr := Repr + {entry};
      Contents := Contents.(servers := Contents.servers[key := Server(host, port, ordinal, 0.0, 0.0)]);
      Cur := Cur[key := Entry(0.0, ordinal, 0, key)];
    }

    method SetLoad(key: string, tokens: real, kv: real)
      requires Synced() && key in servers
      modifies this`Contents, Repr`activeTokens, Repr`activeKvCache
      ensures Synced()
      ensures key in old(Contents).servers && Contents == Loaded(old(Contents), key, tokens, kv)
    {
      var entry := servers[key];
      entry.activeTokens, entry.activeKvCache := tokens, kv;
      ghost var state := Contents.servers[key].(tokens := tokens, kv := kv);
      Contents := Contents.(servers := Contents.servers[key := state]);
      forall k | k in servers ensures servers[k].State() == Contents.servers[k] {
        assert old(servers[k].State()) == old(Contents).servers[k] && servers[k].name == k;
      }
    }

    method SetTainted(keys: set<string>)
      requires Synced()
      modifies this`Contents, this`tainted
      ensures Synced() && Contents == old(Contents).(tainted := keys)
    {
      tainted := keys;
      Contents := Contents.(tainted := keys);
    }

    method PopServer(key: string) returns (removed: bool)
      requires Synced()
      modifies this`servers, this`Contents, this`Cur
      ensures Synced() && removed == (key in old(Contents).servers)
      ensures Contents == old(Contents).(servers := old(Contents).servers - {key}) && Cur == old(Cur) - {key}
    {
      removed := key in servers;
      servers := servers - {key};
      Contents, Cur := Contents.(servers := Contents.servers - {key}), Cur - {key};
    }

    method PopServers(keys: set<string>) returns (removed: bool)
      requires Synced()
      modifies this`servers, this`Contents, this`Cur
      ensures Synced()
      ensures Contents == old(Contents).(servers := old(Contents).servers - keys) && Cur == old(Cur) - keys
      ensures removed <==> exists k :: k in keys && k in old(Contents).servers
    {
      hide Synced;
      removed := false;
      var todo := keys;
      while todo != {}
        invariant Synced() && todo <= keys
        invariant Contents == old(Contents).(servers := old(Contents).servers - (keys - todo))
        invariant Cur == old(Cur) - (keys - todo)
        invariant removed <==> exists k :: k in keys && k !in todo && k in old(Contents).servers
        decreases todo
      {
        var key :| key in todo;
        MinusOne(old(Contents).servers, keys, todo, key);
        MinusOne(old(Cur), keys, todo, key);
        var popped := PopServer(key);
        removed := popped || removed;
        todo := todo - {key};
      }
    }

    method AddServer(host: string, port: int, ordinal: nat) returns (added: bool)
      requires Valid() && forall k :: k in Contents.servers ==> Contents.servers[k].ordinal != ordinal
      modifies this`servers, this`Repr, this`Contents, this`Cur, this`heap, Repr`heapSeq
      ensures Valid() && fresh(Repr - old(Repr))
      ensures Contents == ProxySpec.AddServer(old(Contents), host, port, ordinal)
      ensures added <==> ServerKey(host, port) !in old(Contents).servers
    {
      hide Indexes, IndexesBut, DistinctOrdinals, Accurate, AccurateBut, Synced;
      SyncedKeys();
      var key := ServerKey(host, port);
      if key in servers {
        return false;
      }
      NewServerKeepsOthers(role, Contents, Cur, Entry(0.0, ordinal, 0, key), Server(host, port, ordinal, 0.0, 0.0));
      IndexGrows(heap, Cur, key, Entry(0.0, ordinal, 0, key));
      Adopt(key, host, port, ordinal);
      PushHeap(key);
      return true;
    }

    /** Set a server's loads and give it a new current entry. */
    method Reload(key: string, tokens: real, kv: real)
      requires Synced() && DistinctOrdinals(Contents) && Accurate(role, Contents, Cur) && key in servers
      requires IndexesBut(heap, Cur, key)
      modifies this`heap, this`Contents, this`Cur, Repr
      ensures Valid() && key in old(Contents).servers && Contents == Loaded(old(Contents), key, tokens, kv)
      ensures key in Contents.servers && Contents.servers[key].host == old(Contents).servers[key].host
      ensures Contents.servers[key].port == old(Contents).servers[key].port
    {
      hide Indexes, IndexesBut, DistinctOrdinals, Accurate, AccurateBut, Synced, Loaded;
      SyncedKeys();
      SetLoad(key, tokens, kv);
      LoadKeepsOthers(role, old(Contents), Cur, key, tokens, kv);
      PushHeap(key);
    }

    /** Pick the least loaded server and charge it. */
    method Pick(load: real, activeTokens: bool, kvCache: bool) returns (picked: Option<Picked>)
      requires Valid()
      modifies this`heap, this`Contents, this`Cur, Repr
      ensures Valid()
      ensures picked.None? <==> old(Contents).servers == map[]
      ensures picked.None? ==> Contents == old(Contents)
      ensures picked.Some? ==>
                && var Picked(key, host, port) := picked.value;
                && IsLeast(role, old(Contents), key)
                && Contents == Charge(old(Contents), key, load, activeTokens, kvCache)
                && host == Contents.servers[key].host && port == Contents.servers[key].port
    {
      hide Indexes, IndexesBut, DistinctOrdinals, Accurate, AccurateBut, Synced, IsLeast, Loaded;
      SyncedKeys();
      var popped := PopValid();
      if popped.None? {
        return None;
      }
      var key := popped.value;
      SyncedServer(key);
      var entry := servers[key];
      var tokens := if activeTokens then entry.activeTokens + load else entry.activeTokens;
      var kv := if kvCache then entry.activeKvCache + load else entry.activeKvCache;
      assert Charge(Contents, key, load, activeTokens, kvCache) == Loaded(Contents, key, tokens, kv);
      hide Charge;
      Reload(key, tokens, kv);
      return Some(Picked(key, entry.host, entry.port));
    }

    method ReleaseLoad(key: Option<string>, load: real, activeTokens: bool, kvCache: bool)
      requires Valid()
      modifies this`heap, this`Contents, this`Cur, Repr
      ensures Valid()
      ensures Contents == Discharge(old(Contents), key, load, activeTokens, kvCache)
    {
      hide Indexes, IndexesBut, DistinctOrdinals, Accurate, AccurateBut, Synced;
      SyncedKeys();
      if key.None? || key.value == "" || key.value !in servers {
        return;
      }
      SyncedServer(key.value);
      var entry := servers[key.value];
      var tokens := if activeTokens then entry.activeTokens - load else entry.activeTokens;
      var kv := if kvCache then Max(0.0, entry.activeKvCache - load) else entry.activeKvCache;
      assert Discharge(Contents, key, load, activeTokens, kvCache) == Loaded(Contents, key.value, tokens, kv);
      hide Discharge;
      IndexForgets(heap, Cur, key.value);
      Reload(key.value, tokens, kv);
    }

    /** Un-taint a key.  The push fails, after the un-tainting, when no live server has it. */
    method Untaint(key: string) returns (ok: bool)
      requires Valid()
      modifies this`heap, this`Contents, this`Cur, this`tainted, Repr`heapSeq
      ensures Valid() && ok == (key in old(Contents).servers)
      ensures Contents == old(Contents).(tainted := old(Contents).tainted - {key})
    {
      hide Indexes, IndexesBut, DistinctOrdinals, Accurate, AccurateBut, Synced;
      SyncedKeys();
      SetTainted(tainted - {key});
      ServerChangeKeepsOthers(role, old(Contents), Contents, Cur, key);
      if key !in servers {
        return false;
      }
      IndexForgets(heap, Cur, key);
      PushHeap(key);
      return true;
    }

    method Taint(keys: set<string>)
      requires Valid()
      modifies this`heap, this`Contents, this`Cur, this`tainted, Repr`heapSeq
      ensures Valid() && Contents == old(Contents).(tainted := old(Contents).tainted + keys)
    {
      hide Indexes, Accurate, Synced, DistinctOrdinals;
      SyncedKeys();
      FewerServersDistinct(Contents, {}, tainted + keys);
      assert Contents.servers - {} == Contents.servers;
      SetTainted(tainted + keys);
      ResetHeap(true);
    }

    /** Without a server to delete, the old index still fits. */
    lemma KeepsIndex(keys: set<string>, p: Pool, cur: map<string, Entry>)
      requires Synced() && DistinctOrdinals(Contents) && Accurate(role, p, cur) && Indexes(heap, cur)
           && |heap| <= 2 * |cur|
      requires Contents == Pool(p.servers - keys, p.tainted - keys) && Cur == cur - keys
      requires forall k :: k in keys ==> k !in p.servers
      ensures Valid()
    {
      hide Indexes, Accurate, Synced, DistinctOrdinals;
      NothingRemoved(role, p, Contents, cur, Cur, keys);
      SyncedKeys();
      SameSize(servers, cur);
    }

    /** Delete servers at once; without one to delete the heap is left alone. */
    method Remove(keys: set<string>) returns (removed: bool)
      requires Valid()
      modifies this`servers, this`heap, this`Contents, this`Cur, this`tainted, Repr`heapSeq
      ensures Valid() && Contents == Pool(old(Contents).servers - keys, old(Contents).tainted - keys)
    {
      hide Indexes, Accurate, Synced, DistinctOrdinals;
      SyncedKeys();
      SameSize(servers, Cur);
      FewerServersDistinct(Contents, keys, tainted - keys);
      removed := PopServers(keys);
      SetTainted(tainted - keys);
      if removed {
        ResetHeap(true);
      } else {
        KeepsIndex(keys, old(Contents), old(Cur));
      }
    }

    /** Delete every tainted server. */
    method Drain()
      requires Valid()
      modifies this`servers, this`heap, this`Contents, this`Cur, this`tainted, Repr`heapSeq
      ensures Valid() && Contents == Drained(old(Contents))
    {
      hide Indexes, Accurate, Synced, DistinctOrdinals;
      SyncedKeys();
      FewerServersDistinct(Contents, tainted, {});
      if tainted == {} {
        assert Contents.servers - {} == Contents.servers;
        return;
      }
      var removed := PopServers(tainted);
      SetTainted({});
      ResetHeap(true);
    }
  }
}
