/**
 The state under the two process-wide mutexes (`CLIENTS` and `CONNECT_GUARDS`), and what each
 critical section does to it. The step system of module `CacheProtocol` and the classes of
 module `CacheObjects` both use these definitions.
*/
module CacheSpec {
  /** The cache key, `hosts|fingerprint`. */
  type Key = string

  /** A cached client and the time of its last use. */
  datatype Entry = Entry(client: nat, lastUsed: nat)

  /** `ClientCache`: the map and the process it belongs to. */
  datatype Cache = Cache(pid: nat, entries: map<Key, Entry>)

  /** `ConnectGuards`: one guard per key in use; guard ids are never reused. */
  datatype Guards = Guards(pid: nat, byKey: map<Key, nat>, next: nat)

  /** `clients_lock`: a fork child starts with an empty cache. */
  function Adopt(c: Cache, pid: nat): Cache {
    if c.pid == pid then c else Cache(pid, map[])
  }

  /** `connect_guard`: the guard of `key`, made on first use; a fork child forgets them all. */
  function AdoptGuards(g: Guards, pid: nat): Guards {
    if g.pid == pid then g else Guards(pid, map[], g.next)
  }

  function WithGuard(g: Guards, pid: nat, key: Key): Guards {
    var a := AdoptGuards(g, pid);
    if key in a.byKey then a else Guards(pid, a.byKey[key := a.next], a.next + 1)
  }

  /** `release_connect_guard`, where `clones` counts the threads that hold a clone. */
  function Released(g: Guards, key: Key, clones: nat): Guards {
    if key in g.byKey && clones == 0 then g.(byKey := g.byKey - {key}) else g
  }

  /** A cache hit refreshes `last_used`. */
  function Touched(c: Cache, key: Key, now: nat): Cache
    requires key in c.entries
  {
    c.(entries := c.entries[key := c.entries[key].(lastUsed := now)])
  }

  /** `close()` removes the entry only if it still holds the client that was closed. */
  function Removed(c: Cache, key: Key, client: nat): Cache {
    if key in c.entries && c.entries[key].client == client then c.(entries := c.entries - {key}) else c
  }

  /** `entry(key).or_insert(..)`. */
  function Inserted(c: Cache, key: Key, e: Entry): Cache {
    if key in c.entries then c else c.(entries := c.entries[key := e])
  }

  /** The keys whose client has no other holder than the cache. */
  function IdleKeys(entries: map<Key, Entry>, strong: map<nat, nat>): set<Key> {
    set k | k in entries && entries[k].client in strong && strong[entries[k].client] == 1
  }

  function Keys(keys: seq<Key>): set<Key> {
    set k | k in keys
  }

  /**
   `evicted` is what `evict_idle_clients` may have taken out of `entries` so far, in that order,
   when the entries in `idle` have no other holder: only idle entries leave, each once and in
   order of last use; no evicted entry is more recent than a retained idle one; and nothing
   leaves while the size is below the cap.
  */
  ghost predicate EvictedSoFar(entries: map<Key, Entry>, idle: set<Key>, cap: nat, evicted: seq<Key>) {
    && (forall i :: 0 <= i < |evicted| ==> evicted[i] in entries && evicted[i] in idle)
    && (forall i, j :: 0 <= i < j < |evicted| ==>
          evicted[i] != evicted[j] && entries[evicted[i]].lastUsed <= entries[evicted[j]].lastUsed)
    && (forall i, k :: 0 <= i < |evicted| && k in entries && k in idle && k !in evicted ==>
          entries[evicted[i]].lastUsed <= entries[k].lastUsed)
    && (|evicted| == 0 || |entries| - |evicted| + 1 >= cap)
  }

  /** Eviction stops as soon as the size is below the cap or no idle entry remains. */
  ghost predicate Eviction(entries: map<Key, Entry>, idle: set<Key>, cap: nat, evicted: seq<Key>) {
    && EvictedSoFar(entries, idle, cap, evicted)
    && (|entries| - |evicted| < cap || forall k :: k in entries && k in idle ==> k in evicted)
  }

  /** The least recently used idle entry may go next. */
  lemma OneMoreEvicted(entries: map<Key, Entry>, idle: set<Key>, cap: nat, evicted: seq<Key>, next: Key)
    requires EvictedSoFar(entries, idle, cap, evicted) && |entries| - |evicted| >= cap
    requires next in entries && next in idle && next !in evicted
    requires forall k :: k in entries && k in idle && k !in evicted ==> entries[next].lastUsed <= entries[k].lastUsed
    ensures EvictedSoFar(entries, idle, cap, evicted + [next])
  {}

  /** The outcome of `evict_idle_clients`: the map without the evicted keys, and their entries. */
  ghost predicate Evicts(before: Cache, strong: map<nat, nat>, cap: nat, after: Cache, evicted: seq<Entry>, keys: seq<Key>) {
    && Eviction(before.entries, IdleKeys(before.entries, strong), cap, keys)
    && after == Cache(before.pid, before.entries - Keys(keys))
    && |evicted| == |keys|
    && forall i :: 0 <= i < |keys| ==> keys[i] in before.entries && evicted[i] == before.entries[keys[i]]
  }

  lemma {:induction false} DistinctCount(keys: seq<Key>)
    requires forall i, j :: 0 <= i < j < |keys| ==> keys[i] != keys[j]
    ensures |Keys(keys)| == |keys|
  {
    if keys == [] {
    } else {
      var n := |keys| - 1;
      DistinctCount(keys[..n]);
      assert Keys(keys) == Keys(keys[..n]) + {keys[n]};
    }
  }

  lemma SizeWithout(entries: map<Key, Entry>, keys: seq<Key>)
    requires forall i :: 0 <= i < |keys| ==> keys[i] in entries
    ensures |entries - Keys(keys)| == |entries| - |Keys(keys)|
  {}
}
