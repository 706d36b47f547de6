/** The two caches as the source keeps them: maps updated in place under their mutex. */
module CacheObjects {
  import opened CacheSpec
  import opened Counting

  /** A candidate for eviction: `(key, last_used)`. */
  datatype Candidate = Candidate(key: Key, lastUsed: nat)

  predicate ByLastUse(cs: seq<Candidate>) {
    forall i, j :: 0 <= i < j < |cs| ==> cs[i].lastUsed <= cs[j].lastUsed
  }

  function InsertByLastUse(cs: seq<Candidate>, c: Candidate): (r: seq<Candidate>)
    requires ByLastUse(cs)
    ensures ByLastUse(r) && multiset(r) == multiset(cs) + multiset{c}
    ensures r != [] && r[|r| - 1].lastUsed == if cs == [] || cs[|cs| - 1].lastUsed <= c.lastUsed then c.lastUsed else cs[|cs| - 1].lastUsed
  {
    var n := |cs| - 1;
    if cs == [] || cs[n].lastUsed <= c.lastUsed then cs + [c]
    else
      assert cs == cs[..n] + [cs[n]];
      InsertByLastUse(cs[..n], c) + [cs[n]]
  }

  /** `sort_by_key(|(_, t)| *t)` on the idle candidates. */
  method SortByLastUse(cs: seq<Candidate>) returns (sorted: seq<Candidate>)
    ensures multiset(sorted) == multiset(cs) && ByLastUse(sorted)
  {
    sorted := [];
    for n := 0 to |cs|
      invariant multiset(sorted) == multiset(cs[..n]) && ByLastUse(sorted)
    {
      assert cs[..n + 1] == cs[..n] + [cs[n]];
      sorted := InsertByLastUse(sorted, cs[n]);
    }
    assert cs[..|cs|] == cs;
  }

  /** The candidates are exactly the idle entries, each once, with its time of last use. */
  ghost predicate CandidatesOf(cs: seq<Candidate>, entries: map<Key, Entry>, strong: map<nat, nat>) {
    && Distinct(cs)
    && (forall c <- cs :: c.key in IdleKeys(entries, strong) && c.lastUsed == entries[c.key].lastUsed)
    && (forall k <- IdleKeys(entries, strong) :: Candidate(k, entries[k].lastUsed) in cs)
  }

  predicate DistinctKeys(cs: seq<Candidate>) {
    forall i, j :: 0 <= i < j < |cs| ==> cs[i].key != cs[j].key
  }

  function FirstKeys(cs: seq<Candidate>, n: nat): (keys: seq<Key>)
    requires n <= |cs|
    ensures |keys| == n && forall i :: 0 <= i < n ==> keys[i] == cs[i].key
  {
    seq(n, i requires 0 <= i < n => cs[i].key)
  }

  lemma RemoveOne(entries: map<Key, Entry>, idle: seq<Candidate>, n: nat)
    requires n < |idle| && idle[n].key in entries
    requires DistinctKeys(idle)
    ensures var left := entries - Keys(FirstKeys(idle, n));
      && idle[n].key in left
      && left - {idle[n].key} == entries - Keys(FirstKeys(idle, n + 1))
      && |left - {idle[n].key}| == |left| - 1
  {
    assert FirstKeys(idle, n + 1) == FirstKeys(idle, n) + [idle[n].key];
    WithoutOneMore(entries, FirstKeys(idle, n), idle[n].key);
  }

  lemma WithoutOneMore(entries: map<Key, Entry>, keys: seq<Key>, key: Key)
    requires key in entries && key !in keys
    ensures var left := entries - Keys(keys);
      key in left && left - {key} == entries - Keys(keys + [key]) && |left - {key}| == |left| - 1
  {
    var left := entries - Keys(keys);
    assert Keys(keys + [key]) == Keys(keys) + {key};
    assert (left - {key}).Keys == left.Keys - {key};
  }

  ghost predicate FromEntries(cs: seq<Candidate>, entries: map<Key, Entry>) {
    && DistinctKeys(cs)
    && forall i :: 0 <= i < |cs| ==> cs[i].key in entries && cs[i].lastUsed == entries[cs[i].key].lastUsed
  }

  lemma SortedCandidates(idle: seq<Candidate>, cs: seq<Candidate>, entries: map<Key, Entry>, strong: map<nat, nat>)
    requires multiset(idle) == multiset(cs) && CandidatesOf(cs, entries, strong)
    ensures CandidatesOf(idle, entries, strong) && FromEntries(idle, entries)
  {
    SameMultiset(idle, cs);
    PermutedStaysDistinct(idle, cs);
    forall i | 0 <= i < |idle|
      ensures idle[i].key in IdleKeys(entries, strong) && idle[i].lastUsed == entries[idle[i].key].lastUsed
    {
      assert idle[i] in cs;
    }
  }

  /** `evicted` are the entries of the first candidates, and `after` is `before` without them. */
  ghost predicate Took(before: Cache, idle: seq<Candidate>, cap: nat, after: Cache, evicted: seq<Entry>) {
    && |evicted| <= |idle|
    && after == Cache(before.pid, before.entries - Keys(FirstKeys(idle, |evicted|)))
    && |after.entries| == |before.entries| - |evicted|
    && (evicted == [] || |after.entries| + 1 >= cap)
    && forall i :: 0 <= i < |evicted| ==> idle[i].key in before.entries && evicted[i] == before.entries[idle[i].key]
  }

  lemma TookNone(before: Cache, idle: seq<Candidate>, cap: nat)
    ensures Took(before, idle, cap, before, [])
  {}

  lemma TookOneMore(before: Cache, idle: seq<Candidate>, cap: nat, after: Cache, evicted: seq<Entry>)
    requires FromEntries(idle, before.entries) && Took(before, idle, cap, after, evicted)
    requires |evicted| < |idle| && |after.entries| >= cap
    ensures var key := idle[|evicted|].key;
      key in after.entries &&
      Took(before, idle, cap, Cache(after.pid, after.entries - {key}), evicted + [after.entries[key]])
  {
    var n := |evicted|;
    OneFewer(before.entries, idle, n, after.entries);
    var e := after.entries[idle[n].key];
    OneMoreEntry(before.entries, idle, evicted, e);
    TookMany(before, idle, cap, after.entries - {idle[n].key}, evicted + [e]);
  }

  lemma TookMany(before: Cache, idle: seq<Candidate>, cap: nat, left: map<Key, Entry>, evicted: seq<Entry>)
    requires |evicted| <= |idle| && left == before.entries - Keys(FirstKeys(idle, |evicted|))
    requires |left| == |before.entries| - |evicted| && |left| + 1 >= cap
    requires forall i :: 0 <= i < |evicted| ==> idle[i].key in before.entries && evicted[i] == before.entries[idle[i].key]
    ensures Took(before, idle, cap, Cache(before.pid, left), evicted)
  {}

  lemma OneFewer(entries: map<Key, Entry>, idle: seq<Candidate>, n: nat, left: map<Key, Entry>)
    requires FromEntries(idle, entries) && n < |idle| && left == entries - Keys(FirstKeys(idle, n))
    ensures var key := idle[n].key;
      && key in left && left[key] == entries[key]
      && left - {key} == entries - Keys(FirstKeys(idle, n + 1))
      && |left - {key}| == |left| - 1
  {
    RemoveOne(entries, idle, n);
  }

  lemma OneMoreEntry(entries: map<Key, Entry>, idle: seq<Candidate>, evicted: seq<Entry>, e: Entry)
    requires |evicted| < |idle| && FromEntries(idle, entries) && e == entries[idle[|evicted|].key]
    requires forall i :: 0 <= i < |evicted| ==> evicted[i] == entries[idle[i].key]
    ensures forall i :: 0 <= i <= |evicted| ==> (evicted + [e])[i] == entries[idle[i].key]
  {}

  /** Taking the sorted candidates until the size is below the cap evicts as specified. */
  lemma TookEvicts(before: Cache, strong: map<nat, nat>, cap: nat, idle: seq<Candidate>, after: Cache, evicted: seq<Entry>)
    requires CandidatesOf(idle, before.entries, strong) && FromEntries(idle, before.entries) && ByLastUse(idle)
    requires Took(before, idle, cap, after, evicted)
    requires |after.entries| < cap || |evicted| == |idle|
    ensures Evicts(before, strong, cap, after, evicted, FirstKeys(idle, |evicted|))
  {
    var n := |evicted|;
    var keys := FirstKeys(idle, n);
    forall k | k in IdleKeys(before.entries, strong) && k !in keys
      ensures n < |idle|
      ensures forall i :: 0 <= i < n ==> before.entries[keys[i]].lastUsed <= before.entries[k].lastUsed
    {
      RetainedIsLater(before.entries, strong, idle, n, k);
    }
  }

  lemma TakenKeys(idle: seq<Candidate>, n: nat)
    requires n <= |idle|
    ensures forall i :: 0 <= i < n ==> idle[i].key in FirstKeys(idle, n)
  {
    forall i | 0 <= i < n
      ensures idle[i].key in FirstKeys(idle, n)
    {
      assert FirstKeys(idle, n)[i] == idle[i].key;
    }
  }

  /** A candidate that was not taken comes after all that were. */
  lemma RetainedIsLater(entries: map<Key, Entry>, strong: map<nat, nat>, idle: seq<Candidate>, n: nat, k: Key)
    requires CandidatesOf(idle, entries, strong) && FromEntries(idle, entries) && ByLastUse(idle) && n <= |idle|
    requires k in IdleKeys(entries, strong) && k !in FirstKeys(idle, n)
    ensures n < |idle|
    ensures forall i :: 0 <= i < n ==> idle[i].key in entries && entries[idle[i].key].lastUsed <= entries[k].lastUsed
  {
    var j: nat :| j < |idle| && idle[j] == Candidate(k, entries[k].lastUsed);
    TakenKeys(idle, n);
    assert j >= n;
  }

  class ClientCache {
    var cache: Cache

    constructor (pid: nat)
      ensures cache == Cache(pid, map[])
    {
      cache := Cache(pid, map[]);
    }

    /** `clients_lock`: what this process cached stays, what a parent cached is dropped unclosed. */
    method ClientsLock(pid: nat)
      modifies this
      ensures cache.pid == pid
      ensures old(cache).pid == pid ==> cache == old(cache)
      ensures old(cache).pid != pid ==> cache.entries == map[]
      ensures cache == Adopt(old(cache), pid)
    {
      if cache.pid != pid {
        cache := Cache(pid, map[]);
      }
    }

    /** `map.iter().filter(..).map(..).collect()`: the candidates, in any iteration order. */
    method CollectIdle(strong: map<nat, nat>) returns (cs: seq<Candidate>)
      requires forall k <- cache.entries :: cache.entries[k].client in strong
      ensures CandidatesOf(cs, cache.entries, strong)
    {
      cs := [];
      var rest := cache.entries.Keys;
      while rest != {}
        invariant rest <= cache.entries.Keys && Distinct(cs)
        invariant forall c <- cs :: c.key !in rest && c.key in IdleKeys(cache.entries, strong) && c.lastUsed == cache.entries[c.key].lastUsed
        invariant forall k <- IdleKeys(cache.entries, strong) :: k in rest || Candidate(k, cache.entries[k].lastUsed) in cs
      {
        var k :| k in rest;
        rest := rest - {k};
        if strong[cache.entries[k].client] == 1 {
          cs := cs + [Candidate(k, cache.entries[k].lastUsed)];
        }
      }
    }

    /**
     `evict_idle_clients`. `strong` gives `Arc::strong_count` of every cached client as the scan
     reads it, each at its own time; the evicted entries are returned for closing outside the lock.
    */
    method EvictIdleClients(cap: nat, strong: map<nat, nat>) returns (evicted: seq<Entry>, ghost keys: seq<Key>)
      requires forall k <- cache.entries :: cache.entries[k].client in strong
      modifies this
      ensures Evicts(old(cache), strong, cap, cache, evicted, keys)
    {
      evicted, keys := [], [];
      if |cache.entries| < cap {
        assert cache.entries - Keys(keys) == cache.entries;
        return;
      }
      var candidates := CollectIdle(strong);
      var idle := SortByLastUse(candidates);
      SortedCandidates(idle, candidates, cache.entries, strong);
      ghost var before := cache;
      evicted := RemoveInOrder(idle, cap);
      keys := FirstKeys(idle, |evicted|);
      TookEvicts(before, strong, cap, idle, cache, evicted);
    }

    /** The removal loop: candidates leave in order until the size is below the cap. */
    method RemoveInOrder(idle: seq<Candidate>, cap: nat) returns (evicted: seq<Entry>)
      requires FromEntries(idle, cache.entries)
      modifies this
      ensures Took(old(cache), idle, cap, cache, evicted)
      ensures |cache.entries| < cap || |evicted| == |idle|
    {
      evicted := [];
      TookNone(cache, idle, cap);
      while |evicted| < |idle| && |cache.entries| >= cap
        invariant Took(old(cache), idle, cap, cache, evicted)
        decreases |idle| - |evicted|
      {
        TookOneMore(old(cache), idle, cap, cache, evicted);
        var entry := RemoveEntry(idle[|evicted|].key);
        evicted := evicted + [entry];
      }
    }

    /** `HashMap::remove` of a present key. */
    method RemoveEntry(key: Key) returns (entry: Entry)
      requires key in cache.entries
      modifies this
      ensures entry == old(cache).entries[key] && cache == Cache(old(cache).pid, old(cache).entries - {key})
    {
      entry := cache.entries[key];
      cache := cache.(entries := cache.entries - {key});
    }

    /** The hit path of `connect()`: the cached client, with its last use refreshed. */
    method Lookup(key: Key, now: nat) returns (hit: bool, client: nat)
      modifies this
      ensures hit <==> key in old(cache).entries
      ensures cache.pid == old(cache).pid && cache.entries.Keys == old(cache).entries.Keys
      ensures hit ==> client == old(cache).entries[key].client && cache.entries[key] == Entry(client, now)
      ensures forall k <- cache.entries :: k != key ==> cache.entries[k] == old(cache).entries[k]
      ensures cache == if hit then Touched(old(cache), key, now) else old(cache)
    {
      hit, client := key in cache.entries, 0;
      if hit {
        client := cache.entries[key].client;
        cache := cache.(entries := cache.entries[key := Entry(client, now)]);
      }
    }

    /** `close()`'s removal: another client under the same key must stay. */
    method RemoveIfSame(key: Key, client: nat)
      modifies this
      ensures cache.pid == old(cache).pid
      ensures forall k :: k in cache.entries <==>
                k in old(cache).entries && !(k == key && old(cache).entries[k].client == client)
      ensures forall k <- cache.entries :: cache.entries[k] == old(cache).entries[k]
      ensures cache == Removed(old(cache), key, client)
    {
      if key in cache.entries {
        if cache.entries[key].client == client {
          cache := cache.(entries := cache.entries - {key});
        }
      }
    }
  }

  class ConnectGuards {
    var guards: Guards

    constructor (pid: nat)
      ensures guards == Guards(pid, map[], 0)
    {
      guards := Guards(pid, map[], 0);
    }

    /** `connect_guard`: every caller for the same key gets the same guard. */
    method ConnectGuard(pid: nat, key: Key) returns (guard: nat)
      modifies this
      ensures key in guards.byKey && guard == guards.byKey[key] && guards.pid == pid
      ensures old(guards).pid == pid ==> forall k <- old(guards).byKey :: k in guards.byKey && guards.byKey[k] == old(guards).byKey[k]
      ensures forall k <- guards.byKey :: k == key || (old(guards).pid == pid && k in old(guards).byKey)
      ensures old(guards).pid == pid && key in old(guards).byKey ==> guards == old(guards)
      ensures !(old(guards).pid == pid && key in old(guards).byKey) ==> guard == old(guards).next < guards.next
      ensures guards == WithGuard(old(guards), pid, key)
    {
      if guards.pid != pid {
        guards := Guards(pid, map[], guards.next);
      }
      if key !in guards.byKey {
        guards := Guards(guards.pid, guards.byKey[key := guards.next], guards.next + 1);
      }
      guard := guards.byKey[key];
    }

    /** `release_connect_guard`; the strong count is the map's own plus the outstanding clones. */
    method ReleaseConnectGuard(key: Key, strongCount: nat)
      requires strongCount >= 1
      modifies this
      ensures guards.pid == old(guards).pid && guards.next == old(guards).next
      ensures forall k :: k in guards.byKey <==> k in old(guards).byKey && !(k == key && strongCount == 1)
      ensures forall k <- guards.byKey :: guards.byKey[k] == old(guards).byKey[k]
      ensures guards == Released(old(guards), key, strongCount - 1)
    {
      if key in guards.byKey {
        if strongCount == 1 {
          guards := guards.(byKey := guards.byKey - {key});
        }
      }
    }
  }
}
