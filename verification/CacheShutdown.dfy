/** `close_client_entries` and the module shutdown hook. */
module CacheShutdown {
  import opened CacheContents
  import opened CacheInvariant
  import opened CacheObjects
  import opened CacheProtocol
  import opened CacheSpec
  import opened CacheTheorems

  /** No client is cached twice. */
  ghost predicate OneEntryEach(entries: map<Key, Entry>) {
    forall k, l :: k in entries && l in entries && entries[k].client == entries[l].client ==> k == l
  }

  /**
   The state that the hook finds once all calls are over: no client is cached twice, and a
   process that has cached a client has its own runtime.
  */
  lemma QuiescentIsReady(w: World)
    requires Reachable(w)
    ensures forall k <- Cached(w) :: Cached(w)[k].client in w.clients
    ensures OneEntryEach(Cached(w))
    ensures Cached(w) != map[] ==> w.rtPid == w.pid
  {
    ReachableInv(w);
    forall k <- Cached(w) ensures Cached(w)[k].client in w.clients && w.clients[Cached(w)[k].client].key == k && w.rtPid == w.pid {
      assert EntryOk(w, k) && ClientOk(w, Cached(w)[k].client);
    }
  }

  /** What is cached once all calls are over, entry by entry. */
  lemma CachedExactly(w: World)
    requires Reachable(w) && Quiescent(w)
    ensures forall c <- w.clients :: (exists k :: k in Cached(w) && Cached(w)[k].client == c) <==>
              w.clients[c].pid == w.pid && !w.clients[c].returned && !w.clients[c].disposed
  {
    forall c <- w.clients
      ensures IsCached(w, c) <==> w.clients[c].pid == w.pid && !w.clients[c].returned && !w.clients[c].disposed
    {
      if w.clients[c].pid == w.pid {
        ShutdownReachesExactly(w, c);
      } else {
        forall k <- Cached(w) ensures Cached(w)[k].client != c { NothingInheritedIsCached(w, k); }
      }
    }
  }

  /** The clients behind the `Arc`s; closing one changes it for every holder. */
  class Registry {
    var clients: map<nat, Client>

    constructor (cs: map<nat, Client>)
      ensures clients == cs
    {
      clients := cs;
    }

    /**
     `close_client_entries`: without a runtime nothing is closed; otherwise every entry gets
     exactly one close attempt, whatever the others' attempts end in, since a panic is caught
     and the loop goes on.
    */
    method CloseClientEntries(entries: seq<Entry>, runtime: bool, outcome: nat -> Attempt)
      requires forall i :: 0 <= i < |entries| ==> entries[i].client in clients
      requires forall i, j :: 0 <= i < j < |entries| ==> entries[i].client != entries[j].client
      modifies this
      ensures !runtime ==> clients == old(clients)
      ensures clients.Keys == old(clients).Keys
      ensures runtime ==> forall i :: 0 <= i < |entries| ==>
                clients[entries[i].client] == AfterAttempt(old(clients)[entries[i].client], outcome(entries[i].client), true)
      ensures forall c <- clients :: (forall i :: 0 <= i < |entries| ==> entries[i].client != c) ==> clients[c] == old(clients)[c]
    {
      if entries == [] || !runtime {
        return;
      }
      for n := 0 to |entries|
        invariant clients.Keys == old(clients).Keys
        invariant forall i :: 0 <= i < n ==>
                    clients[entries[i].client] == AfterAttempt(old(clients)[entries[i].client], outcome(entries[i].client), true)
        invariant forall c <- clients :: (forall i :: 0 <= i < n ==> entries[i].client != c) ==> clients[c] == old(clients)[c]
      {
        var c := entries[n].client;
        var attempt := outcome(c);
        clients := clients[c := AfterAttempt(clients[c], attempt, true)];
      }
    }

    /**
     `aerospike_php_shutdown`: the cache is emptied, then each of its clients is closed.
     `runtime` is whether `tokio_rt` has, or can build, a runtime.
    */
    method Shutdown(cache: ClientCache, pid: nat, runtime: bool, outcome: nat -> Attempt)
      requires forall k <- Adopt(cache.cache, pid).entries :: Adopt(cache.cache, pid).entries[k].client in clients
      requires OneEntryEach(Adopt(cache.cache, pid).entries)
      modifies this, cache
      ensures cache.cache == Cache(pid, map[])
      ensures !runtime ==> clients == old(clients)
      ensures clients.Keys == old(clients).Keys
      ensures var entries := Adopt(old(cache.cache), pid).entries;
        && (runtime ==> forall k <- entries ::
              clients[entries[k].client] == AfterAttempt(old(clients)[entries[k].client], outcome(entries[k].client), true))
        && (forall c <- clients :: (forall k <- entries :: entries[k].client != c) ==> clients[c] == old(clients)[c])
    {
      cache.ClientsLock(pid);
      var entries := cache.cache.entries;
      var taken, keys := Values(entries);
      cache.cache := Cache(pid, map[]);
      CloseClientEntries(taken, runtime, outcome);
      forall k <- entries
        ensures runtime ==> clients[entries[k].client] == AfterAttempt(old(clients)[entries[k].client], outcome(entries[k].client), true)
      {
        var i :| 0 <= i < |taken| && taken[i] == entries[k];
      }
      forall c <- clients | forall k <- entries :: entries[k].client != c
        ensures clients[c] == old(clients)[c]
      {
        assert forall i :: 0 <= i < |taken| ==> taken[i].client != c;
      }
    }

    /**
     The hook in any reachable state in which all calls are over and it gets the cache mutex,
     which is to say that it returns at all. The runtime it needs is there whenever it has
     something to close, so it attempts to close exactly the clients of this process none of
     whose close attempts returned and none of which was disposed of after an eviction. An open
     one stays open if and only if it is out of reach in that way, or this last attempt fails
     too; clients of a parent process are left alone.
    */
    method ShutdownQuiescent(ghost w: World, cache: ClientCache, pid: nat, rtPid: nat, built: bool, outcome: nat -> Attempt)
      requires Reachable(w) && Quiescent(w) && ClientsMutex !in w.owners
      requires cache.cache == w.cache && clients == w.clients && pid == w.pid && rtPid == w.rtPid
      modifies this, cache
      ensures cache.cache == Cache(w.pid, map[]) && clients.Keys == w.clients.Keys
      ensures forall c <- w.clients ::
                clients[c] == if w.clients[c].pid == w.pid && !w.clients[c].returned && !w.clients[c].disposed
                              then AfterAttempt(w.clients[c], outcome(c), true) else w.clients[c]
      ensures forall c <- w.clients :: clients[c].open <==>
                w.clients[c].open &&
                (w.clients[c].pid != w.pid || w.clients[c].returned || w.clients[c].disposed || outcome(c) != Closed)
    {
      QuiescentIsReady(w);
      Shutdown(cache, pid, rtPid == pid || built, outcome);
      CachedExactly(w);
    }
  }

  /** `HashMap::into_values`, in some order of the keys. */
  method Values(entries: map<Key, Entry>) returns (vs: seq<Entry>, ghost keys: seq<Key>)
    requires OneEntryEach(entries)
    ensures |vs| == |keys| && forall i :: 0 <= i < |vs| ==> keys[i] in entries && vs[i] == entries[keys[i]]
    ensures forall k <- entries :: entries[k] in vs
    ensures forall i, j :: 0 <= i < j < |vs| ==> vs[i].client != vs[j].client
  {
    vs, keys := [], [];
    var rest := entries.Keys;
    while rest != {}
      invariant rest <= entries.Keys
      invariant |vs| == |keys| && forall i :: 0 <= i < |vs| ==> keys[i] in entries && keys[i] !in rest && vs[i] == entries[keys[i]]
      invariant forall k <- entries :: k in rest || entries[k] in vs
      invariant forall i, j :: 0 <= i < j < |vs| ==> vs[i].client != vs[j].client
    {
      var k :| k in rest;
      rest := rest - {k};
      vs, keys := vs + [entries[k]], keys + [k];
    }
  }
}
