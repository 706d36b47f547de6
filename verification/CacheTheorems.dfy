/**
 What `connect()`, `close()`, eviction and shutdown guarantee in every reachable state, that is,
 for any number of threads under every interleaving, before and after any `fork()`.
*/
module CacheTheorems {
  import opened CacheContents
  import opened CacheEffects
  import opened CacheInvariant
  import opened CacheLocks
  import opened CacheProtocol
  import opened CacheSpec
  import opened Wrappers

  // ---------------------------------------------------------------------------------------
  //  What connect() hands out
  // ---------------------------------------------------------------------------------------

  /** The client that the step hands to PHP in a new object, if any. */
  function HandedOut(w: World, t: nat, ch: Choice): Option<nat>
    requires t in w.threads
  {
    var th := w.threads[t];
    if ch.Hand? && th.pc.InLookup? && ch.obj.Some? && th.key in Cached(w) then Some(Cached(w)[th.key].client)
    else if ch.Hand? && th.pc.Storing? && ch.obj.Some? then th.built
    else None
  }

  /** In the section of its key, a thread that is not removing an entry meets no thread that is. */
  lemma NoRemoverBeside(w: World, t: nat, u: nat)
    requires GuardsOk(w) && t in w.threads && u in w.threads && w.threads[t].key == w.threads[u].key
    requires InSection(w.threads[t].pc) && !Removing(w.threads[t].pc)
    ensures !Removing(w.threads[u].pc)
  {
    if t != u && InSection(w.threads[u].pc) {
      OneThreadPerKey(w, t, u);
    }
  }

  /** A cached client whose close returned still has the closing thread in this key's section. */
  lemma LookupFindsLiveClient(w: World, t: nat)
    requires Inv(w) && t in w.threads && w.threads[t].pc.InLookup? && w.threads[t].key in Cached(w)
    ensures var c := Cached(w)[w.threads[t].key].client;
      c in w.clients && w.clients[c].key == w.threads[t].key && w.clients[c].pid == w.pid && !w.clients[c].returned
  {
    var k := w.threads[t].key;
    var c := Cached(w)[k].client;
    assert EntryOk(w, k) && ClosingOk(w, k);
    forall u | u in w.threads && w.threads[u].op.Close? && w.threads[u].op.obj in w.objects && Target(w, u) == c
      ensures !Removing(w.threads[u].pc)
    {
      assert Shape(w, u);
      if Removing(w.threads[u].pc) {
        NoRemoverBeside(w, t, u);
      }
    }
  }

  lemma LookupHandsOut(w: World, t: nat, obj: Option<nat>)
    requires t in w.threads && w.threads[t].pc.InLookup?
    ensures DoLookup(w, t, obj).objects == GivenTo(w, HandedOut(w, t, Hand(obj)), obj)
  {}

  lemma StoreHandsOut(w: World, t: nat, obj: Option<nat>)
    requires ContentsOk(w) && t in w.threads && w.threads[t].pc.Storing? && w.threads[t].built.Some? && FreshObject(w, obj)
    ensures DoStore(w, t, obj).objects == GivenTo(w, HandedOut(w, t, Hand(obj)), obj)
  {
    StoreStores(w, t, obj);
    StoreFacts(w, DoStore(w, t, obj), t);
  }

  lemma OthersHandOutNothing(w: World, t: nat, ch: Choice)
    requires t in w.threads && CanProgress(w, t, ch) && (SweepsOn(w.threads[t].pc) || w.threads[t].pc.InRemove?)
    ensures DoProgress(w, t, ch).objects == w.objects
  {
    if SweepsOn(w.threads[t].pc) {
      SweepStepIsDo(w, t, ch);
    } else {
      RemoveRemoves(w, t);
    }
  }

  /** The PHP objects once `client`, if any, has been put into the new object `obj`. */
  function GivenTo(w: World, client: Option<nat>, obj: Option<nat>): map<nat, nat> {
    if client.Some? && obj.Some? then w.objects[obj.value := client.value] else w.objects
  }

  /** That is exactly what a thread's step does to the PHP objects. */
  lemma HandedOutExactly(w: World, t: nat, ch: Choice)
    requires Inv(w) && t in w.threads && CanProgress(w, t, ch)
    ensures DoProgress(w, t, ch).objects
         == if HandedOut(w, t, ch).Some? then GivenTo(w, HandedOut(w, t, ch), ch.obj) else w.objects
  {
    if !InClients(w.threads[t].pc) {
      ProgressAdvances(w, t, ch);
    } else if w.threads[t].pc.InLookup? {
      LookupHandsOut(w, t, ch.obj);
    } else if w.threads[t].pc.Storing? {
      StoreHandsOut(w, t, ch.obj);
    } else {
      OthersHandOutNothing(w, t, ch);
    }
  }

  /**
   `connect()` hands out a client of its own key, built by this process and still open, none of
   whose close attempts has returned: in particular no client whose close completed.
  */
  lemma ConnectHandsOutLiveClients(w: World, t: nat, ch: Choice)
    requires Reachable(w) && t in w.threads && CanProgress(w, t, ch) && HandedOut(w, t, ch).Some?
    ensures var c := HandedOut(w, t, ch).value;
      && c in w.clients && w.clients[c].key == w.threads[t].key && w.clients[c].pid == w.pid
      && !w.clients[c].returned && w.clients[c].open
      && ch.obj.Some? && ch.obj.value !in w.objects && DoProgress(w, t, ch).objects == w.objects[ch.obj.value := c]
  {
    ReachableInv(w);
    if w.threads[t].pc.InLookup? {
      LookupFindsLiveClient(w, t);
    } else {
      assert ThreadOk(w, t) && BuiltOk(w, t);
    }
    assert ClientOk(w, HandedOut(w, t, ch).value);
    HandedOutExactly(w, t, ch);
  }

  // ---------------------------------------------------------------------------------------
  //  How many clients one key may have
  // ---------------------------------------------------------------------------------------

  /** Cached, held by PHP, or just built and not yet cached. */
  predicate Present(w: World, c: nat) {
    IsCached(w, c) || IsHeld(w, c) || IsBuilt(w, c)
  }

  /** Either the entry under its key is the client's own, or its thread has the key vacant. */
  lemma PresentMeans(w: World, c: nat)
    requires Inv(w) && c in w.clients && w.clients[c].pid == w.pid && !w.clients[c].returned && Present(w, c)
    ensures IsBuilt(w, c) ==> w.clients[c].key !in Cached(w)
    ensures !IsBuilt(w, c) ==> w.clients[c].key in Cached(w) && Cached(w)[w.clients[c].key].client == c
  {
    if t :| t in w.threads && w.threads[t].built == Some(c) {
      assert Shape(w, t) && ThreadOk(w, t);
    } else if o :| o in w.objects && w.objects[o] == c {
      assert HeldOk(w, o);
    } else {
      var k :| k in Cached(w) && Cached(w)[k].client == c;
      assert EntryOk(w, k);
    }
  }

  lemma BuiltOncePerKey(w: World, c: nat, d: nat)
    requires Inv(w) && c in w.clients && d in w.clients && w.clients[c].key == w.clients[d].key
    requires IsBuilt(w, c) && IsBuilt(w, d)
    ensures c == d
  {
    var t :| t in w.threads && w.threads[t].built == Some(c);
    var u :| u in w.threads && w.threads[u].built == Some(d);
    BuiltInSection(w, t);
    BuiltInSection(w, u);
    OneThreadPerKey(w, t, u);
  }

  /**
   Per cache key, at most one client of this process none of whose close attempts returned is
   cached, held by a PHP object or under construction. So of several open ones, all but one had
   a close that returned an error.
  */
  lemma OneClientPerKey(w: World, c: nat, d: nat)
    requires Reachable(w) && c in w.clients && d in w.clients && c != d && w.clients[c].key == w.clients[d].key
    requires w.clients[c].pid == w.pid && w.clients[d].pid == w.pid && Present(w, c) && Present(w, d)
    ensures w.clients[c].returned || w.clients[d].returned
  {
    ReachableInv(w);
    if !w.clients[c].returned && !w.clients[d].returned {
      PresentMeans(w, c);
      PresentMeans(w, d);
      if IsBuilt(w, c) && IsBuilt(w, d) {
        BuiltOncePerKey(w, c, d);
      }
    }
  }

  /** Still open after a close attempt that returned: the close was refused. */
  predicate WasRefused(w: World, c: nat) {
    c in w.clients && w.clients[c].open && w.clients[c].returned
  }

  /**
   When `connect()` builds a client, an open one of the same key and process is already present
   if and only if a PHP object still holds one whose close was refused.
  */
  lemma SecondClientExactly(w: World, t: nat, ch: Choice)
    requires Reachable(w) && t in w.threads && CanProgress(w, t, ch) && w.threads[t].pc.Building? && ch.Made?
    ensures (exists c :: c in w.clients && w.clients[c].open && w.clients[c].key == w.threads[t].key &&
                         w.clients[c].pid == w.pid && Present(w, c))
        <==> (exists o :: o in w.objects && WasRefused(w, w.objects[o]) &&
                          w.clients[w.objects[o]].key == w.threads[t].key && w.clients[w.objects[o]].pid == w.pid)
  {
    ReachableInv(w);
    if c :| c in w.clients && w.clients[c].open && w.clients[c].key == w.threads[t].key &&
            w.clients[c].pid == w.pid && Present(w, c)
    {
      PresentBesideBuilding(w, t, c);
      var o :| o in w.objects && w.objects[o] == c;
    }
    if o :| o in w.objects && WasRefused(w, w.objects[o]) && w.clients[w.objects[o]].key == w.threads[t].key &&
            w.clients[w.objects[o]].pid == w.pid
    {
      assert IsHeld(w, w.objects[o]);
    }
  }

  lemma PresentBesideBuilding(w: World, t: nat, c: nat)
    requires Inv(w) && t in w.threads && w.threads[t].pc.Building?
    requires c in w.clients && w.clients[c].key == w.threads[t].key && w.clients[c].pid == w.pid && Present(w, c)
    ensures IsHeld(w, c) && w.clients[c].returned
  {
    assert Shape(w, t) && ThreadOk(w, t);
    NotBuiltBeside(w, t, c);
    NotCachedBeside(w, t, c);
    var o :| o in w.objects && w.objects[o] == c;
    assert HeldOk(w, o);
  }

  lemma NotBuiltBeside(w: World, t: nat, c: nat)
    requires Inv(w) && t in w.threads && w.threads[t].pc.Building? && c in w.clients && w.clients[c].key == w.threads[t].key
    ensures !IsBuilt(w, c)
  {
    assert Shape(w, t);
    forall u <- w.threads ensures w.threads[u].built == Some(c) ==> u == t {
      if w.threads[u].built == Some(c) {
        BuiltInSection(w, u);
        OneThreadPerKey(w, t, u);
      }
    }
  }

  lemma NotCachedBeside(w: World, t: nat, c: nat)
    requires Inv(w) && t in w.threads && w.threads[t].pc.Building? && c in w.clients && w.clients[c].key == w.threads[t].key
    ensures !IsCached(w, c)
  {
    assert Shape(w, t) && ThreadOk(w, t) && VacantOk(w, t);
    forall k <- Cached(w) ensures Cached(w)[k].client != c {
      assert EntryOk(w, k);
    }
  }

  // ---------------------------------------------------------------------------------------
  //  Eviction
  // ---------------------------------------------------------------------------------------

  /** An inserting connect finds its key vacant, so it never discards a fresh client. */
  lemma InsertFindsKeyVacant(w: World, t: nat, ch: Choice)
    requires Reachable(w) && t in w.threads && CanProgress(w, t, ch) && w.threads[t].pc.Storing?
    ensures var key := w.threads[t].key;
      && key !in Cached(w) && w.threads[t].built.Some?
      && Cached(DoProgress(w, t, ch)) == Cached(w)[key := Entry(w.threads[t].built.value, w.clock)]
  {
    ReachableInv(w);
    StoreStores(w, t, ch.obj);
    StoreFacts(w, DoStore(w, t, ch.obj), t);
  }

  /**
   A key seen with a strong count of one keeps its entry, and its client's count stays one, until
   the removal loop reaches it: whatever the other threads do meanwhile to their handles.
  */
  lemma SeenIdleStaysIdle(w: World, t: nat, k: Key)
    requires Reachable(w) && t in w.threads && Sweeping(w.threads[t].pc) && k in Left(w.threads[t].sweep)
    ensures k in Cached(w) && k in w.threads[t].sweep.before && Cached(w)[k] == w.threads[t].sweep.before[k]
    ensures Holders(w, Cached(w)[k].client) == {InCache(k)}
  {
    ReachableInv(w);
    assert SweepOk(w, t);
    AloneMeansCountOfOne(w, k);
  }

  /**
   The one-by-one sweep refines the eviction of the specification: when it ends, what it took
   are the least recently used of the keys seen idle, in order, as many as the cap asks for;
   exactly those entries are gone, and exactly their clients wait to be closed.
  */
  lemma SweepIsEviction(w: World, t: nat)
    requires Reachable(w) && t in w.threads && w.threads[t].pc.Storing?
    ensures var s := w.threads[t].sweep;
      && Eviction(s.before, s.idle, s.cap, s.keys)
      && Cached(w) == s.before - Keys(s.keys)
      && |w.threads[t].evicted| == |s.keys|
      && forall i :: 0 <= i < |s.keys| ==> s.keys[i] in s.before && w.threads[t].evicted[i] == s.before[s.keys[i]].client
  {
    ReachableInv(w);
    assert SweepOk(w, t);
  }

  /**
   An entry whose client a live PHP object references leaves the cache only when `close()` on
   that client removes it, never by eviction.
  */
  lemma HeldIsNeverEvicted(w: World, a: Action, o: nat, k: Key)
    requires Reachable(w) && Can(w, a) && !a.Fork?
    requires o in w.objects && k in Cached(w) && Cached(w)[k].client == w.objects[o]
    ensures || (k in Cached(Do(w, a)) && Cached(Do(w, a))[k].client == w.objects[o])
            || (a.Progress? && w.threads[a.thread].pc.InRemove? && w.threads[a.thread].op.Close? &&
                w.threads[a.thread].op.obj in w.objects && Target(w, a.thread) == w.objects[o])
  {
    ReachableInv(w);
    if a.Progress? {
      ProgressAdvances(w, a.thread, a.choice);
      if InClients(w.threads[a.thread].pc) {
        HeldStaysInSection(w, a.thread, a.choice, o, k);
      }
    }
  }

  lemma HeldStaysInSection(w: World, t: nat, ch: Choice, o: nat, k: Key)
    requires Inv(w) && t in w.threads && CanProgress(w, t, ch) && InClients(w.threads[t].pc)
    requires o in w.objects && k in Cached(w) && Cached(w)[k].client == w.objects[o]
    ensures || (k in Cached(DoProgress(w, t, ch)) && Cached(DoProgress(w, t, ch))[k].client == w.objects[o])
            || (w.threads[t].pc.InRemove? && w.threads[t].op.Close? && w.threads[t].op.obj in w.objects && Target(w, t) == w.objects[o])
  {
    if !Loud(w.threads[t], ch) {
      assert Shape(w, t) && ThreadOk(w, t);
      ClientsIsQuiet(w, t, ch);
    } else if w.threads[t].pc.Evicting? {
      HeldIsNotTaken(w, t, ch, o, k);
    } else if w.threads[t].pc.Storing? {
      StoreStores(w, t, ch.obj);
      StoreFacts(w, DoStore(w, t, ch.obj), t);
    } else {
      RemoveRemoves(w, t);
      RemoveFacts(w, DoRemove(w, t), t);
    }
  }

  lemma HeldIsNotTaken(w: World, t: nat, ch: Choice, o: nat, k: Key)
    requires SweepsOk(w) && t in w.threads && CanProgress(w, t, ch) && w.threads[t].pc.Evicting? && ch.Take?
    requires o in w.objects && k in Cached(w) && Cached(w)[k].client == w.objects[o]
    ensures k in Cached(DoProgress(w, t, ch)) && Cached(DoProgress(w, t, ch))[k].client == w.objects[o]
  {
    TakenIsAlone(w, t, ch);
    assert IsHeld(w, w.objects[o]) && k != ch.key;
    TakingIsTake(w, t, ch);
    TakeEjects(w, t, ch.key);
  }

  /** A copy, such as a recordset keeps, holds the client when the object it was made from is gone. */
  lemma CopyKeepsClient(w: World, o: nat, copy: nat)
    requires Can(w, CopyHandle(o, copy)) && Can(Do(w, CopyHandle(o, copy)), DropHandle(o))
    ensures IsHeld(Do(Do(w, CopyHandle(o, copy)), DropHandle(o)), w.objects[o])
  {
    var w' := Do(Do(w, CopyHandle(o, copy)), DropHandle(o));
    assert copy in w'.objects && w'.objects[copy] == w.objects[o];
  }

  /** A client waiting to be closed after eviction cannot gain a holder any more. */
  lemma EvictedStaysUnheld(w: World, t: nat, c: nat)
    requires Reachable(w) && t in w.threads && c in w.threads[t].evicted
    ensures !IsHeld(w, c) && !IsCached(w, c) && c in w.clients && w.clients[c].pid == w.pid
    ensures w.rtPid == w.pid  // the runtime needed to close it is there
  {
    ReachableInv(w);
    assert ThreadOk(w, t) && EvictedOk(w, t) && ClientOk(w, c);
  }

  // ---------------------------------------------------------------------------------------
  //  close() and shutdown
  // ---------------------------------------------------------------------------------------

  /** A second `close()` on an old object never removes a newer client's entry. */
  lemma CloseRemovesOnlyItsClient(w: World, t: nat, k: Key)
    requires Reachable(w) && t in w.threads && CanProgress(w, t, Go) && w.threads[t].pc.InRemove?
    requires w.threads[t].op.Close? && w.threads[t].op.obj in w.objects
    ensures var w' := DoProgress(w, t, Go);
      k in Cached(w') <==> k in Cached(w) && Cached(w)[k].client != Target(w, t)
  {
    ReachableInv(w);
    RemoveRemoves(w, t);
    RemoveFacts(w, DoRemove(w, t), t);
  }

  predicate Quiescent(w: World) {
    forall t <- w.threads :: w.threads[t].pc.Idle?
  }

  /**
   No client is orphaned before an attempt to close it: in every reachable state each such
   client is cached, in the hands of the thread that built it, or on a to-be-closed list.
  */
  lemma NoClientIsOrphaned(w: World, c: nat)
    requires Reachable(w) && Untouched(w, c)
    ensures IsCached(w, c) || IsBuilt(w, c) || IsEvicted(w, c)
  {
    ReachableInv(w);
    assert ClientOk(w, c);
  }

  /**
   When no call is in progress, the cache, which is what shutdown closes, holds exactly the
   clients of this process for which no close attempt has returned and none followed an
   eviction. So an open client is out of shutdown's reach if and only if an attempt to close it
   returned an error, or an attempt after its eviction returned an error or panicked.
  */
  lemma ShutdownReachesExactly(w: World, c: nat)
    requires Reachable(w) && Quiescent(w) && c in w.clients && w.clients[c].pid == w.pid
    ensures IsCached(w, c) <==> !w.clients[c].returned && !w.clients[c].disposed
  {
    ReachableInv(w);
    assert ClientOk(w, c);
    forall t <- w.threads ensures w.threads[t].built != Some(c) && c !in w.threads[t].evicted {
      assert Shape(w, t);
    }
    forall k <- Cached(w) | Cached(w)[k].client == c
      ensures !w.clients[c].returned && !w.clients[c].disposed
    {
      assert EntryOk(w, k) && ClosingOk(w, k);
    }
  }

  /** What a fork child finds in its own cache was never built by a parent. */
  lemma NothingInheritedIsCached(w: World, k: Key)
    requires Reachable(w) && k in Cached(w)
    ensures Cached(w)[k].client in w.clients && w.clients[Cached(w)[k].client].pid == w.pid
  {
    ReachableInv(w);
    assert EntryOk(w, k);
  }

  // ---------------------------------------------------------------------------------------
  //  Guards
  // ---------------------------------------------------------------------------------------

  /** Two threads never run the critical section of one key at the same time. */
  lemma SectionsExclude(w: World, t: nat, u: nat)
    requires Reachable(w) && t in w.threads && u in w.threads && t != u
    requires InSection(w.threads[t].pc) && InSection(w.threads[u].pc)
    ensures w.threads[t].key != w.threads[u].key
  {
    ReachableInv(w);
    if w.threads[t].key == w.threads[u].key {
      OneThreadPerKey(w, t, u);
    }
  }

  /** The guard table holds exactly the guards in use, and nothing once all calls are over. */
  lemma GuardTableIsExact(w: World, t: nat)
    requires Reachable(w)
    ensures t in w.threads && w.threads[t].guard.Some? ==>
              w.threads[t].key in GuardOf(w) && w.threads[t].guard.value == GuardOf(w)[w.threads[t].key]
    ensures Quiescent(w) ==> GuardOf(w) == map[]
  {
    ReachableInv(w);
    if t in w.threads && w.threads[t].guard.Some? {
      ClonesAreStored(w, t);
    }
    if Quiescent(w) {
      QuietTableIsEmpty(w);
    }
  }

  /**
   A guard that `release_connect_guard` is about to remove has no clone: reading the count and
   removing the entry are two steps, but no thread can clone the guard in between.
  */
  lemma RemovedGuardIsUnclaimed(w: World, t: nat)
    requires Reachable(w) && t in w.threads && w.threads[t].pc.Forgetting?
    ensures w.threads[t].key in GuardOf(w) && Clones(w, GuardOf(w)[w.threads[t].key]) == 0
  {
    ReachableInv(w);
    assert DroppingOk(w, t);
    CloneExists(w, GuardOf(w)[w.threads[t].key]);
  }
}
