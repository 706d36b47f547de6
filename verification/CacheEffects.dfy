/**
 The steps that build, close, remove, evict or store a client, as relations between two states,
 and why each of them keeps the account of what the cache holds.
*/
module CacheEffects {
  import opened CacheContents
  import opened CacheLocks
  import opened CacheProtocol
  import opened CacheSpec
  import opened Wrappers

  // ---------------------------------------------------------------------------------------
  //  Steps that build, cache, close or remove a client
  // ---------------------------------------------------------------------------------------

  lemma SameCacheFacts(w: World, w': World, c: nat)
    requires Cached(w') == Cached(w)
    ensures IsCached(w', c) <==> IsCached(w, c)
  {}

  lemma SameObjectFacts(w: World, w': World, c: nat)
    requires w'.objects == w.objects
    ensures IsHeld(w', c) <==> IsHeld(w, c)
  {}

  /** Only `t` changes what it carries, and only `c` may enter or leave its lists. */
  lemma LoadFacts(w: World, w': World, t: nat, c: nat)
    requires t in w.threads && Moved(w, w', t)
    requires (w.threads[t].built == Some(c)) == (w'.threads[t].built == Some(c))
    requires c in w.threads[t].evicted <==> c in w'.threads[t].evicted
    ensures IsBuilt(w', c) <==> IsBuilt(w, c)
    ensures IsEvicted(w', c) <==> IsEvicted(w, c)
  {}

  /** A removal in progress stays in progress when its thread has not moved on. */
  lemma ClosingTransfer(w: World, w': World, t: nat, k: Key)
    requires ContentsOk(w) && t in w.threads && Moved(w, w', t)
    requires k in Cached(w) && k in Cached(w') && Cached(w')[k].client == Cached(w)[k].client
    requires var c := Cached(w)[k].client; c in w'.clients && c in w.clients && w'.clients[c].returned == w.clients[c].returned
    requires Removing(w.threads[t].pc) ==> Removing(w'.threads[t].pc) || k != w.threads[t].key
    requires LocksOk(w)
    ensures ClosingOk(w', k)
  {}

  ghost predicate Builds(w: World, w': World, t: nat, c: nat)
    requires t in w.threads
  {
    && w.threads[t].pc.Building? && c !in w.clients && Moved(w, w', t)
    && w'.cache == w.cache && w'.objects == w.objects && w'.rtPid == w.rtPid
    && w'.clients == w.clients[c := Client(w.threads[t].key, w.pid, true, false, false)]
    && w'.threads[t] == w.threads[t].(pc := WantInsert, built := Some(c))
  }

  lemma BuildEntries(w: World, w': World, t: nat, c: nat, k: Key)
    requires ContentsOk(w) && LocksOk(w) && t in w.threads && Builds(w, w', t, c) && k in Cached(w')
    ensures EntryOk(w', k) && ClosingOk(w', k)
  {
    assert EntryOk(w, k);
    ClosingTransfer(w, w', t, k);
  }

  /** Nobody knows the new client yet. */
  lemma NewIsUnknown(w: World, c: nat)
    requires ContentsOk(w) && c !in w.clients
    ensures !IsHeld(w, c) && !IsEvicted(w, c)
  {
    forall o <- w.objects ensures w.objects[o] != c { assert HeldOk(w, o); }
    forall u <- w.threads ensures c !in w.threads[u].evicted { assert ThreadOk(w, u) && EvictedOk(w, u); }
  }

  lemma BuildBuilt(w: World, w': World, t: nat, c: nat, u: nat)
    requires ContentsOk(w) && t in w.threads && Builds(w, w', t, c) && u in w.threads
    ensures BuiltOk(w', u)
  {
    assert ThreadOk(w, u);
    NewIsUnknown(w, c);
    if w'.threads[u].built.Some? {
      SameObjectFacts(w, w', w'.threads[u].built.value);
      LoadlessEvicted(w, w', t, w'.threads[u].built.value);
    }
  }

  lemma BuildThreads(w: World, w': World, t: nat, c: nat, u: nat)
    requires ContentsOk(w) && LocksOk(w) && t in w.threads && Builds(w, w', t, c) && u in w.threads
    ensures ThreadOk(w', u)
  {
    BuildBuilt(w, w', t, c, u);
    assert ThreadOk(w, u) && Shape(w, t);
    assert VacantOk(w', u) && RemovingOk(w', u);
    forall x <- w.threads[u].evicted ensures (IsCached(w', x) ==> IsCached(w, x)) && (IsHeld(w', x) ==> IsHeld(w, x)) {
      SameCacheFacts(w, w', x);
      SameObjectFacts(w, w', x);
    }
    EvictedTransfer(w, w', u);
  }

  /** A list of evicted clients that has not grown is as it was, if nothing was cached or handed out. */
  lemma EvictedTransfer(w: World, w': World, u: nat)
    requires u in w.threads && u in w'.threads && EvictedOk(w, u) && w'.pid == w.pid
    requires forall c <- w'.threads[u].evicted :: c in w.threads[u].evicted
    requires forall c <- w.threads[u].evicted :: (IsCached(w', c) ==> IsCached(w, c)) && (IsHeld(w', c) ==> IsHeld(w, c))
    requires ClientsStay(w, w')
    ensures EvictedOk(w', u)
  {}

  lemma LoadlessEvicted(w: World, w': World, t: nat, x: nat)
    requires t in w.threads && Moved(w, w', t) && w'.threads[t].evicted == w.threads[t].evicted
    ensures IsEvicted(w', x) <==> IsEvicted(w, x)
  {}

  lemma BuildClients(w: World, w': World, t: nat, c: nat, x: nat)
    requires ContentsOk(w) && LocksOk(w) && t in w.threads && Builds(w, w', t, c) && x in w'.clients
    ensures ClientOk(w', x)
  {
    assert ThreadOk(w, t) && Shape(w, t);
    if x == c {
      assert w'.threads[t].built == Some(c);
    } else {
      assert ClientOk(w, x);
      SameCacheFacts(w, w', x);
      LoadFacts(w, w', t, x);
    }
  }

  /** `Client::new` succeeds: the new client is carried by its thread alone. */
  lemma BuildKeeps(w: World, w': World, t: nat, c: nat)
    requires ContentsOk(w) && LocksOk(w) && t in w.threads && Builds(w, w', t, c)
    ensures ContentsOk(w')
  {
    forall k <- Cached(w') ensures EntryOk(w', k) && ClosingOk(w', k) { BuildEntries(w, w', t, c, k); }
    forall o <- w'.objects ensures HeldOk(w', o) { assert HeldOk(w, o); }
    forall u <- w'.threads ensures ThreadOk(w', u) { BuildThreads(w, w', t, c, u); }
    forall x <- w'.clients ensures ClientOk(w', x) { BuildClients(w, w', t, c, x); }
  }

  // A close attempt of `close()` (`evicting` false) or of an evicted client.

  ghost predicate Attempts(w: World, w': World, t: nat, c: nat, a: Attempt, evicting: bool)
    requires t in w.threads
  {
    && c in w.clients && Moved(w, w', t)
    && w'.cache == w.cache && w'.objects == w.objects && w'.rtPid == w.rtPid
    && w'.clients == w.clients[c := AfterAttempt(w.clients[c], a, evicting)]
    && if evicting then
         && w.threads[t].pc.CloseEvicted? && w.threads[t].evicted != [] && c == w.threads[t].evicted[0]
         && w'.threads[t] == w.threads[t].(evicted := w.threads[t].evicted[1..])
       else
         && w.threads[t].pc.Closing? && w.threads[t].op.Close? && w.threads[t].op.obj in w.objects && c == Target(w, t)
         && w'.threads[t] == w.threads[t].(pc := if a == Panicked then Unlock else WantRemove)
  }

  lemma AttemptEntry(w: World, w': World, t: nat, c: nat, a: Attempt, evicting: bool, k: Key)
    requires ContentsOk(w) && t in w.threads && Attempts(w, w', t, c, a, evicting) && k in Cached(w')
    ensures EntryOk(w', k)
  {
    assert EntryOk(w, k) && ThreadOk(w, t);
    if evicting {
      assert EvictedOk(w, t) && c in w.threads[t].evicted;
      assert Cached(w)[k].client == c ==> IsCached(w, c);
    }
  }

  lemma AttemptClosing(w: World, w': World, t: nat, c: nat, a: Attempt, evicting: bool, k: Key)
    requires ContentsOk(w) && LocksOk(w) && t in w.threads && Attempts(w, w', t, c, a, evicting) && k in Cached(w')
    ensures ClosingOk(w', k)
  {
    if Cached(w)[k].client != c || a == Panicked {
      OtherClosing(w, w', t, c, a, evicting, k);
    } else if evicting {
      EvictedIsNotCached(w, t, k);
    } else {
      AttemptorRemoves(w, w', t, c, a, k);
    }
  }

  lemma OtherClosing(w: World, w': World, t: nat, c: nat, a: Attempt, evicting: bool, k: Key)
    requires ContentsOk(w) && LocksOk(w) && t in w.threads && Attempts(w, w', t, c, a, evicting) && k in Cached(w')
    requires Cached(w)[k].client != c || a == Panicked
    ensures ClosingOk(w', k)
  {
    assert EntryOk(w, k);
    ClosingTransfer(w, w', t, k);
  }

  /** After an attempt of `close()` that returns, its thread goes on to remove the entry. */
  lemma AttemptorRemoves(w: World, w': World, t: nat, c: nat, a: Attempt, k: Key)
    requires t in w.threads && Attempts(w, w', t, c, a, false) && a != Panicked
    requires k in Cached(w') && Cached(w')[k].client == c
    ensures ClosingOk(w', k)
  {
    assert t in w'.threads && Removing(w'.threads[t].pc) && Target(w', t) == c;
  }

  lemma EvictedIsNotCached(w: World, t: nat, k: Key)
    requires ContentsOk(w) && t in w.threads && k in Cached(w)
    ensures Cached(w)[k].client !in w.threads[t].evicted
  {
    assert ThreadOk(w, t) && EvictedOk(w, t);
    assert IsCached(w, Cached(w)[k].client);
  }

  /** The attempted client is held or on the list, so no thread carries it as newly built. */
  lemma AttemptedIsNotBuilt(w: World, w': World, t: nat, c: nat, a: Attempt, evicting: bool, u: nat)
    requires ContentsOk(w) && LocksOk(w) && t in w.threads && Attempts(w, w', t, c, a, evicting) && u in w.threads
    ensures w.threads[u].built != Some(c)
  {}

  lemma AttemptThreads(w: World, w': World, t: nat, c: nat, a: Attempt, evicting: bool, u: nat)
    requires ContentsOk(w) && LocksOk(w) && t in w.threads && Attempts(w, w', t, c, a, evicting) && u in w.threads
    ensures ThreadOk(w', u)
  {
    AttemptKeepsStanding(w, w', t, c, a, evicting);
    AttemptedIsNotBuilt(w, w', t, c, a, evicting, u);
    assert ThreadOk(w, u) && Shape(w, u);
    AttemptBuilt(w, w', t, c, a, evicting, u);
    EvictedTransfer(w, w', u);
    AttemptRemoving(w, w', t, c, a, evicting, u);
  }

  lemma AttemptBuilt(w: World, w': World, t: nat, c: nat, a: Attempt, evicting: bool, u: nat)
    requires t in w.threads && Attempts(w, w', t, c, a, evicting) && NoNewStanding(w, w')
    requires u in w.threads && BuiltOk(w, u) && w.threads[u].built != Some(c)
    ensures BuiltOk(w', u)
  {}

  lemma AttemptRemoving(w: World, w': World, t: nat, c: nat, a: Attempt, evicting: bool, u: nat)
    requires t in w.threads && Attempts(w, w', t, c, a, evicting)
    requires u in w.threads && RemovingOk(w, u) && VacantOk(w, u) && Fit(w.threads[u])
    ensures RemovingOk(w', u) && VacantOk(w', u)
  {}

  /** Nothing becomes cached, held or evicted by an attempt. */
  ghost predicate NoNewStanding(w: World, w': World) {
    && (forall x :: IsCached(w', x) <==> IsCached(w, x))
    && (forall x :: IsHeld(w', x) <==> IsHeld(w, x))
    && (forall x :: IsEvicted(w', x) ==> IsEvicted(w, x))
  }

  lemma AttemptKeepsStanding(w: World, w': World, t: nat, c: nat, a: Attempt, evicting: bool)
    requires t in w.threads && Attempts(w, w', t, c, a, evicting)
    ensures NoNewStanding(w, w')
  {
    forall x ensures (IsCached(w', x) <==> IsCached(w, x)) && (IsHeld(w', x) <==> IsHeld(w, x)) {
      SameCacheFacts(w, w', x);
      SameObjectFacts(w, w', x);
    }
    forall x ensures IsEvicted(w', x) ==> IsEvicted(w, x) {
      if v :| v in w'.threads && x in w'.threads[v].evicted { assert v in w.threads && x in w.threads[v].evicted; }
    }
  }

  lemma AttemptClients(w: World, w': World, t: nat, c: nat, a: Attempt, evicting: bool, x: nat)
    requires ContentsOk(w) && LocksOk(w) && t in w.threads && Attempts(w, w', t, c, a, evicting) && x in w'.clients
    ensures ClientOk(w', x)
  {
    assert ClientOk(w, x);
    SameCacheFacts(w, w', x);
    if x != c {
      LoadFacts(w, w', t, x);
    } else if !evicting {
      LoadFacts(w, w', t, x);
    }
  }

  lemma AttemptKeeps(w: World, w': World, t: nat, c: nat, a: Attempt, evicting: bool)
    requires ContentsOk(w) && LocksOk(w) && t in w.threads && Attempts(w, w', t, c, a, evicting)
    ensures ContentsOk(w')
  {
    forall k <- Cached(w') ensures EntryOk(w', k) && ClosingOk(w', k) {
      AttemptEntry(w, w', t, c, a, evicting, k);
      AttemptClosing(w, w', t, c, a, evicting, k);
    }
    forall o <- w'.objects ensures HeldOk(w', o) { assert HeldOk(w, o); }
    forall u <- w'.threads ensures ThreadOk(w', u) { AttemptThreads(w, w', t, c, a, evicting, u); }
    forall x <- w'.clients ensures ClientOk(w', x) { AttemptClients(w, w', t, c, a, evicting, x); }
  }

  // `close()` removes the entry of the client it closed, and no other.

  ghost predicate Removes(w: World, w': World, t: nat)
    requires t in w.threads
  {
    && w.threads[t].pc.InRemove? && w.threads[t].op.Close? && w.threads[t].op.obj in w.objects && Moved(w, w', t)
    && w'.cache == Removed(Adopt(w.cache, w.pid), w.threads[t].key, Target(w, t))
    && w'.objects == w.objects && w'.rtPid == w.rtPid && w'.clients == w.clients
    && w'.threads[t] == w.threads[t].(pc := Unlock)
  }

  /** Exactly the closed client stops being cached. */
  lemma RemoveFacts(w: World, w': World, t: nat)
    requires ContentsOk(w) && LocksOk(w) && t in w.threads && Removes(w, w', t)
    ensures forall k :: k in Cached(w') <==> k in Cached(w) && Cached(w)[k].client != Target(w, t)
    ensures forall k :: k in Cached(w') && k in Cached(w) ==> Cached(w')[k] == Cached(w)[k]
    ensures w.clients[Target(w, t)].returned
  {}

  lemma RemoveCached(w: World, w': World, t: nat, c: nat)
    requires ContentsOk(w) && LocksOk(w) && t in w.threads && Removes(w, w', t)
    ensures IsCached(w', c) <==> IsCached(w, c) && c != Target(w, t)
  {
    RemoveFacts(w, w', t);
    if k :| k in Cached(w) && Cached(w)[k].client == c && c != Target(w, t) { assert k in Cached(w') && Cached(w')[k].client == c; }
    if k :| k in Cached(w') && Cached(w')[k].client == c { assert k in Cached(w) && Cached(w)[k].client == c; }
  }

  lemma RemoveEntries(w: World, w': World, t: nat, k: Key)
    requires ContentsOk(w) && LocksOk(w) && t in w.threads && Removes(w, w', t) && k in Cached(w')
    ensures EntryOk(w', k) && ClosingOk(w', k)
  {
    RemoveFacts(w, w', t);
    assert EntryOk(w, k);
    RemoveClosing(w, w', t, k);
  }

  /** A closed client that stays cached is some other thread's to remove. */
  lemma RemoveClosing(w: World, w': World, t: nat, k: Key)
    requires t in w.threads && Removes(w, w', t) && k in Cached(w) && k in Cached(w') && ClosingOk(w, k)
    requires Cached(w)[k].client == Cached(w')[k].client != Target(w, t)
    ensures ClosingOk(w', k)
  {
    var c := Cached(w)[k].client;
    if c in w.clients && w.clients[c].returned {
      var u :| u in w.threads && Removing(w.threads[u].pc) && w.threads[u].op.Close? &&
               w.threads[u].op.obj in w.objects && Target(w, u) == c;
      assert u in w'.threads && Removing(w'.threads[u].pc) && Target(w', u) == c;
    }
  }

  lemma RemoveKeeps(w: World, w': World, t: nat)
    requires ContentsOk(w) && LocksOk(w) && t in w.threads && Removes(w, w', t)
    ensures ContentsOk(w')
  {
    RemoveFacts(w, w', t);
    forall k <- Cached(w') ensures EntryOk(w', k) && ClosingOk(w', k) { RemoveEntries(w, w', t, k); }
    forall o <- w'.objects ensures HeldOk(w', o) { assert HeldOk(w, o); }
    forall u <- w'.threads ensures ThreadOk(w', u) { RemoveThreads(w, w', t, u); }
    forall x <- w'.clients ensures ClientOk(w', x) {
      assert ClientOk(w, x);
      RemoveCached(w, w', t, x);
      LoadFacts(w, w', t, x);
    }
  }

  lemma RemoveThreads(w: World, w': World, t: nat, u: nat)
    requires ContentsOk(w) && LocksOk(w) && t in w.threads && Removes(w, w', t) && u in w.threads
    ensures ThreadOk(w', u)
  {
    RemoveFacts(w, w', t);
    assert ThreadOk(w, u) && Shape(w, u);
    RemoveBuilt(w, w', t, u);
    forall x <- w.threads[u].evicted ensures (IsCached(w', x) ==> IsCached(w, x)) && (IsHeld(w', x) ==> IsHeld(w, x)) {
      SameObjectFacts(w, w', x);
      RemoveCached(w, w', t, x);
    }
    EvictedTransfer(w, w', u);
    assert VacantOk(w', u) && RemovingOk(w', u);
  }

  lemma RemoveBuilt(w: World, w': World, t: nat, u: nat)
    requires t in w.threads && Removes(w, w', t) && u in w.threads && BuiltOk(w, u)
    ensures BuiltOk(w', u)
  {
    if w.threads[u].built.Some? {
      SameObjectFacts(w, w', w.threads[u].built.value);
      LoadlessEvicted(w, w', t, w.threads[u].built.value);
    }
  }

  // The removal loop takes one entry that nothing else keeps.

  ghost predicate Ejects(w: World, w': World, t: nat, k: Key)
    requires t in w.threads
  {
    && w.threads[t].pc.Evicting? && Moved(w, w', t) && w'.threads[t].pc.Evicting?
    && k in Cached(w) && w'.cache == Cache(w.pid, Cached(w) - {k})
    && w'.objects == w.objects && w'.clients == w.clients && w'.rtPid == w.rtPid
    && w'.threads[t].built == w.threads[t].built
    && w'.threads[t].evicted == w.threads[t].evicted + [Cached(w)[k].client]
  }

  /** Exactly that entry's client stops being cached, and exactly it joins the thread's list. */
  lemma EjectFacts(w: World, w': World, t: nat, k: Key, x: nat)
    requires t in w.threads && k in Cached(w) && Ejects(w, w', t, k)
    requires forall l <- Cached(w) :: Cached(w)[l].client == Cached(w)[k].client ==> l == k
    ensures IsHeld(w', x) <==> IsHeld(w, x)
    ensures IsBuilt(w', x) <==> IsBuilt(w, x)
    ensures IsCached(w', x) <==> IsCached(w, x) && x != Cached(w)[k].client
  {
    if u :| u in w.threads && w.threads[u].built == Some(x) {
      assert u in w'.threads && w'.threads[u].built == Some(x);
    }
    if l :| l in Cached(w) && Cached(w)[l].client == x && x != Cached(w)[k].client {
      assert l in Cached(w') && Cached(w')[l].client == x;
    }
    if l :| l in Cached(w') && Cached(w')[l].client == x {
      assert l in Cached(w) && Cached(w)[l].client == x;
    }
  }

  lemma EjectEvicted(w: World, w': World, t: nat, k: Key, x: nat)
    requires t in w.threads && k in Cached(w) && Ejects(w, w', t, k)
    ensures IsEvicted(w', x) <==> IsEvicted(w, x) || x == Cached(w)[k].client
  {
    if u :| u in w.threads && x in w.threads[u].evicted {
      assert u in w'.threads && x in w'.threads[u].evicted;
    }
    if x == Cached(w)[k].client {
      assert w'.threads[t].evicted[|w.threads[t].evicted|] == x;
      assert t in w'.threads && x in w'.threads[t].evicted;
    }
  }

  lemma EjectEntries(w: World, w': World, t: nat, k: Key, l: Key)
    requires ContentsOk(w) && LocksOk(w) && t in w.threads && Ejects(w, w', t, k) && l in Cached(w')
    ensures EntryOk(w', l) && ClosingOk(w', l)
  {
    assert l in Cached(w) && EntryOk(w, l);
    ClosingTransfer(w, w', t, l);
  }

  lemma EjectBuilt(w: World, w': World, t: nat, k: Key, u: nat)
    requires t in w.threads && k in Cached(w) && Ejects(w, w', t, k) && Alone(w, k) && u in w.threads && BuiltOk(w, u)
    ensures BuiltOk(w', u)
  {
    if w.threads[u].built.Some? {
      EjectFacts(w, w', t, k, w.threads[u].built.value);
      EjectEvicted(w, w', t, k, w.threads[u].built.value);
      assert IsBuilt(w, w.threads[u].built.value);
    }
  }

  lemma EjectLists(w: World, w': World, t: nat, k: Key, u: nat)
    requires t in w.threads && k in Cached(w) && Ejects(w, w', t, k) && Alone(w, k) && EntryOk(w, k)
    requires u in w.threads && EvictedOk(w, u)
    ensures EvictedOk(w', u)
  {
    forall x <- w'.threads[u].evicted
      ensures x in w'.clients && w'.clients[x].pid == w'.pid && !IsCached(w', x) && !IsHeld(w', x)
    {
      EjectFacts(w, w', t, k, x);
      assert x in w.threads[u].evicted || x == Cached(w)[k].client;
    }
  }

  lemma EjectThreads(w: World, w': World, t: nat, k: Key, u: nat)
    requires ContentsOk(w) && LocksOk(w) && t in w.threads && k in Cached(w) && Ejects(w, w', t, k) && Alone(w, k)
    requires u in w.threads
    ensures ThreadOk(w', u)
  {
    assert ThreadOk(w, u) && EntryOk(w, k);
    EjectBuilt(w, w', t, k, u);
    EjectLists(w, w', t, k, u);
    assert VacantOk(w', u) && RemovingOk(w', u);
  }

  lemma EjectClients(w: World, w': World, t: nat, k: Key, x: nat)
    requires ContentsOk(w) && t in w.threads && k in Cached(w) && Ejects(w, w', t, k) && Alone(w, k) && x in w'.clients
    ensures ClientOk(w', x)
  {
    assert ClientOk(w, x);
    EjectFacts(w, w', t, k, x);
    EjectEvicted(w, w', t, k, x);
  }

  lemma EjectHandles(w: World, w': World, t: nat, k: Key, o: nat)
    requires ContentsOk(w) && t in w.threads && k in Cached(w) && Ejects(w, w', t, k) && Alone(w, k) && o in w'.objects
    ensures HeldOk(w', o)
  {
    assert HeldOk(w, o) && IsHeld(w, w.objects[o]);
  }

  lemma EjectKeeps(w: World, w': World, t: nat, k: Key)
    requires ContentsOk(w) && LocksOk(w) && t in w.threads && k in Cached(w) && Ejects(w, w', t, k) && Alone(w, k)
    ensures ContentsOk(w')
  {
    forall l <- Cached(w') ensures EntryOk(w', l) && ClosingOk(w', l) { EjectEntries(w, w', t, k, l); }
    forall o <- w'.objects ensures HeldOk(w', o) { EjectHandles(w, w', t, k, o); }
    forall u <- w'.threads ensures ThreadOk(w', u) { EjectThreads(w, w', t, k, u); }
    forall x <- w'.clients ensures ClientOk(w', x) { EjectClients(w, w', t, k, x); }
  }

  // The inserting connect stores the client it built.

  ghost predicate Stores(w: World, w': World, t: nat)
    requires t in w.threads
  {
    && w.threads[t].pc.Storing? && w.threads[t].built.Some? && Advances(w, w', t)
    && w'.clients == w.clients && w'.rtPid == w.rtPid && w'.cache.pid == w.pid
    && w'.cache == Inserted(Cache(w.pid, Cached(w)), w.threads[t].key, Entry(w.threads[t].built.value, w.clock))
    && w'.threads[t] == w.threads[t].(pc := Unlock, built := None)
  }

  /** The key is vacant, so `or_insert` inserts: the fresh client is never discarded. */
  lemma StoreFacts(w: World, w': World, t: nat)
    requires ContentsOk(w) && t in w.threads && Stores(w, w', t)
    ensures var key, c := w.threads[t].key, w.threads[t].built.value;
      && key !in Cached(w) && Cached(w') == Cached(w)[key := Entry(c, w.clock)]
      && Untouched(w, c) && w.clients[c].key == key && !IsHeld(w, c) && !IsCached(w, c) && !IsEvicted(w, c)
  {
    assert ThreadOk(w, t) && Missed(w.threads[t]);
    BuiltIsNotCached(w, t);
  }

  lemma StoreStanding(w: World, w': World, t: nat, x: nat)
    requires ContentsOk(w) && t in w.threads && Stores(w, w', t)
    ensures IsCached(w', x) <==> IsCached(w, x) || x == w.threads[t].built.value
    ensures IsHeld(w', x) ==> IsHeld(w, x) || x == w.threads[t].built.value
    ensures IsEvicted(w', x) <==> IsEvicted(w, x)
  {
    StoreFacts(w, w', t);
    LoadlessEvicted(w, w', t, x);
    var key := w.threads[t].key;
    if k :| k in Cached(w) && Cached(w)[k].client == x {
      assert k in Cached(w') && Cached(w')[k].client == x;
    }
    assert key in Cached(w') && Cached(w')[key].client == w.threads[t].built.value;
  }

  lemma StoreEntries(w: World, w': World, t: nat, k: Key)
    requires ContentsOk(w) && LocksOk(w) && t in w.threads && Stores(w, w', t) && k in Cached(w')
    ensures EntryOk(w', k) && ClosingOk(w', k)
  {
    StoreFacts(w, w', t);
    if k != w.threads[t].key {
      assert EntryOk(w, k);
      ClosingTransfer(w, w', t, k);
    }
  }

  lemma StoreHandles(w: World, w': World, t: nat, o: nat)
    requires ContentsOk(w) && t in w.threads && Stores(w, w', t) && o in w'.objects
    ensures HeldOk(w', o)
  {
    StoreFacts(w, w', t);
    if o in w.objects && w.objects[o] == w'.objects[o] {
      assert HeldOk(w, o);
    }
  }

  lemma StoreVacant(w: World, w': World, t: nat, u: nat)
    requires ContentsOk(w) && GuardsOk(w) && t in w.threads && Stores(w, w', t) && u in w.threads && Fit(w.threads[u])
    ensures VacantOk(w', u)
  {
    assert ThreadOk(w, u);
    if u != t && Missed(w.threads[u]) {
      StoreFacts(w, w', t);
      MissedAlone(w, t, u);
    }
  }

  /** No other thread waits to store a client under the key of the storing thread. */
  lemma MissedAlone(w: World, t: nat, u: nat)
    requires GuardsOk(w) && t in w.threads && u in w.threads && t != u
    requires w.threads[t].pc.Storing? && Missed(w.threads[u])
    ensures w.threads[t].key != w.threads[u].key
  {
    if w.threads[u].key == w.threads[t].key {
      OneThreadPerKey(w, t, u);
    }
  }

  lemma StoreBuilt(w: World, w': World, t: nat, u: nat)
    requires ContentsOk(w) && LocksOk(w) && GuardsOk(w) && t in w.threads && Stores(w, w', t) && u in w.threads
    ensures BuiltOk(w', u)
  {
    assert ThreadOk(w, u);
    if u != t && w.threads[u].built.Some? {
      StoreStanding(w, w', t, w.threads[u].built.value);
      TwoBuiltDiffer(w, t, u);
    }
  }

  lemma StoreLists(w: World, w': World, t: nat, u: nat)
    requires ContentsOk(w) && t in w.threads && Stores(w, w', t) && u in w.threads
    ensures EvictedOk(w', u)
  {
    StoreFacts(w, w', t);
    assert ThreadOk(w, u);
    forall x <- w.threads[u].evicted ensures (IsCached(w', x) ==> IsCached(w, x)) && (IsHeld(w', x) ==> IsHeld(w, x)) {
      StoreStanding(w, w', t, x);
      assert IsEvicted(w, x);
    }
    EvictedTransfer(w, w', u);
  }

  lemma StoreThreads(w: World, w': World, t: nat, u: nat)
    requires ContentsOk(w) && LocksOk(w) && GuardsOk(w) && t in w.threads && Stores(w, w', t) && u in w.threads
    ensures ThreadOk(w', u)
  {
    assert ThreadOk(w, u) && Shape(w, u);
    StoreVacant(w, w', t, u);
    StoreBuilt(w, w', t, u);
    StoreLists(w, w', t, u);
    assert RemovingOk(w', u);
  }

  /** Two threads never carry the same fresh client. */
  lemma TwoBuiltDiffer(w: World, t: nat, u: nat)
    requires ContentsOk(w) && LocksOk(w) && GuardsOk(w) && t in w.threads && u in w.threads && t != u
    requires w.threads[t].built.Some? && w.threads[u].built.Some?
    ensures w.threads[t].built != w.threads[u].built
  {
    BuiltInSection(w, t);
    BuiltInSection(w, u);
    if w.threads[t].key == w.threads[u].key {
      OneThreadPerKey(w, t, u);
    }
  }

  lemma BuiltInSection(w: World, t: nat)
    requires ContentsOk(w) && LocksOk(w) && t in w.threads && w.threads[t].built.Some?
    ensures InSection(w.threads[t].pc)
    ensures w.threads[t].built.value in w.clients && w.clients[w.threads[t].built.value].key == w.threads[t].key
  {
    assert Shape(w, t) && ThreadOk(w, t);
  }

  lemma StoreClients(w: World, w': World, t: nat, x: nat)
    requires ContentsOk(w) && t in w.threads && Stores(w, w', t) && x in w'.clients
    ensures ClientOk(w', x)
  {
    assert ClientOk(w, x);
    StoreStanding(w, w', t, x);
    if u :| u in w.threads && w.threads[u].built == Some(x) {
      assert u != t ==> u in w'.threads && w'.threads[u].built == Some(x);
    }
  }

  lemma StoreKeeps(w: World, w': World, t: nat)
    requires ContentsOk(w) && LocksOk(w) && GuardsOk(w) && t in w.threads && Stores(w, w', t)
    ensures ContentsOk(w')
  {
    forall k <- Cached(w') ensures EntryOk(w', k) && ClosingOk(w', k) { StoreEntries(w, w', t, k); }
    forall o <- w'.objects ensures HeldOk(w', o) { StoreHandles(w, w', t, o); }
    forall u <- w'.threads ensures ThreadOk(w', u) { StoreThreads(w, w', t, u); }
    forall x <- w'.clients ensures ClientOk(w', x) { StoreClients(w, w', t, x); }
  }
}
