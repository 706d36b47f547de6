/**
 The invariant of every run: the locks, the guard table, what the cache holds, and what an
 eviction sweep in progress knows about the entries it has looked at.
*/
module CacheInvariant {
  import opened CacheContents
  import opened CacheEffects
  import opened CacheLocks
  import opened CacheProtocol
  import opened CacheSpec
  import opened Wrappers

  // ---------------------------------------------------------------------------------------
  //  A sweep in progress
  // ---------------------------------------------------------------------------------------

  predicate Sweeping(pc: Pc) {
    pc.Scanning? || pc.Evicting? || pc.Storing?
  }

  /** The cache is what it was when the sweep began, without the keys removed since. */
  predicate SweepCache(w: World, s: Sweep) {
    && w.cache.pid == w.pid && Cached(w) == s.before - Keys(s.keys)
    && s.todo <= s.before.Keys && s.idle <= s.before.Keys
  }

  /** The removals so far are a stage of an eviction, and their clients are the thread's to close. */
  ghost predicate SweepStage(th: Thread) {
    var s := th.sweep;
    && (th.pc.Scanning? ==> s.keys == []) && (th.pc.Scanning? || s.todo == {})
    && (th.pc.Storing? ==> Eviction(s.before, s.idle, s.cap, s.keys))
    && EvictedSoFar(s.before, s.idle, s.cap, s.keys)
    && |th.evicted| == |s.keys|
    && forall i :: 0 <= i < |s.keys| ==> s.keys[i] in s.before && th.evicted[i] == s.before[s.keys[i]].client
  }

  /** A key seen idle and not yet removed has its entry, which alone keeps its client. */
  predicate SeenAlone(w: World, s: Sweep) {
    forall k <- Left(s) :: k in Cached(w) && Alone(w, k)
  }

  ghost predicate SweepOk(w: World, t: nat)
    requires t in w.threads
  {
    var th := w.threads[t];
    Sweeping(th.pc) ==> SweepCache(w, th.sweep) && SweepStage(th) && SeenAlone(w, th.sweep)
  }

  ghost predicate SweepsOk(w: World) {
    forall t <- w.threads :: SweepOk(w, t)
  }

  ghost predicate Inv(w: World) {
    LocksOk(w) && GuardsOk(w) && ContentsOk(w) && SweepsOk(w)
  }

  // ---------------------------------------------------------------------------------------
  //  Steps beside a sweep
  // ---------------------------------------------------------------------------------------

  /** The cache stays, and no client gains a holder unless it has one already or is new. */
  ghost predicate NoNewHolders(w: World, w': World) {
    && w'.pid == w.pid && w'.cache == w.cache
    && (forall o <- w'.objects :: IsHeld(w, w'.objects[o]))
    && (forall u <- w'.threads :: w'.threads[u].built.Some? ==>
          IsBuilt(w, w'.threads[u].built.value) || w'.threads[u].built.value !in w.clients)
    && (forall u <- w'.threads :: forall c <- w'.threads[u].evicted :: IsEvicted(w, c))
  }

  lemma AloneStays(w: World, w': World, k: Key)
    requires NoNewHolders(w, w') && k in Cached(w) && Alone(w, k) && Cached(w)[k].client in w.clients
    ensures k in Cached(w') && Alone(w', k)
  {}

  lemma SweepStays(w: World, w': World, t: nat)
    requires NoNewHolders(w, w') && t in w.threads && t in w'.threads && w'.threads[t] == w.threads[t]
    requires SweepOk(w, t) && forall k <- Cached(w) :: EntryOk(w, k)
    ensures SweepOk(w', t)
  {
    if Sweeping(w.threads[t].pc) {
      forall k <- Left(w.threads[t].sweep) ensures k in Cached(w') && Alone(w', k) {
        assert EntryOk(w, k);
        AloneStays(w, w', k);
      }
    }
  }

  /** A thread outside the cache mutex gives no client a holder. */
  lemma OutsideGivesNoHolder(w: World, w': World, u: nat)
    requires u in w.threads && Moved(w, w', u) && StaysOut(w, w', u) && !InClients(w.threads[u].pc)
    ensures NoNewHolders(w, w')
  {
    forall v <- w'.threads ensures forall c <- w'.threads[v].evicted :: IsEvicted(w, c) {
      assert v in w.threads;
    }
  }

  /** While a thread sweeps, no other is inside the cache mutex. */
  lemma SweepsAlone(w: World, t: nat, u: nat)
    requires LocksOk(w) && t in w.threads && u in w.threads && t != u && Sweeping(w.threads[t].pc)
    ensures !InClients(w.threads[u].pc)
  {
    if InClients(w.threads[u].pc) {
      OneInside(w, t, u);
    }
  }

  lemma OthersSweepStays(w: World, w': World, u: nat, t: nat)
    requires LocksOk(w) && ContentsOk(w) && SweepsOk(w) && u in w.threads && t in w.threads && t != u
    requires Moved(w, w', u) && StaysOut(w, w', u)
    ensures SweepOk(w', t)
  {
    assert SweepOk(w, t);
    if Sweeping(w.threads[t].pc) {
      SweepsAlone(w, t, u);
      OutsideGivesNoHolder(w, w', u);
      SweepStays(w, w', t);
    }
  }

  // ---------------------------------------------------------------------------------------
  //  The sweep's own steps
  // ---------------------------------------------------------------------------------------

  lemma StartKeepsSweep(w: World, t: nat, cap: nat)
    requires t in w.threads && w.threads[t].pc.InInsert? && w.threads[t].evicted == []
    ensures SweepOk(DoStart(w, t, cap), t)
  {}

  /** Only the sweep itself has changed. */
  lemma OnlySweepMoves(w: World, w': World, t: nat, k: Key)
    requires t in w.threads && t in w'.threads
    requires w' == At(w, t, w.threads[t].(pc := w'.threads[t].pc, sweep := w'.threads[t].sweep))
    requires k in Cached(w) && Alone(w, k)
    ensures Alone(w', k)
  {
    forall c: nat ensures IsBuilt(w', c) ==> IsBuilt(w, c) {
      if u :| u in w'.threads && w'.threads[u].built == Some(c) { assert u in w.threads && w.threads[u].built == Some(c); }
    }
    forall c: nat ensures IsEvicted(w', c) ==> IsEvicted(w, c) {
      if u :| u in w'.threads && c in w'.threads[u].evicted { assert u in w.threads && c in w.threads[u].evicted; }
    }
  }

  lemma LookFrame(w: World, t: nat, k: Key)
    requires t in w.threads
    ensures var w' := DoLook(w, t, k);
      && w' == At(w, t, w.threads[t].(pc := w'.threads[t].pc, sweep := w'.threads[t].sweep))
      && w'.threads[t].pc == w.threads[t].pc
      && w'.threads[t].sweep == w.threads[t].sweep.(todo := w.threads[t].sweep.todo - {k}, idle := w'.threads[t].sweep.idle)
      && (w'.threads[t].sweep.idle == w.threads[t].sweep.idle ||
            (w'.threads[t].sweep.idle == w.threads[t].sweep.idle + {k} &&
             k in Cached(w) && |Holders(w, Cached(w)[k].client)| == 1))
  {}

  lemma LookKeepsSweep(w: World, t: nat, k: Key)
    requires t in w.threads && w.threads[t].pc.Scanning? && SweepOk(w, t)
    ensures SweepOk(DoLook(w, t, k), t)
  {
    LookKeepsStage(w, t, k);
    LookKeepsAlone(w, t, k);
  }

  lemma LookKeepsStage(w: World, t: nat, k: Key)
    requires t in w.threads && w.threads[t].pc.Scanning? && SweepCache(w, w.threads[t].sweep) && SweepStage(w.threads[t])
    ensures var th' := DoLook(w, t, k).threads[t]; SweepCache(DoLook(w, t, k), th'.sweep) && SweepStage(th')
  {
    LookFrame(w, t, k);
  }

  lemma LookKeepsAlone(w: World, t: nat, k: Key)
    requires t in w.threads && w.cache.pid == w.pid && SeenAlone(w, w.threads[t].sweep)
    ensures SeenAlone(DoLook(w, t, k), DoLook(w, t, k).threads[t].sweep)
  {
    var w' := DoLook(w, t, k);
    LookFrame(w, t, k);
    forall l <- Left(w'.threads[t].sweep) ensures l in Cached(w') && Alone(w', l) {
      if l !in Left(w.threads[t].sweep) {
        CountOfOneMeansAlone(w, k);
      }
      OnlySweepMoves(w, w', t, l);
    }
  }

  lemma PhaseKeepsSweep(w: World, t: nat)
    requires t in w.threads && (w.threads[t].pc.Scanning? || w.threads[t].pc.Evicting?) && SweepOk(w, t)
    requires if w.threads[t].pc.Evicting? then SweepDone(w, w.threads[t].sweep) else w.threads[t].sweep.todo == {}
    ensures SweepOk(DoSweep(w, t, Go), t)
  {
    var w' := DoSweep(w, t, Go);
    forall l <- Left(w'.threads[t].sweep) ensures l in Cached(w') && Alone(w', l) {
      OnlySweepMoves(w, w', t, l);
    }
    if w.threads[t].pc.Evicting? {
      DoneIsEviction(w, w.threads[t].sweep);
    }
  }

  lemma SizeInSweep(w: World, s: Sweep)
    requires SweepCache(w, s) && EvictedSoFar(s.before, s.idle, s.cap, s.keys)
    ensures |Cached(w)| == |s.before| - |s.keys|
  {
    DistinctCount(s.keys);
    SizeWithout(s.before, s.keys);
  }

  lemma DoneIsEviction(w: World, s: Sweep)
    requires SweepCache(w, s) && EvictedSoFar(s.before, s.idle, s.cap, s.keys) && SweepDone(w, s)
    ensures Eviction(s.before, s.idle, s.cap, s.keys)
  {
    SizeInSweep(w, s);
    assert forall k <- s.idle :: k !in s.keys ==> k in Left(s);
  }

  /** What the removal loop takes next extends the eviction so far. */
  lemma NextExtends(w: World, s: Sweep, k: Key)
    requires SweepCache(w, s) && EvictedSoFar(s.before, s.idle, s.cap, s.keys)
    requires !SweepDone(w, s) && NextToGo(s, k)
    ensures EvictedSoFar(s.before, s.idle, s.cap, s.keys + [k])
  {
    SizeInSweep(w, s);
    forall l | l in s.before && l in s.idle && l !in s.keys ensures s.before[k].lastUsed <= s.before[l].lastUsed {
      assert l in Left(s);
    }
    OneMoreEvicted(s.before, s.idle, s.cap, s.keys, k);
  }

  lemma TakeKeepsStage(w: World, t: nat, k: Key)
    requires t in w.threads && w.threads[t].pc.Evicting? && SweepStage(w.threads[t]) && k in Cached(w)
    requires var s := w.threads[t].sweep;
      k in s.before && Cached(w)[k] == s.before[k] && EvictedSoFar(s.before, s.idle, s.cap, s.keys + [k])
    ensures SweepStage(DoTake(w, t, k).threads[t])
  {}

  lemma TakeKeepsCache(w: World, t: nat, k: Key)
    requires t in w.threads && w.threads[t].pc.Evicting? && SweepOk(w, t) && k in Cached(w)
    ensures SweepCache(DoTake(w, t, k), DoTake(w, t, k).threads[t].sweep)
  {
    var s := w.threads[t].sweep;
    assert Keys(s.keys + [k]) == Keys(s.keys) + {k};
  }

  lemma TakeKeepsSweep(w: World, t: nat, k: Key)
    requires t in w.threads && w.threads[t].pc.Evicting? && SweepOk(w, t)
    requires !SweepDone(w, w.threads[t].sweep) && NextToGo(w.threads[t].sweep, k)
    ensures SweepOk(DoTake(w, t, k), t)
  {
    var w' := DoTake(w, t, k);
    var s := w.threads[t].sweep;
    assert k in Cached(w) && Alone(w, k);
    NextExtends(w, s, k);
    TakeKeepsStage(w, t, k);
    TakeKeepsCache(w, t, k);
    assert Keys(s.keys + [k]) == Keys(s.keys) + {k};
    TakeEjects(w, t, k);
    forall l <- Left(w'.threads[t].sweep) ensures l in Cached(w') && Alone(w', l) {
      assert l in Left(s) && l != k;
      EjectLeavesAlone(w, w', t, k, l);
    }
  }

  lemma TakeEjects(w: World, t: nat, k: Key)
    requires t in w.threads && w.threads[t].pc.Evicting? && k in Cached(w)
    ensures Ejects(w, DoTake(w, t, k), t, k)
  {
    TakeStep(w, t, k);
  }

  lemma EjectLeavesAlone(w: World, w': World, t: nat, k: Key, l: Key)
    requires t in w.threads && k in Cached(w) && Ejects(w, w', t, k) && Alone(w, k)
    requires l in Cached(w) && l != k && Alone(w, l)
    ensures l in Cached(w') && Alone(w', l)
  {
    var c := Cached(w)[l].client;
    EjectFacts(w, w', t, k, c);
    EjectEvicted(w, w', t, k, c);
  }

  lemma SweepProgressKeeps(w: World, t: nat, ch: Choice)
    requires t in w.threads && CanProgress(w, t, ch) && SweepOk(w, t) && Fit(w.threads[t])
    requires SweepsOn(w.threads[t].pc)
    ensures SweepOk(DoSweep(w, t, ch), t)
  {
    match ch
    case Cap(cap) => StartKeepsSweep(w, t, cap);
    case Look(k) => LookKeepsSweep(w, t, k);
    case Take(k) => TakeKeepsSweep(w, t, k);
    case Go => PhaseKeepsSweep(w, t);
  }

  predicate SweepsOn(pc: Pc) {
    pc.InInsert? || pc.Scanning? || pc.Evicting?
  }

  lemma SweepStepIsDo(w: World, t: nat, ch: Choice)
    requires t in w.threads && CanProgress(w, t, ch) && SweepsOn(w.threads[t].pc)
    ensures DoProgress(w, t, ch) == DoSweep(w, t, ch)
  {}

  lemma StageIsOutsideSweep(w: World, t: nat, ch: Choice)
    requires t in w.threads && CanProgress(w, t, ch) && PassesStage(w.threads[t].pc)
    ensures t in DoProgress(w, t, ch).threads && !Sweeping(DoProgress(w, t, ch).threads[t].pc)
  {
    if w.threads[t].pc.InRelease? || w.threads[t].pc.Forgetting? {
      ReleaseFrame(w, t);
    }
  }

  lemma ClientsIsOutsideSweep(w: World, t: nat, ch: Choice)
    requires t in w.threads && CanProgress(w, t, ch) && InClients(w.threads[t].pc) && !SweepsOn(w.threads[t].pc)
    ensures t in DoProgress(w, t, ch).threads && !Sweeping(DoProgress(w, t, ch).threads[t].pc)
  {
    if w.threads[t].pc.InLookup? {
      LookupFrame(w, t, ch.obj);
    }
  }

  lemma EnterIsOutsideSweep(w: World, t: nat)
    requires t in w.threads && Asks(w.threads[t].pc).Some?
    ensures t in DoEnter(w, t).threads && !Sweeping(DoEnter(w, t).threads[t].pc)
  {}

  lemma RuntimeIsOutsideSweep(w: World, t: nat, ch: Choice)
    requires t in w.threads && (w.threads[t].pc.WantRt? || w.threads[t].pc.InRt?)
    ensures t in DoRuntime(w, t, ch).threads && !Sweeping(DoRuntime(w, t, ch).threads[t].pc)
  {
    if w.threads[t].pc.InRt? || w.rtPid == w.pid {
      RuntimeFrame(w, t, ch);
    }
  }

  lemma AttemptIsOutsideSweep(w: World, t: nat, c: nat, a: Attempt)
    requires t in w.threads && c in w.clients && (w.threads[t].pc.Closing? || w.threads[t].pc.CloseEvicted?)
    ensures t in DoAttempt(w, t, c, a).threads && !Sweeping(DoAttempt(w, t, c, a).threads[t].pc)
  {}

  lemma CallIsOutsideSweep(w: World, t: nat, ch: Choice)
    requires t in w.threads && CanProgress(w, t, ch) && !PassesStage(w.threads[t].pc) && !InClients(w.threads[t].pc)
    ensures t in DoProgress(w, t, ch).threads && !Sweeping(DoProgress(w, t, ch).threads[t].pc)
  {
    match w.threads[t].pc
    case WantRt => RuntimeIsOutsideSweep(w, t, ch);
    case InRt => RuntimeIsOutsideSweep(w, t, ch);
    case Building =>
    case Closing => AttemptIsOutsideSweep(w, t, Target(w, t), ch.attempt);
    case CloseEvicted =>
      if w.threads[t].evicted != [] {
        AttemptIsOutsideSweep(w, t, w.threads[t].evicted[0], ch.attempt);
      }
    case _ => EnterIsOutsideSweep(w, t);
  }

  /** A sweep is entered and left only through its own steps. */
  lemma OutsideSweep(w: World, t: nat, ch: Choice)
    requires t in w.threads && CanProgress(w, t, ch) && !SweepsOn(w.threads[t].pc)
    ensures t in DoProgress(w, t, ch).threads && !Sweeping(DoProgress(w, t, ch).threads[t].pc)
  {
    if PassesStage(w.threads[t].pc) {
      StageIsOutsideSweep(w, t, ch);
    } else if InClients(w.threads[t].pc) {
      ClientsIsOutsideSweep(w, t, ch);
    } else {
      CallIsOutsideSweep(w, t, ch);
    }
  }

  lemma ProgressKeepsSweeps(w: World, t: nat, ch: Choice)
    requires Inv(w) && t in w.threads && CanProgress(w, t, ch)
    ensures SweepsOk(DoProgress(w, t, ch))
  {
    var w' := DoProgress(w, t, ch);
    ProgressAdvances(w, t, ch);
    forall u <- w'.threads ensures SweepOk(w', u) {
      if u != t {
        OthersSweepStays(w, w', t, u);
      } else {
        OwnSweepStays(w, t, ch);
      }
    }
  }

  lemma OwnSweepStays(w: World, t: nat, ch: Choice)
    requires LocksOk(w) && SweepsOk(w) && t in w.threads && CanProgress(w, t, ch)
    ensures t in DoProgress(w, t, ch).threads && SweepOk(DoProgress(w, t, ch), t)
  {
    if SweepsOn(w.threads[t].pc) {
      assert Shape(w, t);
      SweepProgressKeeps(w, t, ch);
    } else {
      OutsideSweep(w, t, ch);
    }
  }

  lemma OtherGivesNoHolder(w: World, a: Action)
    requires LocksOk(w) && Can(w, a) && !a.Progress? && !a.Fork?
    ensures NoNewHolders(w, Do(w, a))
  {
    var w' := Do(w, a);
    forall u <- w'.threads ensures forall c <- w'.threads[u].evicted :: IsEvicted(w, c) {
      assert w'.threads[u].evicted != [] ==> u in w.threads && w.threads[u] == w'.threads[u];
    }
  }

  lemma OtherActionKeepsSweeps(w: World, a: Action)
    requires Inv(w) && Can(w, a) && !a.Progress?
    ensures SweepsOk(Do(w, a))
  {
    var w' := Do(w, a);
    if !a.Fork? {
      OtherGivesNoHolder(w, a);
    }
    forall t <- w'.threads ensures SweepOk(w', t) {
      if Sweeping(w'.threads[t].pc) {
        SweepsGoOn(w, a, t);
        assert SweepOk(w, t);
        SweepStays(w, w', t);
      }
    }
  }

  /** What a new, starting or forking thread does is no sweep. */
  lemma SweepsGoOn(w: World, a: Action, t: nat)
    requires LocksOk(w) && Can(w, a) && !a.Progress? && t in Do(w, a).threads && Sweeping(Do(w, a).threads[t].pc)
    ensures !a.Fork? && t in w.threads && Do(w, a).threads[t] == w.threads[t]
  {}

  // ---------------------------------------------------------------------------------------
  //  Every action
  // ---------------------------------------------------------------------------------------

  lemma BuildProgressKeeps(w: World, t: nat, ch: Choice)
    requires ContentsOk(w) && LocksOk(w) && t in w.threads && CanProgress(w, t, ch)
    requires w.threads[t].pc.Building? && ch.Made?
    ensures ContentsOk(DoProgress(w, t, ch))
  {
    BuildStep(w, t, ch);
    BuildKeeps(w, DoBuild(w, t, ch), t, ch.client);
  }

  lemma AttemptAttempts(w: World, t: nat, c: nat, a: Attempt)
    requires t in w.threads && c in w.clients
    requires (w.threads[t].pc.CloseEvicted? && w.threads[t].evicted != [] && c == w.threads[t].evicted[0]) ||
             (w.threads[t].pc.Closing? && w.threads[t].op.Close? && w.threads[t].op.obj in w.objects && c == Target(w, t))
    ensures Attempts(w, DoAttempt(w, t, c, a), t, c, a, w.threads[t].pc.CloseEvicted?)
  {
    AttemptStep(w, t, c, a);
  }

  lemma AttemptProgressKeeps(w: World, t: nat, ch: Choice)
    requires ContentsOk(w) && LocksOk(w) && t in w.threads && CanProgress(w, t, ch)
    requires w.threads[t].pc.Closing? || (w.threads[t].pc.CloseEvicted? && w.threads[t].evicted != [])
    ensures ContentsOk(DoProgress(w, t, ch))
  {
    var evicting := w.threads[t].pc.CloseEvicted?;
    var c := if evicting then w.threads[t].evicted[0] else Target(w, t);
    AttemptAttempts(w, t, c, ch.attempt);
    AttemptKeeps(w, DoAttempt(w, t, c, ch.attempt), t, c, ch.attempt, evicting);
  }

  lemma RemoveRemoves(w: World, t: nat)
    requires t in w.threads && w.threads[t].pc.InRemove? && w.threads[t].op.Close? && w.threads[t].op.obj in w.objects
    ensures Removes(w, DoRemove(w, t), t)
  {
    RemoveStep(w, t);
  }

  lemma StoreStores(w: World, t: nat, obj: Option<nat>)
    requires t in w.threads && w.threads[t].pc.Storing? && w.threads[t].built.Some? && FreshObject(w, obj)
    ensures Stores(w, DoStore(w, t, obj), t)
  {
    StoreStep(w, t, obj);
  }

  /** What the removal loop takes is still alone in keeping its client. */
  lemma TakenIsAlone(w: World, t: nat, ch: Choice)
    requires SweepsOk(w) && t in w.threads && CanProgress(w, t, ch) && w.threads[t].pc.Evicting? && ch.Take?
    ensures ch.key in Cached(w) && Alone(w, ch.key)
  {
    assert SweepOk(w, t);
  }

  lemma TakeKeepsContents(w: World, t: nat, k: Key)
    requires ContentsOk(w) && LocksOk(w) && t in w.threads && w.threads[t].pc.Evicting? && k in Cached(w) && Alone(w, k)
    ensures ContentsOk(DoTake(w, t, k))
  {
    TakeEjects(w, t, k);
    EjectKeeps(w, DoTake(w, t, k), t, k);
  }

  lemma TakingIsTake(w: World, t: nat, ch: Choice)
    requires t in w.threads && CanProgress(w, t, ch) && w.threads[t].pc.Evicting? && ch.Take?
    ensures DoProgress(w, t, ch) == DoTake(w, t, ch.key)
  {}

  lemma EjectProgressKeeps(w: World, t: nat, ch: Choice)
    requires ContentsOk(w) && LocksOk(w) && SweepsOk(w) && t in w.threads && CanProgress(w, t, ch)
    requires w.threads[t].pc.Evicting? && ch.Take?
    ensures ContentsOk(DoProgress(w, t, ch))
  {
    TakenIsAlone(w, t, ch);
    TakeKeepsContents(w, t, ch.key);
    TakingIsTake(w, t, ch);
  }

  lemma StoreProgressKeeps(w: World, t: nat, ch: Choice)
    requires Inv(w) && t in w.threads && CanProgress(w, t, ch) && w.threads[t].pc.Storing?
    ensures ContentsOk(DoProgress(w, t, ch))
  {
    StoreStores(w, t, ch.obj);
    StoreKeeps(w, DoStore(w, t, ch.obj), t);
  }

  lemma RemoveProgressKeeps(w: World, t: nat, ch: Choice)
    requires Inv(w) && t in w.threads && CanProgress(w, t, ch) && w.threads[t].pc.InRemove?
    ensures ContentsOk(DoProgress(w, t, ch))
  {
    RemoveRemoves(w, t);
    RemoveKeeps(w, DoRemove(w, t), t);
  }

  lemma LoudKeepsContents(w: World, t: nat, ch: Choice)
    requires Inv(w) && t in w.threads && CanProgress(w, t, ch) && Loud(w.threads[t], ch)
    ensures ContentsOk(DoProgress(w, t, ch))
  {
    if w.threads[t].pc.Evicting? {
      EjectProgressKeeps(w, t, ch);
    } else if w.threads[t].pc.Storing? {
      StoreProgressKeeps(w, t, ch);
    } else if w.threads[t].pc.InRemove? {
      RemoveProgressKeeps(w, t, ch);
    } else if w.threads[t].pc.Building? {
      BuildProgressKeeps(w, t, ch);
    } else {
      AttemptProgressKeeps(w, t, ch);
    }
  }

  lemma QuietKeepsContents(w: World, t: nat, ch: Choice)
    requires ContentsOk(w) && LocksOk(w) && t in w.threads && CanProgress(w, t, ch) && !Loud(w.threads[t], ch)
    ensures ContentsOk(DoProgress(w, t, ch))
  {
    assert Shape(w, t) && ThreadOk(w, t);
    ProgressAdvances(w, t, ch);
    ProgressIsQuiet(w, t, ch);
    QuietStepIsQuiet(w, DoProgress(w, t, ch), t);
    QuietlyKeeps(w, DoProgress(w, t, ch));
  }

  /** The child starts with an empty cache, and no client is its own yet. */
  lemma ForkKeepsContents(w: World, t: nat, child: nat)
    requires ContentsOk(w) && LocksOk(w) && Can(w, Fork(t, child))
    ensures ContentsOk(Do(w, Fork(t, child)))
  {
    var w' := Do(w, Fork(t, child));
    assert Cached(w') == map[];
    forall o <- w'.objects ensures HeldOk(w', o) { assert HeldOk(w, o) && ClientOk(w, w.objects[o]); }
    ForkedThread(w, t, child);
    forall c <- w'.clients ensures ClientOk(w', c) { assert ClientOk(w, c); }
  }

  lemma ForkedThread(w: World, t: nat, child: nat)
    requires LocksOk(w) && Can(w, Fork(t, child))
    ensures ThreadOk(Do(w, Fork(t, child)), t)
  {
    assert Shape(w, t);
  }

  lemma StepKeepsContents(w: World, a: Action)
    requires Inv(w) && Can(w, a)
    ensures ContentsOk(Do(w, a))
  {
    match a {
      case Progress(t, ch) =>
        if Loud(w.threads[t], ch) {
          LoudKeepsContents(w, t, ch);
        } else {
          QuietKeepsContents(w, t, ch);
        }
      case Fork(t, child) => ForkKeepsContents(w, t, child);
      case CopyHandle(_, _) => HandlesAreQuiet(w, a); QuietlyKeeps(w, Do(w, a));
      case DropHandle(_) => HandlesAreQuiet(w, a); QuietlyKeeps(w, Do(w, a));
      case Tick => HandlesAreQuiet(w, a); QuietlyKeeps(w, Do(w, a));
      case _ => BeginIsQuiet(w, a); QuietlyKeeps(w, Do(w, a));
    }
  }

  lemma StepKeepsSweeps(w: World, a: Action)
    requires Inv(w) && Can(w, a)
    ensures SweepsOk(Do(w, a))
  {
    if a.Progress? {
      ProgressKeepsSweeps(w, a.thread, a.choice);
    } else {
      OtherActionKeepsSweeps(w, a);
    }
  }

  /** Every cached and every freshly built client is known. */
  lemma ClientsAreKnown(w: World)
    requires ContentsOk(w)
    ensures forall k <- Cached(w) :: Cached(w)[k].client in w.clients
    ensures forall t <- w.threads :: w.threads[t].built.Some? ==> w.threads[t].built.value in w.clients
  {
    forall k <- Cached(w) ensures Cached(w)[k].client in w.clients { assert EntryOk(w, k); }
    forall t <- w.threads ensures w.threads[t].built.Some? ==> w.threads[t].built.value in w.clients {
      assert ThreadOk(w, t) && BuiltOk(w, t);
    }
  }

  /** The inductive step: every action, of any thread, keeps the whole invariant. */
  lemma StepKeeps(w: World, a: Action)
    requires Inv(w) && Can(w, a)
    ensures Inv(Do(w, a))
  {
    ClientsAreKnown(w);
    StepKeepsLocks(w, a);
    StepKeepsGuards(w, a);
    StepKeepsContents(w, a);
    StepKeepsSweeps(w, a);
  }

  lemma {:induction false} RunKeeps(w: World, acts: seq<Action>)
    requires Inv(w) && Runs(w, acts)
    ensures Inv(Run(w, acts))
    decreases |acts|
  {
    if acts == [] {
    } else {
      StepKeeps(w, acts[0]);
      RunKeeps(Do(w, acts[0]), acts[1..]);
    }
  }

  lemma ReachableInv(w: World)
    requires Reachable(w)
    ensures Inv(w)
  {
    var pid: nat, acts :| pid > 0 && Runs(Start(pid), acts) && Run(Start(pid), acts) == w;
    RunKeeps(Start(pid), acts);
  }
}
